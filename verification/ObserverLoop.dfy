/** `observe_cleanup` as the program runs it: one object that shares the inventory's
    memory and the purge attempts with the code it calls. */
module ObserverLoop {
  import opened Wrappers
  import opened Fixture
  import opened Observer
  import PurgeJobs
  import Inventory

  class CleanupObserver {
    const cfg: Config
    const inventory: Inventory.Inventory
    const purge: PurgeJobs.PurgeAttempts
    var lifetimes: set<Lifetime>
    var completedJob: Option<PurgeJobs.Attempt>
    var completedApp: bool
    var deletionStarted: bool
    var purgeSeen: bool
    var liveSize: string
    var pending: set<Inventory.Identity>
    var awaiting: bool
    var bytes: nat
    var receipts: seq<Receipt>
    var last: Option<Report>
    var status: Status
    ghost var events: seq<Event>
    ghost var trace: seq<Note>

    ghost predicate Valid()
      reads this, inventory, purge, purge.attempts
    {
      && inventory.proof == cfg.Proof() && inventory.Valid()
      && purge.policy == cfg.policy && purge.Valid()
    }

    /** The view that this object represents. */
    ghost function Shown(): View
      reads this, inventory, purge
    {
      View(
        Memory(inventory.known, lifetimes),
        Seen(purge.Value(), completedJob, completedApp, deletionStarted, purgeSeen, liveSize, events),
        pending, awaiting, Output(bytes, receipts), last, status, trace)
    }

    constructor (cfg: Config, size: string)
      ensures Valid() && this.cfg == cfg && Shown() == Initial(size)
      ensures fresh(inventory) && fresh(purge) && purge.attempts == []
    {
      this.cfg := cfg;
      inventory := new Inventory.Inventory(cfg.policy.proof);
      purge := new PurgeJobs.PurgeAttempts(cfg.policy);
      lifetimes, pending, receipts := {}, {}, [];
      completedJob, completedApp, deletionStarted, purgeSeen, awaiting := None, false, false, false, false;
      liveSize, bytes, last, status := size, 0, None, Running;
      events, trace := [], [];
    }

    method Emit(receipt: Receipt)
      requires Valid()
      modifies this
      ensures Valid()
      ensures Shown() == Observer.Emit(cfg, old(Shown()), receipt)
    {
      if status.Running? {
        bytes := bytes + cfg.size(receipt);
        if bytes > CHANNEL_BYTES {
          status := Failed(OutputBound);
        } else {
          receipts := receipts + [receipt];
        }
      }
    }

    method SeeJob(row: PurgeJobs.JobRow)
      requires Valid()
      modifies this, inventory, purge, purge.attempts
      ensures Valid()
      ensures Shown() == Observer.SeeJob(cfg, old(Shown()), row)
      ensures old(purge.attempts) <= purge.attempts
      ensures forall i :: |old(purge.attempts)| <= i < |purge.attempts| ==> fresh(purge.attempts[i])
    {
      if !status.Running? {
        return;
      }
      hide PurgeJobs.Follow, PurgeJobs.PurgeAttempts.Valid, Observer.Emit, SeenJob, RememberJob;
      ghost var v := Shown();
      var reply := purge.Observe(row);
      assert purge.Value() == PurgeJobs.Follow(cfg.policy, v.seen.history, row).next;
      if reply.Failure? {
        status := Failed(PurgeRefused(reply.error));
        return;
      }
      NoteJob(row, reply.value);
      purge.CurrentIsShared();
      Emit(JobSeen(row.event, purge.current.View()));
    }

    /** Takes note of a purge row that was accepted. */
    method NoteJob(row: PurgeJobs.JobRow, replaced: bool)
      requires Valid()
      modifies this, inventory
      ensures Valid()
      ensures
        var v := old(Shown());
        Shown() == v.(seen := SeenJob(v.seen, purge.Value(), replaced, row), memory := RememberJob(v.memory, row))
    {
      hide PurgeJobs.PurgeAttempts.Valid, RememberJob, SeenJob;
      ShowJob(row, replaced);
      RememberPurgeJob(row);
    }

    method ShowJob(row: PurgeJobs.JobRow, replaced: bool)
      requires Valid()
      modifies this`completedJob, this`completedApp, this`purgeSeen, this`events
      ensures Valid()
      ensures Shown() == old(Shown().(seen := SeenJob(Shown().seen, purge.Value(), replaced, row)))
    {
      hide PurgeJobs.PurgeAttempts.Valid, PurgeJobs.History.Completion;
      completedJob := purge.Completion();
      completedApp := completedApp && !replaced;
      purgeSeen := true;
      events := events + [JobEvent(row)];
    }

    method RememberPurgeJob(row: PurgeJobs.JobRow)
      requires Valid()
      modifies this`lifetimes, inventory
      ensures Valid()
      ensures Shown() == old(Shown().(memory := RememberJob(Shown().memory, row)))
    {
      hide PurgeJobs.PurgeAttempts.Valid;
      inventory.known := inventory.known[Key(Jobs, row.name) := row.uid];
      lifetimes := lifetimes + {Lifetime(Key(Jobs, row.name), row.uid)};
    }

    method SeeApp(row: AppRow)
      requires Valid()
      modifies this
      ensures Valid()
      ensures Shown() == Observer.SeeApp(cfg, old(Shown()), row)
    {
      hide PurgeJobs.PurgeAttempts.Valid, Observer.Emit, SeenAppState, SeenApp;
      if !status.Running? {
        return;
      }
      var proof := cfg.Proof();
      if row.uid != proof.appUid || row.service != proof.serviceId || row.workspace != proof.namespace {
        status := Failed(ForeignApp);
        return;
      }
      NoteAppState(row);
      if row.purgeComplete != "" && row.purgeComplete != proof.appUid {
        status := Failed(ForeignCompletion);
        return;
      }
      NoteMark(row);
      SeenAppSplits(old(Shown().seen), row);
      Emit(AppSeen(row.event, row.uid, row.resourceVersion, completedApp));
    }

    lemma SeenAppSplits(seen: Seen, row: AppRow)
      ensures
        var next := SeenAppState(seen, row).(completedApp := row.purgeComplete == cfg.Proof().appUid);
        SeenApp(cfg, seen, row) == next.(events := SeenAppState(seen, row).events + [AppEvent(row)])
    {
    }

    method NoteAppState(row: AppRow)
      requires Valid()
      modifies this`deletionStarted, this`liveSize
      ensures Valid()
      ensures Shown() == old(Shown().(seen := SeenAppState(Shown().seen, row)))
    {
      hide PurgeJobs.PurgeAttempts.Valid;
      deletionStarted := deletionStarted || row.deleting != "" || row.event == Deleted;
      liveSize := row.size;
    }

    method NoteMark(row: AppRow)
      requires Valid()
      modifies this`completedApp, this`events
      ensures Valid()
      ensures completedApp == (row.purgeComplete == cfg.Proof().appUid)
      ensures
        var v := old(Shown());
        Shown() == v.(seen := v.seen.(completedApp := completedApp, events := v.seen.events + [AppEvent(row)]))
    {
      hide PurgeJobs.PurgeAttempts.Valid;
      completedApp := row.purgeComplete == cfg.Proof().appUid;
      events := events + [AppEvent(row)];
    }

    method Capture(batch: Batch)
      requires Valid()
      modifies this, inventory, purge, purge.attempts
      ensures Valid()
      ensures Shown() == Observer.Capture(cfg, old(Shown()), batch)
      ensures old(purge.attempts) <= purge.attempts
      ensures forall i :: |old(purge.attempts)| <= i < |purge.attempts| ==> fresh(purge.attempts[i])
    {
      if status.Running? {
        CaptureJobs(batch.jobs);
        CaptureApps(batch.apps);
        trace := trace + [Drained];
      }
    }

    method CaptureJobs(jobs: Drain<PurgeJobs.JobRow>)
      requires Valid() && status.Running?
      modifies this, inventory, purge, purge.attempts
      ensures Valid()
      ensures Shown() == Observer.CaptureJobs(cfg, old(Shown()), jobs)
      ensures old(purge.attempts) <= purge.attempts
      ensures forall i :: |old(purge.attempts)| <= i < |purge.attempts| ==> fresh(purge.attempts[i])
    {
      hide PurgeJobs.PurgeAttempts.Valid, Observer.SeeJob;
      if jobs.Broken? {
        status := Failed(WatchFailed);
        return;
      }
      ghost var v := Shown();
      for n := 0 to |jobs.rows|
        invariant Valid()
        invariant Shown() == SeeJobs(cfg, v, jobs.rows, n)
        invariant old(purge.attempts) <= purge.attempts
        invariant forall i :: |old(purge.attempts)| <= i < |purge.attempts| ==> fresh(purge.attempts[i])
      {
        SeeJob(jobs.rows[n]);
      }
    }

    method CaptureApps(apps: Drain<AppRow>)
      requires Valid()
      modifies this
      ensures Valid()
      ensures Shown() == Observer.CaptureApps(cfg, old(Shown()), apps)
    {
      hide PurgeJobs.PurgeAttempts.Valid, Observer.SeeApp;
      if !status.Running? {
        return;
      }
      if apps.Broken? {
        status := Failed(WatchFailed);
        return;
      }
      ghost var v := Shown();
      for n := 0 to |apps.rows|
        invariant Valid()
        invariant Shown() == SeeApps(cfg, v, apps.rows, n)
      {
        SeeApp(apps.rows[n]);
      }
    }

    method TakeInventory(kube: Inventory.Kube)
      requires Valid()
      modifies this, inventory
      ensures Valid()
      ensures Shown() == Observer.TakeInventory(cfg, old(Shown()), kube)
    {
      hide PurgeJobs.PurgeAttempts.Valid, Inventory.Sweep, LifetimesOf;
      if status.Running? {
        inventory.Run(kube);
        Digest();
      }
    }

    method Digest()
      requires Valid()
      modifies this
      ensures Valid()
      ensures Shown() == Observer.Digest(old(Shown()), inventory.known, inventory.halt, inventory.pending)
    {
      hide PurgeJobs.PurgeAttempts.Valid, LifetimesOf;
      if inventory.halt == Some(Inventory.AwaitPurgeWatch) {
        awaiting, trace := true, trace + [Awaited];
      } else if inventory.halt.Some? {
        status := Failed(SweepRefused(inventory.halt.value));
      } else {
        lifetimes := lifetimes + LifetimesOf(inventory.pending);
        if |lifetimes| > MAX_LIFETIMES {
          status := Failed(TooManyLifetimes);
        } else {
          pending, trace := inventory.pending, trace + [Swept(inventory.pending)];
        }
      }
    }

    method Wait(batch: Batch, final: bool)
      requires Valid()
      modifies this, inventory, purge, purge.attempts
      ensures Valid()
      ensures Shown() == Observer.Wait(cfg, old(Shown()), batch, final)
      ensures old(purge.attempts) <= purge.attempts
      ensures forall i :: |old(purge.attempts)| <= i < |purge.attempts| ==> fresh(purge.attempts[i])
    {
      hide PurgeJobs.PurgeAttempts.Valid, Observer.Capture, Observer.Emit;
      awaiting := false;
      Capture(batch);
      Emit(AwaitingPurgeWatch(final));
    }

    /** Whether the current purge Job is an unapproved one that was seen complete. */
    method IsUnapproved() returns (unapproved: bool)
      requires Valid()
      ensures unapproved == UnapprovedComplete(Shown().seen.history)
    {
      hide PurgeJobs.PurgeAttempts.Valid;
      purge.CurrentIsShared();
      unapproved := && purge.current != null && purge.current.trust == PurgeJobs.Unapproved
                    && purge.current.jobCompleteObserved;
    }

    method MakeReport(volume: Volume) returns (report: Report)
      requires Valid()
      ensures report == ReportOf(Shown(), volume)
    {
      hide PurgeJobs.PurgeAttempts.Valid, UnapprovedComplete;
      var absent := pending == {} && volume == Absent && completedApp;
      var unapproved := IsUnapproved();
      var verdict :=
        if absent && completedJob.Some? then Complete
        else if absent && unapproved then Unapproved
        else Pending;
      var attempts := purge.Views();
      report := Report(verdict, pending, volume, completedJob, attempts, completedApp,
                       if verdict == Pending then None else Some(lifetimes));
    }

    method Conclude(volume: Volume)
      requires Valid()
      modifies this
      ensures Valid()
      ensures Shown() == Observer.Conclude(cfg, old(Shown()), volume)
    {
      hide PurgeJobs.PurgeAttempts.Valid, Observer.Emit, ReportOf;
      if !status.Running? {
        return;
      }
      var report := MakeReport(volume);
      if last != Some(report) {
        Emit(Stated(report));
        last := Some(report);
      }
      if status.Running? {
        if report.verdict == Complete {
          status := Finished(report);
        } else if report.verdict == Unapproved {
          status := Failed(UnapprovedHelper);
        }
      }
    }

    method Settle(volume: Volume, r: Round)
      requires Valid()
      modifies this, inventory, purge, purge.attempts
      ensures Valid()
      ensures Shown() == Observer.Settle(cfg, old(Shown()), volume, r)
      ensures old(purge.attempts) <= purge.attempts
      ensures forall i :: |old(purge.attempts)| <= i < |purge.attempts| ==> fresh(purge.attempts[i])
    {
      hide PurgeJobs.PurgeAttempts.Valid, Observer.TakeInventory, Observer.Wait, Observer.Conclude, UnapprovedComplete;
      var unapproved := IsUnapproved();
      if pending == {} && volume == Absent && completedApp && (completedJob.Some? || unapproved) {
        TakeInventory(r.finalSweep);
      }
      if status.Running? && awaiting {
        Wait(r.onFinalWait, true);
      } else {
        Conclude(volume);
      }
    }

    /** One turn of the loop. */
    method Turn(r: Round)
      requires Valid()
      modifies this, inventory, purge, purge.attempts
      ensures Valid()
      ensures Shown() == Observer.Turn(cfg, old(Shown()), r)
      ensures old(purge.attempts) <= purge.attempts
      ensures forall i :: |old(purge.attempts)| <= i < |purge.attempts| ==> fresh(purge.attempts[i])
    {
      hide PurgeJobs.PurgeAttempts.Valid, Observer.FirstSweep, Observer.SecondDrain, Observer.Wait, Observer.Settle;
      if !status.Running? {
        return;
      }
      SweepFirst(r);
      if status.Running? && awaiting {
        Wait(r.onWait, false);
      } else {
        var volume := if pending == {} then r.volume else NotYetChecked;
        ProbeAndDrain(r);
        Settle(volume, r);
      }
    }

    method SweepFirst(r: Round)
      requires Valid()
      modifies this, inventory, purge, purge.attempts
      ensures Valid()
      ensures Shown() == Observer.FirstSweep(cfg, old(Shown()), r)
      ensures old(purge.attempts) <= purge.attempts
      ensures forall i :: |old(purge.attempts)| <= i < |purge.attempts| ==> fresh(purge.attempts[i])
    {
      hide PurgeJobs.PurgeAttempts.Valid, Observer.TakeInventory, Observer.Capture;
      trace := trace + [RoundBegan];
      Capture(r.first);
      TakeInventory(r.sweep);
    }

    method ProbeAndDrain(r: Round)
      requires Valid()
      modifies this, inventory, purge, purge.attempts
      ensures Valid()
      ensures Shown() == Observer.SecondDrain(cfg, old(Shown()), r)
      ensures old(purge.attempts) <= purge.attempts
      ensures forall i :: |old(purge.attempts)| <= i < |purge.attempts| ==> fresh(purge.attempts[i])
    {
      hide PurgeJobs.PurgeAttempts.Valid, Observer.Capture, Observer.Emit;
      if status.Running? && !deletionStarted && r.sampleDue {
        Emit(Sampled(liveSize, r.sampleProved && liveSize in {"1", "5"}));
      }
      if status.Running? && pending == {} {
        trace := trace + [Probed(r.volume)];
      }
      Capture(r.second);
    }

    method Open(o: Opening)
      requires Valid() && Shown() == Initial(o.size)
      modifies this, inventory, purge, purge.attempts
      ensures Valid()
      ensures Shown() == Observer.Open(cfg, o)
      ensures old(purge.attempts) <= purge.attempts
      ensures forall i :: |old(purge.attempts)| <= i < |purge.attempts| ==> fresh(purge.attempts[i])
    {
      hide PurgeJobs.PurgeAttempts.Valid, Observer.TakeInventory, Observer.Capture, Observer.Emit, StartsBeforeDelete;
      if !StartsBeforeDelete(cfg.Proof(), o) {
        status := Failed(NotBeforeDelete);
        return;
      }
      TakeInventory(o.sweep);
      if !status.Running? {
        return;
      }
      if awaiting {
        status := Failed(SweepRefused(Inventory.AwaitPurgeWatch));
      } else if o.volume != Present {
        status := Failed(BaselineUnproved);
      } else {
        Capture(o.batch);
        if status.Running? {
          if deletionStarted || completedApp || purgeSeen {
            status := Failed(NotBeforeDelete);
          } else {
            Emit(Ready);
          }
        }
      }
    }

    /** A whole run. */
    method Run(o: Opening, rounds: seq<Round>)
      requires Valid() && Shown() == Initial(o.size)
      modifies this, inventory, purge, purge.attempts
      ensures Valid()
      ensures Shown() == Observer.Run(cfg, o, rounds)
    {
      hide PurgeJobs.PurgeAttempts.Valid, Observer.Open, Observer.Turn, Observer.Emit, Initial;
      Open(o);
      ghost var v := Shown();
      for n := 0 to |rounds|
        invariant Valid()
        invariant Shown() == Turns(cfg, v, rounds[..n])
        invariant old(purge.attempts) <= purge.attempts
        invariant forall i :: |old(purge.attempts)| <= i < |purge.attempts| ==> fresh(purge.attempts[i])
      {
        assert rounds[..n + 1][..n] == rounds[..n];
        Turn(rounds[n]);
      }
      assert rounds[..|rounds|] == rounds;
      if status.Running? {
        Emit(Expired(last));
        if status.Running? {
          status := Failed(WindowExpired);
        }
      }
    }
  }
}
