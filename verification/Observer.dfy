/** The loop of `observe_cleanup`: what it drains, sweeps and probes, and the verdict
    that it draws. Everything the outside world answers is an input. */
module Observer {
  import opened Wrappers
  import opened Fixture
  import PurgeJobs
  import Inventory

  const CHANNEL_BYTES := 2097152
  const MAX_LIFETIMES := 1024

  datatype AppRow = AppRow(
    event: EventKind,
    uid: Uid,
    resourceVersion: string,
    deleting: string,
    service: string,
    workspace: string,
    size: string,
    purgeComplete: string)

  /** The rows that the two watches hand over, or that a watch has failed. */
  datatype Drain<T> = Rows(rows: seq<T>) | Broken

  datatype Batch = Batch(jobs: Drain<PurgeJobs.JobRow>, apps: Drain<AppRow>)

  /** What the provider says about the volume; only HTTP 404 means `Absent`. */
  datatype Volume = Present | Absent | Unknown | NotYetChecked

  datatype Lifetime = Lifetime(key: Key, uid: Uid)

  datatype Verdict = Complete | Unapproved | Pending

  datatype Report = Report(
    verdict: Verdict,
    remaining: set<Inventory.Identity>,
    provider: Volume,
    purgeJob: Option<PurgeJobs.Attempt>,
    purgeAttempts: seq<PurgeJobs.Attempt>,
    appCompletionObserved: bool,
    observedLifetimes: Option<set<Lifetime>>)

  datatype Receipt =
    | JobSeen(event: EventKind, attempt: PurgeJobs.Attempt)
    | AppSeen(event: EventKind, uid: Uid, resourceVersion: string, purgeComplete: bool)
    | Ready
    | AwaitingPurgeWatch(final: bool)
    | Sampled(size: string, proved: bool)
    | Stated(report: Report)
    | Expired(last: Option<Report>)

  datatype Fault =
    | NotBeforeDelete
    | BaselineUnproved
    | WatchFailed
    | PurgeRefused(refusal: PurgeJobs.Refusal)
    | ForeignApp
    | ForeignCompletion
    | SweepRefused(halt: Inventory.Halt)
    | TooManyLifetimes
    | OutputBound
    | UnapprovedHelper
    | WindowExpired

  datatype Status = Running | Finished(report: Report) | Failed(fault: Fault)

  /** A row that the observer has processed, and a thing that it has done. */
  datatype Event = JobEvent(job: PurgeJobs.JobRow) | AppEvent(app: AppRow)

  datatype Note =
    | RoundBegan
    | Drained
    | Swept(pending: set<Inventory.Identity>)
    | Awaited
    | Probed(volume: Volume)

  /** `size` is the length of a receipt's JSON text. */
  datatype Config = Config(policy: PurgeJobs.Policy, size: Receipt -> nat)
  {
    function Proof(): Proof {
      policy.proof
    }
  }

  /** What the sweeps remember. */
  datatype Memory = Memory(known: map<Key, Uid>, lifetimes: set<Lifetime>)

  /** What the watches have shown. `events` records the rows processed, in order; the
      original does not keep them. */
  datatype Seen = Seen(
    history: PurgeJobs.History,
    completedJob: Option<PurgeJobs.Attempt>,
    completedApp: bool,
    deletionStarted: bool,
    purgeSeen: bool,
    liveSize: string,
    events: seq<Event>)

  /** What has been printed. */
  datatype Output = Output(bytes: nat, receipts: seq<Receipt>)

  /** The variables of the loop. `trace` records the observations made, in order; the
      original does not keep it. */
  datatype View = View(
    memory: Memory,
    seen: Seen,
    pending: set<Inventory.Identity>,
    awaiting: bool,
    out: Output,
    last: Option<Report>,
    status: Status,
    trace: seq<Note>)
  {
    function Fail(fault: Fault): View {
      this.(status := Failed(fault))
    }

    function Noted(note: Note): View {
      this.(trace := trace + [note])
    }
  }

  function Initial(size: string): View {
    var seen := Seen(PurgeJobs.NOTHING, None, false, false, false, size, []);
    View(Memory(map[], {}), seen, {}, false, Output(0, []), None, Running, [])
  }

  function Print(cfg: Config, out: Output, receipt: Receipt): Output {
    var bytes := out.bytes + cfg.size(receipt);
    Output(bytes, if bytes > CHANNEL_BYTES then out.receipts else out.receipts + [receipt])
  }

  function Emit(cfg: Config, v: View, receipt: Receipt): View {
    if !v.status.Running? then v
    else
      var out := Print(cfg, v.out, receipt);
      v.(out := out, status := if out.bytes > CHANNEL_BYTES then Failed(OutputBound) else Running)
  }

  // ----- capture_events

  function SeenJob(seen: Seen, next: PurgeJobs.History, replaced: bool, row: PurgeJobs.JobRow): Seen {
    seen.(
      history := next,
      completedJob := next.Completion(),
      completedApp := seen.completedApp && !replaced,
      purgeSeen := true,
      events := seen.events + [JobEvent(row)])
  }

  function RememberJob(memory: Memory, row: PurgeJobs.JobRow): Memory {
    var key := Key(Jobs, row.name);
    Memory(memory.known[key := row.uid], memory.lifetimes + {Lifetime(key, row.uid)})
  }

  function SeeJob(cfg: Config, v: View, row: PurgeJobs.JobRow): View {
    if !v.status.Running? then v
    else
      var o := PurgeJobs.Follow(cfg.policy, v.seen.history, row);
      if o.reply.Failure? then v.(seen := v.seen.(history := o.next)).Fail(PurgeRefused(o.reply.error))
      else
        Emit(cfg,
             v.(seen := SeenJob(v.seen, o.next, o.reply.value, row), memory := RememberJob(v.memory, row)),
             JobSeen(row.event, o.next.Current().value))
  }

  /** What every App row of ours shows, and what one shows that is accepted. */
  function SeenAppState(seen: Seen, row: AppRow): Seen {
    seen.(deletionStarted := seen.deletionStarted || row.deleting != "" || row.event == Deleted, liveSize := row.size)
  }

  function SeenApp(cfg: Config, seen: Seen, row: AppRow): Seen {
    SeenAppState(seen, row).(
      completedApp := row.purgeComplete == cfg.Proof().appUid,
      events := seen.events + [AppEvent(row)])
  }

  function SeeApp(cfg: Config, v: View, row: AppRow): View {
    var proof := cfg.Proof();
    if !v.status.Running? then v
    else if row.uid != proof.appUid || row.service != proof.serviceId || row.workspace != proof.namespace
    then v.Fail(ForeignApp)
    else if row.purgeComplete != "" && row.purgeComplete != proof.appUid
    then v.(seen := SeenAppState(v.seen, row)).Fail(ForeignCompletion)
    else
      var marked := row.purgeComplete == proof.appUid;
      Emit(cfg, v.(seen := SeenApp(cfg, v.seen, row)), AppSeen(row.event, row.uid, row.resourceVersion, marked))
  }

  function SeeJobs(cfg: Config, v: View, rows: seq<PurgeJobs.JobRow>, n: nat): View
    requires n <= |rows|
  {
    if n == 0 then v
    else SeeJob(cfg, SeeJobs(cfg, v, rows, n - 1), rows[n - 1])
  }

  function SeeApps(cfg: Config, v: View, rows: seq<AppRow>, n: nat): View
    requires n <= |rows|
  {
    if n == 0 then v else SeeApp(cfg, SeeApps(cfg, v, rows, n - 1), rows[n - 1])
  }

  function CaptureJobs(cfg: Config, v: View, jobs: Drain<PurgeJobs.JobRow>): View {
    if !v.status.Running? then v
    else if jobs.Broken? then v.Fail(WatchFailed)
    else SeeJobs(cfg, v, jobs.rows, |jobs.rows|)
  }

  function CaptureApps(cfg: Config, v: View, apps: Drain<AppRow>): View {
    if !v.status.Running? then v
    else if apps.Broken? then v.Fail(WatchFailed)
    else SeeApps(cfg, v, apps.rows, |apps.rows|)
  }

  /** Both watches are drained, the purge Job first. */
  function Capture(cfg: Config, v: View, batch: Batch): View {
    if !v.status.Running? then v
    else
      CaptureApps(cfg, CaptureJobs(cfg, v, batch.jobs), batch.apps).Noted(Drained)
  }

  // ----- inventory

  function LifetimesOf(pending: set<Inventory.Identity>): set<Lifetime> {
    (set id | id in pending :: Lifetime(id.key, id.uid))
    + set id | id in pending && id.prior.Some? :: Lifetime(id.key, id.prior.value)
  }

  function TakeInventory(cfg: Config, v: View, kube: Inventory.Kube): View {
    if !v.status.Running? then v
    else
      var p := Inventory.Sweep(cfg.Proof(), kube, v.memory.known);
      Digest(v, p.known, p.halt, p.pending)
  }

  /** What the loop makes of the result of a pass. */
  function Digest(v: View, known: map<Key, Uid>, halt: Option<Inventory.Halt>, pending: set<Inventory.Identity>): View {
    if halt == Some(Inventory.AwaitPurgeWatch) then
      v.(memory := v.memory.(known := known), awaiting := true).Noted(Awaited)
    else if halt.Some? then
      v.(memory := v.memory.(known := known)).Fail(SweepRefused(halt.value))
    else
      var memory := Memory(known, v.memory.lifetimes + LifetimesOf(pending));
      if |memory.lifetimes| > MAX_LIFETIMES then v.(memory := memory).Fail(TooManyLifetimes)
      else v.(memory := memory, pending := pending).Noted(Swept(pending))
  }

  // ----- The loop

  /** What the world answers during one turn of the loop. */
  datatype Round = Round(
    first: Batch,
    sweep: Inventory.Kube,
    onWait: Batch,
    sampleDue: bool,
    sampleProved: bool,
    volume: Volume,
    second: Batch,
    finalSweep: Inventory.Kube,
    onFinalWait: Batch)

  /** The pass was cut short: drain once more, say so and go round again. */
  function Wait(cfg: Config, v: View, batch: Batch, final: bool): View {
    Emit(cfg, Capture(cfg, v.(awaiting := false), batch), AwaitingPurgeWatch(final))
  }

  function Sample(cfg: Config, v: View, r: Round): View {
    if v.status.Running? && !v.seen.deletionStarted && r.sampleDue
    then Emit(cfg, v, Sampled(v.seen.liveSize, r.sampleProved && v.seen.liveSize in {"1", "5"}))
    else v
  }

  function Probe(v: View, r: Round): View {
    if v.status.Running? && v.pending == {} then v.Noted(Probed(r.volume)) else v
  }

  predicate UnapprovedComplete(history: PurgeJobs.History) {
    && history.Current().Some?
    && history.Current().value.trust == PurgeJobs.Unapproved
    && history.Current().value.jobCompleteObserved
  }

  predicate AbsenceShown(seen: Seen, pending: set<Inventory.Identity>, volume: Volume) {
    pending == {} && volume == Absent && seen.completedApp
  }

  function Judge(seen: Seen, pending: set<Inventory.Identity>, volume: Volume): Verdict {
    if AbsenceShown(seen, pending, volume) && seen.completedJob.Some? then Complete
    else if AbsenceShown(seen, pending, volume) && UnapprovedComplete(seen.history) then Unapproved
    else Pending
  }

  function ReportOf(v: View, volume: Volume): Report {
    var verdict := Judge(v.seen, v.pending, volume);
    Report(verdict, v.pending, volume, v.seen.completedJob, v.seen.history.attempts, v.seen.completedApp,
           if verdict == Pending then None else Some(v.memory.lifetimes))
  }

  /** A report is printed when it differs from the last one. */
  function State(cfg: Config, v: View, report: Report): View {
    if v.last == Some(report) then v else Emit(cfg, v, Stated(report)).(last := Some(report))
  }

  function Conclude(cfg: Config, v: View, volume: Volume): View {
    if !v.status.Running? then v
    else
      var report := ReportOf(v, volume);
      var stated := State(cfg, v, report);
      if !stated.status.Running? then stated
      else match report.verdict
        case Complete => stated.(status := Finished(report))
        case Unapproved => stated.Fail(UnapprovedHelper)
        case Pending => stated
  }

  /** Everything but the final sweep speaks for a verdict. */
  predicate IsSettled(v: View, volume: Volume) {
    && AbsenceShown(v.seen, v.pending, volume)
    && (v.seen.completedJob.Some? || UnapprovedComplete(v.seen.history))
  }

  /** After the second drain: the final sweep, if everything else is settled. */
  function Settle(cfg: Config, v: View, volume: Volume, r: Round): View {
    var swept := if IsSettled(v, volume) then TakeInventory(cfg, v, r.finalSweep) else v;
    if swept.status.Running? && swept.awaiting then Wait(cfg, swept, r.onFinalWait, true)
    else Conclude(cfg, swept, volume)
  }

  /** The view after the first sweep of a turn, and after its second drain. */
  function FirstSweep(cfg: Config, v: View, r: Round): View {
    TakeInventory(cfg, Capture(cfg, v.Noted(RoundBegan), r.first), r.sweep)
  }

  function SecondDrain(cfg: Config, v: View, r: Round): View {
    Capture(cfg, Probe(Sample(cfg, v, r), r), r.second)
  }

  /** One turn of the loop. */
  function Turn(cfg: Config, v: View, r: Round): View {
    if !v.status.Running? then v
    else
      var swept := FirstSweep(cfg, v, r);
      if swept.status.Running? && swept.awaiting then Wait(cfg, swept, r.onWait, false)
      else Settle(cfg, SecondDrain(cfg, swept, r), if swept.pending == {} then r.volume else NotYetChecked, r)
  }

  function Turns(cfg: Config, v: View, rounds: seq<Round>): View {
    if rounds == [] then v else Turn(cfg, Turns(cfg, v, rounds[..|rounds| - 1]), rounds[|rounds| - 1])
  }

  /** What the world answers before the loop. */
  datatype Opening = Opening(
    size: string,
    initialApps: seq<AppRow>,
    initialJobs: seq<PurgeJobs.JobRow>,
    sweep: Inventory.Kube,
    volume: Volume,
    batch: Batch)

  predicate StartsBeforeDelete(proof: Proof, o: Opening) {
    && |o.initialApps| == 1
    && o.initialApps[0].deleting == ""
    && o.initialApps[0].purgeComplete == ""
    && o.initialApps[0].uid == proof.appUid
    && o.initialJobs == []
  }

  function Open(cfg: Config, o: Opening): View {
    var v := Initial(o.size);
    if !StartsBeforeDelete(cfg.Proof(), o) then v.Fail(NotBeforeDelete)
    else
      var swept := TakeInventory(cfg, v, o.sweep);
      if !swept.status.Running? then swept
      else if swept.awaiting then swept.Fail(SweepRefused(Inventory.AwaitPurgeWatch))
      else if o.volume != Present then swept.Fail(BaselineUnproved)
      else
        var seen := Capture(cfg, swept, o.batch);
        if !seen.status.Running? then seen
        else if seen.seen.deletionStarted || seen.seen.completedApp || seen.seen.purgeSeen
        then seen.Fail(NotBeforeDelete)
        else Emit(cfg, seen, Ready)
  }

  /** A whole run, until the verdict, a fault or the end of the observation window. */
  function Run(cfg: Config, o: Opening, rounds: seq<Round>): View {
    var v := Turns(cfg, Open(cfg, o), rounds);
    if !v.status.Running? then v
    else
      var told := Emit(cfg, v, Expired(v.last));
      if told.status.Running? then told.Fail(WindowExpired) else told
  }

  // ----- What each step leaves alone

  /** Draining and emitting change only what was seen, what is remembered and what was
      printed; they end a run only with a fault of their own. */
  ghost predicate Watched(v: View, w: View) {
    && w == v.(seen := w.seen, memory := w.memory, out := w.out, status := w.status)
    && (!v.status.Running? ==> w == v)
    && (v.status.Running? ==> !Decided(w))
  }

  /** The run has ended with a verdict. */
  ghost predicate Decided(v: View) {
    v.status.Finished? || v.status == Failed(UnapprovedHelper)
  }

  lemma EmitFrame(cfg: Config, v: View, receipt: Receipt)
    ensures Emit(cfg, v, receipt) == v.(out := Emit(cfg, v, receipt).out, status := Emit(cfg, v, receipt).status)
    ensures Watched(v, Emit(cfg, v, receipt))
  {
  }

  lemma SeeJobFrame(cfg: Config, v: View, row: PurgeJobs.JobRow)
    ensures Watched(v, SeeJob(cfg, v, row))
  {
  }

  lemma SeeAppFrame(cfg: Config, v: View, row: AppRow)
    ensures Watched(v, SeeApp(cfg, v, row))
  {
  }

  lemma WatchedOn(u: View, v: View, w: View)
    requires Watched(u, v) && Watched(v, w)
    ensures Watched(u, w)
  {
  }

  lemma {:induction false} SeeJobsFrame(cfg: Config, v: View, rows: seq<PurgeJobs.JobRow>, n: nat)
    requires n <= |rows|
    ensures Watched(v, SeeJobs(cfg, v, rows, n))
  {
    if n > 0 {
      var u := SeeJobs(cfg, v, rows, n - 1);
      assert SeeJobs(cfg, v, rows, n) == SeeJob(cfg, u, rows[n - 1]);
      hide SeeJob, SeeJobs, Watched;
      SeeJobsFrame(cfg, v, rows, n - 1);
      SeeJobFrame(cfg, u, rows[n - 1]);
      WatchedOn(v, u, SeeJob(cfg, u, rows[n - 1]));
    }
  }

  lemma {:induction false} SeeAppsFrame(cfg: Config, v: View, rows: seq<AppRow>, n: nat)
    requires n <= |rows|
    ensures Watched(v, SeeApps(cfg, v, rows, n))
  {
    if n > 0 {
      var u := SeeApps(cfg, v, rows, n - 1);
      assert SeeApps(cfg, v, rows, n) == SeeApp(cfg, u, rows[n - 1]);
      hide SeeApp, SeeApps, Watched;
      SeeAppsFrame(cfg, v, rows, n - 1);
      SeeAppFrame(cfg, u, rows[n - 1]);
      WatchedOn(v, u, SeeApp(cfg, u, rows[n - 1]));
    }
  }

  lemma CaptureFrame(cfg: Config, v: View, batch: Batch)
    ensures Watched(if v.status.Running? then v.Noted(Drained) else v, Capture(cfg, v, batch))
  {
    if v.status.Running? {
      if batch.jobs.Rows? {
        SeeJobsFrame(cfg, v, batch.jobs.rows, |batch.jobs.rows|);
      }
      var w := CaptureJobs(cfg, v, batch.jobs);
      assert Watched(v, w);
      if batch.apps.Rows? {
        SeeAppsFrame(cfg, w, batch.apps.rows, |batch.apps.rows|);
      }
      hide SeeJobs, SeeApps, CaptureJobs;
      assert Watched(w, CaptureApps(cfg, w, batch.apps));
    }
  }

  /** A pass that completes adds its result to the trace; no pass changes what the
      watches have shown. */
  ghost predicate Taken(v: View, w: View) {
    && w == v.(memory := w.memory, pending := w.pending, awaiting := w.awaiting, status := w.status, trace := w.trace)
    && (!v.status.Running? ==> w == v)
    && (v.status.Running? ==> !Decided(w))
    && (w.status.Running? && !w.awaiting ==> w.trace == v.trace + [Swept(w.pending)])
  }

  lemma TakeInventoryFrame(cfg: Config, v: View, kube: Inventory.Kube)
    requires !v.awaiting
    ensures Taken(v, TakeInventory(cfg, v, kube))
  {
  }

  lemma WaitFrame(cfg: Config, v: View, batch: Batch, final: bool)
    requires v.status.Running?
    ensures !Decided(Wait(cfg, v, batch, final))
    ensures !Wait(cfg, v, batch, final).awaiting && Wait(cfg, v, batch, final).last == v.last
  {
    var w := v.(awaiting := false);
    CaptureFrame(cfg, w, batch);
    EmitFrame(cfg, Capture(cfg, w, batch), AwaitingPurgeWatch(final));
    hide Capture, Emit;
  }

  // ----- What a verdict proves

  /** The notes of a turn that settles the matter: in this order, a drain, an empty
      sweep, HTTP 404 from the provider, another drain and a second empty sweep. */
  const SETTLED := [RoundBegan, Drained, Swept({}), Probed(Absent), Drained, Swept({})]

  /** The state of the watches behind a verdict. */
  ghost predicate Justified(seen: Seen, status: Status) {
    && seen.completedApp
    && (status.Finished? ==> seen.completedJob.Some? && status.report.verdict == Complete)
    && (!status.Finished? ==> seen.completedJob.None? && UnapprovedComplete(seen.history))
  }

  lemma ConcludeDecides(cfg: Config, v: View, volume: Volume)
    requires v.status.Running? && Decided(Conclude(cfg, v, volume))
    ensures
      var w := Conclude(cfg, v, volume);
      w.trace == v.trace && w.seen == v.seen && AbsenceShown(v.seen, v.pending, volume) && Justified(w.seen, w.status)
  {
  }

  lemma SettleDecides(cfg: Config, v: View, volume: Volume, r: Round)
    requires v.status.Running? && !v.awaiting && Decided(Settle(cfg, v, volume, r))
    ensures
      var w := Settle(cfg, v, volume, r);
      && w.trace == v.trace + [Swept({})]
      && v.pending == {} && volume == Absent && Justified(w.seen, w.status)
  {
    var swept := if IsSettled(v, volume) then TakeInventory(cfg, v, r.finalSweep) else v;
    TakeInventoryFrame(cfg, v, r.finalSweep);
    hide TakeInventory, UnapprovedComplete;
    if swept.status.Running? && swept.awaiting {
      WaitFrame(cfg, swept, r.onFinalWait, true);
    } else if swept.status.Running? {
      ConcludeDecides(cfg, swept, volume);
    }
  }

  lemma SampleFrame(cfg: Config, v: View, r: Round)
    ensures Watched(v, Sample(cfg, v, r))
  {
  }

  lemma FirstSweepFrame(cfg: Config, v: View, r: Round)
    requires v.status.Running? && !v.awaiting
    ensures
      var w := FirstSweep(cfg, v, r);
      && !Decided(w)
      && w.last == v.last
      && (w.status.Running? && !w.awaiting ==> w.trace == v.trace + [RoundBegan, Drained, Swept(w.pending)])
  {
    var first := Capture(cfg, v.Noted(RoundBegan), r.first);
    CaptureFrame(cfg, v.Noted(RoundBegan), r.first);
    TakeInventoryFrame(cfg, first, r.sweep);
    hide Capture, TakeInventory;
  }

  lemma SecondDrainFrame(cfg: Config, v: View, r: Round)
    requires !Decided(v)
    ensures
      var w := SecondDrain(cfg, v, r);
      && !Decided(w)
      && w.awaiting == v.awaiting && w.last == v.last && w.pending == v.pending
      && (!v.status.Running? ==> w == v)
      && (w.status.Running? && v.pending == {} ==> w.trace == v.trace + [Probed(r.volume), Drained])
  {
    SampleFrame(cfg, v, r);
    CaptureFrame(cfg, Probe(Sample(cfg, v, r), r), r.second);
    hide Capture, Sample;
  }

  lemma TurnDecides(cfg: Config, v: View, r: Round)
    requires v.status.Running? && !v.awaiting && Decided(Turn(cfg, v, r))
    ensures
      var w := Turn(cfg, v, r);
      w.trace == v.trace + SETTLED && Justified(w.seen, w.status)
  {
    var swept := FirstSweep(cfg, v, r);
    FirstSweepFrame(cfg, v, r);
    SecondDrainFrame(cfg, swept, r);
    hide FirstSweep, SecondDrain, Settle, Wait;
    if swept.status.Running? && swept.awaiting {
      WaitFrame(cfg, swept, r.onWait, false);
    } else {
      var second := SecondDrain(cfg, swept, r);
      var volume := if swept.pending == {} then r.volume else NotYetChecked;
      if second.status.Running? {
        SettleDecides(cfg, second, volume, r);
        SettledTrace(v.trace);
      } else {
        SettleStopped(cfg, second, volume, r);
      }
    }
  }

  lemma SettledTrace(trace: seq<Note>)
    ensures trace + [RoundBegan, Drained, Swept({})] + [Probed(Absent), Drained] + [Swept({})] == trace + SETTLED
  {
  }

  lemma SettleStopped(cfg: Config, v: View, volume: Volume, r: Round)
    requires !v.status.Running?
    ensures Settle(cfg, v, volume, r) == v
  {
    hide Wait;
  }

  // ----- What every run keeps

  function JobRows(events: seq<Event>): seq<PurgeJobs.JobRow> {
    if events == [] then []
    else
      var last := events[|events| - 1];
      JobRows(events[..|events| - 1]) + if last.JobEvent? then [last.job] else []
  }

  /** The event begins another lifetime of the purge Job than the one before it. */
  ghost predicate Replaces(events: seq<Event>, j: nat)
    requires j < |events|
  {
    && events[j].JobEvent?
    && var before := JobRows(events[..j]);
    && before != []
    && before[|before| - 1].uid != events[j].job.uid
  }

  /** The mark at position `i` stands at the end of these events. */
  ghost predicate StandsSince(appUid: Uid, events: seq<Event>, i: nat)
    requires i < |events|
  {
    && events[i].AppEvent? && events[i].app.purgeComplete == appUid
    && forall j :: i < j < |events| ==> events[j].JobEvent? && !Replaces(events, j)
  }

  /** The last App row processed carries the completion mark, and the purge Job has not
      been replaced since. */
  ghost predicate MarkStands(appUid: Uid, events: seq<Event>) {
    exists i :: 0 <= i < |events| && StandsSince(appUid, events, i)
  }

  predicate IsDeletion(e: Event) {
    e.AppEvent? && (e.app.deleting != "" || e.app.event == Deleted)
  }

  ghost predicate DeletionSeen(events: seq<Event>) {
    exists i :: 0 <= i < |events| && IsDeletion(events[i])
  }

  /** What the loop's variables say about the rows that it has processed. */
  ghost predicate TellsEvents(cfg: Config, seen: Seen) {
    && PurgeJobs.Replay(cfg.policy, JobRows(seen.events)) == Success(seen.history)
    && seen.completedJob == seen.history.Completion()
    && (seen.completedApp <==> MarkStands(cfg.Proof().appUid, seen.events))
    && (seen.deletionStarted <==> DeletionSeen(seen.events))
    && (seen.purgeSeen <==> JobRows(seen.events) != [])
  }

  lemma JobRowsExtend(events: seq<Event>, e: Event)
    ensures JobRows(events + [e]) == if e.JobEvent? then JobRows(events) + [e.job] else JobRows(events)
  {
  }

  /** The row is for another lifetime of the purge Job than the rows before it. */
  predicate IsOther(rows: seq<PurgeJobs.JobRow>, job: PurgeJobs.JobRow) {
    rows != [] && rows[|rows| - 1].uid != job.uid
  }

  lemma ReplacesExtends(events: seq<Event>, e: Event, j: nat)
    requires j <= |events|
    ensures
      Replaces(events + [e], j) <==>
        if j < |events| then Replaces(events, j) else e.JobEvent? && IsOther(JobRows(events), e.job)
  {
    hide JobRows;
    var all := events + [e];
    if j < |events| {
      assert all[..j] == events[..j];
      assert all[j] == events[j];
    } else {
      assert all[..j] == events;
      assert all[j] == e;
    }
  }

  lemma StandsExtends(appUid: Uid, events: seq<Event>, e: Event, i: nat)
    requires i <= |events|
    ensures
      StandsSince(appUid, events + [e], i) <==>
        if i == |events| then e.AppEvent? && e.app.purgeComplete == appUid
        else StandsSince(appUid, events, i) && e.JobEvent? && !IsOther(JobRows(events), e.job)
  {
    var all := events + [e];
    forall j | 0 <= j < |all|
      ensures all[j] == if j < |events| then events[j] else e
      ensures Replaces(all, j)
          <==> if j < |events| then Replaces(events, j) else e.JobEvent? && IsOther(JobRows(events), e.job)
    {
      ReplacesExtends(events, e, j);
    }
    hide JobRows, Replaces, IsOther;
    if i < |events| {
      assert StandsSince(appUid, all, i) ==> !Replaces(all, |events|);
      if StandsSince(appUid, all, i) {
        forall j | i < j < |events|
          ensures events[j].JobEvent? && !Replaces(events, j)
        {
          assert all[j].JobEvent? && !Replaces(all, j);
        }
      }
    }
  }

  lemma MarkExtends(appUid: Uid, events: seq<Event>, e: Event)
    ensures
      MarkStands(appUid, events + [e]) <==>
        if e.AppEvent? then e.app.purgeComplete == appUid
        else MarkStands(appUid, events) && !IsOther(JobRows(events), e.job)
  {
    var all, n := events + [e], |events|;
    hide StandsSince, JobRows, IsOther;
    forall i | 0 <= i <= n
      ensures
        StandsSince(appUid, all, i) <==>
          if i == n then e.AppEvent? && e.app.purgeComplete == appUid
          else StandsSince(appUid, events, i) && e.JobEvent? && !IsOther(JobRows(events), e.job)
    {
      StandsExtends(appUid, events, e, i);
    }
    if MarkStands(appUid, events) {
      var i :| 0 <= i < n && StandsSince(appUid, events, i);
      assert !e.AppEvent? && !IsOther(JobRows(events), e.job) ==> StandsSince(appUid, all, i);
    }
    assert StandsSince(appUid, all, n) <==> e.AppEvent? && e.app.purgeComplete == appUid;
  }

  lemma DeletionExtends(events: seq<Event>, e: Event)
    ensures DeletionSeen(events + [e]) <==> DeletionSeen(events) || IsDeletion(e)
  {
    hide IsDeletion;
    var all := events + [e];
    assert all[|events|] == e;
    if DeletionSeen(events) {
      var i :| 0 <= i < |events| && IsDeletion(events[i]);
      assert all[i] == events[i];
    }
  }

  lemma SeenJobTells(cfg: Config, seen: Seen, row: PurgeJobs.JobRow)
    requires TellsEvents(cfg, seen)
    requires PurgeJobs.Follow(cfg.policy, seen.history, row).reply.Success?
    ensures
      var o := PurgeJobs.Follow(cfg.policy, seen.history, row);
      TellsEvents(cfg, SeenJob(seen, o.next, o.reply.value, row))
  {
    var rows := JobRows(seen.events);
    PurgeJobs.FollowExtendsReplay(cfg.policy, rows, row);
    JobRowsExtend(seen.events, JobEvent(row));
    MarkExtends(cfg.Proof().appUid, seen.events, JobEvent(row));
    DeletionExtends(seen.events, JobEvent(row));
    hide PurgeJobs.Follow, PurgeJobs.Replay, MarkStands, DeletionSeen, JobRows;
  }

  lemma SeenAppTells(cfg: Config, seen: Seen, row: AppRow)
    requires TellsEvents(cfg, seen)
    ensures TellsEvents(cfg, SeenApp(cfg, seen, row))
  {
    JobRowsExtend(seen.events, AppEvent(row));
    MarkExtends(cfg.Proof().appUid, seen.events, AppEvent(row));
    DeletionExtends(seen.events, AppEvent(row));
    hide PurgeJobs.Replay, MarkStands, DeletionSeen, JobRows;
  }

  ghost predicate Sane(v: View) {
    v.status.Running? || Decided(v)
  }

  /** Every lifetime of every completed sweep and of every processed purge row is
      remembered. */
  ghost predicate RemembersAll(memory: Memory, events: seq<Event>, trace: seq<Note>) {
    && (forall i :: 0 <= i < |events| && events[i].JobEvent? ==>
          Lifetime(Key(Jobs, events[i].job.name), events[i].job.uid) in memory.lifetimes)
    && (forall i :: 0 <= i < |trace| && trace[i].Swept? ==> LifetimesOf(trace[i].pending) <= memory.lifetimes)
  }

  function TotalSize(cfg: Config, receipts: seq<Receipt>): nat {
    if receipts == [] then 0 else TotalSize(cfg, receipts[..|receipts| - 1]) + cfg.size(receipts[|receipts| - 1])
  }

  ghost predicate VerdictFree(receipts: seq<Receipt>) {
    forall i :: 0 <= i < |receipts| && receipts[i].Stated? ==> receipts[i].report.verdict == Pending
  }

  /** The receipts fit the channel. */
  ghost predicate Fits(cfg: Config, v: View) {
    && v.out.bytes == TotalSize(cfg, v.out.receipts) <= CHANNEL_BYTES
    && (v.status.Running? && v.last.Some? ==> v.last.value.verdict == Pending)
  }

  /** No receipt states a verdict, except the last receipt of a run that ends with one. */
  ghost predicate VerdictIsLast(v: View) {
    if Decided(v) then
      && v.out.receipts != []
      && VerdictFree(v.out.receipts[..|v.out.receipts| - 1])
      && v.out.receipts[|v.out.receipts| - 1].Stated?
      && v.out.receipts[|v.out.receipts| - 1].report.verdict == (if v.status.Finished? then Complete else Unapproved)
    else VerdictFree(v.out.receipts)
  }

  /** A run that ended with a fault may have left its flags and counts half-way; what it
      remembers and what it printed holds all the same. */
  ghost predicate Kept(cfg: Config, v: View) {
    && RemembersAll(v.memory, v.seen.events, v.trace)
    && VerdictIsLast(v)
    && (Sane(v) ==> TellsEvents(cfg, v.seen) && Fits(cfg, v))
  }

  lemma EmitKeeps(cfg: Config, v: View, receipt: Receipt)
    requires Kept(cfg, v)
    requires receipt.Stated? ==> receipt.report.verdict == Pending
    ensures Kept(cfg, Emit(cfg, v, receipt))
  {
    hide TellsEvents, RemembersAll, TotalSize;
    if v.status.Running? {
      PrintMeters(cfg, v.out, receipt);
    }
  }

  lemma PrintMeters(cfg: Config, out: Output, receipt: Receipt)
    requires out.bytes == TotalSize(cfg, out.receipts)
    ensures Print(cfg, out, receipt).bytes <= CHANNEL_BYTES ==>
              Print(cfg, out, receipt).bytes == TotalSize(cfg, Print(cfg, out, receipt).receipts)
  {
  }

  lemma SeeJobKeeps(cfg: Config, v: View, row: PurgeJobs.JobRow)
    requires Kept(cfg, v)
    ensures Kept(cfg, SeeJob(cfg, v, row))
  {
    hide TellsEvents;
    if v.status.Running? {
      var o := PurgeJobs.Follow(cfg.policy, v.seen.history, row);
      if o.reply.Success? {
        SeenJobTells(cfg, v.seen, row);
        hide PurgeJobs.Follow, SeenJob;
        var seen := v.(seen := SeenJob(v.seen, o.next, o.reply.value, row), memory := RememberJob(v.memory, row));
        assert RemembersAll(seen.memory, seen.seen.events, seen.trace) by {
          RememberJobRemembers(v, o.next, o.reply.value, row);
        }
        EmitKeeps(cfg, seen, JobSeen(row.event, o.next.Current().value));
      }
    }
  }

  lemma RememberJobRemembers(v: View, next: PurgeJobs.History, replaced: bool, row: PurgeJobs.JobRow)
    requires RemembersAll(v.memory, v.seen.events, v.trace)
    ensures RemembersAll(RememberJob(v.memory, row), SeenJob(v.seen, next, replaced, row).events, v.trace)
  {
  }

  lemma SeeAppKeeps(cfg: Config, v: View, row: AppRow)
    requires Kept(cfg, v)
    ensures Kept(cfg, SeeApp(cfg, v, row))
  {
    hide TellsEvents;
    var marked := row.purgeComplete == cfg.Proof().appUid;
    if v.status.Running? && (row.purgeComplete == "" || marked) {
      SeenAppTells(cfg, v.seen, row);
      EmitKeeps(cfg, v.(seen := SeenApp(cfg, v.seen, row)), AppSeen(row.event, row.uid, row.resourceVersion, marked));
    }
  }

  lemma {:induction false} SeeJobsKeep(cfg: Config, v: View, rows: seq<PurgeJobs.JobRow>, n: nat)
    requires n <= |rows| && Kept(cfg, v)
    ensures Kept(cfg, SeeJobs(cfg, v, rows, n))
  {
    if n > 0 {
      SeeJobsKeep(cfg, v, rows, n - 1);
      hide SeeJob, Kept;
      SeeJobKeeps(cfg, SeeJobs(cfg, v, rows, n - 1), rows[n - 1]);
    }
  }

  lemma {:induction false} SeeAppsKeep(cfg: Config, v: View, rows: seq<AppRow>, n: nat)
    requires n <= |rows| && Kept(cfg, v)
    ensures Kept(cfg, SeeApps(cfg, v, rows, n))
  {
    if n > 0 {
      SeeAppsKeep(cfg, v, rows, n - 1);
      hide SeeApp, Kept;
      SeeAppKeeps(cfg, SeeApps(cfg, v, rows, n - 1), rows[n - 1]);
    }
  }

  lemma NotingKeeps(cfg: Config, v: View, note: Note)
    requires Kept(cfg, v)
    requires note.Swept? ==> LifetimesOf(note.pending) <= v.memory.lifetimes
    ensures Kept(cfg, v.Noted(note))
  {
    hide TellsEvents;
  }

  lemma FailingKeeps(cfg: Config, v: View, fault: Fault)
    requires Kept(cfg, v) && fault != UnapprovedHelper
    ensures v.status.Running? ==> Kept(cfg, v.Fail(fault))
  {
    hide TellsEvents, RemembersAll, TotalSize;
  }

  lemma CaptureKeeps(cfg: Config, v: View, batch: Batch)
    requires Kept(cfg, v)
    ensures Kept(cfg, Capture(cfg, v, batch))
  {
    hide Kept, SeeJobs, SeeApps;
    var w := CaptureJobs(cfg, v, batch.jobs);
    FailingKeeps(cfg, v, WatchFailed);
    if batch.jobs.Rows? {
      SeeJobsKeep(cfg, v, batch.jobs.rows, |batch.jobs.rows|);
    }
    FailingKeeps(cfg, w, WatchFailed);
    if batch.apps.Rows? {
      SeeAppsKeep(cfg, w, batch.apps.rows, |batch.apps.rows|);
    }
    NotingKeeps(cfg, CaptureApps(cfg, w, batch.apps), Drained);
  }

  lemma TakeInventoryKeeps(cfg: Config, v: View, kube: Inventory.Kube)
    requires Kept(cfg, v)
    ensures Kept(cfg, TakeInventory(cfg, v, kube))
  {
    hide Inventory.Sweep, TellsEvents, LifetimesOf;
  }

  lemma WaitKeeps(cfg: Config, v: View, batch: Batch, final: bool)
    requires Kept(cfg, v)
    ensures Kept(cfg, Wait(cfg, v, batch, final))
  {
    assert Kept(cfg, v.(awaiting := false)) by {
      hide TellsEvents, RemembersAll;
    }
    hide Kept, Capture, Emit;
    CaptureKeeps(cfg, v.(awaiting := false), batch);
    EmitKeeps(cfg, Capture(cfg, v.(awaiting := false), batch), AwaitingPurgeWatch(final));
  }

  lemma PendingKeeps(cfg: Config, v: View, report: Report)
    requires Kept(cfg, v) && v.status.Running? && report.verdict == Pending
    ensures Kept(cfg, State(cfg, v, report))
  {
    EmitKeeps(cfg, v, Stated(report));
    hide Emit, TellsEvents, RemembersAll, TotalSize, VerdictFree;
  }

  /** Printing a verdict keeps the meter, and puts the verdict last. */
  lemma VerdictMeters(cfg: Config, v: View, report: Report)
    requires v.status.Running? && Fits(cfg, v) && report.verdict != Pending
    ensures
      var w := State(cfg, v, report);
      if !w.status.Running? then w.out.receipts == v.out.receipts && !Decided(w)
      else
        && w.out.bytes == TotalSize(cfg, w.out.receipts) <= CHANNEL_BYTES
        && w.out.receipts == v.out.receipts + [Stated(report)]
  {
    PrintMeters(cfg, v.out, Stated(report));
    hide TotalSize;
  }

  lemma VerdictComesLast(earlier: seq<Receipt>, report: Report, w: View)
    requires VerdictFree(earlier) && w.out.receipts == earlier + [Stated(report)]
    requires Decided(w) && report.verdict == if w.status.Finished? then Complete else Unapproved
    ensures VerdictIsLast(w)
  {
    assert (earlier + [Stated(report)])[..|earlier|] == earlier;
  }

  lemma VerdictKeeps(cfg: Config, v: View, volume: Volume)
    requires Kept(cfg, v) && v.status.Running? && ReportOf(v, volume).verdict != Pending
    ensures Kept(cfg, Conclude(cfg, v, volume))
  {
    hide TellsEvents, RemembersAll, TotalSize, VerdictFree, ReportOf;
    var report := ReportOf(v, volume);
    VerdictMeters(cfg, v, report);
    assert VerdictFree(v.out.receipts);
    var w := State(cfg, v, report);
    assert w.seen == v.seen && w.memory == v.memory && w.trace == v.trace;
    hide State;
    if w.status.Running? {
      hide VerdictIsLast;
      VerdictComesLast(v.out.receipts, report, Conclude(cfg, v, volume));
    }
  }

  lemma ConcludeKeeps(cfg: Config, v: View, volume: Volume)
    requires Kept(cfg, v)
    ensures Kept(cfg, Conclude(cfg, v, volume))
  {
    hide Kept, State, ReportOf;
    if v.status.Running? {
      var report := ReportOf(v, volume);
      if report.verdict == Pending {
        PendingKeeps(cfg, v, report);
      } else {
        VerdictKeeps(cfg, v, volume);
      }
    }
  }

  lemma TurnKeeps(cfg: Config, v: View, r: Round)
    requires Kept(cfg, v)
    ensures Kept(cfg, Turn(cfg, v, r))
  {
    FirstSweepKeeps(cfg, v, r);
    var swept := FirstSweep(cfg, v, r);
    SecondDrainKeeps(cfg, swept, r);
    hide Kept, FirstSweep, SecondDrain, Wait, Settle;
    WaitKeeps(cfg, swept, r.onWait, false);
    SettleKeeps(cfg, SecondDrain(cfg, swept, r), if swept.pending == {} then r.volume else NotYetChecked, r);
  }

  lemma FirstSweepKeeps(cfg: Config, v: View, r: Round)
    requires Kept(cfg, v)
    ensures Kept(cfg, FirstSweep(cfg, v, r))
  {
    hide Kept, Capture, TakeInventory;
    NotingKeeps(cfg, v, RoundBegan);
    CaptureKeeps(cfg, v.Noted(RoundBegan), r.first);
    TakeInventoryKeeps(cfg, Capture(cfg, v.Noted(RoundBegan), r.first), r.sweep);
  }

  lemma SecondDrainKeeps(cfg: Config, v: View, r: Round)
    requires Kept(cfg, v)
    ensures Kept(cfg, SecondDrain(cfg, v, r))
  {
    hide Kept, Capture, Emit;
    EmitKeeps(cfg, v, Sampled(v.seen.liveSize, r.sampleProved && v.seen.liveSize in {"1", "5"}));
    NotingKeeps(cfg, Sample(cfg, v, r), Probed(r.volume));
    CaptureKeeps(cfg, Probe(Sample(cfg, v, r), r), r.second);
  }

  lemma SettleKeeps(cfg: Config, v: View, volume: Volume, r: Round)
    requires Kept(cfg, v)
    ensures Kept(cfg, Settle(cfg, v, volume, r))
  {
    hide Kept, TakeInventory, Wait, Conclude;
    TakeInventoryKeeps(cfg, v, r.finalSweep);
    var swept := if IsSettled(v, volume) then TakeInventory(cfg, v, r.finalSweep) else v;
    WaitKeeps(cfg, swept, r.onFinalWait, true);
    ConcludeKeeps(cfg, swept, volume);
  }

  lemma InitialKept(cfg: Config, size: string)
    ensures Kept(cfg, Initial(size))
  {
  }

  lemma OpenKeeps(cfg: Config, o: Opening)
    ensures Kept(cfg, Open(cfg, o))
  {
    hide Kept, Capture, TakeInventory, Emit, StartsBeforeDelete;
    var v := Initial(o.size);
    InitialKept(cfg, o.size);
    assert v.status.Running?;
    hide Initial;
    var swept := TakeInventory(cfg, v, o.sweep);
    TakeInventoryKeeps(cfg, v, o.sweep);
    var seen := Capture(cfg, swept, o.batch);
    CaptureKeeps(cfg, swept, o.batch);
    EmitKeeps(cfg, seen, Ready);
    FailingKeeps(cfg, v, NotBeforeDelete);
    FailingKeeps(cfg, swept, SweepRefused(Inventory.AwaitPurgeWatch));
    FailingKeeps(cfg, swept, BaselineUnproved);
    FailingKeeps(cfg, seen, NotBeforeDelete);
  }

  /** The invariant of every run, whatever the world answers. */
  lemma {:induction false} TurnsKeep(cfg: Config, o: Opening, rounds: seq<Round>)
    ensures Kept(cfg, Turns(cfg, Open(cfg, o), rounds))
  {
    hide Kept, Turn, Open;
    if rounds == [] {
      OpenKeeps(cfg, o);
    } else {
      TurnsKeep(cfg, o, rounds[..|rounds| - 1]);
      TurnKeeps(cfg, Turns(cfg, Open(cfg, o), rounds[..|rounds| - 1]), rounds[|rounds| - 1]);
    }
  }

  lemma TurnLeavesNothingAwaited(cfg: Config, v: View, r: Round)
    requires v.status.Running? && !v.awaiting
    ensures Turn(cfg, v, r).status.Running? ==> !Turn(cfg, v, r).awaiting
  {
    FirstSweepFrame(cfg, v, r);
    var swept := FirstSweep(cfg, v, r);
    SecondDrainFrame(cfg, swept, r);
    hide FirstSweep, SecondDrain, Settle, Wait;
    if swept.status.Running? && swept.awaiting {
      WaitFrame(cfg, swept, r.onWait, false);
    } else {
      var volume := if swept.pending == {} then r.volume else NotYetChecked;
      SettleLeavesNothingAwaited(cfg, SecondDrain(cfg, swept, r), volume, r);
    }
  }

  lemma SettleLeavesNothingAwaited(cfg: Config, v: View, volume: Volume, r: Round)
    requires v.status.Running? ==> !v.awaiting
    ensures Settle(cfg, v, volume, r).status.Running? ==> !Settle(cfg, v, volume, r).awaiting
  {
    var swept := if IsSettled(v, volume) then TakeInventory(cfg, v, r.finalSweep) else v;
    hide TakeInventory, Wait, Conclude, UnapprovedComplete;
    if swept.status.Running? && swept.awaiting {
      WaitFrame(cfg, swept, r.onFinalWait, true);
    } else {
      ConcludeFrame(cfg, swept, volume);
    }
  }

  lemma ConcludeFrame(cfg: Config, v: View, volume: Volume)
    ensures Conclude(cfg, v, volume).awaiting == v.awaiting
    ensures Conclude(cfg, v, volume).memory == v.memory && Conclude(cfg, v, volume).seen == v.seen
    ensures !v.status.Running? ==> Conclude(cfg, v, volume) == v
  {
  }

  lemma OpenFrame(cfg: Config, o: Opening)
    ensures !Decided(Open(cfg, o))
    ensures Open(cfg, o).status.Running? ==> !Open(cfg, o).awaiting
  {
    hide StartsBeforeDelete;
    var v := Initial(o.size);
    TakeInventoryFrame(cfg, v, o.sweep);
    var swept := TakeInventory(cfg, v, o.sweep);
    CaptureFrame(cfg, swept, o.batch);
    EmitFrame(cfg, Capture(cfg, swept, o.batch), Ready);
    hide TakeInventory, Capture, Emit;
  }

  /** A decided run ended with a turn that settled the matter. */
  lemma {:induction false} TurnsDecide(cfg: Config, o: Opening, rounds: seq<Round>)
    ensures
      var w := Turns(cfg, Open(cfg, o), rounds);
      && (w.status.Running? ==> !w.awaiting)
      && (Decided(w) ==> (exists before :: w.trace == before + SETTLED) && Justified(w.seen, w.status))
  {
    hide Turn, Open, Justified;
    if rounds == [] {
      OpenFrame(cfg, o);
    } else {
      var before := rounds[..|rounds| - 1];
      TurnsDecide(cfg, o, before);
      var v := Turns(cfg, Open(cfg, o), before);
      if v.status.Running? {
        TurnLeavesNothingAwaited(cfg, v, rounds[|rounds| - 1]);
        if Decided(Turn(cfg, v, rounds[|rounds| - 1])) {
          TurnDecides(cfg, v, rounds[|rounds| - 1]);
        }
      } else {
        TurnStopped(cfg, v, rounds[|rounds| - 1]);
      }
    }
  }

  lemma TurnStopped(cfg: Config, v: View, r: Round)
    requires !v.status.Running?
    ensures Turn(cfg, v, r) == v
  {
    hide FirstSweep, SecondDrain, Settle, Wait;
  }

  /** The end of the observation window adds no verdict. */
  lemma RunIsTurns(cfg: Config, o: Opening, rounds: seq<Round>)
    requires Decided(Run(cfg, o, rounds))
    ensures Run(cfg, o, rounds) == Turns(cfg, Open(cfg, o), rounds)
  {
    var v := Turns(cfg, Open(cfg, o), rounds);
    EmitFrame(cfg, v, Expired(v.last));
    hide Turns, Open, Emit;
  }

  /** The turn with this round, from this view, found nothing left in two sweeps and had
      HTTP 404 from the provider in between. */
  ghost predicate FindsNothingLeft(cfg: Config, v: View, r: Round) {
    && NothingExists(cfg.Proof(), r.sweep, Capture(cfg, v.Noted(RoundBegan), r.first).memory.known)
    && r.volume == Absent
    && NothingExists(cfg.Proof(), r.finalSweep, SecondDrain(cfg, FirstSweep(cfg, v, r), r).memory.known)
  }

  /** A run ends with round `k`, which found nothing left. */
  ghost predicate EndsInAbsence(cfg: Config, o: Opening, rounds: seq<Round>, k: nat)
    requires k < |rounds|
  {
    var v := Turns(cfg, Open(cfg, o), rounds[..k]);
    v.status.Running? && Run(cfg, o, rounds) == Turn(cfg, v, rounds[k]) && FindsNothingLeft(cfg, v, rounds[k])
  }

  /** A decided run was decided by one of its turns. */
  lemma {:induction false} DecidingTurn(cfg: Config, o: Opening, rounds: seq<Round>) returns (k: nat)
    requires Decided(Turns(cfg, Open(cfg, o), rounds))
    ensures k < |rounds|
    ensures
      var v := Turns(cfg, Open(cfg, o), rounds[..k]);
      && v.status.Running? && !v.awaiting
      && Turns(cfg, Open(cfg, o), rounds) == Turn(cfg, v, rounds[k])
  {
    hide Turn, Open;
    if rounds == [] {
      OpenFrame(cfg, o);
      assert false;
    }
    var before, last := rounds[..|rounds| - 1], rounds[|rounds| - 1];
    var v := Turns(cfg, Open(cfg, o), before);
    TurnsDecide(cfg, o, before);
    if v.status.Running? {
      k := |rounds| - 1;
    } else {
      TurnStopped(cfg, v, last);
      k := DecidingTurn(cfg, o, before);
      assert before[..k] == rounds[..k] && before[k] == rounds[k];
    }
  }

  lemma DecidedInAbsence(cfg: Config, o: Opening, rounds: seq<Round>) returns (k: nat)
    requires Decided(Run(cfg, o, rounds))
    ensures k < |rounds| && EndsInAbsence(cfg, o, rounds, k)
  {
    RunIsTurns(cfg, o, rounds);
    hide Run, Turns, Open;
    k := DecidingTurn(cfg, o, rounds);
    VerdictMeansAbsence(cfg, Turns(cfg, Open(cfg, o), rounds[..k]), rounds[k]);
  }

  /** What a complete verdict proves. In the last turn the observer drained its watches,
      swept and found nothing, got HTTP 404 from the provider, drained again and found
      nothing in a second sweep. The rows drained over the whole run are acceptable; the
      last purge Job runs the reviewed image and was seen complete; and the last App row
      carries the completion mark, later than any replacement of the purge Job. */
  ghost predicate CompletionStands(cfg: Config, o: Opening, rounds: seq<Round>) {
    var w := Run(cfg, o, rounds);
    var rows := JobRows(w.seen.events);
    && w.status.Finished? && w.status.report.verdict == Complete
    && (exists before :: w.trace == before + SETTLED)
    && (exists k :: 0 <= k < |rounds| && EndsInAbsence(cfg, o, rounds, k))
    && PurgeJobs.Acceptable(cfg.policy, rows)
    && rows != []
    && rows[|rows| - 1].image == cfg.Proof().backupImage
    && PurgeJobs.SeenComplete(rows, rows[|rows| - 1].uid)
    && MarkStands(cfg.Proof().appUid, w.seen.events)
  }

  /** The rows behind a completed purge Job. */
  lemma CompletedRows(cfg: Config, seen: Seen)
    requires TellsEvents(cfg, seen) && seen.completedJob.Some?
    ensures
      var rows := JobRows(seen.events);
      && PurgeJobs.Acceptable(cfg.policy, rows)
      && rows != []
      && rows[|rows| - 1].image == cfg.Proof().backupImage
      && PurgeJobs.SeenComplete(rows, rows[|rows| - 1].uid)
  {
    hide MarkStands, DeletionSeen, JobRows, PurgeJobs.Acceptable, PurgeJobs.Represents, PurgeJobs.SeenComplete;
    PurgeJobs.AcceptsExactlyAcceptableRows(cfg.policy, JobRows(seen.events));
    PurgeJobs.CompletionMeans(cfg.policy, JobRows(seen.events));
  }

  /** The rows behind an unapproved purge Job that was seen complete. */
  lemma UnapprovedRows(cfg: Config, seen: Seen)
    requires TellsEvents(cfg, seen) && UnapprovedComplete(seen.history)
    ensures
      var rows := JobRows(seen.events);
      && PurgeJobs.Acceptable(cfg.policy, rows)
      && rows != []
      && rows[|rows| - 1].image != cfg.Proof().backupImage
      && PurgeJobs.SeenComplete(rows, rows[|rows| - 1].uid)
  {
    hide MarkStands, DeletionSeen, JobRows, PurgeJobs.Acceptable, PurgeJobs.Represents, PurgeJobs.SeenComplete;
    PurgeJobs.AcceptsExactlyAcceptableRows(cfg.policy, JobRows(seen.events));
    PurgeJobs.CurrentSpeaksForItsRows(cfg.policy, JobRows(seen.events), seen.history);
  }

  /** A run that ends with a verdict. */
  lemma RunDecides(cfg: Config, o: Opening, rounds: seq<Round>)
    requires Decided(Run(cfg, o, rounds))
    ensures
      var w := Run(cfg, o, rounds);
      && (exists before :: w.trace == before + SETTLED)
      && Justified(w.seen, w.status) && TellsEvents(cfg, w.seen) && VerdictIsLast(w)
  {
    RunIsTurns(cfg, o, rounds);
    hide Run, Open, Turns, Justified, TellsEvents, VerdictIsLast, RemembersAll;
    TurnsDecide(cfg, o, rounds);
    TurnsKeep(cfg, o, rounds);
  }

  /** A run that returns is proved complete. */
  lemma CompleteIsProved(cfg: Config, o: Opening, rounds: seq<Round>)
    requires Run(cfg, o, rounds).status.Finished?
    ensures CompletionStands(cfg, o, rounds)
  {
    hide Run, Open, Turns, EndsInAbsence, VerdictIsLast, JobRows, MarkStands, DeletionSeen;
    hide PurgeJobs.Acceptable, PurgeJobs.SeenComplete, PurgeJobs.Replay;
    var w := Run(cfg, o, rounds);
    var k := DecidedInAbsence(cfg, o, rounds);
    RunDecides(cfg, o, rounds);
    CompletedRows(cfg, w.seen);
  }

  /** The same absence with a purge Job on another image, seen complete, ends the run with
      the printed verdict UNAPPROVED and without any printed claim of completion. */
  lemma UnapprovedIsNeverComplete(cfg: Config, o: Opening, rounds: seq<Round>)
    requires Run(cfg, o, rounds).status == Failed(UnapprovedHelper)
    ensures
      var w := Run(cfg, o, rounds);
      var rows := JobRows(w.seen.events);
      && (exists before :: w.trace == before + SETTLED)
      && (exists k :: 0 <= k < |rounds| && EndsInAbsence(cfg, o, rounds, k))
      && PurgeJobs.Acceptable(cfg.policy, rows)
      && rows != []
      && rows[|rows| - 1].image != cfg.Proof().backupImage
      && PurgeJobs.SeenComplete(rows, rows[|rows| - 1].uid)
      && MarkStands(cfg.Proof().appUid, w.seen.events)
    ensures ClaimsNoCompletion(Run(cfg, o, rounds).out.receipts)
  {
    hide Run, Open, Turns, EndsInAbsence, VerdictIsLast, ClaimsNoCompletion, JobRows, MarkStands, DeletionSeen;
    hide PurgeJobs.Acceptable, PurgeJobs.SeenComplete, PurgeJobs.Replay, UnapprovedComplete;
    var w := Run(cfg, o, rounds);
    var k := DecidedInAbsence(cfg, o, rounds);
    RunDecides(cfg, o, rounds);
    NoClaim(w);
    UnapprovedRows(cfg, w.seen);
  }

  ghost predicate ClaimsNoCompletion(receipts: seq<Receipt>) {
    forall i :: 0 <= i < |receipts| && receipts[i].Stated? ==> receipts[i].report.verdict != Complete
  }

  lemma NoClaim(w: View)
    requires VerdictIsLast(w) && !w.status.Finished?
    ensures ClaimsNoCompletion(w.out.receipts)
  {
    var receipts := w.out.receipts;
    assert forall i :: 0 <= i < |receipts| - 1 ==> receipts[i] == receipts[..|receipts| - 1][i];
  }

  /** Over every run the printed receipts hold at most one verdict, and it is the last
      receipt: `complete` and `UNAPPROVED` are never both printed. */
  lemma VerdictsExclude(cfg: Config, o: Opening, rounds: seq<Round>, i: nat, j: nat)
    ensures
      var receipts := Run(cfg, o, rounds).out.receipts;
      i < |receipts| && j < |receipts| && IsVerdict(receipts[i]) && IsVerdict(receipts[j]) ==> i == j == |receipts| - 1
    ensures
      var w := Run(cfg, o, rounds);
      Decided(w) <==> w.out.receipts != [] && IsVerdict(w.out.receipts[|w.out.receipts| - 1])
  {
    RunKeeps(cfg, o, rounds);
    hide Run;
    var receipts := Run(cfg, o, rounds).out.receipts;
    assert forall k :: 0 <= k < |receipts| - 1 ==> receipts[k] == receipts[..|receipts| - 1][k];
  }

  predicate IsVerdict(receipt: Receipt) {
    receipt.Stated? && receipt.report.verdict != Pending
  }

  /** The observation window may also end without a verdict. */
  lemma RunKeeps(cfg: Config, o: Opening, rounds: seq<Round>)
    ensures VerdictIsLast(Run(cfg, o, rounds))
  {
    TurnsKeep(cfg, o, rounds);
    hide Turns, Open;
    var v := Turns(cfg, Open(cfg, o), rounds);
    if v.status.Running? {
      EmitKeeps(cfg, v, Expired(v.last));
      hide Emit;
      EmitFrame(cfg, v, Expired(v.last));
    }
  }

  /** Nothing of the fixture exists in what the API server answered. */
  ghost predicate NothingExists(proof: Proof, kube: Inventory.Kube, known: map<Key, Uid>) {
    && (forall slot :: slot in Inventory.FixedSlots(proof) ==> slot.key.resource !in kube.fixed)
    && (forall item :: item in Inventory.AllItems(kube) ==> item.row.owner !in Inventory.Roots(proof, known))
    && (forall row :: row in kube.attachments ==> row.pv != proof.pvName)
    && (forall key :: key in known && key !in Inventory.FixedKeys(proof) ==> key !in kube.named)
  }

  lemma EmptySweepSawNothing(cfg: Config, v: View, kube: Inventory.Kube)
    requires v.status.Running? && !v.awaiting
    requires TakeInventory(cfg, v, kube).status.Running? && !TakeInventory(cfg, v, kube).awaiting
    requires TakeInventory(cfg, v, kube).pending == {}
    ensures NothingExists(cfg.Proof(), kube, v.memory.known)
  {
    hide Inventory.Sweep, LifetimesOf;
    Inventory.EmptyMeansGone(cfg.Proof(), kube, v.memory.known);
  }

  lemma SettleSawNothing(cfg: Config, v: View, volume: Volume, r: Round)
    requires v.status.Running? && !v.awaiting && Decided(Settle(cfg, v, volume, r))
    ensures NothingExists(cfg.Proof(), r.finalSweep, v.memory.known)
  {
    hide NothingExists;
    SettleDecides(cfg, v, volume, r);
    var swept := if IsSettled(v, volume) then TakeInventory(cfg, v, r.finalSweep) else v;
    TakeInventoryFrame(cfg, v, r.finalSweep);
    hide TakeInventory, UnapprovedComplete;
    if swept.status.Running? && swept.awaiting {
      WaitFrame(cfg, swept, r.onFinalWait, true);
    } else if swept.status.Running? {
      ConcludeDecides(cfg, swept, volume);
      EmptySweepSawNothing(cfg, v, r.finalSweep);
    }
  }

  /** Behind a verdict, both sweeps of the last turn saw nothing of the fixture and the
      provider answered HTTP 404 in between. */
  lemma VerdictMeansAbsence(cfg: Config, v: View, r: Round)
    requires v.status.Running? && !v.awaiting && Decided(Turn(cfg, v, r))
    ensures FindsNothingLeft(cfg, v, r)
  {
    hide NothingExists;
    var first := Capture(cfg, v.Noted(RoundBegan), r.first);
    CaptureFrame(cfg, v.Noted(RoundBegan), r.first);
    var swept := FirstSweep(cfg, v, r);
    FirstSweepFrame(cfg, v, r);
    TakeInventoryFrame(cfg, first, r.sweep);
    hide Capture, TakeInventory;
    SecondDrainFrame(cfg, swept, r);
    hide SecondDrain, Settle, Wait;
    if swept.status.Running? && swept.awaiting {
      WaitFrame(cfg, swept, r.onWait, false);
    } else {
      var second := SecondDrain(cfg, swept, r);
      var volume := if swept.pending == {} then r.volume else NotYetChecked;
      if second.status.Running? {
        SettleDecides(cfg, second, volume, r);
        SettleSawNothing(cfg, second, volume, r);
        EmptySweepSawNothing(cfg, first, r.sweep);
      } else {
        SettleStopped(cfg, second, volume, r);
      }
    }
  }

  // ----- What the memory of lifetimes keeps

  /** No key is forgotten. A lifetime changes only to that of an attachment that one of these
      answers listed on the bound volume, or for the purge Job through a row that was
      processed since and satisfied the policy. */
  ghost predicate Evolves(cfg: Config, v: View, w: View, kubes: seq<Inventory.Kube>) {
    && v.seen.events <= w.seen.events
    && v.memory.lifetimes <= w.memory.lifetimes
    && v.memory.known.Keys <= w.memory.known.Keys
    && forall key :: key in v.memory.known && w.memory.known[key] != v.memory.known[key] ==>
         || ListedOnVolume(cfg, kubes, key, w.memory.known[key])
         || ByPolicy(cfg, w.seen.events, |v.seen.events|, key, w.memory.known[key])
  }

  ghost predicate ListedOnVolume(cfg: Config, kubes: seq<Inventory.Kube>, key: Key, uid: Uid) {
    exists k :: 0 <= k < |kubes| && ListedIn(cfg, kubes[k], key, uid)
  }

  ghost predicate ListedIn(cfg: Config, kube: Inventory.Kube, key: Key, uid: Uid) {
    Inventory.AttachedNow(cfg.Proof(), kube.attachments, |kube.attachments|, key, uid)
  }

  ghost predicate ByPolicy(cfg: Config, events: seq<Event>, from: nat, key: Key, uid: Uid) {
    && key == Key(Jobs, cfg.Proof().purgeJobName)
    && exists i :: from <= i < |events| && IsVerifiedRow(cfg, events[i], uid)
  }

  ghost predicate IsVerifiedRow(cfg: Config, event: Event, uid: Uid) {
    event.JobEvent? && event.job.uid == uid && PurgeJobs.Verified(cfg.policy, event.job)
  }

  /** The answers swept: those of the passes that are made. */
  function SweptBy(v: View, kube: Inventory.Kube): seq<Inventory.Kube> {
    if v.status.Running? then [kube] else []
  }

  function SweptFirst(cfg: Config, v: View, r: Round): seq<Inventory.Kube> {
    SweptBy(Capture(cfg, v.Noted(RoundBegan), r.first), r.sweep)
  }

  function SweptLast(v: View, volume: Volume, r: Round): seq<Inventory.Kube> {
    if IsSettled(v, volume) then SweptBy(v, r.finalSweep) else []
  }

  function SweptInTurn(cfg: Config, v: View, r: Round): seq<Inventory.Kube> {
    if !v.status.Running? then []
    else
      var swept := FirstSweep(cfg, v, r);
      SweptFirst(cfg, v, r)
      + if swept.status.Running? && swept.awaiting then []
        else SweptLast(SecondDrain(cfg, swept, r), if swept.pending == {} then r.volume else NotYetChecked, r)
  }

  function SweptInTurns(cfg: Config, v: View, rounds: seq<Round>): seq<Inventory.Kube> {
    if rounds == [] then []
    else
      var before := rounds[..|rounds| - 1];
      SweptInTurns(cfg, v, before) + SweptInTurn(cfg, Turns(cfg, v, before), rounds[|rounds| - 1])
  }

  lemma ListedLater(cfg: Config, a: seq<Inventory.Kube>, b: seq<Inventory.Kube>, key: Key, uid: Uid)
    ensures ListedOnVolume(cfg, a, key, uid) || ListedOnVolume(cfg, b, key, uid) ==>
        ListedOnVolume(cfg, a + b, key, uid)
  {
    hide ListedIn;
    if ListedOnVolume(cfg, a, key, uid) {
      var k :| 0 <= k < |a| && ListedIn(cfg, a[k], key, uid);
      assert (a + b)[k] == a[k];
    } else if ListedOnVolume(cfg, b, key, uid) {
      var k :| 0 <= k < |b| && ListedIn(cfg, b[k], key, uid);
      assert (a + b)[|a| + k] == b[k];
    }
  }

  lemma PolicyLater(cfg: Config, events: seq<Event>, more: seq<Event>, from: nat, earlier: nat, key: Key, uid: Uid)
    requires ByPolicy(cfg, events, from, key, uid) && events <= more && earlier <= from
    ensures ByPolicy(cfg, more, earlier, key, uid)
  {
    hide IsVerifiedRow;
    var i :| from <= i < |events| && IsVerifiedRow(cfg, events[i], uid);
    assert more[i] == events[i];
  }

  /** What holds from one moment to a second, and from there to a third, holds throughout. */
  lemma EvolvesOn(cfg: Config, u: View, v: View, w: View, a: seq<Inventory.Kube>, b: seq<Inventory.Kube>)
    requires Evolves(cfg, u, v, a) && Evolves(cfg, v, w, b)
    ensures Evolves(cfg, u, w, a + b)
  {
    hide ListedOnVolume, ByPolicy;
    forall key | key in u.memory.known && w.memory.known[key] != u.memory.known[key]
      ensures || ListedOnVolume(cfg, a + b, key, w.memory.known[key])
              || ByPolicy(cfg, w.seen.events, |u.seen.events|, key, w.memory.known[key])
    {
      var uid := w.memory.known[key];
      ListedLater(cfg, a, b, key, uid);
      if ByPolicy(cfg, w.seen.events, |v.seen.events|, key, uid) {
        PolicyLater(cfg, w.seen.events, w.seen.events, |v.seen.events|, |u.seen.events|, key, uid);
      }
      if ByPolicy(cfg, v.seen.events, |u.seen.events|, key, uid) {
        PolicyLater(cfg, v.seen.events, w.seen.events, |u.seen.events|, |u.seen.events|, key, uid);
      }
    }
  }

  lemma EvolvesSame(cfg: Config, v: View, w: View)
    requires w.memory == v.memory && v.seen.events <= w.seen.events
    ensures Evolves(cfg, v, w, [])
  {
  }

  /** A step of the first kind, then one that leaves the memory alone. */
  lemma EvolvesThenSame(cfg: Config, u: View, v: View, w: View, kubes: seq<Inventory.Kube>)
    requires Evolves(cfg, u, v, kubes) && w.memory == v.memory && v.seen.events <= w.seen.events
    ensures Evolves(cfg, u, w, kubes)
  {
    hide Evolves;
    EvolvesSame(cfg, v, w);
    EvolvesOn(cfg, u, v, w, kubes, []);
    assert kubes + [] == kubes;
  }

  lemma SameThenEvolves(cfg: Config, u: View, v: View, w: View, kubes: seq<Inventory.Kube>)
    requires v.memory == u.memory && u.seen.events <= v.seen.events && Evolves(cfg, v, w, kubes)
    ensures Evolves(cfg, u, w, kubes)
  {
    hide Evolves;
    EvolvesSame(cfg, u, v);
    EvolvesOn(cfg, u, v, w, [], kubes);
    assert [] + kubes == kubes;
  }

  lemma SeeJobEvolves(cfg: Config, v: View, row: PurgeJobs.JobRow)
    ensures Evolves(cfg, v, SeeJob(cfg, v, row), [])
  {
    var o := PurgeJobs.Follow(cfg.policy, v.seen.history, row);
    if v.status.Running? && o.reply.Success? {
      assert PurgeJobs.Verified(cfg.policy, row) && row.name == cfg.Proof().purgeJobName;
      hide PurgeJobs.Verified, PurgeJobs.Follow, ListedOnVolume;
      var w := SeeJob(cfg, v, row);
      var n := |v.seen.events|;
      assert w.seen.events == v.seen.events + [JobEvent(row)];
      assert IsVerifiedRow(cfg, w.seen.events[n], row.uid);
    }
  }

  lemma {:induction false} SeeJobsEvolve(cfg: Config, v: View, rows: seq<PurgeJobs.JobRow>, n: nat)
    requires n <= |rows|
    ensures Evolves(cfg, v, SeeJobs(cfg, v, rows, n), [])
  {
    if n > 0 {
      SeeJobsEvolve(cfg, v, rows, n - 1);
      SeeJobEvolves(cfg, SeeJobs(cfg, v, rows, n - 1), rows[n - 1]);
      hide Evolves, SeeJob;
      var none: seq<Inventory.Kube> := [];
      EvolvesOn(cfg, v, SeeJobs(cfg, v, rows, n - 1), SeeJobs(cfg, v, rows, n), none, none);
      assert none + none == none;
    } else {
      EvolvesSame(cfg, v, v);
    }
  }

  lemma {:induction false} SeeAppsEvolve(cfg: Config, v: View, rows: seq<AppRow>, n: nat)
    requires n <= |rows|
    ensures v.memory == SeeApps(cfg, v, rows, n).memory && v.seen.events <= SeeApps(cfg, v, rows, n).seen.events
  {
    if n > 0 {
      SeeAppsEvolve(cfg, v, rows, n - 1);
    }
  }

  lemma CaptureEvolves(cfg: Config, v: View, batch: Batch)
    ensures Evolves(cfg, v, Capture(cfg, v, batch), [])
  {
    if v.status.Running? {
      var w := CaptureJobs(cfg, v, batch.jobs);
      if batch.jobs.Rows? {
        SeeJobsEvolve(cfg, v, batch.jobs.rows, |batch.jobs.rows|);
      } else {
        EvolvesSame(cfg, v, w);
      }
      if batch.apps.Rows? {
        SeeAppsEvolve(cfg, w, batch.apps.rows, |batch.apps.rows|);
      }
      hide SeeJobs, SeeApps, Evolves, CaptureJobs;
      EvolvesThenSame(cfg, v, w, Capture(cfg, v, batch), []);
    } else {
      EvolvesSame(cfg, v, v);
    }
  }

  lemma TakeInventoryEvolves(cfg: Config, v: View, kube: Inventory.Kube)
    ensures Evolves(cfg, v, TakeInventory(cfg, v, kube), SweptBy(v, kube))
  {
    if v.status.Running? {
      Inventory.SweepForgetsNothing(cfg.Proof(), kube, v.memory.known);
      hide Inventory.Sweep, Inventory.AttachedNow, LifetimesOf, ByPolicy;
      assert forall key, uid :: ListedIn(cfg, [kube][0], key, uid) ==> ListedOnVolume(cfg, [kube], key, uid);
    } else {
      EvolvesSame(cfg, v, v);
    }
  }

  lemma WaitEvolves(cfg: Config, v: View, batch: Batch, final: bool)
    ensures Evolves(cfg, v, Wait(cfg, v, batch, final), [])
  {
    var a := v.(awaiting := false);
    var b := Capture(cfg, a, batch);
    CaptureEvolves(cfg, a, batch);
    EmitFrame(cfg, b, AwaitingPurgeWatch(final));
    hide Capture, Emit, Evolves;
    SameThenEvolves(cfg, v, a, b, []);
    EvolvesThenSame(cfg, v, b, Wait(cfg, v, batch, final), []);
  }

  lemma FirstSweepEvolves(cfg: Config, v: View, r: Round)
    ensures Evolves(cfg, v, FirstSweep(cfg, v, r), SweptFirst(cfg, v, r))
  {
    var a := v.Noted(RoundBegan);
    var b := Capture(cfg, a, r.first);
    CaptureEvolves(cfg, a, r.first);
    TakeInventoryEvolves(cfg, b, r.sweep);
    hide Capture, TakeInventory, Evolves, SweptBy;
    SameThenEvolves(cfg, v, a, b, []);
    EvolvesOn(cfg, v, b, FirstSweep(cfg, v, r), [], SweptBy(b, r.sweep));
    assert [] + SweptBy(b, r.sweep) == SweptBy(b, r.sweep);
  }

  lemma SecondDrainEvolves(cfg: Config, v: View, r: Round)
    ensures Evolves(cfg, v, SecondDrain(cfg, v, r), [])
  {
    var a := Probe(Sample(cfg, v, r), r);
    EmitFrame(cfg, v, Sampled(v.seen.liveSize, r.sampleProved && v.seen.liveSize in {"1", "5"}));
    CaptureEvolves(cfg, a, r.second);
    hide Capture, Evolves;
    SameThenEvolves(cfg, v, a, SecondDrain(cfg, v, r), []);
  }

  lemma SettleEvolves(cfg: Config, v: View, volume: Volume, r: Round)
    ensures Evolves(cfg, v, Settle(cfg, v, volume, r), SweptLast(v, volume, r))
  {
    var swept := if IsSettled(v, volume) then TakeInventory(cfg, v, r.finalSweep) else v;
    var kubes := SweptLast(v, volume, r);
    TakeInventoryEvolves(cfg, v, r.finalSweep);
    EvolvesSame(cfg, v, v);
    WaitEvolves(cfg, swept, r.onFinalWait, true);
    ConcludeFrame(cfg, swept, volume);
    hide TakeInventory, Wait, Conclude, Evolves, IsSettled, SweptBy;
    if swept.status.Running? && swept.awaiting {
      EvolvesOn(cfg, v, swept, Wait(cfg, swept, r.onFinalWait, true), kubes, []);
      assert kubes + [] == kubes;
    } else {
      EvolvesThenSame(cfg, v, swept, Conclude(cfg, swept, volume), kubes);
    }
  }

  lemma TurnEvolves(cfg: Config, v: View, r: Round)
    ensures Evolves(cfg, v, Turn(cfg, v, r), SweptInTurn(cfg, v, r))
  {
    var a := FirstSweep(cfg, v, r);
    var b := SecondDrain(cfg, a, r);
    var volume := if a.pending == {} then r.volume else NotYetChecked;
    var first, last := SweptFirst(cfg, v, r), SweptLast(b, volume, r);
    EvolvesSame(cfg, v, v);
    FirstSweepEvolves(cfg, v, r);
    WaitEvolves(cfg, a, r.onWait, false);
    SecondDrainEvolves(cfg, a, r);
    SettleEvolves(cfg, b, volume, r);
    hide FirstSweep, SecondDrain, Wait, Settle, Evolves, SweptFirst, SweptLast;
    assert first + [] == first;
    if a.status.Running? && a.awaiting {
      EvolvesOn(cfg, v, a, Wait(cfg, a, r.onWait, false), first, []);
    } else {
      EvolvesOn(cfg, v, a, b, first, []);
      EvolvesOn(cfg, v, b, Settle(cfg, b, volume, r), first, last);
    }
  }

  /** Over any turns the memory only evolves, by what they swept and processed. */
  lemma {:induction false} MemoryEvolves(cfg: Config, v: View, rounds: seq<Round>)
    ensures Evolves(cfg, v, Turns(cfg, v, rounds), SweptInTurns(cfg, v, rounds))
  {
    if rounds == [] {
      EvolvesSame(cfg, v, v);
    } else {
      var before := rounds[..|rounds| - 1];
      MemoryEvolves(cfg, v, before);
      TurnEvolves(cfg, Turns(cfg, v, before), rounds[|rounds| - 1]);
      hide Evolves, Turn, SweptInTurn;
      EvolvesOn(cfg, v, Turns(cfg, v, before), Turns(cfg, v, rounds), SweptInTurns(cfg, v, before),
                SweptInTurn(cfg, Turns(cfg, v, before), rounds[|rounds| - 1]));
    }
  }

  lemma {:induction false} TurnsGoOn(cfg: Config, v: View, a: seq<Round>, b: seq<Round>)
    ensures Turns(cfg, v, a + b) == Turns(cfg, Turns(cfg, v, a), b)
  {
    hide Turn;
    if b == [] {
      assert a + b == a;
    } else {
      var before := b[..|b| - 1];
      TurnsGoOn(cfg, v, a, before);
      assert (a + b)[..|a + b| - 1] == a + before;
    }
  }

  /** After the opening sweep. */
  lemma OpenEvolves(cfg: Config, o: Opening)
    requires StartsBeforeDelete(cfg.Proof(), o)
    ensures Evolves(cfg, TakeInventory(cfg, Initial(o.size), o.sweep), Open(cfg, o), [])
  {
    var swept := TakeInventory(cfg, Initial(o.size), o.sweep);
    var seen := Capture(cfg, swept, o.batch);
    CaptureEvolves(cfg, swept, o.batch);
    EvolvesSame(cfg, swept, swept);
    EmitFrame(cfg, seen, Ready);
    hide TakeInventory, Capture, Emit, Evolves, StartsBeforeDelete;
    if swept.status.Running? && !swept.awaiting && o.volume == Present {
      EvolvesThenSame(cfg, swept, seen, Open(cfg, o), []);
    } else {
      EvolvesThenSame(cfg, swept, swept, Open(cfg, o), []);
    }
  }

  lemma RunEndsAlike(cfg: Config, o: Opening, rounds: seq<Round>)
    ensures Run(cfg, o, rounds).memory == Turns(cfg, Open(cfg, o), rounds).memory
    ensures Run(cfg, o, rounds).seen == Turns(cfg, Open(cfg, o), rounds).seen
  {
    var v := Turns(cfg, Open(cfg, o), rounds);
    EmitFrame(cfg, v, Expired(v.last));
    hide Turns, Open, Emit;
  }

  lemma RunForgetsNothingSince(cfg: Config, o: Opening, before: seq<Round>, after: seq<Round>)
    ensures
      var v := Turns(cfg, Open(cfg, o), before);
      Evolves(cfg, v, Run(cfg, o, before + after), SweptInTurns(cfg, v, after))
  {
    var v := Turns(cfg, Open(cfg, o), before);
    var w := Turns(cfg, Open(cfg, o), before + after);
    TurnsGoOn(cfg, Open(cfg, o), before, after);
    RunEndsAlike(cfg, o, before + after);
    hide Run, Open, Evolves;
    MemoryEvolves(cfg, v, after);
    EvolvesThenSame(cfg, v, w, Run(cfg, o, before + after), SweptInTurns(cfg, v, after));
  }

  lemma WholeRunEvolves(cfg: Config, o: Opening, rounds: seq<Round>)
    ensures Evolves(cfg, Open(cfg, o), Run(cfg, o, rounds), SweptInTurns(cfg, Open(cfg, o), rounds))
  {
    RunForgetsNothingSince(cfg, o, [], rounds);
    assert [] + rounds == rounds;
    hide Run, Open, Evolves;
  }

  /** Over a whole run, from the opening sweep on and from every turn on: no key is forgotten,
      and a lifetime changes only as `Evolves` allows, by the answers swept from there on. */
  lemma RunForgetsNothing(cfg: Config, o: Opening, before: seq<Round>, after: seq<Round>)
    ensures
      var v := Turns(cfg, Open(cfg, o), before);
      Evolves(cfg, v, Run(cfg, o, before + after), SweptInTurns(cfg, v, after))
    ensures StartsBeforeDelete(cfg.Proof(), o) ==>
      Evolves(cfg, TakeInventory(cfg, Initial(o.size), o.sweep), Run(cfg, o, before + after),
              SweptInTurns(cfg, Open(cfg, o), before + after))
  {
    hide Run, Open, Turns, TakeInventory, Evolves, StartsBeforeDelete;
    RunForgetsNothingSince(cfg, o, before, after);
    if StartsBeforeDelete(cfg.Proof(), o) {
      var kubes := SweptInTurns(cfg, Open(cfg, o), before + after);
      OpenEvolves(cfg, o);
      WholeRunEvolves(cfg, o, before + after);
      var start, end := TakeInventory(cfg, Initial(o.size), o.sweep), Run(cfg, o, before + after);
      EvolvesOn(cfg, start, Open(cfg, o), end, [], kubes);
      assert [] + kubes == kubes;
    }
  }
}
