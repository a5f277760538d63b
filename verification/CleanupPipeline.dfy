/** The observer between the watch that feeds it and the supervisor that relays it: what a
    wait that was accepted says about the server's log and the fixture. */
module CleanupPipeline {
  import opened Wrappers
  import opened Fixture
  import opened Observer
  import Channel = ObserverChannel
  import PurgeJobs
  import Watch = ReplayedWatch

  // ----- From the receipts to the wait

  /** The line is the receipt's JSON text, as the supervisor takes it in: perhaps too long, and
      otherwise with the state that the receipt has. */
  ghost predicate Tells(receipt: Receipt, line: Channel.Line) {
    || line.Oversized?
    || (&& line.Said?
        && (line.receipt.state == Channel.ObserverReady <==> receipt.Ready?)
        && (line.receipt.state == Channel.Complete <==> receipt.Stated? && receipt.report.verdict == Complete))
  }

  /** The child's output: one line for each receipt, in order. */
  ghost predicate Speaks(receipts: seq<Receipt>, lines: seq<Channel.Line>) {
    |lines| == |receipts| && forall i :: 0 <= i < |receipts| ==> Tells(receipts[i], lines[i])
  }

  /** The artifact holds all the observer said, one receipt for one, each with its state. */
  ghost predicate HoldsAll(receipts: seq<Receipt>, artifact: seq<Channel.Receipt>) {
    |artifact| == |receipts| && forall i :: 0 <= i < |receipts| ==> Tells(receipts[i], Channel.Said(artifact[i]))
  }

  /** The observer's run says `complete` in its last receipt only. */
  lemma ObserverEndsWithComplete(cfg: Config, o: Opening, rounds: seq<Round>, lines: seq<Channel.Line>)
    requires Speaks(Run(cfg, o, rounds).out.receipts, lines)
    ensures Channel.CompleteComesLast(lines)
  {
    hide Run;
    forall k | 0 <= k < |lines| - 1 && lines[k].Said?
      ensures lines[k].receipt.state != Channel.Complete
    {
      VerdictsExclude(cfg, o, rounds, k, k);
    }
  }

  lemma CompleteWasPrinted(cfg: Config, o: Opening, rounds: seq<Round>, k: nat)
    requires k < |Run(cfg, o, rounds).out.receipts|
    requires
      var receipt := Run(cfg, o, rounds).out.receipts[k];
      receipt.Stated? && receipt.report.verdict == Complete
    ensures Run(cfg, o, rounds).status.Finished?
  {
    VerdictsExclude(cfg, o, rounds, k, k);
    RunKeeps(cfg, o, rounds);
    hide Run;
  }

  /** What the supervisor relays of such receipts, when the wait for it is accepted. */
  lemma AcceptedHoldsAll(receipts: seq<Receipt>, channel: Channel.Config, lines: seq<Channel.Line>,
                         steps: seq<Channel.Step>)
    returns (k: nat)
    requires Speaks(receipts, lines) && Channel.CompleteComesLast(lines)
    requires Channel.IsRun(channel, lines, steps) && Channel.WaitAccepts(Channel.After(channel, lines, steps))
    ensures HoldsAll(receipts, Channel.After(channel, lines, steps).file.artifact)
    ensures k < |receipts| && receipts[k].Stated? && receipts[k].report.verdict == Complete
  {
    Channel.WaitProves(channel, lines, steps);
    var artifact := Channel.After(channel, lines, steps).file.artifact;
    hide Channel.IsRun, Channel.After, Channel.CountReady, Channel.CompleteComesLast, Channel.WaitAccepts;
    k :| 0 <= k < |artifact| && artifact[k].state == Channel.Complete;
    assert Tells(receipts[k], lines[k]);
    forall i | 0 <= i < |receipts|
      ensures Tells(receipts[i], Channel.Said(artifact[i]))
    {
      assert Tells(receipts[i], lines[i]);
    }
  }

  /** An accepted wait means that the observer's run returned, so that everything behind a
      completion holds, and that the artifact is the whole of what it printed. Signals, stop
      requests, delays and the death of the child cannot bring it about otherwise. */
  lemma AcceptedWaitIsProved(cfg: Config, o: Opening, rounds: seq<Round>, channel: Channel.Config,
                             lines: seq<Channel.Line>, steps: seq<Channel.Step>)
    requires Speaks(Run(cfg, o, rounds).out.receipts, lines)
    requires Channel.IsRun(channel, lines, steps) && Channel.WaitAccepts(Channel.After(channel, lines, steps))
    ensures CompletionStands(cfg, o, rounds)
    ensures HoldsAll(Run(cfg, o, rounds).out.receipts, Channel.After(channel, lines, steps).file.artifact)
  {
    hide Run, CompletionStands, HoldsAll, Speaks, Channel.IsRun, Channel.After, Channel.WaitAccepts;
    hide Channel.CompleteComesLast;
    ObserverEndsWithComplete(cfg, o, rounds, lines);
    var k := AcceptedHoldsAll(Run(cfg, o, rounds).out.receipts, channel, lines, steps);
    CompleteWasPrinted(cfg, o, rounds, k);
    CompleteIsProved(cfg, o, rounds);
  }

  /** The same for the command that waits: when it returns for completion, it has read the
      final status of such a run. */
  lemma ReturnedWaitIsProved(cfg: Config, o: Opening, rounds: seq<Round>, channel: Channel.Config,
                             lines: seq<Channel.Line>, steps: seq<Channel.Step>, polls: seq<Channel.Poll>, k: nat)
    requires Speaks(Run(cfg, o, rounds).out.receipts, lines)
    requires Channel.IsRun(channel, lines, steps) && Channel.WrittenBy(channel, lines, steps, polls)
    requires k < |polls| && Channel.IsAnswer(polls[k], false)
    ensures CompletionStands(cfg, o, rounds)
  {
    hide Run, CompletionStands, Speaks, Channel.IsRun, Channel.After;
    var n := Channel.AnswerIsAccepted(channel, lines, steps, polls, k);
    AcceptedWaitIsProved(cfg, o, rounds, channel, lines, steps[..n]);
  }

  // ----- From the log to the rows processed

  /** What a drain that is made hands over. */
  function Fed(v: View, batch: Batch): seq<PurgeJobs.JobRow> {
    if v.status.Running? && batch.jobs.Rows? then batch.jobs.rows else []
  }

  function FedLast(cfg: Config, v: View, volume: Volume, r: Round): seq<PurgeJobs.JobRow> {
    var swept := if IsSettled(v, volume) then TakeInventory(cfg, v, r.finalSweep) else v;
    if swept.status.Running? && swept.awaiting then Fed(swept, r.onFinalWait) else []
  }

  function FedInTurn(cfg: Config, v: View, r: Round): seq<PurgeJobs.JobRow> {
    if !v.status.Running? then []
    else
      var swept := FirstSweep(cfg, v, r);
      if swept.status.Running? && swept.awaiting then Fed(v, r.first) + Fed(swept, r.onWait)
      else
        Fed(v, r.first)
        + (Fed(Probe(Sample(cfg, swept, r), r), r.second)
           + FedLast(cfg, SecondDrain(cfg, swept, r), if swept.pending == {} then r.volume else NotYetChecked, r))
  }

  function FedInTurns(cfg: Config, v: View, rounds: seq<Round>): seq<PurgeJobs.JobRow> {
    if rounds == [] then []
    else
      var before := rounds[..|rounds| - 1];
      FedInTurns(cfg, v, before) + FedInTurn(cfg, Turns(cfg, v, before), rounds[|rounds| - 1])
  }

  /** From one moment to the next the observer has processed these rows, in order: all of them,
      unless it stopped with a fault on the way. */
  ghost predicate Processes(v: View, w: View, rows: seq<PurgeJobs.JobRow>) {
    && (!v.status.Running? ==> w.status == v.status && w.seen.events == v.seen.events && rows == [])
    && JobRows(w.seen.events) <= JobRows(v.seen.events) + rows
    && (Sane(w) ==> JobRows(w.seen.events) == JobRows(v.seen.events) + rows)
  }

  lemma ProcessesOn(u: View, v: View, w: View, a: seq<PurgeJobs.JobRow>, b: seq<PurgeJobs.JobRow>)
    requires Processes(u, v, a) && Processes(v, w, b)
    ensures Processes(u, w, a + b)
  {
    hide JobRows;
    var before, between, after := JobRows(u.seen.events), JobRows(v.seen.events), JobRows(w.seen.events);
    assert (before + a) + b == before + (a + b);
    if Sane(v) {
      assert between == before + a;
    } else {
      assert after == between <= before + a;
    }
  }

  lemma ProcessesNothing(v: View, w: View)
    requires w.seen.events == v.seen.events
    requires !v.status.Running? ==> w.status == v.status
    ensures Processes(v, w, [])
  {
    hide JobRows;
  }

  /** One more row, or a refusal of it. */
  lemma SeeJobProcesses(cfg: Config, v: View, row: PurgeJobs.JobRow)
    ensures v.status.Running? ==> Processes(v, SeeJob(cfg, v, row), [row])
    ensures !v.status.Running? ==> SeeJob(cfg, v, row) == v
  {
    hide PurgeJobs.Follow, JobRows, RememberJob;
    JobRowsExtend(v.seen.events, JobEvent(row));
  }

  lemma {:induction false} SeeJobsProcess(cfg: Config, v: View, rows: seq<PurgeJobs.JobRow>, n: nat)
    requires n <= |rows| && v.status.Running?
    ensures Processes(v, SeeJobs(cfg, v, rows, n), rows[..n])
  {
    if n == 0 {
      ProcessesNothing(v, v);
    } else {
      var u, w := SeeJobs(cfg, v, rows, n - 1), SeeJobs(cfg, v, rows, n);
      SeeJobsProcess(cfg, v, rows, n - 1);
      SeeJobsFrame(cfg, v, rows, n - 1);
      SeeJobProcesses(cfg, u, rows[n - 1]);
      assert w == SeeJob(cfg, u, rows[n - 1]);
      assert rows[..n] == rows[..n - 1] + [rows[n - 1]];
      hide SeeJob, SeeJobs;
      if u.status.Running? {
        hide Processes;
        ProcessesOn(v, u, w, rows[..n - 1], [rows[n - 1]]);
      } else {
        StoppedProcesses(v, u, rows[..n - 1], rows[n - 1]);
      }
    }
  }

  lemma StoppedProcesses(v: View, w: View, rows: seq<PurgeJobs.JobRow>, row: PurgeJobs.JobRow)
    requires v.status.Running? && !Sane(w) && Processes(v, w, rows)
    ensures Processes(v, w, rows + [row])
  {
    hide JobRows;
    var before := JobRows(v.seen.events);
    assert before + (rows + [row]) == (before + rows) + [row];
  }

  lemma SeeAppProcesses(cfg: Config, v: View, row: AppRow)
    ensures JobRows(SeeApp(cfg, v, row).seen.events) == JobRows(v.seen.events)
  {
    JobRowsExtend(v.seen.events, AppEvent(row));
    hide JobRows;
  }

  lemma {:induction false} SeeAppsProcess(cfg: Config, v: View, rows: seq<AppRow>, n: nat)
    requires n <= |rows|
    ensures JobRows(SeeApps(cfg, v, rows, n).seen.events) == JobRows(v.seen.events)
  {
    hide JobRows, SeeApp;
    if n > 0 {
      SeeAppsProcess(cfg, v, rows, n - 1);
      SeeAppProcesses(cfg, SeeApps(cfg, v, rows, n - 1), rows[n - 1]);
    }
  }

  lemma CaptureProcesses(cfg: Config, v: View, batch: Batch)
    ensures Processes(v, Capture(cfg, v, batch), Fed(v, batch))
  {
    if v.status.Running? {
      CaptureFrame(cfg, v, batch);
      var u := CaptureJobs(cfg, v, batch.jobs);
      if batch.jobs.Rows? {
        var rows := batch.jobs.rows;
        SeeJobsProcess(cfg, v, rows, |rows|);
        assert rows[..|rows|] == rows;
      }
      if batch.apps.Rows? {
        SeeAppsProcess(cfg, u, batch.apps.rows, |batch.apps.rows|);
        SeeAppsFrame(cfg, u, batch.apps.rows, |batch.apps.rows|);
      }
      hide SeeJobs, SeeApps, JobRows;
    }
  }

  lemma WaitProcesses(cfg: Config, v: View, batch: Batch, final: bool)
    requires v.status.Running?
    ensures Processes(v, Wait(cfg, v, batch, final), Fed(v, batch))
  {
    var a := v.(awaiting := false);
    var b := Capture(cfg, a, batch);
    CaptureProcesses(cfg, a, batch);
    EmitFrame(cfg, b, AwaitingPurgeWatch(final));
    hide Capture, Emit, JobRows;
  }

  lemma FirstSweepProcesses(cfg: Config, v: View, r: Round)
    requires v.status.Running? && !v.awaiting
    ensures Processes(v, FirstSweep(cfg, v, r), Fed(v, r.first))
  {
    var a := v.Noted(RoundBegan);
    var b := Capture(cfg, a, r.first);
    CaptureProcesses(cfg, a, r.first);
    CaptureFrame(cfg, a, r.first);
    TakeInventoryFrame(cfg, b, r.sweep);
    hide Capture, TakeInventory, JobRows;
  }

  lemma SecondDrainProcesses(cfg: Config, v: View, r: Round)
    ensures Processes(v, SecondDrain(cfg, v, r), Fed(Probe(Sample(cfg, v, r), r), r.second))
  {
    var a := Probe(Sample(cfg, v, r), r);
    SampleFrame(cfg, v, r);
    CaptureProcesses(cfg, a, r.second);
    hide Capture, JobRows;
  }

  lemma SettleProcesses(cfg: Config, v: View, volume: Volume, r: Round)
    requires v.status.Running? ==> !v.awaiting
    ensures Processes(v, Settle(cfg, v, volume, r), FedLast(cfg, v, volume, r))
  {
    if !v.status.Running? {
      SettleStopped(cfg, v, volume, r);
      ProcessesNothing(v, v);
    } else {
      var swept := if IsSettled(v, volume) then TakeInventory(cfg, v, r.finalSweep) else v;
      TakeInventoryFrame(cfg, v, r.finalSweep);
      hide TakeInventory, Wait, Conclude, JobRows, IsSettled;
      ProcessesNothing(v, swept);
      if swept.status.Running? && swept.awaiting {
        WaitProcesses(cfg, swept, r.onFinalWait, true);
      } else {
        ConcludeFrame(cfg, swept, volume);
      }
    }
  }

  lemma TurnProcesses(cfg: Config, v: View, r: Round)
    requires v.status.Running? ==> !v.awaiting
    ensures Processes(v, Turn(cfg, v, r), FedInTurn(cfg, v, r))
  {
    if !v.status.Running? {
      TurnStopped(cfg, v, r);
      ProcessesNothing(v, v);
    } else {
      var a := FirstSweep(cfg, v, r);
      var b := SecondDrain(cfg, a, r);
      var volume := if a.pending == {} then r.volume else NotYetChecked;
      FirstSweepProcesses(cfg, v, r);
      FirstSweepFrame(cfg, v, r);
      SecondDrainProcesses(cfg, a, r);
      SecondDrainFrame(cfg, a, r);
      hide FirstSweep, SecondDrain, Wait, Settle, Processes, Fed, FedLast, Probe, Sample;
      if a.status.Running? && a.awaiting {
        WaitProcesses(cfg, a, r.onWait, false);
        ProcessesOn(v, a, Wait(cfg, a, r.onWait, false), Fed(v, r.first), Fed(a, r.onWait));
      } else {
        var second, last := Fed(Probe(Sample(cfg, a, r), r), r.second), FedLast(cfg, b, volume, r);
        SettleProcesses(cfg, b, volume, r);
        ProcessesOn(a, b, Settle(cfg, b, volume, r), second, last);
        ProcessesOn(v, a, Settle(cfg, b, volume, r), Fed(v, r.first), second + last);
      }
    }
  }

  lemma {:induction false} TurnsProcess(cfg: Config, o: Opening, rounds: seq<Round>)
    ensures Processes(Open(cfg, o), Turns(cfg, Open(cfg, o), rounds), FedInTurns(cfg, Open(cfg, o), rounds))
  {
    var opening := Open(cfg, o);
    hide Open, Processes, Turn, FedInTurn;
    if rounds == [] {
      ProcessesNothing(opening, opening);
    } else {
      var before, last := rounds[..|rounds| - 1], rounds[|rounds| - 1];
      var v := Turns(cfg, opening, before);
      TurnsProcess(cfg, o, before);
      TurnsDecide(cfg, o, before);
      TurnProcesses(cfg, v, last);
      ProcessesOn(opening, v, Turn(cfg, v, last), FedInTurns(cfg, opening, before), FedInTurn(cfg, v, last));
    }
  }

  /** An observer that got ready had seen no row of the purge Job: its opening drain was empty. */
  lemma ReadyIsFirst(cfg: Config, o: Opening)
    requires Open(cfg, o).status.Running?
    ensures o.batch.jobs == Rows([]) && JobRows(Open(cfg, o).seen.events) == []
  {
    OpenKeeps(cfg, o);
    var swept := TakeInventory(cfg, Initial(o.size), o.sweep);
    var seen := Capture(cfg, swept, o.batch);
    TakeInventoryFrame(cfg, Initial(o.size), o.sweep);
    CaptureProcesses(cfg, swept, o.batch);
    if swept.status.Running? && o.batch.jobs.Broken? {
      BrokenFails(cfg, swept, o.batch);
    }
    EmitFrame(cfg, seen, Ready);
    hide TakeInventory, Capture, Emit, MarkStands, DeletionSeen, PurgeJobs.Replay, RemembersAll, VerdictIsLast, Fits;
  }

  lemma BrokenFails(cfg: Config, v: View, batch: Batch)
    requires v.status.Running? && batch.jobs.Broken?
    ensures !Capture(cfg, v, batch).status.Running?
  {
  }

  // ----- The purge Job's watch and the observer

  /** An observer whose opening drain and later drains are those of a watch on the purge Job: the
      Job rows it has processed when it is ready are none, and all it processes in a run are the
      first changes that the server logged after the watch's start bookmark, in order, none left
      out and none seen twice. A run that returns has processed all that was handed over; if the
      watch is sound and drained, that is every change up to the version it has reached. */
  lemma ObserverFollowsTheLog(cfg: Config, o: Opening, rounds: seq<Round>,
                              log: seq<Watch.Entry<PurgeJobs.JobRow>>, version: nat,
                              opening: seq<Watch.Step<PurgeJobs.JobRow>>, later: seq<Watch.Step<PurgeJobs.JobRow>>)
    requires Open(cfg, o).status.Running?
    requires Watch.IsLog(log) && Watch.IsRun(log, version, opening + later)
    requires Watch.EndsDrain(version, opening) && o.batch.jobs == Rows(Watch.After(version, opening).handed)
    requires Watch.After(version, opening + later).handed
          == Watch.After(version, opening).handed + FedInTurns(cfg, Open(cfg, o), rounds)
    ensures
      var w, run := Watch.After(version, opening + later), Run(cfg, o, rounds);
      var rows, from, to := JobRows(run.seen.events), Watch.UpTo(log, w.version), Watch.UpTo(log, w.current);
      && Watch.IsUpTo(log, w.version, from) && Watch.IsUpTo(log, w.current, to)
      && rows <= Watch.RowsOf(log[from..])
      && (run.status.Finished? ==> rows == w.handed)
      && (run.status.Finished? && !w.failed && w.queue == [] ==> from <= to && rows == Watch.RowsOf(log[from..to]))
  {
    hide Run, Open, JobRows, Watch.EndsDrain, Watch.IsRun, Watch.IsUpTo, Watch.UpTo, Watch.RowsOf, Watch.IsLog;
    ReadyIsFirst(cfg, o);
    assert (opening + later)[..|opening|] == opening;
    Watch.EarlierRun(log, version, opening + later, |opening|);
    Watch.DrainCatchesUp(log, version, opening);
    Watch.StartStays(version, opening, later);
    hide Watch.After;
    Watch.DrainsThePrefix(log, version, opening + later);
    TurnsProcess(cfg, o, rounds);
    RunEndsAlike(cfg, o, rounds);
    var w := Watch.After(version, opening + later);
    assert w.handed[0..] == w.handed;
    if Run(cfg, o, rounds).status.Finished? {
      RunIsTurns(cfg, o, rounds);
    }
  }
}
