/** The worker pool of mobile/scripts/jest-lite-runner.js: `orchestrate` forks one child per test
    file and keeps a bounded number of them running. Children are numbered by their file. */
module TestPool {
  import opened Wrappers

  datatype Summary = Summary(total: nat, passed: nat, failed: nat, skipped: nat)

  function Add(a: Summary, b: Summary): Summary {
    Summary(a.total + b.total, a.passed + b.passed, a.failed + b.failed, a.skipped + b.skipped)
  }

  const ZERO := Summary(0, 0, 0, 0)

  /** What a child makes the parent's handlers see. A child ends once, with an exit or an error. */
  datatype Event = Reported(summary: Summary) | Ended(child: nat, failed: bool)

  /** The variables of the orchestrator, and in `started` and `live` the children it forked and
      those that have not ended. `resolutions` counts the calls of `resolve`. */
  datatype Pool = Pool(nextIndex: nat, running: int, resolutions: nat, hasFailure: bool, aggregated: Summary,
                       started: seq<nat>, live: set<nat>)

  const NEW_POOL := Pool(0, 0, 0, false, ZERO, [], {})

  // ----- The handlers

  function StartNext(pool: Pool, files: nat): Pool {
    if pool.nextIndex >= files then
      if pool.running == 0 then pool.(resolutions := pool.resolutions + 1) else pool
    else
      pool.(nextIndex := pool.nextIndex + 1, running := pool.running + 1,
            started := pool.started + [pool.nextIndex], live := pool.live + {pool.nextIndex})
  }

  function StartMany(pool: Pool, files: nat, times: nat): Pool {
    if times == 0 then pool else StartNext(StartMany(pool, files, times - 1), files)
  }

  function Launch(files: nat, maxWorkers: nat): Pool {
    StartMany(NEW_POOL, files, if maxWorkers < files then maxWorkers else files)
  }

  function Handle(pool: Pool, files: nat, event: Event): Pool {
    match event
    case Reported(summary) => pool.(aggregated := Add(pool.aggregated, summary))
    case Ended(child, failed) =>
      var after := pool.(
        hasFailure := pool.hasFailure || failed,
        running := pool.running - 1,
        live := pool.live - {child});
      if after.nextIndex < files then StartNext(after, files)
      else if after.running == 0 then after.(resolutions := after.resolutions + 1)
      else after
  }

  function HandleAll(files: nat, maxWorkers: nat, events: seq<Event>): Pool {
    if events == [] then Launch(files, maxWorkers)
    else Handle(HandleAll(files, maxWorkers, events[..|events| - 1]), files, events[|events| - 1])
  }

  // ----- What every schedule keeps

  /** Only running children end, each once. */
  ghost predicate IsSchedule(files: nat, maxWorkers: nat, events: seq<Event>) {
    events == []
    || (var before, last := events[..|events| - 1], events[|events| - 1];
        IsSchedule(files, maxWorkers, before)
        && (last.Ended? ==> last.child in HandleAll(files, maxWorkers, before).live))
  }

  function Workers(files: nat, maxWorkers: nat): nat {
    if maxWorkers < files then maxWorkers else files
  }

  /** Files start once each and in order; the pool is full while files remain; the promise is
      resolved once, when everything has started and ended. */
  ghost predicate Inv(pool: Pool, files: nat, workers: nat) {
    && pool.nextIndex <= files
    && |pool.started| == pool.nextIndex
    && (forall i :: 0 <= i < |pool.started| ==> pool.started[i] == i)
    && (forall c :: c in pool.live ==> c < pool.nextIndex)
    && pool.running == |pool.live| <= workers
    && (pool.nextIndex < files ==> pool.running == workers)
    && pool.resolutions == if pool.running == 0 then 1 else 0
  }

  lemma {:induction false} StartManyFills(files: nat, times: nat)
    requires times <= files
    ensures var pool := StartMany(NEW_POOL, files, times);
            && pool.nextIndex == times == |pool.started| && pool.running == |pool.live| == times
            && (forall i :: 0 <= i < |pool.started| ==> pool.started[i] == i)
            && (forall c :: c in pool.live ==> c < times)
            && pool.resolutions == 0 && !pool.hasFailure && pool.aggregated == ZERO
  {
    if times > 0 {
      StartManyFills(files, times - 1);
    }
  }

  lemma LaunchKeeps(files: nat, maxWorkers: nat)
    requires files > 0 && maxWorkers > 0
    ensures Inv(Launch(files, maxWorkers), files, Workers(files, maxWorkers))
  {
    StartManyFills(files, Workers(files, maxWorkers));
  }

  lemma HandleKeeps(pool: Pool, files: nat, workers: nat, event: Event)
    requires Inv(pool, files, workers) && (event.Ended? ==> event.child in pool.live) && workers > 0
    ensures Inv(Handle(pool, files, event), files, workers)
  {
  }

  /** Every schedule, of every length, keeps the pool's promises. */
  lemma {:induction false} SchedulesKeep(files: nat, maxWorkers: nat, events: seq<Event>)
    requires files > 0 && maxWorkers > 0 && IsSchedule(files, maxWorkers, events)
    ensures Inv(HandleAll(files, maxWorkers, events), files, Workers(files, maxWorkers))
    decreases |events|
  {
    hide Inv, Handle;
    if events == [] {
      LaunchKeeps(files, maxWorkers);
    } else {
      var before := events[..|events| - 1];
      SchedulesKeep(files, maxWorkers, before);
      HandleKeeps(HandleAll(files, maxWorkers, before), files, Workers(files, maxWorkers), events[|events| - 1]);
    }
  }

  // ----- Progress and the end

  function Measure(pool: Pool, files: nat): int {
    2 * (files - pool.nextIndex) + pool.running
  }

  /** Every ending brings the pool strictly closer to its end; reports leave it where it is. */
  lemma EndingsMakeProgress(pool: Pool, files: nat, workers: nat, event: Event)
    requires Inv(pool, files, workers) && (event.Ended? ==> event.child in pool.live)
    ensures event.Ended? ==> 0 <= Measure(Handle(pool, files, event), files) < Measure(pool, files)
    ensures event.Reported? ==> Measure(Handle(pool, files, event), files) == Measure(pool, files)
  {
  }

  function Endings(events: seq<Event>): nat {
    if events == [] then 0 else Endings(events[..|events| - 1]) + if events[|events| - 1].Ended? then 1 else 0
  }

  lemma {:induction false} EndedOrLive(files: nat, maxWorkers: nat, events: seq<Event>)
    requires files > 0 && maxWorkers > 0 && IsSchedule(files, maxWorkers, events)
    ensures var pool := HandleAll(files, maxWorkers, events);
            Endings(events) + pool.running == pool.nextIndex
    decreases |events|
  {
    if events == [] {
      StartManyFills(files, Workers(files, maxWorkers));
    } else {
      EndedOrLive(files, maxWorkers, events[..|events| - 1]);
    }
  }

  /** The pool resolves at the ending of the last file's child and never else: before that some
      child is always live, so the run cannot get stuck; after it no child can end. */
  lemma ResolvesAtTheEnd(files: nat, maxWorkers: nat, events: seq<Event>)
    requires files > 0 && maxWorkers > 0 && IsSchedule(files, maxWorkers, events)
    ensures var pool := HandleAll(files, maxWorkers, events);
            && Endings(events) <= files
            && (pool.resolutions == 1 <==> Endings(events) == files)
            && pool.resolutions == (if pool.live == {} then 1 else 0)
            && (pool.resolutions == 1 ==> |pool.started| == files)
  {
    SchedulesKeep(files, maxWorkers, events);
    EndedOrLive(files, maxWorkers, events);
    var pool := HandleAll(files, maxWorkers, events);
    if pool.running == 0 {
      assert pool.live == {};
    }
  }

  /** `determineMaxWorkers`: the setting if it is a positive number, else the processors. */
  function MaxWorkers(setting: Option<real>, processors: nat, files: nat): nat {
    if setting.Some? && setting.value > 0.0 then
      if setting.value.Floor < files then setting.value.Floor else files
    else if processors == 0 || files == 0 then 1
    else if processors < files then processors
    else files
  }

  lemma {:induction false} StuckWithoutWorkers(files: nat, events: seq<Event>)
    requires files > 0 && IsSchedule(files, 0, events)
    ensures var pool := HandleAll(files, 0, events);
            pool.live == {} && pool.resolutions == 0 && Endings(events) == 0
    decreases |events|
  {
    if events != [] {
      StuckWithoutWorkers(files, events[..|events| - 1]);
    }
  }

  /** A schedule that leaves no child running has finished, whatever the setting, except for a
      setting between zero and one: with that one nothing ever starts or resolves. */
  lemma QuietMeansDone(files: nat, setting: Option<real>, processors: nat, events: seq<Event>)
    requires files > 0 && IsSchedule(files, MaxWorkers(setting, processors, files), events)
    requires HandleAll(files, MaxWorkers(setting, processors, files), events).live == {}
    ensures HandleAll(files, MaxWorkers(setting, processors, files), events).resolutions == 1
       <==> !(setting.Some? && 0.0 < setting.value < 1.0)
  {
    hide HandleAll, IsSchedule;
    var workers := MaxWorkers(setting, processors, files);
    if workers == 0 {
      StuckWithoutWorkers(files, events);
    } else {
      ResolvesAtTheEnd(files, workers, events);
    }
  }

  // ----- Results

  function Reports(events: seq<Event>): Summary {
    if events == [] then ZERO
    else
      var before, last := Reports(events[..|events| - 1]), events[|events| - 1];
      if last.Reported? then Add(before, last.summary) else before
  }

  /** The totals are the sums of all reports, and the run fails exactly when some child did,
      in whatever order they came. */
  lemma {:induction false} ResultsAddUp(files: nat, maxWorkers: nat, events: seq<Event>)
    ensures HandleAll(files, maxWorkers, events).aggregated == Reports(events)
    ensures HandleAll(files, maxWorkers, events).hasFailure <==>
      exists i :: 0 <= i < |events| && events[i].Ended? && events[i].failed
    decreases |events|
  {
    if events == [] {
      StartManyFills(files, Workers(files, maxWorkers));
    } else {
      var n := |events| - 1;
      ResultsAddUp(files, maxWorkers, events[..n]);
      assert forall i :: 0 <= i < n ==> events[..n][i] == events[i];
      if i :| 0 <= i < n && events[..n][i].Ended? && events[..n][i].failed {
        assert events[i].Ended? && events[i].failed;
      }
    }
  }

  /** What the orchestrator prints as skipped. */
  function ComputedSkipped(s: Summary): nat {
    if s.skipped > 0 then s.skipped
    else if s.total - s.passed - s.failed > 0 then s.total - s.passed - s.failed
    else 0
  }

  /** How a child computes the last field of its summary. */
  predicate IsChildSummary(s: Summary) {
    s.skipped == if s.total - s.passed - s.failed > 0 then s.total - s.passed - s.failed else 0
  }

  /** The fallback never fires on what children report: the printed number is their sum. */
  lemma {:induction false} FallbackIsUnused(events: seq<Event>)
    requires forall i :: 0 <= i < |events| && events[i].Reported? ==> IsChildSummary(events[i].summary)
    ensures ComputedSkipped(Reports(events)) == Reports(events).skipped
    ensures Reports(events).skipped >= Reports(events).total - Reports(events).passed - Reports(events).failed
    decreases |events|
  {
    if events != [] {
      var n := |events| - 1;
      assert forall i :: 0 <= i < n ==> events[..n][i] == events[i];
      FallbackIsUnused(events[..n]);
    }
  }

  // ----- The orchestrator's own variables

  class Orchestrator {
    const files: nat
    const maxWorkers: nat

    var nextIndex: nat
    var running: int
    var resolutions: nat
    var hasFailure: bool
    var aggregated: Summary

    ghost var started: seq<nat>
    ghost var live: set<nat>

    ghost function View(): Pool
      reads this
    {
      Pool(nextIndex, running, resolutions, hasFailure, aggregated, started, live)
    }

    /** Forks the initial children. */
    constructor (files: nat, maxWorkers: nat)
      ensures this.files == files && this.maxWorkers == maxWorkers
      ensures View() == Launch(files, maxWorkers)
    {
      this.files, this.maxWorkers := files, maxWorkers;
      nextIndex, running, resolutions, hasFailure, aggregated := 0, 0, 0, false, ZERO;
      started, live := [], {};
      new;
      var initialWorkers := if maxWorkers < files then maxWorkers else files;
      for i := 0 to initialWorkers
        invariant View() == StartMany(NEW_POOL, files, i)
      {
        StartChild();
      }
    }

    method StartChild()
      modifies this
      ensures View() == StartNext(old(View()), files)
    {
      if nextIndex >= files {
        if running == 0 {
          Resolve();
        }
        return;
      }
      started, live := started + [nextIndex], live + {nextIndex};
      nextIndex := nextIndex + 1;
      running := running + 1;
    }

    method Resolve()
      modifies this`resolutions
      ensures resolutions == old(resolutions) + 1
    {
      resolutions := resolutions + 1;
    }

    method OnMessage(summary: Summary)
      modifies this`aggregated
      ensures View() == Handle(old(View()), files, Reported(summary))
    {
      aggregated := Add(aggregated, summary);
    }

    method OnEnd(child: nat, failed: bool)
      modifies this
      ensures View() == Handle(old(View()), files, Ended(child, failed))
    {
      if failed {
        hasFailure := true;
      }
      live := live - {child};
      running := running - 1;
      if nextIndex < files {
        StartChild();
      } else if running == 0 {
        Resolve();
      }
    }
  }
}
