/** `CleanupWatch`: a collector thread that follows the API server's log over any number
    of connections, and a consumer that drains its bounded queue. The two interleave
    freely, so the watch is a machine that takes one step at a time. */
module ReplayedWatch {
  import opened Wrappers

  const QUEUE_SIZE := 256
  const MAX_EVENTS := 4096

  /** One entry of the server's log of changes. */
  datatype Entry<T> = Entry(version: nat, row: T)

  /** Versions grow along the log. */
  ghost predicate IsLog<T>(log: seq<Entry<T>>) {
    forall i, j :: 0 <= i < j < |log| ==> log[i].version < log[j].version
  }

  /** How many entries have a version of at most `v`. */
  function UpTo<T>(log: seq<Entry<T>>, v: nat): (n: nat)
    ensures n <= |log|
  {
    if log == [] then 0
    else if log[|log| - 1].version <= v then |log|
    else UpTo(log[..|log| - 1], v)
  }

  function RowsOf<T>(log: seq<Entry<T>>): (rows: seq<T>)
    ensures |rows| == |log| && forall i :: 0 <= i < |rows| ==> rows[i] == log[i].row
  {
    seq(|log|, i requires 0 <= i < |log| => log[i].row)
  }

  /** A line that the collector reads from its connection. */
  datatype Line<T> =
    | Change(entry: Entry<T>)
    | Bookmark(version: nat, endsInitialEvents: bool)
    | Unusable        // oversized, malformed, or an event of another type

  datatype Step<T> =
    | Connect
    | Receive(line: Line<T>)
    | Disconnect(exitedCleanly: bool)
    | Stop
    | StartDrain
    | TakeRow

  /** `enqueued`, `handed` and `base` are the history: the rows ever put into the queue,
      the rows that drains have taken, and how many rows had been put before the start. */
  datatype Watch<T> = Watch(
    current: nat,
    initialSync: bool,
    version: nat,
    eventCount: nat,
    connected: bool,
    queue: seq<T>,
    failed: bool,
    stopped: bool,
    draining: bool,
    enqueued: seq<T>,
    handed: seq<T>,
    base: nat)

  function Begin<T>(version: nat): Watch<T> {
    Watch(version, true, version, 0, false, [], false, false, false, [], [], 0)
  }

  // ----- The collector

  function Fail<T>(w: Watch<T>): Watch<T> {
    w.(failed := true, connected := false)
  }

  function Put<T>(w: Watch<T>, row: T): Watch<T> {
    if |w.queue| >= QUEUE_SIZE then Fail(w)
    else w.(queue := w.queue + [row], enqueued := w.enqueued + [row])
  }

  function Read<T>(w: Watch<T>, line: Line<T>): Watch<T> {
    if line.Unusable? || w.eventCount >= MAX_EVENTS then Fail(w.(eventCount := w.eventCount + 1))
    else
      var counted := w.(eventCount := w.eventCount + 1);
      match line
      case Change(entry) => Put(counted.(current := entry.version), entry.row)
      case Bookmark(version, ends) =>
        if ends && w.initialSync
        then counted.(current := version, initialSync := false, version := version, base := |w.enqueued|)
        else counted.(current := version)
  }

  /** One step of the collector or of its consumer. */
  function Take<T>(w: Watch<T>, step: Step<T>): Watch<T> {
    match step
    case Connect => w.(connected := true)
    case Receive(line) => Read(w, line)
    case Disconnect(exitedCleanly) => if w.stopped || exitedCleanly then w.(connected := false) else Fail(w)
    case Stop => w.(stopped := true)
    case StartDrain => w.(draining := !w.failed)
    case TakeRow =>
      if w.queue == [] then w.(draining := false)
      else w.(queue := w.queue[1..], handed := w.handed + [w.queue[0]])
  }

  /** What may happen next. Once the initial events are over, the server sends the log
      in order from the version it was asked for: the next change is the first one
      after `current`, and a bookmark skips no change. A watch that can be drained has been
      constructed, which takes until the initial events are over. */
  ghost predicate MayTake<T>(log: seq<Entry<T>>, w: Watch<T>, step: Step<T>) {
    match step
    case Connect => !w.connected && !w.failed && !w.stopped
    case Receive(line) =>
      && w.connected
      && (!w.initialSync ==>
            && (line.Change? ==> UpTo(log, w.current) < |log| && line.entry == log[UpTo(log, w.current)])
            && (line.Bookmark? ==> w.current <= line.version && UpTo(log, line.version) == UpTo(log, w.current)))
    case Disconnect(_) => w.connected
    case Stop => true
    case StartDrain => !w.draining && !w.initialSync
    case TakeRow => w.draining
  }

  function After<T>(version: nat, steps: seq<Step<T>>): Watch<T> {
    if steps == [] then Begin(version) else Take(After(version, steps[..|steps| - 1]), steps[|steps| - 1])
  }

  ghost predicate IsRun<T>(log: seq<Entry<T>>, version: nat, steps: seq<Step<T>>) {
    forall n :: 0 <= n < |steps| ==> MayTake(log, After(version, steps[..n]), steps[n])
  }

  // ----- What every run keeps

  /** The first `n` entries are those with a version of at most `v`. */
  ghost predicate IsUpTo<T>(log: seq<Entry<T>>, v: nat, n: int) {
    && 0 <= n <= |log|
    && forall i :: 0 <= i < |log| ==> (log[i].version <= v <==> i < n)
  }

  lemma {:induction false} UpToCounts<T>(log: seq<Entry<T>>, v: nat)
    requires IsLog(log)
    ensures IsUpTo(log, v, UpTo(log, v))
  {
    if log != [] && log[|log| - 1].version > v {
      var shorter := log[..|log| - 1];
      UpToCounts(shorter, v);
      forall i | 0 <= i < |shorter|
        ensures shorter[i] == log[i]
      {
      }
    }
  }

  lemma UpToNext<T>(log: seq<Entry<T>>, v: nat)
    requires IsLog(log) && UpTo(log, v) < |log|
    ensures UpTo(log, log[UpTo(log, v)].version) == UpTo(log, v) + 1
  {
  }

  /** The rows put since the start are the log from the start bookmark on, in order and
      without a gap; if nothing has failed, they reach as far as `current`. */
  ghost predicate FollowsLog<T>(log: seq<Entry<T>>, w: Watch<T>) {
    var from, to := UpTo(log, w.version), UpTo(log, w.current);
    && w.base <= |w.enqueued|
    && from <= to
    && (if w.failed
        then w.enqueued[w.base..] <= RowsOf(log[from..])
        else w.enqueued[w.base..] == RowsOf(log[from..to]))
  }

  ghost predicate Inv<T>(log: seq<Entry<T>>, w: Watch<T>) {
    && w.enqueued == w.handed + w.queue
    && |w.queue| <= QUEUE_SIZE
    && (w.eventCount <= MAX_EVENTS || w.failed)
    && (w.failed ==> !w.connected)
    && (w.draining ==> !w.initialSync)
    && (!w.initialSync ==> FollowsLog(log, w))
  }

  lemma SliceGrows<T>(log: seq<Entry<T>>, from: nat, to: nat)
    requires from <= to < |log|
    ensures RowsOf(log[from..to + 1]) == RowsOf(log[from..to]) + [log[to].row]
  {
  }

  lemma SliceIsPrefix<T>(log: seq<Entry<T>>, from: nat, to: nat)
    requires from <= to <= |log|
    ensures RowsOf(log[from..to]) <= RowsOf(log[from..])
  {
  }

  lemma ChangeKeepsInv<T>(log: seq<Entry<T>>, w: Watch<T>, entry: Entry<T>)
    requires IsLog(log) && Inv(log, w) && !w.failed && !w.initialSync
    requires w.eventCount < MAX_EVENTS
    requires UpTo(log, w.current) < |log| && entry == log[UpTo(log, w.current)]
    ensures Inv(log, Read(w, Change(entry)))
  {
    UpToNext(log, w.current);
    hide UpTo, RowsOf;
    if |w.queue| >= QUEUE_SIZE {
      SliceIsPrefix(log, UpTo(log, w.version), UpTo(log, w.current));
    } else {
      PutKeepsInv(log, w, entry);
    }
  }

  lemma PutFollowsLog<T>(log: seq<Entry<T>>, w: Watch<T>, entry: Entry<T>)
    requires FollowsLog(log, w) && !w.failed
    requires w.eventCount < MAX_EVENTS && |w.queue| < QUEUE_SIZE
    requires UpTo(log, w.current) < |log| && entry == log[UpTo(log, w.current)]
    requires UpTo(log, entry.version) == UpTo(log, w.current) + 1
    ensures FollowsLog(log, Read(w, Change(entry)))
  {
    hide UpTo, RowsOf;
    SliceGrows(log, UpTo(log, w.version), UpTo(log, w.current));
    assert (w.enqueued + [entry.row])[w.base..] == w.enqueued[w.base..] + [entry.row];
  }

  lemma PutKeepsInv<T>(log: seq<Entry<T>>, w: Watch<T>, entry: Entry<T>)
    requires Inv(log, w) && !w.failed && !w.initialSync
    requires w.eventCount < MAX_EVENTS && |w.queue| < QUEUE_SIZE
    requires UpTo(log, w.current) < |log| && entry == log[UpTo(log, w.current)]
    requires UpTo(log, entry.version) == UpTo(log, w.current) + 1
    ensures Inv(log, Read(w, Change(entry)))
  {
    hide UpTo, RowsOf, FollowsLog;
    PutFollowsLog(log, w, entry);
    assert w.enqueued + [entry.row] == w.handed + (w.queue + [entry.row]);
  }

  lemma FailKeepsInv<T>(log: seq<Entry<T>>, w: Watch<T>, count: nat)
    requires IsLog(log) && Inv(log, w)
    ensures Inv(log, Fail(w.(eventCount := count)))
  {
  }

  lemma ReadKeepsInv<T>(log: seq<Entry<T>>, w: Watch<T>, line: Line<T>)
    requires IsLog(log) && Inv(log, w) && MayTake(log, w, Receive(line))
    ensures Inv(log, Read(w, line))
  {
    if line.Unusable? || w.eventCount >= MAX_EVENTS {
      FailKeepsInv(log, w, w.eventCount + 1);
    } else if line.Change? {
      if w.initialSync {
        assert w.enqueued + [line.entry.row] == w.handed + (w.queue + [line.entry.row]);
      } else {
        ChangeKeepsInv(log, w, line.entry);
      }
    } else if line.endsInitialEvents && w.initialSync {
      assert w.enqueued[|w.enqueued|..] == [];
      assert log[UpTo(log, line.version)..UpTo(log, line.version)] == [];
    }
  }

  lemma TakeKeepsInv<T>(log: seq<Entry<T>>, w: Watch<T>, step: Step<T>)
    requires IsLog(log) && Inv(log, w) && MayTake(log, w, step)
    ensures Inv(log, Take(w, step))
  {
    match step
    case Receive(line) => ReadKeepsInv(log, w, line);
    case Disconnect(_) => FailKeepsInv(log, w, w.eventCount);
    case TakeRow =>
      if w.queue != [] {
        assert w.queue == [w.queue[0]] + w.queue[1..];
        assert w.handed + w.queue == (w.handed + [w.queue[0]]) + w.queue[1..];
      }
    case _ =>
  }

  lemma RunPrefix<T>(log: seq<Entry<T>>, version: nat, steps: seq<Step<T>>, step: Step<T>)
    requires IsRun(log, version, steps + [step])
    ensures IsRun(log, version, steps) && MayTake(log, After(version, steps), step)
    ensures After(version, steps + [step]) == Take(After(version, steps), step)
  {
    var all := steps + [step];
    hide MayTake, Take;
    assert all[..|steps|] == steps && all[|steps|] == step;
    forall n | 0 <= n < |steps| ensures MayTake(log, After(version, steps[..n]), steps[n]) {
      assert steps[..n] == all[..n] && steps[n] == all[n];
    }
  }

  lemma {:induction false} RunKeepsInv<T>(log: seq<Entry<T>>, version: nat, steps: seq<Step<T>>)
    requires IsLog(log) && IsRun(log, version, steps)
    ensures Inv(log, After(version, steps))
  {
    if steps != [] {
      var before, last := steps[..|steps| - 1], steps[|steps| - 1];
      assert steps == before + [last];
      RunPrefix(log, version, before, last);
      hide MayTake, Inv, Take, After;
      RunKeepsInv(log, version, before);
      TakeKeepsInv(log, After(version, before), last);
    }
  }

  /** However connections break and drains interleave, the rows drained since the start
      bookmark are a prefix of the log after that version: in order, none missing and
      none twice. While nothing has failed, an empty queue means that the consumer has
      every change up to the version that the collector has reached. */
  lemma DrainsThePrefix<T>(log: seq<Entry<T>>, version: nat, steps: seq<Step<T>>)
    requires IsLog(log) && IsRun(log, version, steps)
    ensures
      var w := After(version, steps);
      var from, to := UpTo(log, w.version), UpTo(log, w.current);
      && IsUpTo(log, w.version, from) && IsUpTo(log, w.current, to)
      && (!w.initialSync ==>
            && (w.base <= |w.handed| ==> w.handed[w.base..] <= RowsOf(log[from..]))
            && (!w.failed && w.queue == [] ==>
                  w.base <= |w.handed| && from <= to && w.handed[w.base..] == RowsOf(log[from..to])))
  {
    RunKeepsInv(log, version, steps);
    var w := After(version, steps);
    hide After, IsUpTo;
    UpToCounts(log, w.version);
    UpToCounts(log, w.current);
    if !w.initialSync {
      SliceIsPrefix(log, UpTo(log, w.version), UpTo(log, w.current));
      assert w.enqueued[w.base..] <= RowsOf(log[UpTo(log, w.version)..]);
      hide UpTo;
      if w.base <= |w.handed| {
        assert w.handed[w.base..] <= w.enqueued[w.base..];
      }
      if w.queue == [] {
        assert w.enqueued == w.handed;
      }
    }
  }

  /** Once failure is recorded and no drain is under way, no row is ever handed out. */
  lemma {:induction false} FailureIsFinal<T>(log: seq<Entry<T>>, version: nat, steps: seq<Step<T>>, more: seq<Step<T>>)
    requires IsLog(log) && IsRun(log, version, steps + more)
    requires After(version, steps).failed && !After(version, steps).draining
    ensures
      var w, later := After(version, steps), After(version, steps + more);
      later.failed && !later.draining && later.handed == w.handed
  {
    if more == [] {
      assert steps + more == steps;
    } else {
      var before, last := more[..|more| - 1], more[|more| - 1];
      assert steps + more == (steps + before) + [last];
      RunPrefix(log, version, steps + before, last);
      RunKeepsInv(log, version, steps + before);
      hide IsRun, After;
      FailureIsFinal(log, version, steps, before);
    }
  }

  /** The steps end with the end of a drain: the queue was found empty. */
  ghost predicate EndsDrain<T>(version: nat, steps: seq<Step<T>>) {
    && steps != []
    && steps[|steps| - 1] == TakeRow
    && var w := After(version, steps[..|steps| - 1]);
    w.draining && w.queue == []
  }

  lemma EmptyIsCaughtUp<T>(log: seq<Entry<T>>, w: Watch<T>)
    requires Inv(log, w) && w.draining && w.queue == []
    ensures !Take(w, TakeRow).initialSync && Take(w, TakeRow).base <= |Take(w, TakeRow).handed|
  {
    hide UpTo, RowsOf;
    assert w.handed + w.queue == w.handed;
  }

  /** A drain that has ended has handed out all the initial events. */
  lemma DrainCatchesUp<T>(log: seq<Entry<T>>, version: nat, steps: seq<Step<T>>)
    requires IsLog(log) && IsRun(log, version, steps) && EndsDrain(version, steps)
    ensures
      var w := After(version, steps);
      !w.initialSync && w.base <= |w.handed|
  {
    hide Take, IsRun, Inv, IsLog;
    var before := steps[..|steps| - 1];
    assert After(version, steps) == Take(After(version, before), TakeRow);
    hide After;
    EarlierRun(log, version, steps, |steps| - 1);
    RunKeepsInv(log, version, before);
    EmptyIsCaughtUp(log, After(version, before));
  }

  /** A run may be looked at before its end. */
  lemma EarlierRun<T>(log: seq<Entry<T>>, version: nat, steps: seq<Step<T>>, n: nat)
    requires IsRun(log, version, steps) && n <= |steps|
    ensures IsRun(log, version, steps[..n])
  {
    hide MayTake, After;
    var part := steps[..n];
    forall i | 0 <= i < n
      ensures MayTake(log, After(version, part[..i]), part[i])
    {
      assert part[..i] == steps[..i] && part[i] == steps[i];
    }
  }

  /** Once the initial events are over, the start bookmark stays what it is. */
  ghost predicate KeepsStart<T>(w: Watch<T>, later: Watch<T>) {
    !w.initialSync ==>
      !later.initialSync && later.base == w.base && later.version == w.version && w.handed <= later.handed
  }

  lemma TakeKeepsStart<T>(w: Watch<T>, step: Step<T>)
    ensures KeepsStart(w, Take(w, step))
  {
  }

  lemma {:induction false} StartStays<T>(version: nat, steps: seq<Step<T>>, more: seq<Step<T>>)
    ensures KeepsStart(After(version, steps), After(version, steps + more))
  {
    if more == [] {
      assert steps + more == steps;
    } else {
      var before, last := more[..|more| - 1], more[|more| - 1];
      assert steps + more == (steps + before) + [last];
      assert (steps + more)[..|steps + more| - 1] == steps + before;
      StartStays(version, steps, before);
      TakeKeepsStart(After(version, steps + before), last);
      assert After(version, steps + more) == Take(After(version, steps + before), last);
      hide After, Take;
    }
  }
}
