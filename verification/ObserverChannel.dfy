/** The supervisor that relays the observer's receipts into a file: a child process, a
    reader thread, a bounded queue and the main loop, interleaved in any way. */
module ObserverChannel {
  import opened Wrappers

  const QUEUE_SIZE := 32
  const CHANNEL_BYTES := 2097152

  datatype State = ObserverReady | Complete | Other(name: string)

  datatype Receipt = Receipt(
    run: string,
    serviceId: string,
    collectedAt: string,
    state: State,
    observation: string,
    extra: string)

  /** A line of the child's output: too long or unterminated, not a receipt, or one. */
  datatype Line = Oversized | Garbage | Said(receipt: Receipt)

  /** The proof's scope; `readyHolds` and `readyBody` are the check and the fixed
      selection of `observer_ready`, and `size` the length of a receipt's JSON text. */
  datatype Config = Config(
    run: string,
    serviceId: string,
    readyHolds: Receipt -> bool,
    readyBody: Receipt -> string,
    size: Receipt -> nat)
  {
    predicate InScope(r: Receipt) {
      r.run == run && r.serviceId == serviceId
    }

    /** What the artifact keeps of a receipt. */
    function Project(r: Receipt): Receipt {
      r.(extra := "", observation := if r.state == ObserverReady then readyBody(r) else r.observation)
    }
  }

  datatype Reason = Observing | StoppedOrDeadline | ObserverExited | ExitedWithoutProof | InvalidChannel | ReapUnproved

  /** Where the main loop stands. */
  datatype At = Top | BeforeGet | BeforeExitCheck | Leaving | Finished

  /** The child: how many lines it has written, and its exit status. */
  datatype Child = Child(emitted: nat, exited: Option<int>)

  /** The reader thread: how many lines it has taken, the one it is about to queue, and
      whether it saw the end of the child's output. */
  datatype Reader = Reader(read: nat, inHand: Option<Line>, alive: bool, ended: bool)

  /** The main loop's file: how many lines went into it, and what it holds. */
  datatype File = File(handled: nat, artifact: seq<Receipt>, written: nat, ready: bool, complete: bool)

  datatype Channel = Channel(
    child: Child,
    reader: Reader,
    queue: seq<Line>,
    stopped: bool,
    at: At,
    file: File,
    reason: Reason,
    exitCode: Option<int>)

  const STARTED := Channel(
    Child(0, None), Reader(0, None, true, false), [], false, Top, File(0, [], 0, false, false), Observing, None)

  datatype Step =
    | ChildWrites
    | ChildExits(code: int)
    | ReaderReads
    | ReaderEnds
    | ReaderPuts
    | ReaderGivesUp
    | Signal
    | CheckStop(request: Option<bool>, deadline: bool)   // the request names this session, or another
    | GetLine
    | CheckExit
    | Reap(proved: bool)

  ghost predicate MayStep(lines: seq<Line>, c: Channel, step: Step) {
    var idle := c.reader.alive && !c.stopped && c.reader.inHand.None?;
    match step
    case ChildWrites => c.child.exited.None? && c.child.emitted < |lines|
    case ChildExits(_) => c.child.exited.None?
    case ReaderReads => idle && c.reader.read < c.child.emitted
    case ReaderEnds => idle && c.reader.read == c.child.emitted && c.child.exited.Some?
    case ReaderPuts => c.reader.inHand.Some? && |c.queue| < QUEUE_SIZE
    case ReaderGivesUp => c.reader.alive && c.stopped
    case Signal => true
    case CheckStop(_, _) => c.at == Top
    case GetLine => c.at == BeforeGet
    case CheckExit => c.at == BeforeExitCheck
    case Reap(_) => c.at == Leaving
  }

  function Leave(c: Channel, reason: Reason): Channel {
    c.(at := Leaving, reason := reason)
  }

  /** The file with one more receipt, unless the receipt breaks the channel. */
  function Append(cfg: Config, file: File, line: Line): Option<File> {
    if !line.Said? || !cfg.InScope(line.receipt) then None
    else
      var receipt := line.receipt;
      if receipt.state == ObserverReady && (file.ready || !cfg.readyHolds(receipt)) then None
      else
        var kept := cfg.Project(receipt);
        var written := file.written + cfg.size(kept);
        if written > CHANNEL_BYTES then None
        else
          Some(File(file.handled + 1, file.artifact + [kept], written,
                    file.ready || receipt.state == ObserverReady,
                    file.complete || receipt.state == Complete))
  }

  /** The main loop takes a line from the queue, or finds none in time. */
  function Relay(cfg: Config, c: Channel): Channel {
    if c.queue == [] then c.(at := BeforeExitCheck)
    else
      var file := Append(cfg, c.file, c.queue[0]);
      if file.None? then Leave(c.(queue := c.queue[1..]), InvalidChannel)
      else c.(queue := c.queue[1..], file := file.value, at := BeforeExitCheck)
  }

  function Read(lines: seq<Line>, c: Channel): Channel {
    if c.reader.read >= |lines| then c
    else
      var line := lines[c.reader.read];
      var reader := c.reader.(read := c.reader.read + 1);
      if line.Oversized? then c.(reader := reader.(alive := false), stopped := true)
      else c.(reader := reader.(inHand := Some(line)))
  }

  function CheckStopped(c: Channel, request: Option<bool>, deadline: bool): Channel {
    if request == Some(false) then Leave(c, InvalidChannel)
    else if request.Some? || c.stopped || deadline
    then Leave(c.(stopped := c.stopped || request.Some?), StoppedOrDeadline)
    else c.(at := BeforeGet)
  }

  function CheckExited(c: Channel): Channel {
    if c.child.exited.Some? && !c.reader.alive && c.queue == [] then
      Leave(c.(exitCode := c.child.exited),
            if c.file.ready && c.file.complete then ObserverExited else ExitedWithoutProof)
    else c.(at := Top)
  }

  function Move(cfg: Config, lines: seq<Line>, c: Channel, step: Step): Channel {
    match step
    case ChildWrites => c.(child := c.child.(emitted := c.child.emitted + 1))
    case ChildExits(code) => c.(child := c.child.(exited := Some(code)))
    case ReaderReads => Read(lines, c)
    case ReaderEnds => c.(reader := c.reader.(alive := false, ended := true))
    case ReaderPuts =>
      if c.reader.inHand.Some?
      then c.(queue := c.queue + [c.reader.inHand.value], reader := c.reader.(inHand := None)) else c
    case ReaderGivesUp => c.(reader := c.reader.(alive := false, inHand := None))
    case Signal => c.(stopped := true)
    case CheckStop(request, deadline) => CheckStopped(c, request, deadline)
    case GetLine => Relay(cfg, c)
    case CheckExit => CheckExited(c)
    case Reap(proved) =>
      if proved then c.(at := Finished) else c.(at := Finished, reason := ReapUnproved, exitCode := None)
  }

  /** What `observer-wait` accepts: the final status file of a proved cleanup. */
  predicate WaitAccepts(c: Channel) {
    c.at == Finished && c.file.ready && c.exitCode == Some(0) && c.reason == ObserverExited
  }

  // ----- What every interleaving keeps

  /** The receipts are the projections of the first lines, one for one. */
  ghost predicate IsProjection(cfg: Config, lines: seq<Line>, receipts: seq<Receipt>) {
    && |receipts| <= |lines|
    && forall i :: 0 <= i < |receipts| ==> lines[i].Said? && receipts[i] == cfg.Project(lines[i].receipt)
  }

  function TotalSize(cfg: Config, receipts: seq<Receipt>): nat {
    if receipts == [] then 0 else TotalSize(cfg, receipts[..|receipts| - 1]) + cfg.size(receipts[|receipts| - 1])
  }

  function CountReady(receipts: seq<Receipt>): nat {
    if receipts == [] then 0
    else CountReady(receipts[..|receipts| - 1]) + if receipts[|receipts| - 1].state == ObserverReady then 1 else 0
  }

  /** The queue holds the child's lines from `from` on. */
  ghost predicate IsQueued(lines: seq<Line>, from: nat, queue: seq<Line>) {
    from + |queue| <= |lines| && forall j :: from <= j < from + |queue| ==> lines[j] == queue[j - from]
  }

  /** The reader thread loses and reorders nothing until it gives up: the lines handled,
      queued and in hand are the first ones that the child wrote. */
  ghost predicate InTransit(lines: seq<Line>, c: Channel) {
    var next, held := c.file.handled + |c.queue|, if c.reader.inHand.Some? then 1 else 0;
    && next + held <= c.reader.read
    && (c.reader.alive || c.reader.ended ==> next + held == c.reader.read)
    && IsQueued(lines, c.file.handled, c.queue)
    && (c.reader.inHand.Some? ==> next < |lines| && c.reader.inHand.value == lines[next])
  }

  ghost predicate Threads(lines: seq<Line>, c: Channel) {
    && c.reader.read <= c.child.emitted <= |lines|
    && |c.queue| <= QUEUE_SIZE
    && (c.reader.inHand.Some? ==> c.reader.alive)
    && (c.reader.ended ==> !c.reader.alive && c.child.exited.Some? && c.reader.read == c.child.emitted)
    && (!c.reader.alive ==> c.reader.ended || c.stopped)
  }

  ghost predicate SaysComplete(artifact: seq<Receipt>) {
    exists i :: 0 <= i < |artifact| && artifact[i].state == Complete
  }

  /** The artifact is the projection of the lines handled, and the two flags are about
      the artifact. */
  ghost predicate Written(cfg: Config, lines: seq<Line>, file: File) {
    && |file.artifact| == file.handled
    && IsProjection(cfg, lines, file.artifact)
    && file.written == TotalSize(cfg, file.artifact) <= CHANNEL_BYTES
    && CountReady(file.artifact) == (if file.ready then 1 else 0)
    && (file.complete <==> SaysComplete(file.artifact))
  }

  ghost predicate Judged(c: Channel) {
    && (c.at != Leaving && c.at != Finished ==> c.reason == Observing && c.exitCode == None)
    && (c.reason == ObserverExited ==>
          && c.file.ready && c.file.complete && !c.reader.alive && c.queue == []
          && c.child.exited.Some? && c.exitCode == c.child.exited)
  }

  /** A line that breaks the channel is dropped, and with it the count of lines. */
  ghost predicate Inv(cfg: Config, lines: seq<Line>, c: Channel) {
    && Threads(lines, c) && Judged(c) && Written(cfg, lines, c.file)
    && (c.reason != InvalidChannel && c.reason != ReapUnproved ==> InTransit(lines, c))
  }

  lemma CountsGrow(cfg: Config, artifact: seq<Receipt>, kept: Receipt)
    ensures TotalSize(cfg, artifact + [kept]) == TotalSize(cfg, artifact) + cfg.size(kept)
    ensures CountReady(artifact + [kept]) == CountReady(artifact) + if kept.state == ObserverReady then 1 else 0
    ensures SaysComplete(artifact + [kept]) <==> SaysComplete(artifact) || kept.state == Complete
  {
  }

  lemma AppendWrites(cfg: Config, lines: seq<Line>, file: File)
    requires Written(cfg, lines, file) && file.handled < |lines|
    requires Append(cfg, file, lines[file.handled]).Some?
    ensures Written(cfg, lines, Append(cfg, file, lines[file.handled]).value)
    ensures Append(cfg, file, lines[file.handled]).value.handled == file.handled + 1
  {
    CountsGrow(cfg, file.artifact, cfg.Project(lines[file.handled].receipt));
    hide TotalSize, CountReady, SaysComplete;
  }

  lemma PopIsQueued(lines: seq<Line>, from: nat, queue: seq<Line>)
    requires IsQueued(lines, from, queue) && queue != []
    ensures from < |lines| && queue[0] == lines[from]
    ensures IsQueued(lines, from + 1, queue[1..])
  {
  }

  lemma PopKeepsTransit(lines: seq<Line>, c: Channel, file: File)
    requires InTransit(lines, c) && c.queue != [] && file.handled == c.file.handled + 1
    ensures c.file.handled < |lines| && c.queue[0] == lines[c.file.handled]
    ensures InTransit(lines, c.(queue := c.queue[1..], file := file, at := BeforeExitCheck))
  {
    PopIsQueued(lines, c.file.handled, c.queue);
    hide IsQueued;
    assert file.handled + |c.queue[1..]| == c.file.handled + |c.queue|;
  }

  lemma RelayKeeps(cfg: Config, lines: seq<Line>, c: Channel)
    requires Inv(cfg, lines, c) && c.at == BeforeGet
    ensures Inv(cfg, lines, Relay(cfg, c))
  {
    hide IsQueued;
    if c.queue != [] {
      var file := c.file.(handled := c.file.handled + 1);
      PopKeepsTransit(lines, c, file);
      if Append(cfg, c.file, c.queue[0]).Some? {
        AppendWrites(cfg, lines, c.file);
        PopKeepsTransit(lines, c, Append(cfg, c.file, c.queue[0]).value);
      }
      hide Append, Written, InTransit;
    }
  }

  lemma ReadKeeps(cfg: Config, lines: seq<Line>, c: Channel)
    requires Inv(cfg, lines, c) && MayStep(lines, c, ReaderReads)
    ensures Inv(cfg, lines, Read(lines, c))
  {
    hide Written;
  }

  lemma CheckStoppedKeeps(cfg: Config, lines: seq<Line>, c: Channel, request: Option<bool>, deadline: bool)
    requires Inv(cfg, lines, c) && c.at == Top
    ensures Inv(cfg, lines, CheckStopped(c, request, deadline))
  {
    hide Written;
  }

  lemma CheckExitedKeeps(cfg: Config, lines: seq<Line>, c: Channel)
    requires Inv(cfg, lines, c) && c.at == BeforeExitCheck
    ensures Inv(cfg, lines, CheckExited(c))
  {
  }

  lemma PutKeeps(cfg: Config, lines: seq<Line>, c: Channel)
    requires Inv(cfg, lines, c) && MayStep(lines, c, ReaderPuts)
    ensures Inv(cfg, lines, Move(cfg, lines, c, ReaderPuts))
  {
  }

  lemma MoveKeeps(cfg: Config, lines: seq<Line>, c: Channel, step: Step)
    requires Inv(cfg, lines, c) && MayStep(lines, c, step)
    ensures Inv(cfg, lines, Move(cfg, lines, c, step))
  {
    match step
    case ReaderReads => ReadKeeps(cfg, lines, c);
    case ReaderPuts => PutKeeps(cfg, lines, c);
    case GetLine => RelayKeeps(cfg, lines, c);
    case CheckStop(request, deadline) => CheckStoppedKeeps(cfg, lines, c, request, deadline);
    case CheckExit => CheckExitedKeeps(cfg, lines, c);
    case _ => hide Written, Relay, Read, CheckStopped, CheckExited;
  }

  function After(cfg: Config, lines: seq<Line>, steps: seq<Step>): Channel {
    if steps == [] then STARTED else Move(cfg, lines, After(cfg, lines, steps[..|steps| - 1]), steps[|steps| - 1])
  }

  /** Each step could be taken when its turn came. */
  ghost predicate IsRun(cfg: Config, lines: seq<Line>, steps: seq<Step>) {
    forall n :: 0 <= n < |steps| ==> MayStep(lines, After(cfg, lines, steps[..n]), steps[n])
  }

  lemma RunPrefix(cfg: Config, lines: seq<Line>, steps: seq<Step>, step: Step)
    requires IsRun(cfg, lines, steps + [step])
    ensures IsRun(cfg, lines, steps) && MayStep(lines, After(cfg, lines, steps), step)
    ensures After(cfg, lines, steps + [step]) == Move(cfg, lines, After(cfg, lines, steps), step)
  {
    var all := steps + [step];
    hide MayStep, Move;
    assert all[..|steps|] == steps && all[|steps|] == step;
    forall n | 0 <= n < |steps| ensures MayStep(lines, After(cfg, lines, steps[..n]), steps[n]) {
      assert steps[..n] == all[..n] && steps[n] == all[n];
    }
  }

  lemma {:induction false} RunKeepsInv(cfg: Config, lines: seq<Line>, steps: seq<Step>)
    requires IsRun(cfg, lines, steps)
    ensures Inv(cfg, lines, After(cfg, lines, steps))
  {
    if steps == [] {
      assert Written(cfg, lines, STARTED.file);
    } else {
      var before, last := steps[..|steps| - 1], steps[|steps| - 1];
      assert steps == before + [last];
      RunPrefix(cfg, lines, before, last);
      hide MayStep, Move, Inv, After, IsRun;
      RunKeepsInv(cfg, lines, before);
      MoveKeeps(cfg, lines, After(cfg, lines, before), last);
    }
  }

  /** Whatever the interleaving, the artifact is the projection of a prefix of what the
      child said, in order and within the size bound. */
  lemma ArtifactIsPrefix(cfg: Config, lines: seq<Line>, steps: seq<Step>)
    requires IsRun(cfg, lines, steps)
    ensures
      var c := After(cfg, lines, steps);
      IsProjection(cfg, lines, c.file.artifact) && TotalSize(cfg, c.file.artifact) <= CHANNEL_BYTES
  {
    RunKeepsInv(cfg, lines, steps);
  }

  /** The child says `complete` only as its last word. */
  ghost predicate CompleteComesLast(lines: seq<Line>) {
    forall k :: 0 <= k < |lines| - 1 && lines[k].Said? ==> lines[k].receipt.state != Complete
  }

  /** An accepted wait proves exactly one readiness receipt and a completion receipt in
      the artifact and exit status 0. If the child says `complete` only at the end, it also
      proves that the child said all it had to say and that the artifact holds all of it,
      whatever stop requests, signals and delays there were. */
  lemma WaitProves(cfg: Config, lines: seq<Line>, steps: seq<Step>)
    requires IsRun(cfg, lines, steps) && WaitAccepts(After(cfg, lines, steps))
    ensures
      var c := After(cfg, lines, steps);
      && CountReady(c.file.artifact) == 1
      && SaysComplete(c.file.artifact)
      && IsProjection(cfg, lines, c.file.artifact)
      && c.child.exited == Some(0)
      && (CompleteComesLast(lines) ==> c.child.emitted == |lines| == |c.file.artifact|)
  {
    hide IsQueued;
    RunKeepsInv(cfg, lines, steps);
    hide IsRun, CountReady, TotalSize;
    var c := After(cfg, lines, steps);
    hide After;
    var k :| 0 <= k < |c.file.artifact| && c.file.artifact[k].state == Complete;
    assert lines[k].receipt.state == Complete;
  }

  // ----- The waiting command

  datatype Phase = Starting | Ongoing | Ended | OtherPhase

  /** The status file; `ours` tells whether its scope is that of the waiting session. */
  datatype Status = Status(ours: bool, phase: Phase, ready: bool, exitCode: Option<int>, reason: Reason)

  /** What one turn of the waiting loop finds: whether there is time left, the status file if
      there is one, and whether the heartbeat in it is at most 20 seconds old. */
  datatype Poll = Poll(inTime: bool, status: Option<Status>, recent: bool)

  datatype WaitFault = Foreign | NotProved | UnknownPhase | Stale | TimedOut

  /** The poll leaves the matter open. */
  predicate IsOpen(poll: Poll, readiness: bool) {
    && poll.inTime
    && (poll.status.Some? ==>
          && poll.status.value.ours && poll.status.value.phase in {Starting, Ongoing} && poll.recent
          && !(readiness && poll.status.value.ready && poll.status.value.phase == Ongoing))
  }

  /** The poll ends the wait with success. */
  predicate IsAnswer(poll: Poll, readiness: bool) {
    && poll.inTime && poll.status.Some? && poll.status.value.ours
    && var s := poll.status.value;
    if readiness then s.phase == Ongoing && poll.recent && s.ready
    else s.phase == Ended && s.ready && s.exitCode == Some(0) && s.reason == ObserverExited
  }

  /** The waiting loop returns at the first poll that answers, if no poll before it raises. */
  method Wait(polls: seq<Poll>, readiness: bool) returns (r: Result<nat, WaitFault>)
    ensures r.Success? ==>
      && r.value < |polls| && IsAnswer(polls[r.value], readiness)
      && forall j :: 0 <= j < r.value ==> IsOpen(polls[j], readiness)
    ensures r.Failure? ==>
      (forall j :: 0 <= j < |polls| ==> IsOpen(polls[j], readiness))
      || exists k :: 0 <= k < |polls| && !IsOpen(polls[k], readiness) && !IsAnswer(polls[k], readiness)
                     && forall j :: 0 <= j < k ==> IsOpen(polls[j], readiness)
  {
    for k := 0 to |polls|
      invariant forall j :: 0 <= j < k ==> IsOpen(polls[j], readiness)
    {
      var poll := polls[k];
      if !poll.inTime {
        return Failure(TimedOut);
      }
      if poll.status.Some? {
        var status := poll.status.value;
        if !status.ours {
          return Failure(Foreign);
        }
        if status.phase == Ended {
          if readiness || !status.ready || status.exitCode != Some(0) || status.reason != ObserverExited {
            return Failure(NotProved);
          }
          return Success(k);
        }
        if status.phase == OtherPhase {
          return Failure(UnknownPhase);
        }
        if !poll.recent {
          return Failure(Stale);
        }
        if readiness && status.ready && status.phase == Ongoing {
          return Success(k);
        }
      }
    }
    return Failure(TimedOut);
  }

  /** The status file of the supervisor at this point. */
  function StatusFile(c: Channel): Status {
    Status(true, if c.at == Finished then Ended else Ongoing, c.file.ready, c.exitCode, c.reason)
  }

  /** Every status file that is ours was written at some point of the run. */
  ghost predicate WrittenBy(cfg: Config, lines: seq<Line>, steps: seq<Step>, polls: seq<Poll>) {
    forall k :: 0 <= k < |polls| && polls[k].status.Some? && polls[k].status.value.ours ==>
      WrittenIn(cfg, lines, steps, polls[k].status.value)
  }

  ghost predicate WrittenIn(cfg: Config, lines: seq<Line>, steps: seq<Step>, status: Status) {
    status.phase == Starting
    || exists n :: 0 <= n <= |steps| && status == StatusFile(After(cfg, lines, steps[..n]))
  }

  /** A run may be looked at before its end. */
  lemma EarlierRun(cfg: Config, lines: seq<Line>, steps: seq<Step>, n: nat)
    requires IsRun(cfg, lines, steps) && n <= |steps|
    ensures IsRun(cfg, lines, steps[..n])
  {
    hide MayStep, After;
    var part := steps[..n];
    forall i | 0 <= i < n
      ensures MayStep(lines, After(cfg, lines, part[..i]), part[i])
    {
      assert part[..i] == steps[..i] && part[i] == steps[i];
    }
  }

  /** A wait for completion that returns has seen the final status of a proved cleanup. */
  lemma AnswerIsAccepted(cfg: Config, lines: seq<Line>, steps: seq<Step>, polls: seq<Poll>, k: nat) returns (n: nat)
    requires IsRun(cfg, lines, steps) && WrittenBy(cfg, lines, steps, polls)
    requires k < |polls| && IsAnswer(polls[k], false)
    ensures n <= |steps| && IsRun(cfg, lines, steps[..n]) && WaitAccepts(After(cfg, lines, steps[..n]))
  {
    hide IsRun, After;
    n :| 0 <= n <= |steps| && polls[k].status.value == StatusFile(After(cfg, lines, steps[..n]));
    EarlierRun(cfg, lines, steps, n);
  }
}
