/** The read loop of the PTY runner: ordered markers are looked for in a stream that
    arrives in chunks, through a buffer that is trimmed as it goes. */
module MarkerMatcher {
  import opened Wrappers
  import opened Search

  type byte = x: int | 0 <= x < 256

  const KEEP := 4096

  datatype Expectation = Expectation(name: string, marker: seq<byte>, response: Option<seq<byte>>)

  /** The command line admits no empty marker. */
  ghost predicate Usable(expectations: seq<Expectation>) {
    forall i :: 0 <= i < |expectations| ==> expectations[i].marker != []
  }

  // ----- Matching on the whole stream

  /** Where the markers found so far end. */
  function EndOf(expectations: seq<Expectation>, at: seq<nat>): nat
    requires |at| <= |expectations|
  {
    if at == [] then 0 else at[|at| - 1] + |expectations[|at| - 1].marker|
  }

  /** The leftmost place of the next marker after those found so far, or -1. */
  function Next(stream: seq<byte>, expectations: seq<Expectation>, at: seq<nat>): int
    requires |at| < |expectations|
  {
    var from := EndOf(expectations, at);
    if from > |stream| then -1 else FindFrom(stream, expectations[|at|].marker, from)
  }

  /** Greedy matching from the markers found so far: the places where they begin. */
  function Advance(stream: seq<byte>, expectations: seq<Expectation>, at: seq<nat>): (all: seq<nat>)
    requires |at| <= |expectations|
    ensures at <= all && |all| <= |expectations|
    decreases |expectations| - |at|
  {
    if |at| == |expectations| || Next(stream, expectations, at) == -1 then at
    else Advance(stream, expectations, at + [Next(stream, expectations, at) as nat])
  }

  /** Greedy leftmost in-order matching on a whole stream. */
  function Greedy(stream: seq<byte>, expectations: seq<Expectation>): (at: seq<nat>)
    ensures |at| <= |expectations|
  {
    Advance(stream, expectations, [])
  }

  /** Places for the first markers: each an occurrence, in order, none overlapping. */
  ghost predicate Placed(stream: seq<byte>, expectations: seq<Expectation>, at: seq<nat>) {
    && |at| <= |expectations|
    && (forall i :: 0 <= i < |at| ==> OccursAt(stream, expectations[i].marker, at[i]))
    && (forall i :: 0 < i < |at| ==> EndOf(expectations, at[..i]) <= at[i])
  }

  lemma PlacedLonger(stream: seq<byte>, expectations: seq<Expectation>, at: seq<nat>, next: nat)
    requires Placed(stream, expectations, at) && |at| < |expectations|
    requires OccursAt(stream, expectations[|at|].marker, next) && EndOf(expectations, at) <= next
    ensures Placed(stream, expectations, at + [next])
  {
    var longer := at + [next];
    forall i | 0 < i < |longer|
      ensures EndOf(expectations, longer[..i]) <= longer[i]
    {
      assert longer[..i] == at[..i];
      assert i == |at| ==> at[..i] == at;
    }
  }

  lemma {:induction false} AdvanceIsPlaced(stream: seq<byte>, expectations: seq<Expectation>, at: seq<nat>)
    requires Placed(stream, expectations, at)
    ensures Placed(stream, expectations, Advance(stream, expectations, at))
    decreases |expectations| - |at|
  {
    if |at| < |expectations| && Next(stream, expectations, at) != -1 {
      PlacedLonger(stream, expectations, at, Next(stream, expectations, at));
      AdvanceIsPlaced(stream, expectations, at + [Next(stream, expectations, at) as nat]);
    }
  }

  /** The greedy places come no later than any other places. */
  ghost predicate Earlier(at: seq<nat>, other: seq<nat>) {
    forall i :: 0 <= i < |at| && i < |other| ==> at[i] <= other[i]
  }

  lemma {:induction false} AdvanceIsEarliest(stream: seq<byte>, expectations: seq<Expectation>, at: seq<nat>,
                                             other: seq<nat>)
    requires |at| <= |expectations| && Placed(stream, expectations, other) && Earlier(at, other)
    ensures
      var all := Advance(stream, expectations, at);
      |other| <= |all| && Earlier(all, other)
    decreases |expectations| - |at|
  {
    if |at| < |other| {
      NextIsEarliest(stream, expectations, at, other);
      AdvanceIsEarliest(stream, expectations, at + [Next(stream, expectations, at) as nat], other);
    } else if |at| < |expectations| && Next(stream, expectations, at) != -1 {
      AdvanceIsEarliest(stream, expectations, at + [Next(stream, expectations, at) as nat], other);
    }
  }

  lemma NextIsEarliest(stream: seq<byte>, expectations: seq<Expectation>, at: seq<nat>, other: seq<nat>)
    requires Placed(stream, expectations, other) && |at| < |other| && Earlier(at, other)
    ensures Next(stream, expectations, at) != -1 && Next(stream, expectations, at) <= other[|at|]
  {
    var n := |at|;
    assert OccursAt(stream, expectations[n].marker, other[n]);
    if n > 0 {
      assert EndOf(expectations, other[..n]) <= other[n];
      assert other[..n][n - 1] == other[n - 1] && at[n - 1] <= other[n - 1];
    }
    assert EndOf(expectations, at) <= other[n];
  }

  /** Greedy matching places as many markers as can be placed at all, each as early as
      it can be. */
  lemma GreedyIsBest(stream: seq<byte>, expectations: seq<Expectation>, other: seq<nat>)
    requires Placed(stream, expectations, other)
    ensures Placed(stream, expectations, Greedy(stream, expectations))
    ensures |other| <= |Greedy(stream, expectations)| && Earlier(Greedy(stream, expectations), other)
  {
    AdvanceIsPlaced(stream, expectations, []);
    AdvanceIsEarliest(stream, expectations, [], other);
  }

  // ----- Matching as the stream arrives

  lemma NextSurvives(stream: seq<byte>, chunk: seq<byte>, expectations: seq<Expectation>, at: seq<nat>)
    requires |at| < |expectations| && Next(stream, expectations, at) != -1
    ensures Next(stream + chunk, expectations, at) == Next(stream, expectations, at)
  {
    var m, next := expectations[|at|].marker, Next(stream, expectations, at);
    OccursInPrefix(stream, chunk, m, next);
    forall i | EndOf(expectations, at) <= i < next ensures !OccursAt(stream + chunk, m, i) {
      OccursInPrefix(stream, chunk, m, i);
    }
    assert OccursAt(stream + chunk, m, next);
  }

  /** A match found in a prefix of the stream stands; matching can go on from it. */
  lemma {:induction false} AdvanceGoesOn(stream: seq<byte>, chunk: seq<byte>, expectations: seq<Expectation>,
                                         at: seq<nat>)
    requires |at| <= |expectations|
    ensures Advance(stream + chunk, expectations, at)
        == Advance(stream + chunk, expectations, Advance(stream, expectations, at))
    decreases |expectations| - |at|
  {
    if |at| < |expectations| && Next(stream, expectations, at) != -1 {
      NextSurvives(stream, chunk, expectations, at);
      AdvanceGoesOn(stream, chunk, expectations, at + [Next(stream, expectations, at) as nat]);
    }
  }

  /** The buffer is a suffix of the stream, and no occurrence of the current marker,
      now or after more output, begins before it. */
  ghost predicate Covers(stream: seq<byte>, retained: seq<byte>, from: nat, marker: seq<byte>) {
    && |retained| <= |stream|
    && retained == stream[|stream| - |retained|..]
    && from <= |stream| - |retained|
    && forall i :: from <= i < |stream| - |retained| ==> RuledOut(stream, marker, i)
  }

  /** The marker does not begin here, and no further output can change that. */
  ghost predicate RuledOut(stream: seq<byte>, marker: seq<byte>, i: int) {
    i + |marker| <= |stream| && !OccursAt(stream, marker, i)
  }

  /** Searching the buffer is searching the stream. */
  lemma BufferFinds(stream: seq<byte>, retained: seq<byte>, from: nat, marker: seq<byte>)
    requires Covers(stream, retained, from, marker)
    ensures |retained| <= |stream|
    ensures
      var found := Find(retained, marker);
      FindFrom(stream, marker, from) == if found == -1 then -1 else |stream| - |retained| + found
  {
    var base := |stream| - |retained|;
    var found := Find(retained, marker);
    forall i | base <= i ensures OccursAt(stream, marker, i) <==> OccursAt(retained, marker, i - base) {
      OccursInSuffix(stream, marker, base, i - base);
    }
    if found != -1 {
      assert OccursAt(stream, marker, base + found);
      forall i | from <= i < base + found ensures !OccursAt(stream, marker, i) {
        assert i < base ==> RuledOut(stream, marker, i);
      }
    } else {
      forall i | from <= i ensures !OccursAt(stream, marker, i) {
        assert i < base ==> RuledOut(stream, marker, i);
      }
    }
  }

  /** More output leaves the cover intact. */
  lemma CoversMore(stream: seq<byte>, retained: seq<byte>, from: nat, marker: seq<byte>, chunk: seq<byte>)
    requires Covers(stream, retained, from, marker)
    ensures Covers(stream + chunk, retained + chunk, from, marker)
  {
    var base, longer, kept := |stream| - |retained|, stream + chunk, retained + chunk;
    assert |longer| - |kept| == base;
    assert kept == longer[base..];
    forall i | from <= i < base ensures RuledOut(longer, marker, i) {
      assert RuledOut(stream, marker, i);
      OccursInPrefix(stream, chunk, marker, i);
    }
  }

  /** After a failed search the buffer may be trimmed to one byte less than the marker. */
  lemma CoversTrimmed(stream: seq<byte>, retained: seq<byte>, from: nat, marker: seq<byte>, keep: nat)
    requires Covers(stream, retained, from, marker) && Find(retained, marker) == -1
    requires |marker| <= keep + 1 && keep <= |retained|
    ensures Covers(stream, retained[|retained| - keep..], from, marker)
  {
    BufferFinds(stream, retained, from, marker);
    assert retained[|retained| - keep..] == stream[|stream| - keep..];
  }

  lemma AdvanceStep(stream: seq<byte>, expectations: seq<Expectation>, at: seq<nat>)
    requires |at| < |expectations|
    ensures
      var next := Next(stream, expectations, at);
      Advance(stream, expectations, at) == if next == -1 then at else Advance(stream, expectations, at + [next as nat])
  {
  }

  function Names(expectations: seq<Expectation>): (names: seq<string>)
    ensures |names| == |expectations| && forall i :: 0 <= i < |names| ==> names[i] == expectations[i].name
  {
    seq(|expectations|, i requires 0 <= i < |expectations| => expectations[i].name)
  }

  function Responses(expectations: seq<Expectation>): seq<seq<byte>> {
    if expectations == [] then []
    else
      var last := expectations[|expectations| - 1];
      Responses(expectations[..|expectations| - 1]) + if last.response.Some? then [last.response.value] else []
  }

  /** The runner's variables. `stream` is everything read so far and `at` the places of
      the markers passed; the runner keeps neither. */
  class Matcher {
    const expectations: seq<Expectation>
    var retained: seq<byte>
    var pending: nat
    var passed: seq<string>
    var sent: seq<seq<byte>>
    ghost var stream: seq<byte>
    ghost var at: seq<nat>

    ghost predicate Counts()
      reads this
    {
      && Usable(expectations)
      && pending == |at| <= |expectations|
      && passed == Names(expectations[..pending])
      && sent == Responses(expectations[..pending])
    }

    ghost predicate Buffered()
      reads this
      requires |at| <= |expectations|
    {
      |at| < |expectations| ==> Covers(stream, retained, EndOf(expectations, at), expectations[|at|].marker)
    }

    /** The trimmed buffer has found exactly what greedy matching finds in everything
        that was read. */
    ghost predicate Valid()
      reads this
    {
      && Counts()
      && Buffered()
      && at == Greedy(stream, expectations)
    }

    constructor (expectations: seq<Expectation>)
      requires Usable(expectations)
      ensures Valid() && this.expectations == expectations && stream == []
    {
      this.expectations := expectations;
      retained, pending, passed, sent, stream, at := [], 0, [], [], [], [];
      new;
      assert expectations[..0] == [];
      NothingMatches(expectations);
    }

    /** One chunk from the terminal. */
    method Read(chunk: seq<byte>)
      requires Valid()
      modifies this
      ensures Valid() && stream == old(stream) + chunk
      ensures pending == |Greedy(old(stream) + chunk, expectations)|
      ensures passed == Names(expectations[..pending]) && sent == Responses(expectations[..pending])
      ensures old(pending) <= pending
    {
      AdvanceGoesOn(stream, chunk, expectations, []);
      hide Advance, Names, Responses, Usable, Covers, Find, OccursAt;
      stream := stream + chunk;
      if pending < |expectations| {
        CoversMore(old(stream), retained, EndOf(expectations, at), expectations[pending].marker, chunk);
        retained := retained + chunk;
        MatchAll();
      }
    }

    /** Looks for one marker after the other in what is retained. */
    method MatchAll()
      requires Counts() && Buffered() && Advance(stream, expectations, at) == Greedy(stream, expectations)
      modifies this
      ensures Valid() && stream == old(stream) && old(pending) <= pending
    {
      hide Advance, Greedy, Names, Responses, Usable, Covers, Find;
      while pending < |expectations|
        invariant Counts() && Buffered()
        invariant stream == old(stream) && old(pending) <= pending
        invariant Advance(stream, expectations, at) == Greedy(stream, expectations)
        decreases |expectations| - pending
      {
        var expectation := expectations[pending];
        var markerAt := Find(retained, expectation.marker);
        BufferFinds(stream, retained, EndOf(expectations, at), expectation.marker);
        AdvanceStep(stream, expectations, at);
        if markerAt < 0 {
          Trim(expectation);
          return;
        }
        ghost var longer := at + [Next(stream, expectations, at) as nat];
        Pass(expectation, markerAt);
        assert at == longer;
      }
    }

    /** Drops what cannot begin the marker any more. */
    method Trim(expectation: Expectation)
      requires Counts() && Buffered() && pending < |expectations| && expectation == expectations[pending]
      requires Find(retained, expectation.marker) == -1
      modifies this`retained
      ensures Buffered()
      ensures |retained| <= if |expectation.marker| - 1 > KEEP then |expectation.marker| - 1 else KEEP
    {
      var keep := if |expectation.marker| - 1 > KEEP then |expectation.marker| - 1 else KEEP;
      if |retained| > keep {
        CoversTrimmed(stream, retained, EndOf(expectations, at), expectation.marker, keep);
        retained := retained[|retained| - keep..];
      }
    }

    /** Consumes the buffer up to the end of the marker and answers it. */
    method Pass(expectation: Expectation, markerAt: nat)
      requires Counts() && Buffered() && pending < |expectations| && expectation == expectations[pending]
      requires markerAt == Find(retained, expectation.marker)
      requires Next(stream, expectations, at) == |stream| - |retained| + markerAt
      modifies this
      ensures Counts() && Buffered() && stream == old(stream) && pending == old(pending) + 1
      ensures at == old(at) + [old(|stream| - |retained|) + markerAt]
    {
      hide Usable, Covers, Find, Names, Responses;
      Consume(expectation, markerAt);
      NamesGrow(expectations, pending);
      passed := passed + [expectation.name];
      if expectation.response.Some? {
        sent := sent + [expectation.response.value];
      }
      pending := pending + 1;
    }

    method Consume(expectation: Expectation, markerAt: nat)
      requires Counts() && Buffered() && pending < |expectations| && expectation == expectations[pending]
      requires markerAt == Find(retained, expectation.marker)
      requires Next(stream, expectations, at) == |stream| - |retained| + markerAt
      modifies this`retained, this`at
      ensures at == old(at) + [old(|stream| - |retained|) + markerAt]
      ensures Buffered()
    {
      hide Usable, Covers, Names, Responses;
      var cut := markerAt + |expectation.marker|;
      PassCovers(cut, if pending + 1 < |expectations| then expectations[pending + 1].marker else []);
      at := at + [|stream| - |retained| + markerAt];
      retained := retained[cut..];
    }

    lemma PassCovers(cut: nat, marker: seq<byte>)
      requires Counts() && Buffered() && pending < |expectations| && cut <= |retained|
      ensures |retained| <= |stream|
      ensures Covers(stream, retained[cut..], |stream| - |retained| + cut, marker)
    {
    }
  }

  lemma NamesGrow(expectations: seq<Expectation>, n: nat)
    requires n < |expectations|
    ensures Names(expectations[..n + 1]) == Names(expectations[..n]) + [expectations[n].name]
    ensures Responses(expectations[..n + 1]) == Responses(expectations[..n])
              + if expectations[n].response.Some? then [expectations[n].response.value] else []
  {
    assert expectations[..n + 1][..n] == expectations[..n];
  }

  lemma NothingMatches(expectations: seq<Expectation>)
    requires Usable(expectations)
    ensures Greedy([], expectations) == []
  {
  }

  // ----- The whole run

  /** How `waitpid` describes the end of the child. */
  datatype WaitStatus = Exited(code: nat) | Signalled(signal: nat) | Neither

  function NormalizedExitStatus(status: WaitStatus): nat {
    match status
    case Exited(code) => code
    case Signalled(signal) => 128 + signal
    case Neither => 1
  }

  /** What one turn of the loop sees; no bytes at all mean the end of the output.
      `matchedAt` is the clock after the last marker of the turn. */
  datatype Input = Quiet | Bytes(bytes: seq<byte>) | ReadError

  datatype Tick = Tick(now: real, waited: Option<WaitStatus>, input: Input, matchedAt: real)

  datatype Outcome = Ended(code: nat) | TimedOut(waitingFor: string) | InternalError | StillRunning

  predicate AtEnd(ticks: seq<Tick>) {
    exists i :: 0 <= i < |ticks| && ticks[i].input == Bytes([])
  }

  function StreamOf(ticks: seq<Tick>): seq<byte> {
    if ticks == [] then []
    else
      var before, last := ticks[..|ticks| - 1], ticks[|ticks| - 1];
      if last.input.Bytes? && !AtEnd(before) then StreamOf(before) + last.input.bytes else StreamOf(before)
  }

  /** The first status that was collected. */
  function StatusOf(ticks: seq<Tick>): Option<WaitStatus> {
    if ticks == [] then None
    else
      var before := StatusOf(ticks[..|ticks| - 1]);
      if before.Some? then before else ticks[|ticks| - 1].waited
  }

  predicate AllPassed(ticks: seq<Tick>, expectations: seq<Expectation>) {
    |Greedy(StreamOf(ticks), expectations)| == |expectations|
  }

  /** The name that a timeout reports. */
  function WaitingFor(ticks: seq<Tick>, expectations: seq<Expectation>): string {
    var n := |Greedy(StreamOf(ticks), expectations)|;
    if n < |expectations| then expectations[n].name else "child-exit"
  }

  lemma NothingRead()
    ensures StreamOf([]) == [] && StatusOf([]).None? && !AtEnd([])
  {
  }

  lemma OneMoreTick(ticks: seq<Tick>, tick: Tick)
    ensures AtEnd(ticks + [tick]) <==> AtEnd(ticks) || tick.input == Bytes([])
    ensures StreamOf(ticks + [tick])
         == StreamOf(ticks) + if tick.input.Bytes? && !AtEnd(ticks) then tick.input.bytes else []
    ensures StatusOf(ticks + [tick]) == if StatusOf(ticks).Some? then StatusOf(ticks) else tick.waited
  {
    var all := ticks + [tick];
    assert all[..|ticks|] == ticks && all[|ticks|] == tick;
    if AtEnd(ticks) {
      var i :| 0 <= i < |ticks| && ticks[i].input == Bytes([]);
      assert all[i] == ticks[i];
    }
  }

  /** What one turn does with its input. The last match may bring the deadline forward. */
  method Absorb(matcher: Matcher, tick: Tick, exitTimeout: Option<real>, deadline: real)
    returns (newDeadline: real, eof: bool)
    requires matcher.Valid() && !tick.input.ReadError?
    modifies matcher
    ensures matcher.Valid()
    ensures matcher.stream == old(matcher.stream) + if tick.input.Bytes? then tick.input.bytes else []
    ensures eof <==> tick.input == Bytes([])
    ensures old(matcher.pending) <= matcher.pending
    ensures
      var matched := old(matcher.pending) < matcher.pending == |matcher.expectations|;
      newDeadline == if matched && exitTimeout.Some? && tick.matchedAt + exitTimeout.value < deadline
                     then tick.matchedAt + exitTimeout.value else deadline
  {
    newDeadline, eof := deadline, false;
    if tick.input.Bytes? {
      if tick.input.bytes == [] {
        eof := true;
      } else {
        var before := matcher.pending;
        matcher.Read(tick.input.bytes);
        if before < matcher.pending == |matcher.expectations| && exitTimeout.Some?
            && tick.matchedAt + exitTimeout.value < deadline {
          newDeadline := tick.matchedAt + exitTimeout.value;
        }
      }
    }
  }

  /** The loop of `run`. It ends by itself only when the child has been collected and
      its output is over; the status is then 0 exactly when the child exited with 0 and
      greedy matching finds every marker in the whole output. A timeout names the first
      marker that greedy matching has not found. */
  method Run(expectations: seq<Expectation>, start: real, timeout: real, exitTimeout: Option<real>, ticks: seq<Tick>)
    returns (outcome: Outcome, used: nat)
    requires Usable(expectations)
    ensures used <= |ticks|
    ensures outcome.Ended? ==>
              && AtEnd(ticks[..used]) && StatusOf(ticks[..used]).Some?
              && var status := NormalizedExitStatus(StatusOf(ticks[..used]).value);
              && (outcome.code == 0 <==> status == 0 && AllPassed(ticks[..used], expectations))
              && (status != 0 ==> outcome.code == status)
    ensures outcome.TimedOut? ==>
              && used < |ticks|
              && outcome.waitingFor == WaitingFor(ticks[..used], expectations)
              && (ticks[used].now >= start + timeout
                  || (exitTimeout.Some? && AllPassed(ticks[..used], expectations)
                      && exists k :: 0 <= k < used && ticks[used].now >= ticks[k].matchedAt + exitTimeout.value))
    ensures outcome.StillRunning? ==> used == |ticks| && (StatusOf(ticks).None? || !AtEnd(ticks))
  {
    hide StreamOf, StatusOf, AtEnd, Greedy;
    var matcher := new Matcher(expectations);
    NothingRead();
    var deadline := start + timeout;
    var status: Option<WaitStatus> := None;
    var eof := false;
    ghost var last: Option<nat> := None;
    used := 0;
    assert ticks[..0] == [];
    while status.None? || !eof
      invariant used <= |ticks|
      invariant matcher.Valid() && fresh(matcher) && matcher.expectations == expectations
      invariant matcher.stream == StreamOf(ticks[..used]) && eof == AtEnd(ticks[..used])
          && status == StatusOf(ticks[..used])
      invariant last.None? ==> deadline == start + timeout
      invariant last.Some? ==>
                  && exitTimeout.Some? && matcher.pending == |expectations|
                  && 0 <= last.value < used && deadline == ticks[last.value].matchedAt + exitTimeout.value
      invariant matcher.pending == |Greedy(matcher.stream, expectations)|
      decreases |ticks| - used
    {
      if used == |ticks| {
        assert ticks[..used] == ticks;
        return StillRunning, used;
      }
      var tick := ticks[used];
      if tick.now >= deadline {
        var waitingFor := if matcher.pending < |expectations| then expectations[matcher.pending].name else "child-exit";
        return TimedOut(waitingFor), used;
      }
      OneMoreTick(ticks[..used], tick);
      assert ticks[..used + 1] == ticks[..used] + [tick];
      if status.None? {
        status := tick.waited;
      }
      if !eof {
        if tick.input.ReadError? {
          return InternalError, used;
        }
        var was := deadline;
        deadline, eof := Absorb(matcher, tick, exitTimeout, deadline);
        if deadline != was {
          last := Some(used);
        }
      }
      used := used + 1;
    }
    var code := NormalizedExitStatus(status.value);
    if matcher.pending < |expectations| && code == 0 {
      code := 1;
    }
    return Ended(code), used;
  }
}
