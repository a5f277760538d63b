/** Running a suite tree (`runSuite`, `runTest` and `runHooksSequentially` of
    mobile/scripts/jest-lite-runner.js): the order of the calls and what the counters come to.
    Whether a call throws is an input, a function of how many calls came before it. */
module TestRun {
  import opened TestTree

  datatype Kind = BeforeAll | AfterAll | BeforeEach | AfterEach

  datatype Call = Hook(kind: Kind, hook: nat) | Body(test: nat)

  datatype Event = Event(call: Call, threw: bool)

  type Log = seq<Event>

  /** Which calls throw. */
  type Fate = nat -> bool

  /** The calls from `from` up to `to` are those of the hooks, in order. */
  ghost predicate AreHooks(log: Log, from: nat, to: nat, kind: Kind, hooks: seq<nat>) {
    && from <= to <= |log| && to - from <= |hooks|
    && forall j :: from <= j < to ==> log[j].call == Hook(kind, hooks[j - from])
  }

  ghost predicate NoneThrew(log: Log, from: nat, to: int) {
    forall j :: from <= j < to && j < |log| ==> !log[j].threw
  }

  lemma PartStays(log: Log, longer: Log, from: nat, to: nat, kind: Kind, hooks: seq<nat>)
    requires log <= longer
    ensures AreHooks(log, from, to, kind, hooks) ==> AreHooks(longer, from, to, kind, hooks)
    ensures to <= |log| ==> (NoneThrew(log, from, to) <==> NoneThrew(longer, from, to))
  {
  }

  // ----- The log of a run, appended to what is already there

  /** `runHooksSequentially`: every hook is called, whatever the others do. */
  function CallEach(fate: Fate, log: Log, kind: Kind, hooks: seq<nat>): (r: Log)
    ensures |r| == |log| + |hooks| && log <= r
    ensures AreHooks(r, |log|, |r|, kind, hooks)
    decreases |hooks|
  {
    if hooks == [] then log
    else CallEach(fate, log + [Event(Hook(kind, hooks[0]), fate(|log|))], kind, hooks[1..])
  }

  /** The hooks around a test: the first one that throws is the last one called. */
  function CallUntilThrow(fate: Fate, log: Log, kind: Kind, hooks: seq<nat>): (r: Log)
    ensures log <= r && |r| <= |log| + |hooks|
    ensures AreHooks(r, |log|, |r|, kind, hooks)
    ensures NoneThrew(r, |log|, |r| - 1)
    ensures |r| < |log| + |hooks| ==> |log| < |r| && r[|r| - 1].threw
    decreases |hooks|
  {
    if hooks == [] then log
    else
      var next := log + [Event(Hook(kind, hooks[0]), fate(|log|))];
      if fate(|log|) then next else CallUntilThrow(fate, next, kind, hooks[1..])
  }

  /** Whether the hooks called since `from` all returned. */
  predicate Returned(log: Log, from: nat) {
    |log| == from || (|log| > from && !log[|log| - 1].threw)
  }

  function RunTest(fate: Fate, log: Log, plan: Planned): (r: Log)
    ensures log <= r
  {
    var prepared := CallUntilThrow(fate, log, BeforeEach, plan.before);
    if !Returned(prepared, |log|) then prepared
    else
      CallUntilThrow(fate, prepared + [Event(Body(plan.id), fate(|prepared|))], AfterEach, plan.after)
  }

  function RunTree(fate: Fate, log: Log, t: Tree, before: seq<nat>, after: seq<nat>): (r: Log)
    ensures log <= r
    decreases t, 1
  {
    if t.mode == Skip then log
    else
      match t
      case Test(id, _) => RunTest(fate, log, Planned(id, before, after))
      case Suite(_, hooks, children) =>
        var begun := CallEach(fate, log, BeforeAll, hooks.beforeAll);
        var done := RunChildren(fate, begun, children, |children|, before + hooks.beforeEach, hooks.afterEach + after);
        CallEach(fate, done, AfterAll, hooks.afterAll)
  }

  /** The loop over the first `n` children. */
  function RunChildren(fate: Fate, log: Log, ts: seq<Tree>, n: nat, before: seq<nat>, after: seq<nat>): (r: Log)
    requires n <= |ts|
    ensures log <= r
    decreases ts, 0, n
  {
    if n == 0 then log else RunTree(fate, RunChildren(fate, log, ts, n - 1, before, after), ts[n - 1], before, after)
  }

  // ----- Hooks around each body

  /** Around position `k`: the test's `beforeEach` hooks just before it, in order and without a
      throw, then its `afterEach` hooks in order, up to the first that throws. */
  ghost predicate IsSurrounded(log: Log, k: nat, plan: Planned, m: nat)
    requires k < |log|
  {
    && log[k].call == Body(plan.id)
    && |plan.before| <= k
    && AreHooks(log, k - |plan.before|, k, BeforeEach, plan.before) && NoneThrew(log, k - |plan.before|, k)
    && k + m < |log|
    && AreHooks(log, k + 1, k + 1 + m, AfterEach, plan.after) && NoneThrew(log, k + 1, k + m)
    && (m < |plan.after| ==> m > 0 && log[k + m].threw)
  }

  /** Every body called from position `from` on belongs to a planned test and has its hooks. */
  ghost predicate HooksHold(log: Log, from: nat, plans: seq<Planned>) {
    forall k :: from <= k < |log| && log[k].call.Body? ==> HasHooks(log, k, plans)
  }

  ghost predicate HasHooks(log: Log, k: nat, plans: seq<Planned>)
    requires k < |log|
  {
    exists p, m :: p in plans && IsSurrounded(log, k, p, m)
  }

  lemma SurroundedStays(log: Log, longer: Log, k: nat, plan: Planned, m: nat)
    requires k < |log| && log <= longer && IsSurrounded(log, k, plan, m)
    ensures IsSurrounded(longer, k, plan, m)
  {
  }

  /** What holds of one part of the log and of the part after it holds of both. */
  lemma HooksCompose(log: Log, longer: Log, from: nat, a: seq<Planned>, b: seq<Planned>)
    requires from <= |log| && log <= longer
    requires HooksHold(log, from, a) && HooksHold(longer, |log|, b)
    ensures HooksHold(longer, from, a + b)
  {
    forall k | from <= k < |longer| && longer[k].call.Body?
      ensures HasHooks(longer, k, a + b)
    {
      if k < |log| {
        assert log[k] == longer[k];
        var p, m :| p in a && IsSurrounded(log, k, p, m);
        SurroundedStays(log, longer, k, p, m);
        assert p in a + b;
      } else {
        var p, m :| p in b && IsSurrounded(longer, k, p, m);
        assert p in a + b;
      }
    }
  }

  lemma NoBodies(fate: Fate, log: Log, kind: Kind, hooks: seq<nat>)
    ensures HooksHold(CallEach(fate, log, kind, hooks), |log|, [])
  {
  }

  lemma AllReturned(fate: Fate, log: Log, prepared: Log, kind: Kind, hooks: seq<nat>)
    requires prepared == CallUntilThrow(fate, log, kind, hooks) && Returned(prepared, |log|)
    ensures |prepared| == |log| + |hooks| && NoneThrew(prepared, |log|, |prepared|)
  {
  }

  lemma BodyIsSurrounded(fate: Fate, prepared: Log, called: Log, plan: Planned, threw: bool)
    requires |plan.before| <= |prepared|
    requires AreHooks(prepared, |prepared| - |plan.before|, |prepared|, BeforeEach, plan.before)
    requires NoneThrew(prepared, |prepared| - |plan.before|, |prepared|)
    requires called == prepared + [Event(Body(plan.id), threw)]
    ensures var r := CallUntilThrow(fate, called, AfterEach, plan.after);
            |prepared| < |r| && IsSurrounded(r, |prepared|, plan, |r| - |called|)
  {
    hide CallUntilThrow, AreHooks, NoneThrew;
    var k, r := |prepared|, CallUntilThrow(fate, called, AfterEach, plan.after);
    PartStays(prepared, called, k - |plan.before|, k, BeforeEach, plan.before);
    PartStays(called, r, k - |plan.before|, k, BeforeEach, plan.before);
    assert r[k] == called[k];
  }

  lemma OnlyOneBody(fate: Fate, log: Log, prepared: Log, called: Log, plan: Planned, j: nat)
    requires prepared == CallUntilThrow(fate, log, BeforeEach, plan.before)
    requires called == prepared + [Event(Body(plan.id), fate(|prepared|))]
    requires |log| <= j < |CallUntilThrow(fate, called, AfterEach, plan.after)|
    ensures CallUntilThrow(fate, called, AfterEach, plan.after)[j].call.Body? <==> j == |prepared|
  {
  }

  lemma TestHooksHold(fate: Fate, log: Log, plan: Planned)
    ensures HooksHold(RunTest(fate, log, plan), |log|, [plan])
  {
    hide CallUntilThrow, IsSurrounded, NoneThrew;
    var prepared := CallUntilThrow(fate, log, BeforeEach, plan.before);
    var r := RunTest(fate, log, plan);
    if Returned(prepared, |log|) {
      var called := prepared + [Event(Body(plan.id), fate(|prepared|))];
      AllReturned(fate, log, prepared, BeforeEach, plan.before);
      BodyIsSurrounded(fate, prepared, called, plan, fate(|prepared|));
      forall j | |log| <= j < |r|
        ensures r[j].call.Body? <==> j == |prepared|
      {
        OnlyOneBody(fate, log, prepared, called, plan, j);
      }
      assert HasHooks(r, |prepared|, [plan]) by {
        assert plan in [plan];
      }
    }
  }

  /** In every run each body called belongs to a test that is to be attempted, has that test's
      `beforeEach` hooks right before it and its `afterEach` hooks right after it. */
  lemma {:induction false} TreeHooksHold(fate: Fate, log: Log, t: Tree, before: seq<nat>, after: seq<nat>)
    ensures HooksHold(RunTree(fate, log, t, before, after), |log|, Plan(t, before, after))
    decreases t, 1
  {
    hide HooksHold, CallEach, RunTest;
    if t.mode == Skip {
      NothingCalled(log);
    } else if t.Test? {
      TestHooksHold(fate, log, Planned(t.id, before, after));
    } else {
      var before', after' := before + t.hooks.beforeEach, t.hooks.afterEach + after;
      var begun := CallEach(fate, log, BeforeAll, t.hooks.beforeAll);
      var done := RunChildren(fate, begun, t.children, |t.children|, before', after');
      var closed := CallEach(fate, done, AfterAll, t.hooks.afterAll);
      NoBodies(fate, log, BeforeAll, t.hooks.beforeAll);
      ChildrenHooksHold(fate, begun, t.children, |t.children|, before', after');
      NoBodies(fate, done, AfterAll, t.hooks.afterAll);
      HooksCompose(begun, done, |log|, [], PlanFirst(t.children, |t.children|, before', after'));
      HooksCompose(done, closed, |log|, [] + PlanFirst(t.children, |t.children|, before', after'), []);
      PlanFirstIsAll(t.children, before', after');
      var plans := PlanAll(t.children, before', after');
      assert [] + plans + [] == plans;
    }
  }

  lemma NothingCalled(log: Log)
    ensures HooksHold(log, |log|, [])
  {
  }

  /** The plan of the first `n` children. */
  function PlanFirst(ts: seq<Tree>, n: nat, before: seq<nat>, after: seq<nat>): seq<Planned>
    requires n <= |ts|
  {
    if n == 0 then [] else PlanFirst(ts, n - 1, before, after) + Plan(ts[n - 1], before, after)
  }

  lemma {:induction false} PlanFirstOfRest(ts: seq<Tree>, n: nat, before: seq<nat>, after: seq<nat>)
    requires 0 < n <= |ts|
    ensures PlanFirst(ts, n, before, after) == Plan(ts[0], before, after) + PlanFirst(ts[1..], n - 1, before, after)
  {
    hide Plan;
    if n > 1 {
      PlanFirstOfRest(ts, n - 1, before, after);
      assert ts[1..][n - 2] == ts[n - 1];
    } else {
      assert PlanFirst(ts, 0, before, after) == [];
    }
  }

  lemma {:induction false} PlanFirstIsAll(ts: seq<Tree>, before: seq<nat>, after: seq<nat>)
    ensures PlanFirst(ts, |ts|, before, after) == PlanAll(ts, before, after)
  {
    hide Plan;
    if ts != [] {
      PlanFirstIsAll(ts[1..], before, after);
      PlanFirstOfRest(ts, |ts|, before, after);
    }
  }

  lemma {:induction false} ChildrenHooksHold(fate: Fate, log: Log, ts: seq<Tree>, n: nat, before: seq<nat>,
                                             after: seq<nat>)
    requires n <= |ts|
    ensures HooksHold(RunChildren(fate, log, ts, n, before, after), |log|, PlanFirst(ts, n, before, after))
    decreases ts, 0, n
  {
    hide HooksHold, RunTree, Plan;
    if n == 0 {
      NothingCalled(log);
    } else {
      var done := RunChildren(fate, log, ts, n - 1, before, after);
      ChildrenHooksHold(fate, log, ts, n - 1, before, after);
      TreeHooksHold(fate, done, ts[n - 1], before, after);
      HooksCompose(done, RunTree(fate, done, ts[n - 1], before, after), |log|,
                   PlanFirst(ts, n - 1, before, after), Plan(ts[n - 1], before, after));
    }
  }

  // ----- Counting outcomes

  predicate IsPass(e: Event) {
    e.call.Body? && !e.threw
  }

  /** A throw that is not a test's own outcome. */
  predicate IsExtra(e: Event) {
    e.threw && e.call.Hook? && e.call.kind != BeforeEach
  }

  /** What decides a test: its body's outcome, or the `beforeEach` hook that throws instead. */
  predicate IsVerdict(e: Event) {
    e.call.Body? || (e.threw && e.call.kind == BeforeEach)
  }

  function Passes(log: Log): nat {
    if log == [] then 0 else Passes(log[..|log| - 1]) + if IsPass(log[|log| - 1]) then 1 else 0
  }

  function Throws(log: Log): nat {
    if log == [] then 0 else Throws(log[..|log| - 1]) + if log[|log| - 1].threw then 1 else 0
  }

  function Extras(log: Log): nat {
    if log == [] then 0 else Extras(log[..|log| - 1]) + if IsExtra(log[|log| - 1]) then 1 else 0
  }

  function Verdicts(log: Log): nat {
    if log == [] then 0 else Verdicts(log[..|log| - 1]) + if IsVerdict(log[|log| - 1]) then 1 else 0
  }

  /** The tests whose bodies were called, in order. */
  function Bodies(log: Log): seq<nat> {
    if log == [] then []
    else Bodies(log[..|log| - 1]) + if log[|log| - 1].call.Body? then [log[|log| - 1].call.test] else []
  }

  lemma {:induction false} PassesAndThrows(log: Log)
    ensures Passes(log) + Throws(log) == Verdicts(log) + Extras(log)
  {
    if log != [] {
      PassesAndThrows(log[..|log| - 1]);
    }
  }

  lemma OneMore(log: Log, e: Event)
    ensures Passes(log + [e]) == Passes(log) + if IsPass(e) then 1 else 0
    ensures Throws(log + [e]) == Throws(log) + if e.threw then 1 else 0
    ensures Verdicts(log + [e]) == Verdicts(log) + if IsVerdict(e) then 1 else 0
    ensures Bodies(log + [e]) == Bodies(log) + if e.call.Body? then [e.call.test] else []
  {
  }

  lemma {:induction false} HooksDecideNothing(fate: Fate, log: Log, kind: Kind, hooks: seq<nat>)
    requires kind != BeforeEach
    ensures Verdicts(CallEach(fate, log, kind, hooks)) == Verdicts(log)
    ensures Bodies(CallEach(fate, log, kind, hooks)) == Bodies(log)
    decreases |hooks|
  {
    hide Verdicts, Bodies;
    if hooks != [] {
      var e := Event(Hook(kind, hooks[0]), fate(|log|));
      OneMore(log, e);
      HooksDecideNothing(fate, log + [e], kind, hooks[1..]);
    }
  }

  lemma {:induction false} PreparingDecides(fate: Fate, log: Log, kind: Kind, hooks: seq<nat>)
    ensures var r := CallUntilThrow(fate, log, kind, hooks);
            && Verdicts(r) == Verdicts(log) + (if kind == BeforeEach && !Returned(r, |log|) then 1 else 0)
            && Bodies(r) == Bodies(log)
    decreases |hooks|
  {
    hide Verdicts, Bodies, AreHooks, NoneThrew;
    if hooks != [] {
      var e := Event(Hook(kind, hooks[0]), fate(|log|));
      OneMore(log, e);
      if !fate(|log|) {
        PreparingDecides(fate, log + [e], kind, hooks[1..]);
      }
    }
  }

  /** Attempting a test decides it exactly once, and calls its body unless the hooks before it threw. */
  lemma TestIsDecidedOnce(fate: Fate, log: Log, plan: Planned)
    ensures Verdicts(RunTest(fate, log, plan)) == Verdicts(log) + 1
    ensures var prepared := CallUntilThrow(fate, log, BeforeEach, plan.before);
            Bodies(RunTest(fate, log, plan)) == Bodies(log) + if Returned(prepared, |log|) then [plan.id] else []
  {
    hide Verdicts, Bodies, CallUntilThrow, AreHooks, NoneThrew;
    var prepared := CallUntilThrow(fate, log, BeforeEach, plan.before);
    PreparingDecides(fate, log, BeforeEach, plan.before);
    if Returned(prepared, |log|) {
      var e := Event(Body(plan.id), fate(|prepared|));
      OneMore(prepared, e);
      PreparingDecides(fate, prepared + [e], AfterEach, plan.after);
    }
  }

  lemma {:induction false} TreeIsDecided(fate: Fate, log: Log, t: Tree, before: seq<nat>, after: seq<nat>)
    ensures Verdicts(RunTree(fate, log, t, before, after)) == Verdicts(log) + |Plan(t, before, after)|
    decreases t, 1
  {
    hide Verdicts, CallEach, RunTest, AreHooks;
    if t.mode != Skip {
      if t.Test? {
        TestIsDecidedOnce(fate, log, Planned(t.id, before, after));
      } else {
        var before', after' := before + t.hooks.beforeEach, t.hooks.afterEach + after;
        var begun := CallEach(fate, log, BeforeAll, t.hooks.beforeAll);
        HooksDecideNothing(fate, log, BeforeAll, t.hooks.beforeAll);
        ChildrenAreDecided(fate, begun, t.children, |t.children|, before', after');
        PlanFirstIsAll(t.children, before', after');
        HooksDecideNothing(fate, RunChildren(fate, begun, t.children, |t.children|, before', after'), AfterAll,
            t.hooks.afterAll);
      }
    }
  }

  lemma {:induction false} ChildrenAreDecided(fate: Fate, log: Log, ts: seq<Tree>, n: nat, before: seq<nat>,
                                              after: seq<nat>)
    requires n <= |ts|
    ensures Verdicts(RunChildren(fate, log, ts, n, before, after)) == Verdicts(log) + |PlanFirst(ts, n, before, after)|
    decreases ts, 0, n
  {
    hide Verdicts, RunTree, Plan;
    if n > 0 {
      ChildrenAreDecided(fate, log, ts, n - 1, before, after);
      TreeIsDecided(fate, RunChildren(fate, log, ts, n - 1, before, after), ts[n - 1], before, after);
    }
  }

  // ----- Bodies in order

  /** No `beforeEach` hook throws. */
  ghost predicate PreparationsReturn(log: Log) {
    forall i :: 0 <= i < |log| && log[i].call.Hook? && log[i].call.kind == BeforeEach ==> !log[i].threw
  }

  function Ids(plans: seq<Planned>): (r: seq<nat>)
    ensures |r| == |plans| && forall i :: 0 <= i < |plans| ==> r[i] == plans[i].id
  {
    seq(|plans|, i requires 0 <= i < |plans| => plans[i].id)
  }

  lemma EarlierReturn(log: Log, longer: Log)
    requires log <= longer && PreparationsReturn(longer)
    ensures PreparationsReturn(log)
  {
  }

  lemma PreparedTestIsCalled(fate: Fate, log: Log, plan: Planned)
    requires PreparationsReturn(RunTest(fate, log, plan))
    ensures Bodies(RunTest(fate, log, plan)) == Bodies(log) + [plan.id]
  {
    hide CallUntilThrow, Bodies, NoneThrew;
    var prepared := CallUntilThrow(fate, log, BeforeEach, plan.before);
    TestIsDecidedOnce(fate, log, plan);
    assert |prepared| > |log| ==>
        prepared[|prepared| - 1].call == Hook(BeforeEach, plan.before[|prepared| - 1 - |log|]);
  }

  lemma {:induction false} TreeCallsItsPlan(fate: Fate, log: Log, t: Tree, before: seq<nat>, after: seq<nat>)
    requires PreparationsReturn(RunTree(fate, log, t, before, after))
    ensures Bodies(RunTree(fate, log, t, before, after)) == Bodies(log) + Ids(Plan(t, before, after))
    decreases t, 1
  {
    hide Bodies, CallEach, RunTest, AreHooks, PreparationsReturn;
    if t.mode != Skip {
      if t.Test? {
        PreparedTestIsCalled(fate, log, Planned(t.id, before, after));
      } else {
        var before', after' := before + t.hooks.beforeEach, t.hooks.afterEach + after;
        var begun := CallEach(fate, log, BeforeAll, t.hooks.beforeAll);
        var done := RunChildren(fate, begun, t.children, |t.children|, before', after');
        HooksDecideNothing(fate, log, BeforeAll, t.hooks.beforeAll);
        HooksDecideNothing(fate, done, AfterAll, t.hooks.afterAll);
        EarlierReturn(done, RunTree(fate, log, t, before, after));
        ChildrenCallTheirPlan(fate, begun, t.children, |t.children|, before', after');
        PlanFirstIsAll(t.children, before', after');
      }
    }
  }

  lemma {:induction false} ChildrenCallTheirPlan(fate: Fate, log: Log, ts: seq<Tree>, n: nat, before: seq<nat>,
                                                 after: seq<nat>)
    requires n <= |ts| && PreparationsReturn(RunChildren(fate, log, ts, n, before, after))
    ensures Bodies(RunChildren(fate, log, ts, n, before, after)) == Bodies(log) + Ids(PlanFirst(ts, n, before, after))
    decreases ts, 0, n
  {
    hide Bodies, RunTree, Plan, PreparationsReturn;
    if n > 0 {
      var done := RunChildren(fate, log, ts, n - 1, before, after);
      EarlierReturn(done, RunTree(fate, done, ts[n - 1], before, after));
      ChildrenCallTheirPlan(fate, log, ts, n - 1, before, after);
      TreeCallsItsPlan(fate, done, ts[n - 1], before, after);
      assert Ids(PlanFirst(ts, n, before, after))
          == Ids(PlanFirst(ts, n - 1, before, after)) + Ids(Plan(ts[n - 1], before, after));
    }
  }

  // ----- The whole run and its summary

  function TestCount(t: Tree): nat {
    match t
    case Test(_, _) => 1
    case Suite(_, _, children) => TestCountAll(children)
  }

  function TestCountAll(ts: seq<Tree>): nat {
    if ts == [] then 0 else TestCount(ts[0]) + TestCountAll(ts[1..])
  }

  lemma {:induction false} CasesAreTests(t: Tree, skipped: bool, focused: bool, before: seq<nat>, after: seq<nat>)
    ensures |Cases(t, skipped, focused, before, after)| == TestCount(t)
    decreases t, 1
  {
    if t.Suite? {
      AllCasesAreTests(t.children, skipped || t.mode == Skip, focused || t.mode == Only,
                       before + t.hooks.beforeEach, t.hooks.afterEach + after);
    }
  }

  lemma {:induction false} AllCasesAreTests(ts: seq<Tree>, skipped: bool, focused: bool, before: seq<nat>,
                                            after: seq<nat>)
    ensures |CasesAll(ts, skipped, focused, before, after)| == TestCountAll(ts)
    decreases ts, 0
  {
    if ts != [] {
      CasesAreTests(ts[0], skipped, focused, before, after);
      AllCasesAreTests(ts[1..], skipped, focused, before, after);
    }
  }

  lemma {:induction false} WantedIsFewer(cases: seq<Case>, focusing: bool)
    ensures |Wanted(cases, focusing)| <= |cases|
  {
    if cases != [] {
      WantedIsFewer(cases[1..], focusing);
    }
  }

  function RunAll(fate: Fate, t: Tree): Log {
    RunTree(fate, [], Prepared(t), [], [])
  }

  /** `buildSummary` */
  function ReportedSkipped(total: nat, passed: nat, failed: nat): nat {
    if total - passed - failed > 0 then total - passed - failed else 0
  }

  /** Passed and failed together count every attempted test once, plus one for each throw of a
      `beforeAll`, `afterAll` or `afterEach` hook. So the reported number of skipped tests is the
      number not attempted, and the parts add up to the total, unless such a throw hides one. */
  lemma SummaryIsExact(fate: Fate, t: Tree)
    ensures var log := RunAll(fate, t);
            var attempted := |Wanted(Cases(t, false, false, [], []), HasOnly(t))|;
            var total := TestCount(t);
            var skipped := ReportedSkipped(total, Passes(log), Throws(log));
            && attempted <= total
            && Passes(log) + Throws(log) == attempted + Extras(log)
            && (skipped == total - attempted <==> Extras(log) == 0 || attempted == total)
            && (Passes(log) + Throws(log) + skipped == total <==> Extras(log) <= total - attempted)
  {
    hide RunTree, Verdicts, Passes, Throws, Extras, Wanted, Cases, Plan, Prepared, HasOnly;
    var log := RunAll(fate, t);
    TreeIsDecided(fate, [], Prepared(t), [], []);
    NothingDecided();
    PassesAndThrows(log);
    FilteringMeansTheMarks(t);
    CasesAreTests(t, false, false, [], []);
    WantedIsFewer(Cases(t, false, false, [], []), HasOnly(t));
  }

  lemma NothingDecided()
    ensures Verdicts([]) == 0 && Bodies([]) == []
  {
  }

  /** Every body called belongs to a test that `only` and `skip` select, with that test's hooks
      around it; and unless a `beforeEach` hook throws, the bodies called are those of exactly
      the selected tests, in depth-first order. */
  lemma RunsTheSelectedTests(fate: Fate, t: Tree)
    ensures var log := RunAll(fate, t);
            var wanted := Wanted(Cases(t, false, false, [], []), HasOnly(t));
            && HooksHold(log, 0, wanted)
            && (PreparationsReturn(log) ==> Bodies(log) == Ids(wanted))
  {
    hide RunTree, Wanted, Cases, Plan, Prepared, HasOnly, HooksHold, PreparationsReturn, Bodies;
    FilteringMeansTheMarks(t);
    TreeHooksHold(fate, [], Prepared(t), [], []);
    if PreparationsReturn(RunAll(fate, t)) {
      NothingDecided();
      TreeCallsItsPlan(fate, [], Prepared(t), [], []);
    }
  }
}
