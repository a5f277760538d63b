/** Suite trees of mobile/scripts/jest-lite-runner.js, and the filtering that `only` and `skip`
    ask for. Tests and hooks are identified by numbers. */
module TestTree {

  datatype Mode = Run | Skip | Only

  datatype Hooks = Hooks(beforeAll: seq<nat>, afterAll: seq<nat>, beforeEach: seq<nat>, afterEach: seq<nat>)

  datatype Tree =
    | Test(id: nat, mode: Mode)
    | Suite(mode: Mode, hooks: Hooks, children: seq<Tree>)

  // ----- findOnlyNodes and applyOnlyMode

  predicate HasOnly(t: Tree) {
    t.mode == Only || (t.Suite? && AnyOnly(t.children))
  }

  predicate AnyOnly(ts: seq<Tree>) {
    ts != [] && (HasOnly(ts[0]) || AnyOnly(ts[1..]))
  }

  /** The value `applyOnlyMode` returns. */
  predicate IsRunnable(t: Tree, forced: bool) {
    forced || t.mode == Only || (t.Suite? && AnyRunnable(t.children))
  }

  predicate AnyRunnable(ts: seq<Tree>) {
    ts != [] && (IsRunnable(ts[0], false) || AnyRunnable(ts[1..]))
  }

  /** The tree `applyOnlyMode` leaves: what is not runnable is marked to be skipped. */
  function Applied(t: Tree, forced: bool): Tree {
    var mode := if IsRunnable(t, forced) then t.mode else Skip;
    match t
    case Test(id, _) => Test(id, mode)
    case Suite(m, hooks, children) => Suite(mode, hooks, AppliedAll(children, forced || m == Only))
  }

  function AppliedAll(ts: seq<Tree>, forced: bool): (r: seq<Tree>)
    ensures |r| == |ts| && forall i :: 0 <= i < |ts| ==> r[i] == Applied(ts[i], forced)
  {
    if ts == [] then [] else [Applied(ts[0], forced)] + AppliedAll(ts[1..], forced)
  }

  function Prepared(t: Tree): Tree {
    if HasOnly(t) then Applied(t, false) else t
  }

  // ----- What runSuite comes to

  /** A test that is attempted, with the hooks around it. */
  datatype Planned = Planned(id: nat, before: seq<nat>, after: seq<nat>)

  function Plan(t: Tree, before: seq<nat>, after: seq<nat>): seq<Planned> {
    if t.mode == Skip then []
    else
      match t
      case Test(id, _) => [Planned(id, before, after)]
      case Suite(_, hooks, children) => PlanAll(children, before + hooks.beforeEach, hooks.afterEach + after)
  }

  function PlanAll(ts: seq<Tree>, before: seq<nat>, after: seq<nat>): seq<Planned> {
    if ts == [] then [] else Plan(ts[0], before, after) + PlanAll(ts[1..], before, after)
  }

  // ----- What the marks mean

  /** A test of the tree with what stands on its path from the root: whether a `skip` or an
      `only` does, and the hooks, `beforeEach` from the outside in and `afterEach` from the
      inside out. */
  datatype Case = Case(plan: Planned, skipped: bool, focused: bool)

  /** All tests, depth first. */
  function Cases(t: Tree, skipped: bool, focused: bool, before: seq<nat>, after: seq<nat>): seq<Case> {
    var skipped', focused' := skipped || t.mode == Skip, focused || t.mode == Only;
    match t
    case Test(id, _) => [Case(Planned(id, before, after), skipped', focused')]
    case Suite(_, hooks, children) =>
      CasesAll(children, skipped', focused', before + hooks.beforeEach, hooks.afterEach + after)
  }

  function CasesAll(ts: seq<Tree>, skipped: bool, focused: bool, before: seq<nat>, after: seq<nat>): seq<Case> {
    if ts == [] then []
    else Cases(ts[0], skipped, focused, before, after) + CasesAll(ts[1..], skipped, focused, before, after)
  }

  /** The tests that should be attempted: none with a `skip` on its path, and where focus is
      asked for only those with an `only` on it. */
  function Wanted(cases: seq<Case>, focusing: bool): seq<Planned> {
    if cases == [] then []
    else
      (if !cases[0].skipped && (focusing ==> cases[0].focused) then [cases[0].plan] else [])
      + Wanted(cases[1..], focusing)
  }

  lemma {:induction false} WantedAppend(a: seq<Case>, b: seq<Case>, focusing: bool)
    ensures Wanted(a + b, focusing) == Wanted(a, focusing) + Wanted(b, focusing)
    decreases |a|
  {
    if a == [] {
      assert a + b == b;
    } else {
      assert (a + b)[1..] == a[1..] + b;
      WantedAppend(a[1..], b, focusing);
    }
  }

  lemma {:induction false} SkippedIsUnwanted(t: Tree, focused: bool, before: seq<nat>, after: seq<nat>, focusing: bool)
    ensures Wanted(Cases(t, true, focused, before, after), focusing) == []
    decreases t, 1
  {
    if t.Suite? {
      AllSkippedAreUnwanted(t.children, focused || t.mode == Only, before + t.hooks.beforeEach,
                            t.hooks.afterEach + after, focusing);
    }
  }

  lemma {:induction false} AllSkippedAreUnwanted(ts: seq<Tree>, focused: bool, before: seq<nat>,
                                                 after: seq<nat>, focusing: bool)
    ensures Wanted(CasesAll(ts, true, focused, before, after), focusing) == []
    decreases ts, 0
  {
    if ts != [] {
      SkippedIsUnwanted(ts[0], focused, before, after, focusing);
      AllSkippedAreUnwanted(ts[1..], focused, before, after, focusing);
      WantedAppend(Cases(ts[0], true, focused, before, after), CasesAll(ts[1..], true, focused, before, after),
          focusing);
    }
  }

  /** Under a tree that is not runnable no test has an `only` on its path. */
  lemma {:induction false} UnrunnableIsUnwanted(t: Tree, skipped: bool, before: seq<nat>, after: seq<nat>)
    requires !IsRunnable(t, false)
    ensures Wanted(Cases(t, skipped, false, before, after), true) == []
    decreases t, 1
  {
    if t.Suite? {
      AllUnrunnableAreUnwanted(t.children, skipped || t.mode == Skip, before + t.hooks.beforeEach,
                               t.hooks.afterEach + after);
    }
  }

  lemma {:induction false} AllUnrunnableAreUnwanted(ts: seq<Tree>, skipped: bool, before: seq<nat>, after: seq<nat>)
    requires !AnyRunnable(ts)
    ensures Wanted(CasesAll(ts, skipped, false, before, after), true) == []
    decreases ts, 0
  {
    if ts != [] {
      UnrunnableIsUnwanted(ts[0], skipped, before, after);
      AllUnrunnableAreUnwanted(ts[1..], skipped, before, after);
      WantedAppend(Cases(ts[0], skipped, false, before, after), CasesAll(ts[1..], skipped, false, before, after), true);
    }
  }

  /** Running the filtered tree attempts the focused tests. */
  lemma {:induction false} AppliedPlan(t: Tree, forced: bool, before: seq<nat>, after: seq<nat>)
    ensures Plan(Applied(t, forced), before, after) == Wanted(Cases(t, false, forced, before, after), true)
    decreases t, 1
  {
    hide Wanted;
    if t.mode == Skip {
      SkippedIsUnwanted(t, forced, before, after, true);
      SkipIsSticky(t, forced, before, after);
    } else if !IsRunnable(t, forced) {
      UnrunnableIsUnwanted(t, false, before, after);
    } else if t.Test? {
      OneCase(Case(Planned(t.id, before, after), false, forced || t.mode == Only), true);
    } else {
      AppliedPlanAll(t.children, forced || t.mode == Only, before + t.hooks.beforeEach, t.hooks.afterEach + after);
    }
  }

  lemma SkipIsSticky(t: Tree, focused: bool, before: seq<nat>, after: seq<nat>)
    requires t.mode == Skip
    ensures Cases(t, false, focused, before, after) == Cases(t, true, focused, before, after)
  {
  }

  lemma OneCase(c: Case, focusing: bool)
    ensures Wanted([c], focusing) == if !c.skipped && (focusing ==> c.focused) then [c.plan] else []
  {
  }

  lemma {:induction false} AppliedPlanAll(ts: seq<Tree>, forced: bool, before: seq<nat>, after: seq<nat>)
    ensures PlanAll(AppliedAll(ts, forced), before, after) == Wanted(CasesAll(ts, false, forced, before, after), true)
    decreases ts, 0
  {
    if ts != [] {
      AppliedPlan(ts[0], forced, before, after);
      AppliedPlanAll(ts[1..], forced, before, after);
      assert AppliedAll(ts, forced)[1..] == AppliedAll(ts[1..], forced);
      WantedAppend(Cases(ts[0], false, forced, before, after), CasesAll(ts[1..], false, forced, before, after), true);
    }
  }

  lemma {:induction false} UnfilteredPlan(t: Tree, focused: bool, before: seq<nat>, after: seq<nat>)
    ensures Plan(t, before, after) == Wanted(Cases(t, false, focused, before, after), false)
    decreases t, 1
  {
    hide Wanted;
    if t.mode == Skip {
      SkippedIsUnwanted(t, focused, before, after, false);
      SkipIsSticky(t, focused, before, after);
    } else if t.Test? {
      OneCase(Case(Planned(t.id, before, after), false, focused || t.mode == Only), false);
    } else {
      UnfilteredPlanAll(t.children, focused || t.mode == Only, before + t.hooks.beforeEach, t.hooks.afterEach + after);
    }
  }

  lemma {:induction false} UnfilteredPlanAll(ts: seq<Tree>, focused: bool, before: seq<nat>, after: seq<nat>)
    ensures PlanAll(ts, before, after) == Wanted(CasesAll(ts, false, focused, before, after), false)
    decreases ts, 0
  {
    if ts != [] {
      UnfilteredPlan(ts[0], focused, before, after);
      UnfilteredPlanAll(ts[1..], focused, before, after);
      WantedAppend(Cases(ts[0], false, focused, before, after), CasesAll(ts[1..], false, focused, before, after),
          false);
    }
  }

  /** The tests attempted are exactly those with no `skip` on their path and, if the tree has
      any `only`, one on their path, in depth-first order and with the hooks of that path. */
  lemma FilteringMeansTheMarks(t: Tree)
    ensures Plan(Prepared(t), [], []) == Wanted(Cases(t, false, false, [], []), HasOnly(t))
  {
    hide Plan, Wanted, Cases, Applied;
    if HasOnly(t) {
      AppliedPlan(t, false, [], []);
    } else {
      UnfilteredPlan(t, false, [], []);
    }
  }
}
