/** The runner of mobile/scripts/jest-lite-runner.js on its own objects: nodes whose `mode` is
    changed in place, and a context whose counters are. Each method is held to the values of
    `TestTree` and `TestRun`. */
module TestNodes {
  import opened TestTree
  import opened TestRun

  class Node {
    const isTest: bool
    const id: nat
    const hooks: Hooks
    const children: seq<Node>
    var mode: Mode

    /** The node and everything below it. */
    ghost const footprint: set<Node>

    constructor Test(id: nat, mode: Mode)
      ensures Valid() && fresh(footprint) && View() == Tree.Test(id, mode)
    {
      isTest, this.id, hooks, children, this.mode := true, id, Hooks([], [], [], []), [], mode;
      footprint := {this};
    }

    constructor Suite(mode: Mode, hooks: Hooks, children: seq<Node>)
      requires forall i :: 0 <= i < |children| ==> children[i].Valid()
      requires forall i, j :: 0 <= i < j < |children| ==> children[i].footprint !! children[j].footprint
      ensures Valid() && this.mode == mode && this.hooks == hooks && this.children == children && !isTest
    {
      isTest, id, this.hooks, this.children, this.mode := false, 0, hooks, children, mode;
      footprint := {this} + set i, n | 0 <= i < |children| && n in children[i].footprint :: n;
    }

    /** A tree of nodes: no node occurs in it twice. */
    ghost predicate Valid()
      decreases footprint
    {
      && this in footprint
      && (isTest ==> children == [])
      && (forall i :: 0 <= i < |children| ==> children[i].footprint <= footprint - {this} && children[i].Valid())
      && (forall i, j :: 0 <= i < j < |children| ==> children[i].footprint !! children[j].footprint)
      && (forall n :: n in footprint ==> n == this || exists i :: 0 <= i < |children| && n in children[i].footprint)
    }

    ghost function View(): Tree
      requires Valid()
      reads footprint
      decreases footprint, 1, 0
    {
      if isTest then Tree.Test(id, mode) else Tree.Suite(mode, hooks, ViewFirst(|children|))
    }

    /** The values of the first `n` children. */
    ghost function ViewFirst(n: nat): (r: seq<Tree>)
      requires Valid() && n <= |children|
      reads footprint
      ensures |r| == n && forall i :: 0 <= i < n ==> r[i] == children[i].View()
      decreases footprint, 0, n
    {
      if n == 0 then [] else ViewFirst(n - 1) + [children[n - 1].View()]
    }
  }

  lemma {:induction false} AnyOnlyLast(ts: seq<Tree>, t: Tree)
    ensures AnyOnly(ts + [t]) <==> AnyOnly(ts) || HasOnly(t)
  {
    hide HasOnly;
    if ts == [] {
      assert (ts + [t])[1..] == [];
    } else {
      assert (ts + [t])[1..] == ts[1..] + [t];
      AnyOnlyLast(ts[1..], t);
    }
  }

  lemma {:induction false} AnyRunnableLast(ts: seq<Tree>, t: Tree)
    ensures AnyRunnable(ts + [t]) <==> AnyRunnable(ts) || IsRunnable(t, false)
  {
    hide IsRunnable;
    if ts == [] {
      assert (ts + [t])[1..] == [];
    } else {
      assert (ts + [t])[1..] == ts[1..] + [t];
      AnyRunnableLast(ts[1..], t);
    }
  }

  /** A child is a tree of its own: neither its parent nor a sibling shares a node with it. */
  lemma ChildIsApart(node: Node, i: nat)
    requires node.Valid() && i < |node.children|
    ensures node.children[i].Valid() && node.children[i].footprint < node.footprint
    ensures node in node.footprint && node !in node.children[i].footprint
    ensures forall j :: 0 <= j < |node.children| && j != i ==> node.children[i].footprint !! node.children[j].footprint
  {
  }

  /** A node below one of the first `i` children. */
  ghost predicate IsBelow(node: Node, i: nat, n: Node)
    requires i <= |node.children|
  {
    exists j :: 0 <= j < i && n in node.children[j].footprint
  }

  lemma FootprintParts(node: Node, n: Node)
    requires node.Valid()
    ensures n in node.footprint <==> n == node || IsBelow(node, |node.children|, n)
  {
  }

  /** The nodes marked `only`. */
  method FindOnlyNodes(node: Node) returns (results: seq<Node>)
    requires node.Valid()
    ensures forall n :: n in results <==> n in node.footprint && n.mode == Only
    ensures results != [] <==> HasOnly(node.View())
    decreases node.footprint, 1
  {
    hide IsBelow, AnyOnly;
    results := [];
    if node.mode == Only {
      results := [node];
    }
    ghost var children := node.ViewFirst(|node.children|);
    var found := FindBelow(node);
    results := results + found;
    forall n
      ensures n in results <==> n in node.footprint && n.mode == Only
    {
      FootprintParts(node, n);
    }
    assert node.isTest ==> children == [];
    NoneOnly();
  }

  lemma NoneOnly()
    ensures !AnyOnly([])
  {
  }

  method FindBelow(node: Node) returns (results: seq<Node>)
    requires node.Valid()
    ensures forall n :: n in results <==> n.mode == Only && IsBelow(node, |node.children|, n)
    ensures results != [] <==> AnyOnly(node.ViewFirst(|node.children|))
    decreases node.footprint, 0
  {
    hide AnyOnly, HasOnly, Node.Valid, Node.View;
    results := [];
    NoneOnly();
    for i := 0 to |node.children|
      invariant forall n :: n in results <==> n.mode == Only && IsBelow(node, i, n)
      invariant results != [] <==> AnyOnly(node.ViewFirst(i))
    {
      ChildIsApart(node, i);
      var found := FindOnlyNodes(node.children[i]);
      AnyOnlyLast(node.ViewFirst(i), node.children[i].View());
      results := results + found;
    }
  }

  lemma AnyRunnableStep(ts: seq<Tree>, i: nat)
    requires i < |ts|
    ensures AnyRunnable(ts[..i + 1]) <==> AnyRunnable(ts[..i]) || IsRunnable(ts[i], false)
  {
    hide AnyRunnable, IsRunnable;
    AnyRunnableLast(ts[..i], ts[i]);
    assert ts[..i + 1] == ts[..i] + [ts[i]];
  }

  ghost predicate Agrees(onlySet: set<Node>, node: Node)
    reads node.footprint
  {
    forall n :: n in node.footprint ==> (n in onlySet <==> n.mode == Only)
  }

  method ApplyOnlyMode(node: Node, onlySet: set<Node>, forceRun: bool) returns (runnable: bool)
    requires node.Valid() && Agrees(onlySet, node)
    modifies node.footprint
    ensures runnable == IsRunnable(old(node.View()), forceRun)
    ensures node.View() == Applied(old(node.View()), forceRun)
    decreases node.footprint, 1
  {
    if node.isTest {
      runnable := forceRun || node in onlySet;
      if !runnable {
        node.mode := Skip;
      }
      return;
    }
    var isOnlySuite := forceRun || node in onlySet;
    ghost var before := node.ViewFirst(|node.children|);
    var hasRunnableChild := ApplyToChildren(node, onlySet, isOnlySuite);
    if !isOnlySuite && !hasRunnableChild {
      node.mode := Skip;
    }
    runnable := isOnlySuite || hasRunnableChild;
    assert node.ViewFirst(|node.children|) == AppliedAll(before, isOnlySuite);
  }

  /** The loop over the children. */
  method ApplyToChildren(node: Node, onlySet: set<Node>, isOnlySuite: bool) returns (hasRunnableChild: bool)
    requires node.Valid() && Agrees(onlySet, node)
    modifies node.footprint - {node}
    ensures forall j :: 0 <= j < |node.children| ==>
      node.children[j].Valid()
          && node.children[j].View() == Applied(old(node.ViewFirst(|node.children|))[j], isOnlySuite)
    ensures !isOnlySuite ==> (hasRunnableChild <==> AnyRunnable(old(node.ViewFirst(|node.children|))))
    decreases node.footprint, 0
  {
    hide IsRunnable, Applied, AnyRunnable, Node.Valid, Node.ViewFirst;
    hasRunnableChild := false;
    ghost var before := node.ViewFirst(|node.children|);
    forall j | 0 <= j < |node.children|
      ensures node.children[j].Valid() && Agrees(onlySet, node.children[j])
    {
      ChildIsApart(node, j);
    }
    NoneYet();
    for i := 0 to |node.children|
      invariant forall j :: 0 <= j < i ==> node.children[j].View() == Applied(before[j], isOnlySuite)
      invariant forall j :: i <= j < |node.children| ==>
        node.children[j].View() == before[j] && Agrees(onlySet, node.children[j])
      invariant !isOnlySuite ==> (hasRunnableChild <==> AnyRunnable(before[..i]))
    {
      ChildIsApart(node, i);
      AnyRunnableStep(before, i);
      var childRunnable := ApplyOnlyMode(node.children[i], onlySet, isOnlySuite);
      hasRunnableChild := hasRunnableChild || childRunnable;
    }
    assert before[..|node.children|] == before;
  }

  lemma NoneYet()
    ensures !AnyRunnable([])
  {
  }

  // ----- Running

  /** The runner's context: its two counters. `log` holds the calls made so far, and `fate`
      which of them throw: both stand for the code under test. */
  class Runner {
    const fate: Fate
    var passedTests: nat
    var failedTests: nat
    var log: Log

    constructor (fate: Fate)
      ensures this.fate == fate && log == [] && Counts()
    {
      this.fate, passedTests, failedTests, log := fate, 0, 0, [];
    }

    /** The counters count the log: bodies that return, and everything that throws. */
    ghost predicate Counts()
      reads this
    {
      passedTests == Passes(log) && failedTests == Throws(log)
    }

    method Invoke(call: Call) returns (threw: bool)
      modifies this`log
      ensures threw == fate(|old(log)|)
      ensures log == old(log) + [Event(call, threw)]
    {
      threw := fate(|log|);
      log := log + [Event(call, threw)];
    }

    /** Calls a hook; a throw counts as a failure. */
    method InvokeHook(kind: Kind, hook: nat) returns (threw: bool)
      requires Counts()
      modifies this
      ensures Counts()
      ensures threw == fate(|old(log)|)
      ensures log == old(log) + [Event(Hook(kind, hook), threw)]
    {
      hide Passes, Throws;
      OneMore(log, Event(Hook(kind, hook), fate(|log|)));
      threw := Invoke(Hook(kind, hook));
      if threw {
        failedTests := failedTests + 1;
      }
    }

    method InvokeBody(test: nat)
      requires Counts()
      modifies this
      ensures Counts()
      ensures log == old(log) + [Event(Body(test), fate(|old(log)|))]
    {
      hide Passes, Throws;
      OneMore(log, Event(Body(test), fate(|log|)));
      var threw := Invoke(Body(test));
      if threw {
        failedTests := failedTests + 1;
      } else {
        passedTests := passedTests + 1;
      }
    }

    method RunHooksSequentially(kind: Kind, hooks: seq<nat>)
      requires Counts()
      modifies this
      ensures Counts() && log == CallEach(fate, old(log), kind, hooks)
    {
      for i := 0 to |hooks|
        invariant Counts() && CallEach(fate, log, kind, hooks[i..]) == CallEach(fate, old(log), kind, hooks)
      {
        assert hooks[i..][1..] == hooks[i + 1..];
        var threw := InvokeHook(kind, hooks[i]);
      }
      assert hooks[|hooks|..] == [];
    }

    /** The loop over the hooks around a test. */
    method RunUntilThrow(kind: Kind, hooks: seq<nat>) returns (ok: bool)
      requires Counts()
      modifies this
      ensures Counts() && log == CallUntilThrow(fate, old(log), kind, hooks)
      ensures ok == Returned(log, |old(log)|)
    {
      hide AreHooks, NoneThrew, Counts;
      for i := 0 to |hooks|
        invariant Counts() && CallUntilThrow(fate, log, kind, hooks[i..]) == CallUntilThrow(fate, old(log), kind, hooks)
        invariant |old(log)| <= |log| && Returned(log, |old(log)|)
      {
        assert hooks[i..][1..] == hooks[i + 1..];
        var threw := InvokeHook(kind, hooks[i]);
        if threw {
          return false;
        }
      }
      assert hooks[|hooks|..] == [];
      return true;
    }

    method RunTest(node: Node, before: seq<nat>, after: seq<nat>)
      requires Counts() && node.isTest && node.Valid()
      modifies this
      ensures Counts() && log == RunTree(fate, old(log), node.View(), before, after)
    {
      hide CallUntilThrow, AreHooks, NoneThrew, Counts;
      if node.mode == Skip {
        return;
      }
      var ok := RunUntilThrow(BeforeEach, before);
      if !ok {
        return;
      }
      InvokeBody(node.id);
      ok := RunUntilThrow(AfterEach, after);
    }

    method RunSuite(node: Node, before: seq<nat>, after: seq<nat>)
      requires Counts() && !node.isTest && node.Valid()
      modifies this
      ensures Counts() && log == RunTree(fate, old(log), node.View(), before, after)
      decreases node.footprint
    {
      hide CallEach, AreHooks, Counts, TestRun.RunTest, Node.Valid;
      var combinedBefore, combinedAfter := before + node.hooks.beforeEach, node.hooks.afterEach + after;
      if node.mode == Skip {
        return;
      }
      ghost var ts := node.ViewFirst(|node.children|);
      RunHooksSequentially(BeforeAll, node.hooks.beforeAll);
      ghost var begun := log;
      for i := 0 to |node.children|
        invariant Counts() && log == RunChildren(fate, begun, ts, i, combinedBefore, combinedAfter)
      {
        var child := node.children[i];
        ChildIsApart(node, i);
        if child.isTest {
          RunTest(child, combinedBefore, combinedAfter);
        } else {
          RunSuite(child, combinedBefore, combinedAfter);
        }
      }
      RunHooksSequentially(AfterAll, node.hooks.afterAll);
    }

    /** `runTests` */
    method RunTests(root: Node)
      requires Counts() && log == [] && !root.isTest && root.Valid()
      modifies this, root.footprint
      ensures Counts() && log == RunAll(fate, old(root.View()))
    {
      hide RunTree, HasOnly, Applied, Counts, Node.Valid, Node.View;
      var onlyNodes := FindOnlyNodes(root);
      if |onlyNodes| > 0 {
        var runnable := ApplyOnlyMode(root, set n | n in onlyNodes, false);
      }
      RunSuite(root, [], []);
    }
  }
}
