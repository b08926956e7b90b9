/**
 * Package se.ludvigwesterdahl.lib.cts.blocker: the newer MaxDepthBlocker,
 * which counts back when a node is left and so measures depth below the
 * blocking point, and the newer LeafBlocker. Both inherit empty callbacks
 * from AbstractBlocker where they do not override them.
 */
module Blocker {
  import opened Results
  import opened Identifiers
  import opened Fields
  import opened Chains
  import opened Traces
  import Blockers

  datatype DepthState = DepthState(nextLevel: int, counting: bool)

  /** The change one callback makes. Entering the root resets; entering
      another node turns counting on when it matches, and while counting
      every entered node decrements nextLevel. While counting every left
      node increments it, and when that brings it back to continueLevels on
      a matching node the blocker resets. */
  function Step(point: Ident, continueLevels: int, s: DepthState, e: Event): DepthState {
    match e
    case Enter(c) =>
      if c.IsRoot() then DepthState(continueLevels, false)
      else
        var counting := s.counting || Blockers.HeadMatches(point, c);
        DepthState(if counting then s.nextLevel - 1 else s.nextLevel, counting)
    case Consume(_) => s
    case Leave(c) =>
      var next := if s.counting then s.nextLevel + 1 else s.nextLevel;
      if s.counting && next == continueLevels && Blockers.HeadMatches(point, c) then DepthState(continueLevels, false)
      else DepthState(next, s.counting)
  }

  function Run(point: Ident, continueLevels: int, s: DepthState, tr: seq<Event>): DepthState
    decreases |tr|
  {
    if tr == [] then s else Run(point, continueLevels, Step(point, continueLevels, s, tr[0]), tr[1..])
  }

  /** block(chain): leaf heads pass; node heads are blocked once nextLevel
      is negative. */
  predicate Blocks(s: DepthState, c: FieldChain) {
    c.Head().node && s.nextLevel < 0
  }

  class MaxDepthBlocker {
    const blockingPoint: Ident
    const continueLevels: int
    var nextLevel: int
    var counting: bool

    constructor (blockingPoint: Ident, continueLevels: int)
      ensures this.blockingPoint == blockingPoint && this.continueLevels == continueLevels
      ensures State() == DepthState(0, false)
    {
      this.blockingPoint := blockingPoint;
      this.continueLevels := continueLevels;
      nextLevel := 0;
      counting := false;
    }

    function State(): DepthState
      reads this
    {
      DepthState(nextLevel, counting)
    }

    /** Leaves are never blocked, whatever the depth; nodes are blocked
        exactly once nextLevel is negative, matching or not. */
    predicate Block(c: FieldChain)
      reads this
      ensures Block(c) ==> c.Head().node
      ensures nextLevel >= 0 ==> !Block(c)
      ensures c.Head().node && nextLevel < 0 ==> Block(c)
    {
      Blocks(State(), c)
    }

    method Reset()
      modifies this
      ensures State() == DepthState(continueLevels, false)
    {
      counting := false;
      nextLevel := continueLevels;
    }

    method EnterNode(c: FieldChain)
      modifies this
      ensures State() == Step(blockingPoint, continueLevels, old(State()), Enter(c))
    {
      if c.IsRoot() {
        Reset();
        return;
      }
      if Blockers.HeadMatches(blockingPoint, c) {
        counting := true;
      }
      if counting {
        nextLevel := nextLevel - 1;
      }
    }

    /** Inherited from AbstractBlocker: does nothing. */
    method ConsumeLeaf(c: FieldChain)
      ensures State() == Step(blockingPoint, continueLevels, State(), Consume(c))
    {
    }

    method LeaveNode(c: FieldChain)
      modifies this
      ensures State() == Step(blockingPoint, continueLevels, old(State()), Leave(c))
    {
      if counting {
        nextLevel := nextLevel + 1;
      }
      if counting && nextLevel == continueLevels && Blockers.HeadMatches(blockingPoint, c) {
        Reset();
      }
    }
  }

  /** newInstance(blockingPoint, continueLevels). */
  method NewInstance(blockingPoint: Option<Ident>, continueLevels: int) returns (r: Result<MaxDepthBlocker>)
    ensures blockingPoint.None? ==> r == Err(NullPointer)
    ensures blockingPoint.Some? && continueLevels < 0 ==> r == Err(IllegalArgument("continueLevels cannot be negative"))
    ensures blockingPoint.Some? && continueLevels >= 0 ==>
              && r.Ok? && fresh(r.value)
              && r.value.blockingPoint == blockingPoint.value && r.value.continueLevels == continueLevels
              && r.value.State() == DepthState(0, false)
  {
    if blockingPoint.None? {
      return Err(NullPointer);
    }
    if continueLevels < 0 {
      return Err(IllegalArgument("continueLevels cannot be negative"));
    }
    var b := new MaxDepthBlocker(blockingPoint.value, continueLevels);
    return Ok(b);
  }

  lemma {:induction false} RunConcat(point: Ident, c: int, s: DepthState, a: seq<Event>, b: seq<Event>)
    ensures Run(point, c, s, a + b) == Run(point, c, Run(point, c, s, a), b)
    decreases |a|
  {
    if a == [] {
      assert a + b == b;
    } else {
      assert (a + b)[1..] == a[1..] + b;
      RunConcat(point, c, Step(point, c, s, a[0]), a[1..], b);
    }
  }

  /** Well-formed subtrees below the root. */
  predicate BelowRoot(ts: seq<Tree>) {
    forall i :: 0 <= i < |ts| ==> WellFormed(ts[i]) && !ts[i].chain.IsRoot()
  }

  lemma ChildrenOfBelowRoot(t: Tree)
    requires WellFormed(t) && t.Node?
    ensures BelowRoot(t.children)
  {
    forall i | 0 <= i < |t.children|
      ensures WellFormed(t.children[i]) && !t.children[i].chain.IsRoot()
    {
      ChildrenBelowRoot(t, i);
    }
  }

  lemma RunNode(point: Ident, c: int, s: DepthState, t: Tree)
    requires t.Node?
    ensures Run(point, c, s, Events(t))
         == Step(point, c, Run(point, c, Step(point, c, s, Enter(t.chain)), EventsOf(t.children)), Leave(t.chain))
  {
    var f := EventsOf(t.children);
    assert Events(t) == [Enter(t.chain)] + (f + [Leave(t.chain)]);
    RunConcat(point, c, s, [Enter(t.chain)], f + [Leave(t.chain)]);
    RunConcat(point, c, Step(point, c, s, Enter(t.chain)), f, [Leave(t.chain)]);
  }

  /** Outside the blocking point, a whole subtree leaves the blocker idle:
      if it enters the blocking point it also leaves it, and that leave
      resets. */
  lemma {:induction false} IdleTree(point: Ident, c: int, t: Tree)
    requires WellFormed(t) && !t.chain.IsRoot()
    ensures Run(point, c, DepthState(c, false), Events(t)) == DepthState(c, false)
    decreases t, 1
  {
    if t.Node? {
      RunNode(point, c, DepthState(c, false), t);
      ChildrenOfBelowRoot(t);
      if Blockers.HeadMatches(point, t.chain) {
        CountingForest(point, c, c - 1, t.children);
      } else {
        IdleForest(point, c, t.children);
      }
    }
  }

  lemma {:induction false} IdleForest(point: Ident, c: int, ts: seq<Tree>)
    requires BelowRoot(ts)
    ensures Run(point, c, DepthState(c, false), EventsOf(ts)) == DepthState(c, false)
    decreases ts, 0
  {
    if ts != [] {
      RunConcat(point, c, DepthState(c, false), Events(ts[0]), EventsOf(ts[1..]));
      IdleTree(point, c, ts[0]);
      IdleForest(point, c, ts[1..]);
    }
  }

  /** Below the blocking point, a whole subtree leaves nextLevel where it
      was: every enter inside it is matched by a leave. */
  lemma {:induction false} CountingTree(point: Ident, c: int, n: int, t: Tree)
    requires n < c && WellFormed(t) && !t.chain.IsRoot()
    ensures Run(point, c, DepthState(n, true), Events(t)) == DepthState(n, true)
    decreases t, 1
  {
    if t.Node? {
      RunNode(point, c, DepthState(n, true), t);
      ChildrenOfBelowRoot(t);
      CountingForest(point, c, n - 1, t.children);
    }
  }

  lemma {:induction false} CountingForest(point: Ident, c: int, n: int, ts: seq<Tree>)
    requires n < c && BelowRoot(ts)
    ensures Run(point, c, DepthState(n, true), EventsOf(ts)) == DepthState(n, true)
    decreases ts, 0
  {
    if ts != [] {
      RunConcat(point, c, DepthState(n, true), Events(ts[0]), EventsOf(ts[1..]));
      CountingTree(point, c, n, ts[0]);
      CountingForest(point, c, n, ts[1..]);
    }
  }

  /** One level of a descent through a traversal: the complete subtrees of
      the earlier siblings, then entering the next node on the path. */
  datatype Descent = Descent(siblings: seq<Tree>, node: FieldChain)

  predicate ValidDescent(ds: seq<Descent>) {
    forall i :: 0 <= i < |ds| ==> BelowRoot(ds[i].siblings) && !ds[i].node.IsRoot()
  }

  function DescentEvents(ds: seq<Descent>): seq<Event> {
    if ds == [] then [] else EventsOf(ds[0].siblings) + [Enter(ds[0].node)] + DescentEvents(ds[1..])
  }

  lemma RunDescentHead(point: Ident, c: int, s: DepthState, ds: seq<Descent>)
    requires ds != []
    ensures Run(point, c, s, DescentEvents(ds))
         == Run(point, c, Step(point, c, Run(point, c, s, EventsOf(ds[0].siblings)), Enter(ds[0].node)), DescentEvents(ds[1..]))
  {
    var a := EventsOf(ds[0].siblings);
    RunConcat(point, c, s, a + [Enter(ds[0].node)], DescentEvents(ds[1..]));
    RunConcat(point, c, s, a, [Enter(ds[0].node)]);
  }

  /** Descending through nodes that do not match keeps the blocker idle. */
  lemma {:induction false} IdleDescent(point: Ident, c: int, ds: seq<Descent>)
    requires ValidDescent(ds)
    requires forall i :: 0 <= i < |ds| ==> !Blockers.HeadMatches(point, ds[i].node)
    ensures Run(point, c, DepthState(c, false), DescentEvents(ds)) == DepthState(c, false)
    decreases |ds|
  {
    if ds != [] {
      RunDescentHead(point, c, DepthState(c, false), ds);
      IdleForest(point, c, ds[0].siblings);
      IdleDescent(point, c, ds[1..]);
    }
  }

  /** Below the blocking point, each level descended lowers nextLevel by one. */
  lemma {:induction false} CountingDescent(point: Ident, c: int, n: int, ds: seq<Descent>)
    requires n < c && ValidDescent(ds)
    ensures Run(point, c, DepthState(n, true), DescentEvents(ds)) == DepthState(n - |ds|, true)
    decreases |ds|
  {
    if ds != [] {
      RunDescentHead(point, c, DepthState(n, true), ds);
      CountingForest(point, c, n, ds[0].siblings);
      CountingDescent(point, c, n - 1, ds[1..]);
    }
  }

  /** Entering the root and descending, through nodes that do not match,
      to the blocking point `p` starts the count at continueLevels - 1. */
  lemma ReachBlockingPoint(point: Ident, c: int, s: DepthState, root: FieldChain,
                           pre: seq<Descent>, siblings: seq<Tree>, p: FieldChain)
    requires root.IsRoot()
    requires ValidDescent(pre) && forall i :: 0 <= i < |pre| ==> !Blockers.HeadMatches(point, pre[i].node)
    requires BelowRoot(siblings) && !p.IsRoot() && Blockers.HeadMatches(point, p)
    ensures Run(point, c, s, [Enter(root)] + DescentEvents(pre) + EventsOf(siblings) + [Enter(p)])
         == DepthState(c - 1, true)
  {
    var idle := DepthState(c, false);
    var e0 := [Enter(root)];
    var e1 := e0 + DescentEvents(pre);
    var e2 := e1 + EventsOf(siblings);
    RunConcat(point, c, s, e0, DescentEvents(pre));
    IdleDescent(point, c, pre);
    assert Run(point, c, s, e1) == idle;
    RunConcat(point, c, s, e1, EventsOf(siblings));
    IdleForest(point, c, siblings);
    assert Run(point, c, s, e2) == idle;
    RunConcat(point, c, s, e2, [Enter(p)]);
  }

  /** The depth limit. A traversal enters the root, descends through nodes
      that do not match, reaches the blocking point `p`, then descends
      `|mid|` further levels; completed sibling subtrees may lie anywhere
      along the way. A node chain checked there is |mid| + 1 levels below
      `p`, and it is blocked exactly when that is more than continueLevels. */
  lemma DepthLimit(point: Ident, c: int, s: DepthState, root: FieldChain,
                   pre: seq<Descent>, siblings: seq<Tree>, p: FieldChain,
                   mid: seq<Descent>, rest: seq<Tree>, x: FieldChain)
    requires c >= 0 && root.IsRoot()
    requires ValidDescent(pre) && forall i :: 0 <= i < |pre| ==> !Blockers.HeadMatches(point, pre[i].node)
    requires BelowRoot(siblings) && !p.IsRoot() && Blockers.HeadMatches(point, p)
    requires ValidDescent(mid) && BelowRoot(rest) && x.Head().node
    ensures Blocks(Run(point, c, s, ([Enter(root)] + DescentEvents(pre) + EventsOf(siblings) + [Enter(p)])
                                    + (DescentEvents(mid) + EventsOf(rest))), x)
        <==> |mid| + 1 > c
  {
    var a := [Enter(root)] + DescentEvents(pre) + EventsOf(siblings) + [Enter(p)];
    ReachBlockingPoint(point, c, s, root, pre, siblings, p);
    RunConcat(point, c, s, a, DescentEvents(mid) + EventsOf(rest));
    RunConcat(point, c, DepthState(c - 1, true), DescentEvents(mid), EventsOf(rest));
    CountingDescent(point, c, c - 1, mid);
    CountingForest(point, c, c - 1 - |mid|, rest);
  }

  /** The calls of MaxDepthBlockerTest.Should_Return_When_Block: after the
      root and the blocking point node1, each round checks node2 and then
      enters it again. Rounds 0 to continueLevels - 1 pass and round
      continueLevels is blocked. */
  method RepeatedDescent(continueLevels: int, withName: bool) returns (results: seq<bool>)
    requires continueLevels >= 0
    ensures |results| == continueLevels + 1
    ensures forall i :: 0 <= i < |results| ==> results[i] == (i == continueLevels)
  {
    var root := NewRootInstance(Some("Object")).value;
    var node1 := root.Chain(CtsField(Ident("String", Some("string")), Blockers.ACC_PRIVATE, true)).value;
    var node2 := node1.Chain(CtsField(Ident("Object", Some("object")), Blockers.ACC_PRIVATE, true)).value;
    var leaf1 := node2.Chain(CtsField(Ident("Object", Some("object")), Blockers.ACC_PRIVATE, true)).value;
    var point := if withName then Ident("String", Some("string")) else Ident("String", None);
    var blocker := new MaxDepthBlocker(point, continueLevels);
    blocker.EnterNode(root);
    blocker.EnterNode(node1);
    results := [];
    var i := 0;
    while i < continueLevels + 1
      invariant 0 <= i <= continueLevels + 1
      invariant |results| == i
      invariant forall j :: 0 <= j < i ==> results[j] == (j == continueLevels)
      invariant blocker.blockingPoint == point && blocker.continueLevels == continueLevels
      invariant blocker.State() == DepthState(continueLevels - 1 - i, true)
    {
      var blocked := blocker.Block(node2);
      blocker.EnterNode(node2);
      blocker.ConsumeLeaf(leaf1);
      results := results + [blocked];
      i := i + 1;
    }
  }

  /** The newer LeafBlocker: the head is not a node. */
  datatype LeafBlocker = LeafBlocker
  {
    predicate Block(c: FieldChain)
      ensures Block(c) <==> Blockers.LeafInstance().Block(c)
      ensures Block(c) ==> !c.IsRoot()
    {
      !c.Head().node
    }
  }

  /** getInstance(): the single instance. */
  function LeafInstance(): (r: LeafBlocker)
    ensures forall c: FieldChain {:trigger r.Block(c)} :: r.Block(c) <==> Blockers.LeafInstance().Block(c)
  {
    LeafBlocker
  }

  /** Both LeafBlockers agree on every chain and never block the root. */
  lemma LeafBlockersAgree(c: FieldChain)
    ensures LeafInstance().Block(c) == Blockers.LeafInstance().Block(c)
    ensures c.IsRoot() ==> !LeafInstance().Block(c)
  {
  }
}
