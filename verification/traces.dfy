/**
 * The observer protocol (se.ludvigwesterdahl.lib.cts.Observer): a traversal
 * reports `enterNode`, `consumeLeaf` and `leaveNode`, each with the chain of
 * the current position. The traversal engine is not modelled; instead a
 * traversal is a tree of chains whose children extend their parent by one
 * field, and its trace is the depth-first, left-to-right event list.
 */
module Traces {
  import opened Results
  import opened Identifiers
  import opened Fields
  import opened Chains

  datatype Event = Enter(chain: FieldChain) | Consume(chain: FieldChain) | Leave(chain: FieldChain)

  datatype Tree = Leaf(chain: FieldChain) | Node(chain: FieldChain, children: seq<Tree>)

  /** Leaves carry leaf chains, nodes carry node chains, and every child
      chain is its parent's chain plus one field. */
  predicate WellFormed(t: Tree)
    decreases t
  {
    match t
    case Leaf(c) => !c.Head().node
    case Node(c, kids) =>
      && c.Head().node
      && forall i :: 0 <= i < |kids| ==>
           && kids[i].chain.fields == c.fields + [kids[i].chain.Head()]
           && WellFormed(kids[i])
  }

  /** A whole traversal: a well-formed node tree rooted at a root chain. */
  predicate RootTree(t: Tree) {
    t.Node? && t.chain.IsRoot() && WellFormed(t)
  }

  /** The events the traversal of `t` reports, in order. */
  function Events(t: Tree): (r: seq<Event>)
    decreases t
    ensures |r| >= 1
  {
    match t
    case Leaf(c) => [Consume(c)]
    case Node(c, kids) => [Enter(c)] + EventsOf(kids) + [Leave(c)]
  }

  function EventsOf(ts: seq<Tree>): seq<Event>
    decreases ts
  {
    if ts == [] then [] else Events(ts[0]) + EventsOf(ts[1..])
  }

  /** +1 for an entered node, -1 for a left one. */
  function Weight(e: Event): int {
    match e
    case Enter(_) => 1
    case Consume(_) => 0
    case Leave(_) => -1
  }

  /** Nodes entered but not yet left. */
  function Balance(tr: seq<Event>): int {
    if tr == [] then 0 else Weight(tr[0]) + Balance(tr[1..])
  }

  /** The chains of the consumed leaves, in order. */
  function Consumed(tr: seq<Event>): (r: seq<FieldChain>)
    ensures |r| <= |tr|
  {
    if tr == [] then []
    else if tr[0].Consume? then [tr[0].chain] + Consumed(tr[1..])
    else Consumed(tr[1..])
  }

  /** The number of entered nodes. */
  function Entered(tr: seq<Event>): (r: nat)
    ensures r <= |tr|
  {
    if tr == [] then 0 else (if tr[0].Enter? then 1 else 0) + Entered(tr[1..])
  }

  /** No event of `tr` enters the root or leaves a node matching `point`:
      the events that reset the counter blockers. */
  predicate Uninterrupted(point: Ident, tr: seq<Event>) {
    forall i :: 0 <= i < |tr| ==>
      && !(tr[i].Enter? && tr[i].chain.IsRoot())
      && !(tr[i].Leave? && point.Matches(Some(tr[i].chain.Head().identifier)))
  }

  lemma {:induction false} BalanceConcat(a: seq<Event>, b: seq<Event>)
    ensures Balance(a + b) == Balance(a) + Balance(b)
  {
    if a != [] {
      assert (a + b)[1..] == a[1..] + b;
      BalanceConcat(a[1..], b);
    } else {
      assert a + b == b;
    }
  }

  lemma {:induction false} ConsumedConcat(a: seq<Event>, b: seq<Event>)
    ensures Consumed(a + b) == Consumed(a) + Consumed(b)
  {
    if a != [] {
      assert (a + b)[1..] == a[1..] + b;
      ConsumedConcat(a[1..], b);
    } else {
      assert a + b == b;
    }
  }

  /** Every subtree trace is balanced. */
  lemma {:induction false} EventsBalanced(t: Tree)
    ensures Balance(Events(t)) == 0
    decreases t
  {
    match t
    case Leaf(c) =>
    case Node(c, kids) =>
      EventsOfBalanced(kids);
      BalanceConcat([Enter(c)], EventsOf(kids));
      BalanceConcat([Enter(c)] + EventsOf(kids), [Leave(c)]);
  }

  lemma {:induction false} EventsOfBalanced(ts: seq<Tree>)
    ensures Balance(EventsOf(ts)) == 0
    decreases ts
  {
    if ts != [] {
      EventsBalanced(ts[0]);
      EventsOfBalanced(ts[1..]);
      BalanceConcat(Events(ts[0]), EventsOf(ts[1..]));
    }
  }

  /** No prefix of a subtree trace leaves more nodes than it entered, and
      inside a node trace its own node stays open. */
  lemma {:induction false} PrefixBalance(t: Tree, k: nat)
    requires k <= |Events(t)|
    ensures Balance(Events(t)[..k]) >= 0
    ensures t.Node? && 0 < k < |Events(t)| ==> Balance(Events(t)[..k]) >= 1
    decreases t, 1
  {
    match t
    case Leaf(c) =>
      if k == 1 {
        assert Events(t)[..k] == [Consume(c)];
      } else {
        assert Events(t)[..k] == [];
      }
    case Node(c, kids) =>
      var e := Events(t);
      if k == 0 {
        assert e[..k] == [];
      } else if k == |e| {
        assert e[..k] == e;
        EventsBalanced(t);
      } else {
        assert e[..k] == [Enter(c)] + EventsOf(kids)[..k - 1];
        PrefixBalanceOf(kids, k - 1);
        BalanceConcat([Enter(c)], EventsOf(kids)[..k - 1]);
      }
  }

  lemma {:induction false} PrefixBalanceOf(ts: seq<Tree>, k: nat)
    requires k <= |EventsOf(ts)|
    ensures Balance(EventsOf(ts)[..k]) >= 0
    decreases ts, 0
  {
    if ts == [] {
      assert EventsOf(ts)[..k] == [];
    } else {
      var a, b := Events(ts[0]), EventsOf(ts[1..]);
      if k <= |a| {
        assert EventsOf(ts)[..k] == a[..k];
        PrefixBalance(ts[0], k);
      } else {
        assert EventsOf(ts)[..k] == a + b[..k - |a|];
        EventsBalanced(ts[0]);
        PrefixBalanceOf(ts[1..], k - |a|);
        BalanceConcat(a, b[..k - |a|]);
      }
    }
  }

  /** Every chain reported while traversing a well-formed tree is at least
      as long as the tree's own chain. */
  lemma {:induction false} EventsAtDepth(t: Tree, n: nat)
    requires WellFormed(t) && |t.chain.fields| >= n
    ensures forall i :: 0 <= i < |Events(t)| ==> |Events(t)[i].chain.fields| >= n
    decreases t, 1
  {
    match t
    case Leaf(c) =>
    case Node(c, kids) =>
      EventsOfAtDepth(kids, n);
  }

  lemma {:induction false} EventsOfAtDepth(ts: seq<Tree>, n: nat)
    requires forall i :: 0 <= i < |ts| ==> WellFormed(ts[i]) && |ts[i].chain.fields| >= n
    ensures forall i :: 0 <= i < |EventsOf(ts)| ==> |EventsOf(ts)[i].chain.fields| >= n
    decreases ts, 0
  {
    if ts != [] {
      EventsAtDepth(ts[0], n);
      EventsOfAtDepth(ts[1..], n);
    }
  }

  /** Below the root, no event carries the root chain. */
  predicate NoRootEvents(tr: seq<Event>) {
    forall i :: 0 <= i < |tr| ==> !tr[i].chain.IsRoot()
  }

  /** The shape the observer protocol promises: a traversal starts by
      entering the root, ends by leaving it, is balanced, and reports the
      root at no other point. */
  lemma TraversalShape(t: Tree)
    requires RootTree(t)
    ensures Events(t) == [Enter(t.chain)] + EventsOf(t.children) + [Leave(t.chain)]
    ensures NoRootEvents(EventsOf(t.children))
    ensures Balance(Events(t)) == 0
    ensures forall k :: 0 < k < |Events(t)| ==> Balance(Events(t)[..k]) >= 1
  {
    EventsOfAtDepth(t.children, 2);
    EventsBalanced(t);
    forall k | 0 < k < |Events(t)|
      ensures Balance(Events(t)[..k]) >= 1
    {
      PrefixBalance(t, k);
    }
  }

  /** Children of a well-formed subtree below the root are themselves
      well-formed and below the root. */
  lemma ChildrenBelowRoot(t: Tree, i: int)
    requires WellFormed(t) && t.Node? && 0 <= i < |t.children|
    ensures WellFormed(t.children[i]) && !t.children[i].chain.IsRoot()
    ensures |t.children[i].chain.fields| == |t.chain.fields| + 1
  {
    assert t.children[i].chain.fields == t.chain.fields + [t.children[i].chain.Head()];
  }

  // The traversal of SimpleStructureWithCode's `Simple` class: a String
  // field, then an `Inner` node holding two String fields.

  const PRIVATE: bv32 := 0x0002

  const SIMPLE_ROOT := CtsField(Ident("Simple", None), 0, true)
  const FIELD1 := CtsField(Ident("String", Some("field1")), PRIVATE, false)
  const INNER := CtsField(Ident("Inner", Some("inner")), PRIVATE, true)
  const FIELD1_INNER := CtsField(Ident("String", Some("field1Inner")), PRIVATE, false)
  const FIELD2_INNER := CtsField(Ident("String", Some("field2Inner")), PRIVATE, false)

  function SimpleRoot(): FieldChain {
    CtsFieldChain([SIMPLE_ROOT])
  }

  function SimpleLeaf1(): FieldChain {
    CtsFieldChain([SIMPLE_ROOT, FIELD1])
  }

  function SimpleNode2(): FieldChain {
    CtsFieldChain([SIMPLE_ROOT, INNER])
  }

  function SimpleLeaf2(): FieldChain {
    CtsFieldChain([SIMPLE_ROOT, INNER, FIELD1_INNER])
  }

  function SimpleLeaf3(): FieldChain {
    CtsFieldChain([SIMPLE_ROOT, INNER, FIELD2_INNER])
  }

  /** The fixture's chains are the ones newRootInstance and chain build. */
  lemma SimpleChainsBuilt()
    ensures SimpleRoot() == NewRootInstance(Some("Simple")).value
    ensures SimpleLeaf1() == SimpleRoot().Chain(FIELD1).value
    ensures SimpleNode2() == SimpleRoot().Chain(INNER).value
    ensures SimpleLeaf2() == SimpleNode2().Chain(FIELD1_INNER).value
    ensures SimpleLeaf3() == SimpleNode2().Chain(FIELD2_INNER).value
  {
  }

  function SimpleTree(): Tree {
    Node(SimpleRoot(), [Leaf(SimpleLeaf1()), Node(SimpleNode2(), [Leaf(SimpleLeaf2()), Leaf(SimpleLeaf3())])])
  }

  /** The fixture's expected notifications are the trace of its tree. */
  lemma SimpleStructureTrace()
    ensures RootTree(SimpleTree())
    ensures Events(SimpleTree()) ==
      [ Enter(SimpleRoot()), Consume(SimpleLeaf1()), Enter(SimpleNode2()),
        Consume(SimpleLeaf2()), Consume(SimpleLeaf3()),
        Leave(SimpleNode2()), Leave(SimpleRoot()) ]
  {
    var inner := Node(SimpleNode2(), [Leaf(SimpleLeaf2()), Leaf(SimpleLeaf3())]);
    assert EventsOf([Leaf(SimpleLeaf2()), Leaf(SimpleLeaf3())]) == [Consume(SimpleLeaf2()), Consume(SimpleLeaf3())] by {
      assert [Leaf(SimpleLeaf2()), Leaf(SimpleLeaf3())][1..] == [Leaf(SimpleLeaf3())];
    }
    assert EventsOf([Leaf(SimpleLeaf1()), inner]) == [Consume(SimpleLeaf1())] + Events(inner) by {
      assert [Leaf(SimpleLeaf1()), inner][1..] == [inner];
      assert [inner][1..] == [];
      assert EventsOf([inner]) == Events(inner) + EventsOf([]);
    }
  }
}
