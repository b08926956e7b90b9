/**
 * The stateless blockers of package se.ludvigwesterdahl.lib.cts.blockers:
 * SimpleBlocker, TransientBlocker, StaticBlocker and LeafBlocker. Each is a
 * predicate over the head of a chain; their observer callbacks are empty,
 * so they are values without state.
 */
module Blockers {
  import opened Results
  import opened Identifiers
  import opened Fields
  import opened Chains

  /** JVM field access flags (section 4.5 of The Java Virtual Machine
      Specification, table 4.5-A). */
  const ACC_PUBLIC: bv32 := 0x0001
  const ACC_PRIVATE: bv32 := 0x0002
  const ACC_STATIC: bv32 := 0x0008
  const ACC_TRANSIENT: bv32 := 0x0080

  /** `leafOrNode.matches(head identifier)`. */
  predicate HeadMatches(target: Ident, c: FieldChain) {
    target.Matches(Some(c.Head().identifier))
  }

  /** A blocker for one identifier; `blockNodes` is null (None) for "node or
      leaf", true for nodes only and false for leaves only. `parentNode` is
      stored and never read. */
  datatype SimpleBlocker = SimpleBlocker(parentNode: Option<Ident>, leafOrNode: Ident, blockNodes: Option<bool>)
  {
    /** A blocked head has the target's type, the target's name when both
        are named, and the requested kind when one is requested. */
    predicate Block(c: FieldChain)
      ensures Block(c) ==> c.Head().identifier.typ == leafOrNode.typ
      ensures Block(c) && leafOrNode.name.Some? && c.Head().identifier.name.Some?
              ==> c.Head().identifier.name == leafOrNode.name
      ensures Block(c) && blockNodes.Some? ==> c.Head().node == blockNodes.value
      ensures c.Head().identifier == leafOrNode && blockNodes.None? ==> Block(c)
    {
      && HeadMatches(leafOrNode, c)
      && (blockNodes.None? || blockNodes.value == c.Head().node)
    }
  }

  /** blockNode(parentNode, node): blocks matching node heads only. */
  function BlockNode(parentNode: Option<Ident>, node: Option<Ident>): (r: Result<SimpleBlocker>)
    ensures node.None? <==> r == Err(NullPointer)
    ensures r.Ok? ==> forall c: FieldChain {:trigger r.value.Block(c)} ::
                        r.value.Block(c) <==> HeadMatches(node.value, c) && c.Head().node
  {
    if node.None? then Err(NullPointer) else Ok(SimpleBlocker(parentNode, node.value, Some(true)))
  }

  /** blockLeaf(parentNode, leaf): blocks matching leaf heads only. */
  function BlockLeaf(parentNode: Option<Ident>, leaf: Option<Ident>): (r: Result<SimpleBlocker>)
    ensures leaf.None? <==> r == Err(NullPointer)
    ensures r.Ok? ==> forall c: FieldChain {:trigger r.value.Block(c)} ::
                        r.value.Block(c) <==> HeadMatches(leaf.value, c) && !c.Head().node
  {
    if leaf.None? then Err(NullPointer) else Ok(SimpleBlocker(parentNode, leaf.value, Some(false)))
  }

  /** block(parentNode, leafOrNode): blocks every matching head. */
  function Block(parentNode: Option<Ident>, leafOrNode: Option<Ident>): (r: Result<SimpleBlocker>)
    ensures leafOrNode.None? <==> r == Err(NullPointer)
    ensures r.Ok? ==> forall c: FieldChain {:trigger r.value.Block(c)} ::
                        r.value.Block(c) <==> HeadMatches(leafOrNode.value, c)
  {
    if leafOrNode.None? then Err(NullPointer) else Ok(SimpleBlocker(parentNode, leafOrNode.value, None))
  }

  /** What a SimpleBlocker decides: never a head that does not match, and
      the result is the same whatever the parent node. */
  lemma SimpleBlockerDecision(b: SimpleBlocker, parent: Option<Ident>, c: FieldChain)
    ensures !HeadMatches(b.leafOrNode, c) ==> !b.Block(c)
    ensures SimpleBlocker(parent, b.leafOrNode, b.blockNodes).Block(c) == b.Block(c)
    ensures b.blockNodes.None? ==> (b.Block(c) <==> HeadMatches(b.leafOrNode, c))
  {
  }

  /** A nameless target blocks matching heads whatever their name; only the
      type and the kind of the head are consulted. */
  lemma NamelessTarget(t: TypeName, c: FieldChain)
    ensures Block(None, Some(Ident(t, None))).value.Block(c) <==> c.Head().identifier.typ == t
    ensures BlockNode(None, Some(Ident(t, None))).value.Block(c) <==> c.Head().identifier.typ == t && c.Head().node
    ensures BlockLeaf(None, Some(Ident(t, None))).value.Block(c) <==> c.Head().identifier.typ == t && !c.Head().node
  {
  }

  /** The table of SimpleBlockerTest: a leaf chain and a node chain under a
      String root, against every factory with and without a name. */
  lemma SimpleBlockerExamples()
    ensures var root := NewRootInstance(Some("String")).value;
            var leaf := root.Chain(CtsField(Ident("Object", Some("leaf")), ACC_PRIVATE, false)).value;
            var node := root.Chain(CtsField(Ident("Object", Some("node")), ACC_PRIVATE, true)).value;
            && BlockLeaf(None, Some(Ident("Object", Some("leaf")))).value.Block(leaf)
            && !BlockLeaf(None, Some(Ident("Object", Some("leaf")))).value.Block(node)
            && BlockLeaf(None, Some(Ident("Object", None))).value.Block(leaf)
            && !BlockLeaf(None, Some(Ident("Object", None))).value.Block(node)
            && !BlockNode(None, Some(Ident("Object", Some("node")))).value.Block(leaf)
            && BlockNode(None, Some(Ident("Object", Some("node")))).value.Block(node)
            && !BlockNode(None, Some(Ident("Object", None))).value.Block(leaf)
            && BlockNode(None, Some(Ident("Object", None))).value.Block(node)
            && Block(None, Some(Ident("Object", Some("leaf")))).value.Block(leaf)
            && !Block(None, Some(Ident("Object", Some("leaf")))).value.Block(node)
            && !Block(None, Some(Ident("Object", Some("node")))).value.Block(leaf)
            && Block(None, Some(Ident("Object", Some("node")))).value.Block(node)
            && Block(None, Some(Ident("Object", None))).value.Block(leaf)
            && Block(None, Some(Ident("Object", None))).value.Block(node)
  {
  }

  /** TransientBlocker: the head carries ACC_TRANSIENT. */
  datatype TransientBlocker = TransientBlocker
  {
    /** The flag is set on the head; a head without modifiers, such as the
        root newRootInstance builds, is never blocked. */
    predicate Block(c: FieldChain)
      ensures Block(c) <==> (c.Head().modifiers & ACC_TRANSIENT) == ACC_TRANSIENT
      ensures c.Head().modifiers == 0 ==> !Block(c)
    {
      (c.Head().modifiers & ACC_TRANSIENT) != 0
    }
  }

  /** StaticBlocker: the head carries ACC_STATIC. */
  datatype StaticBlocker = StaticBlocker
  {
    /** The flag is set on the head; a head without modifiers, such as the
        root newRootInstance builds, is never blocked. */
    predicate Block(c: FieldChain)
      ensures Block(c) <==> (c.Head().modifiers & ACC_STATIC) == ACC_STATIC
      ensures c.Head().modifiers == 0 ==> !Block(c)
    {
      (c.Head().modifiers & ACC_STATIC) != 0
    }
  }

  /** LeafBlocker: the head is a leaf. */
  datatype LeafBlocker = LeafBlocker
  {
    /** A blocked head is a named field below the root that is not a node. */
    predicate Block(c: FieldChain)
      ensures Block(c) ==> !c.IsRoot() && c.Head().identifier.name.Some? && !c.Head().node
      ensures c.IsRoot() ==> !Block(c)
    {
      c.IsLeaf()
    }
  }

  /** getInstance(): the one instance of each singleton (a datatype with a
      single value, so every call gives the same instance). */
  function TransientInstance(): (r: TransientBlocker)
    ensures forall c: FieldChain {:trigger r.Block(c)} :: r.Block(c) <==> (c.Head().modifiers & ACC_TRANSIENT) != 0
  {
    TransientBlocker
  }

  function StaticInstance(): (r: StaticBlocker)
    ensures forall c: FieldChain {:trigger r.Block(c)} :: r.Block(c) <==> (c.Head().modifiers & ACC_STATIC) != 0
  {
    StaticBlocker
  }

  function LeafInstance(): (r: LeafBlocker)
    ensures forall c: FieldChain {:trigger r.Block(c)} :: r.Block(c) <==> !c.Head().node
  {
    LeafBlocker
  }

  /** The modifier blockers test one flag each: setting or clearing any
      other flag, or changing the kind or the identifier of the head, does
      not change their answer. */
  lemma TransientBlockerReadsOneFlag(c: FieldChain, d: FieldChain)
    requires (c.Head().modifiers & ACC_TRANSIENT) == (d.Head().modifiers & ACC_TRANSIENT)
    ensures TransientInstance().Block(c) == TransientInstance().Block(d)
  {
  }

  lemma StaticBlockerReadsOneFlag(c: FieldChain, d: FieldChain)
    requires (c.Head().modifiers & ACC_STATIC) == (d.Head().modifiers & ACC_STATIC)
    ensures StaticInstance().Block(c) == StaticInstance().Block(d)
  {
  }

  /** The tables of TransientBlockerTest and StaticBlockerTest. */
  lemma ModifierBlockerExamples()
    ensures var root := NewRootInstance(Some("Object")).value;
            && TransientInstance().Block(root.Chain(CtsField(Ident("Object", Some("leaf")), ACC_TRANSIENT, false)).value)
            && !TransientInstance().Block(root.Chain(CtsField(Ident("Object", Some("leaf")), 0, false)).value)
            && TransientInstance().Block(root.Chain(CtsField(Ident("Object", Some("node")), ACC_TRANSIENT, true)).value)
            && !TransientInstance().Block(root.Chain(CtsField(Ident("Object", Some("node")), 0, true)).value)
            && StaticInstance().Block(root.Chain(CtsField(Ident("Object", Some("leaf")), ACC_PRIVATE | ACC_STATIC, false)).value)
            && !StaticInstance().Block(root.Chain(CtsField(Ident("Object", Some("leaf")), ACC_PRIVATE, false)).value)
            && StaticInstance().Block(root.Chain(CtsField(Ident("Object", Some("node")), ACC_PRIVATE | ACC_STATIC, true)).value)
            && !StaticInstance().Block(root.Chain(CtsField(Ident("Object", Some("node")), ACC_PRIVATE, true)).value)
  {
  }

  /** LeafBlocker blocks exactly the leaf heads, so never the root. */
  lemma LeafBlockerNeverBlocksRoot(c: FieldChain)
    ensures LeafInstance().Block(c) <==> !c.Head().node
    ensures c.IsRoot() ==> !LeafInstance().Block(c)
  {
  }
}
