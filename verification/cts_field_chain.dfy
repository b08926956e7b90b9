/**
 * se.ludvigwesterdahl.lib.cts.CtsFieldChain: the immutable path of fields
 * from the root to the current position. Java code can only obtain chains
 * from `newRootInstance` and `chain`, so every chain satisfies `Valid()`;
 * the subset type `FieldChain` records that.
 */
module Chains {
  import opened Results
  import opened Identifiers
  import opened Fields

  datatype CtsFieldChain = CtsFieldChain(fields: seq<CtsField>)
  {
    /** The path invariant: a nameless root node first, named fields after
        it, and every field but the last a node. */
    predicate Valid() {
      && |fields| >= 1
      && fields[0].identifier.name.None?
      && fields[0].node
      && (forall i :: 1 <= i < |fields| ==> fields[i].identifier.name.Some?)
      && (forall i :: 0 <= i < |fields| - 1 ==> fields[i].node)
    }

    /** head(): the last field. On a valid chain the head of the root is a
        nameless node, and the head of any longer chain is named. */
    function Head(): (r: CtsField)
      requires fields != []
      ensures r == fields[|fields| - 1]
      ensures Valid() && |fields| == 1 ==> r.identifier.name.None? && r.node
      ensures Valid() && |fields| > 1 ==> r.identifier.name.Some?
    {
      fields[|fields| - 1]
    }

    /** isRoot(): the chain holds the root only, so its head is its first
        field (`RootIsNamelessHead` characterises it on valid chains). */
    predicate IsRoot()
      ensures IsRoot() ==> fields != [] && Head() == fields[0]
      ensures IsRoot() ==> AllFields() == [Head()]
    {
      |fields| == 1
    }

    /** The head is not a node (the meaning of `isLeaf()` and
        `leaf().isPresent()` at their call sites). */
    predicate IsLeaf()
      requires fields != []
    {
      !Head().node
    }

    /** allFields(): a copy of the field list, which on a valid chain runs
        from the nameless root node to the head. */
    function AllFields(): (r: seq<CtsField>)
      ensures r == fields
      ensures Valid() ==> && |r| >= 1 && r[0].node && r[0].identifier.name.None?
                          && r[|r| - 1] == Head()
    {
      fields
    }

    /** chain(newHead): a nameless head is refused first, then appending to
        a leaf; otherwise a new chain one field longer. */
    function Chain(newHead: CtsField): (r: Result<FieldChain>)
      requires Valid()
      ensures newHead.identifier.name.None? ==> r == Err(IllegalArgument("cannot append a head without a name"))
      ensures newHead.identifier.name.Some? && !Head().node ==> r == Err(IllegalState("cannot append to this chain"))
      ensures r.Ok? <==> newHead.identifier.name.Some? && Head().node
      ensures r.Ok? ==> && r.value.fields == fields + [newHead]
                        && r.value.Head() == newHead && !r.value.IsRoot()
    {
      if newHead.identifier.name.None? then Err(IllegalArgument("cannot append a head without a name"))
      else if !Head().node then Err(IllegalState("cannot append to this chain"))
      else
        var c := CtsFieldChain(fields + [newHead]);
        assert c.Valid();
        Ok(c)
    }

    /** chainAll(heads): one sibling chain per head, in order; the first bad
        head makes the whole call fail with that head's error. */
    function ChainAll(heads: seq<CtsField>): (r: Result<seq<FieldChain>>)
      requires Valid()
      ensures r.Ok? <==> forall i :: 0 <= i < |heads| ==> Chain(heads[i]).Ok?
      ensures r.Ok? ==> && |r.value| == |heads|
                        && forall i :: 0 <= i < |heads| ==> r.value[i].fields == fields + [heads[i]]
      ensures r.Err? ==> exists i :: && 0 <= i < |heads| && Chain(heads[i]) == Err(r.error)
                                     && forall j :: 0 <= j < i ==> Chain(heads[j]).Ok?
    {
      if heads == [] then Ok([])
      else
        match Chain(heads[0])
        case Err(e) => Err(e)
        case Ok(first) =>
          var rest := ChainAll(heads[1..]);
          if rest.Err? then
            ghost var i :| && 0 <= i < |heads[1..]| && Chain(heads[1..][i]) == Err(rest.error)
                           && forall j :: 0 <= j < i ==> Chain(heads[1..][j]).Ok?;
            assert Chain(heads[i + 1]) == Err(rest.error);
            Err(rest.error)
          else
            Ok([first] + rest.value)
    }

    /** equals(Object): the field lists are equal. */
    predicate Equals(o: Option<CtsFieldChain>)
      ensures Equals(o) <==> o == Some(this)
    {
      o.Some? && fields == o.value.fields
    }
  }

  type FieldChain = c: CtsFieldChain | c.Valid() witness CtsFieldChain([CtsField(Ident("", None), 0, true)])

  /** newRootInstance(rootType): the one-field chain whose head is a node
      with the nameless identifier of `rootType` and modifiers 0. */
  function NewRootInstance(rootType: Option<TypeName>): (r: Result<FieldChain>)
    ensures rootType.None? <==> r == Err(NullPointer)
    ensures r.Ok? ==> && r.value.IsRoot()
                      && r.value.Head() == CtsField(Ident(rootType.value, None), 0, true)
  {
    match NewInstance(rootType)
    case Err(e) => Err(e)
    case Ok(id) =>
      var c := CtsFieldChain([Fields.NewNode(Some(id), 0).value]);
      assert c.Valid();
      Ok(c)
  }

  /** On valid chains the root is exactly the chain whose head has no name,
      and the root head is a node. */
  lemma RootIsNamelessHead(c: FieldChain)
    ensures c.IsRoot() <==> c.Head().identifier.name.None?
    ensures c.IsRoot() ==> c.Head().node
  {
  }

  /** The leaf path of a valid chain: every field after the root has a name. */
  lemma NamesAfterRoot(c: FieldChain, i: int)
    requires 1 <= i < |c.fields|
    ensures c.fields[i].identifier.name.Some?
  {
  }

  /** The chains of CtsFieldChainTest: a bad head is reported with the right
      exception, and allFields lists the path. */
  lemma ChainExamples()
    ensures var root := NewRootInstance(Some("String")).value;
            && root.Chain(CtsField(Ident("Object", None), 123, false)) == Err(IllegalArgument("cannot append a head without a name"))
            && var leaf := root.Chain(CtsField(Ident("Object", Some("leaf")), 0, false)).value;
            && leaf.Chain(CtsField(Ident("Object", Some("NAME")), 123, true)) == Err(IllegalState("cannot append to this chain"))
            && !leaf.IsRoot() && root.IsRoot()
  {
  }
}
