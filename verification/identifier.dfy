/**
 * se.ludvigwesterdahl.lib.cts.Identifier.
 *
 * The repository holds two shapes of this class. The file itself has the
 * older four-part key (node type, node name, leaf type, leaf name), modelled
 * by `Identifier`. Every caller (CtsField, CtsFieldChain, the blockers, the
 * strategies) uses the two-part key `(type, optional name)` with
 * `newInstance`, `getName`, `matches` and `stripName`, modelled by `Ident`.
 * A Java `Class<?>` is represented by its name.
 */
module Identifiers {
  import opened Results
  import opened Strings

  type TypeName = string

  /** The four-part identifier of Identifier.java. A node has no leaf type. */
  datatype Identifier = Identifier(
    nodeType: TypeName,
    nodeName: Option<string>,
    leafType: Option<TypeName>,
    leafName: Option<string>)
  {
    predicate IsNode() {
      leafType.None?
    }

    predicate IsLeaf() {
      !IsNode()
    }

    /** mapLeaf: keep the node part, replace the leaf part; refused on a node. */
    function MapLeaf(newLeafType: Option<TypeName>, newLeafName: Option<string>): (r: Result<Identifier>)
      ensures IsNode() ==> r == Err(IllegalState("cannot map a node to a leaf"))
      ensures r.Ok? ==> && r.value.nodeType == nodeType && r.value.nodeName == nodeName
                        && r.value.leafType == newLeafType && r.value.leafName == newLeafName
                        && r.value.IsLeaf()
      ensures (&& IsLeaf() && nodeName.Some? && newLeafType.Some? && newLeafName.Some?
               && !IsBlank(nodeName.value) && !IsBlank(newLeafName.value)) ==> r.Ok?
    {
      if IsNode() then Err(IllegalState("cannot map a node to a leaf"))
      else NewLeaf(Some(nodeType), nodeName, newLeafType, newLeafName)
    }

    /** equals(Object): component-wise comparison; `null` is never equal. */
    predicate Equals(o: Option<Identifier>)
      ensures Equals(o) <==> o == Some(this)
    {
      && o.Some?
      && nodeType == o.value.nodeType
      && nodeName == o.value.nodeName
      && leafType == o.value.leafType
      && leafName == o.value.leafName
    }
  }

  /** newLeaf: all four arguments must be non-null; then the node name and
      then the leaf name must not be blank. */
  function NewLeaf(nodeType: Option<TypeName>, nodeName: Option<string>,
                   leafType: Option<TypeName>, leafName: Option<string>): (r: Result<Identifier>)
    ensures (nodeType.None? || nodeName.None? || leafType.None? || leafName.None?) ==> r == Err(NullPointer)
    ensures r.Ok? <==> && nodeType.Some? && nodeName.Some? && leafType.Some? && leafName.Some?
                       && !IsBlank(nodeName.value) && !IsBlank(leafName.value)
    ensures (nodeType.Some? && nodeName.Some? && leafType.Some? && leafName.Some? && IsBlank(nodeName.value))
            ==> r == Err(IllegalArgument("nodeName cannot be blank"))
    ensures (&& nodeType.Some? && nodeName.Some? && leafType.Some? && leafName.Some?
             && !IsBlank(nodeName.value) && IsBlank(leafName.value))
            ==> r == Err(IllegalArgument("leafName cannot be blank"))
    ensures r.Ok? ==> r.value.IsLeaf() && r.value == Identifier(nodeType.value, nodeName, leafType, leafName)
  {
    if nodeType.None? || nodeName.None? || leafType.None? || leafName.None? then Err(NullPointer)
    else if IsBlank(nodeName.value) then Err(IllegalArgument("nodeName cannot be blank"))
    else if IsBlank(leafName.value) then Err(IllegalArgument("leafName cannot be blank"))
    else Ok(Identifier(nodeType.value, nodeName, leafType, leafName))
  }

  /** newNode(nodeType): an unnamed node. */
  function NewNode(nodeType: Option<TypeName>): (r: Result<Identifier>)
    ensures nodeType.None? <==> r == Err(NullPointer)
    ensures r.Ok? ==> && r.value.IsNode() && r.value.nodeType == nodeType.value
                      && r.value.nodeName.None? && r.value.leafName.None?
  {
    if nodeType.None? then Err(NullPointer)
    else Ok(Identifier(nodeType.value, None, None, None))
  }

  /** newNode(nodeType, nodeName): a named node; a blank name is refused. */
  function NewNamedNode(nodeType: Option<TypeName>, nodeName: Option<string>): (r: Result<Identifier>)
    ensures (nodeType.None? || nodeName.None?) ==> r == Err(NullPointer)
    ensures nodeType.Some? && nodeName.Some? && IsBlank(nodeName.value)
            ==> r == Err(IllegalArgument("nodeName cannot be blank"))
    ensures r.Ok? <==> nodeType.Some? && nodeName.Some? && !IsBlank(nodeName.value)
    ensures r.Ok? ==> && r.value.IsNode() && r.value.nodeType == nodeType.value
                      && r.value.nodeName == nodeName && r.value.leafName.None?
  {
    if nodeType.None? || nodeName.None? then Err(NullPointer)
    else if IsBlank(nodeName.value) then Err(IllegalArgument("nodeName cannot be blank"))
    else Ok(Identifier(nodeType.value, nodeName, None, None))
  }

  /** Every factory fixes the kind of what it builds: newLeaf gives a leaf,
      both newNode overloads give nodes, and mapLeaf refuses exactly the
      nodes (a leaf with bad arguments fails for another reason) and keeps
      a leaf a leaf. */
  lemma FactoryKinds(nodeType: Option<TypeName>, nodeName: Option<string>,
                     leafType: Option<TypeName>, leafName: Option<string>, id: Identifier)
    ensures NewLeaf(nodeType, nodeName, leafType, leafName).Ok? ==>
              && NewLeaf(nodeType, nodeName, leafType, leafName).value.IsLeaf()
              && !NewLeaf(nodeType, nodeName, leafType, leafName).value.IsNode()
    ensures NewNode(nodeType).Ok? ==> NewNode(nodeType).value.IsNode() && !NewNode(nodeType).value.IsLeaf()
    ensures NewNamedNode(nodeType, nodeName).Ok? ==>
              NewNamedNode(nodeType, nodeName).value.IsNode() && !NewNamedNode(nodeType, nodeName).value.IsLeaf()
    ensures id.MapLeaf(leafType, leafName) == Err(IllegalState("cannot map a node to a leaf")) <==> id.IsNode()
    ensures id.MapLeaf(leafType, leafName).Ok? ==> id.IsLeaf() && id.MapLeaf(leafType, leafName).value.IsLeaf()
  {
  }

  /** equals across two factory calls: two leaves (or two named nodes, or
      two unnamed nodes) are equal exactly when they were built from equal
      arguments, and a node never equals a leaf. */
  lemma EqualityAcrossFactories(a1: Option<TypeName>, a2: Option<string>, a3: Option<TypeName>, a4: Option<string>,
                                 b1: Option<TypeName>, b2: Option<string>, b3: Option<TypeName>, b4: Option<string>)
    ensures NewLeaf(a1, a2, a3, a4).Ok? && NewLeaf(b1, b2, b3, b4).Ok? ==>
              (NewLeaf(a1, a2, a3, a4).value.Equals(Some(NewLeaf(b1, b2, b3, b4).value))
               <==> a1 == b1 && a2 == b2 && a3 == b3 && a4 == b4)
    ensures NewNamedNode(a1, a2).Ok? && NewNamedNode(b1, b2).Ok? ==>
              (NewNamedNode(a1, a2).value.Equals(Some(NewNamedNode(b1, b2).value)) <==> a1 == b1 && a2 == b2)
    ensures NewNode(a1).Ok? && NewNode(b1).Ok? ==>
              (NewNode(a1).value.Equals(Some(NewNode(b1).value)) <==> a1 == b1)
    ensures NewNode(a1).Ok? && NewLeaf(b1, b2, b3, b4).Ok? ==>
              !NewNode(a1).value.Equals(Some(NewLeaf(b1, b2, b3, b4).value))
  {
  }

  // ---------------------------------------------------------------------
  // The two-part identifier used by every caller.

  /** `(type, optional name)`; an absent name makes the identifier a
      wildcard over names for `Matches`. */
  datatype Ident = Ident(typ: TypeName, name: Option<string>)
  {
    /** What the factories guarantee: a present name is not blank. */
    predicate Valid() {
      name.Some? ==> !IsBlank(name.value)
    }

    /** matches: same type, and the names agree unless either is absent;
        never matches `null`. */
    predicate Matches(other: Option<Ident>)
      ensures Matches(other) ==> other.Some? && other.value.typ == typ
      ensures other == Some(this) ==> Matches(other)
      ensures other.Some? && (name.None? || other.value.name.None?) ==> (Matches(other) <==> other.value.typ == typ)
      ensures other.Some? && name.Some? && other.value.name.Some? ==>
                (Matches(other) <==> other.value == this)
    {
      && other.Some?
      && typ == other.value.typ
      && (name.None? || other.value.name.None? || name == other.value.name)
    }

    /** stripName: the same type without a name. */
    function StripName(): (r: Ident)
      ensures r.name.None? && r.typ == typ && r.Valid()
    {
      Ident(typ, None)
    }
  }

  /** newInstance(type). */
  function NewInstance(typ: Option<TypeName>): (r: Result<Ident>)
    ensures typ.None? <==> r == Err(NullPointer)
    ensures r.Ok? ==> r.value.typ == typ.value && r.value.name.None? && r.value.Valid()
  {
    if typ.None? then Err(NullPointer) else Ok(Ident(typ.value, None))
  }

  /** newInstance(type, name): a blank name is refused. */
  function NewNamedInstance(typ: Option<TypeName>, name: Option<string>): (r: Result<Ident>)
    ensures (typ.None? || name.None?) <==> r == Err(NullPointer)
    ensures typ.Some? && name.Some? && IsBlank(name.value) ==> r == Err(IllegalArgument("name cannot be blank"))
    ensures r.Ok? <==> typ.Some? && name.Some? && !IsBlank(name.value)
    ensures r.Ok? ==> r.value.typ == typ.value && r.value.name == name && r.value.Valid()
  {
    if typ.None? || name.None? then Err(NullPointer)
    else if IsBlank(name.value) then Err(IllegalArgument("name cannot be blank"))
    else Ok(Ident(typ.value, name))
  }

  /** The relation `matches` as a table over the presence of names: equal
      types are required, and with a name absent on either side that is all. */
  lemma MatchesCharacterised(a: Ident, b: Ident)
    ensures a.Matches(Some(b)) <==> a.typ == b.typ && (a.name.None? || b.name.None? || a.name == b.name)
    ensures (a.name.None? || b.name.None?) ==> (a.Matches(Some(b)) <==> a.typ == b.typ)
    ensures a.Matches(Some(b)) <==> b.Matches(Some(a))
    ensures a.Matches(Some(a))
    ensures !a.Matches(None)
  {
  }

  /** stripName of a named identifier equals the identifier built without a name. */
  lemma StripNameIsNameless(t: TypeName, n: string)
    requires !IsBlank(n)
    ensures NewNamedInstance(Some(t), Some(n)).Ok?
    ensures NewNamedInstance(Some(t), Some(n)).value.StripName() == NewInstance(Some(t)).value
  {
  }

  /** The concrete cases of IdentifierTest. */
  lemma MatchesExamples()
    ensures Ident("Object", Some("name")).Matches(Some(Ident("Object", Some("name"))))
    ensures Ident("Object", Some("name")).Matches(Some(Ident("Object", None)))
    ensures Ident("Object", None).Matches(Some(Ident("Object", Some("name"))))
    ensures Ident("Object", None).Matches(Some(Ident("Object", None)))
    ensures !Ident("Object", Some("name")).Matches(Some(Ident("String", Some("name"))))
    ensures !Ident("Object", None).Matches(Some(Ident("String", Some("name"))))
    ensures !Ident("Object", Some("name")).Matches(Some(Ident("String", None)))
    ensures !Ident("Object", Some("name")).Matches(None)
    ensures NewNamedInstance(Some("Object"), Some("  ")) == Err(IllegalArgument("name cannot be blank"))
  {
    assert IsBlank("  ") by { assert IsWhitespace("  "[0]) && IsWhitespace("  "[1]); }
  }
}
