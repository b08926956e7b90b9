/**
 * se.ludvigwesterdahl.lib.cts.CtsField: an identifier, the Java field
 * modifiers (an `int`, kept as 32 bits) and whether the field is a node.
 */
module Fields {
  import opened Results
  import opened Identifiers

  datatype CtsField = CtsField(identifier: Ident, modifiers: bv32, node: bool)
  {
    /** equals(Object): identifier, modifiers and node flag together. */
    predicate Equals(o: Option<CtsField>)
      ensures Equals(o) <==> o == Some(this)
    {
      && o.Some?
      && identifier == o.value.identifier
      && modifiers == o.value.modifiers
      && node == o.value.node
    }
  }

  /** newNode(identifier, modifiers). */
  function NewNode(identifier: Option<Ident>, modifiers: bv32): (r: Result<CtsField>)
    ensures identifier.None? <==> r == Err(NullPointer)
    ensures r.Ok? ==> r.value.identifier == identifier.value && r.value.modifiers == modifiers && r.value.node
  {
    if identifier.None? then Err(NullPointer) else Ok(CtsField(identifier.value, modifiers, true))
  }

  /** newLeaf(identifier, modifiers). */
  function NewLeaf(identifier: Option<Ident>, modifiers: bv32): (r: Result<CtsField>)
    ensures identifier.None? <==> r == Err(NullPointer)
    ensures r.Ok? ==> r.value.identifier == identifier.value && r.value.modifiers == modifiers && !r.value.node
  {
    if identifier.None? then Err(NullPointer) else Ok(CtsField(identifier.value, modifiers, false))
  }

  /** A node and a leaf built from the same arguments differ; equal
      arguments give equal fields. */
  lemma FactoriesAndEquality(id: Ident, id': Ident, m: bv32, m': bv32)
    ensures !NewNode(Some(id), m).value.Equals(Some(NewLeaf(Some(id), m).value))
    ensures NewNode(Some(id), m).value.Equals(Some(NewNode(Some(id'), m').value)) <==> id == id' && m == m'
    ensures NewLeaf(Some(id), m).value.Equals(Some(NewLeaf(Some(id'), m').value)) <==> id == id' && m == m'
  {
  }
}
