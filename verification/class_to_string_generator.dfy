/**
 * se.ludvigwesterdahl.lib.cts.ClassToStringGenerator as it stands: a
 * configuration store of three mutable tables (the node set, the renaming
 * map and the embedding lists) updated in place by fluent methods, and a
 * `generate` that does not yet produce anything. Java's HashSet accepts
 * null, so the node set holds optional identifiers; embedding lists may
 * hold null destinations.
 */
module Generator {
  import opened Results
  import opened Identifiers

  type Embeddings = map<Ident, seq<Option<Ident>>>

  /** The list stored for `node`, or the empty list `computeIfAbsent` creates. */
  function ListOf(m: Embeddings, node: Ident): (r: seq<Option<Ident>>)
    ensures node !in m ==> r == []
    ensures node in m ==> r == m[node]
  {
    if node in m then m[node] else []
  }

  /** The table after `embed(node, toNode)`: `toNode` appended to node's
      list; every other key untouched. */
  function Embedded(m: Embeddings, node: Ident, toNode: Option<Ident>): (r: Embeddings)
    ensures r.Keys == m.Keys + {node}
    ensures r[node] == ListOf(m, node) + [toNode]
    ensures forall k :: k in m && k != node ==> r[k] == m[k]
  {
    m[node := ListOf(m, node) + [toNode]]
  }

  /** The table after `removeEmbeddings(node)`: only node's entry goes. */
  function Removed(m: Embeddings, node: Option<Ident>): (r: Embeddings)
    ensures node.None? ==> r == m
    ensures node.Some? ==> r.Keys == m.Keys - {node.value}
    ensures forall k :: k in r ==> k in m && r[k] == m[k]
  {
    if node.Some? then m - {node.value} else m
  }

  /** Embedding twice keeps both destinations, in call order. */
  lemma EmbedOrder(m: Embeddings, node: Ident, a: Option<Ident>, b: Option<Ident>)
    ensures Embedded(Embedded(m, node, a), node, b)[node] == ListOf(m, node) + [a, b]
  {
  }

  /** Removing after embedding forgets every embedding of that node, and the
      rest of the table is as if the embedding had never happened. */
  lemma RemoveUndoesEmbed(m: Embeddings, node: Ident, toNode: Option<Ident>)
    ensures Removed(Embedded(m, node, toNode), Some(node)) == Removed(m, Some(node))
  {
  }

  /** Removing an absent key changes nothing. */
  lemma RemoveAbsent(m: Embeddings, node: Option<Ident>)
    requires node.None? || node.value !in m
    ensures Removed(m, node) == m
  {
  }

  class ClassToStringGenerator {
    var nodes: set<Option<Ident>>
    var renaming: map<Ident, Ident>
    var embeddings: Embeddings

    /** from(rootNode): empty tables; the root type is not used. */
    constructor From(rootNode: Option<TypeName>)
      ensures nodes == {} && renaming == map[] && embeddings == map[]
    {
      nodes := {};
      renaming := map[];
      embeddings := map[];
    }

    /** addNode(node): set insertion, so adding twice is adding once. */
    method AddNode(node: Option<Ident>)
      modifies this
      ensures nodes == old(nodes) + {node}
      ensures renaming == old(renaming) && embeddings == old(embeddings)
    {
      nodes := nodes + {node};
    }

    /** rename(from, to): null is refused; the new mapping for `from`
        replaces any earlier one. */
    method Rename(from: Option<Ident>, to: Option<Ident>) returns (o: Outcome)
      modifies this
      ensures o == (if from.None? || to.None? then Fail(NullPointer) else Pass)
      ensures o.Fail? ==> unchanged(this)
      ensures o.Pass? ==> && renaming == old(renaming)[from.value := to.value]
                          && nodes == old(nodes) && embeddings == old(embeddings)
    {
      if from.None? || to.None? {
        return Fail(NullPointer);
      }
      renaming := renaming[from.value := to.value];
      return Pass;
    }

    /** embed(node, toNode): a null node is refused; a null destination is
        stored as given. */
    method EmbedInto(node: Option<Ident>, toNode: Option<Ident>) returns (o: Outcome)
      modifies this
      ensures o == (if node.None? then Fail(NullPointer) else Pass)
      ensures o.Fail? ==> unchanged(this)
      ensures o.Pass? ==> && embeddings == Embedded(old(embeddings), node.value, toNode)
                          && nodes == old(nodes) && renaming == old(renaming)
    {
      if node.None? {
        return Fail(NullPointer);
      }
      embeddings := Embedded(embeddings, node.value, toNode);
      return Pass;
    }

    /** embed(node): the same as embed(node, null). */
    method Embed(node: Option<Ident>) returns (o: Outcome)
      modifies this
      ensures o == (if node.None? then Fail(NullPointer) else Pass)
      ensures o.Fail? ==> unchanged(this)
      ensures o.Pass? ==> && embeddings == Embedded(old(embeddings), node.value, None)
                          && nodes == old(nodes) && renaming == old(renaming)
    {
      o := EmbedInto(node, None);
    }

    /** removeEmbeddings(node): drops node's entry, if any. */
    method RemoveEmbeddings(node: Option<Ident>)
      modifies this
      ensures embeddings == Removed(old(embeddings), node)
      ensures nodes == old(nodes) && renaming == old(renaming)
    {
      embeddings := Removed(embeddings, node);
    }

    /** generate(): the stub returns the empty string and changes nothing. */
    method Generate() returns (s: string)
      ensures s == ""
    {
      s := "";
    }
  }
}
