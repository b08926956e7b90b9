/**
 * se.ludvigwesterdahl.lib.cts.strategy.FlatGenerationStrategy: every consumed
 * leaf adds its path (the names below the root joined by the level marker)
 * and a path separator to a string buffer; leaving the root drops the last
 * separator and stores the buffer as the result.
 */
module FlatGeneration {
  import opened Results
  import opened Strings
  import opened Identifiers
  import opened Fields
  import opened Chains
  import opened Traces

  datatype FlatState = FlatState(builder: string, result: Option<string>)

  /** The names of the given fields, all of which have one. */
  function Names(fs: seq<CtsField>): (r: seq<string>)
    requires forall i :: 0 <= i < |fs| ==> fs[i].identifier.name.Some?
    ensures |r| == |fs|
    ensures forall i :: 0 <= i < |fs| ==> fs[i].identifier.name == Some(r[i])
  {
    if fs == [] then [] else [fs[0].identifier.name.value] + Names(fs[1..])
  }

  /** The names of the fields after the root; the chain invariant makes
      every one of them present. */
  function PathNames(c: FieldChain): seq<string> {
    Names(c.fields[1..])
  }

  /** createLeafString(chain): the names below the root joined by the level
      marker; empty for the root, the head's name one level down. */
  function LeafString(levelMarker: string, c: FieldChain): (r: string)
    ensures c.IsRoot() ==> r == ""
    ensures |c.fields| == 2 ==> r == c.Head().identifier.name.value
  {
    Join(PathNames(c), levelMarker)
  }

  /** Chaining a named field below a non-root chain extends its leaf string
      by the level marker and the new name. */
  lemma LeafStringExtends(levelMarker: string, c: FieldChain, f: CtsField)
    requires !c.IsRoot() && c.Chain(f).Ok?
    ensures LeafString(levelMarker, c.Chain(f).value)
         == LeafString(levelMarker, c) + levelMarker + f.identifier.name.value
  {
    var d := c.Chain(f).value;
    var ps := PathNames(c);
    var qs := PathNames(d);
    assert d.fields[1..] == c.fields[1..] + [f];
    assert |qs| == |ps| + 1;
    assert qs[..|ps|] == ps by {
      forall i | 0 <= i < |ps|
        ensures qs[i] == ps[i]
      {
        assert d.fields[1..][i] == c.fields[1..][i];
      }
    }
    assert qs[|ps|] == f.identifier.name.value by {
      assert d.fields[1..][|ps|] == f;
    }
  }

  /** The leaf strings of the given chains, in order. */
  function Paths(levelMarker: string, cs: seq<FieldChain>): (r: seq<string>)
    ensures |r| == |cs|
  {
    if cs == [] then [] else [LeafString(levelMarker, cs[0])] + Paths(levelMarker, cs[1..])
  }

  /** The change one callback makes; an exception is an error result. */
  function Step(sep: string, marker: string, s: FlatState, e: Event): Result<FlatState> {
    match e
    case Enter(c) =>
      if s.result.Some? && c.Head().identifier.name.None? then Ok(FlatState("", None)) else Ok(s)
    case Consume(c) =>
      Ok(FlatState(s.builder + LeafString(marker, c) + sep, s.result))
    case Leave(c) =>
      if s.result.None? && c.Head().identifier.name.None? then
        var index := LastIndexOf(s.builder, sep);
        if index < 0 then Err(IndexOutOfBounds)
        else Ok(FlatState(s.builder[..index], Some(s.builder[..index])))
      else Ok(s)
  }

  /** The callbacks of a trace in order, stopping at the first exception. */
  function Run(sep: string, marker: string, s: FlatState, tr: seq<Event>): Result<FlatState>
    decreases |tr|
  {
    if tr == [] then Ok(s)
    else match Step(sep, marker, s, tr[0])
      case Err(e) => Err(e)
      case Ok(s') => Run(sep, marker, s', tr[1..])
  }

  /** generate(). */
  function Generated(s: FlatState): string {
    if s.result.None? then "" else s.result.value
  }

  class FlatGenerationStrategy {
    const pathSeparator: string
    const levelMarker: string
    var builder: string
    var result: Option<string>

    constructor (pathSeparator: string, levelMarker: string)
      ensures this.pathSeparator == pathSeparator && this.levelMarker == levelMarker
      ensures State() == FlatState("", Some(""))
    {
      this.pathSeparator := pathSeparator;
      this.levelMarker := levelMarker;
      builder := "";
      result := Some("");
    }

    function State(): FlatState
      reads this
    {
      FlatState(builder, result)
    }

    method EnterNode(c: FieldChain)
      modifies this
      ensures Step(pathSeparator, levelMarker, old(State()), Enter(c)) == Ok(State())
    {
      if result.Some? && c.Head().identifier.name.None? {
        builder := "";
        result := None;
      }
    }

    method ConsumeLeaf(c: FieldChain)
      modifies this
      ensures Step(pathSeparator, levelMarker, old(State()), Consume(c)) == Ok(State())
    {
      var leafString := LeafString(levelMarker, c);
      builder := builder + leafString + pathSeparator;
    }

    /** Fails, as StringBuilder.delete does, when the separator is not in
        the buffer. */
    method LeaveNode(c: FieldChain) returns (o: Outcome)
      modifies this
      ensures match Step(pathSeparator, levelMarker, old(State()), Leave(c))
              case Ok(s') => o == Pass && State() == s'
              case Err(e) => o == Fail(e) && State() == old(State())
    {
      if result.None? && c.Head().identifier.name.None? {
        var index := LastIndexOf(builder, pathSeparator);
        if index < 0 {
          return Fail(IndexOutOfBounds);
        }
        builder := builder[..index];
        result := Some(builder);
      }
      return Pass;
    }

    method Generate() returns (s: string)
      ensures s == Generated(State())
    {
      if result.None? {
        return "";
      }
      return result.value;
    }

    /** The callbacks a traversal makes, in trace order, up to the first
        exception. */
    method Traverse(tr: seq<Event>) returns (o: Outcome)
      modifies this
      ensures match Run(pathSeparator, levelMarker, old(State()), tr)
              case Ok(s') => o == Pass && State() == s'
              case Err(e) => o == Fail(e)
    {
      var i := 0;
      while i < |tr|
        invariant 0 <= i <= |tr|
        invariant Run(pathSeparator, levelMarker, old(State()), tr)
               == Run(pathSeparator, levelMarker, State(), tr[i..])
      {
        assert tr[i..][1..] == tr[i + 1..];
        match tr[i] {
          case Enter(c) => EnterNode(c);
          case Consume(c) => ConsumeLeaf(c);
          case Leave(c) =>
            var left := LeaveNode(c);
            if left.Fail? {
              return left;
            }
        }
        i := i + 1;
      }
      assert tr[i..] == [];
      return Pass;
    }
  }

  /** FlatGenerationStrategy.Builder: "," and "/" by default; null is refused. */
  class Builder {
    var pathSeparator: string
    var levelMarker: string

    constructor ()
      ensures pathSeparator == "," && levelMarker == "/"
    {
      pathSeparator := ",";
      levelMarker := "/";
    }

    method WithPathSeparator(sep: Option<string>) returns (o: Outcome)
      modifies this
      ensures o == (if sep.None? then Fail(NullPointer) else Pass)
      ensures o.Fail? ==> unchanged(this)
      ensures o.Pass? ==> pathSeparator == sep.value && levelMarker == old(levelMarker)
    {
      if sep.None? {
        return Fail(NullPointer);
      }
      pathSeparator := sep.value;
      return Pass;
    }

    method WithLevelMarker(marker: Option<string>) returns (o: Outcome)
      modifies this
      ensures o == (if marker.None? then Fail(NullPointer) else Pass)
      ensures o.Fail? ==> unchanged(this)
      ensures o.Pass? ==> levelMarker == marker.value && pathSeparator == old(pathSeparator)
    {
      if marker.None? {
        return Fail(NullPointer);
      }
      levelMarker := marker.value;
      return Pass;
    }

    method Build() returns (g: FlatGenerationStrategy)
      ensures fresh(g) && g.pathSeparator == pathSeparator && g.levelMarker == levelMarker
      ensures g.State() == FlatState("", Some(""))
    {
      g := new FlatGenerationStrategy(pathSeparator, levelMarker);
    }
  }

  lemma {:induction false} RunConcat(sep: string, marker: string, s: FlatState, a: seq<Event>, b: seq<Event>)
    ensures Run(sep, marker, s, a + b)
         == match Run(sep, marker, s, a)
            case Err(e) => Err(e)
            case Ok(s') => Run(sep, marker, s', b)
    decreases |a|
  {
    if a == [] {
      assert a + b == b;
    } else {
      assert (a + b)[1..] == a[1..] + b;
      match Step(sep, marker, s, a[0])
      case Err(e) =>
      case Ok(s') => RunConcat(sep, marker, s', a[1..], b);
    }
  }

  /** Once a traversal is under way, a callback about a chain other than the
      root never fails, and only consumeLeaf changes the buffer. */
  lemma StepBelowRoot(sep: string, marker: string, s: FlatState, e: Event)
    requires s.result.None? && !e.chain.IsRoot()
    ensures Step(sep, marker, s, e)
         == Ok(if e.Consume? then FlatState(s.builder + LeafString(marker, e.chain) + sep, None) else s)
  {
    RootIsNamelessHead(e.chain);
  }

  /** The leaf strings of a trace's consumed chains, split at its first event. */
  lemma PathsOfConsumed(marker: string, tr: seq<Event>)
    requires tr != []
    ensures Paths(marker, Consumed(tr))
         == (if tr[0].Consume? then [LeafString(marker, tr[0].chain)] else []) + Paths(marker, Consumed(tr[1..]))
  {
    if tr[0].Consume? {
      var cs := Consumed(tr);
      assert cs == [tr[0].chain] + Consumed(tr[1..]);
      assert cs[1..] == Consumed(tr[1..]);
    }
  }

  /** Below the root, once a traversal is under way, nothing fails and the
      buffer gains each consumed leaf's path followed by the separator. */
  lemma {:induction false} BelowRootRun(sep: string, marker: string, s: FlatState, tr: seq<Event>)
    requires s.result.None? && NoRootEvents(tr)
    ensures Run(sep, marker, s, tr)
         == Ok(FlatState(s.builder + Terminated(Paths(marker, Consumed(tr)), sep), None))
    decreases |tr|
  {
    if tr == [] {
      assert s.builder + "" == s.builder;
    } else {
      var e := tr[0];
      NoRootTail(tr);
      StepBelowRoot(sep, marker, s, e);
      PathsOfConsumed(marker, tr);
      var rest := Paths(marker, Consumed(tr[1..]));
      if e.Consume? {
        var leaf := LeafString(marker, e.chain);
        var s' := FlatState(s.builder + leaf + sep, None);
        BelowRootRun(sep, marker, s', tr[1..]);
        TerminatedAfter(s.builder, leaf, rest, sep);
      } else {
        BelowRootRun(sep, marker, s, tr[1..]);
        assert [] + rest == rest;
      }
    }
  }

  lemma NoRootTail(tr: seq<Event>)
    requires tr != [] && NoRootEvents(tr)
    ensures !tr[0].chain.IsRoot() && NoRootEvents(tr[1..])
  {
    forall i | 0 <= i < |tr[1..]|
      ensures !tr[1..][i].chain.IsRoot()
    {
      assert tr[1..][i] == tr[i + 1];
    }
  }

  lemma TerminatedAfter(b: string, leaf: string, rest: seq<string>, sep: string)
    ensures b + leaf + sep + Terminated(rest, sep) == b + Terminated([leaf] + rest, sep)
  {
    TerminatedCons(leaf, rest, sep);
  }

  /** A whole traversal from a fresh or finished strategy: with at least one
      leaf, the result is the leaf paths joined by the separator, in
      consumption order. With no leaf, leaving the root fails unless the
      separator is empty. */
  lemma GenerateTraversal(sep: string, marker: string, s: FlatState, t: Tree)
    requires RootTree(t) && s.result.Some?
    ensures var paths := Paths(marker, Consumed(Events(t)));
            && (paths != [] ==> Run(sep, marker, s, Events(t)) == Ok(FlatState(Join(paths, sep), Some(Join(paths, sep)))))
            && (paths == [] && sep != "" ==> Run(sep, marker, s, Events(t)) == Err(IndexOutOfBounds))
            && (paths == [] && sep == "" ==> Run(sep, marker, s, Events(t)) == Ok(FlatState("", Some(""))))
  {
    var f := EventsOf(t.children);
    RootParts(t);
    RunRootBody(sep, marker, s, t.chain, f);
    LeaveRoot(sep, marker, Paths(marker, Consumed(f)), t.chain);
  }

  /** A traversal is the root's enter, its children's events and the root's
      leave, and only the children's events can consume a leaf. */
  lemma RootParts(t: Tree)
    requires RootTree(t)
    ensures Events(t) == [Enter(t.chain)] + (EventsOf(t.children) + [Leave(t.chain)])
    ensures Consumed(Events(t)) == Consumed(EventsOf(t.children))
    ensures NoRootEvents(EventsOf(t.children)) && t.chain.IsRoot()
  {
    TraversalShape(t);
    var f := EventsOf(t.children);
    var enter, leave := Enter(t.chain), Leave(t.chain);
    ConsumedConcat([enter], f);
    ConsumedConcat([enter] + f, [leave]);
    assert Consumed([leave]) == [] && Consumed([enter]) == [];
  }

  /** Entering the root starts an empty buffer, the events below the root
      fill it, and what is left is the root's leave. */
  lemma RunRootBody(sep: string, marker: string, s: FlatState, c: FieldChain, f: seq<Event>)
    requires s.result.Some? && c.IsRoot() && NoRootEvents(f)
    ensures Run(sep, marker, s, [Enter(c)] + (f + [Leave(c)]))
         == Step(sep, marker, FlatState(Terminated(Paths(marker, Consumed(f)), sep), None), Leave(c))
  {
    RootIsNamelessHead(c);
    var start := FlatState("", None);
    var built := Terminated(Paths(marker, Consumed(f)), sep);
    assert Step(sep, marker, s, Enter(c)) == Ok(start);
    RunConcat(sep, marker, s, [Enter(c)], f + [Leave(c)]);
    RunConcat(sep, marker, start, f, [Leave(c)]);
    BelowRootRun(sep, marker, start, f);
    assert "" + built == built;
    assert Run(sep, marker, FlatState(built, None), [Leave(c)]) == Step(sep, marker, FlatState(built, None), Leave(c));
  }

  /** Leaving the root after the leaves: the buffer up to the last separator
      becomes the result, or there is no separator to find. */
  lemma LeaveRoot(sep: string, marker: string, paths: seq<string>, c: FieldChain)
    requires c.IsRoot()
    ensures var r := Step(sep, marker, FlatState(Terminated(paths, sep), None), Leave(c));
            && (paths != [] ==> r == Ok(FlatState(Join(paths, sep), Some(Join(paths, sep)))))
            && (paths == [] && sep != "" ==> r == Err(IndexOutOfBounds))
            && (paths == [] && sep == "" ==> r == Ok(FlatState("", Some(""))))
  {
    RootIsNamelessHead(c);
    var built := Terminated(paths, sep);
    if paths != [] {
      TerminatedIsJoinPlusSep(paths, sep);
      LastIndexOfAppended(Join(paths, sep), sep);
      assert built[..|Join(paths, sep)|] == Join(paths, sep);
    } else {
      assert built == "";
      if sep == "" {
        assert OccursAt("", "", 0);
      }
    }
  }

  /** The leaves SimpleStructureWithCode consumes, in order. */
  lemma SimpleStructureLeaves()
    ensures Consumed(Events(SimpleTree())) == [SimpleLeaf1(), SimpleLeaf2(), SimpleLeaf3()]
  {
    SimpleStructureTrace();
    ConsumedOfShape(SimpleRoot(), SimpleLeaf1(), SimpleNode2(), SimpleLeaf2(), SimpleLeaf3());
  }

  /** The leaves consumed by a traversal of a root holding a leaf and a node
      with two leaves. */
  lemma ConsumedOfShape(r: FieldChain, a: FieldChain, n: FieldChain, b: FieldChain, c: FieldChain)
    ensures Consumed([Enter(r), Consume(a), Enter(n), Consume(b), Consume(c), Leave(n), Leave(r)]) == [a, b, c]
  {
    var tail := [Leave(n), Leave(r)];
    assert Consumed(tail) == [] by {
      assert tail[1..][1..] == [];
    }
    assert Consumed([Consume(c)] + tail) == [c] by {
      assert ([Consume(c)] + tail)[1..] == tail;
    }
    assert Consumed([Consume(b), Consume(c)] + tail) == [b, c] by {
      assert ([Consume(b), Consume(c)] + tail)[1..] == [Consume(c)] + tail;
    }
    assert Consumed([Enter(n), Consume(b), Consume(c)] + tail) == [b, c] by {
      assert ([Enter(n), Consume(b), Consume(c)] + tail)[1..] == [Consume(b), Consume(c)] + tail;
    }
    var tr := [Enter(r), Consume(a), Enter(n), Consume(b), Consume(c), Leave(n), Leave(r)];
    assert tr[1..][1..] == [Enter(n), Consume(b), Consume(c)] + tail;
    assert tr[1..] == [Consume(a)] + tr[1..][1..];
  }

  /** The path of a leaf directly under the root is its own name. */
  lemma SimpleLeaf1Path()
    ensures LeafString("/", SimpleLeaf1()) == "field1"
  {
    assert SimpleLeaf1().fields[1..] == [FIELD1];
    assert PathNames(SimpleLeaf1()) == ["field1"];
  }

  /** The paths of the leaves inside `inner` start with "inner/". */
  lemma SimpleInnerPaths()
    ensures LeafString("/", SimpleLeaf2()) == "inner/field1Inner"
    ensures LeafString("/", SimpleLeaf3()) == "inner/field2Inner"
  {
    assert SimpleLeaf2().fields[1..] == [INNER, FIELD1_INNER];
    assert [INNER, FIELD1_INNER][1..] == [FIELD1_INNER];
    var n2 := PathNames(SimpleLeaf2());
    assert n2 == ["inner", "field1Inner"];
    assert n2[..1] == ["inner"];
    assert SimpleLeaf3().fields[1..] == [INNER, FIELD2_INNER];
    assert [INNER, FIELD2_INNER][1..] == [FIELD2_INNER];
    var n3 := PathNames(SimpleLeaf3());
    assert n3 == ["inner", "field2Inner"];
    assert n3[..1] == ["inner"];
  }

  lemma PathsOfThree(marker: string, a: FieldChain, b: FieldChain, c: FieldChain)
    ensures Paths(marker, [a, b, c]) == [LeafString(marker, a), LeafString(marker, b), LeafString(marker, c)]
  {
    assert [c][1..] == [];
    assert Paths(marker, [c]) == [LeafString(marker, c)];
    assert [b, c][1..] == [c];
    assert Paths(marker, [b, c]) == [LeafString(marker, b), LeafString(marker, c)];
    assert [a, b, c][1..] == [b, c];
  }

  /** The leaf strings of SimpleStructureWithCode with "/" as level marker. */
  lemma SimpleStructureLeafStrings()
    ensures Paths("/", Consumed(Events(SimpleTree()))) == ["field1", "inner/field1Inner", "inner/field2Inner"]
  {
    SimpleStructureLeaves();
    SimpleLeaf1Path();
    SimpleInnerPaths();
    PathsOfThree("/", SimpleLeaf1(), SimpleLeaf2(), SimpleLeaf3());
  }

  /** ... joined by ",". */
  lemma SimpleStructurePaths()
    ensures Join(Paths("/", Consumed(Events(SimpleTree()))), ",") == "field1,inner/field1Inner,inner/field2Inner"
  {
    var x, y, z := "field1", "inner/field1Inner", "inner/field2Inner";
    SimpleStructureLeafStrings();
    JoinThree(x, y, z, ",");
    ExpectedText();
  }

  lemma ExpectedText()
    ensures "field1" + "," + "inner/field1Inner" + "," + "inner/field2Inner" == "field1,inner/field1Inner,inner/field2Inner"
  {
    assert "field1" + "," == "field1,";
    assert "field1," + "inner/field1Inner" == "field1,inner/field1Inner";
    assert "field1,inner/field1Inner" + "," == "field1,inner/field1Inner,";
  }

  /** SimpleStructureWithCode with the default separators generates
      "field1,inner/field1Inner,inner/field2Inner". */
  lemma SimpleStructureGenerates()
    ensures Run(",", "/", FlatState("", Some("")), Events(SimpleTree()))
         == Ok(FlatState("field1,inner/field1Inner,inner/field2Inner", Some("field1,inner/field1Inner,inner/field2Inner")))
  {
    SimpleStructureTrace();
    SimpleStructureLeaves();
    SimpleStructurePaths();
    GenerateTraversal(",", "/", FlatState("", Some("")), SimpleTree());
  }
}
