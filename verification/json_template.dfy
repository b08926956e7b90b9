/**
 * The JsonGenerationStrategy of the JsonTemplate sample: a list of rows, a
 * stack of closing rows and an indentation level, updated in place by the
 * observer callbacks, that renders a traversal as a JSON skeleton with one
 * `"name": "Type"` row per leaf and one nested object per node.
 */
module JsonTemplate {
  import opened Results
  import opened Strings
  import opened Identifiers
  import opened Fields
  import opened Chains
  import opened Traces

  /** The three fields: `Unset` while rows and stack are still null. */
  datatype JsonState = Unset | Json(rows: seq<string>, stack: seq<string>, level: nat)

  /** indent(level, string): two spaces per level, then the string. */
  function Indent(level: nat, s: string): string {
    Repeat(Repeat(" ", 2), level) + s
  }

  /** indent(level, s) is 2 * level spaces followed by s. */
  lemma IndentIsSpaces(level: nat, s: string)
    ensures Indent(level, s) == Repeat(" ", 2 * level) + s
    ensures |Indent(level, s)| == 2 * level + |s|
    ensures forall i :: 0 <= i < 2 * level ==> Indent(level, s)[i] == ' '
  {
    assert Repeat(" ", 2) == "  ";
    RepeatDoubleSpace(level);
    if level > 0 {
      RepeatSpace(2 * level, 0);
    }
    forall i | 0 <= i < 2 * level
      ensures Indent(level, s)[i] == ' '
    {
      RepeatSpace(2 * level, i);
    }
  }

  function Quoted(s: string): string {
    "\"" + s + "\""
  }

  /** The row a node opens with, `"name": {`. */
  function OpenRow(level: nat, name: string): string {
    Indent(level, Quoted(name) + ": {")
  }

  /** The row a leaf adds, `"name": "Type",`. */
  function LeafRow(level: nat, name: string, typ: TypeName): string {
    Indent(level, Quoted(name) + ": " + Quoted(typ) + ",")
  }

  /** The last row with one trailing comma removed, if it has one. */
  function StripLast(rows: seq<string>): seq<string>
    requires rows != []
  {
    var last := rows[|rows| - 1];
    if EndsWith(last, ",") then rows[..|rows| - 1] + [last[..|last| - 1]] else rows
  }

  /** Only the last row changes, and only by losing one trailing comma. */
  lemma StripLastChangesLastRow(rows: seq<string>)
    requires rows != []
    ensures var r := StripLast(rows);
            && |r| == |rows| && r[..|r| - 1] == rows[..|rows| - 1]
            && (EndsWith(rows[|rows| - 1], ",") ==> r[|r| - 1] + "," == rows[|rows| - 1])
            && (!EndsWith(rows[|rows| - 1], ",") ==> r == rows)
  {
    var last := rows[|rows| - 1];
    if EndsWith(last, ",") {
      assert last[..|last| - 1] + "," == last;
    }
  }

  /** The change one callback makes; an exception is an error result and
      leaves the fields as they were. */
  function Step(s: JsonState, e: Event): Result<JsonState> {
    match e
    case Enter(c) =>
      if c.IsRoot() then Ok(Json(["{"], ["}"], 1))
      else if c.Head().identifier.name.None? then Err(NoSuchElement)
      else if s.Unset? then Err(NullPointer)
      else Ok(Json(s.rows + [OpenRow(s.level, c.Head().identifier.name.value)],
                   [Indent(s.level, "}")] + s.stack, s.level + 1))
    case Consume(c) =>
      if c.Head().identifier.name.None? then Err(NoSuchElement)
      else if s.Unset? then Err(NullPointer)
      else Ok(Json(s.rows + [LeafRow(s.level, c.Head().identifier.name.value, c.Head().identifier.typ)],
                   s.stack, s.level))
    case Leave(c) =>
      if s.Unset? then Err(NullPointer)
      else if s.stack == [] then Ok(s)
      else if s.rows == [] then Err(IndexOutOfBounds)
      else Ok(Json(StripLast(s.rows) + [s.stack[0]], s.stack[1..], s.level))
  }

  /** The callbacks of a trace in order, stopping at the first exception. */
  function Run(s: JsonState, tr: seq<Event>): Result<JsonState>
    decreases |tr|
  {
    if tr == [] then Ok(s)
    else match Step(s, tr[0])
      case Err(e) => Err(e)
      case Ok(s') => Run(s', tr[1..])
  }

  /** generate(): the rows joined by newlines; null rows fail. */
  function Generated(s: JsonState): Result<string> {
    if s.Unset? then Err(NullPointer) else Ok(Join(s.rows, "\n"))
  }

  class JsonGenerationStrategy {
    var appendStack: Option<seq<string>>
    var rows: Option<seq<string>>
    var level: nat

    /** The fields are always assigned together. */
    predicate Valid()
      reads this
    {
      rows.Some? <==> appendStack.Some?
    }

    function State(): JsonState
      reads this
    {
      if rows.Some? && appendStack.Some? then Json(rows.value, appendStack.value, level) else Unset
    }

    constructor ()
      ensures Valid() && State() == Unset
    {
      appendStack := None;
      rows := None;
      level := 0;
    }

    method EnterNode(c: FieldChain) returns (o: Outcome)
      requires Valid()
      modifies this
      ensures Valid()
      ensures match Step(old(State()), Enter(c))
              case Ok(s') => o == Pass && State() == s'
              case Err(e) => o == Fail(e) && State() == old(State())
    {
      if c.IsRoot() {
        appendStack := Some(["}"]);
        rows := Some(["{"]);
        level := 1;
        return Pass;
      }
      var name := c.Head().identifier.name;
      if name.None? {
        return Fail(NoSuchElement);
      }
      if rows.None? {
        return Fail(NullPointer);
      }
      rows := Some(rows.value + [OpenRow(level, name.value)]);
      appendStack := Some([Indent(level, "}")] + appendStack.value);
      level := level + 1;
      return Pass;
    }

    method ConsumeLeaf(c: FieldChain) returns (o: Outcome)
      requires Valid()
      modifies this
      ensures Valid()
      ensures match Step(old(State()), Consume(c))
              case Ok(s') => o == Pass && State() == s'
              case Err(e) => o == Fail(e) && State() == old(State())
    {
      var head := c.Head().identifier;
      if head.name.None? {
        return Fail(NoSuchElement);
      }
      if rows.None? {
        return Fail(NullPointer);
      }
      rows := Some(rows.value + [LeafRow(level, head.name.value, head.typ)]);
      return Pass;
    }

    method LeaveNode(c: FieldChain) returns (o: Outcome)
      requires Valid()
      modifies this
      ensures Valid()
      ensures match Step(old(State()), Leave(c))
              case Ok(s') => o == Pass && State() == s'
              case Err(e) => o == Fail(e) && State() == old(State())
    {
      if appendStack.None? {
        return Fail(NullPointer);
      }
      if appendStack.value != [] {
        var rs := rows.value;
        if rs == [] {
          return Fail(IndexOutOfBounds);
        }
        var lastRow := rs[|rs| - 1];
        if EndsWith(lastRow, ",") {
          rs := rs[..|rs| - 1];
          rs := rs + [lastRow[..|lastRow| - 1]];
        }
        rows := Some(rs + [appendStack.value[0]]);
        appendStack := Some(appendStack.value[1..]);
      }
      return Pass;
    }

    method Generate() returns (r: Result<string>)
      requires Valid()
      ensures r == Generated(State())
    {
      if rows.None? {
        return Err(NullPointer);
      }
      return Ok(Join(rows.value, "\n"));
    }

    /** The callbacks a traversal makes, in trace order, up to the first
        exception. */
    method Traverse(tr: seq<Event>) returns (o: Outcome)
      requires Valid()
      modifies this
      ensures Valid()
      ensures match Run(old(State()), tr)
              case Ok(s') => o == Pass && State() == s'
              case Err(e) => o == Fail(e)
    {
      var i := 0;
      while i < |tr|
        invariant 0 <= i <= |tr| && Valid()
        invariant Run(old(State()), tr) == Run(State(), tr[i..])
      {
        ghost var before := State();
        var step: Outcome;
        match tr[i] {
          case Enter(c) => step := EnterNode(c);
          case Consume(c) => step := ConsumeLeaf(c);
          case Leave(c) => step := LeaveNode(c);
        }
        RunFirst(before, tr[i..]);
        if step.Fail? {
          return step;
        }
        assert tr[i..][1..] == tr[i + 1..];
        i := i + 1;
      }
      assert tr[i..] == [];
      return Pass;
    }
  }

  lemma RunFirst(s: JsonState, tr: seq<Event>)
    requires tr != []
    ensures Run(s, tr) == match Step(s, tr[0])
                          case Err(e) => Err(e)
                          case Ok(s') => Run(s', tr[1..])
  {
  }

  lemma {:induction false} RunConcat(s: JsonState, a: seq<Event>, b: seq<Event>)
    ensures Run(s, a + b)
         == match Run(s, a)
            case Err(e) => Err(e)
            case Ok(s') => Run(s', b)
    decreases |a|
  {
    if a == [] {
      assert a + b == b;
    } else {
      assert (a + b)[1..] == a[1..] + b;
      match Step(s, a[0])
      case Err(e) =>
      case Ok(s') => RunConcat(s', a[1..], b);
    }
  }

  /** Only entering the root lowers the level; leaving a node keeps it, so
      siblings after a nested object are indented one step deeper per
      node entered before them. */
  lemma StepLevel(s: JsonState, e: Event)
    requires s.Json? && Step(s, e).Ok? && !(e.Enter? && e.chain.IsRoot())
    ensures Step(s, e).value.Json?
    ensures Step(s, e).value.level == s.level + (if e.Enter? then 1 else 0)
  {
  }
  // Rendering a traversal below the root.

  /** A subtree strictly below the root: no chain in it is a root chain. */
  predicate Below(t: Tree)
    decreases t
  {
    !t.chain.IsRoot() && (t.Node? ==> AllBelow(t.children))
  }

  /** Every tree of `ts` is below the root. */
  predicate AllBelow(ts: seq<Tree>)
    decreases ts
  {
    ts == [] || (Below(ts[0]) && AllBelow(ts[1..]))
  }

  /** The children of a well-formed node are below the root. */
  lemma ChildrenBelow(t: Tree)
    requires WellFormed(t) && t.Node?
    ensures AllBelow(t.children)
  {
    ChildrenBelowFrom(t, 0);
  }

  lemma {:induction false} WellFormedBelow(t: Tree)
    requires WellFormed(t) && !t.chain.IsRoot()
    ensures Below(t)
    decreases t, 1, 0
  {
    if t.Node? {
      ChildrenBelowFrom(t, 0);
    }
  }

  lemma {:induction false} ChildrenBelowFrom(t: Tree, k: nat)
    requires WellFormed(t) && t.Node? && k <= |t.children|
    ensures AllBelow(t.children[k..])
    decreases t, 0, |t.children| - k
  {
    if k < |t.children| {
      ChildrenBelowRoot(t, k);
      WellFormedBelow(t.children[k]);
      ChildrenBelowFrom(t, k + 1);
      assert t.children[k..][1..] == t.children[k + 1..];
    }
  }

  /** The head's name; every chain below the root has one, so the empty
      fallback never shows in a rendering. */
  function NameOf(c: FieldChain): (r: string)
    ensures !c.IsRoot() ==> c.Head().identifier.name == Some(r)
  {
    match c.Head().identifier.name
    case Some(n) => n
    case None => ""
  }

  /** The number of nodes a subtree enters. */
  function Nodes(t: Tree): nat
    decreases t
  {
    match t
    case Leaf(_) => 0
    case Node(_, kids) => 1 + NodesOf(kids)
  }

  function NodesOf(ts: seq<Tree>): nat
    decreases ts
  {
    if ts == [] then 0 else Nodes(ts[0]) + NodesOf(ts[1..])
  }

  /** The rows a subtree below the root adds when its traversal starts at
      `level`: a leaf row, or an opening row, the children's rows with the
      trailing comma of the last one removed, and the closing row. */
  function Render(t: Tree, level: nat): (r: seq<string>)
    ensures r != []
    decreases t
  {
    match t
    case Leaf(c) => [LeafRow(level, NameOf(c), c.Head().identifier.typ)]
    case Node(c, kids) =>
      StripLast(RenderFrom([OpenRow(level, NameOf(c))], kids, level + 1)) + [Indent(level, "}")]
  }

  /** `rows` followed by the renderings of sibling subtrees; each sibling
      starts at the level the previous one left behind. */
  function RenderFrom(rows: seq<string>, ts: seq<Tree>, level: nat): (r: seq<string>)
    ensures |r| >= |rows|
    decreases ts
  {
    if ts == [] then rows
    else RenderFrom(rows + Render(ts[0], level), ts[1..], level + Nodes(ts[0]))
  }

  lemma AppendAssoc(a: seq<string>, b: seq<string>, c: seq<string>)
    ensures a + b + c == a + (b + c)
  {
  }

  /** Rows already present are kept in front of the siblings' renderings. */
  lemma {:induction false} RenderFromAppend(a: seq<string>, b: seq<string>, ts: seq<Tree>, level: nat)
    ensures RenderFrom(a + b, ts, level) == a + RenderFrom(b, ts, level)
    decreases ts
  {
    if ts != [] {
      AppendAssoc(a, b, Render(ts[0], level));
      RenderFromAppend(a, b + Render(ts[0], level), ts[1..], level + Nodes(ts[0]));
    }
  }

  lemma StripLastAppend(a: seq<string>, b: seq<string>)
    requires b != []
    ensures StripLast(a + b) == a + StripLast(b)
  {
    assert (a + b)[..|a + b| - 1] == a + b[..|b| - 1];
  }

  lemma RunCons(s: JsonState, e: Event, rest: seq<Event>, s': JsonState)
    requires Step(s, e) == Ok(s')
    ensures Run(s, [e] + rest) == Run(s', rest)
  {
    assert ([e] + rest)[1..] == rest;
  }

  lemma EnterBelow(rows: seq<string>, stack: seq<string>, level: nat, c: FieldChain)
    requires !c.IsRoot()
    ensures Step(Json(rows, stack, level), Enter(c))
         == Ok(Json(rows + [OpenRow(level, NameOf(c))], [Indent(level, "}")] + stack, level + 1))
  {
  }

  lemma ConsumeBelow(rows: seq<string>, stack: seq<string>, level: nat, c: FieldChain)
    requires !c.IsRoot()
    ensures Step(Json(rows, stack, level), Consume(c))
         == Ok(Json(rows + [LeafRow(level, NameOf(c), c.Head().identifier.typ)], stack, level))
  {
  }

  lemma LeaveOpen(rows: seq<string>, top: string, stack: seq<string>, level: nat, c: FieldChain)
    requires rows != []
    ensures Step(Json(rows, [top] + stack, level), Leave(c)) == Ok(Json(StripLast(rows) + [top], stack, level))
  {
    assert ([top] + stack)[1..] == stack;
  }

  /** The traversal of a subtree below the root appends its rendering,
      leaves the stack as it found it and raises the level by the number of
      nodes it entered. */
  lemma {:induction false} RunTree(rows: seq<string>, stack: seq<string>, level: nat, t: Tree)
    requires Below(t)
    ensures Run(Json(rows, stack, level), Events(t)) == Ok(Json(rows + Render(t, level), stack, level + Nodes(t)))
    decreases t, 3
  {
    if t.Leaf? {
      ConsumeBelow(rows, stack, level, t.chain);
      assert Events(t) == [Consume(t.chain)] + [];
      RunCons(Json(rows, stack, level), Consume(t.chain), [], Json(rows + Render(t, level), stack, level));
    } else {
      RunNode(rows, stack, level, t);
    }
  }

  lemma {:induction false} RunNode(rows: seq<string>, stack: seq<string>, level: nat, t: Tree)
    requires Below(t) && t.Node?
    ensures Run(Json(rows, stack, level), Events(t)) == Ok(Json(rows + Render(t, level), stack, level + Nodes(t)))
    decreases t, 2
  {
    NodeEvents(t);
    RunNodeEvents(rows, stack, level, t.chain, t.children, t);
    RenderNodeAfter(rows, level, t);
  }

  /** What a node's events and size are made of. */
  lemma NodeEvents(t: Tree)
    requires t.Node?
    ensures Events(t) == [Enter(t.chain)] + EventsOf(t.children) + [Leave(t.chain)]
    ensures Nodes(t) == 1 + NodesOf(t.children)
  {
  }

  /** A node's rows, written after the rows already present. */
  lemma RenderNodeAfter(rows: seq<string>, level: nat, t: Tree)
    requires t.Node?
    ensures rows + Render(t, level)
         == StripLast(RenderFrom(rows + [OpenRow(level, NameOf(t.chain))], t.children, level + 1))
              + [Indent(level, "}")]
  {
    var open := [OpenRow(level, NameOf(t.chain))];
    var inner := RenderFrom(open, t.children, level + 1);
    RenderFromAppend(rows, open, t.children, level + 1);
    StripLastAppend(rows, inner);
    AppendAssoc(rows, StripLast(inner), [Indent(level, "}")]);
  }

  /** Entering a node, running its children's events and leaving it. */
  lemma {:induction false} RunNodeEvents(rows: seq<string>, stack: seq<string>, level: nat,
                                         c: FieldChain, kids: seq<Tree>, t: Tree)
    requires t.Node? && c == t.chain && kids == t.children && !c.IsRoot() && AllBelow(kids)
    ensures Run(Json(rows, stack, level), [Enter(c)] + EventsOf(kids) + [Leave(c)])
         == Ok(Json(StripLast(RenderFrom(rows + [OpenRow(level, NameOf(c))], kids, level + 1))
                      + [Indent(level, "}")],
                    stack, level + 1 + NodesOf(kids)))
    decreases t, 1
  {
    var top := Indent(level, "}");
    var inner := RenderFrom(rows + [OpenRow(level, NameOf(c))], kids, level + 1);
    RunEnterChildren(rows, stack, level, c, kids, t);
    LeaveOpen(inner, top, stack, level + 1 + NodesOf(kids), c);
    RunThenStep(Json(rows, stack, level), [Enter(c)] + EventsOf(kids), Leave(c),
                Json(inner, [top] + stack, level + 1 + NodesOf(kids)),
                Json(StripLast(inner) + [top], stack, level + 1 + NodesOf(kids)));
  }

  /** Entering a node and running its children's events. */
  lemma {:induction false} RunEnterChildren(rows: seq<string>, stack: seq<string>, level: nat,
                                            c: FieldChain, kids: seq<Tree>, t: Tree)
    requires t.Node? && c == t.chain && kids == t.children && !c.IsRoot() && AllBelow(kids)
    ensures Run(Json(rows, stack, level), [Enter(c)] + EventsOf(kids))
         == Ok(Json(RenderFrom(rows + [OpenRow(level, NameOf(c))], kids, level + 1),
                    [Indent(level, "}")] + stack, level + 1 + NodesOf(kids)))
    decreases t, 0
  {
    var top := Indent(level, "}");
    var open := rows + [OpenRow(level, NameOf(c))];
    EnterBelow(rows, stack, level, c);
    RunForest(open, [top] + stack, level + 1, kids);
    RunCons(Json(rows, stack, level), Enter(c), EventsOf(kids), Json(open, [top] + stack, level + 1));
  }

  /** Running one stretch of events and then one more event. */
  lemma RunThenStep(s0: JsonState, a: seq<Event>, b: Event, s1: JsonState, s2: JsonState)
    requires Run(s0, a) == Ok(s1) && Step(s1, b) == Ok(s2)
    ensures Run(s0, a + [b]) == Ok(s2)
  {
    RunConcat(s0, a, [b]);
    assert [b][1..] == [];
  }

  /** The traversal of sibling subtrees appends their renderings in order. */
  lemma {:induction false} RunForest(rows: seq<string>, stack: seq<string>, level: nat, ts: seq<Tree>)
    requires AllBelow(ts)
    ensures Run(Json(rows, stack, level), EventsOf(ts))
         == Ok(Json(RenderFrom(rows, ts, level), stack, level + NodesOf(ts)))
    decreases ts, 1
  {
    if ts == [] {
      RunNoSiblings(Json(rows, stack, level), ts);
    } else {
      RunFirstSibling(rows, stack, level, ts[0], ts[1..], ts);
      assert EventsOf(ts) == Events(ts[0]) + EventsOf(ts[1..]);
    }
  }

  /** The first sibling's traversal, then the others'. */
  lemma {:induction false} RunFirstSibling(rows: seq<string>, stack: seq<string>, level: nat,
                                           t: Tree, rest: seq<Tree>, ts: seq<Tree>)
    requires ts != [] && t == ts[0] && rest == ts[1..] && Below(t) && AllBelow(rest)
    ensures Run(Json(rows, stack, level), Events(t) + EventsOf(rest))
         == Ok(Json(RenderFrom(rows + Render(t, level), rest, level + Nodes(t)),
                    stack, level + Nodes(t) + NodesOf(rest)))
    decreases ts, 0
  {
    var mid := level + Nodes(t);
    var first := rows + Render(t, level);
    RunTree(rows, stack, level, t);
    RunForest(first, stack, mid, rest);
    RunThen(Json(rows, stack, level), Events(t), EventsOf(rest), Json(first, stack, mid),
            Json(RenderFrom(first, rest, mid), stack, mid + NodesOf(rest)));
  }

  lemma RunNoSiblings(s: JsonState, ts: seq<Tree>)
    requires ts == []
    ensures Run(s, EventsOf(ts)) == Ok(s)
  {
  }

  /** Running one stretch of events and then the next. */
  lemma RunThen(s0: JsonState, a: seq<Event>, b: seq<Event>, s1: JsonState, s2: JsonState)
    requires Run(s0, a) == Ok(s1) && Run(s1, b) == Ok(s2)
    ensures Run(s0, a + b) == Ok(s2)
  {
    RunConcat(s0, a, b);
  }

  /** A whole traversal, from any state: it opens with "{", renders the
      root's children one level in, drops the comma after the last of them,
      closes with "}" and empties the stack. */
  lemma RunRoot(s: JsonState, t: Tree)
    requires RootTree(t)
    ensures Run(s, Events(t))
         == Ok(Json(StripLast(RenderFrom(["{"], t.children, 1)) + ["}"], [], 1 + NodesOf(t.children)))
  {
    var rows := RenderFrom(["{"], t.children, 1);
    var n := 1 + NodesOf(t.children);
    NodeEvents(t);
    ChildrenBelow(t);
    EnterRoot(s, t.chain);
    RunForest(["{"], ["}"], 1, t.children);
    RunCons(s, Enter(t.chain), EventsOf(t.children), Json(["{"], ["}"], 1));
    LeaveOpen(rows, "}", [], n, t.chain);
    RunThenStep(s, [Enter(t.chain)] + EventsOf(t.children), Leave(t.chain),
                Json(rows, ["}"] + [], n), Json(StripLast(rows) + ["}"], [], n));
  }

  /** Entering the root starts the text afresh, whatever came before. */
  lemma EnterRoot(s: JsonState, c: FieldChain)
    requires c.IsRoot()
    ensures Step(s, Enter(c)) == Ok(Json(["{"], ["}"] + [], 1))
  {
    assert ["}"] + [] == ["}"];
  }

  /** One callback of a traversal after the root was entered: it succeeds,
      keeps at least one row, and pushes or pops exactly as the event enters
      or leaves a node. */
  lemma StepWeight(rows: seq<string>, stack: seq<string>, level: nat, e: Event)
    requires rows != [] && !(e.Enter? && e.chain.IsRoot())
    requires e.Consume? ==> !e.chain.IsRoot()
    requires e.Leave? ==> stack != []
    ensures Step(Json(rows, stack, level), e).Ok?
    ensures Step(Json(rows, stack, level), e).value.Json?
    ensures Step(Json(rows, stack, level), e).value.rows != []
    ensures |Step(Json(rows, stack, level), e).value.stack| == |stack| + Weight(e)
  {
    if e.Enter? || e.Consume? {
      assert e.chain.Head().identifier.name == Some(NameOf(e.chain));
    }
  }

  /** During a traversal the stack holds one closing row per node entered
      and not yet left: the root's "}" and one per open nested object. */
  lemma {:induction false} StackHeight(s: JsonState, t: Tree, k: nat)
    requires RootTree(t) && 1 <= k <= |Events(t)|
    ensures Run(s, Events(t)[..k]).Ok? && Run(s, Events(t)[..k]).value.Json?
    ensures Run(s, Events(t)[..k]).value.rows != []
    ensures |Run(s, Events(t)[..k]).value.stack| == Balance(Events(t)[..k])
    decreases k
  {
    var tr := Events(t);
    if k == 1 {
      assert tr[..1] == [Enter(t.chain)];
      assert Step(s, Enter(t.chain)) == Ok(Json(["{"], ["}"], 1));
      assert Run(s, tr[..1]) == Run(Json(["{"], ["}"], 1), []);
      assert tr[..1][1..] == [];
    } else {
      var p, e := tr[..k - 1], tr[k - 1];
      assert tr[..k] == p + [e];
      StackHeight(s, t, k - 1);
      LaterEvent(t, k);
      StackStep(s, p, e);
    }
  }

  /** One more callback after a prefix that keeps one closing row per open
      node keeps it too. */
  lemma StackStep(s: JsonState, p: seq<Event>, e: Event)
    requires Run(s, p).Ok? && Run(s, p).value.Json? && Run(s, p).value.rows != []
    requires |Run(s, p).value.stack| == Balance(p) >= 1
    requires e.Enter? ==> !e.chain.IsRoot()
    requires e.Consume? ==> !e.chain.IsRoot()
    ensures Run(s, p + [e]).Ok? && Run(s, p + [e]).value.Json? && Run(s, p + [e]).value.rows != []
    ensures |Run(s, p + [e]).value.stack| == Balance(p + [e])
  {
    var mid := Run(s, p).value;
    StepWeight(mid.rows, mid.stack, mid.level, e);
    RunConcat(s, p, [e]);
    assert [e][1..] == [];
    assert Run(mid, [e]) == Step(mid, e);
    BalanceConcat(p, [e]);
    assert Balance([e]) == Weight(e);
  }

  /** After its first event a traversal never enters or consumes the root,
      and before its k-th event at least one node is open. */
  lemma LaterEvent(t: Tree, k: nat)
    requires RootTree(t) && 2 <= k <= |Events(t)|
    ensures Balance(Events(t)[..k - 1]) >= 1
    ensures Events(t)[k - 1].Enter? ==> !Events(t)[k - 1].chain.IsRoot()
    ensures Events(t)[k - 1].Consume? ==> !Events(t)[k - 1].chain.IsRoot()
  {
    TraversalShape(t);
    var tr, e := Events(t), Events(t)[k - 1];
    if k - 1 < |tr| - 1 {
      var f := EventsOf(t.children);
      assert e == f[k - 2];
      assert !e.chain.IsRoot();
    } else {
      assert e == Leave(t.chain);
    }
  }
  // The sample's Movie class: a title, a length and a nested Rating node
  // holding a score and a comment.

  const MOVIE := CtsField(Ident("Movie", None), 0, true)
  const TITLE := CtsField(Ident("String", Some("title")), PRIVATE, false)
  const LENGTH := CtsField(Ident("int", Some("length")), PRIVATE, false)
  const RATING := CtsField(Ident("Rating", Some("rating")), PRIVATE, true)
  const SCORE := CtsField(Ident("int", Some("score")), PRIVATE, false)
  const COMMENT := CtsField(Ident("String", Some("comment")), PRIVATE, false)

  const TITLE_CHAIN := CtsFieldChain([MOVIE, TITLE])
  const LENGTH_CHAIN := CtsFieldChain([MOVIE, LENGTH])
  const RATING_CHAIN := CtsFieldChain([MOVIE, RATING])
  const SCORE_CHAIN := CtsFieldChain([MOVIE, RATING, SCORE])
  const COMMENT_CHAIN := CtsFieldChain([MOVIE, RATING, COMMENT])

  function MovieTree(): Tree {
    Node(CtsFieldChain([MOVIE]),
      [ Leaf(TITLE_CHAIN),
        Leaf(LENGTH_CHAIN),
        Node(RATING_CHAIN, [Leaf(SCORE_CHAIN), Leaf(COMMENT_CHAIN)]) ])
  }

  lemma RenderFromCons(rows: seq<string>, ts: seq<Tree>, level: nat)
    requires ts != []
    ensures RenderFrom(rows, ts, level) == RenderFrom(rows + Render(ts[0], level), ts[1..], level + Nodes(ts[0]))
  {
  }

  lemma RenderFromNil(rows: seq<string>, ts: seq<Tree>, level: nat)
    requires ts == []
    ensures RenderFrom(rows, ts, level) == rows
  {
  }

  /** A leaf row ends with the comma that a leave removes. */
  lemma LeafRowComma(level: nat, name: string, typ: TypeName)
    ensures var row := LeafRow(level, name, typ);
            EndsWith(row, ",") && row[..|row| - 1] == Indent(level, Quoted(name) + ": " + Quoted(typ))
  {
    var body := Quoted(name) + ": " + Quoted(typ);
    var row := LeafRow(level, name, typ);
    assert row == Indent(level, body) + ",";
    assert row[..|row| - 1] == Indent(level, body);
  }

  /** A node holding two leaves: its opening row, the two leaf rows one
      level deeper with the comma after the second removed, and its closing
      row. */
  lemma PairRendered(r: FieldChain, x: FieldChain, y: FieldChain, level: nat)
    ensures Render(Node(r, [Leaf(x), Leaf(y)]), level)
         == [OpenRow(level, NameOf(r)), LeafRow(level + 1, NameOf(x), x.Head().identifier.typ),
             Indent(level + 1, Quoted(NameOf(y)) + ": " + Quoted(y.Head().identifier.typ)), Indent(level, "}")]
    ensures Nodes(Node(r, [Leaf(x), Leaf(y)])) == 1
  {
    var open := OpenRow(level, NameOf(r));
    var rx := LeafRow(level + 1, NameOf(x), x.Head().identifier.typ);
    var ry := LeafRow(level + 1, NameOf(y), y.Head().identifier.typ);
    PairRows(open, x, y, level + 1);
    LeafRowComma(level + 1, NameOf(y), y.Head().identifier.typ);
    StripLastOfThree(open, rx, ry);
    assert NodesOf([Leaf(x), Leaf(y)][1..]) == 0;
  }

  lemma StripLastOfThree(a: string, b: string, c: string)
    requires EndsWith(c, ",")
    ensures StripLast([a, b, c]) == [a, b, c[..|c| - 1]]
  {
  }

  /** Two leaves rendered after a row. */
  lemma PairRows(open: string, x: FieldChain, y: FieldChain, level: nat)
    ensures RenderFrom([open], [Leaf(x), Leaf(y)], level)
         == [open, LeafRow(level, NameOf(x), x.Head().identifier.typ), LeafRow(level, NameOf(y), y.Head().identifier.typ)]
  {
    var kids := [Leaf(x), Leaf(y)];
    var rx := LeafRow(level, NameOf(x), x.Head().identifier.typ);
    var ry := LeafRow(level, NameOf(y), y.Head().identifier.typ);
    RenderFromCons([open], kids, level);
    assert [open] + Render(kids[0], level) == [open, rx];
    assert kids[1..] == [Leaf(y)];
    RenderFromCons([open, rx], kids[1..], level);
    assert [open, rx] + Render(kids[1..][0], level) == [open, rx, ry];
    RenderFromNil([open, rx, ry], kids[1..][1..], level);
  }

  /** Two leaves rendered after "{", followed by further siblings. */
  lemma TwoLeavesFirst(a: FieldChain, b: FieldChain, rest: seq<Tree>)
    ensures RenderFrom(["{"], [Leaf(a), Leaf(b)] + rest, 1)
         == RenderFrom(["{", LeafRow(1, NameOf(a), a.Head().identifier.typ),
                        LeafRow(1, NameOf(b), b.Head().identifier.typ)], rest, 1)
  {
    var ts := [Leaf(a), Leaf(b)] + rest;
    var ra := LeafRow(1, NameOf(a), a.Head().identifier.typ);
    var rb := LeafRow(1, NameOf(b), b.Head().identifier.typ);
    RenderFromCons(["{"], ts, 1);
    assert ["{"] + Render(ts[0], 1) == ["{", ra];
    assert ts[1..] == [Leaf(b)] + rest;
    RenderFromCons(["{", ra], ts[1..], 1);
    assert ["{", ra] + Render(ts[1..][0], 1) == ["{", ra, rb];
    assert ts[1..][1..] == rest;
  }

  /** The rows after a root holding two leaves and then a node with two
      leaves: "{" and then the children in field order. */
  lemma ShapeRendered(a: FieldChain, b: FieldChain, r: FieldChain, x: FieldChain, y: FieldChain)
    ensures RenderFrom(["{"], [Leaf(a), Leaf(b), Node(r, [Leaf(x), Leaf(y)])], 1)
         == ["{", LeafRow(1, NameOf(a), a.Head().identifier.typ), LeafRow(1, NameOf(b), b.Head().identifier.typ),
             OpenRow(1, NameOf(r)), LeafRow(2, NameOf(x), x.Head().identifier.typ),
             Indent(2, Quoted(NameOf(y)) + ": " + Quoted(y.Head().identifier.typ)), Indent(1, "}")]
  {
    var node := Node(r, [Leaf(x), Leaf(y)]);
    var lead := ["{", LeafRow(1, NameOf(a), a.Head().identifier.typ), LeafRow(1, NameOf(b), b.Head().identifier.typ)];
    assert [Leaf(a), Leaf(b), node] == [Leaf(a), Leaf(b)] + [node];
    TwoLeavesFirst(a, b, [node]);
    RenderFromCons(lead, [node], 1);
    PairRendered(r, x, y, 1);
    RenderFromNil(lead + Render(node, 1), [node][1..], 1 + Nodes(node));
  }

  /** The names and type names of the Movie fields. */
  lemma MovieNames()
    ensures NameOf(TITLE_CHAIN) == "title" && TITLE_CHAIN.Head().identifier.typ == "String"
    ensures NameOf(LENGTH_CHAIN) == "length" && LENGTH_CHAIN.Head().identifier.typ == "int"
    ensures NameOf(RATING_CHAIN) == "rating"
    ensures NameOf(SCORE_CHAIN) == "score" && SCORE_CHAIN.Head().identifier.typ == "int"
    ensures NameOf(COMMENT_CHAIN) == "comment" && COMMENT_CHAIN.Head().identifier.typ == "String"
  {
  }

  /** The rows after the root's children: "{" and then the children in
      field order. */
  lemma MovieRendered()
    ensures RenderFrom(["{"], MovieTree().children, 1)
         == ["{", LeafRow(1, "title", "String"), LeafRow(1, "length", "int"),
             OpenRow(1, "rating"), LeafRow(2, "score", "int"), Indent(2, Quoted("comment") + ": " + Quoted("String")),
             Indent(1, "}")]
  {
    ShapeRendered(TITLE_CHAIN, LENGTH_CHAIN, RATING_CHAIN, SCORE_CHAIN, COMMENT_CHAIN);
    MovieNames();
  }

  lemma IndentOne(x: string)
    ensures Indent(1, x) == "  " + x
  {
    assert Repeat(" ", 2) == "  ";
    assert Repeat("  ", 1) == "  ";
  }

  lemma IndentTwo(x: string)
    ensures Indent(2, x) == "    " + x
  {
    assert Repeat(" ", 2) == "  ";
    assert Repeat("  ", 2) == "    ";
  }

  /** A leaf row with the quotes written out. */
  lemma LeafRowText(level: nat, name: string, typ: TypeName)
    ensures LeafRow(level, name, typ) == Indent(level, "\"" + name + "\": \"" + typ + "\",")
  {
    assert Quoted(name) + ": " + Quoted(typ) + "," == "\"" + name + "\": \"" + typ + "\",";
  }

  lemma TitleText()
    ensures "  " + ("\"" + "title" + "\": \"" + "String" + "\",") == "  \"title\": \"String\","
  {
  }

  lemma TitleRow()
    ensures LeafRow(1, "title", "String") == "  \"title\": \"String\","
  {
    LeafRowText(1, "title", "String");
    IndentOne("\"" + "title" + "\": \"" + "String" + "\",");
    TitleText();
  }

  lemma LengthText()
    ensures "  " + ("\"" + "length" + "\": \"" + "int" + "\",") == "  \"length\": \"int\","
  {
  }

  lemma LengthRow()
    ensures LeafRow(1, "length", "int") == "  \"length\": \"int\","
  {
    LeafRowText(1, "length", "int");
    IndentOne("\"" + "length" + "\": \"" + "int" + "\",");
    LengthText();
  }

  lemma RatingText()
    ensures Quoted("rating") + ": {" == "\"rating\": {"
  {
  }

  lemma RatingRowTexts()
    ensures OpenRow(1, "rating") == "  \"rating\": {"
    ensures Indent(1, "}") == "  }"
  {
    RatingText();
    IndentOne("\"rating\": {");
    IndentOne("}");
  }

  lemma ScoreText()
    ensures "    " + ("\"" + "score" + "\": \"" + "int" + "\",") == "    \"score\": \"int\","
  {
  }

  lemma ScoreRow()
    ensures LeafRow(2, "score", "int") == "    \"score\": \"int\","
  {
    LeafRowText(2, "score", "int");
    IndentTwo("\"" + "score" + "\": \"" + "int" + "\",");
    ScoreText();
  }

  lemma CommentText()
    ensures Quoted("comment") + ": " + Quoted("String") == "\"comment\": \"String\""
  {
  }

  lemma CommentRow()
    ensures Indent(2, Quoted("comment") + ": " + Quoted("String")) == "    \"comment\": \"String\""
  {
    CommentText();
    IndentTwo("\"comment\": \"String\"");
  }

  lemma MovieShape()
    ensures RootTree(MovieTree())
    ensures NodesOf(MovieTree().children) == 1
  {
    var k := MovieTree().children;
    var r := k[2].children;
    assert NodesOf(r) == 0 by {
      assert r[1..][1..] == [];
      assert NodesOf(r[1..]) == 0;
    }
    assert Nodes(k[2]) == 1;
    assert NodesOf(k[1..][1..]) == 1 by {
      assert k[1..][1..] == [k[2]];
      assert [k[2]][1..] == [];
    }
    assert NodesOf(k[1..]) == 1;
  }

  /** The rows left after the traversal of Movie. */
  lemma MovieRows(s: JsonState)
    ensures Run(s, Events(MovieTree()))
         == Ok(Json([ "{", LeafRow(1, "title", "String"), LeafRow(1, "length", "int"),
                      OpenRow(1, "rating"), LeafRow(2, "score", "int"),
                      Indent(2, Quoted("comment") + ": " + Quoted("String")), Indent(1, "}"), "}" ], [], 2))
  {
    var t := MovieTree();
    MovieShape();
    RunRoot(s, t);
    MovieRendered();
    RatingRowTexts();
    var rows := RenderFrom(["{"], t.children, 1);
    assert rows[|rows| - 1] == "  }";
    assert StripLast(rows) == rows;
    Closed(rows, "}");
  }

  lemma Closed(rows: seq<string>, last: string)
    requires |rows| == 7
    ensures rows + [last] == [rows[0], rows[1], rows[2], rows[3], rows[4], rows[5], rows[6], last]
  {
  }

  /** Generating after the traversal of Movie yields the sample's text, one
      row per line. */
  lemma MovieGenerates(s: JsonState)
    ensures Run(s, Events(MovieTree())).Ok?
    ensures Generated(Run(s, Events(MovieTree())).value)
         == Ok(Join([ "{",
                      "  \"title\": \"String\",",
                      "  \"length\": \"int\",",
                      "  \"rating\": {",
                      "    \"score\": \"int\",",
                      "    \"comment\": \"String\"",
                      "  }",
                      "}" ], "\n"))
  {
    MovieRows(s);
    TitleRow();
    LengthRow();
    RatingRowTexts();
    ScoreRow();
    CommentRow();
  }
}
