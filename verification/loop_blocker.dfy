/**
 * se.ludvigwesterdahl.lib.cts.blockers.LoopBlocker: a counter machine driven
 * by the observer callbacks. The state is the pair (counter, counting); a
 * pure `Step` gives its change on one event, and the class methods are
 * proved against it.
 */
module LoopBlocking {
  import opened Results
  import opened Identifiers
  import opened Fields
  import opened Chains
  import opened Traces
  import opened Blockers

  datatype LoopState = LoopState(counter: int, counting: bool)

  /** The change one callback makes. Entering the root resets; entering
      another node turns counting on when it matches, and while counting
      every entered node decrements the counter. Leaving a matching node
      resets; leaves of other nodes and consumed leaves change nothing. */
  function Step(point: Ident, times: int, s: LoopState, e: Event): LoopState {
    match e
    case Enter(c) =>
      if c.IsRoot() then LoopState(times, false)
      else
        var counting := s.counting || HeadMatches(point, c);
        LoopState(if counting then s.counter - 1 else s.counter, counting)
    case Consume(_) => s
    case Leave(c) => if HeadMatches(point, c) then LoopState(times, false) else s
  }

  function Run(point: Ident, times: int, s: LoopState, tr: seq<Event>): LoopState
    decreases |tr|
  {
    if tr == [] then s else Run(point, times, Step(point, times, s, tr[0]), tr[1..])
  }

  /** block(chain): a matching head is blocked once the counter is negative. */
  predicate Blocks(point: Ident, s: LoopState, c: FieldChain) {
    HeadMatches(point, c) && s.counter < 0
  }

  class LoopBlocker {
    const blockingPoint: Ident
    const times: int
    var counter: int
    var counting: bool

    /** The private constructor; the counter fields start at Java's
        defaults. */
    constructor (blockingPoint: Ident, times: int)
      ensures this.blockingPoint == blockingPoint && this.times == times
      ensures State() == LoopState(0, false)
    {
      this.blockingPoint := blockingPoint;
      this.times := times;
      counter := 0;
      counting := false;
    }

    function State(): LoopState
      reads this
    {
      LoopState(counter, counting)
    }

    method Reset()
      modifies this
      ensures State() == LoopState(times, false)
    {
      counter := times;
      counting := false;
    }

    /** Only the blocking point is ever blocked, and only once the counter
        has dropped below zero. */
    predicate Block(c: FieldChain)
      reads this
      ensures Block(c) ==> HeadMatches(blockingPoint, c)
      ensures counter >= 0 ==> !Block(c)
      ensures HeadMatches(blockingPoint, c) && counter < 0 ==> Block(c)
    {
      Blocks(blockingPoint, State(), c)
    }

    method EnterNode(c: FieldChain)
      modifies this
      ensures State() == Step(blockingPoint, times, old(State()), Enter(c))
    {
      if c.IsRoot() {
        Reset();
        return;
      }
      if HeadMatches(blockingPoint, c) {
        counting := true;
      }
      if counting {
        counter := counter - 1;
      }
    }

    method ConsumeLeaf(c: FieldChain)
      ensures State() == Step(blockingPoint, times, State(), Consume(c))
    {
    }

    method LeaveNode(c: FieldChain)
      modifies this
      ensures State() == Step(blockingPoint, times, old(State()), Leave(c))
    {
      if HeadMatches(blockingPoint, c) {
        Reset();
      }
    }
  }

  datatype LoopResult = AsSimple(simple: SimpleBlocker) | AsLoop(loop: LoopBlocker)

  /** loop(blockingPoint, times): null and negative counts are refused;
      zero gives the SimpleBlocker that blocks every matching head. */
  method Loop(blockingPoint: Option<Ident>, times: int) returns (r: Result<LoopResult>)
    ensures blockingPoint.None? ==> r == Err(NullPointer)
    ensures blockingPoint.Some? && times < 0 ==> r == Err(IllegalArgument("times cannot be negative"))
    ensures blockingPoint.Some? && times == 0 ==>
              && r.Ok? && r.value.AsSimple?
              && forall c: FieldChain {:trigger r.value.simple.Block(c)} ::
                   r.value.simple.Block(c) <==> HeadMatches(blockingPoint.value, c)
    ensures blockingPoint.Some? && times > 0 ==>
              && r.Ok? && r.value.AsLoop? && fresh(r.value.loop)
              && r.value.loop.blockingPoint == blockingPoint.value && r.value.loop.times == times
              && r.value.loop.State() == LoopState(0, false)
  {
    if blockingPoint.None? {
      return Err(NullPointer);
    }
    if times < 0 {
      return Err(IllegalArgument("times cannot be negative"));
    }
    if times == 0 {
      return Ok(AsSimple(Block(None, blockingPoint).value));
    }
    var b := new LoopBlocker(blockingPoint.value, times);
    return Ok(AsLoop(b));
  }

  lemma {:induction false} RunConcat(point: Ident, times: int, s: LoopState, a: seq<Event>, b: seq<Event>)
    ensures Run(point, times, s, a + b) == Run(point, times, Run(point, times, s, a), b)
    decreases |a|
  {
    if a == [] {
      assert a + b == b;
    } else {
      assert (a + b)[1..] == a[1..] + b;
      RunConcat(point, times, Step(point, times, s, a[0]), a[1..], b);
    }
  }

  /** Right after the root is entered, with times >= 1, nothing is blocked. */
  lemma RootEnterUnblocks(point: Ident, times: int, s: LoopState, root: FieldChain, c: FieldChain)
    requires times >= 1 && root.IsRoot()
    ensures Step(point, times, s, Enter(root)) == LoopState(times, false)
    ensures !Blocks(point, Step(point, times, s, Enter(root)), c)
  {
  }

  /** Once counting, the counter drops by one for every entered node,
      matching or not, until the root is entered again or a matching node
      is left. */
  lemma {:induction false} CountingRun(point: Ident, times: int, s: LoopState, tr: seq<Event>)
    requires s.counting && Uninterrupted(point, tr)
    ensures Run(point, times, s, tr) == LoopState(s.counter - Entered(tr), true)
    decreases |tr|
  {
    if tr != [] {
      var s' := Step(point, times, s, tr[0]);
      assert s' == LoopState(s.counter - (if tr[0].Enter? then 1 else 0), true);
      assert Uninterrupted(point, tr[1..]) by {
        forall i | 0 <= i < |tr[1..]|
          ensures !(tr[1..][i].Enter? && tr[1..][i].chain.IsRoot())
          ensures !(tr[1..][i].Leave? && point.Matches(Some(tr[1..][i].chain.Head().identifier)))
        {
          assert tr[1..][i] == tr[i + 1];
        }
      }
      CountingRun(point, times, s', tr[1..]);
    }
  }

  /** The calls of LoopBlockerTest: after the root, each round checks node1
      (the blocking point), then enters node1 and its child node2 and
      consumes a leaf. The code blocks round i exactly when 2 * i > times. */
  method RepeatedEntries(times: int, withName: bool) returns (results: seq<bool>)
    requires times >= 1
    ensures |results| == times + 1
    ensures forall i :: 0 <= i < |results| ==> results[i] == (2 * i > times)
  {
    var root := NewRootInstance(Some("Object")).value;
    var node1 := root.Chain(CtsField(Ident("String", Some("string")), ACC_PRIVATE, true)).value;
    var node2 := node1.Chain(CtsField(Ident("Object", Some("object")), ACC_PRIVATE, true)).value;
    var leaf1 := node2.Chain(CtsField(Ident("Object", Some("object")), ACC_PRIVATE, true)).value;
    var point := if withName then Ident("String", Some("string")) else Ident("String", None);
    var blocker := new LoopBlocker(point, times);
    blocker.EnterNode(root);
    results := [];
    var i := 0;
    while i < times + 1
      invariant 0 <= i <= times + 1
      invariant |results| == i
      invariant forall j :: 0 <= j < i ==> results[j] == (2 * j > times)
      invariant blocker.blockingPoint == point && blocker.times == times
      invariant blocker.State() == LoopState(times - 2 * i, i > 0)
    {
      var blocked := blocker.Block(node1);
      blocker.EnterNode(node1);
      blocker.EnterNode(node2);
      blocker.ConsumeLeaf(leaf1);
      results := results + [blocked];
      i := i + 1;
    }
  }
}
