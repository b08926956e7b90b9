/**
 * se.ludvigwesterdahl.lib.cts.blockers.MaxDepthBlocker, the older depth
 * counter: like LoopBlocker it counts every node entered after the blocking
 * point and only resets, never counts back, when a node is left.
 */
module OldMaxDepth {
  import opened Results
  import opened Identifiers
  import opened Fields
  import opened Chains
  import opened Traces
  import opened Blockers

  datatype DepthState = DepthState(nextLevel: int, counting: bool)

  /** The change one callback makes. Entering a node whose head has no name
      (the root) resets; entering another node turns counting on when it
      matches, and while counting every entered node decrements nextLevel.
      Leaving a matching node resets; nothing else changes the state. */
  function Step(point: Ident, continueLevels: int, s: DepthState, e: Event): DepthState {
    match e
    case Enter(c) =>
      if c.Head().identifier.name.None? then DepthState(continueLevels, false)
      else
        var counting := s.counting || HeadMatches(point, c);
        DepthState(if counting then s.nextLevel - 1 else s.nextLevel, counting)
    case Consume(_) => s
    case Leave(c) => if HeadMatches(point, c) then DepthState(continueLevels, false) else s
  }

  function Run(point: Ident, continueLevels: int, s: DepthState, tr: seq<Event>): DepthState
    decreases |tr|
  {
    if tr == [] then s else Run(point, continueLevels, Step(point, continueLevels, s, tr[0]), tr[1..])
  }

  /** block(chain): leaf heads pass; node heads are blocked once nextLevel
      is negative, whether or not they match. */
  predicate Blocks(s: DepthState, c: FieldChain) {
    !c.IsLeaf() && s.nextLevel < 0
  }

  class MaxDepthBlocker {
    const blockingPoint: Ident
    const continueLevels: int
    var nextLevel: int
    var counting: bool

    constructor (blockingPoint: Ident, continueLevels: int)
      ensures this.blockingPoint == blockingPoint && this.continueLevels == continueLevels
      ensures State() == DepthState(0, false)
    {
      this.blockingPoint := blockingPoint;
      this.continueLevels := continueLevels;
      nextLevel := 0;
      counting := false;
    }

    function State(): DepthState
      reads this
    {
      DepthState(nextLevel, counting)
    }

    /** Leaves are never blocked, whatever the depth; nodes are blocked
        exactly once nextLevel is negative, matching or not. */
    predicate Block(c: FieldChain)
      reads this
      ensures Block(c) ==> c.Head().node
      ensures nextLevel >= 0 ==> !Block(c)
      ensures c.Head().node && nextLevel < 0 ==> Block(c)
    {
      Blocks(State(), c)
    }

    method Reset()
      modifies this
      ensures State() == DepthState(continueLevels, false)
    {
      counting := false;
      nextLevel := continueLevels;
    }

    method EnterNode(c: FieldChain)
      modifies this
      ensures State() == Step(blockingPoint, continueLevels, old(State()), Enter(c))
    {
      var node := c.Head();
      if node.identifier.name.None? {
        Reset();
        return;
      }
      if HeadMatches(blockingPoint, c) {
        counting := true;
      }
      if counting {
        nextLevel := nextLevel - 1;
      }
    }

    method ConsumeLeaf(c: FieldChain)
      ensures State() == Step(blockingPoint, continueLevels, State(), Consume(c))
    {
    }

    method LeaveNode(c: FieldChain)
      modifies this
      ensures State() == Step(blockingPoint, continueLevels, old(State()), Leave(c))
    {
      if HeadMatches(blockingPoint, c) {
        Reset();
      }
    }
  }

  /** newInstance(blockingPoint, continueLevels). */
  method NewInstance(blockingPoint: Option<Ident>, continueLevels: int) returns (r: Result<MaxDepthBlocker>)
    ensures blockingPoint.None? ==> r == Err(NullPointer)
    ensures blockingPoint.Some? && continueLevels < 0 ==> r == Err(IllegalArgument("continueLevels cannot be negative"))
    ensures blockingPoint.Some? && continueLevels >= 0 ==>
              && r.Ok? && fresh(r.value)
              && r.value.blockingPoint == blockingPoint.value && r.value.continueLevels == continueLevels
              && r.value.State() == DepthState(0, false)
  {
    if blockingPoint.None? {
      return Err(NullPointer);
    }
    if continueLevels < 0 {
      return Err(IllegalArgument("continueLevels cannot be negative"));
    }
    var b := new MaxDepthBlocker(blockingPoint.value, continueLevels);
    return Ok(b);
  }

  /** stopAfter(node): newInstance(node, 0). */
  method StopAfter(node: Option<Ident>) returns (r: Result<MaxDepthBlocker>)
    ensures node.None? ==> r == Err(NullPointer)
    ensures node.Some? ==>
              && r.Ok? && fresh(r.value)
              && r.value.blockingPoint == node.value && r.value.continueLevels == 0
              && r.value.State() == DepthState(0, false)
  {
    r := NewInstance(node, 0);
  }

  /** On chains the nameless-head test is the root test, so entering the
      root resets, and leaving a node never raises nextLevel above where
      it was, except by a reset. */
  lemma ResetsAndLeaves(point: Ident, continueLevels: int, s: DepthState, c: FieldChain)
    ensures c.IsRoot() ==> Step(point, continueLevels, s, Enter(c)) == DepthState(continueLevels, false)
    ensures var s' := Step(point, continueLevels, s, Leave(c));
            s' == s || s' == DepthState(continueLevels, false)
  {
    RootIsNamelessHead(c);
  }

  /** Once counting, nextLevel drops by one for every entered node, also
      when nested nodes are left again: the old blocker limits the number
      of nodes entered below the blocking point, not their depth. */
  lemma {:induction false} CountingRun(point: Ident, continueLevels: int, s: DepthState, tr: seq<Event>)
    requires s.counting && Uninterrupted(point, tr)
    ensures Run(point, continueLevels, s, tr) == DepthState(s.nextLevel - Entered(tr), true)
    decreases |tr|
  {
    if tr != [] {
      RootIsNamelessHead(tr[0].chain);
      var s' := Step(point, continueLevels, s, tr[0]);
      assert s' == DepthState(s.nextLevel - (if tr[0].Enter? then 1 else 0), true);
      assert Uninterrupted(point, tr[1..]) by {
        forall i | 0 <= i < |tr[1..]|
          ensures !(tr[1..][i].Enter? && tr[1..][i].chain.IsRoot())
          ensures !(tr[1..][i].Leave? && point.Matches(Some(tr[1..][i].chain.Head().identifier)))
        {
          assert tr[1..][i] == tr[i + 1];
        }
      }
      CountingRun(point, continueLevels, s', tr[1..]);
    }
  }
}
