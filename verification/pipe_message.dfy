/**
 * se.ludvigwesterdahl.lib.cts.pipe.PipeMessage: an immutable message built
 * by a mutable Builder whose setters refuse null.
 */
module Pipe {
  import opened Results
  import opened Identifiers

  datatype MessageType = NODE | LEAF

  /** The message; type and name stay null when the builder never set them. */
  datatype PipeMessage = PipeMessage(messageType: MessageType, typ: Option<TypeName>, name: Option<string>)

  class Builder {
    const messageType: MessageType
    var typ: Option<TypeName>
    var name: Option<string>

    constructor (messageType: MessageType)
      ensures this.messageType == messageType && typ == None && name == None
    {
      this.messageType := messageType;
      typ := None;
      name := None;
    }

    /** withType(type): null is refused; otherwise the last call wins. */
    method WithType(t: Option<TypeName>) returns (o: Outcome)
      modifies this
      ensures o == (if t.None? then Fail(NullPointer) else Pass)
      ensures o.Fail? ==> unchanged(this)
      ensures o.Pass? ==> typ == t && name == old(name)
    {
      if t.None? {
        return Fail(NullPointer);
      }
      typ := t;
      return Pass;
    }

    /** withName(name): null is refused; otherwise the last call wins. */
    method WithName(n: Option<string>) returns (o: Outcome)
      modifies this
      ensures o == (if n.None? then Fail(NullPointer) else Pass)
      ensures o.Fail? ==> unchanged(this)
      ensures o.Pass? ==> name == n && typ == old(typ)
    {
      if n.None? {
        return Fail(NullPointer);
      }
      name := n;
      return Pass;
    }

    /** build(): copies the three values unchanged. */
    method Build() returns (m: PipeMessage)
      ensures m.messageType == messageType && m.typ == typ && m.name == name
    {
      m := PipeMessage(messageType, typ, name);
    }
  }

  /** new Builder(messageType): a null message type is refused. */
  method NewBuilder(messageType: Option<MessageType>) returns (r: Result<Builder>)
    ensures messageType.None? <==> r == Err(NullPointer)
    ensures r.Ok? ==> && fresh(r.value) && r.value.messageType == messageType.value
                      && r.value.typ == None && r.value.name == None
  {
    if messageType.None? {
      return Err(NullPointer);
    }
    var b := new Builder(messageType.value);
    return Ok(b);
  }

  /** toBuilder(): a builder preset with the message's values; it fails with
      a NullPointerException when the type or the name is null. */
  method ToBuilder(m: PipeMessage) returns (r: Result<Builder>)
    ensures (m.typ.None? || m.name.None?) <==> r.Err?
    ensures r.Err? ==> r.error == NullPointer
    ensures r.Ok? ==> && fresh(r.value) && r.value.messageType == m.messageType
                      && r.value.typ == m.typ && r.value.name == m.name
  {
    var b := new Builder(m.messageType);
    var o := b.WithType(m.typ);
    if o.Fail? {
      return Err(o.error);
    }
    o := b.WithName(m.name);
    if o.Fail? {
      return Err(o.error);
    }
    return Ok(b);
  }

  /** `toBuilder().build()` reproduces a message whose type and name are
      set, and fails on any other. */
  method RoundTrip(m: PipeMessage) returns (r: Result<PipeMessage>)
    ensures r.Ok? <==> m.typ.Some? && m.name.Some?
    ensures r.Ok? ==> r.value == m
    ensures r.Err? ==> r.error == NullPointer
  {
    var b := ToBuilder(m);
    if b.Err? {
      return Err(b.error);
    }
    var built := b.value.Build();
    return Ok(built);
  }

  /** A builder used as the fluent API intends: any number of `withType`
      calls, then `withName`, then `build()`. The last type wins and a type
      never set stays null; a null name throws from `withName`, so nothing
      is built. */
  method BuildWith(messageType: MessageType, types: seq<TypeName>, name: Option<string>) returns (r: Result<PipeMessage>)
    ensures name.None? <==> r == Err(NullPointer)
    ensures r.Ok? ==> && r.value.messageType == messageType
                      && r.value.typ == (if types == [] then None else Some(types[|types| - 1]))
                      && r.value.name == name
  {
    var b := new Builder(messageType);
    var i := 0;
    while i < |types|
      invariant 0 <= i <= |types|
      invariant b.messageType == messageType && b.name == None
      invariant b.typ == (if i == 0 then None else Some(types[i - 1]))
    {
      var _ := b.WithType(Some(types[i]));
      i := i + 1;
    }
    var o := b.WithName(name);
    if o.Fail? {
      return Err(o.error);
    }
    var m := b.Build();
    return Ok(m);
  }
}
