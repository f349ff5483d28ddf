/**
 * The handler table (MessageRouter.swift): for each type tag, the handlers
 * registered for it in registration order. Handlers are opaque ids; `Handle`
 * reports the calls it makes as a trace of invocations.
 */
module Router {
  import opened Wrappers
  import opened Container

  /** Identifies one registered handler closure. */
  type HandlerId = nat

  /** One call `handler(content, completion)` made while dispatching a message. */
  datatype Invocation<C> = Invocation(handler: HandlerId, content: Option<Bytes>, completion: C)

  /** The handlers listed under `tag`, or none when the tag has no entry. */
  function Lookup(table: map<string, seq<HandlerId>>, tag: string): (hs: seq<HandlerId>)
    ensures tag !in table ==> hs == []
  {
    if tag in table then table[tag] else []
  }

  class MessageRouter {
    var handlerMap: map<string, seq<HandlerId>>

    constructor ()
      ensures handlerMap == map[]
    {
      handlerMap := map[];
    }

    /** Appends `handler` to the list for the type's tag; every other tag keeps its list. */
    method AddHandler(handler: HandlerId, messageType: MessageType)
      modifies this
      ensures Lookup(handlerMap, Metatype(messageType)) == Lookup(old(handlerMap), Metatype(messageType)) + [handler]
      ensures forall tag :: tag != Metatype(messageType) ==> Lookup(handlerMap, tag) == Lookup(old(handlerMap), tag)
    {
      var tag := Metatype(messageType);
      var handlers := if tag in handlerMap then handlerMap[tag] else [];
      handlerMap := handlerMap[tag := handlers + [handler]];
    }

    /** The current list for the type's tag, in registration order; empty if never registered. */
    method Handlers(messageType: MessageType) returns (hs: seq<HandlerId>)
      ensures Metatype(messageType) !in handlerMap ==> hs == []
      ensures Metatype(messageType) in handlerMap ==> hs == handlerMap[Metatype(messageType)]
    {
      var tag := Metatype(messageType);
      hs := if tag in handlerMap then handlerMap[tag] else [];
    }

    /** Empties the list for the type's tag; every other tag keeps its list. */
    method RemoveHandlers(messageType: MessageType)
      modifies this
      ensures Lookup(handlerMap, Metatype(messageType)) == []
      ensures forall tag :: tag != Metatype(messageType) ==> Lookup(handlerMap, tag) == Lookup(old(handlerMap), tag)
    {
      handlerMap := handlerMap[Metatype(messageType) := []];
    }

    /**
     * Calls every handler registered for the message's tag once, in
     * registration order, each with the message's content and the given
     * completion, and returns how many it called. The table is not changed.
     */
    method Handle<C>(message: MessageContainer, completion: C) returns (count: nat, trace: seq<Invocation<C>>)
      ensures count == |Lookup(handlerMap, message.metatype)| == |trace|
      ensures forall i :: 0 <= i < |trace| ==>
        trace[i] == Invocation(Lookup(handlerMap, message.metatype)[i], message.content, completion)
    {
      if message.metatype !in handlerMap || handlerMap[message.metatype] == [] {
        return 0, [];
      }
      var handlers := handlerMap[message.metatype];
      trace := [];
      var i := 0;
      while i < |handlers|
        invariant 0 <= i <= |handlers| && |trace| == i
        invariant forall j :: 0 <= j < i ==> trace[j] == Invocation(handlers[j], message.content, completion)
      {
        trace := trace + [Invocation(handlers[i], message.content, completion)];
        i := i + 1;
      }
      count := |handlers|;
    }
  }

  /** Two handlers for one type both run, once each and in order; a handler for another type does not. */
  method TwoHandlersScenario(a: MessageType, b: MessageType, payload: Bytes)
    requires Metatype(a) != Metatype(b)
  {
    var router := new MessageRouter();
    router.AddHandler(1, a);
    router.AddHandler(2, a);
    router.AddHandler(3, b);
    var noCompletion: Option<nat> := None;
    var count, trace := router.Handle(Make(a, Some(payload)), noCompletion);
    assert count == 2;
    assert trace == [Invocation(1, Some(payload), noCompletion), Invocation(2, Some(payload), noCompletion)];
    router.RemoveHandlers(a);
    count, trace := router.Handle(Make(a, Some(payload)), noCompletion);
    assert count == 0 && trace == [];
  }
}
