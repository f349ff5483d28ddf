/**
 * The loop-back tunnel session (TMTunnelProviderSession.swift,
 * `TMTunnelProviderSessionMock`): a status that starting and stopping set, and
 * a message send that, only while connected and only for bytes that decode to
 * a container, dispatches the container to the session's own router and
 * forwards every reply unchanged to the caller's response handler.
 */
module ProviderSession {
  import opened Wrappers
  import opened Container
  import opened VpnStatus
  import opened Router

  /** Identifies the caller's response handler closure. */
  type ResponderId = nat

  /**
   * The completion the session hands to its router: a closure that passes
   * each reply on to the caller's response handler, if the caller gave one.
   */
  datatype Forwarder = Forward(target: Option<ResponderId>)

  /**
   * What a handler replies when called with some content: the payloads it
   * passes to its completion, in order. Handlers are outside the model, so
   * this is an input.
   */
  type Replies = (HandlerId, Option<Bytes>) -> seq<Option<Bytes>>

  /** The status the base session class reports when a subclass does not override it. */
  const BaseSessionStatus: Status := Invalid

  /** The payloads that reach the caller's response handler during a dispatch. */
  function Delivered(trace: seq<Invocation<Forwarder>>, replies: Replies): seq<Option<Bytes>> {
    if trace == [] then []
    else
      var call := trace[0];
      (if call.completion.target.Some? then replies(call.handler, call.content) else [])
      + Delivered(trace[1..], replies)
  }

  /** Every delivered payload is, unchanged, a reply of one of the handlers called. */
  lemma {:induction false} DeliveredAreReplies(trace: seq<Invocation<Forwarder>>, replies: Replies, k: nat)
    requires k < |Delivered(trace, replies)|
    ensures exists i :: 0 <= i < |trace| && Delivered(trace, replies)[k] in replies(trace[i].handler, trace[i].content)
  {
    var call := trace[0];
    var first := if call.completion.target.Some? then replies(call.handler, call.content) else [];
    var out := Delivered(trace, replies);
    assert out == first + Delivered(trace[1..], replies);
    if k < |first| {
      assert out[k] in replies(trace[0].handler, trace[0].content);
    } else {
      DeliveredAreReplies(trace[1..], replies, k - |first|);
      var i :| 0 <= i < |trace[1..]| && out[k] in replies(trace[1..][i].handler, trace[1..][i].content);
      assert trace[1..][i] == trace[i + 1];
    }
  }

  /** With no response handler nothing is delivered, whatever the handlers reply. */
  lemma {:induction false} NothingDeliveredWithoutTarget(trace: seq<Invocation<Forwarder>>, replies: Replies)
    requires forall i :: 0 <= i < |trace| ==> trace[i].completion == Forward(None)
    ensures Delivered(trace, replies) == []
  {
    if trace != [] {
      NothingDeliveredWithoutTarget(trace[1..], replies);
    }
  }

  /** When each handler called replies exactly once, the caller receives those replies in call order. */
  lemma {:induction false} OneReplyEach(trace: seq<Invocation<Forwarder>>, replies: Replies, target: ResponderId)
    requires forall i :: 0 <= i < |trace| ==> trace[i].completion == Forward(Some(target))
    requires forall i :: 0 <= i < |trace| ==> |replies(trace[i].handler, trace[i].content)| == 1
    ensures |Delivered(trace, replies)| == |trace|
    ensures forall i :: 0 <= i < |trace| ==> Delivered(trace, replies)[i] == replies(trace[i].handler, trace[i].content)[0]
  {
    if trace != [] {
      OneReplyEach(trace[1..], replies, target);
    }
  }

  class TunnelProviderSessionMock {
    const mockMessageRouter: MessageRouter
    var statusToReturn: Status

    constructor ()
      ensures statusToReturn == Invalid && statusToReturn == BaseSessionStatus
      ensures fresh(mockMessageRouter) && mockMessageRouter.handlerMap == map[]
    {
      mockMessageRouter := new MessageRouter();
      statusToReturn := Invalid;
    }

    /** `status`: the last value assigned to `statusToReturn`. */
    function ReportedStatus(): Status
      reads this
    {
      statusToReturn
    }

    method StopTunnel()
      modifies this`statusToReturn
      ensures ReportedStatus() == Disconnected
    {
      statusToReturn := Disconnected;
    }

    /** Connects at once: no `connecting` state is visible, and no error is raised. */
    method StartTunnel()
      modifies this`statusToReturn
      ensures ReportedStatus() == Connected
    {
      statusToReturn := Connected;
    }

    /**
     * Sends `message` to the session. Nothing happens unless the session is
     * connected and `message` decodes to a container; then the container is
     * dispatched to the session's router with a forwarding completion, and
     * the replies of the handlers called reach `responseHandler` unchanged.
     * The status and the handler table are not changed.
     */
    method SendProviderMessage(message: Bytes, responseHandler: Option<ResponderId>, replies: Replies)
      returns (trace: seq<Invocation<Forwarder>>, responses: seq<Option<Bytes>>)
      ensures statusToReturn != Connected ==> trace == [] && responses == []
      ensures Decode(message).None? ==> trace == [] && responses == []
      ensures statusToReturn == Connected && Decode(message).Some? ==>
        var c := Decode(message).value;
        var hs := Lookup(mockMessageRouter.handlerMap, c.metatype);
        && |trace| == |hs|
        && (forall i :: 0 <= i < |trace| ==> trace[i] == Invocation(hs[i], c.content, Forward(responseHandler)))
        && responses == Delivered(trace, replies)
    {
      if statusToReturn != Connected {
        return [], [];
      }
      var container := Decode(message);
      if container.None? {
        return [], [];
      }
      var _, calls := mockMessageRouter.Handle(container.value, Forward(responseHandler));
      trace := calls;
      responses := Delivered(trace, replies);
    }
  }

  /** A reply of the only handler reaches the caller while connected; nothing does before starting or after stopping. */
  method LoopBackScenario(t: MessageType, reply: Bytes)
  {
    var session := new TunnelProviderSessionMock();
    session.mockMessageRouter.AddHandler(7, t);
    var request := Encode(Make(t, None));
    DecodeEncode(Make(t, None));
    var replies: Replies := (h: HandlerId, content: Option<Bytes>) => [Some(reply)];

    var trace, responses := session.SendProviderMessage(request, Some(1), replies);
    assert trace == [] && responses == [];

    session.StartTunnel();
    trace, responses := session.SendProviderMessage(request, Some(1), replies);
    assert trace == [Invocation(7, None, Forward(Some(1)))];
    assert responses == [Some(reply)];

    trace, responses := session.SendProviderMessage([], Some(1), replies);
    assert trace == [] && responses == [];

    session.StopTunnel();
    trace, responses := session.SendProviderMessage(request, Some(1), replies);
    assert responses == [];
  }
}
