/** The content bridge of a universal popup (universal_pip_content_bridge.js):
    it runs beside the page script, turns the page's minimise request into a
    runtime message and posts the runtime's answer back to the page. */
module ContentBridge {
  import opened Wrappers
  import opened Messages
  import Background

  /** A `message` event on the window: whether `event.source` is the window
      itself, and `event.data`. */
  datatype WindowEvent = WindowEvent(fromSelf: bool, data: PageMessage)

  /** How the runtime's callback sees a sent message: `lastError` with its
      message, or the background's reply (`None` when there is none). */
  datatype Delivery = LastError(message: string) | Delivered(reply: Option<Response>)

  /** The listener: the runtime message type it sends for one window event, if
      any. Only a minimise request posted by the page itself, with a runtime
      to send it to, leads to a runtime message. */
  function RequestFor(event: WindowEvent, hasRuntime: bool): (r: Option<string>)
    ensures r.Some? <==> event.fromSelf && PageMessageType(event.data) == Some("CHILL_MINIMIZE_POPUP") && hasRuntime
    ensures r.Some? ==> r == Some(MinimizeWindowType)
  {
    if !event.fromSelf then None
    else if PageMessageType(event.data) != Some("CHILL_MINIMIZE_POPUP") then None
    else if !hasRuntime then None
    else Some(MinimizeWindowType)
  }

  /** The `CHILL_MINIMIZE_RESULT` posted back once the runtime answers:
      a failure exactly when `lastError` is set, carrying its message. */
  function ResultFor(delivery: Delivery): (r: PageMessage)
    ensures r.MinimizeResult?
    ensures r.success <==> delivery.Delivered?
    ensures delivery.LastError? ==> r.error == Some(delivery.message)
    ensures r.success ==> r.error.None?
  {
    match delivery
    case LastError(m) => MinimizeResult(false, Some(m))
    case Delivered(_) => MinimizeResult(true, None)
  }

  /** Everything the bridge posts to the page for a run of window events: the
      results of the requests it forwarded, in order; `deliveries(i)` is how
      the runtime answered the request for event `i`. */
  function Results(events: seq<WindowEvent>, hasRuntime: bool, deliveries: nat -> Delivery): (r: seq<PageMessage>)
    ensures |r| <= |events|
    ensures forall m :: m in r ==> m.MinimizeResult?
    decreases |events|
  {
    if |events| == 0 then []
    else
      var last := |events| - 1;
      Results(events[..last], hasRuntime, deliveries)
      + (if RequestFor(events[last], hasRuntime).Some? then [ResultFor(deliveries(last))] else [])
  }

  /** The number of events the bridge forwards to the runtime. */
  function Forwarded(events: seq<WindowEvent>, hasRuntime: bool): nat
    decreases |events|
  {
    if |events| == 0 then 0
    else
      var last := |events| - 1;
      Forwarded(events[..last], hasRuntime) + (if RequestFor(events[last], hasRuntime).Some? then 1 else 0)
  }

  /** The page sees the bridge's messages in this order: the ready
      announcement, posted once when the listener is attached, then the
      results. */
  function Posted(events: seq<WindowEvent>, hasRuntime: bool, deliveries: nat -> Delivery): (r: seq<PageMessage>)
    ensures |r| >= 1 && r[0] == BridgeReady
  {
    [BridgeReady] + Results(events, hasRuntime, deliveries)
  }

  /** One result per forwarded request, and none at all without a runtime. */
  lemma {:induction false} OneResultPerRequest(events: seq<WindowEvent>, hasRuntime: bool, deliveries: nat -> Delivery)
    ensures |Results(events, hasRuntime, deliveries)| == Forwarded(events, hasRuntime)
    ensures !hasRuntime ==> Results(events, hasRuntime, deliveries) == []
    decreases |events|
  {
    if |events| > 0 {
      OneResultPerRequest(events[..|events| - 1], hasRuntime, deliveries);
    }
  }

  /** The ready announcement is posted exactly once, whatever follows. */
  lemma ReadyAnnouncedOnce(events: seq<WindowEvent>, hasRuntime: bool, deliveries: nat -> Delivery)
    ensures multiset(Posted(events, hasRuntime, deliveries))[BridgeReady] == 1
  {
    var rest := Results(events, hasRuntime, deliveries);
    assert BridgeReady !in rest;
    assert multiset(rest)[BridgeReady] == 0;
    assert Posted(events, hasRuntime, deliveries) == [BridgeReady] + rest;
  }

  /** The result ignores the reply's own `ok`: when the background answers
      that minimising failed, the page is still told it succeeded. */
  lemma ReplyOkIgnored(error: Option<string>)
    ensures ResultFor(Delivered(Some(Response(false, error)))) == ResultFor(Delivered(Some(Response(true, None))))
    ensures ResultFor(Delivered(Some(Response(false, error)))).success
  {
  }

  /** The only runtime message the bridge sends is one the background's
      dispatcher answers. */
  lemma ForwardedRequestIsHandled(event: WindowEvent, hasRuntime: bool)
    ensures RequestFor(event, hasRuntime).Some? ==> Background.Handled(RequestFor(event, hasRuntime))
  {
  }
}
