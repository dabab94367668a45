/**
 * What the proxy does when the origin exchange reports an event: the fixed
 * event-to-response table and the first-completion-wins response slot.
 */
module ExchangeOutcome {
  import opened CoapMessages

  /** The events a message observer receives for one outgoing request. */
  datatype Event =
    | OnResponse(response: Response)
    | OnReject
    | OnTimeout
    | OnCancel
    | OnSendError(cause: string)
    | OnContextEstablished

  /** Every event but the establishment of a security context ends the exchange. */
  predicate IsTerminal(e: Event)
  {
    !e.OnContextEstablished?
  }

  /** The response an event completes the caller's future with, if any. */
  function EventResponse(e: Event, getResponse: Response -> Response): (r: Option<Response>)
    ensures r.Some? <==> IsTerminal(e)
    ensures e.OnResponse? ==> r == Some(getResponse(e.response))
    ensures r.Some? && !e.OnResponse? ==>
      r.value.payload == [] && r.value.code.IsServerError() && r.value.code.IsWellFormed()
    ensures r.Some? && !e.OnResponse? ==> (r.value.code == GATEWAY_TIMEOUT <==> e.OnTimeout?)
    ensures r.Some? && !e.OnResponse? && !e.OnTimeout? ==> r.value.code == SERVICE_UNAVAILABLE
  {
    match e
    case OnResponse(resp) => Some(getResponse(resp))
    case OnReject => Some(NewResponse(SERVICE_UNAVAILABLE))
    case OnTimeout => Some(NewResponse(GATEWAY_TIMEOUT))
    case OnCancel => Some(NewResponse(SERVICE_UNAVAILABLE))
    case OnSendError(_) => Some(NewResponse(SERVICE_UNAVAILABLE))
    case OnContextEstablished => None
  }

  /** `future.complete(r)`: the first completion is kept, later ones are dropped. */
  function FirstWins(slot: Option<Response>, r: Response): (s: Option<Response>)
    ensures s.Some?
    ensures slot.Some? ==> s == slot
    ensures slot.None? ==> s == Some(r)
  {
    if slot.None? then Some(r) else slot
  }

  /** The slot after a sequence of events, and how many times the loaned manager was put back. */
  datatype Delivery = Delivery(slot: Option<Response>, releases: nat)

  /** The observer receiving `events` in order; each terminal event completes and releases. */
  function Deliver(slot: Option<Response>, events: seq<Event>, getResponse: Response -> Response): Delivery
    decreases |events|
  {
    if events == [] then Delivery(slot, 0)
    else
      var r := EventResponse(events[0], getResponse);
      var next := if r.Some? then FirstWins(slot, r.value) else slot;
      var rest := Deliver(next, events[1..], getResponse);
      Delivery(rest.slot, rest.releases + if r.Some? then 1 else 0)
  }

  /** The number of terminal events in `events`. */
  function TerminalCount(events: seq<Event>): nat
    decreases |events|
  {
    if events == [] then 0
    else TerminalCount(events[1..]) + if IsTerminal(events[0]) then 1 else 0
  }

  /** The response of the first terminal event, if there is one. */
  function FirstTerminalResponse(events: seq<Event>, getResponse: Response -> Response): Option<Response>
    decreases |events|
  {
    if events == [] then None
    else if IsTerminal(events[0]) then EventResponse(events[0], getResponse)
    else FirstTerminalResponse(events[1..], getResponse)
  }

  /** Every terminal event puts the manager back: once per terminal event, not once per forward. */
  lemma {:induction false} ReleasesCountTerminalEvents(slot: Option<Response>, events: seq<Event>, getResponse: Response -> Response)
    ensures Deliver(slot, events, getResponse).releases == TerminalCount(events)
    decreases |events|
  {
    if events != [] {
      var r := EventResponse(events[0], getResponse);
      var next := if r.Some? then FirstWins(slot, r.value) else slot;
      ReleasesCountTerminalEvents(next, events[1..], getResponse);
    }
  }

  /**
   * The first terminal event decides the caller's response; a slot that is
   * already completed keeps its response whatever arrives later.
   */
  lemma {:induction false} FirstTerminalEventDecides(slot: Option<Response>, events: seq<Event>, getResponse: Response -> Response)
    ensures Deliver(slot, events, getResponse).slot ==
      if slot.Some? then slot else FirstTerminalResponse(events, getResponse)
    decreases |events|
  {
    if events != [] {
      var r := EventResponse(events[0], getResponse);
      var next := if r.Some? then FirstWins(slot, r.value) else slot;
      FirstTerminalEventDecides(next, events[1..], getResponse);
    }
  }

  /** The slot stays empty exactly when no terminal event arrives. */
  lemma {:induction false} CompletedIffSomeTerminal(events: seq<Event>, getResponse: Response -> Response)
    ensures Deliver(None, events, getResponse).slot.Some? <==> TerminalCount(events) > 0
    decreases |events|
  {
    FirstTerminalEventDecides(None, events, getResponse);
    if events != [] && !IsTerminal(events[0]) {
      CompletedIffSomeTerminal(events[1..], getResponse);
    }
  }
}
