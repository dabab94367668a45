/**
 * The synchronous part of one forward as a function of its inputs: the
 * Proxy-Uri check, translation, the destination pre-check, decoding of the
 * Proxy-Uri, transport selection and the lazily built DTLS client. The
 * class in ProxyResource is proved to do what ForwardStep says.
 */
module ForwardingModel {
  import opened CoapMessages
  import opened TransportSelection

  /** A DTLS connector bound to a PSK identity and key (a null identity stays null). */
  datatype DtlsConnector = DtlsConnector(identity: Option<string>, pskBytes: string)

  datatype Endpoint = DtlsEndpoint(connector: DtlsConnector)

  /** A `CoapClient`; its endpoint stays unset until `setEndpoint` is called. */
  datatype CoapClient = CoapClient(endpoint: Option<Endpoint>)

  /**
   * The `client` and `dtlsConnector` fields of one resource, with the number
   * of times each has been constructed.
   */
  datatype Session = Session(
    client: Option<CoapClient>,
    connector: Option<DtlsConnector>,
    clientsBuilt: nat,
    connectorsBuilt: nat)

  const NO_SESSION: Session := Session(None, None, 0, 0)

  /** The DTLS connector a resource with this identity and key builds. */
  function ConfiguredConnector(identity: Option<string>, psk: string): DtlsConnector
  {
    DtlsConnector(identity, psk)
  }

  /**
   * What sequential forwards can leave in the fields: nothing; a complete
   * client on the configured connector; or, when the key is null, a client
   * whose endpoint was never set. Each field is built at most once.
   */
  predicate SessionValid(s: Session, identity: Option<string>, psk: Option<string>)
  {
    && s.clientsBuilt == (if s.client.Some? then 1 else 0)
    && s.connectorsBuilt == (if s.connector.Some? then 1 else 0)
    && (s.connector.Some? ==>
          psk.Some? && s.connector.value == ConfiguredConnector(identity, psk.value)
          && s.client == Some(CoapClient(Some(DtlsEndpoint(s.connector.value)))))
    && (s.connector.None? && s.client.Some? ==> s.client.value.endpoint.None? && psk.None?)
  }

  datatype Acquired = Acquired(session: Session, endpoint: Option<Endpoint>)

  /**
   * The DTLS endpoint a "coaps" forward sends on: the fields are built only
   * when both are null. With a null key, `psk.getBytes()` throws after
   * `client` was assigned, so no endpoint is obtained.
   */
  function AcquireSecure(s: Session, identity: Option<string>, psk: Option<string>): (a: Acquired)
    ensures SessionValid(s, identity, psk) ==> SessionValid(a.session, identity, psk)
    ensures s.client.Some? || s.connector.Some? ==> a.session == s
    ensures s.client.None? && s.connector.None? ==>
      a.session.client.Some? && (psk.Some? <==> a.session.connector.Some?)
    ensures a.session != s ==> a.session.clientsBuilt == s.clientsBuilt + 1
    ensures SessionValid(s, identity, psk) ==>
      (a.endpoint.Some? <==> psk.Some?)
      && (a.endpoint.Some? ==> a.endpoint == Some(DtlsEndpoint(ConfiguredConnector(identity, psk.value))))
  {
    if s.connector.None? && s.client.None? then
      var withClient := s.(client := Some(CoapClient(None)), clientsBuilt := s.clientsBuilt + 1);
      if psk.None? then Acquired(withClient, None)
      else
        var connector := ConfiguredConnector(identity, psk.value);
        var built := withClient.(
          client := Some(CoapClient(Some(DtlsEndpoint(connector)))),
          connector := Some(connector),
          connectorsBuilt := s.connectorsBuilt + 1);
        Acquired(built, Some(DtlsEndpoint(connector)))
    else if s.client.None? then Acquired(s, None)
    else Acquired(s, s.client.value.endpoint)
  }

  /** Which endpoint a request went out on: the DTLS client's, or the default endpoint of a loaned manager. */
  datatype Via = ViaDtls(endpoint: Endpoint) | ViaPooled(loan: nat)

  datatype Send = Send(request: OutgoingRequest, via: Via)

  /** A forward ends synchronously with a response, or hands one request to a transport. */
  datatype Exit = Completed(response: Response) | Dispatched(send: Send)

  /** The fields afterwards, whether a manager was borrowed, what the translator was given, and the exit. */
  datatype Step = Step(session: Session, borrowed: bool, translated: Option<CoapRequest>, exit: Exit)

  /**
   * One call of `forwardRequest`. `loan` names the manager borrowed from the
   * pool; `decode` is URL decoding, None when it throws.
   */
  function ForwardStep(
    s: Session, identity: Option<string>, psk: Option<string>,
    incoming: CoapRequest, tr: Translator, decode: string -> Option<string>, loan: nat): (r: Step)
    // the Proxy-Uri check comes before anything else
    ensures r.borrowed <==> incoming.options.proxyUri.Some?
    ensures incoming.options.proxyUri.None? ==>
      r == Step(s, false, None, Completed(Response(BAD_OPTION, [])))
    // past it, the translator sees the request with its Uri-Path cleared
    ensures r.borrowed ==> r.translated == Some(ClearUriPath(incoming)) && r.translated.value.options.uriPath == []
    ensures r.borrowed && tr.getRequest(ClearUriPath(incoming)).TranslationException? ==>
      r.exit == Completed(Response(tr.statusFieldMalformed, [])) && r.session == s
    ensures r.borrowed && tr.getRequest(ClearUriPath(incoming)).TranslationFault? ==>
      r.exit == Completed(Response(INTERNAL_SERVER_ERROR, [])) && r.session == s
    ensures r.borrowed && tr.getRequest(ClearUriPath(incoming)).Translated? ==>
      var out := tr.getRequest(ClearUriPath(incoming)).outgoing;
      (out.destination.None? || out.destinationPort == 0 ==>
        r.exit == Completed(Response(INTERNAL_SERVER_ERROR, [])) && r.session == s)
    // a forward that reaches the send point is sent, unless decoding or the DTLS client fails
    ensures r.borrowed && tr.getRequest(ClearUriPath(incoming)).Translated? ==>
      var out := tr.getRequest(ClearUriPath(incoming)).outgoing;
      var d := decode(incoming.options.proxyUri.value);
      out.destination.Some? && out.destinationPort != 0 ==>
        && (d.None? ==> r.exit == Completed(Response(INTERNAL_SERVER_ERROR, [])) && r.session == s)
        && (d.Some? && !Contains(d.value, SECURE_MARKER) ==>
              r.exit == Dispatched(Send(out, ViaPooled(loan))) && r.session == s)
        && (d.Some? && Contains(d.value, SECURE_MARKER) && SessionValid(s, identity, psk) ==>
              && (r.exit.Dispatched? <==> psk.Some?)
              && (r.exit.Dispatched? ==>
                    r.exit.send == Send(out, ViaDtls(DtlsEndpoint(ConfiguredConnector(identity, psk.value)))))
              && (r.exit.Completed? ==> r.exit.response == Response(INTERNAL_SERVER_ERROR, [])))
    // what is sent is the translated request, on the transport the substring test picks
    ensures r.exit.Dispatched? ==>
      && incoming.options.proxyUri.Some?
      && tr.getRequest(ClearUriPath(incoming)) == Translated(r.exit.send.request)
      && r.exit.send.request.destination.Some? && r.exit.send.request.destinationPort != 0
      && decode(incoming.options.proxyUri.value).Some?
      && (r.exit.send.via.ViaDtls? <==> Contains(decode(incoming.options.proxyUri.value).value, SECURE_MARKER))
      && (r.exit.send.via.ViaPooled? ==> r.exit.send.via.loan == loan)
    // a synchronous completion is always an error code, never a passthrough
    ensures r.exit.Completed? ==>
      r.exit.response.payload == [] &&
      r.exit.response.code in {BAD_OPTION, tr.statusFieldMalformed, INTERNAL_SERVER_ERROR}
    // the DTLS fields change only when a "coaps" forward finds both null
    ensures SessionValid(s, identity, psk) ==> SessionValid(r.session, identity, psk)
    ensures r.session != s ==> s.client.None? && s.connector.None? && r.session.clientsBuilt == s.clientsBuilt + 1
  {
    if incoming.options.proxyUri.None? then
      Step(s, false, None, Completed(NewResponse(BAD_OPTION)))
    else
      var cleared := ClearUriPath(incoming);
      match tr.getRequest(cleared)
      case TranslationException(_) =>
        Step(s, true, Some(cleared), Completed(NewResponse(tr.statusFieldMalformed)))
      case TranslationFault(_) =>
        Step(s, true, Some(cleared), Completed(NewResponse(INTERNAL_SERVER_ERROR)))
      case Translated(out) =>
        if out.destination.None? || out.destinationPort == 0 then
          Step(s, true, Some(cleared), Completed(NewResponse(INTERNAL_SERVER_ERROR)))
        else
          match decode(incoming.options.proxyUri.value)
          case None =>
            Step(s, true, Some(cleared), Completed(NewResponse(INTERNAL_SERVER_ERROR)))
          case Some(uri) =>
            if SelectTransport(uri) == Dtls then
              var a := AcquireSecure(s, identity, psk);
              match a.endpoint
              case None => Step(a.session, true, Some(cleared), Completed(NewResponse(INTERNAL_SERVER_ERROR)))
              case Some(ep) => Step(a.session, true, Some(cleared), Dispatched(Send(out, ViaDtls(ep))))
            else
              Step(s, true, Some(cleared), Dispatched(Send(out, ViaPooled(loan))))
  }

  /** What a run of sequential forwards produced: the final fields, the sends and the synchronous completions. */
  datatype Trace = Trace(session: Session, sends: seq<Send>, completed: seq<Response>, borrows: nat)

  /** Sequential forwards of `requests`; the i-th borrow gets loan `firstLoan + i`. */
  function Run(
    s: Session, identity: Option<string>, psk: Option<string>,
    requests: seq<CoapRequest>, tr: Translator, decode: string -> Option<string>, firstLoan: nat): Trace
    decreases |requests|
  {
    if requests == [] then Trace(s, [], [], 0)
    else
      var step := ForwardStep(s, identity, psk, requests[0], tr, decode, firstLoan);
      var rest := Run(step.session, identity, psk, requests[1..], tr, decode,
                      if step.borrowed then firstLoan + 1 else firstLoan);
      match step.exit
      case Completed(resp) => Trace(rest.session, rest.sends, [resp] + rest.completed, rest.borrows + if step.borrowed then 1 else 0)
      case Dispatched(send) => Trace(rest.session, [send] + rest.sends, rest.completed, rest.borrows + 1)
  }

  /** Secure sends in a trace all use the one configured DTLS endpoint. */
  predicate SecureSendsShareEndpoint(sends: seq<Send>, identity: Option<string>, psk: Option<string>)
  {
    forall i :: 0 <= i < |sends| && sends[i].via.ViaDtls? ==>
      psk.Some? && sends[i].via.endpoint == DtlsEndpoint(ConfiguredConnector(identity, psk.value))
  }

  /**
   * In a sequential run every forward ends once (a send or a synchronous
   * completion), the DTLS client and connector are each built at most once,
   * and once the client exists the fields never change again.
   */
  lemma {:induction false} RunBuildsSessionOnce(
    s: Session, identity: Option<string>, psk: Option<string>,
    requests: seq<CoapRequest>, tr: Translator, decode: string -> Option<string>, firstLoan: nat)
    requires SessionValid(s, identity, psk)
    ensures var t := Run(s, identity, psk, requests, tr, decode, firstLoan);
      && SessionValid(t.session, identity, psk)
      && t.session.clientsBuilt <= 1 && t.session.connectorsBuilt <= 1
      && t.session.clientsBuilt >= s.clientsBuilt && t.session.connectorsBuilt >= s.connectorsBuilt
      && (s.client.Some? ==> t.session == s)
      && |t.sends| + |t.completed| == |requests|
      && SecureSendsShareEndpoint(t.sends, identity, psk)
      && (psk.Some? && (exists i :: 0 <= i < |t.sends| && t.sends[i].via.ViaDtls?) ==> t.session.connectorsBuilt == 1)
    decreases |requests|
  {
    if requests != [] {
      var step := ForwardStep(s, identity, psk, requests[0], tr, decode, firstLoan);
      var next := if step.borrowed then firstLoan + 1 else firstLoan;
      RunBuildsSessionOnce(step.session, identity, psk, requests[1..], tr, decode, next);
      var rest := Run(step.session, identity, psk, requests[1..], tr, decode, next);
      var t := Run(s, identity, psk, requests, tr, decode, firstLoan);
      if step.exit.Dispatched? && step.exit.send.via.ViaDtls? {
        var a := AcquireSecure(s, identity, psk);
        assert step.session == a.session;
        assert step.session.connector.Some?;
        assert rest.session == step.session;
      }
      assert t.sends == (if step.exit.Dispatched? then [step.exit.send] else []) + rest.sends;
    }
  }

  /** The number of requests that carry a Proxy-Uri option. */
  function WithProxyUri(requests: seq<CoapRequest>): nat
    decreases |requests|
  {
    if requests == [] then 0
    else WithProxyUri(requests[1..]) + if requests[0].options.proxyUri.Some? then 1 else 0
  }

  /** Every forward that passes the Proxy-Uri check borrows one manager, whatever happens afterwards. */
  lemma {:induction false} RunBorrowsPerProxyUri(
    s: Session, identity: Option<string>, psk: Option<string>,
    requests: seq<CoapRequest>, tr: Translator, decode: string -> Option<string>, firstLoan: nat)
    ensures Run(s, identity, psk, requests, tr, decode, firstLoan).borrows == WithProxyUri(requests)
    decreases |requests|
  {
    if requests != [] {
      var step := ForwardStep(s, identity, psk, requests[0], tr, decode, firstLoan);
      var next := if step.borrowed then firstLoan + 1 else firstLoan;
      RunBorrowsPerProxyUri(step.session, identity, psk, requests[1..], tr, decode, next);
    }
  }
}
