/**
 * The resource object and the objects it works with: the caller's future,
 * the process-wide endpoint-manager pool, and the message observer attached
 * to each outgoing request. Forwards and events are sequential calls here.
 */
module ProxyResource {
  import opened CoapMessages
  import opened TransportSelection
  import opened ExchangeOutcome
  import opened ForwardingModel

  /** The `CompletableFuture<Response>` handed back to the caller. */
  class ResponseFuture {
    var value: Option<Response>

    constructor ()
      ensures value.None?
    {
      value := None;
    }

    /** `complete(r)`: takes effect only on a future not yet completed. */
    method Complete(r: Response) returns (completed: bool)
      modifies this
      ensures completed <==> old(value).None?
      ensures value == FirstWins(old(value), r)
    {
      completed := value.None?;
      if completed {
        value := Some(r);
      }
    }
  }

  /**
   * `EndPointManagerPool`: lends and takes back endpoint managers. Each
   * borrow is a loan numbered by its position in `lent`; how the pool
   * reuses managers is not part of this model.
   */
  class EndpointManagerPool {
    var lent: seq<nat>
    var returned: seq<nat>

    constructor ()
      ensures lent == [] && returned == []
    {
      lent, returned := [], [];
    }

    /** `getManager()`. */
    method GetManager() returns (loan: nat)
      modifies this
      ensures loan == |old(lent)|
      ensures lent == old(lent) + [loan] && returned == old(returned)
    {
      loan := |lent|;
      lent := lent + [loan];
    }

    /** `putClient(manager)`. */
    method PutClient(loan: nat)
      modifies this
      ensures returned == old(returned) + [loan] && lent == old(lent)
    {
      returned := returned + [loan];
    }
  }

  /** The anonymous `MessageObserverAdapter` of one forward: it holds the caller's future and the loaned manager. */
  class ForwardObserver {
    const future: ResponseFuture
    const loan: nat
    const pool: EndpointManagerPool
    const getResponse: Response -> Response

    constructor (future: ResponseFuture, loan: nat, pool: EndpointManagerPool, getResponse: Response -> Response)
      ensures this.future == future && this.loan == loan && this.pool == pool && this.getResponse == getResponse
    {
      this.future := future;
      this.loan := loan;
      this.pool := pool;
      this.getResponse := getResponse;
    }

    /**
     * One callback: a terminal event completes the future (if still open)
     * with the table's response and puts the manager back; the
     * context-established event does nothing.
     */
    method OnEvent(e: Event)
      modifies future, pool
      ensures future.value == Deliver(old(future.value), [e], getResponse).slot
      ensures pool.returned ==
        old(pool.returned) + seq(Deliver(old(future.value), [e], getResponse).releases, _ => loan)
      ensures pool.lent == old(pool.lent)
    {
      var r := EventResponse(e, getResponse);
      if r.Some? {
        var _ := future.Complete(r.value);
        pool.PutClient(loan);
      }
      assert Deliver(old(future.value), [e], getResponse).releases == if r.Some? then 1 else 0;
    }
  }

  /** A request as the resource receives it; its options are changed in place. */
  class Request {
    var message: CoapRequest

    constructor (message: CoapRequest)
      ensures this.message == message
    {
      this.message := message;
    }

    /** `getOptions().clearUriPath()`. */
    method ClearUriPath()
      modifies this
      ensures message == CoapMessages.ClearUriPath(old(message))
    {
      message := CoapMessages.ClearUriPath(message);
    }
  }

  /** `ProxyCoapClientResource`: forwards requests that carry a Proxy-Uri option to the origin. */
  class ProxyCoapClientResource {
    const name: string
    const identity: Option<string>
    const psk: Option<string>
    const pool: EndpointManagerPool
    var client: Option<CoapClient>
    var dtlsConnector: Option<DtlsConnector>
    ghost var clientsBuilt: nat
    ghost var connectorsBuilt: nat
    /** Every request handed to the translator, in order. */
    ghost var translatorInputs: seq<CoapRequest>
    /** Every request handed to an endpoint, in order. */
    ghost var sends: seq<Send>

    ghost function SessionOf(): Session
      reads this
    {
      Session(client, dtlsConnector, clientsBuilt, connectorsBuilt)
    }

    ghost predicate Valid()
      reads this
    {
      SessionValid(SessionOf(), identity, psk)
    }

    /** `ProxyCoapClientResource()`: named "coapClient", with no identity and no key. */
    constructor Default(pool: EndpointManagerPool)
      ensures Valid() && SessionOf() == NO_SESSION
      ensures name == "coapClient" && identity.None? && psk.None? && this.pool == pool
      ensures translatorInputs == [] && sends == []
    {
      name, identity, psk, this.pool := "coapClient", None, None, pool;
      client, dtlsConnector, clientsBuilt, connectorsBuilt := None, None, 0, 0;
      translatorInputs, sends := [], [];
    }

    /** `ProxyCoapClientResource(name)`: no identity and no key. */
    constructor Named(name: string, pool: EndpointManagerPool)
      ensures Valid() && SessionOf() == NO_SESSION
      ensures this.name == name && identity.None? && psk.None? && this.pool == pool
      ensures translatorInputs == [] && sends == []
    {
      this.name, identity, psk, this.pool := name, None, None, pool;
      client, dtlsConnector, clientsBuilt, connectorsBuilt := None, None, 0, 0;
      translatorInputs, sends := [], [];
    }

    /** `ProxyCoapClientResource(name, identity, psk)`: the DTLS credentials are fixed here for the resource's life. */
    constructor WithCredentials(name: string, identity: Option<string>, psk: Option<string>, pool: EndpointManagerPool)
      ensures Valid() && SessionOf() == NO_SESSION
      ensures this.name == name && this.identity == identity && this.psk == psk && this.pool == pool
      ensures translatorInputs == [] && sends == []
    {
      this.name, this.identity, this.psk, this.pool := name, identity, psk, pool;
      client, dtlsConnector, clientsBuilt, connectorsBuilt := None, None, 0, 0;
      translatorInputs, sends := [], [];
    }

    /**
     * `forwardRequest`. It returns the caller's future and, when a request
     * went out, the observer through which the transport reports on it.
     */
    method ForwardRequest(incoming: Request, tr: Translator, decode: string -> Option<string>)
      returns (future: ResponseFuture, observer: ForwardObserver?)
      requires Valid()
      modifies this, pool, incoming
      ensures Valid()
      ensures fresh(future)
      ensures var step := ForwardStep(old(SessionOf()), identity, psk, old(incoming.message), tr, decode, |old(pool.lent)|);
        && SessionOf() == step.session
        && incoming.message == (if step.borrowed then ClearUriPath(old(incoming.message)) else old(incoming.message))
        && pool.lent == old(pool.lent) + (if step.borrowed then [|old(pool.lent)|] else [])
        && pool.returned == old(pool.returned)
        && translatorInputs == old(translatorInputs) + (if step.translated.Some? then [step.translated.value] else [])
        && (step.exit.Completed? ==>
              future.value == Some(step.exit.response) && sends == old(sends) && observer == null)
        && (step.exit.Dispatched? ==>
              && future.value.None? && sends == old(sends) + [step.exit.send]
              && observer != null && fresh(observer)
              && observer.future == future && observer.loan == |old(pool.lent)|
              && observer.pool == pool && observer.getResponse == tr.getResponse)
    {
      ghost var s0 := SessionOf();
      ghost var msg0 := incoming.message;
      ghost var step := ForwardStep(s0, identity, psk, msg0, tr, decode, |pool.lent|);
      future := new ResponseFuture();
      observer := null;

      if incoming.message.options.proxyUri.None? {
        assert step == Step(s0, false, None, Completed(NewResponse(BAD_OPTION)));
        var _ := future.Complete(NewResponse(BAD_OPTION));
        return;
      }

      // remove the routing Uri-Path before translation
      incoming.ClearUriPath();
      var loan := pool.GetManager();

      translatorInputs := translatorInputs + [incoming.message];
      var translation := tr.getRequest(incoming.message);
      assert incoming.message == ClearUriPath(msg0);
      if translation.TranslationException? {
        assert step == Step(s0, true, Some(incoming.message), Completed(NewResponse(tr.statusFieldMalformed)));
        var _ := future.Complete(NewResponse(tr.statusFieldMalformed));
        return;
      }
      if translation.TranslationFault? {
        // any other exception from the translator: 5.00
        assert step == Step(s0, true, Some(incoming.message), Completed(NewResponse(INTERNAL_SERVER_ERROR)));
        var _ := future.Complete(NewResponse(INTERNAL_SERVER_ERROR));
        return;
      }
      var outgoing := translation.outgoing;
      var listener := new ForwardObserver(future, loan, pool, tr.getResponse);

      if outgoing.destination.None? || outgoing.destinationPort == 0 {
        assert step == Step(s0, true, Some(incoming.message), Completed(NewResponse(INTERNAL_SERVER_ERROR)));
        var _ := future.Complete(NewResponse(INTERNAL_SERVER_ERROR));
        return;
      }
      var decoded := decode(incoming.message.options.proxyUri.value);
      if decoded.None? {
        assert step == Step(s0, true, Some(incoming.message), Completed(NewResponse(INTERNAL_SERVER_ERROR)));
        var _ := future.Complete(NewResponse(INTERNAL_SERVER_ERROR));
        return;
      }

      ghost var acquired := AcquireSecure(s0, identity, psk);
      if Contains(decoded.value, SECURE_MARKER) {
        // built once and kept so the DTLS session survives between forwards;
        // unguarded, so concurrent first use could build two (not modelled)
        if dtlsConnector.None? && client.None? {
          client := Some(CoapClient(None));
          clientsBuilt := clientsBuilt + 1;
          if psk.None? {
            // psk.getBytes() throws: client stays set, its endpoint unset
            assert SessionOf() == acquired.session;
            assert step == Step(acquired.session, true, Some(incoming.message), Completed(NewResponse(INTERNAL_SERVER_ERROR)));
            var _ := future.Complete(NewResponse(INTERNAL_SERVER_ERROR));
            return;
          }
          var connector := ConfiguredConnector(identity, psk.value);
          dtlsConnector := Some(connector);
          connectorsBuilt := connectorsBuilt + 1;
          client := Some(CoapClient(Some(DtlsEndpoint(connector))));
        }
        var endpoint := if client.Some? then client.value.endpoint else None;
        assert SessionOf() == acquired.session && endpoint == acquired.endpoint;
        if endpoint.None? {
          // client.getEndpoint().sendRequest(...) on a null reference
          assert step == Step(acquired.session, true, Some(incoming.message), Completed(NewResponse(INTERNAL_SERVER_ERROR)));
          var _ := future.Complete(NewResponse(INTERNAL_SERVER_ERROR));
          return;
        }
        assert step == Step(acquired.session, true, Some(incoming.message), Dispatched(Send(outgoing, ViaDtls(endpoint.value))));
        sends := sends + [Send(outgoing, ViaDtls(endpoint.value))];
      } else {
        assert step == Step(s0, true, Some(incoming.message), Dispatched(Send(outgoing, ViaPooled(loan))));
        sends := sends + [Send(outgoing, ViaPooled(loan))];
      }
      observer := listener;
    }
  }
}
