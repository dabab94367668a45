# Californium CoAP forward proxy: `ProxyCoapClientResource`

This project models the forwarding resource of Californium's proxy. The resource is a CoAP forward proxy as described in section 5.7.2 of RFC 7252. It receives a request that carries a Proxy-Uri option (section 5.10.2 of RFC 7252), translates it, and sends it to the origin. It sends either over a DTLS client that it builds once and keeps, or over the default endpoint of an endpoint manager borrowed from a process-wide pool. When the origin exchange ends, it completes the caller's future with a status from a fixed table of RFC 7252 section 5.9 codes and puts the manager back in the pool.

The model has two layers:

- **Pure functions.** `ForwardingModel.ForwardStep` says what one `forwardRequest` call does synchronously: the new DTLS fields, whether a manager was borrowed, what the translator was given, and whether the call ended in a response or a send. `ExchangeOutcome.EventResponse` is the event-to-response table, and `ExchangeOutcome.Deliver` is a sequence of observer callbacks. `TransportSelection.Contains` is Java's `String.contains`.
- **Classes.** `ProxyResource.ProxyCoapClientResource` has the `client` and `dtlsConnector` fields, ghost construction counters, a ghost translator log and a ghost send log. Its `ForwardRequest` method follows the Java control flow step by step and is proved to do exactly what `ForwardStep` says. `ForwardObserver.OnEvent` is the anonymous `MessageObserverAdapter`. `ResponseFuture` is the single-assignment `CompletableFuture`. `EndpointManagerPool` is `EndPointManagerPool`, with a log of loans and returns.

External collaborators are parameters:

- The translator (`CoapTranslator.getRequest` and `getResponse`, and its `STATUS_FIELD_MALFORMED` code) is the `Translator` record.
- URL decoding is `decode`. It returns `None` when `URLDecoder.decode` throws.
- Sending is an entry in the ghost send log.

What the code does, including where it departs from a pool discipline in which every borrowed manager is returned once on every exit path:

- A manager is borrowed for every request that has a Proxy-Uri option. This includes DTLS forwards, which never use it, and forwards that later fail translation or the pre-check.
- The manager is put back only by terminal observer callbacks, once per terminal callback. It is never put back on the synchronous error paths (lines 178-186). `ReleasesCountTerminalEvents` states the count.
- The transport is chosen by a substring test on the decoded Proxy-Uri (line 154), not by comparing the scheme. `PlainSchemeMayStillSelectDtls` shows a `coap://` URI that goes over DTLS.
- With a null key, from the `()` and `(name)` constructors or a null `psk` argument, the first `coaps` forward assigns `client` (line 158) and then throws at `psk.getBytes()` (line 160). That forward ends with 5.00. Because `client` is no longer null, every later `coaps` forward skips construction (line 157), finds no endpoint on the client (line 170), and also ends with 5.00. `AcquireSecure` states that an endpoint is obtained exactly when a key is configured.

## Model

| member | source | states |
|---|---|---|
| CoapMessages.ClearUriPath | californium-proxy/src/main/java/org/eclipse/californium/proxy/resources/ProxyCoapClientResource.java:89-91 | the routing Uri-Path is emptied and the method, payload, Proxy-Uri and other options are kept |
| TransportSelection.Contains | californium-proxy/src/main/java/org/eclipse/californium/proxy/resources/ProxyCoapClientResource.java:154 | `contains` holds exactly when the pattern occurs in the string at some index |
| TransportSelection.SelectTransport | californium-proxy/src/main/java/org/eclipse/californium/proxy/resources/ProxyCoapClientResource.java:153-154 | DTLS is chosen exactly when "coaps" occurs anywhere in the decoded Proxy-Uri |
| TransportSelection.MarkerAnywhereSelectsDtls | californium-proxy/src/main/java/org/eclipse/californium/proxy/resources/ProxyCoapClientResource.java:154 | any URI with "coaps" somewhere in it goes over DTLS |
| TransportSelection.SecureSchemeSelectsDtls | californium-proxy/src/main/java/org/eclipse/californium/proxy/resources/ProxyCoapClientResource.java:154 | every `coaps://` URI goes over DTLS |
| TransportSelection.PlainSchemeMayStillSelectDtls | californium-proxy/src/main/java/org/eclipse/californium/proxy/resources/ProxyCoapClientResource.java:154 | `coap://origin/coapsensor` goes over DTLS although its scheme is `coap` |
| ExchangeOutcome.EventResponse | californium-proxy/src/main/java/org/eclipse/californium/proxy/resources/ProxyCoapClientResource.java:104-141 | an event is terminal exactly when it is not context-established; a response passes through the translator; the other terminal events give an empty 5.xx response, 5.04 exactly for a timeout and 5.03 for reject, cancel and send error |
| ExchangeOutcome.FirstWins | californium-proxy/src/main/java/org/eclipse/californium/proxy/resources/ProxyCoapClientResource.java:107 | completing a future always leaves it completed, and a completed future keeps its first response |
| ExchangeOutcome.ReleasesCountTerminalEvents | californium-proxy/src/main/java/org/eclipse/californium/proxy/resources/ProxyCoapClientResource.java:104-137 | the manager is put back once per terminal callback delivered, so exactly once exactly when one terminal event arrives |
| ExchangeOutcome.FirstTerminalEventDecides | californium-proxy/src/main/java/org/eclipse/californium/proxy/resources/ProxyCoapClientResource.java:104-137 | the first terminal callback decides the caller's response, and a callback after completion changes nothing |
| ExchangeOutcome.CompletedIffSomeTerminal | californium-proxy/src/main/java/org/eclipse/californium/proxy/resources/ProxyCoapClientResource.java:104-141 | a sent forward's future is completed by its callbacks exactly when at least one of them is terminal |
| ForwardingModel.AcquireSecure | californium-proxy/src/main/java/org/eclipse/californium/proxy/resources/ProxyCoapClientResource.java:157-170 | the DTLS fields are built only when both are null (the client always, the connector exactly when a key is configured) and then reused unchanged; on a consistent state an endpoint is obtained exactly when a key is configured, and it is the connector for the resource's own identity and key |
| ForwardingModel.ForwardStep | californium-proxy/src/main/java/org/eclipse/californium/proxy/resources/ProxyCoapClientResource.java:77-189 | without Proxy-Uri: 4.02, no borrow, no translation, no send; otherwise a borrow, translation of the Uri-Path-cleared request, the malformed code on a translation exception, 5.00 on any other translator exception, on a missing destination or port 0, and on a decoding failure; a send only of the translated request with a destination and non-zero port; a forward that reaches the send point with a decoded URI without "coaps" is sent on the loaned manager's endpoint, and one with "coaps" is sent on the configured DTLS endpoint exactly when a key is configured, else ends with 5.00; synchronous completions are error codes only; the DTLS fields change only when both were null |
| ForwardingModel.RunBuildsSessionOnce | californium-proxy/src/main/java/org/eclipse/californium/proxy/resources/ProxyCoapClientResource.java:157-170 | over sequential forwards, each forward ends once (send or completion); client and connector are each built at most once and never again once the client exists; every DTLS send uses the one configured endpoint; any DTLS send means the connector was built exactly once |
| ForwardingModel.RunBorrowsPerProxyUri | californium-proxy/src/main/java/org/eclipse/californium/proxy/resources/ProxyCoapClientResource.java:83-93 | a run borrows exactly one manager per request that carries a Proxy-Uri option, whatever happens to the request later |
| ProxyResource.ResponseFuture.Complete | californium-proxy/src/main/java/org/eclipse/californium/proxy/resources/ProxyCoapClientResource.java:78-85 | completion succeeds only on an open future and the first response is kept |
| ProxyResource.EndpointManagerPool.GetManager | californium-proxy/src/main/java/org/eclipse/californium/proxy/resources/ProxyCoapClientResource.java:93 | a borrow adds one loan and returns nothing |
| ProxyResource.EndpointManagerPool.PutClient | californium-proxy/src/main/java/org/eclipse/californium/proxy/resources/ProxyCoapClientResource.java:108 | a return records that loan and borrows nothing |
| ProxyResource.ForwardObserver.OnEvent | californium-proxy/src/main/java/org/eclipse/californium/proxy/resources/ProxyCoapClientResource.java:102-142 | one callback completes the future as `Deliver` says and puts the loaned manager back once if the event is terminal, never otherwise |
| ProxyResource.Request.ClearUriPath | californium-proxy/src/main/java/org/eclipse/californium/proxy/resources/ProxyCoapClientResource.java:91 | the incoming request's options lose their Uri-Path in place |
| ProxyResource.ProxyCoapClientResource.Default | californium-proxy/src/main/java/org/eclipse/californium/proxy/resources/ProxyCoapClientResource.java:56-58 | name "coapClient", no identity, no key, no DTLS fields |
| ProxyResource.ProxyCoapClientResource.Named | californium-proxy/src/main/java/org/eclipse/californium/proxy/resources/ProxyCoapClientResource.java:60-64 | the given name, no identity, no key, no DTLS fields |
| ProxyResource.ProxyCoapClientResource.WithCredentials | californium-proxy/src/main/java/org/eclipse/californium/proxy/resources/ProxyCoapClientResource.java:66-74 | identity and key fixed for the resource's life, no DTLS fields yet |
| ProxyResource.ProxyCoapClientResource.ForwardRequest | californium-proxy/src/main/java/org/eclipse/californium/proxy/resources/ProxyCoapClientResource.java:77-189 | keeps the DTLS-field invariant and has exactly the effect `ForwardStep` gives: the Uri-Path is cleared in place past the Proxy-Uri check, one loan is taken then and none is returned, the translator log grows by the cleared request, and either the fresh future is completed synchronously and nothing is sent, or the future is open, exactly one send is logged and an observer holding the future and the loan is returned |

## Left out

- Network sending, the DTLS handshake, and the construction of `CoapEndpoint`, `DTLSConnector` and `DtlsConnectorConfig` are foreign library calls. A send is an entry in a ghost log. A construction is a counter and a value naming the identity and key.
- `CoapTranslator`, `URLDecoder`, `CoapClient` and `EndPointManagerPool` are not part of this model. The translator and the decoder are parameters. `getRequest` may throw a `TranslationException` or any other exception, and the decoder may throw. The value of `STATUS_FIELD_MALFORMED` is a field of the translator parameter. `CoapClient.getEndpoint` is taken to return the endpoint set with `setEndpoint`, or null when none was set. The pool's reuse policy is not modelled: each borrow is a loan numbered in order.
- A synchronous exception thrown by `sendRequest` itself is not modelled. Sending always succeeds synchronously, and its failures arrive as the send-error callback.
- Concurrency is not modelled. Forwards and callbacks are sequential method calls. Concurrent first use of the unguarded lazy initialisation (line 157), which could build two DTLS clients, and callbacks firing concurrently are not modelled.
- An observer whose request was never sent cannot fire. `ForwardRequest` returns the observer only when it sent the request.
- Logging has no behaviour and is not modelled.
- The commented-out older `forwardRequest` (lines 192-282) is dead code and is not modelled.
- What the translator builds from the Proxy-Uri (destination, path, payload) is not modelled: the translator is a parameter.
- ExchangeOutcome.EventResponse: `getResponse` is total here. If `CoapTranslator.getResponse` threw inside `onResponse` (line 107), the future would stay open and the manager would not be returned (line 108); the model does not capture that.
