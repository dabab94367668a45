/** CoAP message values the forward proxy reads and produces (RFC 7252). */
module CoapMessages {

  datatype Option<T> = None | Some(value: T)

  /** A response code "c.dd" as in section 5.9 of RFC 7252: a class (2, 4 or 5 here) and a detail. */
  datatype ResponseCode = ResponseCode(codeClass: nat, detail: nat)
  {
    /** Section 3 of RFC 7252: a 3-bit class and a 5-bit detail. */
    predicate IsWellFormed() { codeClass < 8 && detail < 32 }
    /** Section 5.9.3 of RFC 7252: 5.xx codes. */
    predicate IsServerError() { codeClass == 5 }
  }

  /** 4.02 Bad Option (section 5.9.2.3 of RFC 7252). */
  const BAD_OPTION: ResponseCode := ResponseCode(4, 2)
  /** 5.00 Internal Server Error (section 5.9.3.1 of RFC 7252). */
  const INTERNAL_SERVER_ERROR: ResponseCode := ResponseCode(5, 0)
  /** 5.03 Service Unavailable (section 5.9.3.4 of RFC 7252). */
  const SERVICE_UNAVAILABLE: ResponseCode := ResponseCode(5, 3)
  /** 5.04 Gateway Timeout (section 5.9.3.5 of RFC 7252). */
  const GATEWAY_TIMEOUT: ResponseCode := ResponseCode(5, 4)

  datatype Response = Response(code: ResponseCode, payload: string)

  /** `new Response(code)`: a response with the code and no payload. */
  function NewResponse(code: ResponseCode): Response
  {
    Response(code, [])
  }

  /** The options of a request the proxy looks at; a Proxy-Uri (section 5.10.2 of RFC 7252) may be absent. */
  datatype OptionSet = OptionSet(proxyUri: Option<string>, uriPath: seq<string>, uriQuery: seq<string>)

  datatype RequestMethod = GET | POST | PUT | DELETE

  datatype CoapRequest = CoapRequest(code: RequestMethod, options: OptionSet, payload: string)

  /** The request the translator builds: its destination address may be missing (null in the source). */
  datatype OutgoingRequest = OutgoingRequest(destination: Option<string>, destinationPort: int, request: CoapRequest)

  /**
   * Outcome of `CoapTranslator.getRequest`: a request, a `TranslationException`,
   * or any other exception it throws.
   */
  datatype Translation =
    | Translated(outgoing: OutgoingRequest)
    | TranslationException(message: string)
    | TranslationFault(message: string)

  /**
   * The external translator: request and response translation, and the code it names
   * `STATUS_FIELD_MALFORMED`. Its internals are not part of this model.
   */
  datatype Translator = Translator(
    getRequest: CoapRequest -> Translation,
    getResponse: Response -> Response,
    statusFieldMalformed: ResponseCode)

  /** `clearUriPath()` applied to a request's options. */
  function ClearUriPath(req: CoapRequest): (r: CoapRequest)
    ensures r.options.uriPath == []
    ensures r.code == req.code && r.payload == req.payload
    ensures r.options.proxyUri == req.options.proxyUri && r.options.uriQuery == req.options.uriQuery
  {
    req.(options := req.options.(uriPath := []))
  }
}
