/**
 * The wire protocol shared by the broker and the two agents: identifiers,
 * the opaque parts of a payload, the payload records and the named events
 * that travel over the persistent sockets.
 */
module Wire {

  datatype Option<+T> = None | Some(value: T)

  /** Agent ids, target names and every uuid the components mint. */
  type Id = string

  /** Request and response bodies are buffered in full and never inspected. */
  type Body = string

  /**
   * A header object, as its own enumerable properties in insertion order:
   * the order in which `_.each` visits them.
   */
  type Headers = seq<(string, string)>

  /** An uninterpreted argument of a forwarded stream message. */
  type Value(==)

  /** The argument list of a forwarded stream message: event name and arguments, never inspected. */
  type Message = seq<Value>

  /** A JavaScript `Error`: only its name and message are ever read. */
  datatype Error = Error(name: string, message: string)

  /** Fallback for a missing (or zero) `req_ttl` option, in milliseconds. */
  const DefaultTtl: int := 10000

  /** `args.req_ttl || DEFAULT_TTL`: a missing or zero option falls back to the default. */
  function ConfiguredTtl(reqTtl: Option<int>): (ttl: int)
    ensures ttl != 0
    ensures reqTtl == None || reqTtl.value == 0 ==> ttl == DefaultTtl
    ensures reqTtl.Some? && reqTtl.value != 0 ==> ttl == reqTtl.value
  {
    if reqTtl.Some? && reqTtl.value != 0 then reqTtl.value else DefaultTtl
  }

  /** `client_request`: client agent to broker. */
  datatype ClientRequestPayload = ClientRequestPayload(
    clientId: Id,
    clientReqId: Id,
    clientReqTtl: int,
    upstreamTarget: Id,
    httpMethod: string,
    url: string,
    headers: Headers,
    body: Body)

  /** `broker_request`: broker to upstream agent, the client's fields plus the broker's own. */
  datatype BrokerRequestPayload = BrokerRequestPayload(
    clientId: Id,
    clientReqId: Id,
    clientReqTtl: int,
    upstreamTarget: Id,
    httpMethod: string,
    url: string,
    headers: Headers,
    body: Body,
    brokerId: Id,
    brokerReqId: Id,
    brokerReqTtl: int)

  /** The client's part of a `broker_request`. */
  function ClientFields(p: BrokerRequestPayload): ClientRequestPayload
  {
    ClientRequestPayload(p.clientId, p.clientReqId, p.clientReqTtl, p.upstreamTarget,
                         p.httpMethod, p.url, p.headers, p.body)
  }

  /**
   * `upstream_response` and `broker_response`: the broker forwards the first
   * unchanged as the second. A missing `status_code` is `None`.
   */
  datatype ResponsePayload = ResponsePayload(
    clientReqId: Id,
    brokerReqId: Id,
    upstreamReqId: Id,
    statusCode: Option<int>,
    headers: Headers,
    body: Body)

  /** A named event with its payload, as emitted on a socket. */
  datatype Msg =
    | Register(role: string, id: Id)
    | ClientRequest(request: ClientRequestPayload)
    | BrokerRequest(forwarded: BrokerRequestPayload)
    | BrokerRequestAck(brokerReqId: Id, upstreamReqId: Id)
    | UpstreamResponse(response: ResponsePayload)
    | UpstreamError(brokerReqId: Id, error: Error)
    | BrokerResponse(response: ResponsePayload)
    | BrokerError(clientReqId: Id, error: Error)
    | ClientSioConnection(upstream: Id, connection: Id)
    | ClientSioMessage(connection: Id, message: Message)
    | ClientSioDisconnection(connection: Id)
}
