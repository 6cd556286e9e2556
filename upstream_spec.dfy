/**
 * The upstream agent (lib/UpstreamAgent.js) as a state machine over its one
 * table. One function per handler gives the state after it has run; the
 * HTTP calls it issues and what it emits to the broker are appended to
 * `outbox`. The class in module UpstreamSide runs the same handlers in place.
 *
 * As written, the agent keeps every request forever, sets no timer and
 * passes the URL to the HTTP call unchanged.
 */
module UpstreamSpec {
  import opened Wire

  /** A stored request: the `broker_request` payload with its `id` set to the local uuid. */
  datatype Record = Record(request: BrokerRequestPayload, id: Id)

  /** The options handed to the injected `http` function. */
  datatype HttpCall = HttpCall(httpMethod: string, url: string, headers: Headers, body: Body)

  datatype HttpResponse = HttpResponse(statusCode: int, headers: Headers)

  /** What the `http` callback receives: an error, or a response and its body. */
  datatype HttpResult = Failed(err: Error) | Completed(res: HttpResponse, body: Body)

  /** An emit to the broker, or an HTTP call whose callback is bound to local request `id`. */
  datatype Out = ToBroker(msg: Msg) | Http(id: Id, call: HttpCall)

  /** The agent's id, the configured target address (never read) and its request time-to-live (never used). */
  datatype Config = Config(id: Id, targetAddress: string, reqTtl: int)

  datatype State = State(requests: map<Id, Record>, outbox: seq<Out>)

  const Initial: State := State(map[], [])

  /** The HTTP call made for a relayed request: its method, URL, headers and body, unchanged. */
  function CallFor(p: BrokerRequestPayload): (call: HttpCall)
    ensures call.httpMethod == p.httpMethod && call.url == p.url
    ensures call.headers == p.headers && call.body == p.body
  {
    HttpCall(p.httpMethod, p.url, p.headers, p.body)
  }

  /**
   * `broker_request`, with `newId` the uuid minted: stores the payload with
   * its id set to `newId` under `newId` and issues exactly one HTTP call.
   */
  function HandleBrokerRequest(s: State, p: BrokerRequestPayload, newId: Id): (r: State)
    ensures r.requests.Keys == s.requests.Keys + {newId}
    ensures r.requests[newId] == Record(p, newId)
    ensures forall k :: k in s.requests && k != newId ==> r.requests[k] == s.requests[k]
    ensures r.outbox == s.outbox + [Http(newId, CallFor(p))]
  {
    var request := Record(p, newId);
    var s1 := s.(requests := s.requests[newId := request]);
    s1.(outbox := s1.outbox + [Http(request.id, CallFor(request.request))])
  }

  /** `sendBrokerRequestAck`: acknowledges a stored request with its broker id and local id. */
  function SendBrokerRequestAck(s: State, id: Id): (r: State)
    ensures id !in s.requests ==> r == s
    ensures id in s.requests ==>
      r.outbox == s.outbox + [ToBroker(BrokerRequestAck(s.requests[id].request.brokerReqId, s.requests[id].id))]
    ensures r.requests == s.requests
  {
    if id !in s.requests then s
    else
      var request := s.requests[id];
      s.(outbox := s.outbox + [ToBroker(BrokerRequestAck(request.request.brokerReqId, request.id))])
  }

  /** The reply for a stored request whose HTTP call succeeded. */
  function ResponseFor(request: Record, res: HttpResponse, body: Body): (p: ResponsePayload)
    ensures p.clientReqId == request.request.clientReqId && p.brokerReqId == request.request.brokerReqId
    ensures p.upstreamReqId == request.id
    ensures p.statusCode == Some(res.statusCode) && p.headers == res.headers && p.body == body
  {
    ResponsePayload(request.request.clientReqId, request.request.brokerReqId, request.id,
                    Some(res.statusCode), res.headers, body)
  }

  /** `sendUpstreamResponse`: one `upstream_response` for a stored request; the record stays. */
  function SendUpstreamResponse(s: State, id: Id, res: HttpResponse, body: Body): (r: State)
    ensures id !in s.requests ==> r == s
    ensures id in s.requests ==> r.outbox == s.outbox + [ToBroker(UpstreamResponse(ResponseFor(s.requests[id], res, body)))]
    ensures r.requests == s.requests
  {
    if id !in s.requests then s
    else
      var request := s.requests[id];
      s.(outbox := s.outbox + [ToBroker(UpstreamResponse(ResponseFor(request, res, body)))])
  }

  /** `sendUpstreamError`: one `upstream_error` with the broker's id for a stored request; the record stays. */
  function SendUpstreamError(s: State, id: Id, err: Error): (r: State)
    ensures id !in s.requests ==> r == s
    ensures id in s.requests ==> r.outbox == s.outbox + [ToBroker(UpstreamError(s.requests[id].request.brokerReqId, err))]
    ensures r.requests == s.requests
  {
    if id !in s.requests then s
    else
      var request := s.requests[id];
      s.(outbox := s.outbox + [ToBroker(UpstreamError(request.request.brokerReqId, err))])
  }

  /** The `http` callback bound to local request `id`: an error is reported as such, anything else as a response. */
  function HandleHttpResult(s: State, id: Id, result: HttpResult): (r: State)
    ensures r.requests == s.requests
    ensures id !in s.requests ==> r == s
    ensures id in s.requests ==> |r.outbox| == |s.outbox| + 1 && r.outbox[..|s.outbox|] == s.outbox
    ensures id in s.requests && result.Failed? ==>
      r.outbox[|s.outbox|] == ToBroker(UpstreamError(s.requests[id].request.brokerReqId, result.err))
    ensures id in s.requests && result.Completed? ==>
      r.outbox[|s.outbox|] == ToBroker(UpstreamResponse(ResponseFor(s.requests[id], result.res, result.body)))
  {
    match result
    case Failed(err) => SendUpstreamError(s, id, err)
    case Completed(res, body) => SendUpstreamResponse(s, id, res, body)
  }

  /** Everything the environment can make the upstream agent handle. */
  datatype Event =
    | OnBrokerRequest(payload: BrokerRequestPayload, newId: Id)
    | OnHttpResult(id: Id, result: HttpResult)

  function Step(s: State, e: Event): State
  {
    match e
    case OnBrokerRequest(p, newId) => HandleBrokerRequest(s, p, newId)
    case OnHttpResult(id, result) => HandleHttpResult(s, id, result)
  }

  function Run(s: State, t: seq<Event>): State
    decreases |t|
  {
    if t == [] then s else Run(Step(s, t[0]), t[1..])
  }

  /** A uuid is new. */
  predicate Enabled(s: State, e: Event)
  {
    e.OnBrokerRequest? ==> e.newId !in s.requests
  }

  ghost predicate ValidRun(s: State, t: seq<Event>)
    decreases |t|
  {
    t == [] || (Enabled(s, t[0]) && ValidRun(Step(s, t[0]), t[1..]))
  }

  /** No run removes or alters a stored request: the table only grows. */
  lemma {:induction false} RunOnlyGrows(s: State, t: seq<Event>)
    requires ValidRun(s, t)
    ensures forall k :: k in s.requests ==> k in Run(s, t).requests && Run(s, t).requests[k] == s.requests[k]
    decreases |t|
  {
    if t != [] {
      RunOnlyGrows(Step(s, t[0]), t[1..]);
    }
  }

  /** Every HTTP call issued so far belongs to a stored request and was made from it. */
  ghost predicate Inv(s: State)
  {
    && (forall k :: k in s.requests ==> s.requests[k].id == k)
    && (forall i :: 0 <= i < |s.outbox| && s.outbox[i].Http? ==>
          s.outbox[i].id in s.requests && s.outbox[i].call == CallFor(s.requests[s.outbox[i].id].request))
  }

  lemma StepKeepsInv(s: State, e: Event)
    requires Inv(s) && Enabled(s, e)
    ensures Inv(Step(s, e))
  {
    var r := Step(s, e);
    forall i | 0 <= i < |r.outbox| && r.outbox[i].Http?
      ensures r.outbox[i].id in r.requests && r.outbox[i].call == CallFor(r.requests[r.outbox[i].id].request)
    {
      if i < |s.outbox| {
        assert r.outbox[i] == s.outbox[i];
      }
    }
  }

  lemma {:induction false} RunKeepsInv(s: State, t: seq<Event>)
    requires Inv(s) && ValidRun(s, t)
    ensures Inv(Run(s, t))
    decreases |t|
  {
    if t != [] {
      StepKeepsInv(s, t[0]);
      RunKeepsInv(Step(s, t[0]), t[1..]);
    }
  }

  /**
   * Whenever the callback of an HTTP call the agent issued fires, the agent
   * sends the broker exactly one reply, addressed by the broker's id of the
   * request the call was made for.
   */
  lemma CompletionIsReported(t: seq<Event>, i: nat, result: HttpResult)
    requires ValidRun(Initial, t)
    requires i < |Run(Initial, t).outbox| && Run(Initial, t).outbox[i].Http?
    ensures var s := Run(Initial, t);
            var id := s.outbox[i].id;
            var r := HandleHttpResult(s, id, result);
            && id in s.requests
            && var b := s.requests[id].request.brokerReqId;
            && s.outbox[i].call == CallFor(s.requests[id].request)
            && |r.outbox| == |s.outbox| + 1
            && r.outbox[|s.outbox|].ToBroker?
            && var m := r.outbox[|s.outbox|].msg;
               (m.UpstreamError? && m.brokerReqId == b) || (m.UpstreamResponse? && m.response.brokerReqId == b)
  {
    RunKeepsInv(Initial, t);
  }
}
