/**
 * The upstream agent of lib/UpstreamAgent.js as an object: its request
 * table is a field the handlers update in place, and `outbox` records, in
 * order, every HTTP call it issues and every emit to the broker. Each
 * handler is proved to leave the object in the state that UpstreamSpec
 * gives for it.
 */
module UpstreamSide {
  import opened Wire
  import S = UpstreamSpec

  class UpstreamAgent {
    const id: Id
    const targetAddress: string
    const reqTtl: int
    var requests: map<Id, S.Record>
    var outbox: seq<S.Out>

    function Config(): S.Config
    {
      S.Config(id, targetAddress, reqTtl)
    }

    function State(): S.State
      reads this
    {
      S.State(requests, outbox)
    }

    /** `new UpstreamAgent({id, target_address, req_ttl})`: an empty table; a missing or zero `req_ttl` falls back to 10000 ms. */
    constructor (id: Id, targetAddress: string, reqTtl: Option<int>)
      ensures Config() == S.Config(id, targetAddress, ConfiguredTtl(reqTtl))
      ensures State() == S.Initial
    {
      this.id := id;
      this.targetAddress := targetAddress;
      this.reqTtl := ConfiguredTtl(reqTtl);
      requests, outbox := map[], [];
    }

    /** `broker_request`; `newId` is the uuid minted. The deadline the source computes is only logged. */
    method HandleBrokerRequest(payload: BrokerRequestPayload, newId: Id)
      requires newId !in requests
      modifies this
      ensures State() == S.HandleBrokerRequest(old(State()), payload, newId)
    {
      var request := S.Record(payload, newId);
      requests := requests[newId := request];
      outbox := outbox + [S.Http(request.id, S.HttpCall(payload.httpMethod, payload.url, payload.headers, payload.body))];
    }

    /** The callback handed to `http` for local request `reqId`. */
    method HandleHttpResult(reqId: Id, result: S.HttpResult)
      modifies this
      ensures State() == S.HandleHttpResult(old(State()), reqId, result)
    {
      match result
      case Failed(err) => SendUpstreamError(reqId, err);
      case Completed(res, body) => SendUpstreamResponse(reqId, res, body);
    }

    method SendBrokerRequestAck(reqId: Id)
      modifies this
      ensures State() == S.SendBrokerRequestAck(old(State()), reqId)
    {
      if reqId !in requests {
        return;
      }
      var request := requests[reqId];
      outbox := outbox + [S.ToBroker(BrokerRequestAck(request.request.brokerReqId, request.id))];
    }

    method SendUpstreamResponse(reqId: Id, res: S.HttpResponse, body: Body)
      modifies this
      ensures State() == S.SendUpstreamResponse(old(State()), reqId, res, body)
    {
      if reqId !in requests {
        return;
      }
      var request := requests[reqId];
      outbox := outbox + [S.ToBroker(UpstreamResponse(ResponsePayload(
        request.request.clientReqId, request.request.brokerReqId, request.id,
        Some(res.statusCode), res.headers, body)))];
    }

    method SendUpstreamError(reqId: Id, err: Error)
      modifies this
      ensures State() == S.SendUpstreamError(old(State()), reqId, err)
    {
      if reqId !in requests {
        return;
      }
      var request := requests[reqId];
      outbox := outbox + [S.ToBroker(UpstreamError(request.request.brokerReqId, err))];
    }
  }
}
