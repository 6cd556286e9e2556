/**
 * The client agent of lib/ClientAgent.js as an object: its two tables are
 * fields each handler updates in place, and `outbox` records, in order,
 * every emit to the broker, every write to an HTTP response and every act
 * on a local stream socket. Each handler is proved to leave the object in
 * the state that ClientSpec gives for it.
 */
module ClientSide {
  import opened Wire
  import S = ClientSpec

  class ClientAgent {
    const id: Id
    const upstreamTarget: Id
    const reqTtl: int
    var requests: map<Id, S.Record>
    var sioConnections: map<Id, S.SioConnection>
    var outbox: seq<S.Out>

    function Config(): S.Config
    {
      S.Config(id, upstreamTarget, reqTtl)
    }

    function State(): S.State
      reads this
    {
      S.State(requests, sioConnections, outbox)
    }

    /** `new ClientAgent({id, upstream_target, req_ttl})`: empty tables; a missing or zero `req_ttl` falls back to 10000 ms. */
    constructor (id: Id, upstreamTarget: Id, reqTtl: Option<int>)
      ensures Config() == S.Config(id, upstreamTarget, ConfiguredTtl(reqTtl))
      ensures State() == S.Initial
    {
      this.id := id;
      this.upstreamTarget := upstreamTarget;
      this.reqTtl := ConfiguredTtl(reqTtl);
      requests, sioConnections, outbox := map[], map[], [];
    }

    /** A new local stream socket; `newId` is the uuid minted for it. */
    method SioHandleConnection(socket: S.SioSocket, newId: Id)
      requires newId !in sioConnections
      modifies this
      ensures State() == S.SioHandleConnection(Config(), old(State()), socket, newId)
    {
      sioConnections := sioConnections[newId := S.SioConnection(newId, socket)];
      outbox := outbox + [S.ToBroker(ClientSioConnection(upstreamTarget, newId))];
    }

    method SioHandleMessage(connId: Id, message: Message)
      modifies this
      ensures State() == S.SioHandleMessage(old(State()), connId, message)
    {
      outbox := outbox + [S.ToBroker(ClientSioMessage(connId, message))];
    }

    method SioHandleDisconnect(connId: Id)
      modifies this
      ensures State() == S.SioHandleDisconnect(old(State()), connId)
    {
      if connId !in sioConnections {
        return;
      }
      SioRemoveConnection(connId);
      outbox := outbox + [S.ToBroker(ClientSioDisconnection(connId))];
    }

    method SioHandleUpstreamDisconnect(connection: Id)
      modifies this
      ensures State() == S.SioHandleUpstreamDisconnect(old(State()), connection)
    {
      if connection !in sioConnections {
        return;
      }
      var conn := sioConnections[connection];
      SioRemoveConnection(conn.id);
      outbox := outbox + [S.SioDisconnect(conn.socket)];
    }

    method SioHandleUpstreamMessage(connection: Id, message: Message)
      modifies this
      ensures State() == S.SioHandleUpstreamMessage(old(State()), connection, message)
    {
      if connection !in sioConnections {
        return;
      }
      var conn := sioConnections[connection];
      outbox := outbox + [S.SioEmit(conn.socket, message)];
    }

    method SioRemoveConnection(connId: Id)
      modifies this
      ensures State() == S.SioRemoveConnection(old(State()), connId)
    {
      sioConnections := sioConnections - {connId};
    }

    method Register()
      modifies this
      ensures State() == S.Register(Config(), old(State()))
    {
      outbox := outbox + [S.ToBroker(Msg.Register("client", id))];
    }

    /** The request's body has been buffered in full; `newId` is the uuid minted, `now` the clock. */
    method SendClientRequest(req: S.HttpRequest, res: S.Res, body: Body, newId: Id, now: int)
      requires newId !in requests
      modifies this
      ensures State() == S.SendClientRequest(Config(), old(State()), req, res, body, newId, now)
    {
      var ttl := now + reqTtl;
      requests := requests[newId := S.Record(newId, req, res, body, ttl)];
      outbox := outbox + [S.ToBroker(ClientRequest(ClientRequestPayload(
        id, newId, ttl, upstreamTarget, req.httpMethod, req.url, req.headers, body)))];
    }

    method HandleBrokerResponse(payload: ResponsePayload)
      modifies this
      ensures State() == S.HandleBrokerResponse(old(State()), payload)
    {
      if payload.clientReqId !in requests {
        return;
      }
      var request := requests[payload.clientReqId];
      RemoveRequest(request.id);

      var res := request.res;
      outbox := outbox + [S.SetStatus(res, S.StatusOf(payload.statusCode))];
      ghost var before := outbox;
      var hs := payload.headers;
      var i := 0;
      while i < |hs|
        invariant 0 <= i <= |hs|
        invariant outbox == before + S.HeaderWrites(res, hs[..i])
        invariant requests == old(requests) - {request.id} && sioConnections == old(sioConnections)
      {
        assert S.HeaderWrites(res, hs[..i + 1]) == S.HeaderWrites(res, hs[..i]) + [S.SetHeader(res, hs[i].0, hs[i].1)];
        outbox := outbox + [S.SetHeader(res, hs[i].0, hs[i].1)];
        i := i + 1;
      }
      assert hs[..i] == hs;
      outbox := outbox + [S.End(res, Some(payload.body))];
    }

    method HandleBrokerError(clientReqId: Id, err: Error)
      modifies this
      ensures State() == S.HandleBrokerError(old(State()), clientReqId, err)
    {
      if clientReqId !in requests {
        return;
      }
      var request := requests[clientReqId];
      RemoveRequest(request.id);
      outbox := outbox + [S.SetStatus(request.res, 500), S.End(request.res, None)];
    }

    /** The request's timer fires. */
    method HandleRequestTimeout(reqId: Id)
      modifies this
      ensures State() == S.HandleRequestTimeout(old(State()), reqId)
    {
      if reqId !in requests {
        return;
      }
      var request := requests[reqId];
      RemoveRequest(reqId);
      outbox := outbox + [S.SetStatus(request.res, 504), S.End(request.res, None)];
    }

    method RemoveRequest(reqId: Id)
      modifies this
      ensures State() == S.RemoveRequest(old(State()), reqId)
    {
      if reqId !in requests {
        return;
      }
      requests := requests - {reqId};
    }
  }
}
