/**
 * The broker of lib/Broker.js as an object: its tables are fields that each
 * handler updates in place, and `outbox` records, in order, every `emit`
 * and forced `disconnect` it performs. Each handler is proved to leave the
 * object in the state that RelaySpec gives for it.
 */
module Relay {
  import opened Wire
  import S = RelaySpec

  class Broker {
    const id: Id
    const reqTtl: int
    var clients: map<Id, S.Sock>
    var upstreams: map<Id, S.Sock>
    var requests: map<Id, S.Record>
    var bindings: seq<S.Binding>
    var outbox: seq<S.Out>

    function Config(): S.Config
    {
      S.Config(id, reqTtl)
    }

    function State(): S.State
      reads this
    {
      S.State(clients, upstreams, requests, bindings, outbox)
    }

    /** `new Broker({id, req_ttl})`: empty tables; a missing or zero `req_ttl` falls back to 10000 ms. */
    constructor (id: Id, reqTtl: Option<int>)
      ensures Config() == S.Config(id, ConfiguredTtl(reqTtl))
      ensures State() == S.Initial
    {
      this.id := id;
      this.reqTtl := ConfiguredTtl(reqTtl);
      clients, upstreams, requests := map[], map[], map[];
      bindings, outbox := [], [];
    }

    /** The `register` listener set on every accepted socket. */
    method Register(sock: S.Sock, role: string, agentId: Id)
      modifies this
      ensures State() == S.Register(old(State()), sock, role, agentId)
    {
      if role == "client" {
        RegisterClient(sock, agentId);
      } else if role == "upstream" {
        RegisterUpstream(sock, agentId);
      } else {
        outbox := outbox + [S.Close(sock)];
      }
    }

    method RegisterClient(sock: S.Sock, agentId: Id)
      modifies this
      ensures State() == S.RegisterClient(old(State()), sock, agentId)
    {
      clients := clients[agentId := sock];
      bindings := bindings + [S.Binding(sock, S.ClientRole, agentId)];
    }

    method RegisterUpstream(sock: S.Sock, agentId: Id)
      modifies this
      ensures State() == S.RegisterUpstream(old(State()), sock, agentId)
    {
      upstreams := upstreams[agentId := sock];
      bindings := bindings + [S.Binding(sock, S.UpstreamRole, agentId)];
    }

    /** `sock` disconnects: every `disconnect` listener registered on it runs, in registration order. */
    method SocketDisconnected(sock: S.Sock)
      modifies this
      ensures State() == S.SocketDisconnected(old(State()), sock)
    {
      var i := 0;
      while i < |bindings|
        invariant 0 <= i <= |bindings|
        invariant bindings == old(bindings) && requests == old(requests) && outbox == old(outbox)
        invariant clients == old(clients) - S.BoundIds(bindings[..i], sock, S.ClientRole)
        invariant upstreams == old(upstreams) - S.BoundIds(bindings[..i], sock, S.UpstreamRole)
      {
        var b := bindings[i];
        S.BoundIdsSnoc(bindings[..i], b, sock, S.ClientRole);
        S.BoundIdsSnoc(bindings[..i], b, sock, S.UpstreamRole);
        assert bindings[..i + 1] == bindings[..i] + [b];
        if b.sock == sock {
          match b.role
          case ClientRole => clients := clients - {b.id};
          case UpstreamRole => upstreams := upstreams - {b.id};
        }
        i := i + 1;
      }
      assert bindings[..i] == bindings;
    }

    method HandleUpstreamError(brokerReqId: Id, err: Error)
      modifies this
      ensures State() == S.HandleUpstreamError(old(State()), brokerReqId, err)
    {
      SendBrokerError(brokerReqId, err);
    }

    method HandleUpstreamResponse(payload: ResponsePayload)
      modifies this
      ensures State() == S.HandleUpstreamResponse(old(State()), payload)
    {
      if payload.brokerReqId !in requests {
        return;
      }
      var request := requests[payload.brokerReqId];
      if request.clientSock !in clients {
        return;
      }
      var csock := clients[request.clientSock];
      RemoveRequest(request.id);
      outbox := outbox + [S.Emit(csock, BrokerResponse(payload))];
    }

    /** `client_request` from the client registered as `cid`; `newId` is the uuid minted, `now` the clock. */
    method HandleClientRequest(cid: Id, payload: ClientRequestPayload, newId: Id, now: int)
      requires newId !in requests
      modifies this
      ensures State() == S.HandleClientRequest(Config(), old(State()), cid, payload, newId, now)
    {
      if cid !in clients {
        return;
      }
      var ttl := now + reqTtl;
      var request := S.Record(payload, newId, cid, payload.upstreamTarget, ttl);
      requests := requests[newId := request];

      if payload.upstreamTarget !in upstreams {
        SendBrokerError(newId, S.NotFound(payload.upstreamTarget));
        return;
      }
      var usock := upstreams[payload.upstreamTarget];
      outbox := outbox + [S.Emit(usock, BrokerRequest(S.Enrich(id, request)))];
    }

    method SendBrokerError(reqId: Id, err: Error)
      modifies this
      ensures State() == S.SendBrokerError(old(State()), reqId, err)
    {
      if reqId !in requests {
        return;
      }
      var request := requests[reqId];
      if request.clientSock !in clients {
        return;
      }
      var csock := clients[request.clientSock];
      RemoveRequest(request.id);
      outbox := outbox + [S.Emit(csock, BrokerError(request.request.clientReqId, err))];
    }

    /** The request's timer fires. */
    method HandleRequestTimeout(reqId: Id)
      modifies this
      ensures State() == S.HandleRequestTimeout(old(State()), reqId)
    {
      if reqId !in requests {
        return;
      }
      RemoveRequest(reqId);
    }

    method RemoveRequest(reqId: Id)
      modifies this
      ensures State() == S.RemoveRequest(old(State()), reqId)
    {
      if reqId !in requests {
        return;
      }
      requests := requests - {reqId};
    }
  }
}
