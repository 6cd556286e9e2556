/**
 * The three components wired together along one relayed HTTP request:
 * what the client agent emits is what the broker receives, and so on. The
 * lemmas follow a request from the inbound HTTP call to the private server
 * and its outcome back to the original caller.
 */
module Tunnel {
  import opened Wire
  import C = ClientSpec
  import B = RelaySpec
  import U = UpstreamSpec

  /** The last message a step appended to a client agent's outbox, as a `client_request` payload. */
  function SentRequest(before: C.State, after: C.State): ClientRequestPayload
    requires |after.outbox| == |before.outbox| + 1
    requires after.outbox[|before.outbox|].ToBroker? && after.outbox[|before.outbox|].msg.ClientRequest?
  {
    after.outbox[|before.outbox|].msg.request
  }

  /**
   * An inbound HTTP request, relayed by a client agent registered at the
   * broker as `cid` to a target that is registered there, reaches the
   * upstream agent's HTTP call with its method, URL, headers and body
   * unchanged, and the upstream agent files it with both correlation ids.
   */
  lemma RequestReachesUpstreamUnchanged(
    cc: C.Config, cs: C.State, req: C.HttpRequest, res: C.Res, body: Body, clientReqId: Id, now: int,
    bc: B.Config, b: B.State, cid: Id, brokerReqId: Id, brokerNow: int,
    u: U.State, upstreamReqId: Id)
    requires cid in b.clients && cc.upstreamTarget in b.upstreams
    ensures var cs' := C.SendClientRequest(cc, cs, req, res, body, clientReqId, now);
            var p := SentRequest(cs, cs');
            var b' := B.HandleClientRequest(bc, b, cid, p, brokerReqId, brokerNow);
            && |b'.outbox| == |b.outbox| + 1
            && b'.outbox[|b.outbox|].Emit?
            && b'.outbox[|b.outbox|].sock == b.upstreams[cc.upstreamTarget]
            && b'.outbox[|b.outbox|].msg.BrokerRequest?
            && var q := b'.outbox[|b.outbox|].msg.forwarded;
               var u' := U.HandleBrokerRequest(u, q, upstreamReqId);
               && u'.outbox == u.outbox + [U.Http(upstreamReqId, U.HttpCall(req.httpMethod, req.url, req.headers, body))]
               && u'.requests[upstreamReqId].request.clientReqId == clientReqId
               && u'.requests[upstreamReqId].request.brokerReqId == brokerReqId
  {
    var cs' := C.SendClientRequest(cc, cs, req, res, body, clientReqId, now);
    var p := SentRequest(cs, cs');
    assert p.upstreamTarget == cc.upstreamTarget && p.clientReqId == clientReqId;
    var b' := B.HandleClientRequest(bc, b, cid, p, brokerReqId, brokerNow);
    var q := B.Enrich(bc.id, b'.requests[brokerReqId]);
    assert b'.outbox[|b.outbox|] == B.Emit(b.upstreams[cc.upstreamTarget], BrokerRequest(q));
    assert ClientFields(q) == p;
  }

  /**
   * The private server's response travels back unchanged: the upstream
   * agent's `upstream_response` is forwarded by the broker to the owning
   * client, which writes its status, headers and body to the original
   * caller's response and ends it.
   */
  lemma ResponseReachesCaller(
    u: U.State, upstreamReqId: Id, res: U.HttpResponse, body: Body,
    b: B.State, cs: C.State)
    requires upstreamReqId in u.requests
    requires var q := u.requests[upstreamReqId].request;
             && q.brokerReqId in b.requests && b.requests[q.brokerReqId].clientSock in b.clients
             && q.clientReqId in cs.requests
    ensures var q := u.requests[upstreamReqId].request;
            var u' := U.HandleHttpResult(u, upstreamReqId, U.Completed(res, body));
            var p := u'.outbox[|u.outbox|].msg.response;
            var b' := B.HandleUpstreamResponse(b, p);
            var cs' := C.HandleBrokerResponse(cs, p);
            && b'.outbox == b.outbox + [B.Emit(b.clients[b.requests[q.brokerReqId].clientSock], BrokerResponse(p))]
            && cs'.outbox == cs.outbox + C.Reply(cs.requests[q.clientReqId].res, C.StatusOf(Some(res.statusCode)), res.headers, Some(body))
            && cs.requests[q.clientReqId].id !in cs'.requests
  {
  }

  /**
   * A failed call to the private server reaches the original caller as
   * HTTP 500 with no body, by way of `upstream_error` and `broker_error`.
   */
  lemma FailureReachesCaller(
    u: U.State, upstreamReqId: Id, err: Error,
    b: B.State, cs: C.State)
    requires upstreamReqId in u.requests
    requires var q := u.requests[upstreamReqId].request;
             && q.brokerReqId in b.requests && b.requests[q.brokerReqId].clientSock in b.clients
             && b.requests[q.brokerReqId].request.clientReqId in cs.requests
    ensures var q := u.requests[upstreamReqId].request;
            var u' := U.HandleHttpResult(u, upstreamReqId, U.Failed(err));
            var m := u'.outbox[|u.outbox|].msg;
            var b' := B.HandleUpstreamError(b, m.brokerReqId, m.error);
            var rec := b.requests[q.brokerReqId];
            && b'.outbox == b.outbox + [B.Emit(b.clients[rec.clientSock], BrokerError(rec.request.clientReqId, err))]
            && C.HandleBrokerError(cs, rec.request.clientReqId, err).outbox
               == cs.outbox + C.Reply(cs.requests[rec.request.clientReqId].res, 500, [], None)
  {
  }

  /**
   * A request for a target no upstream agent is registered under reaches
   * the original caller as HTTP 500, and the broker keeps no record of it.
   */
  lemma UnknownTargetReachesCaller(
    bc: B.Config, b: B.State, cid: Id, p: ClientRequestPayload, brokerReqId: Id, now: int, cs: C.State)
    requires cid in b.clients && p.upstreamTarget !in b.upstreams && brokerReqId !in b.requests
    requires p.clientReqId in cs.requests
    ensures var b' := B.HandleClientRequest(bc, b, cid, p, brokerReqId, now);
            && b'.requests == b.requests
            && b'.outbox[|b.outbox|].msg.BrokerError?
            && var m := b'.outbox[|b.outbox|].msg;
               && m.error.message == "Upstream target \"" + p.upstreamTarget + "\" not found"
               && C.HandleBrokerError(cs, m.clientReqId, m.error).outbox
                  == cs.outbox + C.Reply(cs.requests[p.clientReqId].res, 500, [], None)
  {
  }
}
