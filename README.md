# http-longcut: the relay's correlation engines in Dafny

http-longcut tunnels HTTP requests from a public machine to a private one
through a broker. A **client agent** accepts inbound HTTP requests and sends
each one to the **broker** as a `client_request`. The broker routes it as a
`broker_request` to the **upstream agent** registered under the requested
target name. The upstream agent calls the private HTTP server and reports
back with an `upstream_response` or an `upstream_error`. The broker forwards
that report to the owning client as `broker_response` or `broker_error`, and
the client agent writes it to the original HTTP response. The client agent
also tunnels stream (socket.io) connections, which it announces to the
broker and tears down on either side's request.

Each of the three components is a single-threaded event handler over a few
tables keyed by id, and each is modelled in two layers:

- a **spec module** (`RelaySpec`, `ClientSpec`, `UpstreamSpec`) holds a `State`
  value and one pure function per handler, giving the state after that
  handler has run. Everything the component emits on a socket, writes to an
  HTTP response or hands to the HTTP client is appended to `outbox`. An
  `Event` type lists what the environment can make the component handle, and
  `Step`/`Run` replay a sequence of events. The properties about whole runs
  are lemmas over `Run`.
- a **class** (`Relay.Broker`, `ClientSide.ClientAgent`,
  `UpstreamSide.UpstreamAgent`) keeps the same tables as `map` fields and
  the outbox as a `seq` field. Its handler methods update them in place,
  as the source does. Each method is proved to leave the object in exactly
  the state the spec function gives (`ensures State() == S.F(old(State()), …)`).

`Wire` holds the message payloads and the `req_ttl` default. `Tunnel`
connects the three specs along one relayed request.

The environment's capabilities become parameters:

- each uuid the source mints is a `newId` argument, which the caller
  guarantees is not yet in the table;
- `Date.now()` is a `now` argument;
- a timer firing is a call to `HandleRequestTimeout`;
- the injected `http` function's callback is `HandleHttpResult`;
- socket `emit`/`disconnect` and the response's `statusCode`/`setHeader`/`end`
  are outbox entries.

Where the design documentation and the code disagree, the model follows
the code:

- the broker has no virtual-connection multiplexer;
- the upstream agent sets no TTL timer (`req_ttl` is stored and never used);
- it passes the URL to the HTTP call unchanged;
- it never deletes an entry from its table;
- the client agent forwards a local stream message without checking that
  the connection is still open (lib/ClientAgent.js:41-44).

The broker's `disconnect` listeners delete by id, not by socket, so a stale
socket's disconnect also removes a newer socket registered under the same
id. The broker state keeps a `bindings` list of the listeners registered so
far so that this behaviour is modelled as written
(`RelaySpec.StaleDisconnectDropsNewerBinding`).

## Model

| member | source | states |
|---|---|---|
| Wire.ConfiguredTtl | lib/Broker.js:4-10 | `args.req_ttl \|\| DEFAULT_TTL`: a missing or zero option gives 10000, any other value is kept; the result is never zero |
| RelaySpec.RegisterClient | lib/Broker.js:25-31 | binds the socket under the id in `clients`, overwriting any earlier binding; every other client entry, the upstream and request tables and the outbox are unchanged; exactly one disconnect listener, for this socket and id, is added and every other listener is kept |
| RelaySpec.RegisterUpstream | lib/Broker.js:34-42 | the same for `upstreams`: one binding and exactly one new listener, everything else unchanged |
| RelaySpec.Register | lib/Broker.js:16-20 | role "client" has exactly the effect of `registerClient` and role "upstream" that of `registerUpstream`, the other table untouched; any other role disconnects the socket and leaves every table and listener list unchanged |
| RelaySpec.SocketDisconnected | lib/Broker.js:29-38 | a disconnect runs the client listener (line 29) and the upstream listener (line 38) of every registration of the socket: it removes exactly those ids, in `clients` and in `upstreams`, whatever socket those ids are bound to now; requests and outbox are unchanged |
| RelaySpec.StaleDisconnectDropsNewerBinding | lib/Broker.js:26-29 | a socket that registered an id and then disconnects after another socket re-registered that id removes the newer binding |
| RelaySpec.RemoveRequest | lib/Broker.js:115-120 | deletes the record for the id if any (a no-op otherwise); no other table and no output changes |
| RelaySpec.RemoveRequestIdempotent | lib/Broker.js:115-120 | removing a request twice is the same as removing it once |
| RelaySpec.NotFound | lib/Broker.js:78 | the error's message is `Upstream target "<target>" not found` |
| RelaySpec.Enrich | lib/Broker.js:81-93 | the `broker_request` carries every client field unchanged plus `broker_id` = the broker's id, `broker_req_id` = the record's id and `broker_req_ttl` = its deadline |
| RelaySpec.SendBrokerError | lib/Broker.js:96-106 | with the record present and its client registered: removes the record and emits one `broker_error {client_req_id, error}` to that client; otherwise the state is unchanged |
| RelaySpec.HandleClientRequest | lib/Broker.js:63-94 | an unregistered client id changes nothing; an unknown target leaves no record and emits one `broker_error` with the client's request id and the not-found message; a known target files one record under the new id with deadline now + req_ttl and emits one `broker_request` to that upstream |
| RelaySpec.HandleUpstreamResponse | lib/Broker.js:51-61 | for a known `broker_req_id` whose client is registered: removes the record and forwards the payload unchanged as `broker_response` to that client; an unknown id or a departed client changes nothing, and the record is kept |
| RelaySpec.HandleUpstreamError | lib/Broker.js:46-49 | routed through `sendBrokerError`, with the same answered and no-op cases; clients, upstreams and listeners are unchanged |
| RelaySpec.HandleRequestTimeout | lib/Broker.js:108-113 | removes the record and emits nothing |
| RelaySpec.StepAnswers | lib/Broker.js:46-120 | every handler appends at most one output; it appends a `broker_response`/`broker_error` exactly when it answers a request that was pending or just minted, and that request is gone afterwards; records stay filed under their own ids |
| RelaySpec.AtMostOneAnswer | lib/Broker.js:53-59 | along any run with new uuids, a request that is pending or not yet minted is answered at most once, and one that is gone is never answered again |
| RelaySpec.AnsweredAtMostOnce | lib/Broker.js:96-120 | from a newly constructed broker, every `broker_req_id` gets at most one `broker_response`/`broker_error` over any run |
| Relay.Broker.constructor | lib/Broker.js:6-13 | empty tables; the TTL is the configured one |
| Relay.Broker.Register | lib/Broker.js:16-20 | leaves the broker in the state `RelaySpec.Register` gives |
| Relay.Broker.RegisterClient | lib/Broker.js:25-31 | leaves the broker in the state `RelaySpec.RegisterClient` gives |
| Relay.Broker.RegisterUpstream | lib/Broker.js:34-42 | leaves the broker in the state `RelaySpec.RegisterUpstream` gives |
| Relay.Broker.SocketDisconnected | lib/Broker.js:29-38 | runs every disconnect listener of the socket in turn, a loop proved to reach the state `RelaySpec.SocketDisconnected` gives |
| Relay.Broker.HandleUpstreamError | lib/Broker.js:46-49 | leaves the broker in the state `RelaySpec.HandleUpstreamError` gives |
| Relay.Broker.HandleUpstreamResponse | lib/Broker.js:51-61 | leaves the broker in the state `RelaySpec.HandleUpstreamResponse` gives |
| Relay.Broker.HandleClientRequest | lib/Broker.js:63-94 | leaves the broker in the state `RelaySpec.HandleClientRequest` gives |
| Relay.Broker.SendBrokerError | lib/Broker.js:96-106 | leaves the broker in the state `RelaySpec.SendBrokerError` gives |
| Relay.Broker.HandleRequestTimeout | lib/Broker.js:108-113 | leaves the broker in the state `RelaySpec.HandleRequestTimeout` gives |
| Relay.Broker.RemoveRequest | lib/Broker.js:115-120 | leaves the broker in the state `RelaySpec.RemoveRequest` gives |
| ClientSpec.StatusOf | lib/ClientAgent.js:134 | `status_code \|\| 200`: a missing or zero status becomes 200, any other is kept |
| ClientSpec.Register | lib/ClientAgent.js:73-75 | emits `register("client", id)` and changes no table |
| ClientSpec.SendClientRequest | lib/ClientAgent.js:91-116 | files exactly one record under the new id, holding the response handle and deadline now + req_ttl; every other record is unchanged; emits one `client_request` with the agent's id, the new id and deadline, the target, and the request's method, URL, headers and body |
| ClientSpec.RemoveRequest | lib/ClientAgent.js:162-167 | deletes the record for the id if any; nothing else changes |
| ClientSpec.RemoveRequestIdempotent | lib/ClientAgent.js:162-167 | removing a request twice is the same as removing it once |
| ClientSpec.HandleBrokerResponse | lib/ClientAgent.js:127-137 | for a pending id: removes the record, then writes the status (200 if absent), every header in order and the body, ending the response; an id that is not pending changes nothing |
| ClientSpec.HandleBrokerError | lib/ClientAgent.js:141-150 | for a pending id: removes the record and ends the response with status 500 and no body; otherwise nothing changes |
| ClientSpec.HandleRequestTimeout | lib/ClientAgent.js:152-160 | for a pending id: removes the record and ends the response with status 504 and no body; otherwise nothing changes |
| ClientSpec.SioRemoveConnection | lib/ClientAgent.js:68-70 | deletes the connection entry; nothing else changes |
| ClientSpec.SioHandleConnection | lib/ClientAgent.js:29-40 | adds the entry `{id, socket}` under the new id, keeps every other entry, and emits `client_sio_connection {upstream: target, connection: id}` |
| ClientSpec.SioHandleMessage | lib/ClientAgent.js:41-44 | forwards the message as `client_sio_message {connection, message}` unconditionally; no table changes |
| ClientSpec.SioHandleDisconnect | lib/ClientAgent.js:45-52 | for a known connection: removes it and emits one `client_sio_disconnection`; an unknown one changes nothing |
| ClientSpec.SioHandleUpstreamDisconnect | lib/ClientAgent.js:53-60 | for a known connection: removes it and disconnects its local socket; an unknown one changes nothing |
| ClientSpec.SioHandleUpstreamMessage | lib/ClientAgent.js:61-67 | for a known connection: replays the message on its local socket; an unknown one changes nothing |
| ClientSpec.ReplyEndsOnce | lib/ClientAgent.js:134-136 | a reply (status, headers, end) ends its own response exactly once and no other response |
| ClientSpec.StepKeepsInv | lib/ClientAgent.js:29-167 | every handler keeps the invariant: entries filed under their own ids, no response ended twice, a pending response not yet ended and owned by one record, no disconnection announced twice, none for an open connection |
| ClientSpec.RunKeepsInv | lib/ClientAgent.js:29-167 | the invariant holds after any run of events the environment can produce |
| ClientSpec.AtMostOnce | lib/ClientAgent.js:130-167 | from a new agent, over any interleaving of responses, errors, timeouts and stream events, every HTTP response is ended at most once and every stream disconnection is announced at most once |
| ClientSide.ClientAgent.constructor | lib/ClientAgent.js:6-15 | empty tables; the TTL is the configured one |
| ClientSide.ClientAgent.SioHandleConnection | lib/ClientAgent.js:29-40 | leaves the agent in the state `ClientSpec.SioHandleConnection` gives |
| ClientSide.ClientAgent.SioHandleMessage | lib/ClientAgent.js:41-44 | leaves the agent in the state `ClientSpec.SioHandleMessage` gives |
| ClientSide.ClientAgent.SioHandleDisconnect | lib/ClientAgent.js:45-52 | leaves the agent in the state `ClientSpec.SioHandleDisconnect` gives |
| ClientSide.ClientAgent.SioHandleUpstreamDisconnect | lib/ClientAgent.js:53-60 | leaves the agent in the state `ClientSpec.SioHandleUpstreamDisconnect` gives |
| ClientSide.ClientAgent.SioHandleUpstreamMessage | lib/ClientAgent.js:61-67 | leaves the agent in the state `ClientSpec.SioHandleUpstreamMessage` gives |
| ClientSide.ClientAgent.SioRemoveConnection | lib/ClientAgent.js:68-70 | leaves the agent in the state `ClientSpec.SioRemoveConnection` gives |
| ClientSide.ClientAgent.Register | lib/ClientAgent.js:73-75 | leaves the agent in the state `ClientSpec.Register` gives |
| ClientSide.ClientAgent.SendClientRequest | lib/ClientAgent.js:91-116 | leaves the agent in the state `ClientSpec.SendClientRequest` gives |
| ClientSide.ClientAgent.HandleBrokerResponse | lib/ClientAgent.js:127-137 | sets the status, then sets the headers one by one in a loop proved to write exactly `ClientSpec.HeaderWrites`, then ends the response: the state `ClientSpec.HandleBrokerResponse` gives |
| ClientSide.ClientAgent.HandleBrokerError | lib/ClientAgent.js:141-150 | leaves the agent in the state `ClientSpec.HandleBrokerError` gives |
| ClientSide.ClientAgent.HandleRequestTimeout | lib/ClientAgent.js:152-160 | leaves the agent in the state `ClientSpec.HandleRequestTimeout` gives |
| ClientSide.ClientAgent.RemoveRequest | lib/ClientAgent.js:162-167 | leaves the agent in the state `ClientSpec.RemoveRequest` gives |
| UpstreamSpec.CallFor | lib/UpstreamAgent.js:29-36 | the HTTP call carries the request's method, URL (unchanged), headers and body |
| UpstreamSpec.HandleBrokerRequest | lib/UpstreamAgent.js:19-41 | stores the payload, with its id set to the new id, under that id; every other entry is unchanged; issues exactly one HTTP call, bound to the new id |
| UpstreamSpec.SendBrokerRequestAck | lib/UpstreamAgent.js:46-51 | for a stored id emits `broker_request_ack {broker_req_id, upstream_req_id: local id}`; an unknown id changes nothing; the table never changes |
| UpstreamSpec.ResponseFor | lib/UpstreamAgent.js:58-66 | the `upstream_response` carries the client and broker request ids, the local id, `res.statusCode`, `res.headers` and the body |
| UpstreamSpec.SendUpstreamResponse | lib/UpstreamAgent.js:54-67 | for a stored id emits one `upstream_response`, keeping the entry; an unknown id changes nothing |
| UpstreamSpec.SendUpstreamError | lib/UpstreamAgent.js:70-79 | for a stored id emits one `upstream_error {broker_req_id, error}`, keeping the entry; an unknown id changes nothing |
| UpstreamSpec.HandleHttpResult | lib/UpstreamAgent.js:37-40 | the HTTP callback emits exactly one message for a stored id: `upstream_error` on an error, `upstream_response` otherwise; the table never changes |
| UpstreamSpec.RunOnlyGrows | lib/UpstreamAgent.js:19-79 | no run removes or alters a stored entry: the table only grows |
| UpstreamSpec.StepKeepsInv | lib/UpstreamAgent.js:19-41 | every handler keeps the invariant that entries are filed under their own ids and every HTTP call issued belongs to a stored entry and was built from it |
| UpstreamSpec.RunKeepsInv | lib/UpstreamAgent.js:19-79 | that invariant holds after any run with new uuids |
| UpstreamSpec.CompletionIsReported | lib/UpstreamAgent.js:37-40 | whenever the callback of an HTTP call the agent issued fires, the agent sends the broker exactly one reply, addressed by the `broker_req_id` of the request the call was made for |
| UpstreamSide.UpstreamAgent.constructor | lib/UpstreamAgent.js:6-16 | an empty table; the TTL is the configured one |
| UpstreamSide.UpstreamAgent.HandleBrokerRequest | lib/UpstreamAgent.js:19-41 | leaves the agent in the state `UpstreamSpec.HandleBrokerRequest` gives |
| UpstreamSide.UpstreamAgent.HandleHttpResult | lib/UpstreamAgent.js:37-40 | leaves the agent in the state `UpstreamSpec.HandleHttpResult` gives |
| UpstreamSide.UpstreamAgent.SendBrokerRequestAck | lib/UpstreamAgent.js:46-51 | leaves the agent in the state `UpstreamSpec.SendBrokerRequestAck` gives |
| UpstreamSide.UpstreamAgent.SendUpstreamResponse | lib/UpstreamAgent.js:54-67 | leaves the agent in the state `UpstreamSpec.SendUpstreamResponse` gives |
| UpstreamSide.UpstreamAgent.SendUpstreamError | lib/UpstreamAgent.js:70-79 | leaves the agent in the state `UpstreamSpec.SendUpstreamError` gives |
| Tunnel.RequestReachesUpstreamUnchanged | lib/Broker.js:81-93 | a request relayed by a registered client to a registered target reaches the upstream agent's HTTP call with its method, URL, headers and body unchanged, filed with both the client's and the broker's request ids |
| Tunnel.ResponseReachesCaller | lib/UpstreamAgent.js:54-67 | an HTTP success is forwarded unchanged by the broker to the owning client, which writes its status, headers and body to the original response and drops its record |
| Tunnel.FailureReachesCaller | lib/Broker.js:46-49 | an HTTP failure reaches the owning client as `broker_error` with the same error and ends the original response with status 500 |
| Tunnel.UnknownTargetReachesCaller | lib/Broker.js:77-78 | a request for an unregistered target leaves no broker record and ends the original response with status 500; the error message names the target |

## Left out

- bin/broker.js, bin/client-agent.js, bin/upstream-agent.js, bin/test-conn.js and bin/server-side.js are command-line wiring and server start-up. They are I/O plumbing and are not part of this model.
- lib/transform-url.js wraps Node's `url` module and no modelled file calls it. It is not part of this model.
- `handleHTTPRequest` (lib/ClientAgent.js:77-87) only buffers the request body from the stream. The model starts at `sendClientRequest` with the fully buffered body as a parameter.
- `handleClientRequestAck` (lib/ClientAgent.js:120-123) only logs, and `handleBrokerRequestAck` (lib/Broker.js:44) is empty and does nothing. They appear as no-op events (`OnClientRequestAck`, `OnBrokerRequestAck`).
- Logging calls and the per-request child logger have no effect on state and are left out.
- Timers are not state. `setTimeout` is modelled by letting the environment call `HandleRequestTimeout` at any time. `clearTimeout` is not modelled, because a timeout for a removed id is a no-op in both the broker and the client agent.
- UpstreamAgent: the deadline `handleBrokerRequest` computes from `Date.now()` is only logged, so the method takes no clock argument.
- Uuid uniqueness is a precondition (`newId !in …` on the methods; `Enabled`, `ValidRun` and `FreshAlong` for runs). The model does not produce ids itself.
- JavaScript truthiness is modelled only where the code relies on it: `req_ttl || DEFAULT_TTL` and `status_code || 200` treat zero like a missing value. A registered socket, a record and a connection entry are objects and so always truthy.
- The source builds a broker record by mutating the incoming payload object and filing that object itself (lib/Broker.js:69-75). The model files a new record value that holds a copy of the payload, so it does not capture the aliasing. The aliasing is observable only when one socket registers more than once, as the next lines describe.
- The model runs each broker handler once per incoming event. The source attaches a fresh set of listeners at every registration (lib/Broker.js:28-30, 37-41), so a socket that registers k times runs each handler k times per event. Only the `disconnect` listeners are modelled per registration, through `bindings`. The model therefore assumes every socket registers at most once, as the command-line agents do.
- RelaySpec.HandleClientRequest: weaker than the source for a client socket registered twice. One `client_request` event then runs `handleClientRequest` twice on the same payload object. The source files that one object under two new ids, id1 and id2, and leaves its `id` set to id2. A later `upstream_response` for id1 then removes id2 (lib/Broker.js:59), and id1 stays until its timer fires. The model files two independent records.
- Relay.Broker.HandleClientRequest: the same gap, since its new state is `RelaySpec.HandleClientRequest` of the old.
- RelaySpec.AtMostOneAnswer: holds in the source only if every socket registers at most once. In the situation just described, if the upstream socket also registered twice, its second `upstream_response` listener still finds id1 and sends a second `broker_response` for it.
- RelaySpec.AnsweredAtMostOnce: the same assumption and the same divergence, from a newly constructed broker.
- The tables are plain JavaScript objects (lib/Broker.js:11-13, lib/ClientAgent.js:14-15, lib/UpstreamAgent.js:13), and the model treats them as maps. Ids are assumed not to name `Object.prototype` members. For such an id the source differs from the model:
  - `upstream_target: "constructor"` finds the truthy `Object` at lib/Broker.js:77. The source then throws at line 81, emits nothing, and keeps the record until its timer fires, so the caller gets 504. The model answers with the not-found `broker_error`.
  - `register("client", "__proto__")` replaces the table's prototype instead of adding an entry.
  - A `broker_response` for `client_req_id: "toString"` throws at lib/ClientAgent.js:134.
- Header copying (`_.each` over the headers object) is modelled as a sequence of name/value pairs in iteration order. Duplicate names are not merged.
- Request bodies, error objects other than their name and message, and stream message argument lists are uninterpreted values.
- test/UpstreamAgent.js:62 expects a rewritten URL. The code passes the URL through unchanged, and the model follows the code.
