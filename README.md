# WebSocket broadcast backend — a Dafny model

This project models the connection registry and broadcast engine of the
standalone WebSocket test server, the class `WebSocketBroadcastBackend` in
`test-server/server.py`. The backend keeps a dictionary from every live
WebSocket connection to the set of channel names it subscribes to. A
per-connection handler registers the connection on accept, applies inbound
`{"subscribe": [...]}` / `{"unsubscribe": [...]}` frames to its set, and
removes it on every exit path. `broadcast` sends one
`{"channel", "event", "payload"}` message to every connection subscribed to
the channel, swallowing per-connection send failures. `get_subscriber_count`
and `get_total_connections` count, and `close` closes every connection and
empties the registry.

Files:

- `protocol.dfy` (module `Protocol`): the outbound `Message`, the inbound
  `Frame` as seen through its two keys, and what a frame does to one
  subscription set (`Subscribe`, `Unsubscribe`, `ApplyFrame`), with lemmas.
- `registry.dfy` (module `Registry`): the registry state as values — the map
  and the insertion order of its keys — with the specification functions
  `Without` (dictionary `pop`), `Subscribers` and `SubscriberSet`, and the
  lemmas relating them.
- `backend.dfy` (module `Backend`): the class `BroadcastBackend` with a
  `conns: map<C, set<string>>` field and an `order: seq<C>` field, and one
  method per operation, each proved against the functions of `Registry`
  and `Protocol`.

Modelling decisions:

- Connections are values of a type parameter `C` with equality.
- A Python `dict` iterates in insertion order. `broadcast` and `close` loop
  over `list(self._connections.items())` and `list(...keys())`, so the class
  keeps that order in `order`. `Valid()` says that `order` lists every key
  of `conns` exactly once.
- The `asyncio.Lock` sections run as single steps: each method is one
  atomic step. `Broadcast` only reads the state: it has no `modifies`
  clause.
- A send or close that raises is an input, not a random event. The
  parameter `failing` names the connections whose `send_text` (or `close`)
  raises. The targets chosen do not depend on it. The result records each
  attempt and whether it went through.
- `json.dumps` is not modelled: the message is the datatype `Message`,
  built once and carried unchanged by every attempt.
- A frame for a connection that is no longer in the dictionary, for
  instance after `close()` emptied it, raises `KeyError` at
  `self._connections[websocket]` (server.py:72, 78). That ends the read
  loop, the `finally` block pops the connection, and the exception
  propagates. `HandleFrame` returns `KeyMissing` and leaves the map
  unchanged. This happens only when a field holds a list, because the
  `isinstance` check comes before the lookup. `Serve` takes a `Shutdown`
  input saying whether, and before which frame, `close()` runs during the
  session.
- Assigning to a key that is already in the dictionary resets its set to
  empty and keeps its position, and `Register` says exactly that.
- `broadcast` holds the lock while it sends (server.py:102-109), so nothing
  changes the registry during a broadcast.

## Model

| member | source | states |
|---|---|---|
| Backend.BroadcastBackend.constructor | test-server/server.py:50-52 | a new backend holds no connection and satisfies the registry invariant |
| Backend.BroadcastBackend.Register | test-server/server.py:60-62 | the connection maps to an empty set; a new connection is appended to the key order and raises the count by one; every other connection keeps its set |
| Backend.BroadcastBackend.HandleFrame | test-server/server.py:66-78 | for a registered connection its set becomes `ApplyFrame` of the old set and nothing else changes; `KeyMissing` exactly when the connection is absent and some field holds a list, with the map unchanged |
| Protocol.Subscribe | test-server/server.py:68-72 | `set.update`: the old set is kept and a channel is in the result iff it was in the set or in the list |
| Protocol.Unsubscribe | test-server/server.py:74-78 | `set.difference_update`: the result is within the old set and holds a channel iff it was there and is not listed |
| Protocol.ApplyFrame | test-server/server.py:68-78 | a channel is subscribed after a frame iff it was subscribed or listed under "subscribe", and is not listed under "unsubscribe" (fields not holding a list count as empty) |
| Protocol.SubscribePresentIsNoOp | test-server/server.py:72 | subscribing to channels already present changes nothing |
| Protocol.SubscribeIdempotent | test-server/server.py:72 | subscribing to a list twice equals subscribing once |
| Protocol.SubscribeTwiceUnsubscribeOnce | test-server/server.py:68-78 | subscribing to `c` twice and unsubscribing once leaves `c` absent and the set as it was less `c` |
| Protocol.FrameWithoutListsIgnored | test-server/server.py:68-78 | a frame with neither key, or with values that are not lists, leaves the set unchanged |
| Protocol.SubscribeBeforeUnsubscribe | test-server/server.py:68-78 | with both keys, subscribe is applied first: a channel in both lists ends absent, one only under "subscribe" ends present |
| Backend.BroadcastBackend.Unregister | test-server/server.py:82-84 | the connection and its set are removed and the key order loses it; when it was absent, nothing changes |
| Registry.Without | test-server/server.py:84 | the key order after `pop`: holds exactly the old keys other than the popped one, and is no longer |
| Registry.WithoutAbsent | test-server/server.py:84 | popping an absent key leaves the key order unchanged |
| Registry.WithoutIdempotent | test-server/server.py:84 | popping twice equals popping once |
| Registry.WithoutConcat | test-server/server.py:84 | `pop` keeps the other keys in their relative order: removing from two consecutive stretches is removing from each |
| Registry.WithoutDistinct | test-server/server.py:84 | popping keeps the key order free of repetitions |
| Registry.WithoutAppended | test-server/server.py:60-84 | registering a new connection and then popping it restores the key order |
| Backend.BroadcastBackend.Serve | test-server/server.py:59-84 | the whole handler (register, every frame, cleanup in `finally`): with no shutdown during the session the registry ends as before less the connection; when `close()` runs before frame `k` it ends empty; the handler raises `KeyError` exactly when some frame from `k` on holds a list, and otherwise returns normally on disconnect and propagates a read error |
| Backend.BroadcastBackend.Broadcast | test-server/server.py:88-109 | the message is `{channel, event_type, payload}`; the attempts go, in registry order, to exactly `Subscribers(order, conns, channel)`, each carrying that message, each delivered iff its connection is not failing; the registry is not modified |
| Registry.Subscribers | test-server/server.py:103-104 | the entries whose set holds the channel, in order; never longer than the entries |
| Registry.SubscribersMembers | test-server/server.py:103-104 | a connection is listed iff it is one of the entries, registered and subscribed to the channel |
| Registry.SubscribersOfRegistry | test-server/server.py:102-109 | over the registry's own order, broadcast targets are exactly the registered connections subscribed to the channel |
| Registry.SubscribersDistinct | test-server/server.py:103-106 | no connection is sent to twice by one broadcast |
| Registry.SubscribersMatchSet | test-server/server.py:102-117 | the number of broadcast targets equals the number of subscribers |
| Registry.SubscriberSet | test-server/server.py:111-117 | the registered connections whose set holds the channel |
| Backend.BroadcastBackend.SubscriberCount | test-server/server.py:111-117 | the counting loop returns the number of registered connections subscribed to the channel, and that is at most the number of connections |
| Registry.SubscriberCountBound | test-server/server.py:111-121 | no channel has more subscribers than the total number of connections |
| Backend.BroadcastBackend.TotalConnections | test-server/server.py:119-121 | `len` of the dictionary equals the number of keys in the registry's key order |
| Registry.KeyCount | test-server/server.py:119-121 | under the registry invariant the map has as many keys as the key order has entries |
| Backend.BroadcastBackend.Close | test-server/server.py:127-135 | a close is attempted on every connection in registry order, each succeeding iff not failing; afterwards the map and the order are empty and the total is 0, whatever failed |

## Left out

- Concurrency: the `asyncio.Lock` and the interleavings of handlers, broadcasts and `close`. Each locked block is modelled as one step.
- HandleFrame: runs the "subscribe" and "unsubscribe" blocks of one frame as one step. The code takes the lock twice, so a `close` between the two blocks could apply the subscription and then raise `KeyError` at the unsubscription.
- Serve: the only operation it lets interleave with a session is one `close()`, between two frames. Broadcasts and other handlers during a session are captured only by the separate steps `Register`, `HandleFrame` and `Unregister`. The frames read after that `close()` are an input: the model does not tie the closed socket to what `receive_json` then returns.
- WebSocket transport (`accept`, `receive_json`, `send_text`, `close`): connections are opaque values. Send and close failures are the `failing` input. The end of the inbound stream is the `StreamEnd` input.
- Inbound JSON that is not an object (a list, string, number or null) is not modelled. For such a value the code's `in` test and indexing either skip the frame or raise `TypeError`, which would end the handler like `ReadError`.
- List elements that are not strings are not modelled. The code would add hashable non-strings to the set and raise `TypeError` for unhashable ones.
- JSON number values in payloads are integers only. The engine never inspects a payload.
- `json.dumps` serialisation and the JSON text sent: the message is a datatype record.
- `health_check`, the HTTP endpoints `/health` and `/test/broadcast`, the Pydantic models, CORS, the lifespan hook and the uvicorn start-up: these are framework wiring around the backend.
- `examples/broadcast-integration/backend-setup.py`: application wiring whose broadcast backend comes from a package that is not part of this model.
