# WebSocket relay hub, modelled in Dafny

`server.js` is a small relay hub for a web front end and a Unity client. Every
connection gets the next id from a counter that starts at 1 and is entered in a
registry (a JavaScript `Map` from socket to `{id, type, ip}`) with type
`unknown`. It is then sent a welcome prompt. A text message is handled in one of three ways:

- `register:web` or `register:unity` sets the connection's type, confirms it to
  the sender with `registered:<type>:<id>`, and announces
  `<type>-client-connected:<id>` to every OPEN client, the sender included.
- Any other `register:` message is dropped.
- Anything else is wrapped as `{source: <type>, sourceId: <id>, data}` and
  relayed to every OPEN client except the sender.

When a socket closes, its departure is announced if it had registered, and its
entry is deleted. A periodic sweep deletes every entry whose socket is CLOSING or
CLOSED.

The model has four modules.

- `Protocol` (`protocol.dfy`) holds the vocabulary: handles, the four
  `readyState` values, roles, the classification of an inbound message
  (`Classify`) and the outbound messages as a datatype.
- `Routing` (`routing.dfy`) holds pure definitions of what the loops over
  the registry produce, in the registry's iteration order (the insertion order
  of its keys):
  - `Fanout` gives the sends of a broadcast;
  - `Swept` and `StaleKeys` give the keys a sweep keeps and deletes;
  - `Without` gives the keys left after a delete.

  The lemmas about them live here too.
- `Relay` (`hub.dfy`) is the server itself, as the class `Hub`. Its fields
  are those the handlers update in place:
  - `clients`: the registry;
  - `order`: the insertion order of the registry's keys;
  - `nextClientId`: the id counter;
  - `sessions`: the record each connection's handlers hold;
  - `sent`: every `send`, in order.

  Each handler and both broadcast loops are methods. Each is proved against
  the `Routing` definitions, and each keeps the invariant `Consistent`:
  - the key order has no repeats and matches the registry;
  - every registry entry is the record its handlers hold;
  - ids are distinct and below the counter.
- `Scenarios` (`scenarios.dfy`) holds whole sessions from a fresh server. Each
  gives the exact log of sends and the final registry, using only the
  handlers' contracts.

The registry and each connection's handlers share one record object. A change
of type made through the handlers is therefore seen in the registry. After the
sweep has dropped an entry, the handlers still hold the record, so a late close
still announces the departure and its delete finds nothing. `sessions` models
this sharing.

A role is not set once: every `register:web` or `register:unity` overwrites
the type, confirms it and announces it again (server.js:37-45); see
`Relay.Hub.OnMessage` and `Scenarios.RegisterTwice`.

A client that registers while alone still receives its own announcement, since
it is OPEN and in the registry (server.js:45, 97-99); see
`Scenarios.RegisterRelayDisconnect`.

## Model

| member | source | states |
|---|---|---|
| `Protocol.Classify` | server.js:35-49 | With the `register:` prefix and a rest of exactly `web` or `unity`, the result sets that role, and only then. With the prefix and any other rest, the message is ignored. Without the prefix, the whole message is relayed unchanged. |
| `Routing.FanoutRecipients` | server.js:81-102 | A broadcast sends its one message and nothing else. A handle receives it exactly when it is a registry key, its socket is OPEN and it is not the excluded sender. It makes no more sends than there are keys. |
| `Routing.FanoutDistinct` | server.js:82-87 | Over a registry without repeated keys, no client gets the same broadcast twice. |
| `Routing.FanoutSkipIsWithout` | server.js:81-102 | A data broadcast that excludes the sender makes the same sends, in the same order, as a system broadcast over the registry with the sender deleted. |
| `Routing.SweptMembers` | server.js:106-108 | The sweep keeps exactly the keys whose socket is neither CLOSING nor CLOSED (OPEN and CONNECTING stay). It keeps each once, and it preserves the absence of repeated keys. |
| `Routing.StaleKeysMembers` | server.js:107 | The keys the sweep deletes are exactly the registry keys whose socket is CLOSING or CLOSED. |
| `Routing.SweptIdempotent` | server.js:105-111 | A second sweep with the same socket states deletes nothing more. |
| `Routing.SweptWithoutCommute` | server.js:73-108 | The close handler's delete and the sweep leave the same key order in either order. |
| `Routing.WithoutMembers` | server.js:73 | Deleting a key leaves every other key, once each, and nothing else. |
| `Routing.WithoutAbsent` | server.js:73 | Deleting a key that is not in the registry changes nothing. |
| `Relay.ConsistentConnect` | server.js:15-25 | Entering a new socket under the counter's value and incrementing the counter keeps the invariant. In particular the new id differs from the id of every connection still held. |
| `Relay.ConsistentSetRole` | server.js:38 | Overwriting a connection's type in the record that the handlers and the registry share keeps the invariant. |
| `Relay.ConsistentClose` | server.js:73 | Deleting the closed socket keeps the invariant. |
| `Relay.ConsistentSweep` | server.js:106-108 | Deleting the stale registry entries keeps the invariant, while the handlers keep their records. |
| `Relay.Hub.constructor` | server.js:8-11 | The server starts with an empty registry, no sends, and the counter at 1. |
| `Relay.Hub.OnConnect` | server.js:13-25 | The new connection gets the counter's value as its id, and that id is above the id of every connection still held; since no handler lowers the counter, it is never reused. The counter goes up by one. The socket is entered as `unknown` with its address, appended to the key order, and nothing else in the registry changes. Exactly one message is sent: the welcome to the new socket (server.js:77). |
| `Relay.Hub.OnMessage` | server.js:30-61 | A registration as `web` or `unity` overwrites the type whatever it was. It then sends the confirmation with the id to the sender, followed by the system broadcast of the connection to the current registry. A registration with any other suffix changes nothing and sends nothing. Any other message is relayed with the sender's current type and id to the registry minus the sender. The key order and the counter never change. |
| `Relay.Hub.OnClose` | server.js:64-74 | If the type is not `unknown`, the disconnection is broadcast to the registry as it was before the delete; otherwise nothing is sent. Afterwards the socket is absent from the registry and its key order. If it was already absent, the registry is unchanged. The invariant is kept. |
| `Relay.Hub.Broadcast` | server.js:81-88 | The loop appends exactly `Fanout` of the registry with the sender excluded. |
| `Relay.Hub.BroadcastSystemMessage` | server.js:91-102 | The loop appends exactly `Fanout` of the registry with no one excluded. |
| `Relay.Hub.Sweep` | server.js:105-111 | The registry loses exactly the stale keys, with the surviving entries' records untouched. The key order becomes `Swept` of the old order. The handlers' records are kept, and so is the invariant. |
| `Relay.Hub.DeleteStale` | server.js:106-111 | The visit deletes exactly `StaleKeys` of the registry's keys, one entry at a time. |
| `Scenarios.RegisterRelayDisconnect` | server.js:13-102 | Web client A (id 1) and unity client B (id 2) register, then B relays `hello` and disconnects. The exact log contains nine sends, the last being the disconnection announced to A alone. The final registry holds only A, as web. |
| `Scenarios.UnknownRoleStillRelays` | server.js:35-59 | `register:martian` sends nothing and leaves A `unknown`. A's next plain message reaches B alone, tagged `unknown` with id 1. |
| `Scenarios.RegisterTwice` | server.js:35-45 | Registering as web and then as unity is accepted twice. Each registration is confirmed and announced, and the type ends as unity. |
| `Scenarios.SweepBeforeClose` | server.js:64-111 | B is swept while CLOSING. Its late close handler still announces B's departure from its own record, and its delete leaves the registry as the sweep did. |

## Left out

- The `ws` server, port 8080 and the WebSocket transport are left out. A socket is a number standing for its identity.
- A socket's `readyState` is given to each handler as a total function from handles to states. It is not part of the hub's state.
- Logging (`console.log`) is left out: it has no effect on the registry or on what is sent.
- The 60-second `setInterval` is left out. The sweep is an operation that can run between any two events.
- The exact texts built by template strings and `JSON.stringify` are left out. Outbound messages are a datatype, and `data.toString()` decoding is replaced by taking the message as a string.
- The text of the welcome prompt is left out: it is one constant message.
- Interleaving of events is left out. Each handler runs as one atomic step, as Node's single event loop runs it.
- Send failures are left out. A `send` is an append to the log, whether or not the socket is still open for the unconditional sends to the sender.
- Ids are unbounded naturals. JavaScript numbers lose precision above 2^53, which is not modelled.
- Relay.Hub.OnMessage: requires the socket's handlers to still be live (`ws in sessions`), because `ws` fires no message event after a close.
- Relay.Hub.OnConnect: requires a socket never seen before, because every connection event brings a new socket object.
- Relay.Hub.OnClose: requires the socket's handlers to still be live (`ws in sessions`), because its close handler exists only for a connected socket and `ws` fires close once.
- Relay.Hub.Sweep: the in-place deletion is modelled on the registry map only. The key order is replaced by its filtered copy after the visit, which is what deleting during a `Map.forEach` leaves.
