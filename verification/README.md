# KothaHobe signalling relay — Dafny model

This project models the server side of KothaHobe's anonymous video-chat
matchmaking. The server keeps one global **waiting slot**, which is empty or
holds one connection. It also keeps a **pairing map** from each connected peer
to its partner. Over WebSocket, it handles four kinds of client frames:

- `join_queue`: pair with the waiter, or become the waiter;
- `leave_queue`: give up the slot and end any pairing;
- `signal`: forwarded unchanged to the partner;
- `message`: chat, forwarded unchanged to the partner.

When a socket closes, its pairing ends and the surviving partner receives
`partner_disconnected`.

Each handler is one atomic step of Node's event loop, so it is modelled as a
pure transition on an immutable `State`. The state has five parts:

- the waiting slot;
- the pairing map;
- the set of connections whose socket is OPEN;
- the number of match records written;
- a log of every message the server sent, in order.

Modules:

- `Wrappers` (`wrappers.dfy`): `Option`, where `None` stands for JavaScript's `undefined`.
- `Json` (`json.dfy`): parsed JSON values and property access. With duplicate keys, the last one wins, as in `JSON.parse`.
- `Protocol` (`protocol.dfy`): the event tags from `shared/schema.ts` and the dispatcher's reading of an inbound frame. It also holds the frames the server writes and two readers of those frames. One reader follows the shape the server writes. The other reads as the browser client actually does.
- `Server` (`server.dfy`): the state, the invariant, the per-connection status, and the handlers `Join`, `Leave`, `Disconnect`, `Relay` and `Dispatch`.
- `Events` (`events.dfy`): transport events (connect, frame, socket closing, close), `Step`, `Run`, the match accounting, the life-cycle lemma, and two worked scenarios.

The invariant, `Server.Valid`, has three parts:

- the pairing map is symmetric;
- no connection is paired with itself;
- the waiter is not paired.

Every handler preserves it, and so does every event sequence starting from
`Init`.

The code sends `initiator: true` to the **joining** connection and
`initiator: false` to the former waiter (`server/routes.ts:78-79`). The
`matched` frame carries `initiator` as a top-level member, not inside a
`payload`.

## Model

| member | source | states |
|---|---|---|
| Json.Lookup | server/routes.ts:32 | a member found in a parsed object is one of its textual members; a key that is absent gives `undefined` |
| Json.Member | server/routes.ts:34-48 | `message.type` / `message.payload`: only a parsed object has a member; a member found is one of the object's textual members, and `undefined` means no member has that key |
| Json.LookupIsLastOccurrence | server/routes.ts:32 | with duplicate keys, member access gives exactly the value of the last occurrence (both directions) |
| Protocol.TypeTag | server/routes.ts:32-34 | the switch sees a tag exactly when the frame is a parsed object whose `type` member is a string, and the tag is that string |
| Protocol.Classify | server/routes.ts:30-54 | the frame is ignored exactly when its tag is missing, not a string, or not one of the four inbound tags; join and leave are chosen exactly by their tags; a relay request carries the frame's own `payload` member |
| Protocol.EncodeRequest | client/src/hooks/use-webrtc.ts:176-201 | the frame a client sends for a request; a `signal`/`message` frame has exactly the shape of the frame the server forwards |
| Protocol.ClassifyRoundTrip | server/routes.ts:34-50 | every request a client can send (join, leave, signal, chat with or without payload) is recognised as itself by the dispatcher |
| Protocol.ServerFramesIgnored | shared/schema.ts:24-27 | a frame with a server-to-client tag (`matched`, `partner_disconnected`) sent to the server is dropped |
| Protocol.EncodeOut | server/routes.ts:110-131 | every frame the server writes is an object whose first member is `type`; its `payload` member is the relayed payload (absent when the payload is `undefined`), and `matched`/`partner_disconnected` carry none |
| Protocol.MatchedShape | server/routes.ts:78-79 | the `matched` frame has `type` and `initiator` as top-level members and no `payload` member |
| Protocol.DecodeOutRoundTrip | server/routes.ts:78-131 | every frame the server writes (`matched`, `partner_disconnected`, relayed `signal`/`message`) is read back as the message it encodes |
| Protocol.RelayKeepsEnvelope | server/routes.ts:115-133 | a forwarded frame has the same `type` member and the same `payload` member (absent stays absent) as the frame received |
| Protocol.ClientInitiatorAsWritten | client/src/hooks/use-webrtc.ts:61-64 | the client's read of the role flag throws exactly when the frame's `payload` is `undefined` or `null` |
| Protocol.MatchedFrameBreaksClient | client/src/hooks/use-webrtc.ts:115-130 | for either flag value, the client's read of a server `matched` frame throws, while a top-level read recovers the flag |
| Server.PartnerUnique | server/routes.ts:74-75 | in a valid state two connections never share a partner |
| Server.Join | server/routes.ts:62-88 | paired or already-waiting caller: no change, nothing sent. No open waiter (empty or stale slot): caller takes the slot, map, log and counter unchanged. Open waiter: slot emptied, both directions added, other pairings unchanged, one `matched` each (joiner `true`, waiter `false`), counter +1. The invariant is preserved |
| Server.Disconnect | server/routes.ts:99-113 | the slot is emptied if the connection held it; the connection and its partner leave the map and other pairings are unchanged; the partner gets exactly one `partner_disconnected` if its socket is open and nothing otherwise; an unpaired connection sends nothing; the invariant is preserved |
| Server.Leave | server/routes.ts:90-97 | leaving has exactly the effect of disconnecting, including ending a pairing and notifying the partner |
| Server.Relay | server/routes.ts:115-133 | the slot, map and counter never change; exactly one message with the same kind and payload goes to an open partner; with no partner or a closed partner nothing is sent |
| Server.Dispatch | server/routes.ts:30-54 | an unparseable frame or unknown tag changes nothing and sends nothing; dispatch only appends to the log and preserves the invariant |
| Server.DispatchRoutes | server/routes.ts:34-50 | for every parsed object with a string tag: `join_queue` runs `Join`, `leave_queue` runs `Leave`, `signal`/`message` relay the frame's own payload with that kind, any other tag changes nothing |
| Server.JoinStatus | server/routes.ts:62-88 | joining moves only the caller and the former waiter: idle caller becomes paired with an open waiter (and it with the caller) or waiting, a stale waiter becomes idle, everyone else keeps its status |
| Server.DisconnectStatus | server/routes.ts:99-113 | after cleanup the connection and its former partner are both idle (the partner is neither re-queued nor paired); nobody else changes |
| Server.CleanupIdempotent | server/routes.ts:90-113 | a second leave or disconnect of the same connection, in any order, changes no state and sends nothing |
| Server.CleanupOfIdleIsNoOp | server/routes.ts:90-113 | leaving or disconnecting when neither waiting nor paired has no effect |
| Server.JoinAnnouncesOneInitiator | server/routes.ts:77-79 | a pairing writes exactly two frames: the joiner's reads as `initiator: true` and the former waiter's as `initiator: false` |
| Server.RelayedFrameMatchesSent | server/routes.ts:115-133 | a `signal`/`message` frame becomes exactly one frame to the open partner with the sender's tag and payload; otherwise the state is untouched |
| Events.Step | server/routes.ts:27-60 | one event only appends to the log, raises the counter by at most one, and preserves the invariant |
| Events.StepAppends | server/routes.ts:62-133 | one event appends nothing, one non-`matched` message, or, together with one match record, a `matched true`/`matched false` pair |
| Events.StepAccounted | server/routes.ts:74-82 | the number of match records equals the number of `initiator: true` and of `initiator: false` announcements, and each step keeps it so |
| Events.Run | server/routes.ts:23-113 | any event sequence keeps the invariant and the accounting, never shrinks the log and never lowers the counter |
| Events.ReachableValid | server/routes.ts:62-113 | every state reachable from server start is valid and accounted |
| Events.StepFollowsLifeCycle | server/routes.ts:62-113 | each step moves a connection only Idle→Waiting/Paired, Waiting→Paired/Idle, or Paired→Idle; a paired connection is never re-paired or re-queued in one step |
| Events.SessionScenario | server/routes.ts:27-133 | A waits, B joins (B is initiator), A's chat line reaches B unchanged, B closes and A is notified; one match, no pairings left, only A online |
| Events.SessionRun | server/routes.ts:27-133 | the session of the scenario above, for any frames the dispatcher reads as a join and as a chat line |
| Events.StaleWaiterScenario | server/routes.ts:69-87 | a waiter whose socket stopped being open is replaced by the next joiner without any `matched` message or match record |

## Left out

- The HTTP stats endpoint (`server/routes.ts:14-18`) and `server/storage.ts` are left out. Their reads and writes are asynchronous database calls. `createMatch` appears only as the `matches` counter. Its promise is neither awaited nor caught (`server/routes.ts:82`); a failed write, and the unhandled rejection it causes, are not modelled.
- JSON text parsing, Express, `http` and the `ws` library are left out. A frame is modelled as already parsed (`Parsed`) or as unparseable. Socket `readyState` is modelled as membership in the `open` set.
- `send` on a socket that is not open is not modelled as delivery. The log records every `send` call the handlers make. That includes the `matched` sent to the joiner, which the source does not guard with an OPEN check.
- `Events.Step` treats a frame from any connection alike. Connection identities are not proved fresh: the invariant holds whatever identities arrive.
- Payload numbers are modelled as exact rationals, not as IEEE doubles. An object keeps duplicate keys, and they are seen only through last-wins member access, which is what `JSON.parse` produces.
- The `error` tag (`shared/schema.ts:27`) is declared but never sent.
- The client UI, media capture and peer-connection negotiation are not part of this model. Of the browser client, only the frames it sends and its read of the `matched` frame are modelled, the latter for the finding below.
- The zod schemas in `shared/routes.ts` are left out. The server never validates against them.
- Concurrency: Node runs each handler to completion, so each event is one atomic step and interleavings are not modelled.

## Findings

| source | as written | input that shows it | evidently intended | confidence | as-written member | corrected member |
|---|---|---|---|---|---|---|
| client/src/hooks/use-webrtc.ts:62-122 | the client destructures `payload` from each server frame and tests `payload.initiator`, but the server's `matched` frame has no `payload` and carries `initiator` at the top level (`server/routes.ts:78-79`); the read throws, the error is caught and reported, and neither peer creates the first offer | any pairing: `{"type":"matched","initiator":true}` | the receiver reads the top-level `initiator`, so exactly one peer (the joiner) makes the offer | high; not executed | Protocol.MatchedFrameBreaksClient | Protocol.DecodeOutRoundTrip |
