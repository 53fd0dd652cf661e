/** The relay's shared state and the handlers that act on it: the single
    waiting slot, the symmetric partner map, and the message log. Each handler
    runs to completion on Node's event loop, so each is one pure transition. */
module Server {
  import opened Wrappers
  import opened Json
  import opened Protocol

  /** The identity of one WebSocket connection (the socket object itself in
      the server); stable for the connection's lifetime. */
  type Conn = nat

  /** One `send` call: the socket it was made on and the message written. */
  datatype Sent = Sent(to: Conn, msg: OutMsg)

  datatype State = State(
    waiting: Option<Conn>,      // the waiting slot, `waitingClient`
    partners: map<Conn, Conn>,  // the pairing map, `partners`
    open: set<Conn>,            // connections whose `readyState` is OPEN
    matches: nat,               // match records written by `createMatch`
    log: seq<Sent>)             // every message the server has sent, in order

  /** The state when the server starts listening. */
  const Init: State := State(None, map[], {}, 0, [])

  /** Pairings are recorded in both directions. */
  predicate Symmetric(m: map<Conn, Conn>)
  {
    forall a :: a in m ==> m[a] in m && m[m[a]] == a
  }

  /** No connection is its own partner. */
  predicate Irreflexive(m: map<Conn, Conn>)
  {
    forall a :: a in m ==> m[a] != a
  }

  /** The connection in the waiting slot is not paired. */
  predicate WaiterUnpaired(s: State)
  {
    s.waiting.Some? ==> s.waiting.value !in s.partners
  }

  /** The invariant every handler keeps. */
  predicate Valid(s: State)
  {
    Symmetric(s.partners) && Irreflexive(s.partners) && WaiterUnpaired(s)
  }

  /** Where one connection stands in the matchmaking life cycle. */
  datatype Status = Idle | Waiting | Paired(partner: Conn)

  function StatusOf(s: State, c: Conn): (st: Status)
  {
    if c in s.partners then Paired(s.partners[c])
    else if s.waiting == Some(c) then Waiting
    else Idle
  }

  /** In a valid state a connection has at most one partner, and two
      connections never share one. */
  lemma PartnerUnique(s: State, a: Conn, b: Conn)
    requires Valid(s)
    requires a in s.partners && b in s.partners && s.partners[a] == s.partners[b]
    ensures a == b
  {
  }

  /** `handleJoinQueue`: ignore a paired or already waiting caller; pair the
      caller with an open waiter; otherwise the caller takes the slot (which
      also discards a waiter whose socket is no longer open). The joining
      side is told `initiator: true`, the former waiter `initiator: false`. */
  function Join(s: State, c: Conn): (r: State)
    ensures c in s.partners || s.waiting == Some(c) ==> r == s
    ensures c !in s.partners && (s.waiting.None? || s.waiting.value !in s.open) ==>
              && r.waiting == Some(c)
              && r.partners == s.partners && r.log == s.log && r.matches == s.matches
    ensures c !in s.partners && s.waiting.Some? && s.waiting.value != c && s.waiting.value in s.open ==>
              var w := s.waiting.value;
              && r.waiting.None?
              && r.partners.Keys == s.partners.Keys + {c, w}
              && r.partners[c] == w && r.partners[w] == c
              && (forall x :: x in s.partners && x != c && x != w ==> r.partners[x] == s.partners[x])
              && r.log == s.log + [Sent(c, Matched(true)), Sent(w, Matched(false))]
              && r.matches == s.matches + 1
    ensures r.open == s.open
    ensures Valid(s) ==> Valid(r)
  {
    if c in s.partners then s
    else if s.waiting == Some(c) then s
    else if s.waiting.Some? && s.waiting.value in s.open then
      var w := s.waiting.value;
      s.(waiting := None,
         partners := s.partners[c := w][w := c],
         matches := s.matches + 1,
         log := s.log + [Sent(c, Matched(true)), Sent(w, Matched(false))])
    else
      s.(waiting := Some(c))
  }

  /** `handleDisconnect`: empty the slot if the connection holds it, remove
      both directions of its pairing, and tell the partner, if its socket is
      still open. The partner is not put back in the queue. */
  function Disconnect(s: State, c: Conn): (r: State)
    ensures r.waiting == (if s.waiting == Some(c) then None else s.waiting)
    ensures c !in r.partners
    ensures c !in s.partners ==> r.partners == s.partners && r.log == s.log
    ensures c in s.partners ==>
              var p := s.partners[c];
              && r.partners.Keys == s.partners.Keys - {c, p}
              && (forall x :: x in r.partners ==> r.partners[x] == s.partners[x])
              && r.log == s.log + (if p in s.open then [Sent(p, PartnerDisconnected)] else [])
    ensures r.open == s.open && r.matches == s.matches
    ensures Valid(s) ==> Valid(r)
  {
    var s' := if s.waiting == Some(c) then s.(waiting := None) else s;
    if c in s'.partners then
      var p := s'.partners[c];
      var note := if p in s'.open then [Sent(p, PartnerDisconnected)] else [];
      s'.(partners := s'.partners - {c, p}, log := s'.log + note)
    else
      s'
  }

  /** `handleLeaveQueue`: empty the slot if the connection holds it, then run
      the disconnect cleanup, so leaving while paired ends the pairing. */
  function Leave(s: State, c: Conn): (r: State)
    ensures r == Disconnect(s, c)
  {
    var s' := if s.waiting == Some(c) then s.(waiting := None) else s;
    Disconnect(s', c)
  }

  /** `handleSignal` and `handleChatMessage`: forward the payload, with the
      same type tag, to the sender's partner when it has one whose socket is
      open; otherwise drop it. */
  function Relay(s: State, c: Conn, k: RelayKind, payload: Option<Json>): (r: State)
    ensures r.waiting == s.waiting && r.partners == s.partners
    ensures r.open == s.open && r.matches == s.matches
    ensures c in s.partners && s.partners[c] in s.open ==>
              r.log == s.log + [Sent(s.partners[c], Relayed(k, payload))]
    ensures !(c in s.partners && s.partners[c] in s.open) ==> r.log == s.log
  {
    if c in s.partners && s.partners[c] in s.open then
      s.(log := s.log + [Sent(s.partners[c], Relayed(k, payload))])
    else
      s
  }

  /** The `message` listener: classify the frame and run the matching handler;
      unparseable frames and unknown tags change nothing and send nothing. */
  function Dispatch(s: State, c: Conn, frame: Frame): (r: State)
    ensures Classify(frame).Ignored? ==> r == s
    ensures r.open == s.open
    ensures s.log <= r.log
    ensures Valid(s) ==> Valid(r)
  {
    match Classify(frame)
    case JoinQueue => Join(s, c)
    case LeaveQueue => Leave(s, c)
    case Relay(k, p) => Relay(s, c, k, p)
    case Ignored => s
  }

  /** Join moves only the caller and, when it pairs, the former waiter: an
      idle caller ends up paired with an open waiter or waiting itself, and a
      stale waiter it displaces becomes idle. */
  lemma JoinStatus(s: State, c: Conn, x: Conn)
    requires Valid(s)
    ensures StatusOf(s, c) != Idle ==> StatusOf(Join(s, c), x) == StatusOf(s, x)
    ensures StatusOf(s, c) == Idle && s.waiting.Some? && s.waiting.value in s.open ==>
              && StatusOf(Join(s, c), c) == Paired(s.waiting.value)
              && StatusOf(Join(s, c), s.waiting.value) == Paired(c)
    ensures StatusOf(s, c) == Idle && !(s.waiting.Some? && s.waiting.value in s.open) ==>
              && StatusOf(Join(s, c), c) == Waiting
              && (s.waiting.Some? ==> StatusOf(Join(s, c), s.waiting.value) == Idle)
    ensures x != c && s.waiting != Some(x) ==> StatusOf(Join(s, c), x) == StatusOf(s, x)
  {
  }

  /** Disconnect leaves the connection idle and its former partner idle
      (neither waiting nor paired); every other connection keeps its status. */
  lemma DisconnectStatus(s: State, c: Conn, x: Conn)
    requires Valid(s)
    ensures StatusOf(Disconnect(s, c), c) == Idle
    ensures StatusOf(s, c).Paired? ==> StatusOf(Disconnect(s, c), StatusOf(s, c).partner) == Idle
    ensures x != c && !(StatusOf(s, c).Paired? && x == StatusOf(s, c).partner) ==>
              StatusOf(Disconnect(s, c), x) == StatusOf(s, x)
  {
  }

  /** A second leave or disconnect of the same connection changes nothing
      and sends nothing. */
  lemma CleanupIdempotent(s: State, c: Conn)
    ensures Disconnect(Disconnect(s, c), c) == Disconnect(s, c)
    ensures Leave(Leave(s, c), c) == Leave(s, c)
    ensures Disconnect(Leave(s, c), c) == Leave(s, c)
    ensures Leave(Disconnect(s, c), c) == Disconnect(s, c)
  {
  }

  /** Leaving or disconnecting a connection that is neither waiting nor
      paired has no effect at all. */
  lemma CleanupOfIdleIsNoOp(s: State, c: Conn)
    requires StatusOf(s, c) == Idle
    ensures Disconnect(s, c) == s && Leave(s, c) == s
  {
  }

  /** A pairing announces exactly one initiator: read in the shape the server
      writes it, the joining side's `matched` frame says `initiator: true` and
      the former waiter's says `initiator: false`. */
  lemma JoinAnnouncesOneInitiator(s: State, c: Conn)
    requires c !in s.partners && s.waiting.Some? && s.waiting.value != c && s.waiting.value in s.open
    ensures |Join(s, c).log| == |s.log| + 2
    ensures Join(s, c).log[|s.log|].to == c
    ensures DecodeOut(EncodeOut(Join(s, c).log[|s.log|].msg)) == Some(Matched(true))
    ensures Join(s, c).log[|s.log| + 1].to == s.waiting.value
    ensures DecodeOut(EncodeOut(Join(s, c).log[|s.log| + 1].msg)) == Some(Matched(false))
  {
    DecodeOutRoundTrip(Matched(true));
    DecodeOutRoundTrip(Matched(false));
  }

  /** A `signal` or `message` frame reaches the sender's open partner as one
      frame with the sender's type tag and payload; without an open partner
      the frame has no effect at all. */
  lemma RelayedFrameMatchesSent(s: State, c: Conn, frame: Frame)
    requires Classify(frame).Relay?
    ensures c in s.partners && s.partners[c] in s.open ==>
              && |Dispatch(s, c, frame).log| == |s.log| + 1
              && Dispatch(s, c, frame).log[|s.log|].to == s.partners[c]
              && Member(EncodeOut(Dispatch(s, c, frame).log[|s.log|].msg), "type") == Member(frame.value, "type")
              && Member(EncodeOut(Dispatch(s, c, frame).log[|s.log|].msg), "payload") == Member(frame.value, "payload")
    ensures !(c in s.partners && s.partners[c] in s.open) ==> Dispatch(s, c, frame) == s
  {
    RelayKeepsEnvelope(frame);
  }

  /** The dispatcher routes by the `type` member alone: `join_queue` runs the
      join handler, `leave_queue` the leave handler, and any other string tag
      leaves the state untouched. */
  lemma DispatchRoutes(s: State, c: Conn, v: Json, t: string)
    requires Member(v, "type") == Some(JStr(t))
    ensures t == JoinQueueTag ==> Dispatch(s, c, Parsed(v)) == Join(s, c)
    ensures t == LeaveQueueTag ==> Dispatch(s, c, Parsed(v)) == Leave(s, c)
    ensures t == SignalTag ==> Dispatch(s, c, Parsed(v)) == Relay(s, c, SignalKind, Member(v, "payload"))
    ensures t == MessageTag ==> Dispatch(s, c, Parsed(v)) == Relay(s, c, ChatKind, Member(v, "payload"))
    ensures t !in InboundTags ==> Dispatch(s, c, Parsed(v)) == s
  {
    assert TypeTag(Parsed(v)) == Some(t);
  }
}
