/** The wire protocol between browser and relay: the event tags, how the server's
    message dispatcher reads an inbound frame, and the frames the server writes. */
module Protocol {
  import opened Wrappers
  import opened Json

  // Client -> server tags.
  const JoinQueueTag: string := "join_queue"
  const LeaveQueueTag: string := "leave_queue"
  const SignalTag: string := "signal"
  const MessageTag: string := "message"
  // Server -> client tags.
  const MatchedTag: string := "matched"
  const PartnerDisconnectedTag: string := "partner_disconnected"
  const ErrorTag: string := "error"

  /** The tags the dispatcher's switch has a case for. */
  const InboundTags: set<string> := {JoinQueueTag, LeaveQueueTag, SignalTag, MessageTag}

  /** One inbound WebSocket frame after `JSON.parse`; `Unparseable` is a frame
      on which `JSON.parse` throws. */
  datatype Frame = Unparseable | Parsed(value: Json)

  /** The two payload-carrying messages the relay forwards unchanged. */
  datatype RelayKind = SignalKind | ChatKind

  /** What the dispatcher does with a frame. A payload is `None` when the frame
      has no `payload` member (`message.payload` is `undefined`). */
  datatype Request =
    | JoinQueue
    | LeaveQueue
    | Relay(kind: RelayKind, payload: Option<Json>)
    | Ignored

  /** What the server writes to a socket. `Matched` carries `initiator` as a
      top-level member of the frame, not inside a `payload`. */
  datatype OutMsg =
    | Matched(initiator: bool)
    | PartnerDisconnected
    | Relayed(kind: RelayKind, payload: Option<Json>)

  function KindTag(k: RelayKind): (tag: string)
  {
    match k
    case SignalKind => SignalTag
    case ChatKind => MessageTag
  }

  /** `message.type` when it is a string; any other value (or an unparseable
      frame, a non-object, a missing member) matches no case of the switch. */
  function TypeTag(frame: Frame): (r: Option<string>)
    ensures r.Some? ==> frame.Parsed? && Member(frame.value, "type") == Some(JStr(r.value))
    ensures frame.Parsed? && Member(frame.value, "type").Some? && Member(frame.value, "type").value.JStr? ==>
              r == Some(Member(frame.value, "type").value.s)
  {
    match frame
    case Unparseable => None
    case Parsed(v) =>
      match Member(v, "type")
      case Some(JStr(t)) => Some(t)
      case _ => None
  }

  /** The dispatcher's switch on `message.type`. */
  function Classify(frame: Frame): (r: Request)
    ensures r.Ignored? <==> TypeTag(frame).None? || TypeTag(frame).value !in InboundTags
    ensures r == JoinQueue <==> TypeTag(frame) == Some(JoinQueueTag)
    ensures r == LeaveQueue <==> TypeTag(frame) == Some(LeaveQueueTag)
    ensures r.Relay? ==> TypeTag(frame) == Some(KindTag(r.kind))
    ensures r.Relay? ==> r.payload == Member(frame.value, "payload")
  {
    match TypeTag(frame)
    case None => Ignored
    case Some(t) =>
      if t == JoinQueueTag then JoinQueue
      else if t == LeaveQueueTag then LeaveQueue
      else if t == SignalTag then Relay(SignalKind, Member(frame.value, "payload"))
      else if t == MessageTag then Relay(ChatKind, Member(frame.value, "payload"))
      else Ignored
  }

  /** `JSON.stringify` of the object the server builds for a message; a
      `payload` that is `undefined` is omitted from the text. */
  function EncodeOut(m: OutMsg): (r: Json)
    ensures r.JObj? && |r.fields| > 0 && r.fields[0].0 == "type"
    ensures Member(r, "payload") == (if m.Relayed? then m.payload else None)
  {
    match m
    case Matched(b) => JObj([("type", JStr(MatchedTag)), ("initiator", JBool(b))])
    case PartnerDisconnected => JObj([("type", JStr(PartnerDisconnectedTag))])
    case Relayed(k, p) =>
      JObj([("type", JStr(KindTag(k)))] + (if p.Some? then [("payload", p.value)] else []))
  }

  /** The shape of a `matched` frame: the tag and the role flag are both
      top-level members, and there is no `payload` member. */
  lemma MatchedShape(b: bool)
    ensures Member(EncodeOut(Matched(b)), "type") == Some(JStr(MatchedTag))
    ensures Member(EncodeOut(Matched(b)), "initiator") == Some(JBool(b))
    ensures Member(EncodeOut(Matched(b)), "payload") == None
  {
    var fs := EncodeOut(Matched(b)).fields;
    assert fs[..1] == [("type", JStr(MatchedTag))];
    assert Lookup(fs[..1], "type") == Some(JStr(MatchedTag));
    assert "initiator" != "type";
  }

  /** A receiver that reads server frames in the shape the server writes them:
      the role flag from the top-level `initiator` member. */
  function DecodeOut(v: Json): (r: Option<OutMsg>)
    ensures r.Some? ==> Member(v, "type").Some?
  {
    match Member(v, "type")
    case Some(JStr(t)) =>
      if t == MatchedTag then
        match Member(v, "initiator")
        case Some(JBool(b)) => Some(Matched(b))
        case _ => None
      else if t == PartnerDisconnectedTag then Some(PartnerDisconnected)
      else if t == SignalTag then Some(Relayed(SignalKind, Member(v, "payload")))
      else if t == MessageTag then Some(Relayed(ChatKind, Member(v, "payload")))
      else None
    case _ => None
  }

  /** Every frame the server writes is read back as the message it encodes; in
      particular both peers of a pairing learn their role from `matched`. */
  lemma DecodeOutRoundTrip(m: OutMsg)
    ensures DecodeOut(EncodeOut(m)) == Some(m)
  {
    match m
    case Matched(b) =>
      MatchedShape(b);
    case PartnerDisconnected =>
      assert Member(EncodeOut(m), "type") == Some(JStr(PartnerDisconnectedTag));
    case Relayed(k, p) =>
      var fs := EncodeOut(m).fields;
      assert Lookup(fs, "type") == Some(JStr(KindTag(k)));
      assert Lookup(fs, "payload") == p;
  }

  /** The browser client's reading of the role flag in a `matched` frame: it
      destructures `payload` from the frame and reads `payload.initiator`.
      `None` is the TypeError thrown when `payload` is `undefined` or `null`
      (caught by the client, which then reports a failed connection);
      otherwise the truthiness of the member decides whether it makes the offer. */
  function ClientInitiatorAsWritten(frame: Json): (r: Option<bool>)
    ensures r.None? <==> Member(frame, "payload").None? || Member(frame, "payload") == Some(JNull)
  {
    match Member(frame, "payload")
    case None => None
    case Some(JNull) => None
    case Some(data) =>
      match Member(data, "initiator")
      case Some(x) => Some(Truthy(x))
      case None => Some(false)
  }

  /** The mismatch between the two sides: whatever role the server assigns,
      the client's read of a `matched` frame throws, so neither peer ever
      creates the first offer. */
  lemma MatchedFrameBreaksClient(b: bool)
    ensures ClientInitiatorAsWritten(EncodeOut(Matched(b))) == None
    ensures DecodeOut(EncodeOut(Matched(b))) == Some(Matched(b))
  {
    MatchedShape(b);
    DecodeOutRoundTrip(Matched(b));
  }

  /** The frame the browser client sends for a request (join, leave, a signal
      or a chat line); `Ignored` has no frame of its own and maps to `null`. */
  function EncodeRequest(q: Request): (r: Json)
    ensures q.Ignored? <==> r == JNull
    ensures q.Relay? ==> r == EncodeOut(Relayed(q.kind, q.payload))
  {
    match q
    case JoinQueue => JObj([("type", JStr(JoinQueueTag))])
    case LeaveQueue => JObj([("type", JStr(LeaveQueueTag))])
    case Relay(k, p) =>
      JObj([("type", JStr(KindTag(k)))] + (if p.Some? then [("payload", p.value)] else []))
    case Ignored => JNull
  }

  /** The dispatcher recovers every request a client can send. */
  lemma ClassifyRoundTrip(q: Request)
    ensures Classify(Parsed(EncodeRequest(q))) == q
  {
    match q
    case JoinQueue =>
      assert TypeTag(Parsed(EncodeRequest(q))) == Some(JoinQueueTag);
    case LeaveQueue =>
      assert TypeTag(Parsed(EncodeRequest(q))) == Some(LeaveQueueTag);
    case Relay(k, p) =>
      var fs := EncodeRequest(q).fields;
      assert Lookup(fs, "type") == Some(JStr(KindTag(k)));
      assert Lookup(fs, "payload") == p;
    case Ignored =>
  }

  /** Forwarding keeps the envelope: the frame the partner receives carries the
      same type tag and the same `payload` member as the frame the sender sent. */
  lemma RelayKeepsEnvelope(frame: Frame)
    requires Classify(frame).Relay?
    ensures Member(EncodeOut(Relayed(Classify(frame).kind, Classify(frame).payload)), "type")
            == Member(frame.value, "type")
    ensures Member(EncodeOut(Relayed(Classify(frame).kind, Classify(frame).payload)), "payload")
            == Member(frame.value, "payload")
  {
    var q := Classify(frame);
    var fs := EncodeOut(Relayed(q.kind, q.payload)).fields;
    assert Lookup(fs, "type") == Some(JStr(KindTag(q.kind)));
    assert Lookup(fs, "payload") == q.payload;
  }

  /** A frame bearing a server-to-client tag, echoed back by a client, is
      dropped by the dispatcher. */
  lemma ServerFramesIgnored(m: OutMsg)
    requires !m.Relayed?
    ensures Classify(Parsed(EncodeOut(m))) == Ignored
  {
  }
}
