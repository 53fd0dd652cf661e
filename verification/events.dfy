/** The server over time: the transport events that reach it, one atomic step
    per event, and the facts that hold after any sequence of them. */
module Events {
  import opened Wrappers
  import opened Json
  import opened Protocol
  import opened Server

  /** What can happen to the server.
      - `Connect`: the WebSocket server accepts a new connection;
      - `Receive`: a frame arrives and the `message` listener runs;
      - `Closing`: a socket leaves the OPEN state before its `close`
        listener has run (this is how a stale waiter arises);
      - `Close`: the socket is closed and the `close` listener runs. */
  datatype Event =
    | Connect(c: Conn)
    | Receive(c: Conn, frame: Frame)
    | Closing(c: Conn)
    | Close(c: Conn)

  /** How many `matched` messages with the given role flag the log holds. */
  function CountMatched(log: seq<Sent>, initiator: bool): (n: nat)
  {
    if |log| == 0 then 0
    else CountMatched(log[..|log| - 1], initiator) + (if log[|log| - 1].msg == Matched(initiator) then 1 else 0)
  }

  lemma {:induction false} CountMatchedAppend(a: seq<Sent>, b: seq<Sent>, initiator: bool)
    ensures CountMatched(a + b, initiator) == CountMatched(a, initiator) + CountMatched(b, initiator)
    decreases |b|
  {
    if |b| == 0 {
      assert a + b == a;
    } else {
      var n := |b| - 1;
      assert (a + b)[..|a + b| - 1] == a + b[..n];
      CountMatchedAppend(a, b[..n], initiator);
    }
  }

  /** One match record per pairing, and each pairing told exactly one side
      that it is the initiator and exactly one side that it is not. */
  predicate Accounted(s: State)
  {
    s.matches == CountMatched(s.log, true) && s.matches == CountMatched(s.log, false)
  }

  /** The server's reaction to one event. */
  function Step(s: State, e: Event): (r: State)
    ensures s.log <= r.log
    ensures r.matches == s.matches || r.matches == s.matches + 1
    ensures Valid(s) ==> Valid(r)
  {
    match e
    case Connect(c) => s.(open := s.open + {c})
    case Receive(c, frame) => Dispatch(s, c, frame)
    case Closing(c) => s.(open := s.open - {c})
    case Close(c) => Disconnect(s.(open := s.open - {c}), c)
  }

  /** What one step appends to the log: nothing, one notification or relayed
      message, or the two `matched` messages of a new pairing. */
  lemma StepAppends(s: State, e: Event)
    ensures Step(s, e).log == s.log
         || (Step(s, e).matches == s.matches
             && exists m: Sent :: !m.msg.Matched? && Step(s, e).log == s.log + [m])
         || (Step(s, e).matches == s.matches + 1
             && exists a: Conn, b: Conn :: Step(s, e).log == s.log + [Sent(a, Matched(true)), Sent(b, Matched(false))])
  {
    match e
    case Connect(c) =>
    case Closing(c) =>
    case Close(c) =>
    case Receive(c, frame) =>
      match Classify(frame)
      case JoinQueue =>
      case LeaveQueue =>
      case Relay(k, p) =>
      case Ignored =>
  }

  lemma StepAccounted(s: State, e: Event)
    requires Accounted(s)
    ensures Accounted(Step(s, e))
  {
    var r := Step(s, e);
    StepAppends(s, e);
    var added := r.log[|s.log|..];
    assert r.log == s.log + added;
    CountMatchedAppend(s.log, added, true);
    CountMatchedAppend(s.log, added, false);
    if r.log == s.log {
      assert added == [];
    } else if r.matches == s.matches {
      var m: Sent :| !m.msg.Matched? && r.log == s.log + [m];
      assert added == [m];
      assert [m][..0] == [];
    } else {
      var a: Conn, b: Conn :| r.log == s.log + [Sent(a, Matched(true)), Sent(b, Matched(false))];
      assert added == [Sent(a, Matched(true)), Sent(b, Matched(false))];
      assert added[..1] == [Sent(a, Matched(true))];
      assert added[..1][..0] == [];
      assert CountMatched(added[..1], true) == 1 && CountMatched(added[..1], false) == 0;
      assert CountMatched(added, true) == 1 && CountMatched(added, false) == 1;
      assert r.matches == s.matches + 1;
    }
  }

  /** The state after a sequence of events, handled one at a time in order. */
  function Run(s: State, events: seq<Event>): (r: State)
    ensures s.log <= r.log
    ensures s.matches <= r.matches
    ensures Valid(s) ==> Valid(r)
    ensures Accounted(s) ==> Accounted(r)
    decreases |events|
  {
    if |events| == 0 then s
    else
      var s' := Step(s, events[0]);
      assert Accounted(s) ==> Accounted(s') by {
        if Accounted(s) { StepAccounted(s, events[0]); }
      }
      Run(s', events[1..])
  }

  /** Every state the server can reach keeps the pairing invariant and has
      written exactly one match record per pairing it announced. */
  lemma ReachableValid(events: seq<Event>)
    ensures Valid(Run(Init, events))
    ensures Accounted(Run(Init, events))
  {
  }

  /** The transitions of one connection's life cycle that a step may take:
      Idle to Waiting or Paired, Waiting to Paired or Idle, Paired to Idle.
      A paired connection is never re-paired or re-queued in one step. */
  predicate Allowed(before: Status, after: Status)
  {
    || before == after
    || (before == Idle && (after == Waiting || after.Paired?))
    || (before == Waiting && (after == Idle || after.Paired?))
    || (before.Paired? && after == Idle)
  }

  lemma StepFollowsLifeCycle(s: State, e: Event, x: Conn)
    requires Valid(s)
    ensures Allowed(StatusOf(s, x), StatusOf(Step(s, e), x))
  {
  }

  /** A typical session: A waits, B joins and is paired with A (B, the joining
      side, is the initiator), A's chat line reaches B unchanged, and when B's
      socket closes A is told and both are left unpaired. */
  lemma SessionScenario()
    ensures
      var hi := Some(JObj([("text", JStr("hi"))]));
      var events := [
        Connect(1), Connect(2),
        Receive(1, Parsed(EncodeRequest(JoinQueue))),
        Receive(2, Parsed(EncodeRequest(JoinQueue))),
        Receive(1, Parsed(EncodeRequest(Relay(ChatKind, hi)))),
        Close(2)];
      var r := Run(Init, events);
      && r.log == [Sent(2, Matched(true)), Sent(1, Matched(false)),
                   Sent(2, Relayed(ChatKind, hi)), Sent(1, PartnerDisconnected)]
      && r.partners == map[] && r.waiting == None
      && r.matches == 1 && r.open == {1}
  {
    var hi := Some(JObj([("text", JStr("hi"))]));
    var join := Parsed(EncodeRequest(JoinQueue));
    var chat := Parsed(EncodeRequest(Relay(ChatKind, hi)));
    ClassifyRoundTrip(JoinQueue);
    ClassifyRoundTrip(Relay(ChatKind, hi));
    SessionRun(join, chat, hi);
  }

  /** The session of `SessionScenario`, for any frames the dispatcher reads
      as a join and as a chat line. */
  lemma SessionRun(join: Frame, chat: Frame, hi: Option<Json>)
    requires Classify(join) == JoinQueue && Classify(chat) == Relay(ChatKind, hi)
    ensures
      var r := Run(Init, [Connect(1), Connect(2), Receive(1, join), Receive(2, join), Receive(1, chat), Close(2)]);
      && r.log == [Sent(2, Matched(true)), Sent(1, Matched(false)),
                   Sent(2, Relayed(ChatKind, hi)), Sent(1, PartnerDisconnected)]
      && r.partners == map[] && r.waiting == None
      && r.matches == 1 && r.open == {1}
  {
    var opening := [Connect(1), Connect(2), Receive(1, join), Receive(2, join)];
    var closing := [Receive(1, chat), Close(2)];
    assert [Connect(1), Connect(2), Receive(1, join), Receive(2, join), Receive(1, chat), Close(2)]
        == opening + closing;
    SessionOpening(join, closing);
    SessionClosing(chat, hi);
  }

  /** Two connections joining one after the other end up paired, the second
      one as initiator, with one match recorded. */
  lemma SessionOpening(join: Frame, rest: seq<Event>)
    requires Classify(join) == JoinQueue
    ensures Run(Init, [Connect(1), Connect(2), Receive(1, join), Receive(2, join)] + rest)
         == Run(State(None, map[2 := 1, 1 := 2], {1, 2}, 1,
                      [Sent(2, Matched(true)), Sent(1, Matched(false))]), rest)
  {
    var events := [Connect(1), Connect(2), Receive(1, join), Receive(2, join)] + rest;
    var s1 := State(None, map[], {1}, 0, []);
    var s2 := State(None, map[], {1, 2}, 0, []);
    var s3 := State(Some(1), map[], {1, 2}, 0, []);
    assert Step(Init, events[0]) == s1;
    assert Step(s1, events[1]) == s2;
    var s4 := State(None, map[2 := 1, 1 := 2], {1, 2}, 1,
                    [Sent(2, Matched(true)), Sent(1, Matched(false))]);
    assert Step(s2, events[2]) == Join(s2, 1) == s3;
    assert Step(s3, events[3]) == Join(s3, 2) == s4;
    assert events[4..] == rest;
    assert Run(Init, events) == Run(s1, events[1..]);
    assert Run(s1, events[1..]) == Run(s2, events[2..]);
    assert Run(s2, events[2..]) == Run(s3, events[3..]);
    assert Run(s3, events[3..]) == Run(s4, events[4..]);
  }

  /** In that pairing, a chat line from 1 reaches 2, and when 2 closes, 1 is
      told and nobody is left paired. */
  lemma SessionClosing(chat: Frame, hi: Option<Json>)
    requires Classify(chat) == Relay(ChatKind, hi)
    ensures
      var s4 := State(None, map[2 := 1, 1 := 2], {1, 2}, 1,
                      [Sent(2, Matched(true)), Sent(1, Matched(false))]);
      var r := Run(s4, [Receive(1, chat), Close(2)]);
      && r.log == [Sent(2, Matched(true)), Sent(1, Matched(false)),
                   Sent(2, Relayed(ChatKind, hi)), Sent(1, PartnerDisconnected)]
      && r.partners == map[] && r.waiting == None
      && r.matches == 1 && r.open == {1}
  {
    var pairLog := [Sent(2, Matched(true)), Sent(1, Matched(false))];
    var s4 := State(None, map[2 := 1, 1 := 2], {1, 2}, 1, pairLog);
    var events := [Receive(1, chat), Close(2)];
    var s5 := s4.(log := pairLog + [Sent(2, Relayed(ChatKind, hi))]);
    assert Step(s4, events[0]) == Server.Relay(s4, 1, ChatKind, hi) == s5;
    var s6 := Step(s5, events[1]);
    assert s6 == Disconnect(s5.(open := {1}), 2);
    assert s6.partners == map[];
    assert Run(s5, events[1..]) == s6;
  }

  /** A waiter whose socket is no longer open is never matched: the next
      joiner takes the slot instead, and no `matched` message is sent. */
  lemma StaleWaiterScenario()
    ensures
      var events := [
        Connect(1), Connect(2),
        Receive(1, Parsed(EncodeRequest(JoinQueue))),
        Closing(1),
        Receive(2, Parsed(EncodeRequest(JoinQueue)))];
      var r := Run(Init, events);
      && r.waiting == Some(2) && r.partners == map[]
      && r.log == [] && r.matches == 0
  {
  }
}
