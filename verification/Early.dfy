/** Runs in which the answer comes too early: the server or the peer answers a message that the actor has
    sent, before the caller's wait is in the mailbox. */
module Early {
  import opened Amounts
  import opened Sequences
  import opened Messages
  import opened Actor
  import opened Protocol
  import opened Provenance
  import opened Waiters
  import opened Forwarder
  import opened Relay
  import opened Scenes

  /** Call 0 posted its message and not yet its wait; the message reached the server. */
  ghost predicate HalfWay(s: System, call: Call, items: seq<Item>, notes: seq<Note>, arrivals: seq<Response>) {
    var c := s.core;
    && c.clientOpen && c.box == [] && c.phase == Live(false) && c.sleeping == [Heartbeat]
    && c.notes == notes && c.arrivals == arrivals
    && c.st.pendingAcks == map[] && c.st.pendingReplies == map[]
    && c.calls == [call.(stage := Sent)]
    && |items| == 2 && items[1] == Item(PayloadRequest(call.first), First(0))
    && AtServer(s.wire) == items
  }

  lemma GetsHalfWay(opts: ClientOpts, sv: Server, e: ClientEvent, call: Call)
    returns (es: seq<SystemEvent>, items: seq<Item>)
    requires forall c: Core :: c.clientOpen && c.issued == 0 ==>
               ClientStep(opts, c, e) == WithCall(c, call).(issued := 1)
    requires call.stage == Fresh && NeedsWait(call) && call.original.Some?
    ensures HalfWay(SystemRun(opts, sv, es), call, items, [], [])
  {
    es := Opens(opts, sv);
    items := [HelloItem(opts, ""), Item(PayloadRequest(call.first), First(0))];
    es := SaysOnce(opts, sv, es, e, call, 1, [], [HelloItem(opts, "")]);
    es := AllTransferred(opts, sv, es, items);
  }

  lemma AllTransferred(opts: ClientOpts, sv: Server, es: seq<SystemEvent>, items: seq<Item>)
    returns (es': seq<SystemEvent>)
    requires SystemRun(opts, sv, es).wire == Wire(items, items, [FRESH])
    ensures SystemRun(opts, sv, es').core == SystemRun(opts, sv, es).core
    ensures AtServer(SystemRun(opts, sv, es').wire) == items
  {
    assert FRESH == Carried([]);
    es' := Transfers(opts, sv, es, items, [], |items|);
    assert [] + items[..|items|] == items;
    AllArrived(SystemRun(opts, sv, es').wire, items);
  }

  /** A response that finds nothing pending changes only the histories. */
  lemma ComesEarly(opts: ClientOpts, sv: Server, es: seq<SystemEvent>, call: Call, items: seq<Item>,
                   resp: Response, notes: seq<Note>)
    returns (es': seq<SystemEvent>)
    requires var s := SystemRun(opts, sv, es);
             && HalfWay(s, call, items, [], [])
             && (resp.Ack? ==> MayAck(sv, s.wire, resp.seqNo))
             && OnMsg(opts, s.core.st, true, RelayResponse(resp)) == Quiet(s.core.st).(notes := notes)
    ensures HalfWay(SystemRun(opts, sv, es'), call, items, notes, [resp])
  {
    es' := Proceed(opts, sv, es, Task(StreamItem(Some(resp))));
  }

  /** The wait came after all that; now it is taken. */
  ghost predicate Late(opts: ClientOpts, s: System, call: Call, notes: seq<Note>, arrivals: seq<Response>)
    requires call.original.Some?
  {
    var c := s.core;
    var o := OnMsg(opts, State(map[], map[], c.st.heartbeatStarted), true, WaitMsg(call, 0));
    && c.box == [] && c.phase == Live(false) && c.calls == [call.(stage := Waiting)]
    && c.notes == notes && c.arrivals == arrivals
    && c.st == o.st && c.sleeping == [Heartbeat] + o.timers && Delivered(s, 0)
  }

  lemma GetsLate(opts: ClientOpts, sv: Server, es: seq<SystemEvent>, call: Call, items: seq<Item>,
                 notes: seq<Note>, arrivals: seq<Response>)
    returns (es': seq<SystemEvent>)
    requires HalfWay(SystemRun(opts, sv, es), call, items, notes, arrivals)
    requires NeedsWait(call) && call.original.Some?
    ensures Late(opts, SystemRun(opts, sv, es'), call, notes, arrivals)
  {
    es' := Proceed(opts, sv, es, Client(PostWait(0)));
    assert SystemRun(opts, sv, es').core.calls == [call.(stage := Waiting)];
    assert SystemRun(opts, sv, es').core.box == [WaitMsg(call, 0)];
    es' := Proceed(opts, sv, es', Task(Take));
    assert items[1] in AtServer(SystemRun(opts, sv, es').wire);
  }

  function EarlyPayload(msg: SendMessage, body: Bytes): Response {
    Payload(RelayPayload(Some(Entity(msg.targetId, AsI32(msg.targetType), msg.targetSpace)), None, 0,
                         Some(Any("", body))))
  }

  /** For every `ask` that does not ask for delivery: a run in which the peer got the message and its reply
      arrived, but went to the client. The ask is pending with no timer left, so its message is never
      sent again. */
  lemma EarlyReply(opts: ClientOpts, sv: Server, msg: SendMessage, body: Bytes) returns (es: seq<SystemEvent>)
    requires msg.qos == AtMostOnce
    ensures var s := SystemRun(opts, sv, es);
            var from := Entity(msg.targetId, AsI32(msg.targetType), msg.targetSpace);
            && s.core.calls == [NewAsk(opts, 0, msg).(stage := Waiting)]
            && Delivered(s, 0) && s.core.arrivals == [EarlyPayload(msg, body)]
            && s.core.notes == [ToClient(Received(from, body, 0)), GaveUp(0)]
            && HasWaiter(s.core.st, AskKey(msg.targetId, 0), 0)
            && s.core.box == [] && s.core.sleeping == [Heartbeat]
  {
    var call := NewAsk(opts, 0, msg);
    var from := Entity(msg.targetId, AsI32(msg.targetType), msg.targetSpace);
    var notes := [ToClient(Received(from, body, 0))];
    var items;
    es, items := GetsHalfWay(opts, sv, BeginAsk(msg), call);
    es := ComesEarly(opts, sv, es, call, items, EarlyPayload(msg, body), notes);
    es := GetsLate(opts, sv, es, call, items, notes, [EarlyPayload(msg, body)]);
    LateAsk(opts, SystemRun(opts, sv, es), msg, notes, [EarlyPayload(msg, body)]);
    es := TimerGivesUp(opts, sv, es, msg);
  }

  lemma LateAsk(opts: ClientOpts, s: System, msg: SendMessage, notes: seq<Note>, arrivals: seq<Response>)
    requires msg.qos == AtMostOnce && Late(opts, s, NewAsk(opts, 0, msg), notes, arrivals)
    ensures HasWaiter(s.core.st, AskKey(msg.targetId, 0), 0)
    ensures s.core.sleeping == [Heartbeat, RetryAsk(msg.targetId, 0, Val(0), 0)]
    ensures s.core.box == [] && s.core.phase == Live(false) && Delivered(s, 0)
    ensures s.core.notes == notes && s.core.arrivals == arrivals
    ensures s.core.calls == [NewAsk(opts, 0, msg).(stage := Waiting)]
  {
  }

  lemma TimerGivesUp(opts: ClientOpts, sv: Server, es: seq<SystemEvent>, msg: SendMessage)
    returns (es': seq<SystemEvent>)
    requires var c := SystemRun(opts, sv, es).core;
             && c.box == [] && c.phase == Live(false) && HasWaiter(c.st, AskKey(msg.targetId, 0), 0)
             && c.sleeping == [Heartbeat, RetryAsk(msg.targetId, 0, Val(0), 0)]
    ensures var s, s' := SystemRun(opts, sv, es), SystemRun(opts, sv, es');
            && s'.wire == s.wire
            && s'.core == s.core.(sleeping := [Heartbeat], notes := s.core.notes + [GaveUp(0)],
                                  posted := s'.core.posted, handled := s'.core.handled)
  {
    es' := Proceed(opts, sv, es, Wake(1));
    assert SystemRun(opts, sv, es').core.box == [RetryAsk(msg.targetId, 0, Val(0), 0)];
    assert SystemRun(opts, sv, es').core.sleeping == [Heartbeat];
    es' := Proceed(opts, sv, es', Task(Take));
  }

  /** The same for an ack: the server received the message and acknowledged it, and the caller waits on.
      Only a timer with budget left makes the message go out again. */
  lemma EarlyAck(opts: ClientOpts, sv: Server) returns (es: seq<SystemEvent>)
    ensures var s := SystemRun(opts, sv, es);
            && s.core.calls == [NewSend(opts, 0, MSG).(stage := Waiting)]
            && Delivered(s, 0) && s.core.arrivals == [Ack(0)] && s.core.notes == []
            && s.core.st.pendingAcks == map[0 := Entry(MSG, 0)]
            && s.core.box == [] && s.core.sleeping == [Heartbeat, RetryAck(0, opts.maxMessageAttempts, 0)]
  {
    var call := NewSend(opts, 0, MSG);
    var items;
    es, items := GetsHalfWay(opts, sv, BeginSend(MSG), call);
    assert items[1] in AtServer(SystemRun(opts, sv, es).wire) && Carries(sv, items[1], 0);
    es := ComesEarly(opts, sv, es, call, items, Ack(0), []);
    es := GetsLate(opts, sv, es, call, items, [], [Ack(0)]);
  }
}
