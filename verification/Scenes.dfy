/** Parts of runs of the whole system, of which the runs in `Collision`, `Openings` and `Early` are made. */
module Scenes {
  import opened Sequences
  import opened Messages
  import opened Actor
  import opened Protocol
  import opened Forwarder
  import opened Relay

  function FromPeer(q: Seq): Received {
    Received(Entity("peer", 0, ""), [], q)
  }

  function PeerPayload(q: Seq): Response {
    Payload(RelayPayload(Some(FromPeer(q).from), None, q, Some(Any("", []))))
  }

  function HelloItem(opts: ClientOpts, token: string): Item {
    Item(ConnectRequest(Self(opts), token), Hello)
  }

  lemma SystemRunSnoc(opts: ClientOpts, sv: Server, es: seq<SystemEvent>, e: SystemEvent)
    ensures SystemRun(opts, sv, es + [e]) == SystemStep(opts, sv, SystemRun(opts, sv, es), e)
  {
    assert (es + [e])[..|es|] == es;
  }

  lemma SystemRunLast(opts: ClientOpts, sv: Server, es: seq<SystemEvent>, es': seq<SystemEvent>)
    requires es' != []
    ensures SystemRun(opts, sv, es + es') ==
            SystemStep(opts, sv, SystemRun(opts, sv, es + es'[..|es'| - 1]), es'[|es'| - 1])
  {
    assert es + es' == es + es'[..|es'| - 1] + [es'[|es'| - 1]];
    SystemRunSnoc(opts, sv, es + es'[..|es'| - 1], es'[|es'| - 1]);
  }

  /** The run goes on with an event that pushes `items` and neither dials nor ends a connection. */
  lemma Extend(opts: ClientOpts, sv: Server, es: seq<SystemEvent>, e: Event, items: seq<Item>)
    returns (es': seq<SystemEvent>)
    requires var s := SystemRun(opts, sv, es);
             var c' := Step(opts, s.core, e);
             && Honest(sv, s.wire, e)
             && c'.pushed == s.core.pushed + items && c'.dials == s.core.dials && c'.cuts == s.core.cuts
    ensures var s := SystemRun(opts, sv, es);
            SystemRun(opts, sv, es') == System(Step(opts, s.core, e), Pushed(s.wire, items))
  {
    es' := es + [Local(e)];
    SystemRunSnoc(opts, sv, es, Local(e));
  }

  /** The same, with nothing pushed. */
  lemma Proceed(opts: ClientOpts, sv: Server, es: seq<SystemEvent>, e: Event)
    returns (es': seq<SystemEvent>)
    requires var s := SystemRun(opts, sv, es);
             var c' := Step(opts, s.core, e);
             && Honest(sv, s.wire, e)
             && c'.pushed == s.core.pushed && c'.dials == s.core.dials && c'.cuts == s.core.cuts
    ensures var s := SystemRun(opts, sv, es);
            SystemRun(opts, sv, es') == System(Step(opts, s.core, e), s.wire)
  {
    es' := Extend(opts, sv, es, e, []);
    assert SystemRun(opts, sv, es).wire.pushed + [] == SystemRun(opts, sv, es).wire.pushed;
  }

  /** The first connection is up and has moved nothing; nothing waits. */
  ghost predicate Idle(s: System, calls: seq<Call>, issued: nat, items: seq<Item>) {
    var c := s.core;
    && c.clientOpen && c.box == [] && c.phase == Live(false)
    && c.st.pendingAcks == map[] && c.st.pendingReplies == map[]
    && c.calls == calls && c.issued == issued && c.pushed == items
    && s.wire == Wire(items, items, [FRESH])
  }

  lemma Dials(opts: ClientOpts, sv: Server, es: seq<SystemEvent>, token: string) returns (es': seq<SystemEvent>)
    requires SystemRun(opts, sv, es).core.phase.Dialing?
    ensures var s := SystemRun(opts, sv, es);
            SystemRun(opts, sv, es')
            == System(Dialed(opts, s.core, token), Opened(Pushed(s.wire, [HelloItem(opts, token)])))
  {
    var s := SystemRun(opts, sv, es);
    SystemRunSnoc(opts, sv, es, Local(Task(Dial(token))));
    es' := es + [Local(Task(Dial(token)))];
    SplitsBack(s.core.pushed, [HelloItem(opts, token)]);
  }

  lemma Opens(opts: ClientOpts, sv: Server) returns (es: seq<SystemEvent>)
    ensures var s := SystemRun(opts, sv, es);
            && Idle(s, [], 0, [HelloItem(opts, "")])
            && s.core.sleeping == [Heartbeat] && s.core.notes == [] && s.core.arrivals == []
  {
    es := Dials(opts, sv, [], "");
    assert [] + [HelloItem(opts, "")] == [HelloItem(opts, "")];
    es := Proceed(opts, sv, es, Task(HandshakeItem(Some(ConnectResponse(true)))));
  }

  /** The call begun by `e` posts its message. */
  lemma PostsFirst(opts: ClientOpts, sv: Server, es: seq<SystemEvent>, e: ClientEvent, call: Call, issued: nat,
                   calls: seq<Call>, items: seq<Item>)
    returns (es': seq<SystemEvent>)
    requires var s := SystemRun(opts, sv, es);
             && Idle(s, calls, s.core.issued, items)
             && ClientStep(opts, s.core, e) == WithCall(s.core, call).(issued := issued)
    requires call.stage == Fresh
    ensures var s, s' := SystemRun(opts, sv, es), SystemRun(opts, sv, es');
            && s'.wire == s.wire
            && s'.core == s.core.(calls := calls + [call.(stage := AfterSend(call))], issued := issued,
                                  box := [Send(PayloadRequest(call.first), |calls|)], posted := s'.core.posted)
  {
    var w := |calls|;
    es' := Proceed(opts, sv, es, Client(e));
    es' := Proceed(opts, sv, es', Client(PostSend(w)));
    assert SystemRun(opts, sv, es').core.calls == calls + [call.(stage := AfterSend(call))];
    assert [] + [Send(PayloadRequest(call.first), w)] == [Send(PayloadRequest(call.first), w)];
  }

  /** The call begun by `e` posts its message, and the actor takes it. */
  lemma SaysOnce(opts: ClientOpts, sv: Server, es: seq<SystemEvent>, e: ClientEvent, call: Call, issued: nat,
                 calls: seq<Call>, items: seq<Item>)
    returns (es': seq<SystemEvent>)
    requires var s := SystemRun(opts, sv, es);
             && Idle(s, calls, s.core.issued, items)
             && ClientStep(opts, s.core, e) == WithCall(s.core, call).(issued := issued)
    requires call.stage == Fresh
    ensures var s, s' := SystemRun(opts, sv, es), SystemRun(opts, sv, es');
            && Idle(s', calls + [call.(stage := AfterSend(call))], issued,
                    items + [Item(PayloadRequest(call.first), First(|calls|))])
            && s'.core.notes == s.core.notes && s'.core.sleeping == s.core.sleeping
            && s'.core.arrivals == s.core.arrivals
  {
    es' := PostsFirst(opts, sv, es, e, call, issued, calls, items);
    es' := Extend(opts, sv, es', Task(Take), [Item(PayloadRequest(call.first), First(|calls|))]);
  }

  /** The call begun by `e` has posted its message and its wait; neither was taken. */
  lemma PostsBoth(opts: ClientOpts, sv: Server, es: seq<SystemEvent>, e: ClientEvent, call: Call, issued: nat,
                  calls: seq<Call>, items: seq<Item>)
    returns (es': seq<SystemEvent>)
    requires var s := SystemRun(opts, sv, es);
             && Idle(s, calls, s.core.issued, items)
             && ClientStep(opts, s.core, e) == WithCall(s.core, call).(issued := issued)
    requires call.stage == Fresh && NeedsWait(call) && call.original.Some?
    ensures var s, s' := SystemRun(opts, sv, es), SystemRun(opts, sv, es');
            var w := |calls|;
            && s'.wire == s.wire
            && s'.core == s.core.(calls := calls + [call.(stage := Waiting)], issued := issued, box := s'.core.box,
                                  posted := s'.core.posted)
            && s'.core.box == [Send(PayloadRequest(call.first), w), WaitMsg(call, w)]
  {
    es' := PostsFirst(opts, sv, es, e, call, issued, calls, items);
    es' := Proceed(opts, sv, es', Client(PostWait(|calls|)));
    assert SystemRun(opts, sv, es').core.calls == calls + [call.(stage := Waiting)];
  }

  const MSG := SendMessage(Unspecified, [1], "peer", "", AtLeastOnce)

  function SendItem(opts: ClientOpts, q: Seq, w: CallId): Item {
    Item(PayloadRequest(PayloadOf(opts, MSG, q)), First(w))
  }

  /** An at-least-once `send` numbered `q` waits for its ack; its message is queued after `items`. */
  ghost predicate Waits(opts: ClientOpts, s: System, calls: seq<Call>, q: Seq, items: seq<Item>, wire: Wire) {
    var c := s.core;
    var w := |calls|;
    && c.box == [] && c.phase == Live(false) && c.st.pendingAcks == map[q := Entry(MSG, w)]
    && c.calls == calls + [NewSend(opts, q, MSG).(stage := Waiting)] && c.issued == q + 1
    && c.pushed == items + [SendItem(opts, q, w)] && s.wire == wire
  }

  lemma Sends(opts: ClientOpts, sv: Server, es: seq<SystemEvent>, calls: seq<Call>, q: Seq, items: seq<Item>)
    returns (es': seq<SystemEvent>)
    requires Idle(SystemRun(opts, sv, es), calls, q, items)
    ensures var all := items + [SendItem(opts, q, |calls|)];
            Waits(opts, SystemRun(opts, sv, es'), calls, q, items, Wire(all, all, [FRESH]))
  {
    var w := |calls|;
    es' := PostsBoth(opts, sv, es, BeginSend(MSG), NewSend(opts, q, MSG), q + 1, calls, items);
    es' := Extend(opts, sv, es', Task(Take), [SendItem(opts, q, w)]);
    assert SystemRun(opts, sv, es').core.box == [WaitForAck(MSG, q, w)];
    es' := Proceed(opts, sv, es', Task(Take));
  }

  // ---- what moves to the server ----

  /** The connection that sent `sent`, all of it received. */
  function Carried(sent: seq<Item>): Conn {
    FRESH.(taken := sent, sent := sent, arrived := |sent|)
  }

  /** A step on the only connection. */
  lemma OnOnly(w: Wire, e: WireEvent, c: Conn, queue: seq<Item>)
    requires |w.conns| == 1 && e.k == 0
    requires WireStep(w, e).conns[0] == c && WireStep(w, e).queue == queue
    ensures WireStep(w, e) == Wire(w.pushed, queue, [c])
  {
    assert WireStep(w, e).conns == [c];
  }

  /** One item goes from the queue through hand, buffer and stream to the server. */
  lemma PassesOne(pushed: seq<Item>, queue: seq<Item>, sent: seq<Item>)
    requires queue != []
    ensures WireStep(WireStep(WireStep(WireStep(Wire(pushed, queue, [Carried(sent)]), Grab(0)), Put(0)), Consume(0)),
                     Arrive(0))
            == Wire(pushed, queue[1..], [Carried(sent + [queue[0]])])
  {
    var w, it, rest := Wire(pushed, queue, [Carried(sent)]), queue[0], queue[1..];
    var c1 := Grabbed(Carried(sent), it);
    OnOnly(w, Grab(0), c1, rest);
    var w1 := Wire(pushed, rest, [c1]);
    assert [] + [it] == [it];
    var c2 := c1.(hand := None, buffer := [it]);
    OnOnly(w1, Put(0), c2, rest);
    var w2 := Wire(pushed, rest, [c2]);
    var c3 := Carried(sent + [it]).(arrived := |sent|);
    assert [it][1..] == [];
    OnOnly(w2, Consume(0), c3, rest);
    OnOnly(Wire(pushed, rest, [c3]), Arrive(0), Carried(sent + [it]), rest);
  }

  lemma TransfersOne(opts: ClientOpts, sv: Server, es: seq<SystemEvent>, queue: seq<Item>, sent: seq<Item>)
    returns (es': seq<SystemEvent>)
    requires var w := SystemRun(opts, sv, es).wire; w == Wire(w.pushed, queue, [Carried(sent)]) && queue != []
    ensures var s, s' := SystemRun(opts, sv, es), SystemRun(opts, sv, es');
            && s'.core == s.core
            && s'.wire == Wire(s.wire.pushed, queue[1..], [Carried(sent + [queue[0]])])
  {
    PassesOne(SystemRun(opts, sv, es).wire.pushed, queue, sent);
    SystemRunSnoc(opts, sv, es, Net(Grab(0)));
    SystemRunSnoc(opts, sv, es + [Net(Grab(0))], Net(Put(0)));
    SystemRunSnoc(opts, sv, es + [Net(Grab(0))] + [Net(Put(0))], Net(Consume(0)));
    SystemRunSnoc(opts, sv, es + [Net(Grab(0))] + [Net(Put(0))] + [Net(Consume(0))], Net(Arrive(0)));
    es' := es + [Net(Grab(0))] + [Net(Put(0))] + [Net(Consume(0))] + [Net(Arrive(0))];
  }

  /** The first `k` queued items go to the server. */
  lemma {:induction false} Transfers(opts: ClientOpts, sv: Server, es: seq<SystemEvent>, queue: seq<Item>,
                                     sent: seq<Item>, k: nat)
    returns (es': seq<SystemEvent>)
    requires var w := SystemRun(opts, sv, es).wire; w == Wire(w.pushed, queue, [Carried(sent)]) && k <= |queue|
    ensures var s, s' := SystemRun(opts, sv, es), SystemRun(opts, sv, es');
            && s'.core == s.core
            && s'.wire == Wire(s.wire.pushed, queue[k..], [Carried(sent + queue[..k])])
    decreases k
  {
    if k == 0 {
      es' := es;
      assert sent + [] == sent;
    } else {
      es' := TransfersOne(opts, sv, es, queue, sent);
      es' := Transfers(opts, sv, es', queue[1..], sent + [queue[0]], k - 1);
      assert sent + [queue[0]] + queue[1..][..k - 1] == sent + queue[..k];
    }
  }

  lemma AllArrived(w: Wire, items: seq<Item>)
    requires w.conns == [Carried(items)]
    ensures AtServer(w) == items
  {
    assert Joined(w.conns[..0], ArrivedOf()) == [];
    assert ArrivedOf()(w.conns[0]) == items;
  }
}
