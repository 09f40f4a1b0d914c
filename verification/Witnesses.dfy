/** Runs that show which retransmission counts the actor reaches. */
module Witnesses {
  import opened Amounts
  import opened Sequences
  import opened Messages
  import opened Actor
  import opened Protocol
  import opened Attempts

  /** One `send` that asks for delivery, its wait and its timer set up, on a live connection; the
      server stays silent. */
  ghost predicate Silent(opts: ClientOpts, c: Core, msg: SendMessage, left: Amount) {
    && c.calls == [NewSend(opts, 0, msg).(stage := Waiting)]
    && c.issued == 1
    && c.box == [] && c.sleeping == [Heartbeat, RetryAck(0, left, 0)]
    && c.st.pendingAcks == map[0 := Entry(msg, 0)]
    && c.phase == Live(false)
  }

  function Opening(msg: SendMessage): seq<Event> {
    [Client(BeginSend(msg)), Client(PostSend(0)), Client(PostWait(0)),
     Task(Dial("")), Task(HandshakeItem(Some(ConnectResponse(true))))]
  }

  /** The call has posted its message and its wait; nobody is connected. */
  predicate Prepared(opts: ClientOpts, c: Core, msg: SendMessage) {
    var call := NewSend(opts, 0, msg);
    && c == Start().(calls := [call.(stage := Waiting)], issued := 1, box := c.box, posted := c.box)
    && c.box == [Send(PayloadRequest(call.first), 0), WaitForAck(msg, 0, 0)]
  }

  lemma Prepare(opts: ClientOpts, msg: SendMessage)
    requires msg.qos == AtLeastOnce
    ensures var es := Opening(msg);
            Prepared(opts, Step(opts, Step(opts, Step(opts, Start(), es[0]), es[1]), es[2]), msg)
  {
    var es := Opening(msg);
    var call := NewSend(opts, 0, msg);
    var c0 := Step(opts, Start(), es[0]);
    assert c0.calls == [call] && c0.issued == 1;
    var c1 := Step(opts, c0, es[1]);
    assert c1.calls == [call.(stage := Sent)] && c1.box == [Send(PayloadRequest(call.first), 0)];
    var c2 := Step(opts, c1, es[2]);
    assert c2.calls == [call.(stage := Waiting)];
  }

  lemma Connect(opts: ClientOpts, c: Core, msg: SendMessage)
    requires Prepared(opts, c, msg)
    ensures var es := Opening(msg);
            var c' := Step(opts, Step(opts, c, es[3]), es[4]);
            && c'.calls == c.calls && c'.issued == 1 && c'.box == c.box && c'.phase == Live(false)
            && c'.sleeping == [Heartbeat] && c'.st.pendingAcks == map[]
            && c'.pushed == [Item(ConnectRequest(Self(opts), ""), Hello)]
  {
  }

  lemma TakeBoth(opts: ClientOpts, c: Core, msg: SendMessage)
    requires var call := NewSend(opts, 0, msg);
             && c.calls == [call.(stage := Waiting)] && c.issued == 1 && c.phase == Live(false)
             && c.box == [Send(PayloadRequest(call.first), 0), WaitForAck(msg, 0, 0)]
             && c.sleeping == [Heartbeat] && c.st.pendingAcks == map[]
    requires c.pushed == [Item(ConnectRequest(Self(opts), ""), Hello)]
    ensures var c' := Step(opts, Step(opts, c, Task(Take)), Task(Take));
            Silent(opts, c', msg, opts.maxMessageAttempts) && Count(c'.pushed, IsAgain(0)) == 0
  {
    var call := NewSend(opts, 0, msg);
    var c1 := Step(opts, c, Task(Take));
    assert c1.box == [WaitForAck(msg, 0, 0)];
    var c2 := Step(opts, c1, Task(Take));
    assert c2.pushed == [Item(ConnectRequest(Self(opts), ""), Hello), Item(PayloadRequest(call.first), First(0))];
    CountZero(c2.pushed, IsAgain(0));
  }

  lemma Opened(opts: ClientOpts, msg: SendMessage) returns (c: Core)
    requires msg.qos == AtLeastOnce
    ensures c == Run(opts, Opening(msg) + [Task(Take)] + [Task(Take)])
    ensures Silent(opts, c, msg, opts.maxMessageAttempts) && Count(c.pushed, IsAgain(0)) == 0
  {
    var es := Opening(msg);
    Prepare(opts, msg);
    var c2 := Step(opts, Step(opts, Step(opts, Start(), es[0]), es[1]), es[2]);
    Connect(opts, c2, msg);
    OpeningRun(opts, msg);
    TakeBoth(opts, Run(opts, es), msg);
    RunSnoc(opts, Start(), es, Task(Take));
    RunSnoc(opts, Start(), es + [Task(Take)], Task(Take));
    c := Run(opts, es + [Task(Take)] + [Task(Take)]);
  }

  lemma OpeningRun(opts: ClientOpts, msg: SendMessage)
    ensures var es := Opening(msg);
            Run(opts, es) ==
            Step(opts, Step(opts, Step(opts, Step(opts, Step(opts, Start(), es[0]), es[1]), es[2]), es[3]), es[4])
  {
    var es := Opening(msg);
    assert es[..0] == [];
    RunSnoc(opts, Start(), es[..0], es[0]);
    assert es[..1] == es[..0] + [es[0]];
    RunSnoc(opts, Start(), es[..1], es[1]);
    assert es[..2] == es[..1] + [es[1]];
    RunSnoc(opts, Start(), es[..2], es[2]);
    assert es[..3] == es[..2] + [es[2]];
    RunSnoc(opts, Start(), es[..3], es[3]);
    assert es[..4] == es[..3] + [es[3]];
    RunSnoc(opts, Start(), es[..4], es[4]);
    assert es == es[..4] + [es[4]];
  }

  /** The timer fires and its message is taken: one more copy, and the next timer. */
  lemma OneMore(opts: ClientOpts, c: Core, msg: SendMessage, left: Amount)
    requires Silent(opts, c, msg, left) && !left.IsZero()
    ensures var c' := Step(opts, Step(opts, c, Wake(1)), Task(Take));
            && Silent(opts, c', msg, NextLeft(opts, left))
            && Count(c'.pushed, IsAgain(0)) == Count(c.pushed, IsAgain(0)) + 1
  {
    var timer := RetryAck(0, left, 0);
    var c1 := Step(opts, c, Wake(1));
    assert c.sleeping[1] == timer;
    assert c1.sleeping == [Heartbeat] && c1.box == [timer];
    var c2 := Step(opts, c1, Task(Take));
    var copy := Item(PayloadRequest(PayloadOf(opts, msg, 0)), Again(0, 0));
    assert c2.pushed == c.pushed + [copy];
    CountSnoc(c.pushed, copy, IsAgain(0));
  }

  /** The same after a run. */
  lemma OneMoreAfter(opts: ClientOpts, es: seq<Event>, msg: SendMessage, left: Amount) returns (es': seq<Event>)
    requires Silent(opts, Run(opts, es), msg, left) && !left.IsZero()
    ensures Silent(opts, Run(opts, es'), msg, NextLeft(opts, left))
    ensures Count(Run(opts, es').pushed, IsAgain(0)) == Count(Run(opts, es).pushed, IsAgain(0)) + 1
  {
    RunSnoc(opts, Start(), es, Wake(1));
    RunSnoc(opts, Start(), es + [Wake(1)], Task(Take));
    OneMore(opts, Run(opts, es), msg, left);
    es' := es + [Wake(1)] + [Task(Take)];
  }

  /** When timers never carry zero, every number of retransmissions of one message is reached. */
  lemma {:induction false} AnyNumberOfRetransmissions(opts: ClientOpts, msg: SendMessage, k: nat)
    returns (es: seq<Event>)
    requires msg.qos == AtLeastOnce && Endless(opts)
    ensures exists left: Amount :: Usual(opts, left) && Silent(opts, Run(opts, es), msg, left)
    ensures Count(Run(opts, es).pushed, IsAgain(0)) == k
  {
    if k == 0 {
      var c := Opened(opts, msg);
      es := Opening(msg) + [Task(Take)] + [Task(Take)];
      assert Usual(opts, opts.maxMessageAttempts);
    } else {
      var es' := AnyNumberOfRetransmissions(opts, msg, k - 1);
      var left: Amount :| Usual(opts, left) && Silent(opts, Run(opts, es'), msg, left);
      es := OneMoreAfter(opts, es', msg, left);
      assert Usual(opts, NextLeft(opts, left));
    }
  }

  /** When every copy costs an attempt, every number of retransmissions up to the maximum is reached. */
  lemma {:induction false} AnyNumberInBudget(opts: ClientOpts, msg: SendMessage, k: nat) returns (es: seq<Event>)
    requires msg.qos == AtLeastOnce && Sparing(opts) && k <= opts.maxMessageAttempts.v
    ensures Silent(opts, Run(opts, es), msg, Val(opts.maxMessageAttempts.v - k))
    ensures Count(Run(opts, es).pushed, IsAgain(0)) == k
  {
    if k == 0 {
      var c := Opened(opts, msg);
      es := Opening(msg) + [Task(Take)] + [Task(Take)];
    } else {
      var es' := AnyNumberInBudget(opts, msg, k - 1);
      var left := Val(opts.maxMessageAttempts.v - (k - 1));
      es := OneMoreAfter(opts, es', msg, left);
      assert NextLeft(opts, left) == left.Decrement();
    }
  }
}
