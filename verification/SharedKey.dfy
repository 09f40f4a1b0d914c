/** Two at-least-once replies to one received message wait under the same key. The second overwrites the
    first, but the timers of both retransmit it. */
module SharedKey {
  import opened Amounts
  import opened Sequences
  import opened Messages
  import opened Actor
  import opened Protocol
  import opened Attempts
  import Scenes

  const TO: Received := Scenes.FromPeer(0)

  function Original(): SendMessage {
    ReplyMessage(TO, [], AtLeastOnce).value
  }

  function Copy(opts: ClientOpts): Request {
    PayloadRequest(ReplyPayload(opts, TO, []))
  }

  function Answer(opts: ClientOpts): Call {
    NewReply(opts, TO, [], AtLeastOnce).(stage := Waiting)
  }

  /** Live, with the peer's message received. */
  ghost predicate Ready(opts: ClientOpts, c: Core) {
    && c.clientOpen && c.phase == Live(false) && c.notes == [ToClient(TO)]
    && c.calls == [] && c.box == [] && c.sleeping == [Heartbeat] && c.st.pendingAcks == map[]
    && c.pushed == [Item(ConnectRequest(Self(opts), ""), Hello)]
  }

  lemma Receives(opts: ClientOpts) returns (es: seq<Event>)
    ensures Ready(opts, Run(opts, es))
  {
    var e0, e1 := Task(Dial("")), Task(HandshakeItem(Some(ConnectResponse(true))));
    var e2 := Task(StreamItem(Some(Scenes.PeerPayload(0))));
    RunSnoc(opts, Start(), [], e0);
    RunSnoc(opts, Start(), [] + [e0], e1);
    RunSnoc(opts, Start(), [] + [e0] + [e1], e2);
    es := [] + [e0] + [e1] + [e2];
  }

  /** A reply posts its message and its wait. */
  lemma Posts(opts: ClientOpts, c: Core)
    requires c.clientOpen && !c.phase.Over? && ToClient(TO) in c.notes
    ensures var w := |c.calls|;
            var c' := Step(opts, Step(opts, Step(opts, c, Client(BeginReply(TO, [], AtLeastOnce))),
                                      Client(PostSend(w))), Client(PostWait(w)));
            var msgs := [Send(Copy(opts), w), WaitForAck(Original(), 0, w)];
            c' == c.(calls := c.calls + [Answer(opts)], box := c.box + msgs, posted := c.posted + msgs)
  {
    var w := |c.calls|;
    var c1 := Step(opts, c, Client(BeginReply(TO, [], AtLeastOnce)));
    assert c1.calls == c.calls + [NewReply(opts, TO, [], AtLeastOnce)];
    var c2 := Step(opts, c1, Client(PostSend(w)));
    assert c2.calls == c.calls + [NewReply(opts, TO, [], AtLeastOnce).(stage := Sent)];
    var c3 := Step(opts, c2, Client(PostWait(w)));
    assert c3.calls == c.calls + [Answer(opts)];
    Assoc(c.box, [Send(Copy(opts), w)], [WaitForAck(Original(), 0, w)]);
    Assoc(c.posted, [Send(Copy(opts), w)], [WaitForAck(Original(), 0, w)]);
  }

  /** Both are taken: the copy is pushed, the entry is set, and a timer starts. */
  lemma Takes(opts: ClientOpts, c: Core, w: CallId)
    requires c.phase == Live(false) && c.box == [Send(Copy(opts), w), WaitForAck(Original(), 0, w)]
    ensures var c' := Step(opts, Step(opts, c, Task(Take)), Task(Take));
            && c'.phase == c.phase && c'.calls == c.calls && c'.clientOpen == c.clientOpen && c'.box == []
            && c'.pushed == c.pushed + [Item(Copy(opts), First(w))]
            && c'.sleeping == c.sleeping + [RetryAck(0, opts.maxMessageAttempts, w)]
            && c'.st.pendingAcks == c.st.pendingAcks[0 := Entry(Original(), w)]
            && c.notes <= c'.notes
  {
    var c1 := Step(opts, c, Task(Take));
    assert c1.box == [WaitForAck(Original(), 0, w)];
    assert c1.pushed == c.pushed + [Item(Copy(opts), First(w))] && c1.sleeping == c.sleeping;
    var c2 := Step(opts, c1, Task(Take));
    assert c2.pushed == c1.pushed;
  }

  /** A reply, from its first post until its wait is registered. */
  lemma Replies(opts: ClientOpts, es: seq<Event>) returns (es': seq<Event>)
    requires var c := Run(opts, es);
             c.clientOpen && c.phase == Live(false) && ToClient(TO) in c.notes && c.box == []
    ensures var c, c' := Run(opts, es), Run(opts, es');
            var w := |c.calls|;
            && c'.phase == c.phase && c'.clientOpen && c'.box == [] && c'.calls == c.calls + [Answer(opts)]
            && c'.pushed == c.pushed + [Item(Copy(opts), First(w))]
            && c'.sleeping == c.sleeping + [RetryAck(0, opts.maxMessageAttempts, w)]
            && c'.st.pendingAcks == c.st.pendingAcks[0 := Entry(Original(), w)]
            && c.notes <= c'.notes
  {
    var c := Run(opts, es);
    var w := |c.calls|;
    var e0, e1, e2 := Client(BeginReply(TO, [], AtLeastOnce)), Client(PostSend(w)), Client(PostWait(w));
    Posts(opts, c);
    RunSnoc(opts, Start(), es, e0);
    RunSnoc(opts, Start(), es + [e0], e1);
    RunSnoc(opts, Start(), es + [e0] + [e1], e2);
    var posted := es + [e0] + [e1] + [e2];
    var c3 := Run(opts, posted);
    assert c3.box == [Send(Copy(opts), w), WaitForAck(Original(), 0, w)];
    Takes(opts, c3, w);
    RunSnoc(opts, Start(), posted, Task(Take));
    RunSnoc(opts, Start(), posted + [Task(Take)], Task(Take));
    es' := posted + [Task(Take)] + [Task(Take)];
  }

  /** Both replies wait: the entry is the second's, and each has a timer. */
  ghost predicate Shared(opts: ClientOpts, c: Core, left: Amount) {
    && c.phase == Live(false) && c.box == [] && c.calls == [Answer(opts), Answer(opts)]
    && c.sleeping == [Heartbeat, RetryAck(0, opts.maxMessageAttempts, 0), RetryAck(0, left, 1)]
    && c.st.pendingAcks == map[0 := Entry(Original(), 1)]
  }

  lemma Opened(opts: ClientOpts) returns (es: seq<Event>)
    ensures Shared(opts, Run(opts, es), opts.maxMessageAttempts)
    ensures Count(Run(opts, es).pushed, IsAgain(1)) == 0
  {
    es := Receives(opts);
    es := Replies(opts, es);
    es := Replies(opts, es);
    CountZero(Run(opts, es).pushed, IsAgain(1));
  }

  /** A retry timer fires and its message is taken: one more copy of the second reply. */
  lemma Fires(opts: ClientOpts, c: Core, i: nat, left: Amount, chain: CallId)
    requires c.phase == Live(false) && c.box == [] && i < |c.sleeping| && c.sleeping[i] == RetryAck(0, left, chain)
    requires c.st.pendingAcks == map[0 := Entry(Original(), 1)] && !left.IsZero()
    ensures var c' := Step(opts, Step(opts, c, Wake(i)), Task(Take));
            && c'.phase == c.phase && c'.box == [] && c'.calls == c.calls && c'.st == c.st
            && c'.sleeping == c.sleeping[..i] + c.sleeping[i + 1..] + [RetryAck(0, NextLeft(opts, left), chain)]
            && Count(c'.pushed, IsAgain(1)) == Count(c.pushed, IsAgain(1)) + 1
  {
    var c1 := Step(opts, c, Wake(i));
    assert c1.box == [RetryAck(0, left, chain)];
    var copy := Item(PayloadRequest(PayloadOf(opts, Original(), 0)), Again(1, chain));
    assert Step(opts, c1, Task(Take)).pushed == c.pushed + [copy];
    CountSnoc(c.pushed, copy, IsAgain(1));
  }

  /** The second reply's own timer fires, in a run. */
  lemma FiresOnce(opts: ClientOpts, es: seq<Event>, left: Amount) returns (es': seq<Event>)
    requires Shared(opts, Run(opts, es), left) && !left.IsZero()
    ensures Shared(opts, Run(opts, es'), NextLeft(opts, left))
    ensures Count(Run(opts, es').pushed, IsAgain(1)) == Count(Run(opts, es).pushed, IsAgain(1)) + 1
  {
    Fires(opts, Run(opts, es), 2, left, 1);
    RunSnoc(opts, Start(), es, Wake(2));
    RunSnoc(opts, Start(), es + [Wake(2)], Task(Take));
    es' := es + [Wake(2)] + [Task(Take)];
  }

  /** It spends `k` attempts. */
  lemma {:induction false} FiresOften(opts: ClientOpts, k: nat) returns (es: seq<Event>)
    requires Sparing(opts) && k <= opts.maxMessageAttempts.v
    ensures Shared(opts, Run(opts, es), Val(opts.maxMessageAttempts.v - k))
    ensures Count(Run(opts, es).pushed, IsAgain(1)) == k
  {
    if k == 0 {
      es := Opened(opts);
    } else {
      var left := Val(opts.maxMessageAttempts.v - (k - 1));
      var es' := FiresOften(opts, k - 1);
      es := FiresOnce(opts, es', left);
      assert NextLeft(opts, left) == left.Decrement();
    }
  }

  /** For every maximum of one or more: a run that retransmits a message once more than the maximum. */
  lemma OneTooMany(opts: ClientOpts) returns (es: seq<Event>)
    requires Sparing(opts) && opts.maxMessageAttempts.v > 0
    ensures Count(Run(opts, es).pushed, IsAgain(1)) == opts.maxMessageAttempts.v + 1
  {
    var es' := FiresOften(opts, opts.maxMessageAttempts.v);
    Fires(opts, Run(opts, es'), 1, opts.maxMessageAttempts, 0);
    RunSnoc(opts, Start(), es', Wake(1));
    RunSnoc(opts, Start(), es' + [Wake(1)], Task(Take));
    es := es' + [Wake(1)] + [Task(Take)];
  }
}
