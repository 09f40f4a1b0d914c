/** Retry timers and the copies they push. */
module Retries {
  import opened Sequences
  import opened Messages
  import opened Actor
  import opened Protocol
  import opened Provenance
  import opened Waiters

  predicate IsRetry(m: Msg) {
    m.RetryAck? || m.RetryAsk?
  }

  function IsTimerOf(w: CallId): Msg -> bool {
    (m: Msg) => IsRetry(m) && m.chain == w
  }

  function IsGaveUp(w: CallId): Note -> bool {
    (n: Note) => n == GaveUp(w)
  }

  function TimersOf(c: Core, w: CallId): nat {
    Count(c.box, IsTimerOf(w)) + Count(c.sleeping, IsTimerOf(w))
  }

  /** A call starts at most one timer chain, when its wait is taken, and a chain is one timer. */
  ghost predicate OneTimer(c: Core, w: CallId) {
    TimersOf(c, w) + Count(c.box, IsWait(w)) <= Bit(IsWaiting(c, w))
  }

  /** A pending call has its timer, unless the chain gave up. */
  ghost predicate Alive(c: Core, w: CallId) {
    Pending(c.st, w) <= TimersOf(c, w) + Count(c.notes, IsGaveUp(w))
  }

  ghost predicate Chained(c: Core) {
    forall w: CallId :: OneTimer(c, w) && Alive(c, w)
  }

  // ---- one message ----

  lemma OutcomeTimer(opts: ClientOpts, calls: seq<Call>, st: State, clientOpen: bool, m: Msg, w: CallId)
    requires MsgOk(calls, m) && StateOk(calls, st)
    ensures var o := OnMsg(opts, st, clientOpen, m);
            && Count(o.timers, IsTimerOf(w)) <= Bit(IsTimerOf(w)(m)) + Bit(IsWait(w)(m))
            && (IsWait(w)(m) ==> Count(o.timers, IsTimerOf(w)) == 1)
            && (IsTimerOf(w)(m) && Pending(st, w) == 1 ==>
                  Count(o.timers, IsTimerOf(w)) + Count(o.notes, IsGaveUp(w)) == 1)
  {
    var o := OnMsg(opts, st, clientOpen, m);
    if o.timers != [] { CountOne(o.timers[0], IsTimerOf(w)); }
    if o.notes != [] { CountOne(o.notes[0], IsGaveUp(w)); }
    if IsTimerOf(w)(m) { WaiterAtOwnKey(calls, st, w); }
  }

  lemma PendingGrows(opts: ClientOpts, calls: seq<Call>, st: State, clientOpen: bool, m: Msg, w: CallId)
    requires forall call <- calls :: CallOk(opts, call)
    requires StateOk(calls, st) && MsgOk(calls, m)
    requires Bit(IsWait(w)(m)) + Pending(st, w) <= 1
    ensures Pending(OnMsg(opts, st, clientOpen, m).st, w) <= Pending(st, w) + Bit(IsWait(w)(m))
  {
    OutcomePlace(opts, calls, st, clientOpen, m, w);
  }

  lemma ChainCut(opts: ClientOpts, c: Core, status: Status, w: CallId)
    requires OneTimer(c, w) && Alive(c, w) && status != Continue
    ensures OneTimer(Cut(opts, c, status), w) && Alive(Cut(opts, c, status), w)
  {
    CountSnoc(c.notes, Shutdown(Protocol.Waiters(c.st)), IsGaveUp(w));
  }

  /** `c` is the state with `m` already taken off the mailbox. */
  lemma ChainProcessed(opts: ClientOpts, c: Core, m: Msg, w: CallId)
    requires Traced(opts, c) && MsgOk(c.calls, m)
    requires Bit(IsWait(w)(m)) + Pending(c.st, w) <= 1
    requires TimersOf(c, w) + Bit(IsTimerOf(w)(m)) + Count(c.box, IsWait(w)) + Bit(IsWait(w)(m))
             <= Bit(IsWaiting(c, w))
    requires Pending(c.st, w) <= TimersOf(c, w) + Bit(IsTimerOf(w)(m)) + Count(c.notes, IsGaveUp(w))
    ensures OneTimer(Processed(opts, c, m), w) && Alive(Processed(opts, c, m), w)
  {
    var o := OnMsg(opts, c.st, c.clientOpen, m);
    OutcomeTimer(opts, c.calls, c.st, c.clientOpen, m, w);
    PendingGrows(opts, c.calls, c.st, c.clientOpen, m, w);
    CountConcat(c.sleeping, o.timers, IsTimerOf(w));
    CountConcat(c.notes, o.notes, IsGaveUp(w));
    var c' := Applied(c, m, o);
    assert OneTimer(c', w) && Alive(c', w);
    if o.status != Continue { ChainCut(opts, c', o.status, w); }
  }

  // ---- the steps ----

  lemma ChainedTake(opts: ClientOpts, c: Core)
    requires Traced(opts, c) && Conserved(c) && Chained(c) && c.box != []
    ensures Chained(Processed(opts, Popped(c), c.box[0]))
  {
    var m := c.box[0];
    assert m in c.box;
    forall w: CallId
      ensures OneTimer(Processed(opts, Popped(c), m), w) && Alive(Processed(opts, Popped(c), m), w)
    {
      assert OnePlace(c, w) && OneTimer(c, w) && Alive(c, w);
      CountHead(c.box, IsWait(w));
      CountHead(c.box, IsTimerOf(w));
      ChainProcessed(opts, Popped(c), m, w);
    }
  }

  lemma ChainedRead(opts: ClientOpts, c: Core, resp: Response)
    requires Traced(opts, c) && Conserved(c) && Chained(c) && c.box == []
    ensures var m := RelayResponse(resp);
            Chained(Processed(opts, Popped(Posted(Arrived(c, resp), m)), m))
  {
    var m := RelayResponse(resp);
    var c1 := Popped(Posted(Arrived(c, resp), m));
    assert c1.box == [];
    forall w: CallId
      ensures OneTimer(Processed(opts, c1, m), w) && Alive(Processed(opts, c1, m), w)
    {
      assert OnePlace(c, w) && OneTimer(c, w) && Alive(c, w);
      ChainProcessed(opts, c1, m, w);
    }
  }

  lemma ChainedCut(opts: ClientOpts, c: Core, status: Status)
    requires Chained(c) && status != Continue
    ensures Chained(Cut(opts, c, status))
  {
    forall w: CallId
      ensures OneTimer(Cut(opts, c, status), w) && Alive(Cut(opts, c, status), w)
    {
      assert OneTimer(c, w) && Alive(c, w);
      ChainCut(opts, c, status, w);
    }
  }

  /** Posting a message that is neither a wait nor a retry timer. */
  lemma ChainedPosted(c: Core, c0: Core, m: Msg)
    requires Chained(c0) && !m.WaitForAck? && !m.WaitForReply? && !IsRetry(m)
    requires c.st == c0.st && c.notes == c0.notes && c.sleeping == c0.sleeping && c.box == c0.box + [m]
    requires Extends(c0.calls, c.calls)
    ensures Chained(c)
  {
    forall w: CallId ensures OneTimer(c, w) && Alive(c, w) {
      assert OneTimer(c0, w) && Alive(c0, w);
      assert w < |c0.calls| ==> Advanced(c0.calls[w], c.calls[w]);
      CountSnoc(c0.box, m, IsWait(w));
      CountSnoc(c0.box, m, IsTimerOf(w));
    }
  }

  lemma ChainedFrame(c: Core, c0: Core)
    requires Chained(c0)
    requires c.notes == c0.notes && c.box == c0.box && Extends(c0.calls, c.calls)
    requires c.sleeping == c0.sleeping || c.sleeping == c0.sleeping + [Heartbeat]
    requires c.st == c0.st.(heartbeatStarted := c.st.heartbeatStarted)
    ensures Chained(c)
  {
    forall w: CallId ensures OneTimer(c, w) && Alive(c, w) {
      assert OneTimer(c0, w) && Alive(c0, w);
      assert w < |c0.calls| ==> Advanced(c0.calls[w], c.calls[w]);
      CountSnoc(c0.sleeping, Heartbeat, IsTimerOf(w));
    }
  }

  lemma ChainedWake(opts: ClientOpts, c: Core, i: nat)
    requires Chained(c) && OnlyTimers(c) && i < |c.sleeping|
    requires c.phase.Over? ==> c.st.pendingAcks == map[] && c.st.pendingReplies == map[]
    ensures Chained(TimerStep(c, i))
  {
    var m := c.sleeping[i];
    assert m in c.sleeping;
    var c' := TimerStep(c, i);
    forall w: CallId ensures OneTimer(c', w) && Alive(c', w) {
      assert OneTimer(c, w) && Alive(c, w);
      CountRemove(c.sleeping, i, IsTimerOf(w));
      CountSnoc(c.box, m, IsTimerOf(w));
      CountSnoc(c.box, m, IsWait(w));
    }
  }

  lemma ChainedPostWait(c: Core, w: CallId)
    requires Conserved(c) && Chained(c)
    requires w < |c.calls| && c.calls[w].stage == Sent && c.calls[w].original.Some?
    ensures Chained(Posted(AtStage(c, w, Waiting), WaitMsg(c.calls[w], w)))
  {
    var m := WaitMsg(c.calls[w], w);
    var c' := Posted(AtStage(c, w, Waiting), m);
    forall v: CallId ensures OneTimer(c', v) && Alive(c', v) {
      assert OneTimer(c, v) && Alive(c, v) && OnePlace(c, v);
      CountSnoc(c.box, m, IsWait(v));
      CountSnoc(c.box, m, IsTimerOf(v));
    }
  }

  lemma ChainedClient(opts: ClientOpts, c: Core, e: ClientEvent)
    requires Traced(opts, c) && Conserved(c) && Chained(c)
    ensures Chained(ClientStep(opts, c, e))
  {
    var c' := ClientStep(opts, c, e);
    TracedClient(opts, c, e);
    match e
    case PostSend(w) =>
      if c'.box != c.box {
        ChainedPosted(c', c, Send(PayloadRequest(c.calls[w].first), w));
      } else {
        ChainedFrame(c', c);
      }
    case PostWait(w) =>
      if c'.box != c.box {
        ChainedPostWait(c, w);
      } else {
        ChainedFrame(c', c);
      }
    case PostStop => if c'.box != c.box { ChainedPosted(c', c, Stop); }
    case PostReconnect => if c'.box != c.box { ChainedPosted(c', c, Reconnect); }
    case _ => ChainedFrame(c', c);
  }

  lemma ChainedActor(opts: ClientOpts, c: Core, e: ActorEvent)
    requires Traced(opts, c) && Conserved(c) && Chained(c)
    ensures Chained(ActorStep(opts, c, e))
  {
    match e
    case Dial(token) => ChainedFrame(Dialed(opts, c, token), c);
    case DialFails => ChainedCut(opts, c, OtherError);
    case HandshakeItem(resp) =>
      if c.phase.Handshaking? && resp.Some? {
        if resp.value == ConnectResponse(true) {
          ChainedFrame(WentLive(c, false), c);
        } else if resp.value == ConnectResponse(false) {
          ChainedCut(opts, c, OtherError);
        } else {
          ChainedPosted(ActorStep(opts, c, e), c, RelayResponse(resp.value));
        }
      }
    case HandshakeEnds => ChainedFrame(WentLive(c, true), c);
    case HandshakeFails => ChainedCut(opts, c, OtherError);
    case Take => if c.phase.Live? && c.box != [] { ChainedTake(opts, c); }
    case StreamItem(resp) =>
      if c.phase == Live(false) && c.box == [] && resp.Some? { ChainedRead(opts, c, resp.value); }
    case StreamFails => ChainedCut(opts, c, OtherError);
  }

  /** After the actor ended nothing is pending. */
  predicate Emptied(c: Core) {
    c.phase.Over? ==> c.st.pendingAcks == map[] && c.st.pendingReplies == map[]
  }

  lemma EmptiedStep(opts: ClientOpts, c: Core, e: Event)
    requires Emptied(c)
    ensures Emptied(Step(opts, c, e))
  {
    match e
    case Client(e) => ClientFrame(opts, c, e);
    case Wake(i) => TimerFrame(c, i);
    case Task(e) => EmptiedActor(opts, c, e);
  }

  lemma EmptiedSettled(opts: ClientOpts, c: Core, status: Status)
    requires !c.phase.Over?
    ensures Emptied(Settled(opts, c, status))
  {
  }

  lemma EmptiedActor(opts: ClientOpts, c: Core, e: ActorEvent)
    requires Emptied(c)
    ensures Emptied(ActorStep(opts, c, e))
  {
    match e
    case Take =>
      if c.phase.Live? && c.box != [] {
        var o := OnMsg(opts, c.st, c.clientOpen, c.box[0]);
        EmptiedSettled(opts, Applied(Popped(c), c.box[0], o), o.status);
      }
    case StreamItem(resp) =>
      if c.phase == Live(false) && c.box == [] && resp.Some? {
        var m := RelayResponse(resp.value);
        var o := OnMsg(opts, c.st, c.clientOpen, m);
        EmptiedSettled(opts, Applied(Popped(Posted(Arrived(c, resp.value), m)), m, o), o.status);
      }
    case _ => if !c.phase.Over? { EmptiedSettled(opts, c, OtherError); }
  }

  lemma ChainedStep(opts: ClientOpts, c: Core, e: Event)
    requires Traced(opts, c) && OnlyTimers(c) && Emptied(c) && Conserved(c) && Chained(c)
    ensures Chained(Step(opts, c, e))
  {
    match e
    case Client(e) => ChainedClient(opts, c, e);
    case Task(e) => ChainedActor(opts, c, e);
    case Wake(i) => if i < |c.sleeping| { ChainedWake(opts, c, i); }
  }
}
