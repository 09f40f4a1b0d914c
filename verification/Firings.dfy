/** How often a message was retransmitted: exactly as often as its timer fired while it was pending. */
module Firings {
  import opened Sequences
  import opened Messages
  import opened Actor
  import opened Protocol
  import opened Provenance
  import opened Waiters
  import opened Retries
  import opened Attempts
  import opened Guarantees

  /** A chain gets one timer when its wait is taken and one more for every copy it pushes; each of
      these timers sleeps or was posted. Every wait is posted once. */
  ghost predicate Booked(c: Core, w: CallId) {
    && Count(c.posted, IsWait(w)) == Bit(IsWaiting(c, w))
    && (!c.phase.Over? ==>
          Count(c.posted, IsTimerOf(w)) + Count(c.sleeping, IsTimerOf(w))
          == Count(c.handled, IsWait(w)) + Count(c.pushed, IsBy(w)))
  }

  lemma OutcomeBooked(opts: ClientOpts, st: State, clientOpen: bool, m: Msg, w: CallId)
    ensures var o := OnMsg(opts, st, clientOpen, m);
            Count(o.timers, IsTimerOf(w)) == Bit(IsWait(w)(m)) + Count(o.pushes, IsBy(w))
  {
    var o := OnMsg(opts, st, clientOpen, m);
    if o.timers != [] { CountOne(o.timers[0], IsTimerOf(w)); }
    if o.pushes != [] { CountOne(o.pushes[0], IsBy(w)); }
  }

  /** Ending a connection books nothing. */
  lemma BookedSettled(opts: ClientOpts, c: Core, status: Status, w: CallId)
    requires Booked(c, w) && !c.phase.Over?
    ensures Booked(Settled(opts, c, status), w)
  {
  }

  lemma BookedProcessed(opts: ClientOpts, c: Core, m: Msg, w: CallId)
    requires Booked(c, w) && !c.phase.Over?
    ensures Booked(Processed(opts, c, m), w)
  {
    var o := OnMsg(opts, c.st, c.clientOpen, m);
    OutcomeBooked(opts, c.st, c.clientOpen, m, w);
    CountConcat(c.sleeping, o.timers, IsTimerOf(w));
    CountConcat(c.pushed, o.pushes, IsBy(w));
    CountSnoc(c.handled, m, IsWait(w));
    BookedSettled(opts, Applied(c, m, o), o.status, w);
  }

  /** Posting a message that is neither a wait nor a retry timer. */
  lemma BookedPosted(c: Core, c0: Core, m: Msg, w: CallId)
    requires Booked(c0, w) && !m.WaitForAck? && !m.WaitForReply? && !IsRetry(m)
    requires c.posted == c0.posted + [m] && c.sleeping == c0.sleeping && c.phase == c0.phase
    requires c.handled == c0.handled && c.pushed == c0.pushed && Extends(c0.calls, c.calls)
    requires IsWaiting(c, w) ==> IsWaiting(c0, w)
    ensures Booked(c, w)
  {
    assert w < |c0.calls| ==> Advanced(c0.calls[w], c.calls[w]);
    CountSnoc(c0.posted, m, IsWait(w));
    CountSnoc(c0.posted, m, IsTimerOf(w));
  }

  lemma BookedClient(opts: ClientOpts, c: Core, e: ClientEvent, w: CallId)
    requires Traced(opts, c) && Booked(c, w)
    ensures Booked(ClientStep(opts, c, e), w)
  {
    var c' := ClientStep(opts, c, e);
    ClientFrame(opts, c, e);
    TracedClient(opts, c, e);
    assert w < |c.calls| ==> Advanced(c.calls[w], c'.calls[w]);
    if c'.box != c.box {
      match e
      case PostSend(v) => BookedPosted(c', c, Send(PayloadRequest(c.calls[v].first), v), w);
      case PostWait(v) =>
        CountSnoc(c.posted, WaitMsg(c.calls[v], v), IsWait(w));
        CountSnoc(c.posted, WaitMsg(c.calls[v], v), IsTimerOf(w));
      case PostStop => BookedPosted(c', c, Stop, w);
      case PostReconnect => BookedPosted(c', c, Reconnect, w);
    }
  }

  lemma BookedHandshake(opts: ClientOpts, c: Core, resp: Response, w: CallId)
    requires Booked(c, w) && c.phase.Handshaking?
    ensures Booked(Handshook(opts, c, resp), w)
  {
    if resp == ConnectResponse(true) {
      CountSnoc(c.sleeping, Heartbeat, IsTimerOf(w));
    } else if resp == ConnectResponse(false) {
      BookedSettled(opts, c, OtherError, w);
    } else {
      BookedPosted(Handshook(opts, c, resp), c, RelayResponse(resp), w);
    }
  }

  lemma BookedActor(opts: ClientOpts, c: Core, e: ActorEvent, w: CallId)
    requires Booked(c, w)
    ensures Booked(ActorStep(opts, c, e), w)
  {
    match e
    case Dial(token) => CountSnoc(c.pushed, Item(ConnectRequest(Self(opts), token), Hello), IsBy(w));
    case HandshakeItem(resp) => if c.phase.Handshaking? && resp.Some? { BookedHandshake(opts, c, resp.value, w); }
    case HandshakeEnds => CountSnoc(c.sleeping, Heartbeat, IsTimerOf(w));
    case Take => if c.phase.Live? && c.box != [] { BookedProcessed(opts, Popped(c), c.box[0], w); }
    case StreamItem(resp) =>
      if c.phase == Live(false) && c.box == [] && resp.Some? {
        var m := RelayResponse(resp.value);
        var c1 := Popped(Posted(Arrived(c, resp.value), m));
        BookedPosted(c1, c, m, w);
        BookedProcessed(opts, c1, m, w);
      }
    case _ => if !c.phase.Over? { BookedSettled(opts, c, OtherError, w); }
  }

  lemma BookedStep(opts: ClientOpts, c: Core, e: Event, w: CallId)
    requires Traced(opts, c) && OnlyTimers(c) && Booked(c, w)
    ensures Booked(Step(opts, c, e), w)
  {
    match e
    case Client(e) => BookedClient(opts, c, e, w);
    case Task(e) => BookedActor(opts, c, e, w);
    case Wake(i) =>
      if i < |c.sleeping| {
        assert c.sleeping[i] in c.sleeping && IsTimer(c.sleeping[i]);
        CountRemove(c.sleeping, i, IsTimerOf(w));
        CountSnoc(c.posted, c.sleeping[i], IsTimerOf(w));
        CountSnoc(c.posted, c.sleeping[i], IsWait(w));
      }
  }

  lemma {:induction false} BookedRun(opts: ClientOpts, es: seq<Event>, w: CallId)
    ensures Booked(Run(opts, es), w)
  {
    if es != [] {
      InvRun(opts, es[..|es| - 1]);
      BookedRun(opts, es[..|es| - 1], w);
      BookedStep(opts, Run(opts, es[..|es| - 1]), es[|es| - 1], w);
    }
  }

  /** Once its wait is registered under a key of its own, a call's message is on the outbound queue
      once, and once more for every firing of its timer that found it pending with budget left: as
      often as timers fired, and one more while the next timer is there. */
  lemma CopiesFollowFirings(opts: ClientOpts, es: seq<Event>, w: CallId)
    requires var c := Run(opts, es); !c.phase.Over? && Alone(c, w) && Count(c.box, IsWait(w)) == 0
    ensures var c := Run(opts, es);
            && Count(c.pushed, IsCopy(w)) == Count(c.handled, IsTimerOf(w)) + TimersOf(c, w)
            && TimersOf(c, w) <= 1
            && (Pending(c.st, w) == 1 && GaveUp(w) !in c.notes ==> TimersOf(c, w) == 1)
  {
    InvRun(opts, es);
    BookedRun(opts, es, w);
    var c := Run(opts, es);
    assert OneTimer(c, w) && Alive(c, w) && OneFirst(c, w) && SendFirst(c, w);
    CountZero(c.notes, IsGaveUp(w));
    OwnCopies(opts, c, w);
    CountZero(c.box, IsWait(w));
    CountZero(c.box, IsSend(w));
    CountConcat(c.handled, c.box, IsWait(w));
    CountConcat(c.handled, c.box, IsTimerOf(w));
  }

  /** With a key of its own, a call's retransmissions are those of its own chain. */
  lemma OwnCopies(opts: ClientOpts, c: Core, w: CallId)
    requires Traced(opts, c) && Alone(c, w)
    ensures Count(c.pushed, IsCopy(w)) == Count(c.pushed, IsFirst(w)) + Count(c.pushed, IsBy(w))
  {
    CopiesSplit(c.pushed, w);
    forall it <- c.pushed ensures IsAgain(w)(it) <==> IsBy(w)(it) {
      assert ItemOk(c.calls, it);
    }
    CountWeaker(c.pushed, IsAgain(w), IsBy(w));
    CountWeaker(c.pushed, IsBy(w), IsAgain(w));
  }
}
