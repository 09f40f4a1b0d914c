/** The budget of every retry timer, to the attempt. */
module Timers {
  import opened Amounts
  import opened Sequences
  import opened Messages
  import opened Actor
  import opened Protocol
  import opened Provenance
  import opened Waiters
  import opened Retries
  import opened Attempts
  import opened Guarantees

  /** The budget of a chain's timer after its first `k` copies: the maximum for the first timer; later the
      maximum less one, or, when chains count down, the maximum less `k`. An `ask` that did not ask for
      delivery has none. */
  predicate BudgetAfter(opts: ClientOpts, call: Call, k: nat, left: Amount) {
    if call.kind.AskCall? && call.qos == AtMostOnce then left == Val(0)
    else if k == 0 || opts.maxMessageAttempts.Infinite? then left == opts.maxMessageAttempts
    else
      var n: nat := opts.maxMessageAttempts.v;
      var spent := if opts.handover == OwnLessOne then k else 1;
      left == Val(if spent <= n then n - spent else 0)
  }

  /** The timer's budget is that of its chain after the copies the chain has pushed. */
  predicate Dated(opts: ClientOpts, calls: seq<Call>, pushed: seq<Item>, m: Msg) {
    IsRetry(m) ==>
      m.chain < |calls| && BudgetAfter(opts, calls[m.chain], Count(pushed, IsBy(m.chain)), m.left)
  }

  /** A chain pushes nothing before the wait of its call is taken. */
  ghost predicate Unspent(c: Core, w: CallId) {
    Count(c.pushed, IsBy(w)) > 0 ==> IsWaiting(c, w) && Count(c.box, IsWait(w)) == 0
  }

  ghost predicate AllDated(opts: ClientOpts, c: Core) {
    && (forall m <- c.box :: Dated(opts, c.calls, c.pushed, m))
    && (forall m <- c.sleeping :: Dated(opts, c.calls, c.pushed, m))
    && (forall w: CallId :: Unspent(c, w))
  }

  /** The chain that handling a message may push a copy for. */
  predicate Spends(m: Msg, w: CallId) {
    IsRetry(m) && m.chain == w
  }

  lemma OutcomeCopies(opts: ClientOpts, st: State, clientOpen: bool, m: Msg, w: CallId)
    ensures var o := OnMsg(opts, st, clientOpen, m);
            && Count(o.pushes, IsBy(w)) <= Bit(Spends(m, w))
            && (Count(o.pushes, IsBy(w)) == 1 ==>
                  |o.timers| == 1 && IsRetry(o.timers[0]) && o.timers[0].chain == w
                  && !m.left.IsZero() && o.timers[0].left == NextLeft(opts, m.left))
            && (Count(o.pushes, IsBy(w)) == 0 && o.timers != [] && IsRetry(o.timers[0]) && o.timers[0].chain == w ==>
                  IsWait(w)(m))
  {
    var o := OnMsg(opts, st, clientOpen, m);
    if o.pushes != [] { CountOne(o.pushes[0], IsBy(w)); }
  }

  lemma NextBudget(opts: ClientOpts, call: Call, k: nat, left: Amount)
    requires BudgetAfter(opts, call, k, left) && !left.IsZero()
    ensures BudgetAfter(opts, call, k + 1, NextLeft(opts, left))
  {
  }

  /** The timer that handling a message starts, if any. */
  lemma OutcomeDated(opts: ClientOpts, calls: seq<Call>, pushed: seq<Item>, st: State, clientOpen: bool, m: Msg)
    requires forall call <- calls :: CallOk(opts, call)
    requires MsgOk(calls, m) && Dated(opts, calls, pushed, m)
    requires m.WaitForAck? || m.WaitForReply? ==> Count(pushed, IsBy(m.call)) == 0
    ensures var o := OnMsg(opts, st, clientOpen, m);
            forall t <- o.timers :: Dated(opts, calls, pushed + o.pushes, t)
  {
    var o := OnMsg(opts, st, clientOpen, m);
    if o.timers != [] && IsRetry(o.timers[0]) {
      var t := o.timers[0];
      CountConcat(pushed, o.pushes, IsBy(t.chain));
      OutcomeCopies(opts, st, clientOpen, m, t.chain);
      if Count(o.pushes, IsBy(t.chain)) == 1 {
        NextBudget(opts, calls[t.chain], Count(pushed, IsBy(t.chain)), m.left);
      } else {
        assert CallOk(opts, calls[m.call]);
      }
    }
  }

  /** A message on which a timer of the same chain does not wait keeps the others dated. */
  lemma StaysDated(opts: ClientOpts, calls: seq<Call>, pushed: seq<Item>, st: State, clientOpen: bool, m: Msg, t: Msg)
    requires Dated(opts, calls, pushed, t) && (IsRetry(t) ==> !Spends(m, t.chain))
    ensures Dated(opts, calls, pushed + OnMsg(opts, st, clientOpen, m).pushes, t)
  {
    var o := OnMsg(opts, st, clientOpen, m);
    if IsRetry(t) {
      OutcomeCopies(opts, st, clientOpen, m, t.chain);
      CountConcat(pushed, o.pushes, IsBy(t.chain));
    }
  }

  lemma SettledKeeps(opts: ClientOpts, c: Core, status: Status)
    requires AllDated(opts, c)
    ensures AllDated(opts, Settled(opts, c, status))
  {
    var c' := Settled(opts, c, status);
    assert c'.calls == c.calls && c'.box == c.box && c'.sleeping == c.sleeping && c'.pushed == c.pushed;
    forall w: CallId ensures Unspent(c', w) { assert Unspent(c, w); }
  }

  /** `c` is the state with `m` already taken off the mailbox; no other timer of its chain is left. */
  lemma DatedProcessed(opts: ClientOpts, c: Core, m: Msg)
    requires Traced(opts, c) && AllDated(opts, c) && MsgOk(c.calls, m) && Dated(opts, c.calls, c.pushed, m)
    requires m.WaitForAck? || m.WaitForReply? ==> Count(c.pushed, IsBy(m.call)) == 0
    requires IsRetry(m) ==> TimersOf(c, m.chain) == 0 && IsWaiting(c, m.chain) && Count(c.box, IsWait(m.chain)) == 0
    ensures AllDated(opts, Processed(opts, c, m))
  {
    var o := OnMsg(opts, c.st, c.clientOpen, m);
    var c1 := Applied(c, m, o);
    OutcomeDated(opts, c.calls, c.pushed, c.st, c.clientOpen, m);
    if IsRetry(m) {
      CountZero(c.box, IsTimerOf(m.chain));
      CountZero(c.sleeping, IsTimerOf(m.chain));
    }
    forall t <- c.box + c.sleeping ensures Dated(opts, c.calls, c1.pushed, t) {
      assert Dated(opts, c.calls, c.pushed, t);
      StaysDated(opts, c.calls, c.pushed, c.st, c.clientOpen, m, t);
    }
    DatedApplied(opts, c, m, o);
    SettledKeeps(opts, c1, o.status);
  }

  lemma DatedApplied(opts: ClientOpts, c: Core, m: Msg, o: Outcome)
    requires o == OnMsg(opts, c.st, c.clientOpen, m)
    requires forall t <- o.timers :: Dated(opts, c.calls, c.pushed + o.pushes, t)
    requires forall t <- c.box + c.sleeping :: Dated(opts, c.calls, c.pushed + o.pushes, t)
    requires forall w: CallId :: Unspent(c, w)
    requires IsRetry(m) ==> IsWaiting(c, m.chain) && Count(c.box, IsWait(m.chain)) == 0
    ensures AllDated(opts, Applied(c, m, o))
  {
    var c1 := Applied(c, m, o);
    forall w: CallId ensures Unspent(c1, w) {
      assert Unspent(c, w);
      OutcomeCopies(opts, c.st, c.clientOpen, m, w);
      CountConcat(c.pushed, o.pushes, IsBy(w));
    }
    forall t <- c1.box ensures Dated(opts, c1.calls, c1.pushed, t) { assert t in c.box + c.sleeping; }
    forall t <- c1.sleeping ensures Dated(opts, c1.calls, c1.pushed, t) {
      assert t in o.timers || t in c.box + c.sleeping;
    }
  }

  lemma DatedTake(opts: ClientOpts, c: Core)
    requires Traced(opts, c) && Conserved(c) && Chained(c) && AllDated(opts, c) && c.box != []
    ensures AllDated(opts, Processed(opts, Popped(c), c.box[0]))
  {
    var m := c.box[0];
    var c1 := Popped(c);
    assert m in c.box;
    forall w: CallId ensures Unspent(c1, w) {
      assert Unspent(c, w);
      CountHead(c.box, IsWait(w));
    }
    if IsRetry(m) { LastOfChain(c, m); }
    if m.WaitForAck? || m.WaitForReply? {
      assert Unspent(c, m.call);
      CountHead(c.box, IsWait(m.call));
    }
    assert AllDated(opts, c1);
    DatedProcessed(opts, c1, m);
  }

  /** A chain has one timer, and its call's wait was taken. */
  lemma LastOfChain(c: Core, m: Msg)
    requires Chained(c) && c.box != [] && m == c.box[0] && IsRetry(m)
    ensures var c1 := Popped(c);
            TimersOf(c1, m.chain) == 0 && IsWaiting(c1, m.chain) && Count(c1.box, IsWait(m.chain)) == 0
  {
    assert OneTimer(c, m.chain);
    CountHead(c.box, IsTimerOf(m.chain));
    CountHead(c.box, IsWait(m.chain));
  }

  /** Nothing was taken and no timer was started but the heartbeat's; calls may have moved on. */
  lemma DatedFrame(opts: ClientOpts, c: Core, c': Core, more: seq<Msg>, items: seq<Item>)
    requires AllDated(opts, c) && Extends(c.calls, c'.calls)
    requires c'.box == c.box + more && c'.pushed == c.pushed + items
    requires forall m <- more :: !IsRetry(m)
    requires forall it <- items :: !it.origin.Again?
    requires forall m <- c'.sleeping :: m in c.sleeping || !IsRetry(m)
    requires forall w: CallId :: IsWaiting(c, w) ==> Count(more, IsWait(w)) == 0
    ensures AllDated(opts, c')
  {
    forall w: CallId ensures Count(c'.pushed, IsBy(w)) == Count(c.pushed, IsBy(w)) && Unspent(c', w) {
      assert Unspent(c, w);
      CountConcat(c.pushed, items, IsBy(w));
      CountZero(items, IsBy(w));
      CountConcat(c.box, more, IsWait(w));
      assert w < |c.calls| ==> Advanced(c.calls[w], c'.calls[w]);
    }
    forall m <- c'.box + c'.sleeping ensures Dated(opts, c'.calls, c'.pushed, m) {
      if IsRetry(m) {
        assert Dated(opts, c.calls, c.pushed, m);
        assert Advanced(c.calls[m.chain], c'.calls[m.chain]);
      }
    }
    forall m <- c'.box ensures Dated(opts, c'.calls, c'.pushed, m) { assert m in c'.box + c'.sleeping; }
    forall m <- c'.sleeping ensures Dated(opts, c'.calls, c'.pushed, m) { assert m in c'.box + c'.sleeping; }
  }

  lemma DatedSame(opts: ClientOpts, c: Core, c': Core)
    requires AllDated(opts, c) && Extends(c.calls, c'.calls)
    requires c'.box == c.box && c'.sleeping == c.sleeping && c'.pushed == c.pushed
    ensures AllDated(opts, c')
  {
    assert c.box + [] == c.box && c.pushed + [] == c.pushed;
    DatedFrame(opts, c, c', [], []);
  }

  lemma DatedPosted(opts: ClientOpts, c: Core, c': Core, m: Msg)
    requires AllDated(opts, c) && Extends(c.calls, c'.calls) && !IsRetry(m)
    requires c'.box == c.box + [m] && c'.sleeping == c.sleeping && c'.pushed == c.pushed
    requires forall w: CallId :: IsWaiting(c, w) ==> !IsWait(w)(m)
    ensures AllDated(opts, c')
  {
    assert c.pushed + [] == c.pushed;
    forall w: CallId | IsWaiting(c, w) ensures Count([m], IsWait(w)) == 0 { CountOne(m, IsWait(w)); }
    DatedFrame(opts, c, c', [m], []);
  }

  lemma DatedClient(opts: ClientOpts, c: Core, e: ClientEvent)
    requires Traced(opts, c) && AllDated(opts, c)
    ensures AllDated(opts, ClientStep(opts, c, e))
  {
    var c' := ClientStep(opts, c, e);
    ClientFrame(opts, c, e);
    TracedClient(opts, c, e);
    if c'.box == c.box {
      DatedSame(opts, c, c');
    } else {
      match e
      case PostSend(w) => DatedPosted(opts, c, c', Send(PayloadRequest(c.calls[w].first), w));
      case PostWait(w) => DatedPosted(opts, c, c', WaitMsg(c.calls[w], w));
      case PostStop => DatedPosted(opts, c, c', Stop);
      case PostReconnect => DatedPosted(opts, c, c', Reconnect);
    }
  }

  lemma DatedWake(opts: ClientOpts, c: Core, i: nat)
    requires OnlyTimers(c) && AllDated(opts, c) && i < |c.sleeping|
    ensures AllDated(opts, TimerStep(c, i))
  {
    var m, c' := c.sleeping[i], TimerStep(c, i);
    TimerFrame(c, i);
    assert m in c.sleeping;
    assert forall x <- c'.sleeping :: x in c.sleeping;
    forall w: CallId ensures Unspent(c', w) {
      assert Unspent(c, w);
      CountSnoc(c.box, m, IsWait(w));
    }
  }

  lemma DatedHandshake(opts: ClientOpts, c: Core, resp: Response)
    requires AllDated(opts, c)
    ensures AllDated(opts, Handshook(opts, c, resp))
  {
    if resp == ConnectResponse(true) {
      DatedLive(opts, c, false);
    } else if resp == ConnectResponse(false) {
      SettledKeeps(opts, c, OtherError);
    } else {
      DatedPosted(opts, c, Handshook(opts, c, resp), RelayResponse(resp));
    }
  }

  lemma DatedLive(opts: ClientOpts, c: Core, ended: bool)
    requires AllDated(opts, c)
    ensures AllDated(opts, WentLive(c, ended))
  {
    assert c.box + [] == c.box && c.pushed + [] == c.pushed;
    DatedFrame(opts, c, WentLive(c, ended), [], []);
  }

  lemma DatedDial(opts: ClientOpts, c: Core, token: string)
    requires AllDated(opts, c)
    ensures AllDated(opts, Dialed(opts, c, token))
  {
    assert c.box + [] == c.box;
    DatedFrame(opts, c, Dialed(opts, c, token), [], [Item(ConnectRequest(Self(opts), token), Hello)]);
  }

  lemma DatedRead(opts: ClientOpts, c: Core, resp: Response)
    requires Traced(opts, c) && AllDated(opts, c) && c.box == []
    ensures var m := RelayResponse(resp);
            AllDated(opts, Processed(opts, Popped(Posted(Arrived(c, resp), m)), m))
  {
    var m := RelayResponse(resp);
    var c1 := Popped(Posted(Arrived(c, resp), m));
    assert c1.box == [];
    DatedSame(opts, c, c1);
    DatedProcessed(opts, c1, m);
  }

  lemma DatedActor(opts: ClientOpts, c: Core, e: ActorEvent)
    requires Traced(opts, c) && Conserved(c) && Chained(c) && AllDated(opts, c)
    ensures AllDated(opts, ActorStep(opts, c, e))
  {
    match e
    case Dial(token) => DatedDial(opts, c, token);
    case HandshakeItem(resp) => if c.phase.Handshaking? && resp.Some? { DatedHandshake(opts, c, resp.value); }
    case HandshakeEnds => DatedLive(opts, c, true);
    case Take => if c.phase.Live? && c.box != [] { DatedTake(opts, c); }
    case StreamItem(resp) => if c.phase == Live(false) && c.box == [] && resp.Some? { DatedRead(opts, c, resp.value); }
    case _ => SettledKeeps(opts, c, OtherError);
  }

  lemma DatedStep(opts: ClientOpts, c: Core, e: Event)
    requires Traced(opts, c) && OnlyTimers(c) && Conserved(c) && Chained(c) && AllDated(opts, c)
    ensures AllDated(opts, Step(opts, c, e))
  {
    match e
    case Client(e) => DatedClient(opts, c, e);
    case Task(e) => DatedActor(opts, c, e);
    case Wake(i) => if i < |c.sleeping| { DatedWake(opts, c, i); }
  }

  lemma {:induction false} DatedRun(opts: ClientOpts, es: seq<Event>)
    ensures AllDated(opts, Run(opts, es))
  {
    if es != [] {
      DatedRun(opts, es[..|es| - 1]);
      InvRun(opts, es[..|es| - 1]);
      DatedStep(opts, Run(opts, es[..|es| - 1]), es[|es| - 1]);
    }
  }

  /** In every run the budget of a retry timer is exact: the configured maximum until its chain has pushed
      a copy; after that, in the program, the maximum less one for good; and, for a program that hands on
      its own budget less one, the maximum less the copies pushed. An `ask` that did not ask for delivery
      starts with none and never pushes one. */
  lemma TimersExact(opts: ClientOpts, es: seq<Event>, m: Msg)
    requires var c := Run(opts, es); m in c.box + c.sleeping && IsRetry(m)
    ensures var c := Run(opts, es);
            && m.chain < |c.calls|
            && BudgetAfter(opts, c.calls[m.chain], Count(c.pushed, IsBy(m.chain)), m.left)
  {
    DatedRun(opts, es);
  }
}
