/** How often a message is retransmitted. */
module Attempts {
  import opened Amounts
  import opened Sequences
  import opened Messages
  import opened Actor
  import opened Protocol
  import opened Provenance
  import opened Waiters
  import opened Retries

  // ---- sequence numbers ----

  predicate HasTicket(call: Call) {
    !call.kind.ReplyCall?
  }

  /** Tickets are drawn in order and never twice. */
  ghost predicate Ticketed(c: Core) {
    && (forall i :: 0 <= i < |c.calls| && HasTicket(c.calls[i]) ==> c.calls[i].kind.ticket < c.issued)
    && (forall i, j :: 0 <= i < j < |c.calls| && HasTicket(c.calls[i]) && HasTicket(c.calls[j]) ==>
          c.calls[i].kind.ticket < c.calls[j].kind.ticket)
  }

  lemma TicketedStep(opts: ClientOpts, c: Core, e: Event)
    requires Traced(opts, c) && Ticketed(c)
    ensures Ticketed(Step(opts, c, e)) && c.issued <= Step(opts, c, e).issued
  {
    match e
    case Client(e) => TicketedClient(opts, c, e);
    case Task(a) => ActorKeepsCalls(opts, c, a); ActorKeepsTickets(opts, c, a);
    case Wake(i) => TimerFrame(c, i);
  }

  lemma TicketedClient(opts: ClientOpts, c: Core, e: ClientEvent)
    requires Traced(opts, c) && Ticketed(c)
    ensures Ticketed(ClientStep(opts, c, e)) && c.issued <= ClientStep(opts, c, e).issued
  {
    var c' := ClientStep(opts, c, e);
    TracedClient(opts, c, e);
    forall i | 0 <= i < |c.calls| ensures c'.calls[i].kind == c.calls[i].kind {
      assert Advanced(c.calls[i], c'.calls[i]);
    }
  }

  lemma ActorKeepsTickets(opts: ClientOpts, c: Core, e: ActorEvent)
    ensures ActorStep(opts, c, e).issued == c.issued
  {
  }

  /** While fewer than 2^64 tickets are drawn, `send` and `ask` calls have distinct sequence numbers. */
  lemma TicketsDistinct(opts: ClientOpts, c: Core, v: CallId, w: CallId)
    requires Traced(opts, c) && Ticketed(c) && c.issued <= TWO_64
    requires v < |c.calls| && w < |c.calls| && HasTicket(c.calls[v]) && HasTicket(c.calls[w])
    requires c.calls[v].seqNo == c.calls[w].seqNo
    ensures v == w
  {
    assert CallOk(opts, c.calls[v]) && CallOk(opts, c.calls[w]);
  }

  lemma AskKeysDistinct(opts: ClientOpts, c: Core, v: CallId, w: CallId, key: Key)
    requires Traced(opts, c) && Ticketed(c) && c.issued <= TWO_64
    requires Registered(c.calls, v, key) && Registered(c.calls, w, key) && key.AskKey?
    ensures v == w
  {
    TicketsDistinct(opts, c, v, w);
  }

  // ---- what the timers carry ----

  /** The only budgets a chain that retries ever carries. */
  predicate Usual(opts: ClientOpts, left: Amount) {
    match opts.handover
    case MaximumLessOne => left == opts.maxMessageAttempts || left == opts.maxMessageAttempts.Decrement()
    case OwnLessOne =>
      if opts.maxMessageAttempts.Val? then left.Val? && left.v <= opts.maxMessageAttempts.v else left == Infinite
  }

  predicate LeftOk(opts: ClientOpts, calls: seq<Call>, m: Msg) {
    match m
    case RetryAck(_, left, _) => Usual(opts, left)
    case RetryAsk(_, _, left, w) =>
      w < |calls| && (if calls[w].qos == AtMostOnce then left == Val(0) else Usual(opts, left))
    case _ => true
  }

  ghost predicate Bounded(opts: ClientOpts, c: Core) {
    && (forall m <- c.box :: LeftOk(opts, c.calls, m))
    && (forall m <- c.sleeping :: LeftOk(opts, c.calls, m))
  }

  lemma BoundedExtend(opts: ClientOpts, c: Core, c': Core)
    requires Bounded(opts, c) && Extends(c.calls, c'.calls) && c'.sleeping == c.sleeping
    requires forall m <- c'.box :: m in c.box || !IsRetry(m)
    ensures Bounded(opts, c')
  {
    forall m <- c'.box + c'.sleeping ensures LeftOk(opts, c'.calls, m) {
      if m.RetryAsk? { assert LeftOk(opts, c.calls, m); assert Advanced(c.calls[m.chain], c'.calls[m.chain]); }
    }
  }

  lemma OutcomeBounded(opts: ClientOpts, c: Core, m: Msg)
    requires Traced(opts, c) && MsgOk(c.calls, m) && LeftOk(opts, c.calls, m)
    ensures forall t <- OnMsg(opts, c.st, c.clientOpen, m).timers :: LeftOk(opts, c.calls, t)
  {
    if m.WaitForReply? { assert CallOk(opts, c.calls[m.call]); }
  }

  lemma BoundedProcessed(opts: ClientOpts, c: Core, m: Msg)
    requires Traced(opts, c) && MsgOk(c.calls, m) && LeftOk(opts, c.calls, m) && Bounded(opts, c)
    ensures Bounded(opts, Processed(opts, c, m))
  {
    OutcomeBounded(opts, c, m);
  }

  lemma BoundedStep(opts: ClientOpts, c: Core, e: Event)
    requires Traced(opts, c) && Bounded(opts, c)
    ensures Bounded(opts, Step(opts, c, e))
  {
    match e
    case Client(e) =>
      TracedClient(opts, c, e);
      ClientFrame(opts, c, e);
      ClientPosts(opts, c, e);
      BoundedExtend(opts, c, ClientStep(opts, c, e));
    case Wake(i) =>
    case Task(e) => BoundedActor(opts, c, e);
  }

  lemma ClientPosts(opts: ClientOpts, c: Core, e: ClientEvent)
    ensures forall m <- ClientStep(opts, c, e).box :: m in c.box || !IsRetry(m)
  {
  }

  lemma BoundedActor(opts: ClientOpts, c: Core, e: ActorEvent)
    requires Traced(opts, c) && Bounded(opts, c)
    ensures Bounded(opts, ActorStep(opts, c, e))
  {
    match e
    case Take => if c.phase.Live? && c.box != [] { BoundedProcessed(opts, Popped(c), c.box[0]); }
    case StreamItem(resp) =>
      if c.phase == Live(false) && c.box == [] && resp.Some? {
        var m := RelayResponse(resp.value);
        BoundedProcessed(opts, Popped(Posted(Arrived(c, resp.value), m)), m);
      }
    case _ => OtherActorKeeps(opts, c, e);
  }

  /** The actor events that handle no message push no retransmission and start no retry timer. */
  lemma OtherActorKeeps(opts: ClientOpts, c: Core, e: ActorEvent)
    requires !e.Take? && !e.StreamItem?
    ensures var c' := ActorStep(opts, c, e);
            && c'.calls == c.calls
            && (forall m <- c'.box :: m in c.box || !IsRetry(m))
            && (forall m <- c'.sleeping :: m in c.sleeping || !IsRetry(m))
            && (forall it <- c'.pushed :: it in c.pushed || !it.origin.Again?)
  {
  }

  // ---- what is retransmitted ----

  /** Only messages that ask for delivery are ever retransmitted. */
  predicate AgainOk(calls: seq<Call>, it: Item) {
    it.origin.Again? ==> it.origin.call < |calls| && calls[it.origin.call].qos == AtLeastOnce
  }

  ghost predicate Asked(c: Core) {
    forall it <- c.pushed :: AgainOk(c.calls, it)
  }

  lemma AskedExtend(c: Core, c': Core)
    requires Asked(c) && Extends(c.calls, c'.calls)
    requires forall it <- c'.pushed :: it in c.pushed || !it.origin.Again?
    ensures Asked(c')
  {
    forall it <- c'.pushed | it.origin.Again? ensures AgainOk(c'.calls, it) {
      assert AgainOk(c.calls, it);
      assert Advanced(c.calls[it.origin.call], c'.calls[it.origin.call]);
    }
  }

  lemma OutcomeAsked(opts: ClientOpts, c: Core, m: Msg)
    requires Traced(opts, c) && Ticketed(c) && c.issued <= TWO_64
    requires MsgOk(c.calls, m) && LeftOk(opts, c.calls, m)
    ensures forall it <- OnMsg(opts, c.st, c.clientOpen, m).pushes :: AgainOk(c.calls, it)
  {
    match m
    case RetryAck(q, left, w) =>
      if EntryAt(c.st, AckKey(q)).Some? {
        var e := EntryAt(c.st, AckKey(q)).value;
        assert EntryOk(c.calls, AckKey(q), e);
        assert CallOk(opts, c.calls[e.waiter]);
      }
    case RetryAsk(f, q, left, w) =>
      if EntryAt(c.st, AskKey(f, q)).Some? {
        var e := EntryAt(c.st, AskKey(f, q)).value;
        assert EntryOk(c.calls, AskKey(f, q), e);
        AskKeysDistinct(opts, c, e.waiter, w, AskKey(f, q));
      }
    case _ =>
  }

  lemma AskedProcessed(opts: ClientOpts, c: Core, m: Msg)
    requires Traced(opts, c) && Ticketed(c) && c.issued <= TWO_64
    requires MsgOk(c.calls, m) && LeftOk(opts, c.calls, m) && Asked(c)
    ensures Asked(Processed(opts, c, m))
  {
    OutcomeAsked(opts, c, m);
  }

  lemma AskedStep(opts: ClientOpts, c: Core, e: Event)
    requires Traced(opts, c) && Ticketed(c) && Bounded(opts, c) && Asked(c) && c.issued <= TWO_64
    ensures Asked(Step(opts, c, e))
  {
    match e
    case Client(e) =>
      TracedClient(opts, c, e);
      ClientFrame(opts, c, e);
      AskedExtend(c, ClientStep(opts, c, e));
    case Wake(i) =>
    case Task(e) => AskedActor(opts, c, e);
  }

  lemma AskedActor(opts: ClientOpts, c: Core, e: ActorEvent)
    requires Traced(opts, c) && Ticketed(c) && Bounded(opts, c) && Asked(c) && c.issued <= TWO_64
    ensures Asked(ActorStep(opts, c, e))
  {
    match e
    case Take => if c.phase.Live? && c.box != [] { AskedProcessed(opts, Popped(c), c.box[0]); }
    case StreamItem(resp) =>
      if c.phase == Live(false) && c.box == [] && resp.Some? {
        var m := RelayResponse(resp.value);
        AskedProcessed(opts, Popped(Posted(Arrived(c, resp.value), m)), m);
      }
    case _ =>
      OtherActorKeeps(opts, c, e);
      assert Extends(c.calls, ActorStep(opts, c, e).calls);
      AskedExtend(c, ActorStep(opts, c, e));
  }

  // ---- budgets that are spent ----

  /** Every copy costs its chain one attempt of a finite budget: when timers count down, and also when
      they do not but the maximum is 0 or 1. */
  predicate Sparing(opts: ClientOpts) {
    opts.maxMessageAttempts.Val? && (opts.handover == OwnLessOne || opts.maxMessageAttempts.v <= 1)
  }

  /** The copies that chain `w` may still push because of a message: its timer, or its wait. */
  function CreditOf(opts: ClientOpts, w: CallId, m: Msg): nat {
    if IsRetry(m) && m.chain == w && m.left.Val? then m.left.v
    else if IsWait(w)(m) && opts.maxMessageAttempts.Val? then opts.maxMessageAttempts.v
    else 0
  }

  function Credit(opts: ClientOpts, w: CallId): Msg -> nat {
    (m: Msg) => CreditOf(opts, w, m)
  }

  function IsBy(w: CallId): Item -> bool {
    (it: Item) => it.origin.Again? && it.origin.chain == w
  }

  function IsAgain(w: CallId): Item -> bool {
    (it: Item) => it.origin.Again? && it.origin.call == w
  }

  /** What chain `w` has pushed and may still push. */
  function Spending(opts: ClientOpts, c: Core, w: CallId): nat {
    Count(c.pushed, IsBy(w)) + Total(c.box, Credit(opts, w)) + Total(c.sleeping, Credit(opts, w))
  }

  /** What a call may spend: nothing before it waits. */
  function Allowance(opts: ClientOpts, c: Core, w: CallId): nat {
    if opts.maxMessageAttempts.Val? && IsWaiting(c, w) then opts.maxMessageAttempts.v else 0
  }

  ghost predicate Frugal(opts: ClientOpts, c: Core) {
    Sparing(opts) ==> forall w: CallId :: Spending(opts, c, w) <= Allowance(opts, c, w)
  }

  lemma OutcomeSpending(opts: ClientOpts, calls: seq<Call>, st: State, clientOpen: bool, m: Msg, w: CallId)
    requires LeftOk(opts, calls, m) && Sparing(opts)
    ensures var o := OnMsg(opts, st, clientOpen, m);
            Count(o.pushes, IsBy(w)) + Total(o.timers, Credit(opts, w)) <= Credit(opts, w)(m)
  {
    var o := OnMsg(opts, st, clientOpen, m);
    if o.pushes != [] { CountOne(o.pushes[0], IsBy(w)); }
    if o.timers != [] { TotalOne(o.timers[0], Credit(opts, w)); }
  }

  lemma FrugalCut(opts: ClientOpts, c: Core, status: Status)
    requires Frugal(opts, c) && status != Continue
    ensures Frugal(opts, Cut(opts, c, status))
  {
    forall w: CallId
      ensures Spending(opts, Cut(opts, c, status), w) == Spending(opts, c, w)
      ensures Allowance(opts, Cut(opts, c, status), w) == Allowance(opts, c, w)
    {
    }
  }

  /** `c` is the state with `m` already taken off the mailbox. */
  lemma FrugalProcessed(opts: ClientOpts, c: Core, m: Msg)
    requires LeftOk(opts, c.calls, m)
    requires Sparing(opts) ==>
               forall w: CallId :: Spending(opts, c, w) + Credit(opts, w)(m) <= Allowance(opts, c, w)
    ensures Frugal(opts, Processed(opts, c, m))
  {
    var o := OnMsg(opts, c.st, c.clientOpen, m);
    var c' := Applied(c, m, o);
    forall w: CallId | Sparing(opts) ensures Spending(opts, c', w) <= Allowance(opts, c', w) {
      OutcomeSpending(opts, c.calls, c.st, c.clientOpen, m, w);
      CountConcat(c.pushed, o.pushes, IsBy(w));
      TotalConcat(c.sleeping, o.timers, Credit(opts, w));
    }
    if o.status != Continue { FrugalCut(opts, c', o.status); }
  }

  lemma FrugalTake(opts: ClientOpts, c: Core)
    requires Bounded(opts, c) && Frugal(opts, c) && c.box != []
    ensures Frugal(opts, Processed(opts, Popped(c), c.box[0]))
  {
    var m := c.box[0];
    assert m in c.box;
    forall w: CallId ensures Spending(opts, Popped(c), w) + Credit(opts, w)(m) == Spending(opts, c, w) {
      TotalHead(c.box, Credit(opts, w));
    }
    FrugalProcessed(opts, Popped(c), m);
  }

  lemma FrugalRead(opts: ClientOpts, c: Core, resp: Response)
    requires Frugal(opts, c) && c.box == []
    ensures var m := RelayResponse(resp);
            Frugal(opts, Processed(opts, Popped(Posted(Arrived(c, resp), m)), m))
  {
    var m := RelayResponse(resp);
    var c1 := Popped(Posted(Arrived(c, resp), m));
    assert c1.box == [];
    forall w: CallId
      ensures Spending(opts, c1, w) == Spending(opts, c, w) && Allowance(opts, c1, w) == Allowance(opts, c, w)
    {
    }
    FrugalProcessed(opts, c1, m);
  }

  /** Posting a message that is not a retry timer; a wait is paid for by its call starting to wait. */
  lemma FrugalPosted(opts: ClientOpts, c: Core, c0: Core, m: Msg)
    requires Frugal(opts, c0) && !IsRetry(m) && Extends(c0.calls, c.calls)
    requires c.pushed == c0.pushed && c.sleeping == c0.sleeping && c.box == c0.box + [m]
    requires forall w: CallId :: IsWait(w)(m) ==> IsWaiting(c, w) && !IsWaiting(c0, w)
    ensures Frugal(opts, c)
  {
    forall w: CallId | Sparing(opts) ensures Spending(opts, c, w) <= Allowance(opts, c, w) {
      assert Spending(opts, c0, w) <= Allowance(opts, c0, w);
      assert w < |c0.calls| ==> Advanced(c0.calls[w], c.calls[w]);
      TotalSnoc(c0.box, m, Credit(opts, w));
    }
  }

  lemma FrugalFrame(opts: ClientOpts, c: Core, c0: Core)
    requires Frugal(opts, c0) && Extends(c0.calls, c.calls) && c.box == c0.box
    requires c.sleeping == c0.sleeping || c.sleeping == c0.sleeping + [Heartbeat]
    requires c.pushed == c0.pushed || exists it: Item :: !it.origin.Again? && c.pushed == c0.pushed + [it]
    ensures Frugal(opts, c)
  {
    forall w: CallId | Sparing(opts) ensures Spending(opts, c, w) <= Allowance(opts, c, w) {
      assert Spending(opts, c0, w) <= Allowance(opts, c0, w);
      assert w < |c0.calls| ==> Advanced(c0.calls[w], c.calls[w]);
      TotalSnoc(c0.sleeping, Heartbeat, Credit(opts, w));
      if c.pushed != c0.pushed {
        var it: Item :| !it.origin.Again? && c.pushed == c0.pushed + [it];
        CountSnoc(c0.pushed, it, IsBy(w));
      }
    }
  }

  lemma FrugalClient(opts: ClientOpts, c: Core, e: ClientEvent)
    requires Traced(opts, c) && Frugal(opts, c)
    ensures Frugal(opts, ClientStep(opts, c, e))
  {
    var c' := ClientStep(opts, c, e);
    TracedClient(opts, c, e);
    if c'.box == c.box {
      FrugalFrame(opts, c', c);
    } else {
      match e
      case PostSend(w) => FrugalPosted(opts, c', c, Send(PayloadRequest(c.calls[w].first), w));
      case PostWait(w) => FrugalPosted(opts, c', c, WaitMsg(c.calls[w], w));
      case PostStop => FrugalPosted(opts, c', c, Stop);
      case PostReconnect => FrugalPosted(opts, c', c, Reconnect);
    }
  }

  lemma FrugalActor(opts: ClientOpts, c: Core, e: ActorEvent)
    requires Bounded(opts, c) && Frugal(opts, c)
    ensures Frugal(opts, ActorStep(opts, c, e))
  {
    match e
    case Dial(token) => FrugalFrame(opts, Dialed(opts, c, token), c);
    case DialFails => FrugalCut(opts, c, OtherError);
    case HandshakeItem(resp) =>
      if c.phase.Handshaking? && resp.Some? {
        if resp.value == ConnectResponse(true) {
          FrugalFrame(opts, WentLive(c, false), c);
        } else if resp.value == ConnectResponse(false) {
          FrugalCut(opts, c, OtherError);
        } else {
          FrugalPosted(opts, ActorStep(opts, c, e), c, RelayResponse(resp.value));
        }
      }
    case HandshakeEnds => FrugalFrame(opts, WentLive(c, true), c);
    case HandshakeFails => FrugalCut(opts, c, OtherError);
    case Take => if c.phase.Live? && c.box != [] { FrugalTake(opts, c); }
    case StreamItem(resp) =>
      if c.phase == Live(false) && c.box == [] && resp.Some? { FrugalRead(opts, c, resp.value); }
    case StreamFails => FrugalCut(opts, c, OtherError);
  }

  lemma FrugalWake(opts: ClientOpts, c: Core, i: nat)
    requires Frugal(opts, c) && i < |c.sleeping|
    ensures Frugal(opts, TimerStep(c, i))
  {
    var m := c.sleeping[i];
    var c' := TimerStep(c, i);
    forall w: CallId
      ensures Spending(opts, c', w) <= Spending(opts, c, w) && Allowance(opts, c', w) == Allowance(opts, c, w)
    {
      TotalRemove(c.sleeping, i, Credit(opts, w));
      TotalSnoc(c.box, m, Credit(opts, w));
    }
  }

  lemma FrugalStep(opts: ClientOpts, c: Core, e: Event)
    requires Traced(opts, c) && Bounded(opts, c) && Frugal(opts, c)
    ensures Frugal(opts, Step(opts, c, e))
  {
    match e
    case Client(e) => FrugalClient(opts, c, e);
    case Task(e) => FrugalActor(opts, c, e);
    case Wake(i) => if i < |c.sleeping| { FrugalWake(opts, c, i); }
  }

  // ---- budgets that never run out ----

  /** Timers never carry zero: without a maximum, and also when they do not count down and the maximum
      is two or more. */
  predicate Endless(opts: ClientOpts) {
    opts.maxMessageAttempts.Infinite? || (opts.handover == MaximumLessOne && opts.maxMessageAttempts.v >= 2)
  }

  /** Then no chain of an at-least-once message ever gives up. */
  ghost predicate Persistent(opts: ClientOpts, c: Core) {
    Endless(opts) ==>
      forall n <- c.notes :: n.GaveUp? ==> n.chain < |c.calls| && c.calls[n.chain].qos == AtMostOnce
  }

  lemma PersistentExtend(opts: ClientOpts, c: Core, c': Core)
    requires Persistent(opts, c) && Extends(c.calls, c'.calls) && c'.notes == c.notes
    ensures Persistent(opts, c')
  {
    forall n <- c'.notes | n.GaveUp? && Endless(opts)
      ensures n.chain < |c'.calls| && c'.calls[n.chain].qos == AtMostOnce
    {
      assert Advanced(c.calls[n.chain], c'.calls[n.chain]);
    }
  }

  lemma PersistentProcessed(opts: ClientOpts, c: Core, m: Msg)
    requires Traced(opts, c) && MsgOk(c.calls, m) && LeftOk(opts, c.calls, m) && Persistent(opts, c)
    ensures Persistent(opts, Processed(opts, c, m))
  {
    var o := OnMsg(opts, c.st, c.clientOpen, m);
    assert Endless(opts) ==>
        forall n <- o.notes :: n.GaveUp? ==> n.chain < |c.calls| && c.calls[n.chain].qos == AtMostOnce;
    var c' := Applied(c, m, o);
    assert Persistent(opts, c');
  }

  lemma PersistentStep(opts: ClientOpts, c: Core, e: Event)
    requires Traced(opts, c) && Bounded(opts, c) && Persistent(opts, c)
    ensures Persistent(opts, Step(opts, c, e))
  {
    match e
    case Client(e) =>
      TracedClient(opts, c, e);
      ClientFrame(opts, c, e);
      PersistentExtend(opts, c, ClientStep(opts, c, e));
    case Wake(i) => TimerFrame(c, i);
    case Task(e) => PersistentActor(opts, c, e);
  }

  lemma PersistentActor(opts: ClientOpts, c: Core, e: ActorEvent)
    requires Traced(opts, c) && Bounded(opts, c) && Persistent(opts, c)
    ensures Persistent(opts, ActorStep(opts, c, e))
  {
    match e
    case Take =>
      if c.phase.Live? && c.box != [] {
        assert c.box[0] in c.box;
        PersistentProcessed(opts, Popped(c), c.box[0]);
      }
    case StreamItem(resp) =>
      if c.phase == Live(false) && c.box == [] && resp.Some? {
        var m := RelayResponse(resp.value);
        PersistentProcessed(opts, Popped(Posted(Arrived(c, resp.value), m)), m);
      }
    case _ =>
  }
}
