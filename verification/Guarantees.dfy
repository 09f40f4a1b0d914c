/** What holds of the client in every run. */
module Guarantees {
  import opened Amounts
  import opened Sequences
  import opened Messages
  import opened Actor
  import opened Protocol
  import opened Provenance
  import opened Waiters
  import opened Retries
  import opened Attempts
  import opened Mailbox

  ghost predicate Inv(opts: ClientOpts, c: Core) {
    && Traced(opts, c) && OnlyTimers(c) && Emptied(c)
    && Conserved(c) && Chained(c)
    && Ticketed(c)
    && InOrder(c) && StopsOnce(c) && Heard(c)
    && OneBeat(c) && Budgeted(opts, c)
    && Bounded(opts, c) && Frugal(opts, c) && Persistent(opts, c)
    && (c.issued <= TWO_64 ==> Asked(c))
  }

  lemma InvStart(opts: ClientOpts)
    ensures Inv(opts, Start())
  {
    StartTraced(opts);
    StartBudgets(opts);
    StartConserved();
  }

  lemma StartConserved()
    ensures Conserved(Start()) && Chained(Start())
  {
    forall w: CallId
      ensures OnePlace(Start(), w) && OneFirst(Start(), w) && SendFirst(Start(), w)
      ensures OneTimer(Start(), w) && Alive(Start(), w)
    {
      StartPlaces(w);
    }
  }

  lemma StartTraced(opts: ClientOpts)
    ensures var c := Start();
            && Traced(opts, c) && OnlyTimers(c) && Emptied(c) && Ticketed(c)
            && InOrder(c) && StopsOnce(c) && Heard(c) && OneBeat(c)
  {
  }

  lemma StartBudgets(opts: ClientOpts)
    ensures var c := Start();
            && Budgeted(opts, c) && Bounded(opts, c) && Frugal(opts, c) && Persistent(opts, c) && Asked(c)
  {
  }

  lemma StartPlaces(w: CallId)
    ensures var c := Start();
            OnePlace(c, w) && OneFirst(c, w) && SendFirst(c, w) && OneTimer(c, w) && Alive(c, w)
  {
    assert Protocol.Waiters(Start().st) == {};
  }

  lemma InvStep(opts: ClientOpts, c: Core, e: Event)
    requires Inv(opts, c)
    ensures Inv(opts, Step(opts, c, e))
  {
    TracedStep(opts, c, e);
    OnlyTimersStep(opts, c, e);
    EmptiedStep(opts, c, e);
    ConservedStep(opts, c, e);
    ChainedStep(opts, c, e);
    TicketedStep(opts, c, e);
    OrderStep(opts, c, e);
    HeardStep(opts, c, e);
    BeatStep(opts, c, e);
    BudgetedStep(opts, c, e);
    BoundedStep(opts, c, e);
    FrugalStep(opts, c, e);
    PersistentStep(opts, c, e);
    if Step(opts, c, e).issued <= TWO_64 { AskedStep(opts, c, e); }
  }

  lemma {:induction false} InvRunFrom(opts: ClientOpts, c: Core, es: seq<Event>)
    requires Inv(opts, c)
    ensures Inv(opts, RunFrom(opts, c, es))
  {
    if es != [] {
      InvRunFrom(opts, c, es[..|es| - 1]);
      InvStep(opts, RunFrom(opts, c, es[..|es| - 1]), es[|es| - 1]);
    }
  }

  lemma InvRun(opts: ClientOpts, es: seq<Event>)
    ensures Inv(opts, Run(opts, es))
  {
    InvStart(opts);
    InvRunFrom(opts, Start(), es);
  }

  // ---- waiters ----

  /** The channel of a waiting caller is in the mailbox, in a pending map or settled by a note: in
      exactly one of them, once. A caller that does not wait has no channel anywhere. */
  lemma WaitersConserved(opts: ClientOpts, es: seq<Event>, w: CallId)
    ensures var c := Run(opts, es);
            Count(c.box, IsWait(w)) + Pending(c.st, w) + Count(c.notes, IsSignal(w)) == Bit(IsWaiting(c, w))
  {
    InvRun(opts, es);
    assert OnePlace(Run(opts, es), w);
  }

  /** The message answers the entry at `key`. */
  predicate Answers(m: Msg, key: Key) {
    m.RelayResponse? &&
    match key
    case AckKey(q) => m.resp == Ack(q)
    case AskKey(f, q) =>
      && m.resp.Payload? && m.resp.payload.seqNo == q && m.resp.payload.payload.Some?
      && m.resp.payload.src.Some? && m.resp.payload.src.value.id == f
  }

  /** The message puts a new entry at `key`. */
  predicate Registers(m: Msg, key: Key) {
    (m.WaitForAck? && key == AckKey(m.seqNo)) || (m.WaitForReply? && key == AskKey(m.original.targetId, m.seqNo))
  }

  lemma EntryChanges(opts: ClientOpts, st: State, clientOpen: bool, m: Msg, key: Key)
    ensures var o := OnMsg(opts, st, clientOpen, m);
            && (Answers(m, key) ==> EntryAt(o.st, key) == None)
            && (!Answers(m, key) && !Registers(m, key) ==> EntryAt(o.st, key) == EntryAt(st, key))
  {
  }

  lemma ProcessedEntry(opts: ClientOpts, c: Core, m: Msg, key: Key)
    ensures var c' := Processed(opts, c, m);
            && c'.handled == c.handled + [m]
            && (c'.phase.Over? || EntryAt(c'.st, key) == EntryAt(OnMsg(opts, c.st, c.clientOpen, m).st, key))
  {
  }

  /** An entry leaves the pending maps, or is replaced, only when a matching response is handled,
      when a wait under the same key is handled, or when the actor ends: never by a timer that gives
      up and never by a reconnect. */
  lemma PendingLeaves(opts: ClientOpts, c: Core, e: Event, key: Key)
    requires EntryAt(Step(opts, c, e).st, key) != EntryAt(c.st, key)
    ensures var c' := Step(opts, c, e);
            || c'.phase.Over?
            || (exists m :: c'.handled == c.handled + [m] && (Answers(m, key) || Registers(m, key)))
  {
    match e
    case Client(e) => ClientFrame(opts, c, e);
    case Wake(i) => TimerFrame(c, i);
    case Task(e) =>
      match e
      case Take =>
        if c.phase.Live? && c.box != [] {
          ProcessedEntry(opts, Popped(c), c.box[0], key);
          EntryChanges(opts, c.st, c.clientOpen, c.box[0], key);
        }
      case StreamItem(resp) =>
        if c.phase == Live(false) && c.box == [] && resp.Some? {
          var m := RelayResponse(resp.value);
          ProcessedEntry(opts, Popped(Posted(Arrived(c, resp.value), m)), m, key);
          EntryChanges(opts, c.st, c.clientOpen, m, key);
        }
      case _ => OtherEntry(opts, c, e, key);
  }

  lemma OtherEntry(opts: ClientOpts, c: Core, e: ActorEvent, key: Key)
    requires !e.Take? && !e.StreamItem?
    ensures ActorStep(opts, c, e).phase.Over? || EntryAt(ActorStep(opts, c, e).st, key) == EntryAt(c.st, key)
  {
  }

  // ---- copies ----

  function IsCopy(w: CallId): Item -> bool {
    (it: Item) => it.origin == First(w) || (it.origin.Again? && it.origin.call == w)
  }

  lemma {:induction false} CopiesSplit(s: seq<Item>, w: CallId)
    ensures Count(s, IsCopy(w)) == Count(s, IsFirst(w)) + Count(s, IsAgain(w))
  {
    if s != [] { CopiesSplit(s[..|s| - 1], w); }
  }

  /** Every copy of a call's message that is ever queued is the same request. It carries the caller's
      message, from the client itself, under the call's sequence number. */
  lemma CopiesIdentical(opts: ClientOpts, es: seq<Event>, it: Item, w: CallId)
    requires it in Run(opts, es).pushed && IsCopy(w)(it)
    ensures var c := Run(opts, es);
            && w < |c.calls|
            && it.request == PayloadRequest(c.calls[w].first)
            && (c.calls[w].original.Some? ==>
                  IsMessage(opts, c.calls[w].original.value, c.calls[w].seqNo, it.request.payload))
  {
    InvRun(opts, es);
    var c := Run(opts, es);
    assert ItemOk(c.calls, it);
    assert CallOk(opts, c.calls[w]);
    if c.calls[w].original.Some? {
      PayloadByFields(opts, c.calls[w].original.value, c.calls[w].seqNo, it.request.payload);
    }
  }

  /** A call that did not ask for delivery is queued at most once, whatever timers fire. */
  lemma AtMostOnceQueued(opts: ClientOpts, es: seq<Event>, w: CallId)
    requires var c := Run(opts, es); c.issued <= TWO_64 && w < |c.calls| && c.calls[w].qos == AtMostOnce
    ensures Count(Run(opts, es).pushed, IsCopy(w)) <= 1
  {
    InvRun(opts, es);
    var c := Run(opts, es);
    assert OneFirst(c, w);
    CopiesSplit(c.pushed, w);
    assert forall it <- c.pushed :: AgainOk(c.calls, it);
    CountZero(c.pushed, IsAgain(w));
  }

  /** Once a call is settled (acknowledged, answered, overwritten or released) it stays settled by that
      one note, and no further copy of its message is ever queued. */
  lemma {:induction false} SettledForGood(opts: ClientOpts, c: Core, es: seq<Event>, w: CallId)
    requires Inv(opts, c) && Count(c.notes, IsSignal(w)) == 1
    ensures var c' := RunFrom(opts, c, es);
            && Count(c'.notes, IsSignal(w)) == 1
            && Count(c'.pushed, IsCopy(w)) == Count(c.pushed, IsCopy(w))
  {
    if es != [] {
      var c1 := RunFrom(opts, c, es[..|es| - 1]);
      SettledForGood(opts, c, es[..|es| - 1], w);
      InvRunFrom(opts, c, es[..|es| - 1]);
      SettledStep(opts, c1, es[|es| - 1], w);
    }
  }

  lemma OutcomeSettled(opts: ClientOpts, calls: seq<Call>, st: State, clientOpen: bool, m: Msg, w: CallId)
    requires StateOk(calls, st) && Pending(st, w) == 0 && !IsSend(w)(m)
    ensures Count(OnMsg(opts, st, clientOpen, m).pushes, IsCopy(w)) == 0
  {
    var o := OnMsg(opts, st, clientOpen, m);
    if o.pushes != [] { CountOne(o.pushes[0], IsCopy(w)); }
    if m.RetryAck? && HasWaiter(st, AckKey(m.seqNo), w) { WaiterAt(st, w); }
    if m.RetryAsk? && HasWaiter(st, AskKey(m.from, m.seqNo), w) { WaiterAt(st, w); }
  }

  lemma ProcessedPushes(opts: ClientOpts, c: Core, m: Msg)
    ensures Processed(opts, c, m).pushed == c.pushed + OnMsg(opts, c.st, c.clientOpen, m).pushes
  {
  }

  lemma SettledProcessed(opts: ClientOpts, c: Core, m: Msg, w: CallId)
    requires StateOk(c.calls, c.st) && Pending(c.st, w) == 0 && !IsSend(w)(m)
    ensures Count(Processed(opts, c, m).pushed, IsCopy(w)) == Count(c.pushed, IsCopy(w))
  {
    OutcomeSettled(opts, c.calls, c.st, c.clientOpen, m, w);
    ProcessedPushes(opts, c, m);
    CountConcat(c.pushed, OnMsg(opts, c.st, c.clientOpen, m).pushes, IsCopy(w));
  }

  lemma SettledActor(opts: ClientOpts, c: Core, e: ActorEvent, w: CallId)
    requires Traced(opts, c) && SendFirst(c, w) && Pending(c.st, w) == 0
    requires IsWaiting(c, w) && Count(c.box, IsWait(w)) == 0
    ensures Count(ActorStep(opts, c, e).pushed, IsCopy(w)) == Count(c.pushed, IsCopy(w))
  {
    match e
    case Take =>
      if c.phase.Live? && c.box != [] {
        CountZero(c.box, IsWait(w));
        assert c.box[0] in c.box && !IsSend(w)(c.box[0]);
        SettledProcessed(opts, Popped(c), c.box[0], w);
      }
    case StreamItem(resp) =>
      if c.phase == Live(false) && c.box == [] && resp.Some? {
        var m := RelayResponse(resp.value);
        SettledProcessed(opts, Popped(Posted(Arrived(c, resp.value), m)), m, w);
      }
    case _ => OtherPushes(opts, c, e, w);
  }

  lemma SettledStep(opts: ClientOpts, c: Core, e: Event, w: CallId)
    requires Inv(opts, c) && Count(c.notes, IsSignal(w)) == 1
    ensures Count(Step(opts, c, e).notes, IsSignal(w)) == 1
    ensures Count(Step(opts, c, e).pushed, IsCopy(w)) == Count(c.pushed, IsCopy(w))
  {
    InvStep(opts, c, e);
    assert OnePlace(c, w) && OnePlace(Step(opts, c, e), w) && SendFirst(c, w);
    SignalsGrow(opts, c, e, w);
    match e
    case Client(e) => ClientFrame(opts, c, e);
    case Wake(i) => TimerFrame(c, i);
    case Task(e) => SettledActor(opts, c, e, w);
  }

  lemma OtherPushes(opts: ClientOpts, c: Core, e: ActorEvent, w: CallId)
    requires !e.Take? && !e.StreamItem?
    ensures Count(ActorStep(opts, c, e).pushed, IsCopy(w)) == Count(c.pushed, IsCopy(w))
  {
    if e.Dial? { CountSnoc(c.pushed, Item(ConnectRequest(Self(opts), e.token), Hello), IsCopy(w)); }
  }

  lemma ProcessedNotes(opts: ClientOpts, c: Core, m: Msg)
    ensures c.notes <= Processed(opts, c, m).notes
  {
  }

  /** Notes are only ever added. */
  lemma NotesGrow(opts: ClientOpts, c: Core, e: Event)
    ensures c.notes <= Step(opts, c, e).notes
  {
    match e
    case Client(e) => ClientFrame(opts, c, e);
    case Wake(i) => TimerFrame(c, i);
    case Task(e) =>
      match e
      case Take => if c.phase.Live? && c.box != [] { ProcessedNotes(opts, Popped(c), c.box[0]); }
      case StreamItem(resp) =>
        if c.phase == Live(false) && c.box == [] && resp.Some? {
          var m := RelayResponse(resp.value);
          ProcessedNotes(opts, Popped(Posted(Arrived(c, resp.value), m)), m);
        }
      case _ => OtherActorFrame(opts, c, e);
  }

  lemma SignalsGrow(opts: ClientOpts, c: Core, e: Event, w: CallId)
    ensures Count(c.notes, IsSignal(w)) <= Count(Step(opts, c, e).notes, IsSignal(w))
  {
    var c' := Step(opts, c, e);
    NotesGrow(opts, c, e);
    assert c'.notes == c.notes + c'.notes[|c.notes|..];
    CountConcat(c.notes, c'.notes[|c.notes|..], IsSignal(w));
  }

  // ---- retry timers ----

  /** No other call is registered under the same key. */
  ghost predicate Alone(c: Core, w: CallId) {
    && IsWaiting(c, w)
    && forall v: CallId :: Registered(c.calls, v, KeyOf(c.calls[w])) ==> v == w
  }

  /** A retry timer for `key`, recognised by the fields the program itself reads. */
  function IsTimerAt(key: Key): Msg -> bool {
    (m: Msg) => match m
      case RetryAck(q, _, _) => key == AckKey(q)
      case RetryAsk(f, q, _, _) => key == AskKey(f, q)
      case _ => false
  }

  function TimersAt(c: Core, key: Key): nat {
    Count(c.box, IsTimerAt(key)) + Count(c.sleeping, IsTimerAt(key))
  }

  /** A key registered by one call has at most one timer, asleep or in the mailbox, and exactly one
      while its entry is pending and its chain has not given up. */
  lemma OneTimerPerKey(opts: ClientOpts, es: seq<Event>, w: CallId)
    requires Alone(Run(opts, es), w)
    ensures var c := Run(opts, es);
            var key := KeyOf(c.calls[w]);
            && TimersAt(c, key) <= 1
            && (EntryAt(c.st, key).Some? && GaveUp(w) !in c.notes ==> TimersAt(c, key) == 1)
  {
    InvRun(opts, es);
    var c := Run(opts, es);
    var key := KeyOf(c.calls[w]);
    assert OneTimer(c, w) && Alive(c, w);
    forall m <- c.box + c.sleeping ensures IsTimerAt(key)(m) ==> IsTimerOf(w)(m) {
      assert MsgOk(c.calls, m);
    }
    CountWeaker(c.box, IsTimerAt(key), IsTimerOf(w));
    CountWeaker(c.sleeping, IsTimerAt(key), IsTimerOf(w));
    if EntryAt(c.st, key).Some? && GaveUp(w) !in c.notes {
      assert EntryOk(c.calls, key, EntryAt(c.st, key).value);
      WaiterAtOwnKey(c.calls, c.st, w);
      CountZero(c.notes, IsGaveUp(w));
      forall m <- c.box + c.sleeping ensures IsTimerOf(w)(m) ==> IsTimerAt(key)(m) {
        assert MsgOk(c.calls, m);
      }
      CountWeaker(c.box, IsTimerOf(w), IsTimerAt(key));
      CountWeaker(c.sleeping, IsTimerOf(w), IsTimerAt(key));
    }
  }

  /** In the program, with a maximum of two or more or none, the retry of an at-least-once message never
      stops while it waits for its answer: its timer is always there. */
  lemma RetryNeverStops(opts: ClientOpts, es: seq<Event>, w: CallId)
    requires var c := Run(opts, es);
             && Endless(opts) && Pending(c.st, w) == 1 && w < |c.calls| && c.calls[w].qos == AtLeastOnce
    ensures TimersOf(Run(opts, es), w) == 1 && GaveUp(w) !in Run(opts, es).notes
  {
    InvRun(opts, es);
    var c := Run(opts, es);
    assert OneTimer(c, w) && Alive(c, w);
    assert Persistent(opts, c);
    CountZero(c.notes, IsGaveUp(w));
  }

  /** The budgets that the program's timers carry: the configured maximum or one less, and zero for an
      `ask` that did not ask for delivery. */
  lemma TimerBudgets(opts: ClientOpts, es: seq<Event>, m: Msg)
    requires opts.handover == MaximumLessOne
    requires var c := Run(opts, es); m in c.box + c.sleeping && IsRetry(m)
    ensures var c := Run(opts, es);
            && m.chain < |c.calls|
            && (m.left in {opts.maxMessageAttempts, opts.maxMessageAttempts.Decrement()}
                || (m.left == Val(0) && c.calls[m.chain].qos == AtMostOnce))
  {
    InvRun(opts, es);
    var c := Run(opts, es);
    assert MsgOk(c.calls, m) && LeftOk(opts, c.calls, m);
  }

  // ---- order ----

  /** The responses handled so far, followed by those in the mailbox, are all the responses read from
      any stream (but for those `connect` consumed), in the order they were read. */
  lemma InboundOrder(opts: ClientOpts, es: seq<Event>)
    ensures var c := Run(opts, es);
            c.arrivals == Pick(c.handled, AsResponse()) + Pick(c.box, AsResponse())
  {
    InvRun(opts, es);
    var c := Run(opts, es);
    PickConcat(c.handled, c.box, AsResponse());
  }

  /** The mailbox is consumed in order, each message at most once, over all connections. When `run`
      returned Ok, the first copies on the outbound queue are those of exactly the `Send`s that
      preceded the first Stop. */
  lemma StopCuts(opts: ClientOpts, es: seq<Event>) returns (k: nat)
    requires Run(opts, es).phase == Over(true)
    ensures var c := Run(opts, es);
            && k < |c.posted| && c.posted[k] == Stop && Stop !in c.posted[..k]
            && c.handled == c.posted[..k + 1]
            && Pick(c.pushed, AsFirst()) == Pick(c.posted[..k], AsSend())
  {
    InvRun(opts, es);
    var c := Run(opts, es);
    k := |c.handled| - 1;
    assert c.handled == c.handled[..k] + [Stop];
    PickSnoc(c.handled[..k], Stop, AsSend());
    assert c.posted[..k] == c.handled[..k];
  }

  /** From the first connection that opens until the actor ends there is exactly one heartbeat timer,
      asleep or in the mailbox, through every reconnect and every time offline. */
  lemma {:induction false} OneHeartbeat(opts: ClientOpts, c: Core, es: seq<Event>)
    requires Inv(opts, c) && (c.phase.Live? || c.st.heartbeatStarted)
    ensures var c' := RunFrom(opts, c, es); c'.phase.Over? || (Beats(c') == 1 && c'.st.heartbeatStarted)
  {
    InvRunFrom(opts, c, es);
    if es != [] {
      OneHeartbeat(opts, c, es[..|es| - 1]);
      StaysStarted(opts, RunFrom(opts, c, es[..|es| - 1]), es[|es| - 1]);
    }
  }

  lemma StaysStarted(opts: ClientOpts, c: Core, e: Event)
    ensures c.phase.Over? ==> Step(opts, c, e).phase == c.phase
    ensures c.st.heartbeatStarted ==> Step(opts, c, e).st.heartbeatStarted
  {
    match e
    case Client(e) => ClientFrame(opts, c, e);
    case Wake(i) => TimerFrame(c, i);
    case Task(e) =>
      match e
      case Take =>
        if c.phase.Live? && c.box != [] { OutcomeBeat(opts, c.st, c.clientOpen, c.box[0]); }
      case StreamItem(resp) =>
        if resp.Some? { OutcomeBeat(opts, c.st, c.clientOpen, RelayResponse(resp.value)); }
      case _ =>
  }

  // ---- the connection budget ----

  /** With a limit of `n` connection attempts `run` returns an error exactly on failure number
      max(1, n), counting only failures that were neither Stop nor Reconnect; without a limit it never
      does. */
  lemma ConnectionBudget(opts: ClientOpts, es: seq<Event>)
    ensures var c := Run(opts, es);
            && (!c.phase.Over? ==> c.attempts == 1 + c.failures)
            && (opts.maxConnectionAttempts.Val? ==>
                  && c.failures <= Limit(opts.maxConnectionAttempts.v)
                  && (c.phase == Over(false) <==> c.failures == Limit(opts.maxConnectionAttempts.v)))
            && (opts.maxConnectionAttempts.Infinite? ==> c.phase != Over(false))
  {
    InvRun(opts, es);
  }
}
