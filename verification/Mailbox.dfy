/** Order: what the actor takes, in which order, and what Stop, the heartbeat and the connection
    budget make of it. */
module Mailbox {
  import opened Sequences
  import opened Messages
  import opened Actor
  import opened Protocol
  import opened Provenance
  import opened Waiters

  // ---- the mailbox is a queue, and streams are read only when it is empty ----

  function AsResponse(): Msg -> Option<Response> {
    (m: Msg) => if m.RelayResponse? then Some(m.resp) else None
  }

  function AsSend(): Msg -> Option<Item> {
    (m: Msg) => if m.Send? then Some(Item(m.request, First(m.call))) else None
  }

  function AsFirst(): Item -> Option<Item> {
    (it: Item) => if it.origin.First? then Some(it) else None
  }

  function AsPayload(): Msg -> Option<Received> {
    (m: Msg) => if m.RelayResponse? then PayloadIn(m.resp) else None
  }

  /** The payloads on the wire that have a source and a body. */
  function AsFull(): Msg -> Option<RelayPayload> {
    (m: Msg) => match m
      case RelayResponse(Payload(p)) => if p.src.Some? && p.payload.Some? then Some(p) else None
      case _ => None
  }

  function AsRouted(): Note -> Option<Received> {
    (n: Note) => RoutedBy(n)
  }

  ghost predicate InOrder(c: Core) {
    && c.posted == c.handled + c.box
    && c.arrivals == Pick(c.posted, AsResponse())
    && Pick(c.pushed, AsFirst()) == Pick(c.handled, AsSend())
    && Pick(c.notes, AsRouted()) == Pick(c.handled, AsPayload())
  }

  ghost predicate StopsOnce(c: Core) {
    if c.phase == Over(true) then
      && c.handled != [] && c.handled[|c.handled| - 1] == Stop
      && Stop !in c.handled[..|c.handled| - 1]
    else
      Stop !in c.handled
  }

  lemma OutcomeFirsts(opts: ClientOpts, st: State, clientOpen: bool, m: Msg)
    ensures Pick(OnMsg(opts, st, clientOpen, m).pushes, AsFirst()) == Optional(AsSend()(m))
  {
    var pushes := OnMsg(opts, st, clientOpen, m).pushes;
    if pushes != [] {
      var it := pushes[0];
      assert pushes == [it] && AsFirst()(it) == AsSend()(m);
      PickOne(it, AsFirst());
    }
  }

  lemma OutcomeRouted(opts: ClientOpts, st: State, clientOpen: bool, m: Msg)
    ensures Pick(OnMsg(opts, st, clientOpen, m).notes, AsRouted()) == Optional(AsPayload()(m))
  {
    var o := OnMsg(opts, st, clientOpen, m);
    if m.RelayResponse? && PayloadIn(m.resp).Some? {
      PickOne(OnPayload(st, PayloadIn(m.resp).value, clientOpen).notes[0], AsRouted());
    } else if o.notes != [] {
      assert RoutedBy(o.notes[0]).None?;
      PickOne(o.notes[0], AsRouted());
    }
  }

  lemma OutcomeStops(opts: ClientOpts, st: State, clientOpen: bool, m: Msg)
    ensures OnMsg(opts, st, clientOpen, m).status == StopRequest <==> m == Stop
  {
  }

  lemma OrderFinished(c: Core, ok: bool)
    requires InOrder(c)
    ensures InOrder(Finished(c, ok))
  {
    PickSnoc(c.notes, Shutdown(Protocol.Waiters(c.st)), AsRouted());
  }

  lemma OrderCut(opts: ClientOpts, c: Core, status: Status)
    requires InOrder(c) && status != Continue
    ensures InOrder(Cut(opts, c, status)) && Cut(opts, c, status).handled == c.handled
    ensures Cut(opts, c, status).phase == Over(true) <==> status == StopRequest
  {
    OrderFinished(c.(cuts := c.cuts + 1), true);
    OrderFinished(c.(cuts := c.cuts + 1, failures := c.failures + 1), false);
  }

  lemma OrderSettled(opts: ClientOpts, c: Core, m: Msg, status: Status)
    requires InOrder(c) && !c.phase.Over?
    requires c.handled != [] && c.handled[|c.handled| - 1] == m && Stop !in c.handled[..|c.handled| - 1]
    requires status == StopRequest <==> m == Stop
    ensures InOrder(Settled(opts, c, status)) && StopsOnce(Settled(opts, c, status))
  {
    assert c.handled == c.handled[..|c.handled| - 1] + [m];
    if status != Continue { OrderCut(opts, c, status); }
  }

  /** `c` is the state with `m` already taken off the mailbox. */
  lemma OrderApplied(c: Core, m: Msg, o: Outcome)
    requires c.posted == c.handled + [m] + c.box
    requires c.arrivals == Pick(c.posted, AsResponse())
    requires Pick(c.pushed, AsFirst()) == Pick(c.handled, AsSend())
    requires Pick(c.notes, AsRouted()) == Pick(c.handled, AsPayload())
    requires Pick(o.pushes, AsFirst()) == Optional(AsSend()(m))
    requires Pick(o.notes, AsRouted()) == Optional(AsPayload()(m))
    ensures InOrder(Applied(c, m, o))
  {
    PickConcat(c.pushed, o.pushes, AsFirst());
    PickConcat(c.notes, o.notes, AsRouted());
    PickSnoc(c.handled, m, AsSend());
    PickSnoc(c.handled, m, AsPayload());
  }

  lemma OrderProcessed(opts: ClientOpts, c: Core, m: Msg)
    requires c.posted == c.handled + [m] + c.box
    requires c.arrivals == Pick(c.posted, AsResponse())
    requires Pick(c.pushed, AsFirst()) == Pick(c.handled, AsSend())
    requires Pick(c.notes, AsRouted()) == Pick(c.handled, AsPayload())
    requires Stop !in c.handled && !c.phase.Over?
    ensures InOrder(Processed(opts, c, m)) && StopsOnce(Processed(opts, c, m))
  {
    var o := OnMsg(opts, c.st, c.clientOpen, m);
    OutcomeFirsts(opts, c.st, c.clientOpen, m);
    OutcomeRouted(opts, c.st, c.clientOpen, m);
    OutcomeStops(opts, c.st, c.clientOpen, m);
    OrderApplied(c, m, o);
    assert (c.handled + [m])[..|c.handled|] == c.handled;
    OrderSettled(opts, Applied(c, m, o), m, o.status);
  }

  lemma OrderPosted(c: Core, c0: Core, m: Msg)
    requires InOrder(c0) && c.posted == c0.posted + [m] && c.box == c0.box + [m] && c.handled == c0.handled
    requires c.pushed == c0.pushed && c.notes == c0.notes
    requires c.arrivals == c0.arrivals + Optional(AsResponse()(m))
    ensures InOrder(c)
  {
    PickSnoc(c0.posted, m, AsResponse());
    assert c0.handled + (c0.box + [m]) == c0.handled + c0.box + [m];
  }

  lemma OrderTake(opts: ClientOpts, c: Core)
    requires InOrder(c) && Stop !in c.handled && !c.phase.Over? && c.box != []
    ensures InOrder(Processed(opts, Popped(c), c.box[0])) && StopsOnce(Processed(opts, Popped(c), c.box[0]))
  {
    assert c.handled + c.box == c.handled + [c.box[0]] + c.box[1..];
    OrderProcessed(opts, Popped(c), c.box[0]);
  }

  lemma OrderRead(opts: ClientOpts, c: Core, resp: Response)
    requires InOrder(c) && Stop !in c.handled && !c.phase.Over? && c.box == []
    ensures var m := RelayResponse(resp);
            && InOrder(Processed(opts, Popped(Posted(Arrived(c, resp), m)), m))
            && StopsOnce(Processed(opts, Popped(Posted(Arrived(c, resp), m)), m))
  {
    var m := RelayResponse(resp);
    var c1 := Posted(Arrived(c, resp), m);
    PickSnoc(c.posted, m, AsResponse());
    assert Popped(c1).posted == Popped(c1).handled + [m] + Popped(c1).box;
    OrderProcessed(opts, Popped(c1), m);
  }

  lemma OrderDialed(opts: ClientOpts, c: Core, token: string)
    requires InOrder(c)
    ensures InOrder(Dialed(opts, c, token))
  {
    PickSnoc(c.pushed, Item(ConnectRequest(Self(opts), token), Hello), AsFirst());
  }

  lemma OrderFails(opts: ClientOpts, c: Core)
    requires InOrder(c) && StopsOnce(c) && !c.phase.Over?
    ensures InOrder(Cut(opts, c, OtherError)) && StopsOnce(Cut(opts, c, OtherError))
  {
    OrderCut(opts, c, OtherError);
  }

  /** The actor events that handle no message. */
  lemma OrderOther(opts: ClientOpts, c: Core, e: ActorEvent)
    requires InOrder(c) && StopsOnce(c) && !e.Take? && !e.StreamItem?
    ensures InOrder(ActorStep(opts, c, e)) && StopsOnce(ActorStep(opts, c, e))
  {
    match e
    case Dial(token) => OrderDialed(opts, c, token);
    case HandshakeItem(resp) => if c.phase.Handshaking? && resp.Some? { OrderHandshake(opts, c, resp.value); }
    case HandshakeEnds => if c.phase.Handshaking? { OrderLive(c, true); }
    case _ => if !c.phase.Over? { OrderFails(opts, c); }
  }

  lemma OrderActor(opts: ClientOpts, c: Core, e: ActorEvent)
    requires InOrder(c) && StopsOnce(c)
    ensures InOrder(ActorStep(opts, c, e)) && StopsOnce(ActorStep(opts, c, e))
  {
    match e
    case Take => if c.phase.Live? && c.box != [] { OrderTake(opts, c); }
    case StreamItem(resp) =>
      if c.phase == Live(false) && c.box == [] && resp.Some? { OrderRead(opts, c, resp.value); }
    case _ => OrderOther(opts, c, e);
  }

  lemma OrderLive(c: Core, ended: bool)
    requires InOrder(c) && StopsOnce(c) && !c.phase.Over?
    ensures InOrder(WentLive(c, ended)) && StopsOnce(WentLive(c, ended))
  {
  }

  lemma OrderEarly(c: Core, resp: Response)
    requires InOrder(c) && StopsOnce(c)
    ensures InOrder(Posted(Arrived(c, resp), RelayResponse(resp)))
    ensures StopsOnce(Posted(Arrived(c, resp), RelayResponse(resp)))
  {
    OrderPosted(Posted(Arrived(c, resp), RelayResponse(resp)), c, RelayResponse(resp));
  }

  lemma OrderHandshake(opts: ClientOpts, c: Core, resp: Response)
    requires InOrder(c) && StopsOnce(c) && !c.phase.Over?
    ensures InOrder(Handshook(opts, c, resp)) && StopsOnce(Handshook(opts, c, resp))
  {
    if resp == ConnectResponse(true) {
      OrderLive(c, false);
    } else if resp == ConnectResponse(false) {
      OrderFails(opts, c);
    } else {
      OrderEarly(c, resp);
    }
  }

  lemma OrderClient(opts: ClientOpts, c: Core, e: ClientEvent)
    requires InOrder(c) && StopsOnce(c)
    ensures InOrder(ClientStep(opts, c, e)) && StopsOnce(ClientStep(opts, c, e))
  {
    var c' := ClientStep(opts, c, e);
    if c'.box != c.box {
      match e
      case PostSend(w) => OrderPosted(c', c, Send(PayloadRequest(c.calls[w].first), w));
      case PostWait(w) => OrderPosted(c', c, WaitMsg(c.calls[w], w));
      case PostStop => OrderPosted(c', c, Stop);
      case PostReconnect => OrderPosted(c', c, Reconnect);
    }
  }

  lemma OrderWake(c: Core, i: nat)
    requires OnlyTimers(c) && InOrder(c) && StopsOnce(c) && i < |c.sleeping|
    ensures InOrder(TimerStep(c, i)) && StopsOnce(TimerStep(c, i))
  {
    TimerFrame(c, i);
    if !c.phase.Over? {
      assert IsTimer(c.sleeping[i]);
      OrderPosted(TimerStep(c, i), c, c.sleeping[i]);
    }
  }

  lemma OrderStep(opts: ClientOpts, c: Core, e: Event)
    requires OnlyTimers(c) && InOrder(c) && StopsOnce(c)
    ensures InOrder(Step(opts, c, e)) && StopsOnce(Step(opts, c, e))
  {
    match e
    case Client(e) => OrderClient(opts, c, e);
    case Task(e) => OrderActor(opts, c, e);
    case Wake(i) => if i < |c.sleeping| { OrderWake(c, i); }
  }

  lemma {:induction false} PickMember<T, U>(s: seq<T>, f: T -> Option<U>, x: T)
    requires x in s && f(x).Some?
    ensures f(x).value in Pick(s, f)
  {
    if x != s[|s| - 1] {
      assert s == s[..|s| - 1] + [s[|s| - 1]];
      PickMember(s[..|s| - 1], f, x);
    }
  }

  lemma {:induction false} PickOrigin<T, U>(s: seq<T>, f: T -> Option<U>, y: U) returns (x: T)
    requires y in Pick(s, f)
    ensures x in s && f(x) == Some(y)
  {
    if f(s[|s| - 1]) == Some(y) {
      x := s[|s| - 1];
    } else {
      x := PickOrigin(s[..|s| - 1], f, y);
    }
  }

  // ---- acks were heard ----

  /** Every acknowledged call had its sequence number acknowledged by some response. */
  ghost predicate Heard(c: Core) {
    forall n <- c.notes :: n.Acked? ==> n.call < |c.calls| && Ack(c.calls[n.call].seqNo) in c.arrivals
  }

  lemma HeardExtend(c: Core, c': Core)
    requires Heard(c) && Extends(c.calls, c'.calls) && c.arrivals <= c'.arrivals
    requires forall n <- c'.notes :: n.Acked? ==> n in c.notes
    ensures Heard(c')
  {
    forall n <- c'.notes | n.Acked?
      ensures n.call < |c'.calls| && Ack(c'.calls[n.call].seqNo) in c'.arrivals
    {
      assert Advanced(c.calls[n.call], c'.calls[n.call]);
    }
  }

  lemma HeardProcessed(opts: ClientOpts, c: Core, m: Msg)
    requires Traced(opts, c) && Heard(c)
    requires m.RelayResponse? ==> m.resp in c.arrivals
    ensures Heard(Processed(opts, c, m))
  {
    var o := OnMsg(opts, c.st, c.clientOpen, m);
    if m.RelayResponse? && m.resp.Ack? && m.resp.seqNo in c.st.pendingAcks {
      assert EntryOk(c.calls, AckKey(m.resp.seqNo), EntryAt(c.st, AckKey(m.resp.seqNo)).value);
    }
    assert Heard(Applied(c, m, o));
  }

  lemma HeardStep(opts: ClientOpts, c: Core, e: Event)
    requires Traced(opts, c) && InOrder(c) && Heard(c)
    ensures Heard(Step(opts, c, e))
  {
    match e
    case Client(e) =>
      TracedClient(opts, c, e);
      ClientFrame(opts, c, e);
      HeardExtend(c, ClientStep(opts, c, e));
    case Wake(i) => TimerFrame(c, i); HeardExtend(c, TimerStep(c, i));
    case Task(e) => HeardActor(opts, c, e);
  }

  /** The actor events that handle no message settle no call. */
  lemma OtherActorFrame(opts: ClientOpts, c: Core, e: ActorEvent)
    requires !e.Take? && !e.StreamItem?
    ensures var c' := ActorStep(opts, c, e);
            && c.arrivals <= c'.arrivals && c'.handled == c.handled && c'.calls == c.calls
            && (c'.notes == c.notes || c'.notes == c.notes + [Shutdown(Protocol.Waiters(c.st))])
  {
  }

  lemma HeardActor(opts: ClientOpts, c: Core, e: ActorEvent)
    requires Traced(opts, c) && InOrder(c) && Heard(c)
    ensures Heard(ActorStep(opts, c, e))
  {
    match e
    case Take =>
      if c.phase.Live? && c.box != [] {
        assert c.box[0] in c.posted;
        if c.box[0].RelayResponse? { PickMember(c.posted, AsResponse(), c.box[0]); }
        HeardProcessed(opts, Popped(c), c.box[0]);
      }
    case StreamItem(resp) =>
      if c.phase == Live(false) && c.box == [] && resp.Some? {
        var m := RelayResponse(resp.value);
        var c1 := Popped(Posted(Arrived(c, resp.value), m));
        HeardExtend(c, c1);
        HeardProcessed(opts, c1, m);
      }
    case _ =>
      OtherActorFrame(opts, c, e);
      HeardExtend(c, ActorStep(opts, c, e));
  }

  // ---- the heartbeat ----

  function IsBeat(): Msg -> bool {
    (m: Msg) => m.Heartbeat?
  }

  function Beats(c: Core): nat {
    Count(c.box, IsBeat()) + Count(c.sleeping, IsBeat())
  }

  ghost predicate OneBeat(c: Core) {
    && (!c.phase.Over? ==> Beats(c) == Bit(c.st.heartbeatStarted))
    && (c.phase.Live? ==> c.st.heartbeatStarted)
  }

  lemma OutcomeBeat(opts: ClientOpts, st: State, clientOpen: bool, m: Msg)
    ensures var o := OnMsg(opts, st, clientOpen, m);
            Count(o.timers, IsBeat()) == Bit(m.Heartbeat?) && o.st.heartbeatStarted == st.heartbeatStarted
  {
    var o := OnMsg(opts, st, clientOpen, m);
    if o.timers != [] { CountOne(o.timers[0], IsBeat()); }
  }

  lemma BeatCut(opts: ClientOpts, c: Core, status: Status)
    requires OneBeat(c) && status != Continue && !c.phase.Over?
    ensures OneBeat(Cut(opts, c, status))
  {
  }

  lemma BeatProcessed(opts: ClientOpts, c: Core, m: Msg)
    requires c.phase.Live? && c.st.heartbeatStarted && Beats(c) + Bit(m.Heartbeat?) == 1
    ensures OneBeat(Processed(opts, c, m))
  {
    var o := OnMsg(opts, c.st, c.clientOpen, m);
    OutcomeBeat(opts, c.st, c.clientOpen, m);
    CountConcat(c.sleeping, o.timers, IsBeat());
    assert OneBeat(Applied(c, m, o));
    if o.status != Continue { BeatCut(opts, Applied(c, m, o), o.status); }
  }

  lemma BeatLive(c: Core, ended: bool)
    requires OneBeat(c) && !c.phase.Over?
    ensures OneBeat(WentLive(c, ended))
  {
    CountSnoc(c.sleeping, Heartbeat, IsBeat());
  }

  lemma BeatHandshake(opts: ClientOpts, c: Core, resp: Response)
    requires OneBeat(c) && c.phase.Handshaking?
    ensures OneBeat(Handshook(opts, c, resp))
  {
    if resp == ConnectResponse(true) {
      BeatLive(c, false);
    } else if resp == ConnectResponse(false) {
      BeatCut(opts, c, OtherError);
    } else {
      CountSnoc(c.box, RelayResponse(resp), IsBeat());
    }
  }

  lemma BeatActor(opts: ClientOpts, c: Core, e: ActorEvent)
    requires OneBeat(c)
    ensures OneBeat(ActorStep(opts, c, e))
  {
    match e
    case Dial(token) =>
    case DialFails => if c.phase.Dialing? { BeatCut(opts, c, OtherError); }
    case HandshakeItem(resp) => if c.phase.Handshaking? && resp.Some? { BeatHandshake(opts, c, resp.value); }
    case HandshakeEnds => if c.phase.Handshaking? { BeatLive(c, true); }
    case HandshakeFails => if c.phase.Handshaking? { BeatCut(opts, c, OtherError); }
    case Take =>
      if c.phase.Live? && c.box != [] {
        CountHead(c.box, IsBeat());
        BeatProcessed(opts, Popped(c), c.box[0]);
      }
    case StreamItem(resp) =>
      if c.phase == Live(false) && c.box == [] && resp.Some? {
        var m := RelayResponse(resp.value);
        assert Popped(Posted(Arrived(c, resp.value), m)).box == [];
        BeatProcessed(opts, Popped(Posted(Arrived(c, resp.value), m)), m);
      }
    case StreamFails => if c.phase.Live? { BeatCut(opts, c, OtherError); }
  }

  lemma BeatClient(opts: ClientOpts, c: Core, e: ClientEvent)
    requires OneBeat(c)
    ensures OneBeat(ClientStep(opts, c, e))
  {
    var c' := ClientStep(opts, c, e);
    ClientFrame(opts, c, e);
    if c'.box != c.box {
      var m := c'.box[|c.box|];
      assert c'.box == c.box + [m] && !m.Heartbeat?;
      CountSnoc(c.box, m, IsBeat());
    }
  }

  lemma BeatWake(c: Core, i: nat)
    requires OneBeat(c) && i < |c.sleeping|
    ensures OneBeat(TimerStep(c, i))
  {
    TimerFrame(c, i);
    CountRemove(c.sleeping, i, IsBeat());
    CountSnoc(c.box, c.sleeping[i], IsBeat());
  }

  lemma BeatStep(opts: ClientOpts, c: Core, e: Event)
    requires OneBeat(c)
    ensures OneBeat(Step(opts, c, e))
  {
    match e
    case Client(e) => BeatClient(opts, c, e);
    case Task(e) => BeatActor(opts, c, e);
    case Wake(i) => if i < |c.sleeping| { BeatWake(c, i); }
  }

  // ---- the connection budget ----

  function Limit(n: nat): nat {
    if n == 0 then 1 else n
  }

  ghost predicate Budgeted(opts: ClientOpts, c: Core) {
    && (!c.phase.Over? ==> c.attempts == 1 + c.failures)
    && (opts.maxConnectionAttempts.Val? ==>
          var limit := Limit(opts.maxConnectionAttempts.v);
          c.failures <= limit && c.attempts <= limit && (c.failures == limit <==> c.phase == Over(false)))
    && (opts.maxConnectionAttempts.Infinite? ==> c.phase != Over(false))
  }

  lemma BudgetedCut(opts: ClientOpts, c: Core, status: Status)
    requires Budgeted(opts, c) && status != Continue && !c.phase.Over?
    ensures Budgeted(opts, Cut(opts, c, status))
  {
  }

  lemma BudgetedActor(opts: ClientOpts, c: Core, e: ActorEvent)
    requires Budgeted(opts, c)
    ensures Budgeted(opts, ActorStep(opts, c, e))
  {
    match e
    case Dial(token) =>
    case HandshakeItem(resp) => if c.phase.Handshaking? { BudgetedCut(opts, c, OtherError); }
    case HandshakeEnds =>
    case Take => if c.phase.Live? && c.box != [] { BudgetedProcessed(opts, Popped(c), c.box[0]); }
    case StreamItem(resp) =>
      if c.phase == Live(false) && c.box == [] && resp.Some? {
        var m := RelayResponse(resp.value);
        BudgetedProcessed(opts, Popped(Posted(Arrived(c, resp.value), m)), m);
      }
    case _ => if !c.phase.Over? { BudgetedCut(opts, c, OtherError); }
  }

  lemma BudgetedProcessed(opts: ClientOpts, c: Core, m: Msg)
    requires Budgeted(opts, c) && !c.phase.Over?
    ensures Budgeted(opts, Processed(opts, c, m))
  {
    var o := OnMsg(opts, c.st, c.clientOpen, m);
    if o.status != Continue { BudgetedCut(opts, Applied(c, m, o), o.status); }
  }

  lemma BudgetedStep(opts: ClientOpts, c: Core, e: Event)
    requires Budgeted(opts, c)
    ensures Budgeted(opts, Step(opts, c, e))
  {
    match e
    case Client(e) => ClientFrame(opts, c, e);
    case Task(e) => BudgetedActor(opts, c, e);
    case Wake(i) => TimerFrame(c, i);
  }
}
