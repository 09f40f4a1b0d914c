/** Waiters are conserved: the channel of every waiting caller is in exactly one of the mailbox, the
    pending maps and the notes. The first copy of a call is posted once and pushed once, always
    before its wait is taken. */
module Waiters {
  import opened Sequences
  import opened Messages
  import opened Actor
  import opened Protocol
  import opened Provenance

  function IsWait(w: CallId): Msg -> bool {
    (m: Msg) => (m.WaitForAck? || m.WaitForReply?) && m.call == w
  }

  function IsSend(w: CallId): Msg -> bool {
    (m: Msg) => m.Send? && m.call == w
  }

  function IsFirst(w: CallId): Item -> bool {
    (it: Item) => it.origin == First(w)
  }

  /** The note settles the call: its channel got its one message, or was closed. */
  function IsSignal(w: CallId): Note -> bool {
    (n: Note) => match n
      case Acked(v) => v == w
      case Replied(v, _) => v == w
      case Dropped(v) => v == w
      case Shutdown(ws) => w in ws
      case _ => false
  }

  function Pending(st: State, w: CallId): nat {
    if w in Protocol.Waiters(st) then 1 else 0
  }

  function Bit(b: bool): nat {
    if b then 1 else 0
  }

  predicate IsWaiting(c: Core, w: CallId) {
    w < |c.calls| && c.calls[w].stage == Waiting
  }

  /** The channel of a waiting call is in exactly one place; other calls have none. */
  ghost predicate OnePlace(c: Core, w: CallId) {
    Count(c.box, IsWait(w)) + Pending(c.st, w) + Count(c.notes, IsSignal(w)) == Bit(IsWaiting(c, w))
  }

  /** The first copy: nowhere while the call is fresh; afterwards posted or pushed, once. */
  ghost predicate OneFirst(c: Core, w: CallId) {
    var n := Count(c.box, IsSend(w)) + Count(c.pushed, IsFirst(w));
    if w >= |c.calls| || c.calls[w].stage == Fresh then n == 0
    else if c.calls[w].stage == Returned(false) then n <= 1
    else n == 1
  }

  /** In the mailbox the first copy is ahead of the wait. */
  ghost predicate SendFirst(c: Core, w: CallId) {
    && (forall i, j :: 0 <= i < j < |c.box| && IsWait(w)(c.box[i]) ==> !IsSend(w)(c.box[j]))
    && (IsWaiting(c, w) && (forall m <- c.box :: !IsWait(w)(m)) ==> forall m <- c.box :: !IsSend(w)(m))
  }

  ghost predicate Conserved(c: Core) {
    forall w: CallId :: OnePlace(c, w) && OneFirst(c, w) && SendFirst(c, w)
  }

  // ---- the pending maps as sets of waiters ----

  predicate HasWaiter(st: State, key: Key, w: CallId) {
    EntryAt(st, key).Some? && EntryAt(st, key).value.waiter == w
  }

  lemma WaiterAt(st: State, w: CallId)
    ensures w in Protocol.Waiters(st) <==> exists key :: HasWaiter(st, key, w)
  {
    if q :| q in st.pendingAcks && st.pendingAcks[q].waiter == w {
      assert HasWaiter(st, AckKey(q), w);
    }
    if k :| k in st.pendingReplies && st.pendingReplies[k].waiter == w {
      assert HasWaiter(st, AskKey(k.0, k.1), w);
    }
  }

  /** A call can only be pending under its own key. */
  lemma WaiterAtOwnKey(calls: seq<Call>, st: State, w: CallId)
    requires StateOk(calls, st)
    ensures w in Protocol.Waiters(st) <==> w < |calls| && HasWaiter(st, KeyOf(calls[w]), w)
  {
    WaiterAt(st, w);
    if key :| HasWaiter(st, key, w) {
      assert EntryOk(calls, key, EntryAt(st, key).value);
    }
  }

  /** Replacing the entry at one key moves only the waiters of that key. */
  lemma PendingUpdate(calls: seq<Call>, st: State, st': State, key: Key, w: CallId)
    requires StateOk(calls, st) && StateOk(calls, st')
    requires forall k :: k != key ==> EntryAt(st', k) == EntryAt(st, k)
    requires HasWaiter(st, key, w) ==> !HasWaiter(st', key, w)
    ensures Pending(st', w) + Bit(HasWaiter(st, key, w)) == Pending(st, w) + Bit(HasWaiter(st', key, w))
  {
    WaiterAtOwnKey(calls, st, w);
    WaiterAtOwnKey(calls, st', w);
    if HasWaiter(st, key, w) { assert EntryOk(calls, key, EntryAt(st, key).value); }
    if HasWaiter(st', key, w) { assert EntryOk(calls, key, EntryAt(st', key).value); }
  }

  // ---- the actor's side ----

  lemma ResponsePlace(opts: ClientOpts, calls: seq<Call>, st: State, clientOpen: bool, resp: Response, w: CallId)
    requires forall call <- calls :: CallOk(opts, call)
    requires StateOk(calls, st)
    ensures var o := OnMsg(opts, st, clientOpen, RelayResponse(resp));
            Pending(o.st, w) + Count(o.notes, IsSignal(w)) == Pending(st, w)
  {
    var o := OnMsg(opts, st, clientOpen, RelayResponse(resp));
    OutcomeTraced(opts, calls, st, clientOpen, RelayResponse(resp));
    if PayloadIn(resp).Some? {
      var got := PayloadIn(resp).value;
      var key := AskKey(got.from.id, got.seqNo);
      CountOne(o.notes[0], IsSignal(w));
      if EntryAt(st, key).Some? { PendingUpdate(calls, st, o.st, key, w); }
    } else if resp.Ack? && EntryAt(st, AckKey(resp.seqNo)).Some? {
      CountOne(o.notes[0], IsSignal(w));
      PendingUpdate(calls, st, o.st, AckKey(resp.seqNo), w);
    }
  }

  /** Registering a wait: the new waiter enters the map, an overwritten one is dropped. */
  lemma RegisterPlace(opts: ClientOpts, calls: seq<Call>, st: State, clientOpen: bool, m: Msg, w: CallId)
    requires forall call <- calls :: CallOk(opts, call)
    requires StateOk(calls, st) && MsgOk(calls, m)
    requires m.WaitForAck? || m.WaitForReply?
    requires Bit(IsWait(w)(m)) + Pending(st, w) <= 1
    ensures var o := OnMsg(opts, st, clientOpen, m);
            Pending(o.st, w) + Count(o.notes, IsSignal(w)) == Bit(IsWait(w)(m)) + Pending(st, w)
  {
    var o := OnMsg(opts, st, clientOpen, m);
    OutcomeTraced(opts, calls, st, clientOpen, m);
    var key := if m.WaitForAck? then AckKey(m.seqNo) else AskKey(m.original.targetId, m.seqNo);
    WaiterAtOwnKey(calls, st, w);
    PendingUpdate(calls, st, o.st, key, w);
    if EntryAt(st, key).Some? { CountOne(o.notes[0], IsSignal(w)); }
  }

  lemma OutcomePlace(opts: ClientOpts, calls: seq<Call>, st: State, clientOpen: bool, m: Msg, w: CallId)
    requires forall call <- calls :: CallOk(opts, call)
    requires StateOk(calls, st) && MsgOk(calls, m)
    requires Bit(IsWait(w)(m)) + Pending(st, w) <= 1
    ensures var o := OnMsg(opts, st, clientOpen, m);
            Pending(o.st, w) + Count(o.notes, IsSignal(w)) == Bit(IsWait(w)(m)) + Pending(st, w)
  {
    if m.RelayResponse? {
      ResponsePlace(opts, calls, st, clientOpen, m.resp, w);
    } else if m.WaitForAck? || m.WaitForReply? {
      RegisterPlace(opts, calls, st, clientOpen, m, w);
    } else {
      var o := OnMsg(opts, st, clientOpen, m);
      if o.notes != [] { CountOne(o.notes[0], IsSignal(w)); }
    }
  }

  lemma PlaceCut(opts: ClientOpts, c: Core, status: Status, w: CallId)
    requires OnePlace(c, w) && status != Continue
    ensures OnePlace(Cut(opts, c, status), w)
  {
    CountSnoc(c.notes, Shutdown(Protocol.Waiters(c.st)), IsSignal(w));
  }

  /** `c` is the state with `m` already taken off the mailbox. */
  lemma PlaceProcessed(opts: ClientOpts, c: Core, m: Msg, w: CallId)
    requires Traced(opts, c) && MsgOk(c.calls, m)
    requires Bit(IsWait(w)(m)) + Count(c.box, IsWait(w)) + Pending(c.st, w) + Count(c.notes, IsSignal(w))
             == Bit(IsWaiting(c, w))
    ensures OnePlace(Processed(opts, c, m), w)
  {
    var o := OnMsg(opts, c.st, c.clientOpen, m);
    OutcomePlace(opts, c.calls, c.st, c.clientOpen, m, w);
    CountConcat(c.notes, o.notes, IsSignal(w));
    var c' := Applied(c, m, o);
    assert OnePlace(c', w);
    if o.status != Continue { PlaceCut(opts, c', o.status, w); }
  }

  lemma OutcomeFirst(opts: ClientOpts, st: State, clientOpen: bool, m: Msg, w: CallId)
    ensures Count(OnMsg(opts, st, clientOpen, m).pushes, IsFirst(w)) == Bit(IsSend(w)(m))
  {
    var o := OnMsg(opts, st, clientOpen, m);
    if o.pushes != [] { CountOne(o.pushes[0], IsFirst(w)); }
  }

  lemma FirstProcessed(opts: ClientOpts, c: Core, m: Msg, w: CallId)
    ensures var c' := Processed(opts, c, m);
            && Count(c'.pushed, IsFirst(w)) == Count(c.pushed, IsFirst(w)) + Bit(IsSend(w)(m))
            && c'.box == c.box && c'.calls == c.calls
  {
    var o := OnMsg(opts, c.st, c.clientOpen, m);
    OutcomeFirst(opts, c.st, c.clientOpen, m, w);
    CountConcat(c.pushed, o.pushes, IsFirst(w));
  }

  lemma SendFirstTake(c: Core, c': Core, w: CallId)
    requires SendFirst(c, w) && c.box != [] && c'.box == c.box[1..] && c'.calls == c.calls
    ensures SendFirst(c', w)
  {
    var m := c.box[0];
    if IsWait(w)(m) {
      assert forall j :: 0 < j < |c.box| ==> !IsSend(w)(c.box[j]);
    } else if forall x <- c'.box :: !IsWait(w)(x) {
      assert forall x <- c.box :: x == m || x in c'.box;
    }
  }

  lemma ConservedTake(opts: ClientOpts, c: Core)
    requires Traced(opts, c) && Conserved(c) && c.box != []
    ensures Conserved(Processed(opts, Popped(c), c.box[0]))
  {
    var m := c.box[0];
    assert m in c.box;
    var c' := Processed(opts, Popped(c), m);
    forall w: CallId
      ensures OnePlace(c', w) && OneFirst(c', w) && SendFirst(c', w)
    {
      assert OnePlace(c, w) && OneFirst(c, w) && SendFirst(c, w);
      CountHead(c.box, IsWait(w));
      CountHead(c.box, IsSend(w));
      PlaceProcessed(opts, Popped(c), m, w);
      FirstProcessed(opts, Popped(c), m, w);
      SendFirstTake(c, c', w);
    }
  }

  lemma ConservedRead(opts: ClientOpts, c: Core, resp: Response)
    requires Traced(opts, c) && Conserved(c) && c.box == []
    ensures var m := RelayResponse(resp);
            Conserved(Processed(opts, Popped(Posted(Arrived(c, resp), m)), m))
  {
    var m := RelayResponse(resp);
    var c1 := Popped(Posted(Arrived(c, resp), m));
    assert c1.box == [];
    var c' := Processed(opts, c1, m);
    forall w: CallId
      ensures OnePlace(c', w) && OneFirst(c', w) && SendFirst(c', w)
    {
      assert OnePlace(c, w) && OneFirst(c, w);
      PlaceProcessed(opts, c1, m, w);
      FirstProcessed(opts, c1, m, w);
    }
  }

  lemma ConservedCut(opts: ClientOpts, c: Core, status: Status)
    requires Conserved(c) && status != Continue
    ensures Conserved(Cut(opts, c, status))
  {
    forall w: CallId
      ensures OnePlace(Cut(opts, c, status), w) && OneFirst(Cut(opts, c, status), w)
              && SendFirst(Cut(opts, c, status), w)
    {
      assert OnePlace(c, w) && OneFirst(c, w) && SendFirst(c, w);
      PlaceCut(opts, c, status, w);
    }
  }

  /** Messages that neither send nor wait leave the counts alone. */
  lemma ConservedPosted(c: Core, c0: Core, m: Msg)
    requires Conserved(c0) && !m.Send? && !m.WaitForAck? && !m.WaitForReply?
    requires c.calls == c0.calls && c.st == c0.st && c.pushed == c0.pushed && c.notes == c0.notes
    requires c.box == c0.box + [m]
    ensures Conserved(c)
  {
    forall w: CallId
      ensures OnePlace(c, w) && OneFirst(c, w) && SendFirst(c, w)
    {
      assert OnePlace(c0, w) && OneFirst(c0, w) && SendFirst(c0, w);
      CountSnoc(c0.box, m, IsWait(w));
      CountSnoc(c0.box, m, IsSend(w));
    }
  }

  lemma ConservedFrame(c: Core, c0: Core)
    requires Conserved(c0)
    requires c.calls == c0.calls && c.pushed == c0.pushed && c.notes == c0.notes && c.box == c0.box
    requires c.st == c0.st.(heartbeatStarted := c.st.heartbeatStarted)
    ensures Conserved(c)
  {
    forall w: CallId
      ensures OnePlace(c, w) && OneFirst(c, w) && SendFirst(c, w)
    {
      assert OnePlace(c0, w) && OneFirst(c0, w) && SendFirst(c0, w);
    }
  }

  lemma ConservedDialed(opts: ClientOpts, c: Core, token: string)
    requires Conserved(c)
    ensures Conserved(Dialed(opts, c, token))
  {
    var c' := Dialed(opts, c, token);
    forall w: CallId
      ensures OnePlace(c', w) && OneFirst(c', w) && SendFirst(c', w)
    {
      assert OnePlace(c, w) && OneFirst(c, w) && SendFirst(c, w);
      CountSnoc(c.pushed, Item(ConnectRequest(Self(opts), token), Hello), IsFirst(w));
    }
  }

  lemma ConservedActor(opts: ClientOpts, c: Core, e: ActorEvent)
    requires Traced(opts, c) && Conserved(c)
    ensures Conserved(ActorStep(opts, c, e))
  {
    match e
    case Dial(token) => ConservedDialed(opts, c, token);
    case DialFails => ConservedCut(opts, c, OtherError);
    case HandshakeItem(resp) =>
      if c.phase.Handshaking? && resp.Some? {
        if resp.value == ConnectResponse(true) {
          ConservedFrame(WentLive(c, false), c);
        } else if resp.value == ConnectResponse(false) {
          ConservedCut(opts, c, OtherError);
        } else {
          ConservedPosted(ActorStep(opts, c, e), c, RelayResponse(resp.value));
        }
      }
    case HandshakeEnds => ConservedFrame(WentLive(c, true), c);
    case HandshakeFails => ConservedCut(opts, c, OtherError);
    case Take => if c.phase.Live? && c.box != [] { ConservedTake(opts, c); }
    case StreamItem(resp) =>
      if c.phase == Live(false) && c.box == [] && resp.Some? { ConservedRead(opts, c, resp.value); }
    case StreamFails => ConservedCut(opts, c, OtherError);
  }

  // ---- the callers' side ----

  lemma ConservedBegin(c: Core, call: Call)
    requires Conserved(c) && call.stage == Fresh
    ensures Conserved(WithCall(c, call))
  {
    var c' := WithCall(c, call);
    forall w: CallId
      ensures OnePlace(c', w) && OneFirst(c', w) && SendFirst(c', w)
    {
      assert OnePlace(c, w) && OneFirst(c, w) && SendFirst(c, w);
    }
  }

  /** A call whose actor has ended returns with an error and posts nothing. */
  lemma ConservedRefused(c: Core, w: CallId)
    requires Conserved(c) && w < |c.calls| && c.calls[w].stage in {Fresh, Sent}
    ensures Conserved(AtStage(c, w, Returned(false)))
  {
    var c' := AtStage(c, w, Returned(false));
    forall v: CallId
      ensures OnePlace(c', v) && OneFirst(c', v) && SendFirst(c', v)
    {
      assert OnePlace(c, v) && OneFirst(c, v) && SendFirst(c, v);
    }
  }

  lemma ConservedPostSend(c: Core, w: CallId)
    requires Conserved(c) && w < |c.calls| && c.calls[w].stage == Fresh
    ensures Conserved(Posted(AtStage(c, w, AfterSend(c.calls[w])), Send(PayloadRequest(c.calls[w].first), w)))
  {
    var m := Send(PayloadRequest(c.calls[w].first), w);
    var c' := Posted(AtStage(c, w, AfterSend(c.calls[w])), m);
    forall v: CallId
      ensures OnePlace(c', v) && OneFirst(c', v) && SendFirst(c', v)
    {
      assert OnePlace(c, v) && OneFirst(c, v) && SendFirst(c, v);
      CountSnoc(c.box, m, IsWait(v));
      CountSnoc(c.box, m, IsSend(v));
      CountZero(c.box, IsWait(v));
    }
  }

  lemma PlacePostWait(c: Core, w: CallId, v: CallId)
    requires OnePlace(c, v) && OneFirst(c, v) && SendFirst(c, v)
    requires w < |c.calls| && c.calls[w].stage == Sent && c.calls[w].original.Some?
    ensures var c' := Posted(AtStage(c, w, Waiting), WaitMsg(c.calls[w], w));
            OnePlace(c', v) && OneFirst(c', v) && SendFirst(c', v)
  {
    var m := WaitMsg(c.calls[w], w);
    var c' := Posted(AtStage(c, w, Waiting), m);
    CountSnoc(c.box, m, IsWait(v));
    CountSnoc(c.box, m, IsSend(v));
    assert m in c'.box;
    if v != w && forall x <- c'.box :: !IsWait(v)(x) {
      assert forall x <- c.box :: x in c'.box;
    }
  }

  lemma ConservedPostWait(opts: ClientOpts, c: Core, w: CallId)
    requires Conserved(c) && w < |c.calls| && c.calls[w].stage == Sent && c.calls[w].original.Some?
    ensures Conserved(Posted(AtStage(c, w, Waiting), WaitMsg(c.calls[w], w)))
  {
    var c' := Posted(AtStage(c, w, Waiting), WaitMsg(c.calls[w], w));
    forall v: CallId ensures OnePlace(c', v) && OneFirst(c', v) && SendFirst(c', v) {
      assert OnePlace(c, v) && OneFirst(c, v) && SendFirst(c, v);
      PlacePostWait(c, w, v);
    }
  }

  lemma ConservedClient(opts: ClientOpts, c: Core, e: ClientEvent)
    requires Traced(opts, c) && Conserved(c)
    ensures Conserved(ClientStep(opts, c, e))
  {
    var c' := ClientStep(opts, c, e);
    if c.clientOpen {
      match e
      case BeginSend(msg) =>
        ConservedBegin(c, NewSend(opts, c.issued, msg));
        ConservedFrame(c', WithCall(c, NewSend(opts, c.issued, msg)));
      case BeginAsk(msg) =>
        ConservedBegin(c, NewAsk(opts, c.issued, msg));
        ConservedFrame(c', WithCall(c, NewAsk(opts, c.issued, msg)));
      case BeginReply(to, data, qos) => ConservedBegin(c, NewReply(opts, to, data, qos));
      case PostSend(w) =>
        if w < |c.calls| && c.calls[w].stage == Fresh { ConservedRefused(c, w); ConservedPostSend(c, w); }
      case PostWait(w) =>
        if w < |c.calls| && c.calls[w].stage == Sent && c.calls[w].original.Some? {
          ConservedRefused(c, w);
          ConservedPostWait(opts, c, w);
        }
      case PostStop => if !c.phase.Over? { ConservedPosted(c', c, Stop); }
      case PostReconnect => if !c.phase.Over? { ConservedPosted(c', c, Reconnect); }
      case DropClients => ConservedFrame(c', c);
    }
  }

  /** Timers carry no first copies and no waiters. */
  predicate IsTimer(m: Msg) {
    m.RetryAck? || m.RetryAsk? || m.Heartbeat?
  }

  ghost predicate OnlyTimers(c: Core) {
    forall m <- c.sleeping :: IsTimer(m)
  }

  lemma OnlyTimersProcessed(opts: ClientOpts, c: Core, m: Msg)
    requires OnlyTimers(c)
    ensures OnlyTimers(Processed(opts, c, m))
  {
    assert forall t <- OnMsg(opts, c.st, c.clientOpen, m).timers :: IsTimer(t);
  }

  lemma OnlyTimersStep(opts: ClientOpts, c: Core, e: Event)
    requires OnlyTimers(c)
    ensures OnlyTimers(Step(opts, c, e))
  {
    if e.Task? {
      match e.actor
      case Take => if c.phase.Live? && c.box != [] { OnlyTimersProcessed(opts, Popped(c), c.box[0]); }
      case StreamItem(resp) =>
        if c.phase == Live(false) && c.box == [] && resp.Some? {
          var m := RelayResponse(resp.value);
          OnlyTimersProcessed(opts, Popped(Posted(Arrived(c, resp.value), m)), m);
        }
      case _ =>
    }
  }

  lemma ConservedStep(opts: ClientOpts, c: Core, e: Event)
    requires Traced(opts, c) && OnlyTimers(c) && Conserved(c)
    ensures Conserved(Step(opts, c, e))
  {
    match e
    case Client(e) => ConservedClient(opts, c, e);
    case Task(e) => ConservedActor(opts, c, e);
    case Wake(i) =>
      if i < |c.sleeping| {
        assert c.sleeping[i] in c.sleeping;
        ConservedFrame(Woken(c, i), c);
        if !c.phase.Over? { ConservedPosted(TimerStep(c, i), c, c.sleeping[i]); }
      }
  }
}
