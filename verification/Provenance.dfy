/** Where things come from: in every reachable state each mailbox message, timer, pending entry,
    outbound item and note belongs to a call and carries that call's own fields. */
module Provenance {
  import opened Sequences
  import opened Messages
  import opened Actor
  import opened Protocol

  /** The key under which a waiting call is pending. */
  datatype Key = AckKey(seqNo: Seq) | AskKey(from: ClientId, seqNo: Seq)

  function KeyOf(call: Call): Key {
    if call.kind.AskCall? && call.original.Some? then AskKey(call.original.value.targetId, call.seqNo)
    else AckKey(call.seqNo)
  }

  function EntryAt(st: State, key: Key): Option<Entry> {
    match key
    case AckKey(q) => if q in st.pendingAcks then Some(st.pendingAcks[q]) else None
    case AskKey(f, q) => if (f, q) in st.pendingReplies then Some(st.pendingReplies[(f, q)]) else None
  }

  predicate CallOk(opts: ClientOpts, call: Call) {
    && call.first.seqNo == call.seqNo
    && (call.original.Some? ==>
          call.first == PayloadOf(opts, call.original.value, call.seqNo) && call.qos == call.original.value.qos)
    && (!call.kind.ReplyCall? ==> call.original.Some? && call.seqNo == Ticket(call.kind.ticket))
    && (call.stage in {Sent, Waiting} ==> call.original.Some? && NeedsWait(call))
  }

  /** `w` has posted its wait, under `key`. */
  predicate Registered(calls: seq<Call>, w: CallId, key: Key) {
    w < |calls| && calls[w].stage == Waiting && KeyOf(calls[w]) == key
  }

  predicate MsgOk(calls: seq<Call>, m: Msg) {
    match m
    case Send(request, w) => w < |calls| && calls[w].stage != Fresh && request == PayloadRequest(calls[w].first)
    case WaitForAck(o, q, w) => Registered(calls, w, AckKey(q)) && calls[w].original == Some(o)
    case WaitForReply(o, q, w) => Registered(calls, w, AskKey(o.targetId, q)) && calls[w].original == Some(o)
    case RetryAck(q, _, w) => Registered(calls, w, AckKey(q))
    case RetryAsk(f, q, _, w) => Registered(calls, w, AskKey(f, q))
    case _ => true
  }

  predicate EntryOk(calls: seq<Call>, key: Key, e: Entry) {
    Registered(calls, e.waiter, key) && calls[e.waiter].original == Some(e.msg)
  }

  ghost predicate StateOk(calls: seq<Call>, st: State) {
    forall key :: EntryAt(st, key).Some? ==> EntryOk(calls, key, EntryAt(st, key).value)
  }

  predicate ItemOk(calls: seq<Call>, it: Item) {
    match it.origin
    case First(w) => w < |calls| && calls[w].stage != Fresh && it.request == PayloadRequest(calls[w].first)
    case Again(w, chain) =>
      && w < |calls| && Registered(calls, w, KeyOf(calls[w])) && Registered(calls, chain, KeyOf(calls[w]))
      && it.request == PayloadRequest(calls[w].first)
    case Beat => it.request == HeartbeatRequest(0)
    case Hello => it.request.ConnectRequest?
  }

  ghost predicate NoteOk(calls: seq<Call>, n: Note) {
    match n
    case Acked(w) => w < |calls| && Registered(calls, w, AckKey(calls[w].seqNo))
    case Replied(w, got) => Registered(calls, w, AskKey(got.from.id, got.seqNo))
    case Dropped(w) => w < |calls| && Registered(calls, w, KeyOf(calls[w]))
    case Shutdown(ws) => forall w <- ws :: w < |calls| && Registered(calls, w, KeyOf(calls[w]))
    case GaveUp(w) => w < |calls| && Registered(calls, w, KeyOf(calls[w]))
    case _ => true
  }

  ghost predicate Traced(opts: ClientOpts, c: Core) {
    && (forall call <- c.calls :: CallOk(opts, call))
    && (forall m <- c.box :: MsgOk(c.calls, m))
    && (forall m <- c.sleeping :: MsgOk(c.calls, m))
    && StateOk(c.calls, c.st)
    && (forall it <- c.pushed :: ItemOk(c.calls, it))
    && (forall n <- c.notes :: NoteOk(c.calls, n))
  }

  // ---- calls only ever advance ----

  predicate Extends(a: seq<Call>, b: seq<Call>) {
    && |a| <= |b|
    && forall i :: 0 <= i < |a| ==> Advanced(a[i], b[i])
  }

  predicate Advanced(x: Call, y: Call) {
    && y == x.(stage := y.stage)
    && (x.stage != Fresh ==> y.stage != Fresh)
    && (x.stage == Waiting ==> y.stage == Waiting)
  }

  lemma MsgExtend(a: seq<Call>, b: seq<Call>, m: Msg)
    requires Extends(a, b) && MsgOk(a, m)
    ensures MsgOk(b, m)
  {
    if m.Send? || m.WaitForAck? || m.WaitForReply? { assert Advanced(a[m.call], b[m.call]); }
    if m.RetryAck? || m.RetryAsk? { assert Advanced(a[m.chain], b[m.chain]); }
  }

  lemma EntryExtend(a: seq<Call>, b: seq<Call>, key: Key, e: Entry)
    requires Extends(a, b) && EntryOk(a, key, e)
    ensures EntryOk(b, key, e)
  {
    assert Advanced(a[e.waiter], b[e.waiter]);
  }

  lemma ItemExtend(a: seq<Call>, b: seq<Call>, it: Item)
    requires Extends(a, b) && ItemOk(a, it)
    ensures ItemOk(b, it)
  {
    match it.origin
    case First(w) => assert Advanced(a[w], b[w]);
    case Again(w, chain) => assert Advanced(a[w], b[w]) && Advanced(a[chain], b[chain]);
    case _ =>
  }

  lemma NoteExtend(a: seq<Call>, b: seq<Call>, n: Note)
    requires Extends(a, b) && NoteOk(a, n)
    ensures NoteOk(b, n)
  {
    match n
    case Acked(w) => assert Advanced(a[w], b[w]);
    case Replied(w, _) => assert Advanced(a[w], b[w]);
    case Dropped(w) => assert Advanced(a[w], b[w]);
    case GaveUp(w) => assert Advanced(a[w], b[w]);
    case Shutdown(ws) =>
      forall w <- ws
        ensures w < |b| && Registered(b, w, KeyOf(b[w]))
      {
        assert Advanced(a[w], b[w]);
      }
    case _ =>
  }

  lemma TracedExtend(opts: ClientOpts, c: Core, b: seq<Call>)
    requires Traced(opts, c) && Extends(c.calls, b)
    requires forall call <- b :: CallOk(opts, call)
    ensures Traced(opts, c.(calls := b))
  {
    var a := c.calls;
    forall m <- c.box ensures MsgOk(b, m) { MsgExtend(a, b, m); }
    forall m <- c.sleeping ensures MsgOk(b, m) { MsgExtend(a, b, m); }
    forall key | EntryAt(c.st, key).Some? ensures EntryOk(b, key, EntryAt(c.st, key).value) {
      EntryExtend(a, b, key, EntryAt(c.st, key).value);
    }
    forall it <- c.pushed ensures ItemOk(b, it) { ItemExtend(a, b, it); }
    forall n <- c.notes ensures NoteOk(b, n) { NoteExtend(a, b, n); }
  }

  lemma StageExtends(c: Core, w: CallId, stage: Stage)
    requires w < |c.calls|
    requires Advanced(c.calls[w], c.calls[w].(stage := stage))
    ensures Extends(c.calls, AtStage(c, w, stage).calls)
  {
  }

  // ---- the steps ----

  lemma TracedBegin(opts: ClientOpts, c: Core, call: Call)
    requires Traced(opts, c) && CallOk(opts, call)
    ensures Traced(opts, WithCall(c, call)) && Extends(c.calls, WithCall(c, call).calls)
  {
    TracedExtend(opts, c, WithCall(c, call).calls);
  }

  lemma TracedStage(opts: ClientOpts, c: Core, w: CallId, stage: Stage)
    requires Traced(opts, c) && w < |c.calls| && c.calls[w].stage in {Fresh, Sent}
    requires stage != Fresh
    requires stage in {Sent, Waiting} ==> c.calls[w].original.Some? && NeedsWait(c.calls[w])
    ensures Traced(opts, AtStage(c, w, stage)) && Extends(c.calls, AtStage(c, w, stage).calls)
  {
    StageExtends(c, w, stage);
    assert CallOk(opts, c.calls[w]);
    TracedExtend(opts, c, AtStage(c, w, stage).calls);
  }

  lemma TracedPosted(opts: ClientOpts, c: Core, m: Msg)
    requires Traced(opts, c) && MsgOk(c.calls, m)
    ensures Traced(opts, Posted(c, m))
  {
  }

  lemma TracedPostSend(opts: ClientOpts, c: Core, w: CallId)
    requires Traced(opts, c) && w < |c.calls| && c.calls[w].stage == Fresh
    ensures var c' := ClientStep(opts, c, PostSend(w)); Traced(opts, c') && Extends(c.calls, c'.calls)
  {
    if c.clientOpen {
      if c.phase.Over? {
        TracedStage(opts, c, w, Returned(false));
      } else {
        TracedStage(opts, c, w, AfterSend(c.calls[w]));
        TracedPosted(opts, AtStage(c, w, AfterSend(c.calls[w])), Send(PayloadRequest(c.calls[w].first), w));
      }
    }
  }

  lemma TracedPostWait(opts: ClientOpts, c: Core, w: CallId)
    requires Traced(opts, c) && w < |c.calls| && c.calls[w].stage == Sent && c.calls[w].original.Some?
    ensures var c' := ClientStep(opts, c, PostWait(w)); Traced(opts, c') && Extends(c.calls, c'.calls)
  {
    assert CallOk(opts, c.calls[w]);
    if c.clientOpen {
      if c.phase.Over? {
        TracedStage(opts, c, w, Returned(false));
      } else {
        TracedStage(opts, c, w, Waiting);
        TracedPosted(opts, AtStage(c, w, Waiting), WaitMsg(c.calls[w], w));
      }
    }
  }

  lemma TracedClient(opts: ClientOpts, c: Core, e: ClientEvent)
    requires Traced(opts, c)
    ensures Traced(opts, ClientStep(opts, c, e)) && Extends(c.calls, ClientStep(opts, c, e).calls)
  {
    if c.clientOpen {
      match e
      case BeginSend(msg) => TracedBegin(opts, c, NewSend(opts, c.issued, msg));
      case BeginAsk(msg) => TracedBegin(opts, c, NewAsk(opts, c.issued, msg));
      case BeginReply(to, data, qos) =>
        ReplyCopiesAgree(opts, to, data, qos);
        TracedBegin(opts, c, NewReply(opts, to, data, qos));
      case PostSend(w) =>
        if w < |c.calls| && c.calls[w].stage == Fresh {
          TracedPostSend(opts, c, w);
        }
      case PostWait(w) =>
        if w < |c.calls| && c.calls[w].stage == Sent && c.calls[w].original.Some? {
          TracedPostWait(opts, c, w);
        }
      case _ =>
    }
  }

  /** The outcome of a well-formed message is well formed. */
  lemma OutcomeTraced(opts: ClientOpts, calls: seq<Call>, st: State, clientOpen: bool, m: Msg)
    requires forall call <- calls :: CallOk(opts, call)
    requires StateOk(calls, st) && MsgOk(calls, m)
    ensures var o := OnMsg(opts, st, clientOpen, m);
            && StateOk(calls, o.st)
            && (forall it <- o.pushes :: ItemOk(calls, it))
            && (forall t <- o.timers :: MsgOk(calls, t))
            && (forall n <- o.notes :: NoteOk(calls, n))
  {
    var o := OnMsg(opts, st, clientOpen, m);
    match m
    case RelayResponse(resp) =>
      if PayloadIn(resp).Some? {
        var got := PayloadIn(resp).value;
        assert EntryAt(st, AskKey(got.from.id, got.seqNo)).Some? ==>
            EntryOk(calls, AskKey(got.from.id, got.seqNo), EntryAt(st, AskKey(got.from.id, got.seqNo)).value);
        assert forall key :: EntryAt(o.st, key).Some? ==> EntryAt(st, key) == EntryAt(o.st, key);
      } else if resp.Ack? {
        assert EntryAt(st, AckKey(resp.seqNo)).Some? ==>
            EntryOk(calls, AckKey(resp.seqNo), EntryAt(st, AckKey(resp.seqNo)).value);
        assert forall key :: EntryAt(o.st, key).Some? ==> EntryAt(st, key) == EntryAt(o.st, key);
      }
    case WaitForAck(original, q, w) =>
      Overwrites(calls, st, o.st, AckKey(q), Entry(original, w));
    case WaitForReply(original, q, w) =>
      Overwrites(calls, st, o.st, AskKey(original.targetId, q), Entry(original, w));
    case RetryAck(q, left, chain) => RetryTraced(opts, calls, st, AckKey(q), chain);
    case RetryAsk(f, q, left, chain) => RetryTraced(opts, calls, st, AskKey(f, q), chain);
    case _ =>
  }

  lemma Overwrites(calls: seq<Call>, st: State, st': State, key: Key, e: Entry)
    requires StateOk(calls, st) && EntryOk(calls, key, e)
    requires EntryAt(st', key) == Some(e)
    requires forall k :: k != key ==> EntryAt(st', k) == EntryAt(st, k)
    ensures StateOk(calls, st')
    ensures EntryAt(st, key).Some? ==> EntryOk(calls, key, EntryAt(st, key).value)
  {
  }

  lemma RetryTraced(opts: ClientOpts, calls: seq<Call>, st: State, key: Key, chain: CallId)
    requires forall call <- calls :: CallOk(opts, call)
    requires StateOk(calls, st) && Registered(calls, chain, key)
    ensures EntryAt(st, key).Some? ==>
              var e := EntryAt(st, key).value;
              ItemOk(calls, Item(PayloadRequest(PayloadOf(opts, e.msg, key.seqNo)), Again(e.waiter, chain)))
  {
    if EntryAt(st, key).Some? {
      var e := EntryAt(st, key).value;
      assert EntryOk(calls, key, e);
      assert CallOk(opts, calls[e.waiter]);
    }
  }

  lemma WaitersRegistered(calls: seq<Call>, st: State)
    requires StateOk(calls, st)
    ensures NoteOk(calls, Shutdown(Waiters(st)))
  {
    forall w <- Waiters(st)
      ensures w < |calls| && Registered(calls, w, KeyOf(calls[w]))
    {
      if q :| q in st.pendingAcks && st.pendingAcks[q].waiter == w {
        assert EntryOk(calls, AckKey(q), EntryAt(st, AckKey(q)).value);
      } else {
        var k :| k in st.pendingReplies && st.pendingReplies[k].waiter == w;
        assert EntryOk(calls, AskKey(k.0, k.1), EntryAt(st, AskKey(k.0, k.1)).value);
      }
    }
  }

  lemma TracedCut(opts: ClientOpts, c: Core, status: Status)
    requires Traced(opts, c) && status != Continue
    ensures Traced(opts, Cut(opts, c, status))
  {
    WaitersRegistered(c.calls, c.st);
  }

  lemma TracedProcessed(opts: ClientOpts, c: Core, m: Msg)
    requires Traced(opts, c) && MsgOk(c.calls, m)
    ensures Traced(opts, Processed(opts, c, m))
  {
    var o := OnMsg(opts, c.st, c.clientOpen, m);
    OutcomeTraced(opts, c.calls, c.st, c.clientOpen, m);
    var c' := Applied(c, m, o);
    assert Traced(opts, c');
    if o.status != Continue { TracedCut(opts, c', o.status); }
  }

  lemma TracedLive(opts: ClientOpts, c: Core, ended: bool)
    requires Traced(opts, c)
    ensures Traced(opts, WentLive(c, ended))
  {
    var st' := WentLive(c, ended).st;
    forall key | EntryAt(st', key).Some? ensures EntryOk(c.calls, key, EntryAt(st', key).value) {
      assert EntryAt(c.st, key) == EntryAt(st', key);
    }
  }

  lemma TracedActor(opts: ClientOpts, c: Core, e: ActorEvent)
    requires Traced(opts, c)
    ensures Traced(opts, ActorStep(opts, c, e))
  {
    match e
    case Dial(token) =>
    case DialFails => if c.phase.Dialing? { TracedCut(opts, c, OtherError); }
    case HandshakeItem(resp) =>
      if c.phase.Handshaking? {
        TracedCut(opts, c, OtherError);
        TracedLive(opts, c, false);
      }
    case HandshakeEnds => TracedLive(opts, c, true);
    case HandshakeFails => if c.phase.Handshaking? { TracedCut(opts, c, OtherError); }
    case Take => if c.phase.Live? && c.box != [] { TracedProcessed(opts, Popped(c), c.box[0]); }
    case StreamItem(resp) =>
      if c.phase == Live(false) && c.box == [] && resp.Some? {
        var m := RelayResponse(resp.value);
        TracedProcessed(opts, Popped(Posted(Arrived(c, resp.value), m)), m);
      }
    case StreamFails => if c.phase.Live? && c.box == [] { TracedCut(opts, c, OtherError); }
  }

  lemma ActorKeepsCalls(opts: ClientOpts, c: Core, e: ActorEvent)
    ensures ActorStep(opts, c, e).calls == c.calls
  {
  }

  lemma TracedStep(opts: ClientOpts, c: Core, e: Event)
    requires Traced(opts, c)
    ensures Traced(opts, Step(opts, c, e)) && Extends(c.calls, Step(opts, c, e).calls)
  {
    match e
    case Client(e) => TracedClient(opts, c, e);
    case Task(e) => TracedActor(opts, c, e); ActorKeepsCalls(opts, c, e);
    case Wake(i) =>
  }
}
