/** The client together with its outbound path and an honest server.

    The server may answer anything at any time, except that it acknowledges a sequence number only
    after a request under that number has reached it. Payloads have such a number, and so do
    heartbeats; whether the server acknowledges those too is a parameter. */
module Relay {
  import opened Amounts
  import opened Sequences
  import opened Messages
  import opened Actor
  import opened Protocol
  import opened Provenance
  import opened Waiters
  import opened Attempts
  import opened Guarantees
  import opened Forwarder

  datatype System = System(core: Core, wire: Wire)

  datatype SystemEvent = Local(local: Event) | Net(net: WireEvent)

  function ArrivedOf(): Conn -> seq<Item> {
    (c: Conn) => if c.arrived <= |c.sent| then c.sent[..c.arrived] else c.sent
  }

  /** Everything that reached the server, over all connections. */
  function AtServer(w: Wire): seq<Item> {
    Joined(w.conns, ArrivedOf())
  }

  /** Which requests a server acknowledges: all that carry a number, or payloads only. */
  datatype Server = AcksNumbered | AcksPayloads

  /** The item is one that the server may acknowledge under `q`. */
  predicate Carries(sv: Server, it: Item, q: Seq) {
    match it.request
    case PayloadRequest(payload) => payload.seqNo == q
    case HeartbeatRequest(n) => sv == AcksNumbered && n == q
    case ConnectRequest(_, _) => false
  }

  predicate MayAck(sv: Server, w: Wire, q: Seq) {
    exists it <- AtServer(w) :: Carries(sv, it, q)
  }

  /** The response that an event reads from a stream. */
  function ReadBy(e: Event): Option<Response> {
    match e
    case Task(HandshakeItem(resp)) => resp
    case Task(StreamItem(resp)) => resp
    case _ => None
  }

  predicate Honest(sv: Server, w: Wire, e: Event) {
    ReadBy(e).Some? && ReadBy(e).value.Ack? ==> MayAck(sv, w, ReadBy(e).value.seqNo)
  }

  lemma PushesGrow(opts: ClientOpts, c: Core, e: Event)
    ensures c.pushed <= Step(opts, c, e).pushed
  {
    match e
    case Client(e) => ClientFrame(opts, c, e);
    case Wake(i) => TimerFrame(c, i);
    case Task(e) =>
      match e
      case Take => if c.phase.Live? && c.box != [] { ProcessedPushes(opts, Popped(c), c.box[0]); }
      case StreamItem(resp) =>
        if c.phase == Live(false) && c.box == [] && resp.Some? {
          var m := RelayResponse(resp.value);
          ProcessedPushes(opts, Popped(Posted(Arrived(c, resp.value), m)), m);
        }
      case _ =>
  }

  /** The outbound path follows a step of the client: what was pushed is queued; a new stream gets a
      new task; an error that ends the receive loop cancels the current one. */
  function Follow(w: Wire, c: Core, c': Core): Wire
    requires c.pushed <= c'.pushed
  {
    var w1 := Pushed(w, c'.pushed[|c.pushed|..]);
    if c'.dials > c.dials then Opened(w1)
    else if c'.cuts > c.cuts then Cancelled(w1)
    else w1
  }

  function SystemStep(opts: ClientOpts, sv: Server, s: System, e: SystemEvent): System {
    match e
    case Local(e) =>
      if !Honest(sv, s.wire, e) then s
      else
        var c' := Step(opts, s.core, e);
        PushesGrow(opts, s.core, e);
        System(c', Follow(s.wire, s.core, c'))
    case Net(e) => s.(wire := WireStep(s.wire, e))
  }

  function Boot(): System {
    System(Start(), Wire([], [], []))
  }

  function SystemRun(opts: ClientOpts, sv: Server, es: seq<SystemEvent>): System {
    if es == [] then Boot() else SystemStep(opts, sv, SystemRun(opts, sv, es[..|es| - 1]), es[|es| - 1])
  }

  ghost predicate SystemInv(opts: ClientOpts, sv: Server, s: System) {
    && Inv(opts, s.core) && WireOk(s.wire)
    && s.wire.pushed == s.core.pushed
    && (s.core.phase.Dialing? || s.core.phase.Over? ==> AllCancelled(s.wire))
    && |s.wire.conns| == s.core.dials
    && (forall r <- s.core.arrivals :: r.Ack? ==> MayAck(sv, s.wire, r.seqNo))
  }

  // ---- what reached the server stays there ----

  lemma {:induction false} ArrivedGrows(a: seq<Conn>, b: seq<Conn>, it: Item)
    requires |a| <= |b| && forall i :: 0 <= i < |a| ==> ArrivedOf()(a[i]) <= ArrivedOf()(b[i])
    requires it in Joined(a, ArrivedOf())
    ensures it in Joined(b, ArrivedOf())
  {
    if |a| < |b| {
      ArrivedGrows(a, b[..|b| - 1], it);
    } else if it !in ArrivedOf()(a[|a| - 1]) {
      ArrivedGrows(a[..|a| - 1], b[..|b| - 1], it);
    }
  }

  lemma MayAckGrows(sv: Server, w: Wire, w': Wire, q: Seq)
    requires |w.conns| <= |w'.conns|
    requires forall i :: 0 <= i < |w.conns| ==> ArrivedOf()(w.conns[i]) <= ArrivedOf()(w'.conns[i])
    requires MayAck(sv, w, q)
    ensures MayAck(sv, w', q)
  {
    var it :| it in AtServer(w) && Carries(sv, it, q);
    ArrivedGrows(w.conns, w'.conns, it);
  }

  lemma WireArrivals(w: Wire, e: WireEvent)
    requires WireOk(w)
    ensures forall i :: 0 <= i < |w.conns| ==> ArrivedOf()(w.conns[i]) <= ArrivedOf()(WireStep(w, e).conns[i])
  {
    if e.k < |w.conns| { assert ConnOk(w.conns[e.k]); }
  }

  lemma FollowArrivals(w: Wire, c: Core, c': Core)
    requires c.pushed <= c'.pushed
    ensures |w.conns| <= |Follow(w, c, c').conns|
    ensures forall i :: 0 <= i < |w.conns| ==> ArrivedOf()(w.conns[i]) <= ArrivedOf()(Follow(w, c, c').conns[i])
  {
  }

  // ---- the step ----

  /** How one step of the client moves the connection. */
  lemma StepPhases(opts: ClientOpts, c: Core, e: Event)
    ensures var c' := Step(opts, c, e);
            && c.dials <= c'.dials <= c.dials + 1 && c.cuts <= c'.cuts
            && (c'.dials > c.dials ==> c.phase.Dialing? && c'.phase.Handshaking? && c'.cuts == c.cuts)
            && ((c'.phase.Dialing? || c'.phase.Over?) && c'.cuts == c.cuts ==> c'.phase == c.phase)
  {
    match e
    case Client(e) => ClientFrame(opts, c, e);
    case Wake(i) => TimerFrame(c, i);
    case Task(e) =>
      match e
      case Take => if c.phase.Live? && c.box != [] { ProcessedPhases(opts, Popped(c), c.box[0]); }
      case StreamItem(resp) =>
        if c.phase == Live(false) && c.box == [] && resp.Some? {
          var m := RelayResponse(resp.value);
          ProcessedPhases(opts, Popped(Posted(Arrived(c, resp.value), m)), m);
        }
      case _ =>
  }

  lemma ProcessedPhases(opts: ClientOpts, c: Core, m: Msg)
    ensures var c' := Processed(opts, c, m);
            && c'.dials == c.dials && c.cuts <= c'.cuts && (c'.cuts == c.cuts ==> c'.phase == c.phase)
  {
  }

  lemma ProcessedArrivals(opts: ClientOpts, c: Core, m: Msg)
    ensures Processed(opts, c, m).arrivals == c.arrivals
  {
  }

  lemma StepArrivals(opts: ClientOpts, c: Core, e: Event)
    ensures var c' := Step(opts, c, e);
            c'.arrivals == c.arrivals || (ReadBy(e).Some? && c'.arrivals == c.arrivals + [ReadBy(e).value])
  {
    match e
    case Client(e) => ClientFrame(opts, c, e);
    case Wake(i) => TimerFrame(c, i);
    case Task(e) =>
      match e
      case Take => if c.phase.Live? && c.box != [] { ProcessedArrivals(opts, Popped(c), c.box[0]); }
      case StreamItem(resp) =>
        if c.phase == Live(false) && c.box == [] && resp.Some? {
          var m := RelayResponse(resp.value);
          ProcessedArrivals(opts, Popped(Posted(Arrived(c, resp.value), m)), m);
        }
      case _ =>
  }

  lemma FollowOk(w: Wire, c: Core, c': Core)
    requires WireOk(w) && w.pushed == c.pushed && c.pushed <= c'.pushed
    requires c'.dials > c.dials ==> AllCancelled(w)
    ensures var w' := Follow(w, c, c');
            && WireOk(w') && w'.pushed == c'.pushed
            && |w'.conns| == |w.conns| + Bit(c'.dials > c.dials)
            && (c'.dials == c.dials && (AllCancelled(w) || c'.cuts > c.cuts) ==> AllCancelled(w'))
  {
    var w1 := Pushed(w, c'.pushed[|c.pushed|..]);
    PushedOk(w, c'.pushed[|c.pushed|..]);
    if c'.dials > c.dials { OpenedOk(w1); } else { CancelledOk(w1); }
  }

  lemma LocalInv(opts: ClientOpts, sv: Server, s: System, e: Event)
    requires SystemInv(opts, sv, s)
    ensures SystemInv(opts, sv, SystemStep(opts, sv, s, Local(e)))
  {
    if Honest(sv, s.wire, e) {
      var c' := Step(opts, s.core, e);
      var w' := SystemStep(opts, sv, s, Local(e)).wire;
      InvStep(opts, s.core, e);
      PushesGrow(opts, s.core, e);
      StepPhases(opts, s.core, e);
      FollowOk(s.wire, s.core, c');
      FollowArrivals(s.wire, s.core, c');
      StepArrivals(opts, s.core, e);
      forall r <- c'.arrivals | r.Ack? ensures MayAck(sv, w', r.seqNo) {
        MayAckGrows(sv, s.wire, w', r.seqNo);
      }
    }
  }

  lemma NetInv(opts: ClientOpts, sv: Server, s: System, e: WireEvent)
    requires SystemInv(opts, sv, s)
    ensures SystemInv(opts, sv, SystemStep(opts, sv, s, Net(e)))
  {
    WireOkStep(s.wire, e);
    WireStepFrame(s.wire, e);
    WireArrivals(s.wire, e);
    forall r <- s.core.arrivals | r.Ack? ensures MayAck(sv, WireStep(s.wire, e), r.seqNo) {
      MayAckGrows(sv, s.wire, WireStep(s.wire, e), r.seqNo);
    }
  }

  lemma {:induction false} SystemInvRun(opts: ClientOpts, sv: Server, es: seq<SystemEvent>)
    ensures SystemInv(opts, sv, SystemRun(opts, sv, es))
  {
    if es == [] {
      BootInv(opts, sv);
    } else {
      SystemInvRun(opts, sv, es[..|es| - 1]);
      SystemInvStep(opts, sv, SystemRun(opts, sv, es[..|es| - 1]), es[|es| - 1]);
    }
  }

  lemma BootInv(opts: ClientOpts, sv: Server)
    ensures SystemInv(opts, sv, Boot())
  {
    InvStart(opts);
    QuietInv(opts, sv, Start());
  }

  lemma QuietInv(opts: ClientOpts, sv: Server, c: Core)
    requires Inv(opts, c) && c.phase.Dialing? && c.pushed == [] && c.arrivals == [] && c.dials == 0
    ensures SystemInv(opts, sv, System(c, Wire([], [], [])))
  {
  }

  lemma SystemInvStep(opts: ClientOpts, sv: Server, s: System, e: SystemEvent)
    requires SystemInv(opts, sv, s)
    ensures SystemInv(opts, sv, SystemStep(opts, sv, s, e))
  {
    match e
    case Local(e) => LocalInv(opts, sv, s, e);
    case Net(e) => NetInv(opts, sv, s, e);
  }

  /** In the whole system the client runs exactly its own machine, on the events the server allows. */
  lemma {:induction false} CoreRun(opts: ClientOpts, sv: Server, es: seq<SystemEvent>) returns (es': seq<Event>)
    ensures SystemRun(opts, sv, es).core == Run(opts, es')
  {
    if es == [] {
      es' := [];
    } else {
      es' := CoreRun(opts, sv, es[..|es| - 1]);
      var e := es[|es| - 1];
      if e.Local? && Honest(sv, SystemRun(opts, sv, es[..|es| - 1]).wire, e.local) {
        RunSnoc(opts, Start(), es', e.local);
        es' := es' + [e.local];
      }
    }
  }

  // ---- delivery ----

  /** An item that reached the server was queued. */
  lemma {:induction false} AtServerTaken(conns: seq<Conn>, it: Item)
    requires forall c <- conns :: ConnOk(c)
    requires it in Joined(conns, ArrivedOf())
    ensures it in Joined(conns, TakenOf())
  {
    var c := conns[|conns| - 1];
    assert c in conns && ConnOk(c);
    if it in c.sent[..c.arrived] {
      assert it in c.sent;
    } else {
      AtServerTaken(conns[..|conns| - 1], it);
    }
  }

  /** Call `w` is the only one under its sequence number. */
  ghost predicate Unshared(c: Core, w: CallId) {
    w < |c.calls| && forall v :: 0 <= v < |c.calls| && v != w ==> c.calls[v].seqNo != c.calls[w].seqNo
  }

  /** No heartbeat is acknowledged under `q`: heartbeats carry the number 0. */
  predicate NoBeatAcked(sv: Server, q: Seq) {
    sv == AcksPayloads || q != 0
  }

  /** The call's own payload reached the server. */
  predicate Delivered(s: System, w: CallId) {
    w < |s.core.calls| && exists it <- AtServer(s.wire) :: it.request == PayloadRequest(s.core.calls[w].first)
  }

  /** An acknowledged call whose sequence number no other call and no acknowledged heartbeat uses was
      received by the server. */
  lemma AckedMeansDelivered(opts: ClientOpts, sv: Server, es: seq<SystemEvent>, w: CallId)
    requires var s := SystemRun(opts, sv, es);
             Acked(w) in s.core.notes && Unshared(s.core, w) && NoBeatAcked(sv, s.core.calls[w].seqNo)
    ensures Delivered(SystemRun(opts, sv, es), w)
  {
    SystemInvRun(opts, sv, es);
    var s := SystemRun(opts, sv, es);
    var q := s.core.calls[w].seqNo;
    assert Ack(q) in s.core.arrivals;
    var it :| it in AtServer(s.wire) && Carries(sv, it, q);
    AtServerTaken(s.wire.conns, it);
    assert it in s.core.pushed;
    assert ItemOk(s.core.calls, it);
    assert it.request.PayloadRequest?;
    var v := it.origin.call;
    assert CallOk(opts, s.core.calls[v]);
  }

  /** Tickets keep `send` and `ask` apart; only a reply can share a `send`'s sequence number. */
  lemma SendUnshared(opts: ClientOpts, sv: Server, es: seq<SystemEvent>, w: CallId)
    requires var c := SystemRun(opts, sv, es).core;
             && c.issued <= TWO_64 && w < |c.calls| && c.calls[w].kind.SendCall?
             && (forall v :: 0 <= v < |c.calls| && c.calls[v].kind.ReplyCall? ==> c.calls[v].seqNo != c.calls[w].seqNo)
    ensures Unshared(SystemRun(opts, sv, es).core, w)
  {
    SystemInvRun(opts, sv, es);
    var c := SystemRun(opts, sv, es).core;
    forall v | 0 <= v < |c.calls| && v != w ensures c.calls[v].seqNo != c.calls[w].seqNo {
      if HasTicket(c.calls[v]) && c.calls[v].seqNo == c.calls[w].seqNo { TicketsDistinct(opts, c, v, w); }
    }
  }

  /** `send` with at-least-once delivery returns Ok only after the server received exactly the payload
      of its message under its sequence number, whatever was lost and however often the client
      reconnected, provided no `reply` and no acknowledged heartbeat uses the same sequence number. */
  lemma SendOkMeansReceived(opts: ClientOpts, sv: Server, es: seq<SystemEvent>, w: CallId)
    requires var c := SystemRun(opts, sv, es).core;
             && Acked(w) in c.notes && c.issued <= TWO_64
             && w < |c.calls| && c.calls[w].kind.SendCall? && NoBeatAcked(sv, c.calls[w].seqNo)
             && (forall v :: 0 <= v < |c.calls| && c.calls[v].kind.ReplyCall? ==> c.calls[v].seqNo != c.calls[w].seqNo)
    ensures var s := SystemRun(opts, sv, es);
            var call := s.core.calls[w];
            && call.original.Some?
            && exists it <- AtServer(s.wire) ::
                 it.request.PayloadRequest? && IsMessage(opts, call.original.value, call.seqNo, it.request.payload)
  {
    SystemInvRun(opts, sv, es);
    var c := SystemRun(opts, sv, es).core;
    SendUnshared(opts, sv, es, w);
    AckedMeansDelivered(opts, sv, es, w);
    assert CallOk(opts, c.calls[w]);
    PayloadByFields(opts, c.calls[w].original.value, c.calls[w].seqNo, c.calls[w].first);
  }

  /** A message that did not ask for delivery is on the wire at most once over the whole run, through
      any number of reconnects, timers, losses and cancellations. */
  lemma AtMostOnceOnWire(opts: ClientOpts, sv: Server, es: seq<SystemEvent>, w: CallId)
    requires var c := SystemRun(opts, sv, es).core;
             c.issued <= TWO_64 && w < |c.calls| && c.calls[w].qos == AtMostOnce
    ensures Count(Joined(SystemRun(opts, sv, es).wire.conns, SentOf()), IsCopy(w)) <= 1
  {
    SystemInvRun(opts, sv, es);
    var s := SystemRun(opts, sv, es);
    SentCount(s.wire, IsCopy(w));
    var es' := CoreRun(opts, sv, es);
    AtMostOnceQueued(opts, es', w);
  }

  /** Over the whole run the outbound path conserves what the actor pushed: each item is queued, held,
      buffered, sent or lost; what was sent is a subsequence of what was pushed; and each connection
      lost at most five items. */
  lemma OutboundConserved(opts: ClientOpts, sv: Server, es: seq<SystemEvent>)
    ensures var s := SystemRun(opts, sv, es);
            var conns := s.wire.conns;
            && multiset(s.core.pushed) ==
               multiset(s.wire.queue) + multiset(Joined(conns, HandOf())) + multiset(Joined(conns, BufferOf()))
               + multiset(Joined(conns, SentOf())) + multiset(Joined(conns, LostOf()))
            && Subsequence(Joined(conns, SentOf()), s.core.pushed)
            && (forall c <- conns :: |c.lost| <= 5)
            && |conns| == s.core.dials && |Joined(conns, LostOf())| <= 5 * s.core.dials
  {
    SystemInvRun(opts, sv, es);
    var s := SystemRun(opts, sv, es);
    EveryItemOnePlace(s.wire);
    var at := SentInOrder(s.wire);
    LossBounded(s.wire.conns);
  }
}
