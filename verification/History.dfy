/** What the events of a run make of its histories: which calls were begun and with what, what was posted
    and handled, and when the clients were there. Each is read off the events and the state they meet. */
module History {
  import opened Sequences
  import opened Messages
  import opened Actor
  import opened Protocol
  import opened Provenance
  import opened Attempts
  import opened Guarantees

  // ---- the calls ----

  /** The event begins a call: a client handle lives, and a reply is to something received. */
  function Begins(): (Core, Event) -> seq<ClientEvent> {
    (c: Core, e: Event) => match e
      case Client(BeginSend(_)) => if c.clientOpen then [e.client] else []
      case Client(BeginAsk(_)) => if c.clientOpen then [e.client] else []
      case Client(BeginReply(to, _, _)) => if c.clientOpen && ToClient(to) in c.notes then [e.client] else []
      case _ => []
  }

  /** `send` and `ask` draw a ticket. */
  function Draws(): ClientEvent -> bool {
    (b: ClientEvent) => b.BeginSend? || b.BeginAsk?
  }

  /** The call is the one that `b` began after `drawn` tickets. */
  predicate Fits(opts: ClientOpts, b: ClientEvent, drawn: nat, call: Call) {
    match b
    case BeginSend(msg) =>
      && call.kind == SendCall(drawn) && call.seqNo == drawn % 0x1_0000_0000_0000_0000
      && call.original == Some(msg) && call.qos == msg.qos && IsMessage(opts, msg, call.seqNo, call.first)
    case BeginAsk(msg) =>
      && call.kind == AskCall(drawn) && call.seqNo == drawn % 0x1_0000_0000_0000_0000
      && call.original == Some(msg) && call.qos == msg.qos && IsMessage(opts, msg, call.seqNo, call.first)
    case BeginReply(to, data, qos) =>
      && call.kind == ReplyCall && call.seqNo == to.seqNo && call.qos == qos && IsReply(opts, to, data, call.first)
      && (call.original.Some? <==> 0 <= to.from.entityType <= 3)
      && (call.original.Some? ==> KeptReply(to, data, qos, call.original.value))
    case _ => false
  }

  /** The message kept for retransmitting a reply. */
  predicate KeptReply(to: Received, data: Bytes, qos: QoS, msg: SendMessage) {
    && msg.targetId == to.from.id && msg.targetSpace == to.from.space && Numbered(msg.targetType, to.from.entityType)
    && msg.data == data && msg.qos == qos
  }

  ghost predicate Begun(opts: ClientOpts, c: Core, bs: seq<ClientEvent>) {
    && c.issued == Count(bs, Draws()) && |c.calls| == |bs|
    && forall w :: 0 <= w < |bs| ==> Fits(opts, bs[w], Count(bs[..w], Draws()), c.calls[w])
  }

  lemma BegunSame(opts: ClientOpts, c: Core, c': Core, bs: seq<ClientEvent>)
    requires Begun(opts, c, bs) && c'.issued == c.issued
    requires |c'.calls| == |c.calls| && Extends(c.calls, c'.calls)
    ensures Begun(opts, c', bs + [])
  {
    assert bs + [] == bs;
    forall w | 0 <= w < |bs| ensures Fits(opts, bs[w], Count(bs[..w], Draws()), c'.calls[w]) {
      assert Advanced(c.calls[w], c'.calls[w]);
    }
  }

  lemma BegunMore(opts: ClientOpts, c: Core, bs: seq<ClientEvent>, b: ClientEvent, call: Call)
    requires Begun(opts, c, bs) && Fits(opts, b, c.issued, call)
    ensures Begun(opts, WithCall(c, call).(issued := c.issued + if Draws()(b) then 1 else 0), bs + [b])
  {
    var c', bs' := WithCall(c, call), bs + [b];
    CountSnoc(bs, b, Draws());
    forall w | 0 <= w < |bs'| ensures Fits(opts, bs'[w], Count(bs'[..w], Draws()), c'.calls[w]) {
      assert bs'[..w] == bs[..w];
      assert w == |bs| ==> bs[..w] == bs;
    }
  }

  lemma BegunClient(opts: ClientOpts, c: Core, bs: seq<ClientEvent>, e: ClientEvent)
    requires Traced(opts, c) && Begun(opts, c, bs)
    ensures Begun(opts, ClientStep(opts, c, e), bs + Begins()(c, Client(e)))
  {
    if Begins()(c, Client(e)) != [] {
      NewFits(opts, c.issued, e);
      BegunMore(opts, c, bs, e, NewCall(opts, c.issued, e));
    } else {
      TracedClient(opts, c, e);
      BegunSame(opts, c, ClientStep(opts, c, e), bs);
    }
  }

  function NewCall(opts: ClientOpts, issued: nat, e: ClientEvent): Call
    requires e.BeginSend? || e.BeginAsk? || e.BeginReply?
  {
    match e
    case BeginSend(msg) => NewSend(opts, issued, msg)
    case BeginAsk(msg) => NewAsk(opts, issued, msg)
    case BeginReply(to, data, qos) => NewReply(opts, to, data, qos)
  }

  lemma NewFits(opts: ClientOpts, issued: nat, e: ClientEvent)
    requires e.BeginSend? || e.BeginAsk? || e.BeginReply?
    ensures Fits(opts, e, issued, NewCall(opts, issued, e))
  {
    match e
    case BeginReply(to, data, qos) => ReplyCopiesAgree(opts, to, data, qos);
    case _ =>
  }

  lemma BegunStep(opts: ClientOpts, c: Core, bs: seq<ClientEvent>, e: Event)
    requires Traced(opts, c) && Begun(opts, c, bs)
    ensures Begun(opts, Step(opts, c, e), bs + Begins()(c, e))
  {
    match e
    case Client(e) => BegunClient(opts, c, bs, e);
    case Wake(i) =>
      TimerFrame(c, i);
      BegunSame(opts, c, TimerStep(c, i), bs);
    case Task(e) =>
      ActorKeepsTickets(opts, c, e);
      ActorKeepsCalls(opts, c, e);
      BegunSame(opts, c, ActorStep(opts, c, e), bs);
  }

  /** The calls of a run are those begun, in order, each with what it was begun with: the tickets of
      `send` and `ask` count up and wrap around as sequence numbers, a reply has its message's number. */
  lemma {:induction false} CallsBegun(opts: ClientOpts, es: seq<Event>)
    ensures Begun(opts, Run(opts, es), Collected(opts, es, Begins()))
  {
    if es != [] {
      var before := es[..|es| - 1];
      CallsBegun(opts, before);
      InvRun(opts, before);
      BegunStep(opts, Run(opts, before), Collected(opts, before, Begins()), es[|es| - 1]);
    }
  }

  // ---- the mailbox ----

  /** What an event posts. Nothing is posted once the actor has ended. */
  function PostedBy(c: Core, e: Event): seq<Msg> {
    if c.phase.Over? then [] else
    match e
    case Client(PostSend(w)) =>
      if c.clientOpen && w < |c.calls| && c.calls[w].stage == Fresh then
        [Send(PayloadRequest(c.calls[w].first), w)]
      else []
    case Client(PostWait(w)) =>
      if c.clientOpen && w < |c.calls| && c.calls[w].stage == Sent && c.calls[w].original.Some? then
        match c.calls[w].kind
        case AskCall(_) => [WaitForReply(c.calls[w].original.value, c.calls[w].seqNo, w)]
        case _ => [WaitForAck(c.calls[w].original.value, c.calls[w].seqNo, w)]
      else []
    case Client(PostStop) => if c.clientOpen then [Stop] else []
    case Client(PostReconnect) => if c.clientOpen then [Reconnect] else []
    case Wake(i) => if i < |c.sleeping| then [c.sleeping[i]] else []
    case Task(HandshakeItem(Some(resp))) =>
      if c.phase.Handshaking? && !resp.ConnectResponse? then [RelayResponse(resp)] else []
    case Task(StreamItem(Some(resp))) => if c.phase == Live(false) && c.box == [] then [RelayResponse(resp)] else []
    case _ => []
  }

  /** What the actor takes: the head of the mailbox, or, with an empty one, what it reads. */
  function TakenBy(c: Core, e: Event): seq<Msg> {
    if !c.phase.Live? then [] else
    match e
    case Task(Take) => if c.box != [] then [c.box[0]] else []
    case Task(StreamItem(Some(resp))) => if c.phase == Live(false) && c.box == [] then [RelayResponse(resp)] else []
    case _ => []
  }

  function Posts(): (Core, Event) -> seq<Msg> { (c: Core, e: Event) => PostedBy(c, e) }
  function Takes(): (Core, Event) -> seq<Msg> { (c: Core, e: Event) => TakenBy(c, e) }

  lemma ProcessedLogs(opts: ClientOpts, c: Core, m: Msg)
    ensures var c' := Processed(opts, c, m);
            c'.posted == c.posted && c'.handled == c.handled + [m] && c'.clientOpen == c.clientOpen
  {
  }

  lemma OtherLogs(opts: ClientOpts, c: Core, e: ActorEvent)
    requires !e.Take? && !e.StreamItem?
    ensures var c' := ActorStep(opts, c, e);
            && c'.posted == c.posted + PostedBy(c, Task(e)) && c'.handled == c.handled
            && c'.clientOpen == c.clientOpen
  {
    assert c.posted + [] == c.posted;
  }

  lemma ActorLogs(opts: ClientOpts, c: Core, e: ActorEvent)
    ensures var c' := ActorStep(opts, c, e);
            && c'.posted == c.posted + PostedBy(c, Task(e)) && c'.handled == c.handled + TakenBy(c, Task(e))
            && c'.clientOpen == c.clientOpen
  {
    assert c.posted + [] == c.posted && c.handled + [] == c.handled;
    match e
    case Take => if c.phase.Live? && c.box != [] { ProcessedLogs(opts, Popped(c), c.box[0]); }
    case StreamItem(resp) =>
      if c.phase == Live(false) && c.box == [] && resp.Some? {
        var m := RelayResponse(resp.value);
        ProcessedLogs(opts, Popped(Posted(Arrived(c, resp.value), m)), m);
      }
    case _ => OtherLogs(opts, c, e);
  }

  lemma StepLogs(opts: ClientOpts, c: Core, e: Event)
    ensures var c' := Step(opts, c, e);
            && c'.posted == c.posted + PostedBy(c, e) && c'.handled == c.handled + TakenBy(c, e)
            && (c'.clientOpen <==> c.clientOpen && e != Client(DropClients))
  {
    assert c.posted + [] == c.posted && c.handled + [] == c.handled;
    match e
    case Client(e) => ClientFrame(opts, c, e); ClientLogs(opts, c, e);
    case Wake(i) => TimerFrame(c, i);
    case Task(e) => ActorLogs(opts, c, e);
  }

  lemma ClientLogs(opts: ClientOpts, c: Core, e: ClientEvent)
    ensures var c' := ClientStep(opts, c, e);
            && c'.posted == c.posted + PostedBy(c, Client(e))
            && (c'.clientOpen <==> c.clientOpen && e != DropClients)
  {
    assert c.posted + [] == c.posted;
  }

  /** The histories are `posted` and `handled`, and some client handle lives or not. */
  predicate Logged(c: Core, posted: seq<Msg>, handled: seq<Msg>, open: bool) {
    c.posted == posted && c.handled == handled && c.clientOpen == open
  }

  lemma LoggedStep(opts: ClientOpts, c: Core, e: Event, posted: seq<Msg>, handled: seq<Msg>, open: bool)
    requires Logged(c, posted, handled, open)
    ensures Logged(Step(opts, c, e), posted + PostedBy(c, e), handled + TakenBy(c, e),
                   open && e != Client(DropClients))
  {
    StepLogs(opts, c, e);
  }

  lemma {:induction false} LoggedRun(opts: ClientOpts, es: seq<Event>)
    ensures Logged(Run(opts, es), Collected(opts, es, Posts()), Collected(opts, es, Takes()),
                   Client(DropClients) !in es)
  {
    if es != [] {
      var before, e := es[..|es| - 1], es[|es| - 1];
      LoggedRun(opts, before);
      LoggedStep(opts, Run(opts, before), e, Collected(opts, before, Posts()), Collected(opts, before, Takes()),
                 Client(DropClients) !in before);
      assert es == before + [e];
    }
  }

  /** The mailbox of a run is what was posted, less what was taken, in order; posting fails once `run` has
      returned; and the clients are there until the last handle is dropped. */
  lemma MailboxIs(opts: ClientOpts, es: seq<Event>)
    ensures var c := Run(opts, es);
            && c.posted == Collected(opts, es, Posts()) && c.handled == Collected(opts, es, Takes())
            && c.posted == c.handled + c.box
            && (c.clientOpen <==> Client(DropClients) !in es)
  {
    InvRun(opts, es);
    LoggedRun(opts, es);
  }
}
