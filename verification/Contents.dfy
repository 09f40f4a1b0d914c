/** What the requests on the outbound queue say, by their fields. */
module Contents {
  import opened Sequences
  import opened Messages
  import opened Actor
  import opened Protocol
  import opened Provenance
  import opened Mailbox
  import opened Guarantees
  import opened History

  /** The tokens of the dials that opened a stream. */
  function Dials(): (Core, Event) -> seq<string> {
    (c: Core, e: Event) => match e
      case Task(Dial(token)) => if c.phase.Dialing? then [token] else []
      case _ => []
  }

  function AsToken(): Item -> Option<string> {
    (it: Item) => if it.request.ConnectRequest? then Some(it.request.token) else None
  }

  ghost predicate Greets(opts: ClientOpts, c: Core, tokens: seq<string>) {
    && Pick(c.pushed, AsToken()) == tokens
    && forall it <- c.pushed | it.request.ConnectRequest? :: it.origin == Hello && IsSelf(opts, it.request.clientId)
  }

  /** No message that the actor handles makes a connection request. */
  lemma OutcomeGreetsNobody(opts: ClientOpts, calls: seq<Call>, st: State, clientOpen: bool, m: Msg)
    requires MsgOk(calls, m)
    ensures forall it <- OnMsg(opts, st, clientOpen, m).pushes :: !it.request.ConnectRequest?
    ensures Pick(OnMsg(opts, st, clientOpen, m).pushes, AsToken()) == []
  {
    var pushes := OnMsg(opts, st, clientOpen, m).pushes;
    if pushes != [] { PickOne(pushes[0], AsToken()); }
  }

  lemma GreetsProcessed(opts: ClientOpts, c: Core, m: Msg, tokens: seq<string>)
    requires MsgOk(c.calls, m) && Greets(opts, c, tokens)
    ensures Greets(opts, Processed(opts, c, m), tokens)
  {
    var pushes := OnMsg(opts, c.st, c.clientOpen, m).pushes;
    OutcomeGreetsNobody(opts, c.calls, c.st, c.clientOpen, m);
    ProcessedPushes(opts, c, m);
    PickConcat(c.pushed, pushes, AsToken());
  }

  lemma GreetsActor(opts: ClientOpts, c: Core, e: ActorEvent, tokens: seq<string>)
    requires Traced(opts, c) && Greets(opts, c, tokens)
    ensures Greets(opts, ActorStep(opts, c, e), tokens + Dials()(c, Task(e)))
  {
    assert tokens + [] == tokens;
    match e
    case Take => if c.phase.Live? && c.box != [] { GreetsProcessed(opts, Popped(c), c.box[0], tokens); }
    case StreamItem(resp) =>
      if c.phase == Live(false) && c.box == [] && resp.Some? {
        var m := RelayResponse(resp.value);
        GreetsProcessed(opts, Popped(Posted(Arrived(c, resp.value), m)), m, tokens);
      }
    case _ => GreetsOther(opts, c, e, tokens);
  }

  lemma GreetsOther(opts: ClientOpts, c: Core, e: ActorEvent, tokens: seq<string>)
    requires Greets(opts, c, tokens) && !e.Take? && !e.StreamItem?
    ensures Greets(opts, ActorStep(opts, c, e), tokens + Dials()(c, Task(e)))
  {
    if e.Dial? && c.phase.Dialing? {
      GreetsDialed(opts, c, e.token, tokens);
    } else {
      assert ActorStep(opts, c, e).pushed == c.pushed && tokens + [] == tokens;
    }
  }

  lemma GreetsDialed(opts: ClientOpts, c: Core, token: string, tokens: seq<string>)
    requires Greets(opts, c, tokens)
    ensures Greets(opts, Dialed(opts, c, token), tokens + [token])
  {
    PickSnoc(c.pushed, Item(ConnectRequest(Self(opts), token), Hello), AsToken());
  }

  lemma GreetsStep(opts: ClientOpts, c: Core, e: Event, tokens: seq<string>)
    requires Traced(opts, c) && Greets(opts, c, tokens)
    ensures Greets(opts, Step(opts, c, e), tokens + Dials()(c, e))
  {
    assert tokens + [] == tokens;
    match e
    case Client(e) => ClientFrame(opts, c, e);
    case Wake(i) => TimerFrame(c, i);
    case Task(e) => GreetsActor(opts, c, e, tokens);
  }

  /** The connection requests of a run are one per stream opened, in order, each from the client itself
      and with the token of its dial. */
  lemma {:induction false} HellosSay(opts: ClientOpts, es: seq<Event>)
    ensures Greets(opts, Run(opts, es), Collected(opts, es, Dials()))
  {
    if es != [] {
      var before := es[..|es| - 1];
      HellosSay(opts, before);
      InvRun(opts, before);
      GreetsStep(opts, Run(opts, before), es[|es| - 1], Collected(opts, before, Dials()));
    }
  }

  function IsPulse(): Item -> bool {
    (it: Item) => it.origin == Beat
  }

  lemma OutcomePulse(opts: ClientOpts, st: State, clientOpen: bool, m: Msg)
    ensures Count(OnMsg(opts, st, clientOpen, m).pushes, IsPulse()) == if m == Heartbeat then 1 else 0
  {
    var pushes := OnMsg(opts, st, clientOpen, m).pushes;
    if pushes != [] { CountOne(pushes[0], IsPulse()); }
  }

  lemma PulseProcessed(opts: ClientOpts, c: Core, m: Msg)
    ensures var c' := Processed(opts, c, m);
            && Count(c'.pushed, IsPulse()) == Count(c.pushed, IsPulse()) + (if m == Heartbeat then 1 else 0)
            && Count(c'.handled, IsBeat()) == Count(c.handled, IsBeat()) + (if m == Heartbeat then 1 else 0)
  {
    OutcomePulse(opts, c.st, c.clientOpen, m);
    ProcessedPushes(opts, c, m);
    ProcessedLogs(opts, c, m);
    CountConcat(c.pushed, OnMsg(opts, c.st, c.clientOpen, m).pushes, IsPulse());
    CountSnoc(c.handled, m, IsBeat());
  }

  lemma PulseOther(opts: ClientOpts, c: Core, e: ActorEvent)
    requires !e.Take? && !e.StreamItem?
    ensures var c' := ActorStep(opts, c, e);
            Count(c'.pushed, IsPulse()) == Count(c.pushed, IsPulse()) && c'.handled == c.handled
  {
    OtherLogs(opts, c, e);
    if e.Dial? { CountSnoc(c.pushed, Item(ConnectRequest(Self(opts), e.token), Hello), IsPulse()); }
  }

  lemma PulseStep(opts: ClientOpts, c: Core, e: Event)
    requires Count(c.pushed, IsPulse()) == Count(c.handled, IsBeat())
    ensures var c' := Step(opts, c, e); Count(c'.pushed, IsPulse()) == Count(c'.handled, IsBeat())
  {
    match e
    case Client(e) => ClientFrame(opts, c, e);
    case Wake(i) => TimerFrame(c, i);
    case Task(e) =>
      match e
      case Take => if c.phase.Live? && c.box != [] { PulseProcessed(opts, Popped(c), c.box[0]); }
      case StreamItem(resp) =>
        if c.phase == Live(false) && c.box == [] && resp.Some? {
          var m := RelayResponse(resp.value);
          PulseProcessed(opts, Popped(Posted(Arrived(c, resp.value), m)), m);
        }
      case _ => PulseOther(opts, c, e);
  }

  /** In every run each heartbeat that the actor takes pushes exactly one heartbeat request. */
  lemma HeartbeatsSent(opts: ClientOpts, es: seq<Event>)
    ensures var c := Run(opts, es);
            Count(c.pushed, IsPulse()) == Count(c.handled, IsBeat())
            && forall it <- c.pushed :: it.origin == Beat <==> it.request == HeartbeatRequest(0)
  {
    PulseRun(opts, es);
    forall it <- Run(opts, es).pushed ensures it.origin == Beat <==> it.request == HeartbeatRequest(0) {
      InvRun(opts, es);
      assert ItemOk(Run(opts, es).calls, it);
    }
  }

  lemma {:induction false} PulseRun(opts: ClientOpts, es: seq<Event>)
    ensures Count(Run(opts, es).pushed, IsPulse()) == Count(Run(opts, es).handled, IsBeat())
  {
    if es != [] {
      PulseRun(opts, es[..|es| - 1]);
      PulseStep(opts, Run(opts, es[..|es| - 1]), es[|es| - 1]);
    }
  }

  /** The payload says what the call was begun with. */
  predicate Says(opts: ClientOpts, b: ClientEvent, q: Seq, p: RelayPayload) {
    match b
    case BeginSend(msg) => IsMessage(opts, msg, q, p)
    case BeginAsk(msg) => IsMessage(opts, msg, q, p)
    case BeginReply(to, data, _) => IsReply(opts, to, data, p)
    case _ => false
  }

  /** Every request a run ever queues, by its fields: a first copy or a retransmission is from the client
      itself, to the entity and with the bytes its caller gave, under the call's number; a heartbeat has
      the number 0; anything else is a connection request of the client itself. */
  lemma RequestsSay(opts: ClientOpts, es: seq<Event>, it: Item)
    requires it in Run(opts, es).pushed
    ensures var c, bs := Run(opts, es), Collected(opts, es, Begins());
            match it.request
            case PayloadRequest(p) =>
              && (it.origin.First? || it.origin.Again?) && it.origin.call < |c.calls| == |bs|
              && Says(opts, bs[it.origin.call], c.calls[it.origin.call].seqNo, p)
            case HeartbeatRequest(n) => it.origin == Beat && n == 0
            case ConnectRequest(entity, _) => it.origin == Hello && IsSelf(opts, entity)
  {
    InvRun(opts, es);
    CallsBegun(opts, es);
    HellosSay(opts, es);
    var c := Run(opts, es);
    assert ItemOk(c.calls, it);
    if it.request.PayloadRequest? {
      assert Fits(opts, Collected(opts, es, Begins())[it.origin.call],
                  Count(Collected(opts, es, Begins())[..it.origin.call], Draws()), c.calls[it.origin.call]);
    }
  }
}
