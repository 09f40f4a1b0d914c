/** The client as a state machine: concurrent callers, the mailbox, sleeping timers, the actor, and
    the loop that connects, serves a connection and reconnects.

    `Step` is total: an event that the current state does not allow changes nothing. A run is a
    sequence of events, so a theorem about every run is a theorem about every interleaving of sends,
    timers, responses, failures, reconnects and stops. */
module Protocol {
  import opened Amounts
  import opened Sequences
  import opened Messages
  import opened Actor

  /** `send` and `ask` draw a ticket from the shared counter; `reply` does not. */
  datatype Kind = SendCall(ticket: nat) | AskCall(ticket: nat) | ReplyCall

  /** How far the caller's code has got: before its `Send` is posted, before its wait is posted,
      waiting on its channel, or returned. */
  datatype Stage = Fresh | Sent | Waiting | Returned(ok: bool)

  /** One call. `original` is missing only for a reply whose peer has an unknown entity type. */
  datatype Call = Call(
    kind: Kind,
    original: Option<SendMessage>,
    qos: QoS,
    first: RelayPayload,
    seqNo: Seq,
    stage: Stage)

  predicate NeedsWait(call: Call) {
    call.kind.AskCall? || call.qos == AtLeastOnce
  }

  datatype Phase =
    | Dialing                // no stream; also the backoff before the next attempt
    | Handshaking            // stream open, no `ConnectResponse` yet
    | Live(ended: bool)      // `connect` returned Ok, possibly with a stream that already ended
    | Over(ok: bool)         // `run` returned

  datatype Core = Core(
    calls: seq<Call>,
    issued: nat,               // tickets drawn from the counter
    clientOpen: bool,          // some client handle is alive
    box: seq<Msg>,             // the mailbox
    sleeping: seq<Msg>,        // timers that have not fired
    st: State,
    phase: Phase,
    attempts: nat,             // `conn_attempts`
    // histories
    pushed: seq<Item>,         // everything sent on the outbound queue
    notes: seq<Note>,
    posted: seq<Msg>,          // every message in the order the actor takes them
    handled: seq<Msg>,         // those it has taken
    arrivals: seq<Response>,   // responses read from streams, except those `connect` consumed
    dials: nat,                // streams opened
    cuts: nat,                 // errors that ended `main_loop`
    failures: nat)             // those that were neither Stop nor Reconnect

  function Start(): Core {
    Core([], 0, true, [], [], IDLE, Dialing, 1, [], [], [], [], [], 0, 0, 0)
  }

  // ---- building blocks of the steps ----

  function WithCall(c: Core, call: Call): Core {
    c.(calls := c.calls + [call])
  }

  function AtStage(c: Core, w: CallId, stage: Stage): Core
    requires w < |c.calls|
  {
    c.(calls := c.calls[w := c.calls[w].(stage := stage)])
  }

  function Posted(c: Core, m: Msg): Core {
    c.(box := c.box + [m], posted := c.posted + [m])
  }

  function Popped(c: Core): Core
    requires c.box != []
  {
    c.(box := c.box[1..])
  }

  function Woken(c: Core, i: nat): Core
    requires i < |c.sleeping|
  {
    c.(sleeping := c.sleeping[..i] + c.sleeping[i + 1..])
  }

  function Waiters(st: State): set<CallId> {
    (set q <- st.pendingAcks :: st.pendingAcks[q].waiter)
    + (set k <- st.pendingReplies :: st.pendingReplies[k].waiter)
  }

  /** `run` returns: the pending maps are dropped, and with them the waiters' channels. */
  function Finished(c: Core, ok: bool): Core {
    c.(phase := Over(ok),
       st := State(map[], map[], c.st.heartbeatStarted),
       notes := c.notes + [Shutdown(Waiters(c.st))])
  }

  /** `main_loop` returned an error. */
  function Cut(opts: ClientOpts, c: Core, status: Status): Core
    requires status != Continue
  {
    var c := c.(cuts := c.cuts + 1);
    match status
    case StopRequest => Finished(c, true)
    case ReconnectRequest => c.(phase := Dialing)
    case OtherError =>
      var c := c.(failures := c.failures + 1);
      if opts.maxConnectionAttempts.AtMost(c.attempts) then Finished(c, false)
      else c.(attempts := c.attempts + 1, phase := Dialing)
  }

  /** The actor applies `OnMsg` to one message. */
  function Applied(c: Core, m: Msg, o: Outcome): Core {
    c.(st := o.st,
       pushed := c.pushed + o.pushes,
       sleeping := c.sleeping + o.timers,
       notes := c.notes + o.notes,
       handled := c.handled + [m])
  }

  function Processed(opts: ClientOpts, c: Core, m: Msg): Core {
    var o := OnMsg(opts, c.st, c.clientOpen, m);
    Settled(opts, Applied(c, m, o), o.status)
  }

  function Settled(opts: ClientOpts, c: Core, status: Status): Core {
    if status == Continue then c else Cut(opts, c, status)
  }

  /** `connect` returned Ok; the first time, the heartbeat timer starts. */
  function WentLive(c: Core, ended: bool): Core {
    c.(phase := Live(ended),
       st := c.st.(heartbeatStarted := true),
       sleeping := if c.st.heartbeatStarted then c.sleeping else c.sleeping + [Heartbeat])
  }

  function Arrived(c: Core, resp: Response): Core {
    c.(arrivals := c.arrivals + [resp])
  }

  function Dialed(opts: ClientOpts, c: Core, token: string): Core {
    c.(pushed := c.pushed + [Item(ConnectRequest(Self(opts), token), Hello)],
       dials := c.dials + 1,
       phase := Handshaking)
  }

  // ---- the callers ----

  datatype ClientEvent =
    | BeginSend(msg: SendMessage)
    | BeginAsk(msg: SendMessage)
    | BeginReply(to: Received, data: Bytes, qos: QoS)
    | PostSend(call: CallId)
    | PostWait(call: CallId)
    | PostStop
    | PostReconnect
    | DropClients

  function Ticket(issued: nat): Seq {
    issued % TWO_64
  }

  function NewSend(opts: ClientOpts, issued: nat, msg: SendMessage): Call {
    Call(SendCall(issued), Some(msg), msg.qos, PayloadOf(opts, msg, Ticket(issued)), Ticket(issued), Fresh)
  }

  function NewAsk(opts: ClientOpts, issued: nat, msg: SendMessage): Call {
    Call(AskCall(issued), Some(msg), msg.qos, PayloadOf(opts, msg, Ticket(issued)), Ticket(issued), Fresh)
  }

  function NewReply(opts: ClientOpts, to: Received, data: Bytes, qos: QoS): Call {
    Call(ReplyCall, ReplyMessage(to, data, qos), qos, ReplyPayload(opts, to, data), to.seqNo, Fresh)
  }

  /** Where a caller stands once its `Send` is in the mailbox. */
  function AfterSend(call: Call): Stage {
    if !NeedsWait(call) then Returned(true)
    else if call.original.None? then Returned(false)
    else Sent
  }

  function WaitMsg(call: Call, w: CallId): Msg
    requires call.original.Some?
  {
    if call.kind.AskCall? then WaitForReply(call.original.value, call.seqNo, w)
    else WaitForAck(call.original.value, call.seqNo, w)
  }

  function ClientStep(opts: ClientOpts, c: Core, e: ClientEvent): Core {
    if !c.clientOpen then c else
    match e
    case BeginSend(msg) => WithCall(c, NewSend(opts, c.issued, msg)).(issued := c.issued + 1)
    case BeginAsk(msg) => WithCall(c, NewAsk(opts, c.issued, msg)).(issued := c.issued + 1)
    case BeginReply(to, data, qos) =>
      if ToClient(to) in c.notes then WithCall(c, NewReply(opts, to, data, qos)) else c
    case PostSend(w) =>
      if w >= |c.calls| || c.calls[w].stage != Fresh then c
      else if c.phase.Over? then AtStage(c, w, Returned(false))
      else Posted(AtStage(c, w, AfterSend(c.calls[w])), Send(PayloadRequest(c.calls[w].first), w))
    case PostWait(w) =>
      if w >= |c.calls| || c.calls[w].stage != Sent || c.calls[w].original.None? then c
      else if c.phase.Over? then AtStage(c, w, Returned(false))
      else Posted(AtStage(c, w, Waiting), WaitMsg(c.calls[w], w))
    case PostStop => if c.phase.Over? then c else Posted(c, Stop)
    case PostReconnect => if c.phase.Over? then c else Posted(c, Reconnect)
    case DropClients => c.(clientOpen := false)
  }

  // ---- the actor task ----

  datatype ActorEvent =
    | Dial(token: string)                       // transport up: queue `ConnectRequest`, open the stream
    | DialFails
    | HandshakeItem(resp: Option<Response>)     // `connect` reads a response; None is an empty envelope
    | HandshakeEnds                             // the stream ends before any `ConnectResponse`
    | HandshakeFails                            // stream error or connection timeout
    | Take                                      // the select takes the head of the mailbox
    | StreamItem(resp: Option<Response>)        // the select takes a response: the mailbox is empty
    | StreamFails                               // the same, but the stream ended or broke

  /** `connect` reads one response. */
  function Handshook(opts: ClientOpts, c: Core, resp: Response): Core {
    if resp == ConnectResponse(true) then WentLive(c, false)
    else if resp == ConnectResponse(false) then Cut(opts, c, OtherError)
    else Posted(Arrived(c, resp), RelayResponse(resp))
  }

  function ActorStep(opts: ClientOpts, c: Core, e: ActorEvent): Core {
    match e
    case Dial(token) => if c.phase.Dialing? then Dialed(opts, c, token) else c
    case DialFails => if c.phase.Dialing? then Cut(opts, c, OtherError) else c
    case HandshakeItem(resp) => if c.phase.Handshaking? && resp.Some? then Handshook(opts, c, resp.value) else c
    case HandshakeEnds => if c.phase.Handshaking? then WentLive(c, true) else c
    case HandshakeFails => if c.phase.Handshaking? then Cut(opts, c, OtherError) else c
    case Take =>
      if c.phase.Live? && c.box != [] then Processed(opts, Popped(c), c.box[0]) else c
    case StreamItem(resp) =>
      if c.phase != Live(false) || c.box != [] || resp.None? then c
      else
        var m := RelayResponse(resp.value);
        Processed(opts, Popped(Posted(Arrived(c, resp.value), m)), m)
    case StreamFails => if c.phase.Live? && c.box == [] then Cut(opts, c, OtherError) else c
  }

  // ---- everything ----

  datatype Event =
    | Client(client: ClientEvent)
    | Task(actor: ActorEvent)
    | Wake(i: nat)                              // a timer fires; after the actor ended its send fails

  function TimerStep(c: Core, i: nat): Core {
    if i >= |c.sleeping| then c
    else if c.phase.Over? then Woken(c, i)
    else Posted(Woken(c, i), c.sleeping[i])
  }

  function Step(opts: ClientOpts, c: Core, e: Event): Core {
    match e
    case Client(e) => ClientStep(opts, c, e)
    case Task(e) => ActorStep(opts, c, e)
    case Wake(i) => TimerStep(c, i)
  }

  /** The callers touch their own calls, the counter and the mailbox. */
  lemma ClientFrame(opts: ClientOpts, c: Core, e: ClientEvent)
    ensures var c' := ClientStep(opts, c, e);
            c' == c.(calls := c'.calls, issued := c'.issued, clientOpen := c'.clientOpen,
                     box := c'.box, posted := c'.posted)
  {
  }

  lemma TimerFrame(c: Core, i: nat)
    ensures TimerStep(c, i) == c.(sleeping := TimerStep(c, i).sleeping,
                                  box := TimerStep(c, i).box, posted := TimerStep(c, i).posted)
  {
  }

  function RunFrom(opts: ClientOpts, c: Core, es: seq<Event>): Core {
    if es == [] then c else Step(opts, RunFrom(opts, c, es[..|es| - 1]), es[|es| - 1])
  }

  function Run(opts: ClientOpts, es: seq<Event>): Core {
    RunFrom(opts, Start(), es)
  }

  /** What `f` finds in the events of a run, each seen in the state it meets. */
  function Collected<T>(opts: ClientOpts, es: seq<Event>, f: (Core, Event) -> seq<T>): seq<T> {
    if es == [] then []
    else
      var before := es[..|es| - 1];
      Collected(opts, before, f) + f(Run(opts, before), es[|es| - 1])
  }

  lemma {:induction false} RunConcat(opts: ClientOpts, c: Core, es: seq<Event>, es': seq<Event>)
    ensures RunFrom(opts, c, es + es') == RunFrom(opts, RunFrom(opts, c, es), es')
  {
    if es' == [] {
      assert es + es' == es;
    } else {
      assert (es + es')[..|es + es'| - 1] == es + es'[..|es'| - 1];
      RunConcat(opts, c, es, es'[..|es'| - 1]);
    }
  }

  lemma RunSnoc(opts: ClientOpts, c: Core, es: seq<Event>, e: Event)
    ensures RunFrom(opts, c, es + [e]) == Step(opts, RunFrom(opts, c, es), e)
  {
    assert (es + [e])[..|es|] == es;
  }
}
