/** The relay actor: what one mailbox message does to its state and its channels.

    The functions `OnAck`, `OnPayload` and `OnMsg` specify the class `RelayActor`, which updates its
    fields in place as the program does. Every call of `send`, `ask` or `reply` has a `CallId`; the
    one-shot channel on which a caller waits is named by its call. A retry timer carries the call
    that started its chain. Both are bookkeeping: no branch reads them. */
module Actor {
  import opened Amounts
  import opened Sequences
  import opened Messages

  type CallId = nat

  /** The mailbox messages. */
  datatype Msg =
    | RelayResponse(resp: Response)
    | Send(request: Request, call: CallId)
    | WaitForAck(original: SendMessage, seqNo: Seq, call: CallId)
    | WaitForReply(original: SendMessage, seqNo: Seq, call: CallId)
    | RetryAck(seqNo: Seq, left: Amount, chain: CallId)
    | RetryAsk(from: ClientId, seqNo: Seq, left: Amount, chain: CallId)
    | Stop
    | Heartbeat
    | Reconnect

  /** Why an item is on the outbound queue. */
  datatype Origin =
    | First(call: CallId)                   // the `Send` of a call
    | Again(call: CallId, chain: CallId)    // a retransmission of a call's message, by a timer chain
    | Beat                                  // a heartbeat
    | Hello                                 // the first request of a connection

  datatype Item = Item(request: Request, origin: Origin)

  /** The message to retransmit and the channel of the caller that waits. */
  datatype Entry = Entry(msg: SendMessage, waiter: CallId)

  datatype State = State(
    pendingAcks: map<Seq, Entry>,
    pendingReplies: map<(ClientId, Seq), Entry>,
    heartbeatStarted: bool)

  const IDLE := State(map[], map[], false)

  /** What the actor tells its callers, in order. */
  datatype Note =
    | Acked(call: CallId)                        // the waiter got its ack
    | Replied(call: CallId, reply: Received)     // the waiter got its reply
    | Dropped(call: CallId)                      // the waiter's channel closed: its entry was overwritten
    | Shutdown(calls: set<CallId>)               // the waiters' channels closed: the actor ended
    | ToClient(got: Received)                    // an unsolicited payload for `recv`
    | Undelivered(got: Received)                 // the same, with every client handle gone
    | GaveUp(chain: CallId)                      // a timer chain found its attempts exhausted

  datatype Status = Continue | StopRequest | ReconnectRequest | OtherError

  /** The result of one message: the next state, at most one push, timer and note, and how the
      receive loop goes on. */
  datatype Outcome =
    Outcome(st: State, pushes: seq<Item>, timers: seq<Msg>, notes: seq<Note>, status: Status)

  function Quiet(st: State): Outcome {
    Outcome(st, [], [], [], Continue)
  }

  /** The payload a response carries for the client, when its source and body are present. */
  function PayloadIn(resp: Response): Option<Received> {
    match resp
    case Payload(RelayPayload(Some(src), _, seqNo, Some(any))) => Some(Received(src, any.value, seqNo))
    case _ => None
  }

  /** The payload a note routes. */
  function RoutedBy(n: Note): Option<Received> {
    match n
    case Replied(_, got) => Some(got)
    case ToClient(got) => Some(got)
    case Undelivered(got) => Some(got)
    case _ => None
  }

  function OnAck(st: State, seqNo: Seq): Outcome {
    if seqNo in st.pendingAcks then
      Quiet(st.(pendingAcks := st.pendingAcks - {seqNo})).(notes := [Acked(st.pendingAcks[seqNo].waiter)])
    else
      Quiet(st)
  }

  function OnPayload(st: State, got: Received, clientOpen: bool): Outcome {
    var key := (got.from.id, got.seqNo);
    if key in st.pendingReplies then
      Quiet(st.(pendingReplies := st.pendingReplies - {key}))
        .(notes := [Replied(st.pendingReplies[key].waiter, got)])
    else if clientOpen then
      Quiet(st).(notes := [ToClient(got)])
    else
      Outcome(st, [], [], [Undelivered(got)], OtherError)
  }

  /** The budget of the next timer, after one with budget `left`. */
  function NextLeft(opts: ClientOpts, left: Amount): Amount {
    match opts.handover
    case MaximumLessOne => opts.maxMessageAttempts.Decrement()
    case OwnLessOne => left.Decrement()
  }

  /** A retry timer that finds its entry pending pushes one more copy and starts the next timer. */
  function OnRetry(opts: ClientOpts, st: State, entry: Entry, seqNo: Seq, left: Amount, chain: CallId, next: Msg)
    : Outcome
  {
    if left.IsZero() then
      Quiet(st).(notes := [GaveUp(chain)])
    else
      Outcome(st, [Item(PayloadRequest(PayloadOf(opts, entry.msg, seqNo)), Again(entry.waiter, chain))],
              [next], [], Continue)
  }

  function OnMsg(opts: ClientOpts, st: State, clientOpen: bool, msg: Msg): Outcome {
    match msg
    case RelayResponse(resp) =>
      if PayloadIn(resp).Some? then OnPayload(st, PayloadIn(resp).value, clientOpen)
      else if resp.Ack? then OnAck(st, resp.seqNo)
      else Quiet(st)
    case Send(request, call) => Quiet(st).(pushes := [Item(request, First(call))])
    case Stop => Quiet(st).(status := StopRequest)
    case Reconnect => Quiet(st).(status := ReconnectRequest)
    case WaitForAck(original, seqNo, call) =>
      Outcome(st.(pendingAcks := st.pendingAcks[seqNo := Entry(original, call)]),
              [],
              [RetryAck(seqNo, opts.maxMessageAttempts, call)],
              if seqNo in st.pendingAcks then [Dropped(st.pendingAcks[seqNo].waiter)] else [],
              Continue)
    case WaitForReply(original, seqNo, call) =>
      var key := (original.targetId, seqNo);
      var left := if original.qos == AtMostOnce then Val(0) else opts.maxMessageAttempts;
      Outcome(st.(pendingReplies := st.pendingReplies[key := Entry(original, call)]),
              [],
              [RetryAsk(original.targetId, seqNo, left, call)],
              if key in st.pendingReplies then [Dropped(st.pendingReplies[key].waiter)] else [],
              Continue)
    case RetryAck(seqNo, left, chain) =>
      if seqNo in st.pendingAcks then
        OnRetry(opts, st, st.pendingAcks[seqNo], seqNo, left, chain,
                RetryAck(seqNo, NextLeft(opts, left), chain))
      else
        Quiet(st)
    case RetryAsk(from, seqNo, left, chain) =>
      if (from, seqNo) in st.pendingReplies then
        OnRetry(opts, st, st.pendingReplies[(from, seqNo)], seqNo, left, chain,
                RetryAsk(from, seqNo, NextLeft(opts, left), chain))
      else
        Quiet(st)
    case Heartbeat =>
      Outcome(st, [Item(HeartbeatRequest(0), Beat)], [Heartbeat], [], Continue)
  }

  /** A payload with source and body goes to somebody, with what it brings; any other does nothing. */
  lemma PayloadHanded(opts: ClientOpts, st: State, clientOpen: bool, p: RelayPayload)
    ensures var o := OnMsg(opts, st, clientOpen, RelayResponse(Payload(p)));
            if p.src.Some? && p.payload.Some? then
              |o.notes| == 1 && RoutedBy(o.notes[0]).Some? && Brings(p, RoutedBy(o.notes[0]).value)
            else
              o == Quiet(st)
  {
  }

  /** The histories of the three channels the actor writes to: the outbound queue, the spawned timers
      and its callers. */
  datatype Channels = Channels(tonic: seq<Item>, timers: seq<Msg>, notes: seq<Note>)

  function Extended(ch: Channels, o: Outcome): Channels {
    Channels(ch.tonic + o.pushes, ch.timers + o.timers, ch.notes + o.notes)
  }

  // ---- many messages ----

  /** After how many messages of a connection the last client handle is dropped; None: not during it. */
  type Until = Option<nat>

  /** Some client handle lives when message number `n` of the connection is handled. */
  predicate Lives(until: Until, n: nat) {
    until.None? || n < until.value
  }

  /** What a message does, given its number. */
  type Handling = (nat, State, Msg) -> Outcome

  function Handler(opts: ClientOpts, until: Until): Handling {
    (n: nat, st: State, m: Msg) => OnMsg(opts, st, Lives(until, n), m)
  }

  /** Two outcomes in a row. */
  function Then(a: Outcome, b: Outcome): Outcome {
    Outcome(b.st, a.pushes + b.pushes, a.timers + b.timers, a.notes + b.notes, b.status)
  }

  /** The receive loop over a list of messages, numbered from `n`: it stops after the first whose status
      is not Continue. The result tells how many messages were taken. */
  function OnAll(f: Handling, n: nat, st: State, ms: seq<Msg>): (Outcome, nat)
    decreases |ms|
  {
    if ms == [] then (Quiet(st), 0)
    else
      var o := f(n, st, ms[0]);
      if o.status != Continue then (o, 1)
      else
        var (rest, k) := OnAll(f, n + 1, o.st, ms[1..]);
        (Then(o, rest), k + 1)
  }

  lemma ThenLaws(a: Outcome, b: Outcome, c: Outcome)
    ensures Then(a, Then(b, c)) == Then(Then(a, b), c)
    ensures a.status == Continue ==> Then(a, Quiet(a.st)) == a
    ensures Then(Quiet(a.st), a) == a
  {
  }

  lemma ExtendedThen(ch: Channels, a: Outcome, b: Outcome)
    ensures Extended(Extended(ch, a), b) == Extended(ch, Then(a, b))
    ensures Extended(ch, Quiet(a.st)) == ch
  {
  }

  lemma QuietThen(st: State, o: Outcome)
    ensures Then(Quiet(st), o) == o
  {
  }

  lemma {:induction false} OnAllConcat(f: Handling, n: nat, st: State, ms: seq<Msg>, ms': seq<Msg>)
    ensures var (o, k) := OnAll(f, n, st, ms);
            var (o', k') := OnAll(f, n + k, o.st, ms');
            OnAll(f, n, st, ms + ms') == if o.status != Continue then (o, k) else (Then(o, o'), k + k')
    decreases |ms|
  {
    if ms == [] {
      assert ms + ms' == ms';
      QuietThen(st, OnAll(f, n, st, ms').0);
    } else {
      assert (ms + ms')[1..] == ms[1..] + ms';
      var o1 := f(n, st, ms[0]);
      if o1.status == Continue {
        OnAllConcat(f, n + 1, o1.st, ms[1..], ms');
        var (o2, k) := OnAll(f, n + 1, o1.st, ms[1..]);
        ThenLaws(o1, o2, OnAll(f, n + 1 + k, o2.st, ms').0);
      }
    }
  }

  /** One more message after a list that was handled to its end. */
  lemma OnAllSnoc(f: Handling, n: nat, st: State, ms: seq<Msg>, acc: Outcome, m: Msg)
    requires OnAll(f, n, st, ms) == (acc, |ms|) && acc.status == Continue
    ensures OnAll(f, n, st, ms + [m]) == (Then(acc, f(n + |ms|, acc.st, m)), |ms| + 1)
  {
    OnAllConcat(f, n, st, ms, [m]);
    var o := f(n + |ms|, acc.st, m);
    assert OnAll(f, n + |ms| + 1, o.st, [m][1..]) == (Quiet(o.st), 0);
    ThenLaws(o, o, o);
  }

  /** What comes after the message that ends the loop does not matter. */
  lemma OnAllStops(f: Handling, n: nat, st: State, ms: seq<Msg>, acc: Outcome, rest: seq<Msg>)
    requires OnAll(f, n, st, ms) == (acc, |ms|) && acc.status != Continue
    ensures OnAll(f, n, st, ms + rest) == (acc, |ms|)
  {
    OnAllConcat(f, n, st, ms, rest);
  }

  /** When the last handle is dropped matters only to the messages handled later. */
  lemma {:induction false} OnAllAgrees(opts: ClientOpts, until: Until, until': Until, n: nat, st: State, ms: seq<Msg>)
    requires forall i: nat :: n <= i < n + |ms| ==> Lives(until, i) == Lives(until', i)
    ensures OnAll(Handler(opts, until), n, st, ms) == OnAll(Handler(opts, until'), n, st, ms)
    decreases |ms|
  {
    if ms != [] {
      assert Lives(until, n) == Lives(until', n);
      OnAllAgrees(opts, until, until', n + 1, OnMsg(opts, st, Lives(until, n), ms[0]).st, ms[1..]);
    }
  }

  // ---- what a connection brings ----

  /** One thing that happens while the receive loop waits: somebody posts a message, a response is
      read (None is an empty envelope), or the stream ends or breaks. */
  datatype Tick = Post(msg: Msg) | Reads(resp: Option<Response>) | Broken

  function AsInput(): Tick -> Option<Msg> {
    (t: Tick) => match t
      case Post(m) => Some(m)
      case Reads(Some(resp)) => Some(RelayResponse(resp))
      case _ => None
  }

  /** The ticks before the stream broke. */
  function BeforeBreak(feed: seq<Tick>): seq<Tick> {
    if feed == [] || feed[0] == Broken then [] else [feed[0]] + BeforeBreak(feed[1..])
  }

  lemma {:induction false} BeforeBreakAll(feed: seq<Tick>)
    requires Broken !in feed
    ensures BeforeBreak(feed) == feed && BeforeBreak(feed + [Broken]) == feed
  {
    if feed != [] {
      assert feed[0] in feed && feed == [feed[0]] + feed[1..];
      assert (feed + [Broken])[1..] == feed[1..] + [Broken];
      BeforeBreakAll(feed[1..]);
    }
  }

  lemma BeforeBreakHead(feed: seq<Tick>)
    requires feed != []
    ensures Pick(BeforeBreak(feed), AsInput()) ==
            if feed[0] == Broken then []
            else Optional(AsInput()(feed[0])) + Pick(BeforeBreak(feed[1..]), AsInput())
  {
    if feed[0] != Broken {
      PickHead(BeforeBreak(feed), AsInput());
    }
  }

  /** What the select finds next, and what is left to handle before the stream breaks. */
  function NextOf(mailbox: seq<Msg>, feed: seq<Tick>): Option<Msg> {
    if mailbox != [] then Some(mailbox[0]) else if feed != [] then AsInput()(feed[0]) else None
  }

  function Left(mailbox: seq<Msg>, feed: seq<Tick>): seq<Msg> {
    mailbox + Pick(BeforeBreak(feed), AsInput())
  }

  /** The mailbox and the position after one turn. */
  function After(mailbox: seq<Msg>): seq<Msg> {
    if mailbox != [] then mailbox[1..] else []
  }

  lemma LeftTurn(mailbox: seq<Msg>, feed: seq<Tick>, i: nat, j: nat)
    requires i <= j <= |feed| && j == (if mailbox != [] then i else i + 1)
    requires mailbox != [] || i < |feed|
    ensures var next, rest := NextOf(mailbox, feed[i..]), Left(After(mailbox), feed[j..]);
            Left(mailbox, feed[i..]) == if next.Some? then [next.value] + rest
                                        else if feed[i] == Broken then []
                                        else rest
  {
    if mailbox == [] {
      BeforeBreakHead(feed[i..]);
      assert feed[i..][1..] == feed[j..];
    } else {
      assert mailbox == [mailbox[0]] + mailbox[1..];
    }
  }

  /** What one turn of the loop does. */
  function TurnOutcome(f: Handling, n: nat, st: State, mailbox: seq<Msg>, feed: seq<Tick>): Outcome {
    var next := NextOf(mailbox, feed);
    if next.Some? then f(n, st, next.value) else Quiet(st)
  }

  predicate Breaks(mailbox: seq<Msg>, feed: seq<Tick>) {
    mailbox == [] && feed != [] && feed[0] == Broken
  }

  /** How the receive loop ends: on a message, on a broken stream, or not before `feed` is used up. */
  function StatusAfter(o: Outcome, feed: seq<Tick>): Status {
    if o.status != Continue then o.status else if Broken in feed then OtherError else Continue
  }

  /** `taken` messages with outcome `acc`, then `rest`. */
  function Joint(acc: Outcome, taken: nat, rest: (Outcome, nat)): (Outcome, nat) {
    (Then(acc, rest.0), taken + rest.1)
  }

  /** One turn of the loop takes the first of what is left. */
  lemma TurnJoint(f: Handling, acc: Outcome, taken: nat, mailbox: seq<Msg>, feed: seq<Tick>,
                  i: nat, j: nat)
    requires i <= j <= |feed| && j == (if mailbox != [] then i else i + 1)
    requires mailbox != [] || i < |feed|
    requires acc.status == Continue
    ensures var o := TurnOutcome(f, taken, acc.st, mailbox, feed[i..]);
            var acc' := Then(acc, o);
            var taken' := taken + |Optional(NextOf(mailbox, feed[i..]))|;
            Joint(acc, taken, OnAll(f, taken, acc.st, Left(mailbox, feed[i..]))) ==
            if o.status != Continue || Breaks(mailbox, feed[i..]) then (acc', taken')
            else Joint(acc', taken', OnAll(f, taken', acc'.st, Left(After(mailbox), feed[j..])))
  {
    LeftTurn(mailbox, feed, i, j);
    var next, rest := NextOf(mailbox, feed[i..]), Left(After(mailbox), feed[j..]);
    ThenLaws(acc, acc, acc);
    if next.Some? {
      assert ([next.value] + rest)[1..] == rest;
      var o := f(taken, acc.st, next.value);
      ThenLaws(acc, o, OnAll(f, taken + 1, o.st, rest).0);
    }
  }

  /** What is left of a mailbox after `n` messages were taken, some of them perhaps posted later. */
  function Rest(box: seq<Msg>, n: nat): seq<Msg> {
    if n <= |box| then box[n..] else []
  }

  /** The loop, which amounts to `total`, is at position `i` of the feed and has taken `taken` messages
      with outcome `acc`. */
  ghost predicate Going(f: Handling, total: (Outcome, nat), box: seq<Msg>, feed: seq<Tick>,
                        acc: Outcome, taken: nat, mailbox: seq<Msg>, i: nat) {
    && i <= |feed| && Broken !in feed[..i]
    && (mailbox != [] ==> i == 0) && mailbox == Rest(box, taken)
    && acc.status == Continue
    && total == Joint(acc, taken, OnAll(f, taken, acc.st, Left(mailbox, feed[i..])))
  }

  /** The loop, which amounted to `total`, has ended with `status`. */
  predicate LoopOver(total: (Outcome, nat), box: seq<Msg>, feed: seq<Tick>, mailbox: seq<Msg>, status: Status) {
    mailbox == Rest(box, total.1) && status == StatusAfter(total.0, feed)
  }

  lemma GoingFirst(f: Handling, st: State, box: seq<Msg>, feed: seq<Tick>)
    ensures Going(f, OnAll(f, 0, st, Left(box, feed)), box, feed, Quiet(st), 0, box, 0)
  {
    assert feed[0..] == feed;
    QuietThen(st, OnAll(f, 0, st, Left(box, feed)).0);
  }

  lemma RestTurn(box: seq<Msg>, feed: seq<Tick>, taken: nat, mailbox: seq<Msg>)
    requires mailbox == Rest(box, taken)
    ensures After(mailbox) == Rest(box, taken + |Optional(NextOf(mailbox, feed))|)
  {
  }

  lemma FeedTurn(feed: seq<Tick>, mailbox: seq<Msg>, i: nat, j: nat)
    requires i <= j <= |feed| && j == (if mailbox != [] then i else i + 1) && Broken !in feed[..i]
    ensures if Breaks(mailbox, feed[i..]) then Broken in feed else Broken !in feed[..j]
  {
    assert feed[..j] == feed[..i] + feed[i..j];
  }

  lemma GoingTurn(f: Handling, total: (Outcome, nat), box: seq<Msg>, feed: seq<Tick>,
                  acc: Outcome, taken: nat, mailbox: seq<Msg>, i: nat, j: nat)
    requires Going(f, total, box, feed, acc, taken, mailbox, i)
    requires (mailbox != [] || i < |feed|) && j == (if mailbox != [] then i else i + 1)
    ensures var o := TurnOutcome(f, taken, acc.st, mailbox, feed[i..]);
            var acc', taken' := Then(acc, o), taken + |Optional(NextOf(mailbox, feed[i..]))|;
            var status := if Breaks(mailbox, feed[i..]) then OtherError else o.status;
            if status == Continue then Going(f, total, box, feed, acc', taken', After(mailbox), j)
            else total == (acc', taken') && LoopOver(total, box, feed, After(mailbox), status)
  {
    TurnJoint(f, acc, taken, mailbox, feed, i, j);
    RestTurn(box, feed[i..], taken, mailbox);
    FeedTurn(feed, mailbox, i, j);
  }

  lemma GoingLast(f: Handling, total: (Outcome, nat), box: seq<Msg>, feed: seq<Tick>,
                  acc: Outcome, taken: nat, i: nat)
    requires Going(f, total, box, feed, acc, taken, [], i) && i == |feed|
    ensures total == (acc, taken) && LoopOver(total, box, feed, [], Continue)
  {
    ThenLaws(acc, acc, acc);
    assert feed[..i] == feed;
  }

  /** What `connect` reads before the connection is established. */
  datatype Reading = Envelope(resp: Option<Response>) | Failed

  /** The reading decides `connect`. */
  predicate Decides(r: Reading) {
    r.Failed? || (r.resp.Some? && r.resp.value.ConnectResponse?)
  }

  function AsEarly(): Reading -> Option<Msg> {
    (r: Reading) => if r.Envelope? && r.resp.Some? then Some(RelayResponse(r.resp.value)) else None
  }

  lemma EarlySnoc(stream: seq<Reading>, k: nat)
    requires k < |stream|
    ensures Pick(stream[..k + 1], AsEarly()) == Pick(stream[..k], AsEarly()) + Optional(AsEarly()(stream[k]))
  {
    assert stream[..k + 1] == stream[..k] + [stream[k]];
    PickSnoc(stream[..k], stream[k], AsEarly());
  }

  datatype Connected = Established(ended: bool) | Refused

  /** The first `k` readings decide nothing, and the next one, if there is one, decides. */
  predicate DecidedAt(stream: seq<Reading>, k: nat) {
    k <= |stream| && (forall i :: 0 <= i < k ==> !Decides(stream[i])) && (k < |stream| ==> Decides(stream[k]))
  }

  /** A stream that ends undecided counts as established. */
  function ConnectedBy(stream: seq<Reading>, k: nat): Connected
    requires k <= |stream|
  {
    if k == |stream| then Established(true)
    else if stream[k] == Envelope(Some(ConnectResponse(true))) then Established(false)
    else Refused
  }

  /** The class behind the functions. `tonic` and `notes` are the histories of what was sent on the
      outbound queue and to the callers; `timers` are the spawned sleeps; `mailbox` is the actor's
      own queue, to which the connection handshake posts early responses. */
  class RelayActor {
    const opts: ProgramOpts
    var pendingAcks: map<Seq, Entry>
    var pendingReplies: map<(ClientId, Seq), Entry>
    var heartbeatStarted: bool
    var mailbox: seq<Msg>
    var tonic: seq<Item>
    var timers: seq<Msg>
    var notes: seq<Note>

    constructor (opts: ProgramOpts)
      ensures this.opts == opts && Current() == IDLE
      ensures mailbox == [] && tonic == [] && timers == [] && notes == []
    {
      this.opts := opts;
      pendingAcks, pendingReplies, heartbeatStarted := map[], map[], false;
      mailbox, tonic, timers, notes := [], [], [], [];
    }

    function Current(): State
      reads this
    {
      State(pendingAcks, pendingReplies, heartbeatStarted)
    }

    function Sent(): Channels
      reads this
    {
      Channels(tonic, timers, notes)
    }

    /** The state and the three channels moved by exactly `o`. */
    twostate predicate Moved(o: Outcome)
      reads this
    {
      Current() == o.st && Sent() == Extended(old(Sent()), o) && mailbox == old(mailbox)
    }

    method HandleAck(seqNo: Seq)
      modifies this
      ensures Moved(OnAck(old(Current()), seqNo))
    {
      if seqNo in pendingAcks {
        notes := notes + [Acked(pendingAcks[seqNo].waiter)];
        pendingAcks := pendingAcks - {seqNo};
      }
    }

    method HandlePayload(got: Received, clientOpen: bool) returns (status: Status)
      modifies this
      ensures Moved(OnPayload(old(Current()), got, clientOpen))
      ensures status == OnPayload(old(Current()), got, clientOpen).status
    {
      var key := (got.from.id, got.seqNo);
      if key in pendingReplies {
        notes := notes + [Replied(pendingReplies[key].waiter, got)];
        pendingReplies := pendingReplies - {key};
      } else if clientOpen {
        notes := notes + [ToClient(got)];
      } else {
        notes := notes + [Undelivered(got)];
        return OtherError;
      }
      return Continue;
    }

    method HandleMsg(msg: Msg, clientOpen: bool) returns (status: Status)
      modifies this
      ensures Moved(OnMsg(opts, old(Current()), clientOpen, msg))
      ensures status == OnMsg(opts, old(Current()), clientOpen, msg).status
    {
      status := Continue;
      match msg
      case RelayResponse(Payload(RelayPayload(Some(src), _, seqNo, Some(any)))) =>
        status := HandlePayload(Received(src, any.value, seqNo), clientOpen);
      case RelayResponse(Ack(seqNo)) =>
        HandleAck(seqNo);
      case RelayResponse(_) =>
      case Send(request, call) =>
        tonic := tonic + [Item(request, First(call))];
      case Stop =>
        status := StopRequest;
      case Reconnect =>
        status := ReconnectRequest;
      case WaitForAck(original, seqNo, call) =>
        if seqNo in pendingAcks {
          notes := notes + [Dropped(pendingAcks[seqNo].waiter)];
        }
        pendingAcks := pendingAcks[seqNo := Entry(original, call)];
        timers := timers + [RetryAck(seqNo, opts.maxMessageAttempts, call)];
      case WaitForReply(original, seqNo, call) =>
        var key := (original.targetId, seqNo);
        if key in pendingReplies {
          notes := notes + [Dropped(pendingReplies[key].waiter)];
        }
        pendingReplies := pendingReplies[key := Entry(original, call)];
        var left := if original.qos == AtMostOnce then Val(0) else opts.maxMessageAttempts;
        timers := timers + [RetryAsk(original.targetId, seqNo, left, call)];
      case RetryAck(seqNo, left, chain) =>
        if seqNo in pendingAcks {
          if left.IsZero() {
            notes := notes + [GaveUp(chain)];
            return;
          }
          var entry := pendingAcks[seqNo];
          tonic := tonic + [Item(PayloadRequest(PayloadOf(opts, entry.msg, seqNo)), Again(entry.waiter, chain))];
          timers := timers + [RetryAck(seqNo, opts.maxMessageAttempts.Decrement(), chain)];
        }
      case RetryAsk(from, seqNo, left, chain) =>
        if (from, seqNo) in pendingReplies {
          if left.IsZero() {
            notes := notes + [GaveUp(chain)];
            return;
          }
          var entry := pendingReplies[(from, seqNo)];
          tonic := tonic + [Item(PayloadRequest(PayloadOf(opts, entry.msg, seqNo)), Again(entry.waiter, chain))];
          timers := timers + [RetryAsk(from, seqNo, opts.maxMessageAttempts.Decrement(), chain)];
        }
      case Heartbeat =>
        tonic := tonic + [Item(HeartbeatRequest(0), Beat)];
        timers := timers + [Heartbeat];
    }

    /** The loop of `connect` that reads responses until one of them decides: earlier ones are posted
        to the mailbox. A stream that ends undecided counts as established. */
    method Drain(stream: seq<Reading>) returns (r: Connected, k: nat)
      modifies this`mailbox
      ensures DecidedAt(stream, k) && r == ConnectedBy(stream, k)
      ensures mailbox == old(mailbox) + Pick(stream[..k], AsEarly())
    {
      k := 0;
      while k < |stream|
        invariant k <= |stream| && forall i :: 0 <= i < k ==> !Decides(stream[i])
        invariant mailbox == old(mailbox) + Pick(stream[..k], AsEarly())
      {
        match stream[k] {
          case Envelope(Some(ConnectResponse(true))) => return Established(false), k;
          case Envelope(Some(ConnectResponse(false))) => return Refused, k;
          case Failed => return Refused, k;
          case Envelope(Some(resp)) => mailbox := mailbox + [RelayResponse(resp)];
          case Envelope(None) =>
        }
        EarlySnoc(stream, k);
        k := k + 1;
      }
      return Established(true), k;
    }

    /** The first connection starts the heartbeat. */
    method StartHeartbeat()
      modifies this`heartbeatStarted, this`timers
      ensures heartbeatStarted
      ensures timers == if old(heartbeatStarted) then old(timers) else old(timers) + [Heartbeat]
    {
      if !heartbeatStarted {
        heartbeatStarted := true;
        timers := timers + [Heartbeat];
      }
    }

    /** The biased select: the head of the mailbox, or else the next tick. */
    method Select(feed: seq<Tick>, i: nat) returns (next: Option<Msg>, j: nat)
      requires i <= |feed| && (mailbox != [] || i < |feed|)
      modifies this`mailbox
      ensures old(mailbox) != [] ==> next == Some(old(mailbox)[0]) && mailbox == old(mailbox)[1..] && j == i
      ensures old(mailbox) == [] ==> next == AsInput()(feed[i]) && mailbox == [] && j == i + 1
    {
      if mailbox != [] {
        next, j := Some(mailbox[0]), i;
        mailbox := mailbox[1..];
      } else {
        j := i + 1;
        match feed[i] {
          case Post(m) => next := Some(m);
          case Reads(Some(resp)) => next := Some(RelayResponse(resp));
          case Reads(None) => next := None;
          case Broken => next := None;
        }
      }
    }

    /** One turn of the receive loop: select a message, if there is one, and handle it. */
    method Turn(feed: seq<Tick>, i: nat, until: Until, n: nat) returns (status: Status, j: nat, took: bool)
      requires i <= |feed| && (mailbox != [] || i < |feed|)
      modifies this
      ensures i <= j <= |feed| && j == (if old(mailbox) != [] then i else i + 1)
      ensures mailbox == After(old(mailbox))
      ensures took == NextOf(old(mailbox), feed[i..]).Some?
      ensures var o := TurnOutcome(Handler(opts, until), n, old(Current()), old(mailbox), feed[i..]);
              && Current() == o.st && Sent() == Extended(old(Sent()), o)
              && status == (if Breaks(old(mailbox), feed[i..]) then OtherError else o.status)
    {
      var next;
      next, j := Select(feed, i);
      took := next.Some?;
      if next.Some? {
        status := HandleMsg(next.value, Lives(until, n));
      } else {
        status := if j > i && feed[i] == Broken then OtherError else Continue;
      }
    }

    /** One more turn of the loop: it goes on, or it is over. */
    method TurnAfter(feed: seq<Tick>, i: nat, until: Until, taken: nat, ghost ch: Channels, ghost box: seq<Msg>,
                     ghost total: (Outcome, nat), ghost acc: Outcome)
      returns (status: Status, j: nat, taken': nat, ghost acc': Outcome)
      requires Going(Handler(opts, until), total, box, feed, acc, taken, mailbox, i)
      requires Current() == acc.st && Sent() == Extended(ch, acc) && (mailbox != [] || i < |feed|)
      modifies this
      ensures i <= j <= |feed| && |mailbox| + |feed| - j < |old(mailbox)| + |feed| - i
      ensures if status == Continue then
                && Going(Handler(opts, until), total, box, feed, acc', taken', mailbox, j)
                && Current() == acc'.st && Sent() == Extended(ch, acc')
              else
                && LoopOver(total, box, feed, mailbox, status)
                && Current() == total.0.st && Sent() == Extended(ch, total.0)
    {
      ghost var f, mailbox0 := Handler(opts, until), mailbox;
      ghost var o := TurnOutcome(f, taken, acc.st, mailbox, feed[i..]);
      var took;
      status, j, took := Turn(feed, i, until, taken);
      GoingTurn(f, total, box, feed, acc, taken, mailbox0, i, j);
      ExtendedThen(ch, acc, o);
      acc', taken' := Then(acc, o), if took then taken + 1 else taken;
    }

    /** The receive loop, started in `st` with histories `ch` and mailbox `box`, has handled the mailbox
        and then the input before the break, in order, up to the first message that ends it. */
    predicate Ended(st: State, ch: Channels, box: seq<Msg>, feed: seq<Tick>, until: Until, status: Status)
      reads this
    {
      var total := OnAll(Handler(opts, until), 0, st, Left(box, feed));
      LoopOver(total, box, feed, mailbox, status) && Current() == total.0.st && Sent() == Extended(ch, total.0)
    }

    /** The receive loop: the mailbox first, the stream only when the mailbox is empty. It ends on the
        first message that says so, on a broken stream, or, here, when `feed` has nothing more. The last
        client handle may be dropped before any of its messages (`until`). */
    method Receive(feed: seq<Tick>, until: Until) returns (status: Status)
      modifies this
      ensures Ended(old(Current()), old(Sent()), old(mailbox), feed, until, status)
    {
      ghost var f, box, ch := Handler(opts, until), mailbox, Sent();
      ghost var acc: Outcome := Quiet(Current());
      ghost var total := OnAll(f, 0, Current(), Left(box, feed));
      var taken: nat := 0;
      GoingFirst(f, Current(), box, feed);
      ExtendedThen(ch, acc, acc);
      var i := 0;
      while mailbox != [] || i < |feed|
        invariant 0 <= i <= |feed|
        invariant Going(f, total, box, feed, acc, taken, mailbox, i)
        invariant Current() == acc.st && Sent() == Extended(ch, acc)
        decreases |mailbox| + |feed| - i
      {
        status, i, taken, acc := TurnAfter(feed, i, until, taken, ch, box, total, acc);
        if status != Continue {
          return;
        }
      }
      GoingLast(f, total, box, feed, acc, taken, i);
      return Continue;
    }

    /** `connect`, once the transport is up: its request is queued before any response is read. */
    method Connect(token: string, stream: seq<Reading>) returns (r: Connected, k: nat)
      modifies this`tonic, this`mailbox
      ensures DecidedAt(stream, k) && r == ConnectedBy(stream, k)
      ensures tonic == old(tonic) + [Item(ConnectRequest(Self(opts), token), Hello)]
      ensures mailbox == old(mailbox) + Pick(stream[..k], AsEarly())
    {
      tonic := tonic + [Item(ConnectRequest(Self(opts), token), Hello)];
      r, k := Drain(stream);
    }

    /** The rest of `main_loop` once `connect` returned Ok. */
    method Serve(feed: seq<Tick>, until: Until) returns (status: Status)
      modifies this
      ensures var beat := if old(heartbeatStarted) then [] else [Heartbeat];
              Ended(old(Current()).(heartbeatStarted := true), old(Sent()).(timers := old(timers) + beat),
                    old(mailbox), feed, until, status)
    {
      ghost var st, ch := Current(), Sent();
      StartHeartbeat();
      ghost var beat := if st.heartbeatStarted then [] else [Heartbeat];
      assert Current() == st.(heartbeatStarted := true) && Sent() == ch.(timers := ch.timers + beat);
      status := Receive(feed, until);
    }

    /** `main_loop`: connects, starts the heartbeat on the first connection, and serves the connection
        until it ends. What was in the mailbox before is served first, then the early responses, then
        what the connection brings. */
    method MainLoop(token: string, stream: seq<Reading>, feed: seq<Tick>, until: Until)
      returns (status: Status, r: Connected, k: nat)
      modifies this
      ensures DecidedAt(stream, k) && r == ConnectedBy(stream, k)
      ensures var hello := Item(ConnectRequest(Self(opts), token), Hello);
              var box := old(mailbox) + Pick(stream[..k], AsEarly());
              var ch := old(Sent()).(tonic := old(tonic) + [hello]);
              var beat := if old(heartbeatStarted) then [] else [Heartbeat];
              if r == Refused then
                status == OtherError && mailbox == box && Current() == old(Current()) && Sent() == ch
              else
                Ended(old(Current()).(heartbeatStarted := true), ch.(timers := ch.timers + beat), box, feed,
                      until, status)
    {
      r, k := Connect(token, stream);
      if r == Refused {
        return OtherError, r, k;
      }
      status := Serve(feed, until);
    }
  }
}
