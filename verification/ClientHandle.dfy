/** What a call of the client puts in the actor's mailbox, and what it gives its caller. */
module ClientHandle {
  import opened Amounts
  import opened Sequences
  import opened Messages
  import opened Actor
  import opened Protocol
  import opened Provenance
  import opened Waiters
  import opened Guarantees
  import opened History
  import opened Routing
  import opened Answers

  /** The messages a call posts, in order, when the actor is there for all of them. */
  function Posts(call: Call, w: CallId): seq<Msg> {
    [Send(PayloadRequest(call.first), w)]
    + (if NeedsWait(call) && call.original.Some? then [WaitMsg(call, w)] else [])
  }

  /** What it posts when the actor is there for the first (`alive`) and for the second (`still`). */
  function Handed(call: Call, w: CallId, alive: bool, still: bool): seq<Msg> {
    if !alive then [] else if !still then Posts(call, w)[..1] else Posts(call, w)
  }

  /** Where the call stands then: returned with Ok or an error, or waiting on its channel. */
  function StageAfter(call: Call, alive: bool, still: bool): Stage {
    if !alive then Returned(false)
    else if !NeedsWait(call) then Returned(true)
    else if still && call.original.Some? then Waiting
    else Returned(false)
  }

  /** What the caller's channel brings it: nothing yet, an ack (without a body) or a reply, or its end. */
  datatype Heard = Silent | Got(payload: Bytes) | Closed

  /** What the call gives its caller, or that it still waits. */
  datatype Result = Blocked | Success(payload: Bytes) | Failure

  function ResultOf(stage: Stage, heard: Heard): Result {
    match stage
    case Returned(ok) => if ok then Success([]) else Failure
    case Waiting => (match heard case Silent => Blocked case Got(payload) => Success(payload) case Closed => Failure)
    case _ => Blocked
  }

  /** A client handle: the shared sequence counter and the sending end of the mailbox. Posting fails
      once the actor has ended; it may end between the two posts of a call. */
  class Client {
    const opts: ClientOpts
    var seqNo: Seq
    var actorTx: seq<Msg>

    constructor (opts: ClientOpts)
      ensures this.opts == opts && seqNo == 0 && actorTx == []
    {
      this.opts := opts;
      seqNo, actorTx := 0, [];
    }

    /** The counter's atomic increment, which wraps around. */
    method FetchAdd() returns (q: Seq)
      modifies this`seqNo
      ensures q == old(seqNo) && seqNo == (q + 1) % TWO_64
    {
      q := seqNo;
      seqNo := (seqNo + 1) % TWO_64;
    }

    /** The wait on a channel ends as the channel says. */
    method Wait(heard: Heard) returns (result: Result)
      ensures result == ResultOf(Waiting, heard)
    {
      match heard
      case Silent => return Blocked;
      case Got(payload) => return Success(payload);
      case Closed => return Failure;
    }

    /** One copy of the message, and a wait for its ack if the message asks for delivery. */
    method SendMsg(msg: SendMessage, w: CallId, alive: bool, still: bool, heard: Heard) returns (result: Result)
      modifies this
      ensures alive ==> exists p :: old(actorTx) + [Send(PayloadRequest(p), w)] <= actorTx
                                    && IsMessage(opts, msg, old(seqNo), p)
      ensures alive && msg.qos == AtMostOnce ==> result == Success([]) && |actorTx| == |old(actorTx)| + 1
      ensures alive && still && msg.qos == AtLeastOnce ==>
                |actorTx| == |old(actorTx)| + 2 && actorTx[|actorTx| - 1] == WaitForAck(msg, old(seqNo), w)
      ensures seqNo == (old(seqNo) + 1) % TWO_64
      ensures var call := NewSend(opts, old(seqNo), msg);
              && actorTx == old(actorTx) + Handed(call, w, alive, still)
              && result == ResultOf(StageAfter(call, alive, still), heard)
    {
      var q := FetchAdd();
      if !alive {
        return Failure;
      }
      PayloadByFields(opts, msg, q, PayloadOf(opts, msg, q));
      actorTx := actorTx + [Send(PayloadRequest(PayloadOf(opts, msg, q)), w)];
      if msg.qos == AtLeastOnce {
        if !still {
          return Failure;
        }
        actorTx := actorTx + [WaitForAck(msg, q, w)];
        result := Wait(heard);
        return;
      }
      return Success([]);
    }

    /** The same with a wait for the reply, whatever the message asks for. */
    method AskMsg(msg: SendMessage, w: CallId, alive: bool, still: bool, heard: Heard) returns (result: Result)
      modifies this
      ensures alive ==> exists p :: old(actorTx) + [Send(PayloadRequest(p), w)] <= actorTx
                                    && IsMessage(opts, msg, old(seqNo), p)
      ensures alive && still ==>
                |actorTx| == |old(actorTx)| + 2 && actorTx[|actorTx| - 1] == WaitForReply(msg, old(seqNo), w)
      ensures seqNo == (old(seqNo) + 1) % TWO_64
      ensures var call := NewAsk(opts, old(seqNo), msg);
              && actorTx == old(actorTx) + Handed(call, w, alive, still)
              && result == ResultOf(StageAfter(call, alive, still), heard)
    {
      var q := FetchAdd();
      if !alive {
        return Failure;
      }
      PayloadByFields(opts, msg, q, PayloadOf(opts, msg, q));
      actorTx := actorTx + [Send(PayloadRequest(PayloadOf(opts, msg, q)), w)];
      if !still {
        return Failure;
      }
      actorTx := actorTx + [WaitForReply(msg, q, w)];
      result := Wait(heard);
    }

    /** A reply reuses the sequence number of the message it answers. When it wants an ack but the
        peer's entity type is unknown, it fails after its first copy was posted. */
    method Reply(to: Received, data: Bytes, qos: QoS, w: CallId, alive: bool, still: bool, heard: Heard)
      returns (result: Result)
      modifies this`actorTx
      ensures var call := NewReply(opts, to, data, qos);
              && actorTx == old(actorTx) + Handed(call, w, alive, still)
              && result == ResultOf(StageAfter(call, alive, still), heard)
      ensures alive ==> exists p :: old(actorTx) + [Send(PayloadRequest(p), w)] <= actorTx
                                    && IsReply(opts, to, data, p)
      ensures alive && still && heard != Closed ==>
                (result == Failure <==> qos == AtLeastOnce && !(0 <= to.from.entityType <= 3))
    {
      if !alive {
        return Failure;
      }
      ReplyCopiesAgree(opts, to, data, qos);
      actorTx := actorTx + [Send(PayloadRequest(ReplyPayload(opts, to, data)), w)];
      if qos == AtLeastOnce {
        match TryFromI32(to.from.entityType)
        case None => return Failure;
        case Some(t) =>
          if !still {
            return Failure;
          }
          actorTx := actorTx + [WaitForAck(SendMessage(t, data, to.from.id, to.from.space, qos), to.seqNo, w)];
          result := Wait(heard);
          return;
      }
      return Success([]);
    }
  }

  // ---- in the state machine ----

  /** Nothing but its own wait moves a call that has posted its message. */
  lemma CallKept(opts: ClientOpts, c: Core, e: Event, w: CallId)
    requires w < |c.calls| && c.calls[w].stage != Fresh && e != Client(PostWait(w))
    ensures w < |Step(opts, c, e).calls| && Step(opts, c, e).calls[w] == c.calls[w]
  {
    match e
    case Client(e) =>
    case Task(e) => ActorKeepsCalls(opts, c, e);
    case Wake(i) => TimerFrame(c, i);
  }

  lemma {:induction false} CallKeptRun(opts: ClientOpts, c: Core, es: seq<Event>, w: CallId)
    requires w < |c.calls| && c.calls[w].stage != Fresh && Client(PostWait(w)) !in es
    ensures var c' := RunFrom(opts, c, es); w < |c'.calls| && c'.calls[w] == c.calls[w]
  {
    if es != [] {
      assert es[|es| - 1] in es;
      CallKeptRun(opts, c, es[..|es| - 1], w);
      CallKept(opts, RunFrom(opts, c, es[..|es| - 1]), es[|es| - 1], w);
    }
  }

  /** What the caller does first, and second. */
  function FirstPost(call: Call, w: CallId, alive: bool): seq<Msg> {
    if alive then [Send(PayloadRequest(call.first), w)] else []
  }

  function SecondPost(call: Call, w: CallId, alive: bool, still: bool): seq<Msg> {
    if alive && still && NeedsWait(call) && call.original.Some? then [WaitMsg(call, w)] else []
  }

  /** A caller posts exactly these messages in the state machine too, and ends at the same stage, with
      anything at all going on between its two posts: other callers, timers, responses, the end of the
      actor. */
  lemma CallerAgrees(opts: ClientOpts, c: Core, w: CallId, es: seq<Event>)
    requires w < |c.calls| && c.calls[w].stage == Fresh && c.clientOpen
    requires Client(PostWait(w)) !in es
    requires RunFrom(opts, ClientStep(opts, c, PostSend(w)), es).clientOpen
    ensures var call := c.calls[w];
            var c1 := ClientStep(opts, c, PostSend(w));
            var c2 := RunFrom(opts, c1, es);
            var alive, still := !c.phase.Over?, !c2.phase.Over?;
            var first, second := FirstPost(call, w, alive), SecondPost(call, w, alive, still);
            && w < |c2.calls|
            && Handed(call, w, alive, still) == first + second
            && c1 == c.(calls := c1.calls, box := c.box + first, posted := c.posted + first)
            && ClientStep(opts, c2, PostWait(w)) ==
               c2.(calls := c2.calls[w := call.(stage := StageAfter(call, alive, still))],
                   box := c2.box + second, posted := c2.posted + second)
  {
    var call := c.calls[w];
    var c1 := ClientStep(opts, c, PostSend(w));
    var c2 := RunFrom(opts, c1, es);
    CallKeptRun(opts, c1, es, w);
    FirstAgrees(opts, c, w);
    SecondAgrees(opts, c2, w, call, !c.phase.Over?);
  }

  lemma FirstAgrees(opts: ClientOpts, c: Core, w: CallId)
    requires w < |c.calls| && c.calls[w].stage == Fresh && c.clientOpen
    ensures var c1, first := ClientStep(opts, c, PostSend(w)), FirstPost(c.calls[w], w, !c.phase.Over?);
            && c1 == c.(calls := c1.calls, box := c.box + first, posted := c.posted + first)
  {
    assert c.box + [] == c.box && c.posted + [] == c.posted;
  }

  lemma SecondAgrees(opts: ClientOpts, c: Core, w: CallId, call: Call, alive: bool)
    requires w < |c.calls| && c.clientOpen && call.stage == Fresh
    requires c.calls[w] == call.(stage := if alive then AfterSend(call) else Returned(false))
    ensures var still := !c.phase.Over?;
            var second := SecondPost(call, w, alive, still);
            ClientStep(opts, c, PostWait(w)) ==
            c.(calls := c.calls[w := call.(stage := StageAfter(call, alive, still))],
               box := c.box + second, posted := c.posted + second)
  {
    assert c.box + [] == c.box && c.posted + [] == c.posted;
    assert c.calls[w := c.calls[w]] == c.calls;
  }

  // ---- what a call gives its caller ----

  /** What a note sends on the channel of `w`. */
  function HeardBy(w: CallId): Note -> Option<Heard> {
    (n: Note) => match n
      case Acked(v) => if v == w then Some(Got([])) else None
      case Replied(v, got) => if v == w then Some(Got(got.payload)) else None
      case Dropped(v) => if v == w then Some(Closed) else None
      case Shutdown(ws) => if w in ws then Some(Closed) else None
      case _ => None
  }

  function HeardAmong(ns: seq<Note>, w: CallId): Heard {
    var heard := Pick(ns, HeardBy(w));
    if heard == [] then Silent else heard[0]
  }

  function ResultIn(c: Core, w: CallId): Result
    requires w < |c.calls|
  {
    ResultOf(c.calls[w].stage, HeardAmong(c.notes, w))
  }

  lemma {:induction false} HeardCount(ns: seq<Note>, w: CallId)
    ensures |Pick(ns, HeardBy(w))| == Count(ns, IsSignal(w))
  {
    if ns != [] { HeardCount(ns[..|ns| - 1], w); }
  }

  /** A call that waits for something returns Ok only through its channel. */
  predicate OkNeedsWait(c: Core) {
    forall call <- c.calls :: call.stage == Returned(true) ==> !NeedsWait(call)
  }

  lemma OkNeedsWaitStep(opts: ClientOpts, c: Core, e: Event)
    requires OkNeedsWait(c)
    ensures OkNeedsWait(Step(opts, c, e))
  {
    match e
    case Client(e) => OkNeedsWaitClient(opts, c, e);
    case Task(e) => ActorKeepsCalls(opts, c, e);
    case Wake(i) => TimerFrame(c, i);
  }

  lemma OkNeedsWaitClient(opts: ClientOpts, c: Core, e: ClientEvent)
    requires OkNeedsWait(c)
    ensures OkNeedsWait(ClientStep(opts, c, e))
  {
    var c' := ClientStep(opts, c, e);
    forall call <- c'.calls | call.stage == Returned(true) ensures !NeedsWait(call) {
      var i :| 0 <= i < |c'.calls| && c'.calls[i] == call;
      if i < |c.calls| { assert c.calls[i] in c.calls; }
    }
  }

  lemma {:induction false} OkNeedsWaitRun(opts: ClientOpts, es: seq<Event>)
    ensures OkNeedsWait(Run(opts, es))
  {
    if es != [] {
      OkNeedsWaitRun(opts, es[..|es| - 1]);
      OkNeedsWaitStep(opts, Run(opts, es[..|es| - 1]), es[|es| - 1]);
    }
  }

  /** In every run: a call that waits gives its caller Ok exactly when its answer is among the notes, an
      `ask` with the body of that reply; it fails exactly when it could not post or its channel was
      closed; and it waits on exactly while its channel is in the mailbox or pending. An `ask` that
      succeeds gives the bytes of an arrived payload from the entity asked, under the ask's number. */
  lemma ResultExactly(opts: ClientOpts, es: seq<Event>, w: CallId)
    requires var c := Run(opts, es); w < |c.calls| && NeedsWait(c.calls[w]) && c.calls[w].stage !in {Fresh, Sent}
    ensures var c := Run(opts, es);
            c.calls[w].kind.AskCall? && ResultIn(c, w).Success? ==>
              exists p :: Payload(p) in c.arrivals && IsReplyTo(c.calls[w], p, ResultIn(c, w).payload)
    ensures var c := Run(opts, es);
            var result := ResultIn(c, w);
            && (result.Success? <==> exists n <- c.notes :: IsAnswer(w)(n))
            && (forall got :: Replied(w, got) in c.notes ==> result == Success(got.payload))
            && (result == Failure <==>
                  c.calls[w].stage == Returned(false) || exists n <- c.notes :: HeardBy(w)(n) == Some(Closed))
            && (result == Blocked <==> Count(c.box, IsWait(w)) + Pending(c.st, w) == 1)
  {
    var c := Run(opts, es);
    WaitsOrHears(opts, es, w);
    HeardResult(c.notes, w, c.calls[w].stage, Count(c.box, IsWait(w)) + Pending(c.st, w));
    if c.calls[w].kind.AskCall? && ResultIn(c, w).Success? { var p := AskHears(opts, es, w); }
  }

  /** The payload comes from the entity asked, under the ask's number, and brings `body`. */
  predicate IsReplyTo(call: Call, p: RelayPayload, body: Bytes) {
    && call.original.Some? && p.src.Some? && p.src.value.id == call.original.value.targetId
    && p.seqNo == call.seqNo && p.payload.Some? && p.payload.value.value == body
  }

  /** An `ask` is never settled by an ack. */
  lemma AskHears(opts: ClientOpts, es: seq<Event>, w: CallId) returns (p: RelayPayload)
    requires var c := Run(opts, es); w < |c.calls| && c.calls[w].kind.AskCall? && ResultIn(c, w).Success?
    requires var c := Run(opts, es); exists n <- c.notes :: IsAnswer(w)(n)
    requires var c := Run(opts, es); forall got :: Replied(w, got) in c.notes ==> ResultIn(c, w) == Success(got.payload)
    ensures var c := Run(opts, es);
            Payload(p) in c.arrivals && IsReplyTo(c.calls[w], p, ResultIn(c, w).payload)
  {
    var c := Run(opts, es);
    InvRun(opts, es);
    var n :| n in c.notes && IsAnswer(w)(n);
    assert NoteOk(c.calls, n) && CallOk(opts, c.calls[w]);
    RepliesMatch(opts, es, w, n.reply);
    p := RoutedArrived(opts, es, n);
  }

  lemma HeardResult(ns: seq<Note>, w: CallId, stage: Stage, waiting: nat)
    requires stage in {Waiting, Returned(false)} && waiting + Count(ns, IsSignal(w)) == Bit(stage == Waiting)
    ensures var result := ResultOf(stage, HeardAmong(ns, w));
            && (result.Success? <==> exists n <- ns :: IsAnswer(w)(n))
            && (forall got :: Replied(w, got) in ns ==> result == Success(got.payload))
            && (result == Failure <==> stage == Returned(false) || exists n <- ns :: HeardBy(w)(n) == Some(Closed))
            && (result == Blocked <==> waiting == 1)
  {
    HeardCount(ns, w);
    OneHeard(ns, w);
    if Pick(ns, HeardBy(w)) == [] {
      assert HeardAmong(ns, w) == Silent;
      assert forall n <- ns :: HeardBy(w)(n).None?;
    } else {
      SoundHeard(ns, w, HeardAmong(ns, w), ResultOf(stage, HeardAmong(ns, w)));
    }
  }

  /** Exactly `heard` is heard. */
  lemma SoundHeard(ns: seq<Note>, w: CallId, heard: Heard, result: Result)
    requires exists n <- ns :: HeardBy(w)(n) == Some(heard)
    requires forall n <- ns :: HeardBy(w)(n).Some? ==> HeardBy(w)(n).value == heard
    requires result == ResultOf(Waiting, heard)
    ensures result.Success? <==> exists n <- ns :: IsAnswer(w)(n)
    ensures forall got :: Replied(w, got) in ns ==> result == Success(got.payload)
    ensures result == Failure <==> exists n <- ns :: HeardBy(w)(n) == Some(Closed)
    ensures result != Blocked
  {
    var n :| n in ns && HeardBy(w)(n) == Some(heard);
    if heard.Got? { assert IsAnswer(w)(n); }
  }

  lemma WaitsOrHears(opts: ClientOpts, es: seq<Event>, w: CallId)
    requires var c := Run(opts, es); w < |c.calls| && NeedsWait(c.calls[w]) && c.calls[w].stage !in {Fresh, Sent}
    ensures var c := Run(opts, es);
            && c.calls[w].stage in {Waiting, Returned(false)}
            && Count(c.box, IsWait(w)) + Pending(c.st, w) + Count(c.notes, IsSignal(w))
               == Bit(c.calls[w].stage == Waiting)
  {
    OkNeedsWaitRun(opts, es);
    assert Run(opts, es).calls[w] in Run(opts, es).calls;
    WaitersConserved(opts, es, w);
  }

  // ---- calls that wait for nothing ----

  predicate PostedItsSend(ms: seq<Msg>, w: CallId) {
    exists m <- ms :: IsSend(w)(m)
  }

  /** The message of `w` is posted no sooner than its stage says, and for a call that waits for nothing
      exactly when the call returned Ok. */
  predicate PlainAt(c: Core, w: CallId) {
    if w >= |c.calls| || c.calls[w].stage == Fresh then !PostedItsSend(c.posted, w)
    else !NeedsWait(c.calls[w]) ==> (c.calls[w].stage == Returned(true) <==> PostedItsSend(c.posted, w))
  }

  lemma PlainKept(opts: ClientOpts, c: Core, e: Event, w: CallId)
    requires Traced(opts, c) && OnlyTimers(c) && PlainAt(c, w) && e != Client(PostSend(w))
    ensures PlainAt(Step(opts, c, e), w)
  {
    var c' := Step(opts, c, e);
    StepLogs(opts, c, e);
    TracedStep(opts, c, e);
    NotItsSend(c, e, w);
    assert w < |c.calls| ==> Advanced(c.calls[w], c'.calls[w]);
    StageKept(opts, c, e, w);
  }

  lemma NotItsSend(c: Core, e: Event, w: CallId)
    requires OnlyTimers(c) && e != Client(PostSend(w))
    ensures forall m <- PostedBy(c, e) :: !IsSend(w)(m)
  {
    if e.Wake? && e.i < |c.sleeping| { assert c.sleeping[e.i] in c.sleeping; }
  }

  /** A call that waits for nothing moves only when it posts its message. */
  lemma StageKept(opts: ClientOpts, c: Core, e: Event, w: CallId)
    requires Traced(opts, c) && e != Client(PostSend(w))
    ensures w < |c.calls| && !NeedsWait(c.calls[w]) ==>
              w < |Step(opts, c, e).calls| && Step(opts, c, e).calls[w].stage == c.calls[w].stage
    ensures |c.calls| <= w < |Step(opts, c, e).calls| ==> Step(opts, c, e).calls[w].stage == Fresh
    ensures w < |c.calls| <= |Step(opts, c, e).calls| && c.calls[w].stage == Fresh ==>
              Step(opts, c, e).calls[w].stage == Fresh
  {
    if w < |c.calls| { assert CallOk(opts, c.calls[w]); }
    match e
    case Client(e) =>
    case Task(e) => ActorKeepsCalls(opts, c, e);
    case Wake(i) => TimerFrame(c, i);
  }

  lemma PlainPosts(opts: ClientOpts, c: Core, w: CallId)
    requires Traced(opts, c) && PlainAt(c, w)
    ensures PlainAt(Step(opts, c, Client(PostSend(w))), w)
  {
    StepLogs(opts, c, Client(PostSend(w)));
    var c' := ClientStep(opts, c, PostSend(w));
    if w < |c.calls| && c.calls[w].stage == Fresh && c.clientOpen && !c.phase.Over? {
      var m := Send(PayloadRequest(c.calls[w].first), w);
      assert c'.posted == c.posted + [m] && m in c'.posted && IsSend(w)(m);
    }
  }

  lemma {:induction false} PlainRun(opts: ClientOpts, es: seq<Event>, w: CallId)
    ensures PlainAt(Run(opts, es), w)
  {
    if es != [] {
      var before, e := es[..|es| - 1], es[|es| - 1];
      PlainRun(opts, before, w);
      InvRun(opts, before);
      if e == Client(PostSend(w)) { PlainPosts(opts, Run(opts, before), w); }
      else { PlainKept(opts, Run(opts, before), e, w); }
    }
  }

  /** In every run a `send` or `reply` that does not ask for delivery gives its caller Ok exactly when its
      message was posted, blocks exactly until it tries to, and otherwise fails. */
  lemma PlainResult(opts: ClientOpts, es: seq<Event>, w: CallId)
    requires var c := Run(opts, es); w < |c.calls| && c.calls[w].qos == AtMostOnce && !c.calls[w].kind.AskCall?
    ensures var c := Run(opts, es);
            && (ResultIn(c, w) == Success([]) <==> exists m <- c.posted :: m.Send? && m.call == w)
            && (ResultIn(c, w) == Blocked <==> c.calls[w].stage == Fresh)
            && (ResultIn(c, w) == Failure <==> c.calls[w].stage == Returned(false))
  {
    var c := Run(opts, es);
    PlainRun(opts, es, w);
    InvRun(opts, es);
    assert CallOk(opts, c.calls[w]);
  }

  /** With at most one note on the channel, that note is what is heard. */
  lemma {:induction false} OneHeard(ns: seq<Note>, w: CallId)
    requires |Pick(ns, HeardBy(w))| <= 1
    ensures forall n <- ns :: HeardBy(w)(n).Some? ==> Pick(ns, HeardBy(w)) == [HeardBy(w)(n).value]
    ensures Pick(ns, HeardBy(w)) != [] ==> exists n <- ns :: HeardBy(w)(n) == Some(Pick(ns, HeardBy(w))[0])
  {
    if ns != [] {
      var before, last := ns[..|ns| - 1], ns[|ns| - 1];
      OneHeard(before, w);
      assert ns == before + [last];
    }
  }
}
