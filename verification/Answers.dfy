/** What answers a call: exactly a matching response that is handled after the call's wait. */
module Answers {
  import opened Sequences
  import opened Messages
  import opened Actor
  import opened Protocol
  import opened Provenance
  import opened Waiters
  import opened Mailbox
  import opened Guarantees
  import opened Routing

  /** The call got its ack or its reply. */
  function IsAnswer(w: CallId): Note -> bool {
    (n: Note) => n == Acked(w) || (n.Replied? && n.call == w)
  }

  /** A response under the key comes after the wait of `w`. */
  predicate AnsweredIn(ms: seq<Msg>, w: CallId, key: Key) {
    exists i, j :: 0 <= i < j < |ms| && IsWait(w)(ms[i]) && Answers(ms[j], key)
  }

  datatype Progress = NotYet | Open | Done

  /** How far `w` has got when the actor has handled `ms`. */
  function ProgressOf(ms: seq<Msg>, w: CallId, key: Key): Progress {
    if ms == [] then NotYet
    else
      var m := ms[|ms| - 1];
      match ProgressOf(ms[..|ms| - 1], w, key)
      case NotYet => if IsWait(w)(m) then Open else NotYet
      case Open => if Answers(m, key) then Done else Open
      case Done => Done
  }

  lemma AnsweredSnoc(before: seq<Msg>, m: Msg, w: CallId, key: Key)
    ensures AnsweredIn(before + [m], w, key) <==>
            AnsweredIn(before, w, key) || (Answers(m, key) && exists x <- before :: IsWait(w)(x))
  {
    var ms, k := before + [m], |before|;
    assert ms[k] == m && forall i :: 0 <= i < k ==> ms[i] == before[i];
    if AnsweredIn(before, w, key) {
      var i, j :| 0 <= i < j < k && IsWait(w)(before[i]) && Answers(before[j], key);
      assert IsWait(w)(ms[i]) && Answers(ms[j], key);
    }
    if Answers(m, key) && exists x <- before :: IsWait(w)(x) {
      var x :| x in before && IsWait(w)(x);
      var i :| 0 <= i < k && before[i] == x;
      assert IsWait(w)(ms[i]) && Answers(ms[k], key);
    }
    if AnsweredIn(ms, w, key) {
      var i, j :| 0 <= i < j < |ms| && IsWait(w)(ms[i]) && Answers(ms[j], key);
      assert before[i] in before;
    }
  }

  lemma {:induction false} ProgressMeans(ms: seq<Msg>, w: CallId, key: Key)
    ensures ProgressOf(ms, w, key) == NotYet <==> forall m <- ms :: !IsWait(w)(m)
    ensures ProgressOf(ms, w, key) == Done <==> AnsweredIn(ms, w, key)
  {
    if ms != [] {
      var before, m := ms[..|ms| - 1], ms[|ms| - 1];
      ProgressMeans(before, w, key);
      assert ms == before + [m];
      AnsweredSnoc(before, m, w, key);
    }
  }

  /** `w` is the only call that may wait under `key`, and waits under no other. */
  ghost predicate Own(calls: seq<Call>, w: CallId, key: Key) {
    && (forall v: CallId :: Registered(calls, v, key) ==> v == w)
    && (w < |calls| && calls[w].stage == Waiting ==> KeyOf(calls[w]) == key)
  }

  lemma OwnBefore(a: seq<Call>, b: seq<Call>, w: CallId, key: Key)
    requires Extends(a, b) && Own(b, w, key)
    ensures Own(a, w, key)
  {
    forall v: CallId | Registered(a, v, key) ensures v == w {
      assert Advanced(a[v], b[v]) && Registered(b, v, key);
    }
    assert w < |a| ==> Advanced(a[w], b[w]);
  }

  /** Under a key of its own: the entry is there from the wait to the answer, and the answer is a matching
      response handled in between. */
  ghost predicate Stands(c: Core, w: CallId, key: Key) {
    var k := ProgressOf(c.handled, w, key);
    && (Count(c.notes, IsAnswer(w)) > 0 <==> k == Done)
    && (!c.phase.Over? ==> if k == Open then HasWaiter(c.st, key, w) else EntryAt(c.st, key) == None)
  }

  lemma OutcomeAnswers(opts: ClientOpts, calls: seq<Call>, st: State, clientOpen: bool, m: Msg, w: CallId, key: Key)
    requires StateOk(calls, st) && MsgOk(calls, m) && Own(calls, w, key)
    ensures var o := OnMsg(opts, st, clientOpen, m);
            && (Count(o.notes, IsAnswer(w)) > 0 <==> Answers(m, key) && HasWaiter(st, key, w))
            && (IsWait(w)(m) ==> HasWaiter(o.st, key, w))
            && (!IsWait(w)(m) && !Answers(m, key) ==> EntryAt(o.st, key) == EntryAt(st, key))
            && (Answers(m, key) ==> EntryAt(o.st, key) == None)
  {
    var o := OnMsg(opts, st, clientOpen, m);
    EntryChanges(opts, st, clientOpen, m, key);
    if o.notes != [] { CountOne(o.notes[0], IsAnswer(w)); }
    if m.RelayResponse? && PayloadIn(m.resp).Some? {
      PayloadAnswers(calls, st, PayloadIn(m.resp).value, w, key);
    } else if m.RelayResponse? && m.resp.Ack? && m.resp.seqNo in st.pendingAcks {
      assert EntryOk(calls, AckKey(m.resp.seqNo), EntryAt(st, AckKey(m.resp.seqNo)).value);
    }
  }

  lemma PayloadAnswers(calls: seq<Call>, st: State, got: Received, w: CallId, key: Key)
    requires StateOk(calls, st) && Own(calls, w, key)
    ensures HasWaiter(st, AskKey(got.from.id, got.seqNo), w) ==> key == AskKey(got.from.id, got.seqNo)
  {
    var k := AskKey(got.from.id, got.seqNo);
    if HasWaiter(st, k, w) { assert EntryOk(calls, k, EntryAt(st, k).value); }
  }

  lemma ProcessedShape(opts: ClientOpts, c: Core, m: Msg)
    ensures var o, c' := OnMsg(opts, c.st, c.clientOpen, m), Processed(opts, c, m);
            && c'.handled == c.handled + [m]
            && (c'.notes == c.notes + o.notes || c'.notes == c.notes + o.notes + [Shutdown(Protocol.Waiters(o.st))])
  {
  }

  lemma CountAnswers(ns: seq<Note>, more: seq<Note>, ws: set<CallId>, w: CallId)
    ensures Count(ns + more, IsAnswer(w)) == Count(ns, IsAnswer(w)) + Count(more, IsAnswer(w))
    ensures Count(ns + more + [Shutdown(ws)], IsAnswer(w)) == Count(ns + more, IsAnswer(w))
  {
    CountConcat(ns, more, IsAnswer(w));
    CountSnoc(ns + more, Shutdown(ws), IsAnswer(w));
  }

  lemma ProcessedAnswers(opts: ClientOpts, c: Core, m: Msg, w: CallId)
    ensures var c' := Processed(opts, c, m);
            && c'.handled == c.handled + [m]
            && Count(c'.notes, IsAnswer(w))
               == Count(c.notes, IsAnswer(w)) + Count(OnMsg(opts, c.st, c.clientOpen, m).notes, IsAnswer(w))
  {
    ProcessedShape(opts, c, m);
    var o := OnMsg(opts, c.st, c.clientOpen, m);
    CountAnswers(c.notes, o.notes, Protocol.Waiters(o.st), w);
  }

  /** From `c` to `c'` the message `m` was handled, with `answers` answers to `w`. */
  lemma StandsNext(c: Core, c': Core, m: Msg, answers: nat, w: CallId, key: Key)
    requires Stands(c, w, key) && !c.phase.Over? && c'.handled == c.handled + [m]
    requires Count(c'.notes, IsAnswer(w)) == Count(c.notes, IsAnswer(w)) + answers
    requires answers > 0 <==> Answers(m, key) && HasWaiter(c.st, key, w)
    requires IsWait(w)(m) ==> ProgressOf(c.handled, w, key) == NotYet
    requires !c'.phase.Over? ==>
               && (IsWait(w)(m) ==> HasWaiter(c'.st, key, w))
               && (Answers(m, key) ==> EntryAt(c'.st, key) == None)
               && (!IsWait(w)(m) && !Answers(m, key) ==> EntryAt(c'.st, key) == EntryAt(c.st, key))
    ensures Stands(c', w, key)
  {
    assert c'.handled[..|c.handled|] == c.handled;
  }

  /** Handling one message; `c` is the state with `m` already taken off the mailbox. */
  lemma StandsProcessed(opts: ClientOpts, c: Core, m: Msg, w: CallId, key: Key)
    requires StateOk(c.calls, c.st) && MsgOk(c.calls, m) && Own(c.calls, w, key)
    requires Stands(c, w, key) && !c.phase.Over?
    requires IsWait(w)(m) ==> ProgressOf(c.handled, w, key) == NotYet
    ensures Stands(Processed(opts, c, m), w, key)
  {
    OutcomeAnswers(opts, c.calls, c.st, c.clientOpen, m, w, key);
    ProcessedAnswers(opts, c, m, w);
    ProcessedEntryOrOver(opts, c, m, key);
    var answers := Count(OnMsg(opts, c.st, c.clientOpen, m).notes, IsAnswer(w));
    StandsNext(c, Processed(opts, c, m), m, answers, w, key);
  }

  /** A wait in the mailbox was never handled before. */
  lemma WaitOnce(opts: ClientOpts, c: Core, m: Msg, w: CallId, key: Key)
    requires Inv(opts, c) && Stands(c, w, key) && !c.phase.Over? && m in c.box && IsWait(w)(m)
    ensures ProgressOf(c.handled, w, key) == NotYet
  {
    assert OnePlace(c, w);
    CountZero(c.box, IsWait(w));
    CountWeaker(c.notes, IsAnswer(w), IsSignal(w));
    WaiterAt(c.st, w);
  }

  lemma StandsTake(opts: ClientOpts, c: Core, w: CallId, key: Key)
    requires Inv(opts, c) && Own(c.calls, w, key) && Stands(c, w, key) && c.phase.Live? && c.box != []
    ensures Stands(Processed(opts, Popped(c), c.box[0]), w, key)
  {
    var m := c.box[0];
    assert m in c.box;
    if IsWait(w)(m) { WaitOnce(opts, c, m, w, key); }
    StandsProcessed(opts, Popped(c), m, w, key);
  }

  lemma StandsRead(opts: ClientOpts, c: Core, resp: Response, w: CallId, key: Key)
    requires Inv(opts, c) && Own(c.calls, w, key) && Stands(c, w, key) && c.phase.Live? && c.box == []
    ensures var m := RelayResponse(resp);
            Stands(Processed(opts, Popped(Posted(Arrived(c, resp), m)), m), w, key)
  {
    var m := RelayResponse(resp);
    StandsProcessed(opts, Popped(Posted(Arrived(c, resp), m)), m, w, key);
  }

  lemma StandsOther(opts: ClientOpts, c: Core, e: ActorEvent, w: CallId, key: Key)
    requires Stands(c, w, key) && !e.Take? && !e.StreamItem?
    ensures Stands(ActorStep(opts, c, e), w, key)
  {
    OtherActorFrame(opts, c, e);
    OtherEntry(opts, c, e, key);
    OtherPhase(opts, c, e);
    CountSnoc(c.notes, Shutdown(Protocol.Waiters(c.st)), IsAnswer(w));
  }

  lemma StandsActor(opts: ClientOpts, c: Core, e: ActorEvent, w: CallId, key: Key)
    requires Inv(opts, c) && Own(c.calls, w, key) && Stands(c, w, key)
    ensures Stands(ActorStep(opts, c, e), w, key)
  {
    match e
    case Take => if c.phase.Live? && c.box != [] { StandsTake(opts, c, w, key); }
    case StreamItem(resp) =>
      if c.phase == Live(false) && c.box == [] && resp.Some? { StandsRead(opts, c, resp.value, w, key); }
    case _ => StandsOther(opts, c, e, w, key);
  }

  lemma StandsStep(opts: ClientOpts, c: Core, e: Event, w: CallId, key: Key)
    requires Inv(opts, c) && Own(c.calls, w, key) && Stands(c, w, key)
    ensures Stands(Step(opts, c, e), w, key)
  {
    match e
    case Client(e) => ClientFrame(opts, c, e);
    case Wake(i) => TimerFrame(c, i);
    case Task(e) => StandsActor(opts, c, e, w, key);
  }

  lemma {:induction false} StandsRun(opts: ClientOpts, es: seq<Event>, w: CallId, key: Key)
    requires Own(Run(opts, es).calls, w, key)
    ensures Stands(Run(opts, es), w, key)
  {
    if es != [] {
      var c := Run(opts, es[..|es| - 1]);
      InvRun(opts, es[..|es| - 1]);
      TracedStep(opts, c, es[|es| - 1]);
      OwnBefore(c.calls, Run(opts, es).calls, w, key);
      StandsRun(opts, es[..|es| - 1], w, key);
      StandsStep(opts, c, es[|es| - 1], w, key);
    }
  }

  /** In every run a call with a key of its own has its ack or reply if and only if a matching response
      was handled after its wait. A response handled between the call's message and its wait does not
      count. Between wait and answer the call is pending, unless the actor ended. */
  lemma AnsweredExactly(opts: ClientOpts, es: seq<Event>, w: CallId)
    requires Alone(Run(opts, es), w)
    ensures var c := Run(opts, es);
            var key := KeyOf(c.calls[w]);
            && ((exists n <- c.notes :: IsAnswer(w)(n)) <==> AnsweredIn(c.handled, w, key))
            && (HasWaiter(c.st, key, w) <==>
                  !c.phase.Over? && !AnsweredIn(c.handled, w, key) && exists m <- c.handled :: IsWait(w)(m))
  {
    var c := Run(opts, es);
    var key := KeyOf(c.calls[w]);
    InvRun(opts, es);
    StandsRun(opts, es, w, key);
    ProgressMeans(c.handled, w, key);
    CountZero(c.notes, IsAnswer(w));
  }
}
