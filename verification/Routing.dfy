/** Where received payloads go. */
module Routing {
  import opened Amounts
  import opened Sequences
  import opened Messages
  import opened Actor
  import opened Protocol
  import opened Provenance
  import opened Waiters
  import opened Retries
  import opened Attempts
  import opened Mailbox
  import opened Guarantees

  /** `gots` are what `ps` say, one by one. */
  predicate Bring(ps: seq<RelayPayload>, gots: seq<Received>) {
    |ps| == |gots| && forall i :: 0 <= i < |ps| ==> Brings(ps[i], gots[i])
  }

  lemma {:induction false} PayloadsBring(ms: seq<Msg>)
    ensures Bring(Pick(ms, AsFull()), Pick(ms, AsPayload()))
  {
    if ms != [] { PayloadsBring(ms[..|ms| - 1]); }
  }

  /** Every payload the actor handles, with its source and body present, is routed exactly once and in
      order: to one ask, to the client, or, with every client handle gone, to nobody; and what is handed
      on has its source, its number and its bytes. */
  lemma RoutedOnce(opts: ClientOpts, es: seq<Event>)
    ensures Bring(Pick(Run(opts, es).handled, AsFull()), Pick(Run(opts, es).notes, AsRouted()))
  {
    InvRun(opts, es);
    PayloadsBring(Run(opts, es).handled);
  }

  /** Whatever is handed on came off a stream: a payload that says just that. */
  lemma RoutedArrived(opts: ClientOpts, es: seq<Event>, n: Note) returns (p: RelayPayload)
    requires n in Run(opts, es).notes && RoutedBy(n).Some?
    ensures Payload(p) in Run(opts, es).arrivals && Brings(p, RoutedBy(n).value)
  {
    InvRun(opts, es);
    var c := Run(opts, es);
    PickMember(c.notes, AsRouted(), n);
    var m := PickOrigin(c.handled, AsPayload(), RoutedBy(n).value);
    assert m in c.posted;
    PickMember(c.posted, AsResponse(), m);
    p := m.resp.payload;
  }

  /** A reply reaches an ask only from the entity that was asked and under the ask's sequence number,
      and it is what an arrived payload says. No ask gets two. */
  lemma RepliesMatch(opts: ClientOpts, es: seq<Event>, w: CallId, got: Received)
    requires Replied(w, got) in Run(opts, es).notes
    ensures var c := Run(opts, es);
            && w < |c.calls| && c.calls[w].kind.AskCall? && c.calls[w].original.Some?
            && got.from.id == c.calls[w].original.value.targetId && got.seqNo == c.calls[w].seqNo
            && (exists p :: Payload(p) in c.arrivals && Brings(p, got))
            && Count(c.notes, IsSignal(w)) == 1
  {
    InvRun(opts, es);
    var c := Run(opts, es);
    assert NoteOk(c.calls, Replied(w, got));
    assert OnePlace(c, w);
    CountZero(c.notes, IsSignal(w));
    var p := RoutedArrived(opts, es, Replied(w, got));
  }

  /** The routing note of a payload from `f` under `q`. */
  function ForKey(f: ClientId, q: Seq): Note -> Option<Note> {
    (n: Note) => if IsForKey(n, f, q) then Some(n) else None
  }

  predicate IsForKey(n: Note, f: ClientId, q: Seq) {
    RoutedBy(n).Some? && RoutedBy(n).value.from.id == f && RoutedBy(n).value.seqNo == q
  }

  /** The payloads for (`f`, `q`) routed since `c0`. */
  function Since(c0: Core, c: Core, f: ClientId, q: Seq): seq<Note>
    requires c0.notes <= c.notes
  {
    Pick(c.notes[|c0.notes|..], ForKey(f, q))
  }

  /** The first goes to ask `w`, all later ones elsewhere. */
  predicate FirstTo(ms: seq<Note>, w: CallId) {
    && ms != [] && ms[0].Replied? && ms[0].call == w
    && forall i :: 0 < i < |ms| ==> !ms[i].Replied?
  }

  /** Ask `w`, with `ms` routed for its key and `entry` there, waits for its first payload, unless the
      actor ended, or got it and its key is free. */
  predicate Tracks(ms: seq<Note>, over: bool, entry: Option<Entry>, signals: nat, w: CallId) {
    if ms == [] then over || (entry.Some? && entry.value.waiter == w)
    else FirstTo(ms, w) && signals == 1 && entry == None
  }

  ghost predicate Tracked(c0: Core, c: Core, f: ClientId, q: Seq, w: CallId) {
    && c0.notes <= c.notes
    && Registered(c.calls, w, AskKey(f, q))
    && Tracks(Since(c0, c, f, q), c.phase.Over?, EntryAt(c.st, AskKey(f, q)), Count(c.notes, IsSignal(w)), w)
  }

  lemma OutcomeForKey(opts: ClientOpts, st: State, clientOpen: bool, m: Msg, f: ClientId, q: Seq)
    ensures var o := OnMsg(opts, st, clientOpen, m);
            var key := AskKey(f, q);
            if Answers(m, key) then
              && |o.notes| == 1 && IsForKey(o.notes[0], f, q)
              && (EntryAt(st, key).Some? ==>
                    o.notes[0] == Replied(EntryAt(st, key).value.waiter, PayloadIn(m.resp).value))
              && (EntryAt(st, key).None? ==> !o.notes[0].Replied?)
            else forall n <- o.notes :: !IsForKey(n, f, q)
  {
  }

  /** Only a message that answers the key routes a payload of the key, and then just one. */
  lemma PicksForKey(opts: ClientOpts, st: State, clientOpen: bool, m: Msg, f: ClientId, q: Seq)
    ensures var o := OnMsg(opts, st, clientOpen, m);
            Pick(o.notes, ForKey(f, q)) == if Answers(m, AskKey(f, q)) then o.notes else []
  {
    OutcomeForKey(opts, st, clientOpen, m, f, q);
    var o := OnMsg(opts, st, clientOpen, m);
    if Answers(m, AskKey(f, q)) {
      PickOne(o.notes[0], ForKey(f, q));
      assert o.notes == [o.notes[0]];
    } else {
      PickNone(o.notes, f, q);
    }
  }

  lemma {:induction false} PickNone(ns: seq<Note>, f: ClientId, q: Seq)
    requires forall n <- ns :: !IsForKey(n, f, q)
    ensures Pick(ns, ForKey(f, q)) == []
  {
    if ns != [] {
      assert ns[|ns| - 1] in ns;
      PickNone(ns[..|ns| - 1], f, q);
    }
  }

  lemma SettledNotes(opts: ClientOpts, c: Core, status: Status)
    ensures var c' := Settled(opts, c, status);
            c'.notes == c.notes || c'.notes == c.notes + [Shutdown(Protocol.Waiters(c.st))]
  {
  }

  lemma ProcessedForKey(opts: ClientOpts, c: Core, m: Msg, f: ClientId, q: Seq)
    ensures var c' := Processed(opts, c, m);
            && c.notes <= c'.notes
            && Pick(c'.notes[|c.notes|..], ForKey(f, q))
               == Pick(OnMsg(opts, c.st, c.clientOpen, m).notes, ForKey(f, q))
  {
    var o := OnMsg(opts, c.st, c.clientOpen, m);
    var c1 := Applied(c, m, o);
    SettledNotes(opts, c1, o.status);
    NewForKey(c.notes, o.notes, Protocol.Waiters(c1.st), f, q);
  }

  /** Notes `more` were added, and perhaps the actor's last one. */
  lemma NewForKey(ns: seq<Note>, more: seq<Note>, ws: set<CallId>, f: ClientId, q: Seq)
    ensures var last := [Shutdown(ws)];
            && ns <= ns + more && ns <= ns + more + last
            && Pick((ns + more)[|ns|..], ForKey(f, q)) == Pick(more, ForKey(f, q))
            && Pick((ns + more + last)[|ns|..], ForKey(f, q)) == Pick(more, ForKey(f, q))
  {
    var last := [Shutdown(ws)];
    SplitsBack(ns, more);
    Assoc(ns, more, last);
    SplitsBack(ns, more + last);
    PickSnoc(more, last[0], ForKey(f, q));
  }

  lemma SinceGrows(c0: Core, c: Core, c': Core, f: ClientId, q: Seq)
    requires c0.notes <= c.notes <= c'.notes
    ensures Since(c0, c', f, q) == Since(c0, c, f, q) + Pick(c'.notes[|c.notes|..], ForKey(f, q))
  {
    assert c'.notes[|c0.notes|..] == c.notes[|c0.notes|..] + c'.notes[|c.notes|..];
    PickConcat(c.notes[|c0.notes|..], c'.notes[|c.notes|..], ForKey(f, q));
  }

  /** `more` was routed for the key; its entry moved along. */
  predicate Moves(more: seq<Note>, over: bool, over': bool, entry: Option<Entry>, entry': Option<Entry>,
                  signals': nat, w: CallId) {
    && (over ==> over')
    && if more == [] then entry' == entry || (over' && entry' == None)
       else
         && |more| == 1 && entry' == None && !over
         && (entry.Some? && entry.value.waiter == w ==>
               more[0].Replied? && more[0].call == w && signals' == 1)
         && (entry.None? ==> !more[0].Replied?)
  }

  lemma TracksMove(ms: seq<Note>, more: seq<Note>, over: bool, over': bool,
                   entry: Option<Entry>, entry': Option<Entry>, signals: nat, signals': nat, w: CallId)
    requires Tracks(ms, over, entry, signals, w) && Moves(more, over, over', entry, entry', signals', w)
    requires signals <= signals' <= 1
    ensures Tracks(ms + more, over', entry', signals', w)
  {
    if more == [] { assert ms + more == ms; }
  }

  /** Notes `more` for the key were added; the entry of the key moved along with them. */
  lemma TrackedAdvance(c0: Core, c: Core, c': Core, more: seq<Note>, f: ClientId, q: Seq, w: CallId)
    requires Tracked(c0, c, f, q, w)
    requires c.notes <= c'.notes && Pick(c'.notes[|c.notes|..], ForKey(f, q)) == more
    requires Registered(c'.calls, w, AskKey(f, q))
    requires Count(c.notes, IsSignal(w)) <= Count(c'.notes, IsSignal(w)) <= 1
    requires Moves(more, c.phase.Over?, c'.phase.Over?, EntryAt(c.st, AskKey(f, q)), EntryAt(c'.st, AskKey(f, q)),
                   Count(c'.notes, IsSignal(w)), w)
    ensures Tracked(c0, c', f, q, w)
  {
    SinceGrows(c0, c, c', f, q);
    TracksMove(Since(c0, c, f, q), more, c.phase.Over?, c'.phase.Over?, EntryAt(c.st, AskKey(f, q)),
               EntryAt(c'.st, AskKey(f, q)), Count(c.notes, IsSignal(w)), Count(c'.notes, IsSignal(w)), w);
  }

  /** Handling one message; `c` is the state with `m` already taken off the mailbox. */
  lemma TrackedProcessed(opts: ClientOpts, c0: Core, c: Core, m: Msg, f: ClientId, q: Seq, w: CallId)
    requires Tracked(c0, c, f, q, w) && !c.phase.Over?
    requires Count(Processed(opts, c, m).notes, IsSignal(w)) <= 1
    requires !Registers(m, AskKey(f, q))
    ensures Tracked(c0, Processed(opts, c, m), f, q, w)
  {
    var key := AskKey(f, q);
    var c' := Processed(opts, c, m);
    var more := Pick(OnMsg(opts, c.st, c.clientOpen, m).notes, ForKey(f, q));
    OutcomeForKey(opts, c.st, c.clientOpen, m, f, q);
    PicksForKey(opts, c.st, c.clientOpen, m, f, q);
    ProcessedForKey(opts, c, m, f, q);
    EntryChanges(opts, c.st, c.clientOpen, m, key);
    ProcessedEntryOrOver(opts, c, m, key);
    ProcessedCount(opts, c, m, w);
    TrackedAdvance(c0, c, c', more, f, q, w);
  }

  lemma ProcessedCount(opts: ClientOpts, c: Core, m: Msg, w: CallId)
    ensures Count(c.notes, IsSignal(w)) + Count(OnMsg(opts, c.st, c.clientOpen, m).notes, IsSignal(w))
            <= Count(Processed(opts, c, m).notes, IsSignal(w))
    ensures var o := OnMsg(opts, c.st, c.clientOpen, m);
            |o.notes| == 1 && o.notes[0].Replied? && o.notes[0].call == w ==> Count(o.notes, IsSignal(w)) == 1
  {
    var o := OnMsg(opts, c.st, c.clientOpen, m);
    var c1 := Applied(c, m, o);
    CountConcat(c.notes, o.notes, IsSignal(w));
    SettledNotes(opts, c1, o.status);
    CountSnoc(c1.notes, Shutdown(Protocol.Waiters(c1.st)), IsSignal(w));
    if |o.notes| == 1 {
      CountOne(o.notes[0], IsSignal(w));
      assert o.notes == [o.notes[0]];
    }
  }

  lemma ProcessedEntryOrOver(opts: ClientOpts, c: Core, m: Msg, key: Key)
    requires !c.phase.Over?
    ensures var c' := Processed(opts, c, m);
            && c'.calls == c.calls
            && (c'.phase.Over? ==> EntryAt(c'.st, key) == None)
            && (!c'.phase.Over? ==> EntryAt(c'.st, key) == EntryAt(OnMsg(opts, c.st, c.clientOpen, m).st, key))
  {
  }

  lemma OtherPhase(opts: ClientOpts, c: Core, e: ActorEvent)
    requires !e.Take? && !e.StreamItem?
    ensures c.phase.Over? ==> ActorStep(opts, c, e).phase.Over?
  {
  }

  lemma OtherForKey(opts: ClientOpts, c: Core, e: ActorEvent, f: ClientId, q: Seq)
    requires !e.Take? && !e.StreamItem?
    ensures var c' := ActorStep(opts, c, e);
            && c.notes <= c'.notes && c'.calls == c.calls
            && Pick(c'.notes[|c.notes|..], ForKey(f, q)) == []
  {
    OtherActorFrame(opts, c, e);
    assert c.notes + [] == c.notes;
    NewForKey(c.notes, [], Protocol.Waiters(c.st), f, q);
  }

  /** No second wait for an ask's key can reach the actor. */
  lemma NoSecondWait(opts: ClientOpts, c: Core, m: Msg, f: ClientId, q: Seq, w: CallId)
    requires Inv(opts, c) && c.issued <= TWO_64 && m in c.box
    requires Registered(c.calls, w, AskKey(f, q))
    requires Pending(c.st, w) + Count(c.notes, IsSignal(w)) >= 1
    ensures !Registers(m, AskKey(f, q))
  {
    assert MsgOk(c.calls, m);
    if Registers(m, AskKey(f, q)) {
      AskKeysDistinct(opts, c, m.call, w, AskKey(f, q));
      assert OnePlace(c, w);
      CountZero(c.box, IsWait(w));
      assert false;
    }
  }

  lemma TrackedTake(opts: ClientOpts, c0: Core, c: Core, f: ClientId, q: Seq, w: CallId)
    requires Inv(opts, c) && c.issued <= TWO_64 && Tracked(c0, c, f, q, w)
    requires !c.phase.Over? && c.box != []
    requires Count(Processed(opts, Popped(c), c.box[0]).notes, IsSignal(w)) <= 1
    ensures Tracked(c0, Processed(opts, Popped(c), c.box[0]), f, q, w)
  {
    var m := c.box[0];
    assert m in c.box;
    WaiterAt(c.st, w);
    NoSecondWait(opts, c, m, f, q, w);
    assert Tracked(c0, Popped(c), f, q, w);
    TrackedProcessed(opts, c0, Popped(c), m, f, q, w);
  }

  lemma SignalsBounded(opts: ClientOpts, c: Core, e: Event, w: CallId)
    requires Inv(opts, c)
    ensures Count(Step(opts, c, e).notes, IsSignal(w)) <= 1
  {
    InvStep(opts, c, e);
    assert OnePlace(Step(opts, c, e), w);
  }

  lemma TrackedArrives(c0: Core, c: Core, resp: Response, f: ClientId, q: Seq, w: CallId)
    requires Tracked(c0, c, f, q, w) && c.box == []
    ensures Tracked(c0, Popped(Posted(Arrived(c, resp), RelayResponse(resp))), f, q, w)
  {
  }

  lemma TrackedRead(opts: ClientOpts, c0: Core, c: Core, resp: Response, f: ClientId, q: Seq, w: CallId)
    requires Tracked(c0, c, f, q, w) && !c.phase.Over? && c.box == []
    requires var m := RelayResponse(resp);
             Count(Processed(opts, Popped(Posted(Arrived(c, resp), m)), m).notes, IsSignal(w)) <= 1
    ensures var m := RelayResponse(resp);
            Tracked(c0, Processed(opts, Popped(Posted(Arrived(c, resp), m)), m), f, q, w)
  {
    var m := RelayResponse(resp);
    TrackedArrives(c0, c, resp, f, q, w);
    TrackedProcessed(opts, c0, Popped(Posted(Arrived(c, resp), m)), m, f, q, w);
  }

  lemma TrackedOther(opts: ClientOpts, c0: Core, c: Core, e: ActorEvent, f: ClientId, q: Seq, w: CallId)
    requires Inv(opts, c) && Tracked(c0, c, f, q, w)
    requires !e.Take? && !e.StreamItem?
    ensures Tracked(c0, ActorStep(opts, c, e), f, q, w)
  {
    SignalsBounded(opts, c, Task(e), w);
    OtherForKey(opts, c, e, f, q);
    OtherPhase(opts, c, e);
    OtherEntry(opts, c, e, AskKey(f, q));
    EmptiedStep(opts, c, Task(e));
    SignalsGrow(opts, c, Task(e), w);
    TrackedAdvance(c0, c, ActorStep(opts, c, e), [], f, q, w);
  }

  lemma TrackedActor(opts: ClientOpts, c0: Core, c: Core, e: ActorEvent, f: ClientId, q: Seq, w: CallId)
    requires Inv(opts, c) && c.issued <= TWO_64 && Tracked(c0, c, f, q, w)
    requires Count(ActorStep(opts, c, e).notes, IsSignal(w)) <= 1
    ensures Tracked(c0, ActorStep(opts, c, e), f, q, w)
  {
    match e
    case Take => if c.phase.Live? && c.box != [] { TrackedTake(opts, c0, c, f, q, w); }
    case StreamItem(resp) =>
      if c.phase == Live(false) && c.box == [] && resp.Some? { TrackedRead(opts, c0, c, resp.value, f, q, w); }
    case _ => TrackedOther(opts, c0, c, e, f, q, w);
  }

  lemma TrackedClient(opts: ClientOpts, c0: Core, c: Core, e: ClientEvent, f: ClientId, q: Seq, w: CallId)
    requires Traced(opts, c) && Tracked(c0, c, f, q, w)
    ensures Tracked(c0, ClientStep(opts, c, e), f, q, w)
  {
    ClientFrame(opts, c, e);
    TracedClient(opts, c, e);
    assert Advanced(c.calls[w], ClientStep(opts, c, e).calls[w]);
  }

  lemma TrackedStep(opts: ClientOpts, c0: Core, c: Core, e: Event, f: ClientId, q: Seq, w: CallId)
    requires Inv(opts, c) && c.issued <= TWO_64 && Tracked(c0, c, f, q, w)
    ensures Tracked(c0, Step(opts, c, e), f, q, w)
  {
    SignalsBounded(opts, c, e, w);
    match e
    case Client(e) => TrackedClient(opts, c0, c, e, f, q, w);
    case Wake(i) => TimerFrame(c, i);
    case Task(e) => TrackedActor(opts, c0, c, e, f, q, w);
  }

  lemma {:induction false} TrackedRun(opts: ClientOpts, c0: Core, es: seq<Event>, f: ClientId, q: Seq, w: CallId)
    requires Inv(opts, c0) && HasWaiter(c0.st, AskKey(f, q), w)
    requires RunFrom(opts, c0, es).issued <= TWO_64
    ensures Tracked(c0, RunFrom(opts, c0, es), f, q, w)
  {
    if es == [] {
      assert EntryOk(c0.calls, AskKey(f, q), EntryAt(c0.st, AskKey(f, q)).value);
    } else {
      var c := RunFrom(opts, c0, es[..|es| - 1]);
      InvRunFrom(opts, c0, es[..|es| - 1]);
      TicketedStep(opts, c, es[|es| - 1]);
      TrackedRun(opts, c0, es[..|es| - 1], f, q, w);
      TrackedStep(opts, c0, c, es[|es| - 1], f, q, w);
    }
  }

  // ---- in order, and to the client ----

  function OfKey(f: ClientId, q: Seq): Received -> Option<Received> {
    (got: Received) => if got.from.id == f && got.seqNo == q then Some(got) else None
  }

  /** The payloads from `f` under `q` among messages. */
  function PayloadsFor(ms: seq<Msg>, f: ClientId, q: Seq): seq<Received> {
    Pick(Pick(ms, AsPayload()), OfKey(f, q))
  }

  lemma {:induction false} KeyPayloads(ns: seq<Note>, f: ClientId, q: Seq)
    ensures Pick(Pick(ns, ForKey(f, q)), AsRouted()) == Pick(Pick(ns, AsRouted()), OfKey(f, q))
  {
    if ns != [] {
      var n := ns[|ns| - 1];
      KeyPayloads(ns[..|ns| - 1], f, q);
      PickConcat(Pick(ns[..|ns| - 1], ForKey(f, q)), Optional(ForKey(f, q)(n)), AsRouted());
      PickConcat(Pick(ns[..|ns| - 1], AsRouted()), Optional(AsRouted()(n)), OfKey(f, q));
      PickOne(n, AsRouted());
      if RoutedBy(n).Some? { PickOne(RoutedBy(n).value, OfKey(f, q)); }
    }
  }

  /** What two histories have routed and handled since agree if they agreed before and agree now. */
  lemma DeltasAgree(ns0: seq<Note>, ns1: seq<Note>, ms0: seq<Msg>, ms1: seq<Msg>)
    requires ns0 <= ns1 && ms0 <= ms1
    requires Pick(ns0, AsRouted()) == Pick(ms0, AsPayload())
    requires Pick(ns1, AsRouted()) == Pick(ms1, AsPayload())
    ensures Pick(ns1[|ns0|..], AsRouted()) == Pick(ms1[|ms0|..], AsPayload())
  {
    PickDelta(ns0, ns1, AsRouted());
    PickDelta(ms0, ms1, AsPayload());
  }

  lemma PickDelta<T, U>(s0: seq<T>, s1: seq<T>, f: T -> Option<U>)
    requires s0 <= s1
    ensures |Pick(s0, f)| <= |Pick(s1, f)|
    ensures Pick(s1[|s0|..], f) == Pick(s1, f)[|Pick(s0, f)|..]
  {
    assert s1 == s0 + s1[|s0|..];
    PickConcat(s0, s1[|s0|..], f);
  }

  /** The payloads routed since are those handled since. */
  lemma SincePayloads(c0: Core, c: Core, f: ClientId, q: Seq)
    requires InOrder(c0) && InOrder(c) && c0.notes <= c.notes && c0.handled <= c.handled
    ensures Pick(Since(c0, c, f, q), AsRouted()) == PayloadsFor(c.handled[|c0.handled|..], f, q)
  {
    RoutedInOrder(c0);
    RoutedInOrder(c);
    DeltasAgree(c0.notes, c.notes, c0.handled, c.handled);
    KeyPayloads(c.notes[|c0.notes|..], f, q);
  }

  lemma RoutedInOrder(c: Core)
    requires InOrder(c)
    ensures Pick(c.notes, AsRouted()) == Pick(c.handled, AsPayload())
  {
  }

  lemma HandledGrows(opts: ClientOpts, c: Core, e: Event)
    ensures c.handled <= Step(opts, c, e).handled
  {
    match e
    case Client(e) => ClientFrame(opts, c, e);
    case Wake(i) => TimerFrame(c, i);
    case Task(e) =>
      match e
      case Take =>
        if c.phase.Live? && c.box != [] { ProcessedEntry(opts, Popped(c), c.box[0], AckKey(0)); }
      case StreamItem(resp) =>
        if c.phase == Live(false) && c.box == [] && resp.Some? {
          var m := RelayResponse(resp.value);
          ProcessedEntry(opts, Popped(Posted(Arrived(c, resp.value), m)), m, AckKey(0));
        }
      case _ => OtherActorFrame(opts, c, e);
  }

  lemma {:induction false} HandledGrowsRun(opts: ClientOpts, c: Core, es: seq<Event>)
    ensures c.handled <= RunFrom(opts, c, es).handled
  {
    if es != [] {
      HandledGrowsRun(opts, c, es[..|es| - 1]);
      HandledGrows(opts, RunFrom(opts, c, es[..|es| - 1]), es[|es| - 1]);
    }
  }

  /** While a client handle lives, no payload was lost for want of one. */
  ghost predicate NoneLost(c: Core) {
    c.clientOpen ==> forall n <- c.notes :: !n.Undelivered?
  }

  lemma NoneLostProcessed(opts: ClientOpts, c: Core, m: Msg)
    requires NoneLost(c)
    ensures NoneLost(Processed(opts, c, m))
  {
    assert NoneLost(Applied(c, m, OnMsg(opts, c.st, c.clientOpen, m)));
  }

  lemma NoneLostStep(opts: ClientOpts, c: Core, e: Event)
    requires NoneLost(c)
    ensures NoneLost(Step(opts, c, e))
  {
    match e
    case Client(e) => ClientFrame(opts, c, e);
    case Wake(i) => TimerFrame(c, i);
    case Task(e) =>
      match e
      case Take => if c.phase.Live? && c.box != [] { NoneLostProcessed(opts, Popped(c), c.box[0]); }
      case StreamItem(resp) =>
        if c.phase == Live(false) && c.box == [] && resp.Some? {
          var m := RelayResponse(resp.value);
          NoneLostProcessed(opts, Popped(Posted(Arrived(c, resp.value), m)), m);
        }
      case _ =>
  }

  lemma {:induction false} NoneLostRun(opts: ClientOpts, es: seq<Event>)
    ensures NoneLost(Run(opts, es))
  {
    if es != [] {
      NoneLostRun(opts, es[..|es| - 1]);
      NoneLostStep(opts, Run(opts, es[..|es| - 1]), es[|es| - 1]);
    }
  }

  lemma {:induction false} PickedFrom(ns: seq<Note>, f: ClientId, q: Seq)
    ensures forall n <- Pick(ns, ForKey(f, q)) :: n in ns && IsForKey(n, f, q)
  {
    if ns != [] {
      PickedFrom(ns[..|ns| - 1], f, q);
      assert ns == ns[..|ns| - 1] + [ns[|ns| - 1]];
    }
  }

  /** Once ask `w` is pending under (`f`, `q`), the first payload from `f` under `q` answers it. Every
      later one goes to the client while a handle lives, and to no ask in any case. What was routed is
      what arrived and was handled, in order. Until the first comes the ask stays pending, unless the
      actor ends. */
  lemma AskTakesFirst(opts: ClientOpts, es: seq<Event>, es': seq<Event>, f: ClientId, q: Seq, w: CallId)
    requires HasWaiter(Run(opts, es).st, AskKey(f, q), w)
    requires Run(opts, es + es').issued <= TWO_64
    ensures var c, c' := Run(opts, es), Run(opts, es + es');
            && c.notes <= c'.notes && c.handled <= c'.handled
            && var ms := Since(c, c', f, q);
               && Pick(ms, AsRouted()) == PayloadsFor(c'.handled[|c.handled|..], f, q)
               && (ms == [] ==> c'.phase.Over? || HasWaiter(c'.st, AskKey(f, q), w))
               && (ms != [] ==> FirstTo(ms, w))
               && (c'.clientOpen ==> forall i :: 0 < i < |ms| ==> ms[i].ToClient?)
  {
    var c, c' := Run(opts, es), Run(opts, es + es');
    InvRun(opts, es);
    InvRun(opts, es + es');
    RunConcat(opts, Start(), es, es');
    TrackedRun(opts, c, es', f, q, w);
    HandledGrowsRun(opts, c, es');
    SincePayloads(c, c', f, q);
    NoneLostRun(opts, es + es');
    if c'.clientOpen { LaterToClient(c, c', f, q, w); }
  }

  lemma LaterToClient(c: Core, c': Core, f: ClientId, q: Seq, w: CallId)
    requires Tracked(c, c', f, q, w) && NoneLost(c') && c'.clientOpen
    ensures var ms := Since(c, c', f, q); forall i :: 0 < i < |ms| ==> ms[i].ToClient?
  {
    var ms := Since(c, c', f, q);
    PickedFrom(c'.notes[|c.notes|..], f, q);
    forall i | 0 < i < |ms| ensures ms[i].ToClient? {
      assert ms[i] in ms;
      assert ms[i] in c'.notes;
      assert RoutedBy(ms[i]).Some?;
    }
  }
}
