/** The outbound path: one queue that outlives connections, and per connection a task that moves items
    from the queue into a bounded buffer, from which the connection's stream takes them. */
module Forwarder {
  import opened Sequences
  import opened Actor

  /** The capacity of a connection's buffer. */
  const CAPACITY: nat := 4

  /** One connection's task and stream. `taken` and `lost` are histories. */
  datatype Conn = Conn(
    taken: seq<Item>,       // everything popped off the queue
    hand: Option<Item>,     // popped, not yet in the buffer
    buffer: seq<Item>,
    sent: seq<Item>,        // taken by the connection's stream
    arrived: nat,           // how many of those reached the server
    lost: seq<Item>,
    cancelled: bool,        // the cancellation flag
    rxOpen: bool,           // the stream still holds the buffer's receiving end
    running: bool)          // the task has not ended

  const FRESH := Conn([], None, [], [], 0, [], false, true, true)

  /** The select takes an item: it looks at the cancellation flag first. */
  predicate CanGrab(c: Conn, queue: seq<Item>) {
    c.running && !c.cancelled && c.hand.None? && queue != []
  }

  function Grabbed(c: Conn, it: Item): Conn {
    c.(hand := Some(it), taken := c.taken + [it])
  }

  predicate CanPut(c: Conn) {
    c.hand.Some? && c.rxOpen && |c.buffer| < CAPACITY
  }

  function PutIn(c: Conn): Conn
    requires c.hand.Some?
  {
    c.(buffer := c.buffer + [c.hand.value], hand := None)
  }

  /** Sending into a buffer whose receiver is gone fails, and the task ends. */
  predicate CanBounce(c: Conn) {
    c.hand.Some? && !c.rxOpen
  }

  function Bounced(c: Conn): Conn
    requires c.hand.Some?
  {
    c.(lost := c.lost + [c.hand.value], hand := None, running := false)
  }

  predicate CanQuit(c: Conn) {
    c.running && c.cancelled && c.hand.None?
  }

  function QuitTask(c: Conn): Conn {
    c.(running := false)
  }

  // ---- the spawned task ----

  function HandSeq(c: Conn): seq<Item> {
    Optional(c.hand)
  }

  /** The task runs until it ends or has to wait. */
  function Settle(c: Conn, queue: seq<Item>): (Conn, seq<Item>)
    decreases |queue|, |HandSeq(c)|
  {
    if CanBounce(c) then (Bounced(c), queue)
    else if CanPut(c) then Settle(PutIn(c), queue)
    else if CanQuit(c) then (QuitTask(c), queue)
    else if CanGrab(c, queue) then Settle(Grabbed(c, queue[0]), queue[1..])
    else (c, queue)
  }

  /** On an open, uncancelled connection the task fills the buffer from the front of the queue, keeps
      one more item in hand, and leaves the rest queued. */
  lemma {:induction false} SettleFills(c: Conn, queue: seq<Item>)
    requires c.rxOpen && !c.cancelled && c.running && |c.buffer| <= CAPACITY
    ensures var (c', queue') := Settle(c, queue);
            var line := c.buffer + HandSeq(c) + queue;
            && c'.running
            && c'.buffer == (if |line| <= 4 then line else line[..4])
            && HandSeq(c') == (if |line| <= 4 then [] else [line[4]])
            && queue' == (if |line| <= 4 then [] else line[5..])
    decreases |queue|, |HandSeq(c)|
  {
    if CanPut(c) {
      SettleFills(PutIn(c), queue);
      assert PutIn(c).buffer + HandSeq(PutIn(c)) + queue == c.buffer + HandSeq(c) + queue;
    } else if CanGrab(c, queue) {
      var c1 := Grabbed(c, queue[0]);
      SettleFills(c1, queue[1..]);
      assert c1.buffer + HandSeq(c1) + queue[1..] == c.buffer + HandSeq(c) + queue;
    }
  }

  /** Once cancelled, the task takes nothing more, on an open connection too: it puts what it holds into
      the buffer and ends, or waits with it while the buffer is full. */
  lemma SettleCancelled(c: Conn, queue: seq<Item>)
    requires c.rxOpen && c.cancelled && c.running
    ensures var (c', queue') := Settle(c, queue);
            && queue' == queue
            && if c.hand.Some? && |c.buffer| >= 4 then c' == c
               else c' == c.(buffer := c.buffer + HandSeq(c), hand := None, running := false)
  {
    assert c.hand.None? ==> c.buffer + HandSeq(c) == c.buffer;
  }

  /** On a closed connection the task loses one item at most before it ends. */
  lemma SettleClosed(c: Conn, queue: seq<Item>)
    requires !c.rxOpen && c.running
    ensures var (c', queue') := Settle(c, queue);
            && c'.hand == None
            && c'.lost + queue' == c.lost + HandSeq(c) + queue
            && |c'.lost| <= |c.lost| + 1
            && (|c'.lost| > |c.lost| || c.cancelled ==> !c'.running)
            && (c.cancelled && c.hand.None? ==> c'.lost == c.lost)
  {
    if c.hand.None? && CanGrab(c, queue) {
      assert CanBounce(Grabbed(c, queue[0]));
      assert [queue[0]] + queue[1..] == queue;
    }
  }

  /** The queue shared by all connections. */
  class Flume {
    var queue: seq<Item>

    constructor ()
      ensures queue == []
    {
      queue := [];
    }

    method Send(it: Item)
      modifies this
      ensures queue == old(queue) + [it]
    {
      queue := queue + [it];
    }
  }

  /** The task that `new` spawns, with the buffer it fills. */
  class Task {
    const flume: Flume
    var taken: seq<Item>
    var hand: Option<Item>
    var buffer: seq<Item>
    var sent: seq<Item>
    var arrived: nat
    var lost: seq<Item>
    var cancelled: bool
    var rxOpen: bool
    var running: bool

    constructor (flume: Flume)
      ensures this.flume == flume && Current() == FRESH
    {
      this.flume := flume;
      taken, hand, buffer, sent, arrived, lost := [], None, [], [], 0, [];
      cancelled, rxOpen, running := false, true, true;
    }

    function Current(): Conn
      reads this
    {
      Conn(taken, hand, buffer, sent, arrived, lost, cancelled, rxOpen, running)
    }

    /** Runs the loop from wherever it waits until it ends or has to wait again. */
    method Resume()
      modifies this, flume
      ensures (Current(), flume.queue) == old(Settle(Current(), flume.queue))
    {
      var waits := false;
      while !waits
        invariant if waits then (Current(), flume.queue) == old(Settle(Current(), flume.queue))
                  else Settle(Current(), flume.queue) == old(Settle(Current(), flume.queue))
        decreases !waits, |flume.queue|, |HandSeq(Current())|
      {
        if hand.Some? {
          if !rxOpen {
            lost, hand, running := lost + [hand.value], None, false;
            waits := true;
          } else if |buffer| < CAPACITY {
            buffer, hand := buffer + [hand.value], None;
          } else {
            waits := true;
          }
        } else if !running {
          waits := true;
        } else if cancelled {
          running := false;
          waits := true;
        } else if flume.queue == [] {
          waits := true;
        } else {
          hand, taken := Some(flume.queue[0]), taken + [flume.queue[0]];
          flume.queue := flume.queue[1..];
        }
      }
    }
  }

  // ---- all connections ----

  datatype Wire = Wire(pushed: seq<Item>, queue: seq<Item>, conns: seq<Conn>)

  datatype WireEvent =
    | Grab(k: nat) | Put(k: nat) | Bounce(k: nat) | Quit(k: nat)
    | Consume(k: nat)      // the stream takes from the buffer
    | Arrive(k: nat)       // one more of the sent items reaches the server
    | Close(k: nat)        // the stream drops the receiving end

  function Pushed(w: Wire, items: seq<Item>): Wire {
    w.(pushed := w.pushed + items, queue := w.queue + items)
  }

  predicate AllCancelled(w: Wire) {
    forall i :: 0 <= i < |w.conns| ==> w.conns[i].cancelled
  }

  function Opened(w: Wire): Wire {
    w.(conns := w.conns + [FRESH])
  }

  function Cancelled(w: Wire): Wire {
    if w.conns == [] then w
    else w.(conns := w.conns[|w.conns| - 1 := w.conns[|w.conns| - 1].(cancelled := true)])
  }

  function With(w: Wire, k: nat, c: Conn): Wire
    requires k < |w.conns|
  {
    w.(conns := w.conns[k := c])
  }

  function WireStep(w: Wire, e: WireEvent): Wire {
    if e.k >= |w.conns| then w else
    var c := w.conns[e.k];
    match e
    case Grab(k) =>
      if CanGrab(c, w.queue) then With(w, k, Grabbed(c, w.queue[0])).(queue := w.queue[1..]) else w
    case Put(k) => if CanPut(c) then With(w, k, PutIn(c)) else w
    case Bounce(k) => if CanBounce(c) then With(w, k, Bounced(c)) else w
    case Quit(k) => if CanQuit(c) then With(w, k, QuitTask(c)) else w
    case Consume(k) =>
      if c.rxOpen && c.buffer != [] then
        With(w, k, c.(sent := c.sent + [c.buffer[0]], buffer := c.buffer[1..]))
      else w
    case Arrive(k) => if c.arrived < |c.sent| then With(w, k, c.(arrived := c.arrived + 1)) else w
    case Close(k) =>
      if c.rxOpen then With(w, k, c.(rxOpen := false, lost := c.lost + c.buffer, buffer := [])) else w
  }

  function WireRun(w: Wire, es: seq<WireEvent>): Wire
    decreases |es|
  {
    if es == [] then w else WireRun(WireStep(w, es[0]), es[1..])
  }

  /** What the task does before it waits, as steps of its connection: the class `Task` runs the same
      machine that the theorems below are about. */
  lemma {:induction false} SettleSteps(w: Wire, k: nat) returns (es: seq<WireEvent>)
    requires k < |w.conns|
    ensures var (c', queue') := Settle(w.conns[k], w.queue);
            WireRun(w, es) == With(w, k, c').(queue := queue')
    ensures forall e <- es :: e in {Grab(k), Put(k), Bounce(k), Quit(k)}
    decreases |w.queue|, |HandSeq(w.conns[k])|
  {
    var c := w.conns[k];
    var e;
    if CanBounce(c) {
      return [Bounce(k)];
    } else if CanPut(c) {
      e := Put(k);
    } else if CanQuit(c) {
      return [Quit(k)];
    } else if CanGrab(c, w.queue) {
      e := Grab(k);
    } else {
      assert With(w, k, c) == w;
      return [];
    }
    var rest := SettleSteps(WireStep(w, e), k);
    es := [e] + rest;
    assert es[1..] == rest;
  }

  lemma {:induction false} WireRunConcat(w: Wire, es: seq<WireEvent>, es': seq<WireEvent>)
    ensures WireRun(w, es + es') == WireRun(WireRun(w, es), es')
    decreases |es|
  {
    if es == [] {
      assert es + es' == es';
    } else {
      assert (es + es')[1..] == es[1..] + es';
      WireRunConcat(WireStep(w, es[0]), es[1..], es');
    }
  }

  /** The bound on losses is reached: of five items or more in the queue a new connection can lose the
      first five. */
  lemma FiveLost(w: Wire) returns (es: seq<WireEvent>)
    requires w.conns == [FRESH] && |w.queue| >= 5
    ensures var w' := WireRun(w, es);
            |w'.conns| == 1 && w'.conns[0].lost == w.queue[..5] && w'.queue == w.queue[5..]
  {
    var filled := SettleSteps(w, 0);
    SettleFills(FRESH, w.queue);
    assert FRESH.buffer + HandSeq(FRESH) + w.queue == w.queue;
    SettleLoses(FRESH, w.queue);
    WireRunConcat(w, filled, [Close(0), Bounce(0)]);
    LosesAll(WireRun(w, filled));
    assert w.queue[..5] == w.queue[..4] + [w.queue[4]];
    es := filled + [Close(0), Bounce(0)];
  }

  /** The only connection closes while its task holds an item. */
  lemma LosesAll(w: Wire)
    requires |w.conns| == 1 && w.conns[0].rxOpen && w.conns[0].hand.Some?
    ensures var w', c := WireRun(w, [Close(0), Bounce(0)]), w.conns[0];
            |w'.conns| == 1 && w'.conns[0].lost == c.lost + c.buffer + [c.hand.value] && w'.queue == w.queue
  {
    var es := [Close(0), Bounce(0)];
    assert es[1..] == [Bounce(0)] && es[1..][1..] == [];
    var w1 := WireStep(w, es[0]);
    assert WireRun(w, es) == WireRun(w1, [Bounce(0)]) == WireRun(WireStep(w1, Bounce(0)), []);
  }

  /** The task loses nothing while its connection is open, and does not close it. */
  lemma {:induction false} SettleLoses(c: Conn, queue: seq<Item>)
    requires c.rxOpen
    ensures Settle(c, queue).0.rxOpen && Settle(c, queue).0.lost == c.lost
    decreases |queue|, |HandSeq(c)|
  {
    if CanPut(c) { SettleLoses(PutIn(c), queue); }
    else if CanGrab(c, queue) { SettleLoses(Grabbed(c, queue[0]), queue[1..]); }
  }

  /** What a connection took is what it sent, lost, buffers and holds, in this order; it loses the
      contents of its buffer and one more item at most. */
  predicate ConnOk(c: Conn) {
    && c.taken == c.sent + c.lost + c.buffer + HandSeq(c)
    && |c.buffer| <= CAPACITY
    && (c.rxOpen ==> c.lost == [])
    && (!c.rxOpen ==> c.buffer == [])
    && |c.lost| <= CAPACITY + 1
    && (c.running ==> |c.lost| <= CAPACITY)
    && (!c.running ==> c.hand == None)
    && c.arrived <= |c.sent|
  }

  /** The parts `f` of the connections, joined in connection order. */
  function Joined(conns: seq<Conn>, f: Conn -> seq<Item>): seq<Item> {
    if conns == [] then [] else Joined(conns[..|conns| - 1], f) + f(conns[|conns| - 1])
  }

  function TakenOf(): Conn -> seq<Item> { (c: Conn) => c.taken }
  function SentOf(): Conn -> seq<Item> { (c: Conn) => c.sent }
  function LostOf(): Conn -> seq<Item> { (c: Conn) => c.lost }
  function BufferOf(): Conn -> seq<Item> { (c: Conn) => c.buffer }
  function HandOf(): Conn -> seq<Item> { (c: Conn) => HandSeq(c) }

  ghost predicate WireOk(w: Wire) {
    && w.pushed == Joined(w.conns, TakenOf()) + w.queue
    && (forall c <- w.conns :: ConnOk(c))
    && (forall i :: 0 <= i < |w.conns| - 1 ==> w.conns[i].cancelled)
  }

  lemma {:induction false} JoinedSame(a: seq<Conn>, b: seq<Conn>, f: Conn -> seq<Item>)
    requires |a| == |b| && forall i :: 0 <= i < |a| ==> f(a[i]) == f(b[i])
    ensures Joined(a, f) == Joined(b, f)
  {
    if a != [] { JoinedSame(a[..|a| - 1], b[..|b| - 1], f); }
  }

  /** A step on one connection that keeps what it took. */
  lemma WithOk(w: Wire, k: nat, c: Conn)
    requires WireOk(w) && k < |w.conns|
    requires ConnOk(c) && c.taken == w.conns[k].taken && (w.conns[k].cancelled ==> c.cancelled)
    ensures WireOk(With(w, k, c))
  {
    JoinedSame(w.conns, With(w, k, c).conns, TakenOf());
  }

  lemma GrabOk(w: Wire, k: nat)
    requires WireOk(w) && k < |w.conns| && CanGrab(w.conns[k], w.queue)
    ensures WireOk(WireStep(w, Grab(k)))
  {
    var w' := WireStep(w, Grab(k));
    var n := |w.conns| - 1;
    assert k == n;
    assert w.conns[n] in w.conns;
    assert w'.conns[..n] == w.conns[..n];
    assert ConnOk(w'.conns[n]);
    assert w.queue == [w.queue[0]] + w'.queue;
  }

  lemma ConsumeOk(w: Wire, k: nat)
    requires WireOk(w) && k < |w.conns|
    ensures WireOk(WireStep(w, Consume(k)))
  {
    var c := w.conns[k];
    assert ConnOk(c);
    if c.rxOpen && c.buffer != [] {
      assert c.buffer == [c.buffer[0]] + c.buffer[1..];
      var c' := c.(sent := c.sent + [c.buffer[0]], buffer := c.buffer[1..]);
      assert ConnOk(c');
      WithOk(w, k, c');
    }
  }

  lemma ArriveOk(w: Wire, k: nat)
    requires WireOk(w) && k < |w.conns|
    ensures WireOk(WireStep(w, Arrive(k)))
  {
    var c := w.conns[k];
    assert ConnOk(c);
    if c.arrived < |c.sent| { WithOk(w, k, c.(arrived := c.arrived + 1)); }
  }

  lemma CloseOk(w: Wire, k: nat)
    requires WireOk(w) && k < |w.conns|
    ensures WireOk(WireStep(w, Close(k)))
  {
    var c := w.conns[k];
    assert ConnOk(c);
    if c.rxOpen {
      var c' := c.(rxOpen := false, lost := c.lost + c.buffer, buffer := []);
      assert ConnOk(c');
      WithOk(w, k, c');
    }
  }

  /** What the task does to its connection. */
  lemma TaskOk(w: Wire, e: WireEvent)
    requires WireOk(w) && (e.Put? || e.Bounce? || e.Quit?) && e.k < |w.conns|
    ensures WireOk(WireStep(w, e))
  {
    var c := w.conns[e.k];
    assert ConnOk(c);
    WithOk(w, e.k, WireStep(w, e).conns[e.k]);
  }

  lemma WireOkStep(w: Wire, e: WireEvent)
    requires WireOk(w)
    ensures WireOk(WireStep(w, e))
  {
    if e.k < |w.conns| {
      match e
      case Grab(k) => if CanGrab(w.conns[k], w.queue) { GrabOk(w, k); }
      case Put(_) => TaskOk(w, e);
      case Bounce(_) => TaskOk(w, e);
      case Quit(_) => TaskOk(w, e);
      case Consume(k) => ConsumeOk(w, k);
      case Arrive(k) => ArriveOk(w, k);
      case Close(k) => CloseOk(w, k);
    }
  }

  lemma WireStepFrame(w: Wire, e: WireEvent)
    ensures WireStep(w, e).pushed == w.pushed && |WireStep(w, e).conns| == |w.conns|
    ensures forall i :: 0 <= i < |w.conns| ==> w.conns[i].cancelled == WireStep(w, e).conns[i].cancelled
  {
  }

  lemma PushedOk(w: Wire, items: seq<Item>)
    requires WireOk(w)
    ensures WireOk(Pushed(w, items))
  {
    assert Joined(w.conns, TakenOf()) + (w.queue + items) == Joined(w.conns, TakenOf()) + w.queue + items;
  }

  lemma OpenedOk(w: Wire)
    requires WireOk(w) && AllCancelled(w)
    ensures WireOk(Opened(w))
  {
    assert Opened(w).conns[..|w.conns|] == w.conns;
  }

  lemma CancelledOk(w: Wire)
    requires WireOk(w)
    ensures WireOk(Cancelled(w)) && AllCancelled(Cancelled(w))
  {
    if w.conns != [] {
      var n := |w.conns| - 1;
      assert ConnOk(w.conns[n]);
      WithOk(w, n, w.conns[n].(cancelled := true));
    }
  }

  // ---- what follows of every wire that meets the invariant ----

  /** Every queued item is in exactly one place: the queue, a hand, a buffer, a stream or lost. */
  lemma EveryItemOnePlace(w: Wire)
    requires WireOk(w)
    ensures multiset(w.pushed) ==
            multiset(w.queue) + multiset(Joined(w.conns, HandOf())) + multiset(Joined(w.conns, BufferOf()))
            + multiset(Joined(w.conns, SentOf())) + multiset(Joined(w.conns, LostOf()))
  {
    JoinedParts(w.conns);
  }

  lemma {:induction false} JoinedParts(conns: seq<Conn>)
    requires forall c <- conns :: ConnOk(c)
    ensures multiset(Joined(conns, TakenOf())) ==
            multiset(Joined(conns, HandOf())) + multiset(Joined(conns, BufferOf()))
            + multiset(Joined(conns, SentOf())) + multiset(Joined(conns, LostOf()))
  {
    if conns != [] {
      var c := conns[|conns| - 1];
      assert c in conns && ConnOk(c);
      JoinedParts(conns[..|conns| - 1]);
    }
  }

  /** The streams' items, joined in connection order, are a subsequence of what was queued: nothing is
      reordered or duplicated, within a connection or across connections. Each has its own position in
      the queue's history, and the positions rise. */
  lemma SentInOrder(w: Wire) returns (at: seq<nat>)
    requires WireOk(w)
    ensures Subsequence(Joined(w.conns, SentOf()), w.pushed)
    ensures var sent := Joined(w.conns, SentOf());
            && |at| == |sent| && (forall i :: 0 <= i < |at| ==> at[i] < |w.pushed| && w.pushed[at[i]] == sent[i])
            && forall i, j :: 0 <= i < j < |at| ==> at[i] < at[j]
  {
    SentWithinTaken(w.conns);
    SubsequencePrefix([], w.queue);
    SubsequenceConcat(Joined(w.conns, SentOf()), Joined(w.conns, TakenOf()), [], w.queue);
    assert Joined(w.conns, SentOf()) + [] == Joined(w.conns, SentOf());
    at := SubsequenceAt(Joined(w.conns, SentOf()), w.pushed);
  }

  lemma {:induction false} SentWithinTaken(conns: seq<Conn>)
    requires forall c <- conns :: ConnOk(c)
    ensures Subsequence(Joined(conns, SentOf()), Joined(conns, TakenOf()))
  {
    if conns != [] {
      var c := conns[|conns| - 1];
      assert c in conns && ConnOk(c);
      SentWithinTaken(conns[..|conns| - 1]);
      SubsequencePrefix(c.sent, c.taken);
      SubsequenceConcat(Joined(conns[..|conns| - 1], SentOf()), Joined(conns[..|conns| - 1], TakenOf()),
                        c.sent, c.taken);
    }
  }

  /** Each connection loses at most the capacity of its buffer and one item, the last it took. */
  lemma {:induction false} LossBounded(conns: seq<Conn>)
    requires forall c <- conns :: ConnOk(c)
    ensures forall c <- conns :: |c.lost| <= CAPACITY + 1
    ensures |Joined(conns, LostOf())| <= (CAPACITY + 1) * |conns|
  {
    if conns != [] {
      assert conns[|conns| - 1] in conns;
      LossBounded(conns[..|conns| - 1]);
      assert conns == conns[..|conns| - 1] + [conns[|conns| - 1]];
    }
  }

  /** The streams carry no more items of a kind than were queued. */
  lemma SentCount(w: Wire, p: Item -> bool)
    requires WireOk(w)
    ensures Count(Joined(w.conns, SentOf()), p) <= Count(w.pushed, p)
  {
    CountConcat(Joined(w.conns, TakenOf()), w.queue, p);
    SentCountTaken(w.conns, p);
  }

  lemma {:induction false} SentCountTaken(conns: seq<Conn>, p: Item -> bool)
    requires forall c <- conns :: ConnOk(c)
    ensures Count(Joined(conns, SentOf()), p) <= Count(Joined(conns, TakenOf()), p)
  {
    if conns != [] {
      var c := conns[|conns| - 1];
      assert c in conns && ConnOk(c);
      SentCountTaken(conns[..|conns| - 1], p);
      SentCountOne(c, p);
      CountConcat(Joined(conns[..|conns| - 1], SentOf()), c.sent, p);
      CountConcat(Joined(conns[..|conns| - 1], TakenOf()), c.taken, p);
    }
  }

  lemma SentCountOne(c: Conn, p: Item -> bool)
    requires ConnOk(c)
    ensures Count(c.sent, p) <= Count(c.taken, p)
  {
    assert c.taken == c.sent + (c.lost + c.buffer + HandSeq(c));
    CountConcat(c.sent, c.lost + c.buffer + HandSeq(c), p);
  }
}
