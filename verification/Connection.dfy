/** The loops of one connection against the state machine: the loop of `connect` and the receive loop. */
module Connection {
  import opened Sequences
  import opened Messages
  import opened Actor
  import opened Protocol
  import Routing

  // ---- the receive loop ----

  /** What an event of the state machine is to the receive loop: a message posted by a caller or a timer,
      a response read, or the break of the stream. */
  function TickOf(opts: ClientOpts, c: Core, e: Event): seq<Tick> {
    match e
    case Task(StreamItem(resp)) => if c.phase == Live(false) && c.box == [] then [Reads(resp)] else []
    case Task(StreamFails) => if c.phase.Live? && c.box == [] then [Broken] else []
    case Task(_) => []
    case _ =>
      var posted := Step(opts, c, e).posted;
      if |posted| > |c.posted| then [Post(posted[|c.posted|])] else []
  }

  /** The feed that a run gives to the receive loop. */
  function FeedOf(opts: ClientOpts, c: Core, es: seq<Event>): seq<Tick> {
    if es == [] then []
    else
      var before := es[..|es| - 1];
      FeedOf(opts, c, before) + TickOf(opts, RunFrom(opts, c, before), es[|es| - 1])
  }

  /** The timer that an event fires. */
  function FiredBy(c: Core, e: Event): seq<Msg> {
    if e.Wake? && e.i < |c.sleeping| then [c.sleeping[e.i]] else []
  }

  function FiredIn(opts: ClientOpts, c: Core, es: seq<Event>): seq<Msg> {
    if es == [] then []
    else
      var before := es[..|es| - 1];
      FiredIn(opts, c, before) + FiredBy(RunFrom(opts, c, before), es[|es| - 1])
  }

  /** `c`, reached from `c0` on one connection, has handled the messages `taken` with outcome `acc`. */
  ghost predicate Serving(f: Handling, c0: Core, c: Core, feed: seq<Tick>, fired: seq<Msg>,
                          taken: seq<Msg>, acc: Outcome) {
    var input := Pick(feed, AsInput());
    && Broken !in feed
    && OnAll(f, 0, c0.st, taken) == (acc, |taken|) && acc.status == Continue
    && taken + c.box == c0.box + input
    && c == c0.(box := c.box, handled := c0.handled + taken, posted := c0.posted + input, st := acc.st,
                pushed := c0.pushed + acc.pushes, notes := c0.notes + acc.notes,
                sleeping := c.sleeping, calls := c.calls, issued := c.issued, arrivals := c.arrivals,
                clientOpen := c.clientOpen)
    && multiset(c.sleeping) + multiset(fired) == multiset(c0.sleeping) + multiset(acc.timers)
  }

  /** `c`, reached from `c0`, is where the receive loop leaves the state machine: the mailbox and the
      input before the break were handled in order up to the first message that ends the loop. */
  ghost predicate Concluded(opts: ClientOpts, f: Handling, c0: Core, c: Core, feed: seq<Tick>, fired: seq<Msg>) {
    var left := Left(c0.box, feed);
    var (o, n) := OnAll(f, 0, c0.st, left);
    var status := StatusAfter(o, feed);
    && status != Continue && n <= |left|
    && c == Cut(opts,
                c0.(box := left[n..], handled := c0.handled + left[..n], posted := c.posted, st := o.st,
                    pushed := c0.pushed + o.pushes, notes := c0.notes + o.notes,
                    sleeping := c.sleeping, calls := c.calls, issued := c.issued, arrivals := c.arrivals,
                    clientOpen := c.clientOpen),
                status)
    && multiset(c.sleeping) + multiset(fired) == multiset(c0.sleeping) + multiset(o.timers)
  }

  lemma Concludes(opts: ClientOpts, f: Handling, c0: Core, c: Core, feed: seq<Tick>, fired: seq<Msg>, left: seq<Msg>,
                  o: Outcome, n: nat, c1: Core, status: Status)
    requires Left(c0.box, feed) == left && OnAll(f, 0, c0.st, left) == (o, n)
    requires status == StatusAfter(o, feed) && status != Continue && n <= |left|
    requires c1 == c0.(box := left[n..], handled := c0.handled + left[..n], posted := c1.posted, st := o.st,
                       pushed := c0.pushed + o.pushes, notes := c0.notes + o.notes,
                       sleeping := c1.sleeping, calls := c1.calls, issued := c1.issued, arrivals := c1.arrivals,
                       clientOpen := c1.clientOpen)
    requires multiset(c1.sleeping) + multiset(fired) == multiset(c0.sleeping) + multiset(o.timers)
    requires c == Cut(opts, c1, status)
    ensures Concluded(opts, f, c0, c, feed, fired)
  {
  }

  /** Posting a message. */
  lemma ServingPost(f: Handling, c0: Core, c: Core, feed: seq<Tick>, fired: seq<Msg>, taken: seq<Msg>,
                    acc: Outcome, tick: Tick, m: Msg, c': Core)
    requires Serving(f, c0, c, feed, fired, taken, acc)
    requires AsInput()(tick) == Some(m)
    requires c' == c.(box := c.box + [m], posted := c.posted + [m], calls := c'.calls, arrivals := c'.arrivals)
    ensures Serving(f, c0, c', feed + [tick], fired, taken, acc)
  {
    PickSnoc(feed, tick, AsInput());
    Assoc(taken, c.box, [m]);
    Assoc(c0.box, Pick(feed, AsInput()), [m]);
    Assoc(c0.posted, Pick(feed, AsInput()), [m]);
  }

  lemma MoreTimers(sleeping: seq<Msg>, fired: seq<Msg>, sleeping0: seq<Msg>, timers: seq<Msg>, more: seq<Msg>)
    requires multiset(sleeping) + multiset(fired) == multiset(sleeping0) + multiset(timers)
    ensures multiset(sleeping + more) + multiset(fired) == multiset(sleeping0) + multiset(timers + more)
  {
    assert multiset(sleeping + more) + multiset(fired) == multiset(sleeping) + multiset(fired) + multiset(more);
  }

  /** Handling the head of the mailbox, when that does not end the loop. */
  lemma ServingTake(f: Handling, c0: Core, c: Core, feed: seq<Tick>, fired: seq<Msg>,
                    taken: seq<Msg>, acc: Outcome, o: Outcome)
    requires Serving(f, c0, c, feed, fired, taken, acc) && c.box != []
    requires o == f(|taken|, c.st, c.box[0]) && o.status == Continue
    ensures Serving(f, c0, Applied(Popped(c), c.box[0], o), feed, fired, taken + [c.box[0]], Then(acc, o))
  {
    var m := c.box[0];
    OnAllSnoc(f, 0, c0.st, taken, acc, m);
    assert c.box == [m] + c.box[1..];
    Assoc(taken, [m], c.box[1..]);
    Assoc(c0.handled, taken, [m]);
    Assoc(c0.pushed, acc.pushes, o.pushes);
    Assoc(c0.notes, acc.notes, o.notes);
    MoreTimers(c.sleeping, fired, c0.sleeping, acc.timers, o.timers);
  }

  /** The messages up to the head of the mailbox are a first part of what is left at the start. */
  lemma LeftSplits(f: Handling, c0: Core, c: Core, feed: seq<Tick>, fired: seq<Msg>,
                   taken: seq<Msg>, acc: Outcome, o: Outcome)
    requires Serving(f, c0, c, feed, fired, taken, acc) && c.box != []
    requires o == f(|taken|, c.st, c.box[0]) && o.status != Continue
    ensures var left, n := Left(c0.box, feed), |taken| + 1;
            && OnAll(f, 0, c0.st, left) == (Then(acc, o), n)
            && n <= |left| && left[..n] == taken + [c.box[0]] && left[n..] == c.box[1..]
  {
    var m := c.box[0];
    OnAllSnoc(f, 0, c0.st, taken, acc, m);
    BeforeBreakAll(feed);
    assert c.box == [m] + c.box[1..];
    Assoc(taken, [m], c.box[1..]);
    OnAllStops(f, 0, c0.st, taken + [m], Then(acc, o), c.box[1..]);
    SplitsBack(taken + [m], c.box[1..]);
  }

  /** Handling the head of the mailbox, when that ends the loop. */
  lemma ServingEnds(opts: ClientOpts, f: Handling, c0: Core, c: Core, feed: seq<Tick>, fired: seq<Msg>,
                    taken: seq<Msg>, acc: Outcome, o: Outcome)
    requires Serving(f, c0, c, feed, fired, taken, acc) && c.box != []
    requires o == f(|taken|, c.st, c.box[0]) && o.status != Continue
    ensures Concluded(opts, f, c0, Cut(opts, Applied(Popped(c), c.box[0], o), o.status), feed, fired)
  {
    var m := c.box[0];
    var c1 := Applied(Popped(c), m, o);
    LeftSplits(f, c0, c, feed, fired, taken, acc, o);
    Assoc(c0.handled, taken, [m]);
    Assoc(c0.pushed, acc.pushes, o.pushes);
    Assoc(c0.notes, acc.notes, o.notes);
    MoreTimers(c.sleeping, fired, c0.sleeping, acc.timers, o.timers);
    var left := Left(c0.box, feed);
    Concludes(opts, f, c0, Cut(opts, c1, o.status), feed, fired, left, Then(acc, o), |taken| + 1, c1, o.status);
  }

  /** The stream ends or breaks while the mailbox is empty. */
  lemma ServingBreaks(opts: ClientOpts, f: Handling, c0: Core, c: Core, feed: seq<Tick>, fired: seq<Msg>,
                      taken: seq<Msg>, acc: Outcome)
    requires Serving(f, c0, c, feed, fired, taken, acc) && c.box == []
    ensures Concluded(opts, f, c0, Cut(opts, c, OtherError), feed + [Broken], fired)
  {
    BeforeBreakAll(feed);
    assert taken + [] == taken;
    assert Broken in feed + [Broken];
    Concludes(opts, f, c0, Cut(opts, c, OtherError), feed + [Broken], fired, taken, acc, |taken|, c, OtherError);
  }

  /** Nothing was posted. */
  lemma ServingIdle(f: Handling, c0: Core, c: Core, feed: seq<Tick>, fired: seq<Msg>,
                    taken: seq<Msg>, acc: Outcome,
                    c': Core)
    requires Serving(f, c0, c, feed, fired, taken, acc)
    requires c' == c.(calls := c'.calls, issued := c'.issued)
    ensures Serving(f, c0, c', feed, fired, taken, acc)
    ensures Serving(f, c0, c', feed + [], fired + [], taken, acc)
    ensures Serving(f, c0, c', feed + [Reads(None)], fired, taken, acc)
  {
    assert feed + [] == feed && fired + [] == fired;
    PickSnoc(feed, Reads(None), AsInput());
  }

  /** A client event posts at most one message. */
  lemma ClientPostsOne(opts: ClientOpts, c: Core, e: ClientEvent)
    requires !e.DropClients?
    ensures var c' := ClientStep(opts, c, e);
            if |c'.posted| > |c.posted| then
              var m := c'.posted[|c.posted|];
              c' == c.(box := c.box + [m], posted := c.posted + [m], calls := c'.calls)
            else c' == c.(calls := c'.calls, issued := c'.issued)
  {
  }

  lemma ServingClient(opts: ClientOpts, f: Handling, c0: Core, c: Core, feed: seq<Tick>, fired: seq<Msg>,
                      taken: seq<Msg>, acc: Outcome,
                      e: ClientEvent)
    requires Serving(f, c0, c, feed, fired, taken, acc) && !e.DropClients?
    ensures Serving(f, c0, Step(opts, c, Client(e)), feed + TickOf(opts, c, Client(e)),
                    fired + FiredBy(c, Client(e)), taken, acc)
  {
    var c' := ClientStep(opts, c, e);
    ClientPostsOne(opts, c, e);
    assert fired + [] == fired;
    if |c'.posted| > |c.posted| {
      var m := c'.posted[|c.posted|];
      ServingPost(f, c0, c, feed, fired, taken, acc, Post(m), m, c');
    } else {
      ServingIdle(f, c0, c, feed, fired, taken, acc, c');
    }
  }

  lemma TakeOut(s: seq<Msg>, i: nat)
    requires i < |s|
    ensures multiset(s) == multiset(s[..i] + s[i + 1..]) + multiset([s[i]])
  {
    assert s == s[..i] + [s[i]] + s[i + 1..];
  }

  lemma ServingWake(opts: ClientOpts, f: Handling, c0: Core, c: Core, feed: seq<Tick>, fired: seq<Msg>,
                    taken: seq<Msg>, acc: Outcome,
                    i: nat)
    requires Serving(f, c0, c, feed, fired, taken, acc) && !c.phase.Over?
    ensures Serving(f, c0, Step(opts, c, Wake(i)), feed + TickOf(opts, c, Wake(i)), fired + FiredBy(c, Wake(i)),
                    taken, acc)
  {
    if i < |c.sleeping| {
      var m := c.sleeping[i];
      TakeOut(c.sleeping, i);
      var c1 := Woken(c, i);
      assert Serving(f, c0, c1, feed, fired + [m], taken, acc);
      ServingPost(f, c0, c1, feed, fired + [m], taken, acc, Post(m), m, Posted(c1, m));
    } else {
      ServingIdle(f, c0, c, feed, fired, taken, acc, c);
    }
  }

  /** What `c` has handled since `c0`, and with which outcome. */
  function TakenSince(c0: Core, c: Core): seq<Msg> {
    if |c0.handled| <= |c.handled| then c.handled[|c0.handled|..] else []
  }

  /** After a run from `c0` the connection goes on, or has ended, as the receive loop would have it. */
  ghost predicate Serves(opts: ClientOpts, until: Until, c0: Core, c: Core, feed: seq<Tick>, fired: seq<Msg>) {
    var f, taken := Handler(opts, until), TakenSince(c0, c);
    if c.cuts == c0.cuts then
      Serving(f, c0, c, feed, fired, taken, OnAll(f, 0, c0.st, taken).0)
    else
      Concluded(opts, f, c0, c, feed, fired)
  }

  lemma ServingServes(opts: ClientOpts, until: Until, c0: Core, c: Core, feed: seq<Tick>, fired: seq<Msg>,
                      taken: seq<Msg>, acc: Outcome)
    requires Serving(Handler(opts, until), c0, c, feed, fired, taken, acc)
    ensures Serves(opts, until, c0, c, feed, fired)
  {
    SplitsBack(c0.handled, taken);
  }

  lemma ConcludedServes(opts: ClientOpts, until: Until, c0: Core, c: Core, feed: seq<Tick>, fired: seq<Msg>)
    requires Concluded(opts, Handler(opts, until), c0, c, feed, fired)
    ensures Serves(opts, until, c0, c, feed, fired) && c.cuts == c0.cuts + 1
  {
  }

  lemma TakeServes(opts: ClientOpts, until: Until, c0: Core, c: Core, feed: seq<Tick>, fired: seq<Msg>,
                   taken: seq<Msg>, acc: Outcome)
    requires Serving(Handler(opts, until), c0, c, feed, fired, taken, acc) && c.box != []
    requires c.clientOpen == Lives(until, |taken|)
    ensures Serves(opts, until, c0, Processed(opts, Popped(c), c.box[0]), feed, fired)
  {
    var m := c.box[0];
    var o := OnMsg(opts, c.st, c.clientOpen, m);
    if o.status == Continue {
      ServingTake(Handler(opts, until), c0, c, feed, fired, taken, acc, o);
      ServingServes(opts, until, c0, Applied(Popped(c), m, o), feed, fired, taken + [m], Then(acc, o));
    } else {
      ServingEnds(opts, Handler(opts, until), c0, c, feed, fired, taken, acc, o);
      ConcludedServes(opts, until, c0, Cut(opts, Applied(Popped(c), m, o), o.status), feed, fired);
    }
  }

  lemma ReadServes(opts: ClientOpts, until: Until, c0: Core, c: Core, feed: seq<Tick>, fired: seq<Msg>,
                   taken: seq<Msg>, acc: Outcome,
                   resp: Response)
    requires Serving(Handler(opts, until), c0, c, feed, fired, taken, acc) && c.box == []
    requires c.clientOpen == Lives(until, |taken|)
    ensures var m := RelayResponse(resp);
            var c' := Processed(opts, Popped(Posted(Arrived(c, resp), m)), m);
            Serves(opts, until, c0, c', feed + [Reads(Some(resp))], fired)
  {
    var m := RelayResponse(resp);
    var c1 := Posted(Arrived(c, resp), m);
    ServingPost(Handler(opts, until), c0, c, feed, fired, taken, acc, Reads(Some(resp)), m, c1);
    TakeServes(opts, until, c0, c1, feed + [Reads(Some(resp))], fired, taken, acc);
  }

  lemma ActorServes(opts: ClientOpts, until: Until, c0: Core, c: Core, feed: seq<Tick>, fired: seq<Msg>,
                    taken: seq<Msg>, acc: Outcome,
                    e: ActorEvent)
    requires Serving(Handler(opts, until), c0, c, feed, fired, taken, acc) && c.phase.Live?
    requires c.clientOpen == Lives(until, |taken|)
    ensures Serves(opts, until, c0, ActorStep(opts, c, e), feed + TickOf(opts, c, Task(e)), fired)
  {
    assert feed + [] == feed;
    match e
    case Take =>
      if c.box != [] {
        TakeServes(opts, until, c0, c, feed, fired, taken, acc);
      } else {
        ServingServes(opts, until, c0, c, feed, fired, taken, acc);
      }
    case StreamItem(resp) =>
      if c.phase == Live(false) && c.box == [] && resp.Some? {
        ReadServes(opts, until, c0, c, feed, fired, taken, acc, resp.value);
      } else {
        ServingIdle(Handler(opts, until), c0, c, feed, fired, taken, acc, c);
        ServingServes(opts, until, c0, c, feed + TickOf(opts, c, Task(e)), fired, taken, acc);
      }
    case StreamFails =>
      if c.box == [] {
        ServingBreaks(opts, Handler(opts, until), c0, c, feed, fired, taken, acc);
        ConcludedServes(opts, until, c0, Cut(opts, c, OtherError), feed + [Broken], fired);
      } else {
        ServingServes(opts, until, c0, c, feed, fired, taken, acc);
      }
    case _ => ServingServes(opts, until, c0, c, feed, fired, taken, acc);
  }

  /** When the last handle is dropped: after how many of the messages handled since `c0`. */
  function UntilStep(until: Until, c0: Core, c: Core, e: Event): Until {
    if c.clientOpen && e == Client(DropClients) then Some(|TakenSince(c0, c)|) else until
  }

  function UntilOf(opts: ClientOpts, c0: Core, es: seq<Event>): Until {
    if es == [] then if c0.clientOpen then None else Some(0)
    else
      var before := es[..|es| - 1];
      UntilStep(UntilOf(opts, c0, before), c0, RunFrom(opts, c0, before), es[|es| - 1])
  }

  predicate DropsAt(until: Until, c0: Core, c: Core) {
    && |c0.handled| <= |c.handled|
    && (until.None? <==> c.clientOpen) && (until.Some? ==> until.value <= |TakenSince(c0, c)|)
  }

  lemma DropsStep(opts: ClientOpts, until: Until, c0: Core, c: Core, e: Event)
    requires DropsAt(until, c0, c)
    ensures DropsAt(UntilStep(until, c0, c, e), c0, Step(opts, c, e))
  {
    Routing.HandledGrows(opts, c, e);
    OpenStep(opts, c, e);
  }

  lemma OpenStep(opts: ClientOpts, c: Core, e: Event)
    ensures Step(opts, c, e).clientOpen == (c.clientOpen && e != Client(DropClients))
  {
  }

  lemma {:induction false} DropsRun(opts: ClientOpts, c0: Core, es: seq<Event>)
    ensures DropsAt(UntilOf(opts, c0, es), c0, RunFrom(opts, c0, es))
  {
    if es != [] {
      var before := es[..|es| - 1];
      DropsRun(opts, c0, before);
      DropsStep(opts, UntilOf(opts, c0, before), c0, RunFrom(opts, c0, before), es[|es| - 1]);
    }
  }

  /** The last handle is dropped. */
  lemma ServingDrop(opts: ClientOpts, c0: Core, c: Core, feed: seq<Tick>, fired: seq<Msg>,
                    taken: seq<Msg>, acc: Outcome)
    requires Serving(Handler(opts, None), c0, c, feed, fired, taken, acc)
    ensures Serving(Handler(opts, Some(|taken|)), c0, c.(clientOpen := false), feed, fired, taken, acc)
  {
    OnAllAgrees(opts, None, Some(|taken|), 0, c0.st, taken);
  }

  /** One more event on a connection that goes on. */
  lemma EventServes(opts: ClientOpts, until: Until, c0: Core, c: Core, feed: seq<Tick>, fired: seq<Msg>, e: Event)
    requires c0.phase.Live? && c.cuts == c0.cuts && Serves(opts, until, c0, c, feed, fired) && DropsAt(until, c0, c)
    ensures Serves(opts, UntilStep(until, c0, c, e), c0, Step(opts, c, e), feed + TickOf(opts, c, e),
                   fired + FiredBy(c, e))
  {
    var f, taken := Handler(opts, until), TakenSince(c0, c);
    var acc := OnAll(f, 0, c0.st, taken).0;
    match e
    case Client(a) => ClientServes(opts, until, c0, c, feed, fired, taken, acc, a);
    case Wake(i) =>
      ServingWake(opts, f, c0, c, feed, fired, taken, acc, i);
      ServingServes(opts, until, c0, Step(opts, c, e), feed + TickOf(opts, c, e), fired + FiredBy(c, e), taken, acc);
    case Task(a) =>
      assert fired + [] == fired;
      ActorServes(opts, until, c0, c, feed, fired, taken, acc, a);
  }

  lemma ClientServes(opts: ClientOpts, until: Until, c0: Core, c: Core, feed: seq<Tick>, fired: seq<Msg>,
                     taken: seq<Msg>, acc: Outcome, e: ClientEvent)
    requires Serving(Handler(opts, until), c0, c, feed, fired, taken, acc)
    requires (until.None? <==> c.clientOpen) && taken == TakenSince(c0, c)
    ensures Serves(opts, UntilStep(until, c0, c, Client(e)), c0, ClientStep(opts, c, e),
                   feed + TickOf(opts, c, Client(e)), fired + FiredBy(c, Client(e)))
  {
    var feed', fired' := feed + TickOf(opts, c, Client(e)), fired + FiredBy(c, Client(e));
    if e.DropClients? {
      assert feed' == feed && fired' == fired;
      if c.clientOpen {
        ServingDrop(opts, c0, c, feed, fired, taken, acc);
        ServingServes(opts, Some(|taken|), c0, c.(clientOpen := false), feed, fired, taken, acc);
      } else {
        ServingServes(opts, until, c0, c, feed, fired, taken, acc);
      }
    } else {
      ServingClient(opts, Handler(opts, until), c0, c, feed, fired, taken, acc, e);
      ServingServes(opts, until, c0, ClientStep(opts, c, e), feed', fired', taken, acc);
    }
  }

  /** `es` ends no connection before its last event. */
  ghost predicate OneStretch(opts: ClientOpts, c: Core, es: seq<Event>) {
    forall n :: 0 <= n < |es| ==> RunFrom(opts, c, es[..n]).cuts == c.cuts
  }

  /** On a live connection the state machine, in whatever way callers, timers, responses and the actor
      interleave, and whenever the last client handle is dropped, does exactly what `Receive` of
      `RelayActor` is proved to do with the same input. */
  lemma {:induction false} ReceiveLoop(opts: ClientOpts, c: Core, es: seq<Event>)
    requires c.phase.Live? && OneStretch(opts, c, es)
    ensures Serves(opts, UntilOf(opts, c, es), c, RunFrom(opts, c, es), FeedOf(opts, c, es), FiredIn(opts, c, es))
  {
    if es == [] {
      NothingServed(opts, UntilOf(opts, c, []), c);
    } else {
      var before, e := es[..|es| - 1], es[|es| - 1];
      StretchBefore(opts, c, es);
      ReceiveLoop(opts, c, before);
      DropsRun(opts, c, before);
      EventServes(opts, UntilOf(opts, c, before), c, RunFrom(opts, c, before), FeedOf(opts, c, before),
                  FiredIn(opts, c, before), e);
    }
  }

  lemma StretchBefore(opts: ClientOpts, c: Core, es: seq<Event>)
    requires OneStretch(opts, c, es) && es != []
    ensures OneStretch(opts, c, es[..|es| - 1]) && RunFrom(opts, c, es[..|es| - 1]).cuts == c.cuts
  {
    var before := es[..|es| - 1];
    forall k | 0 <= k < |before| ensures RunFrom(opts, c, before[..k]).cuts == c.cuts {
      assert before[..k] == es[..k];
    }
  }

  lemma NothingServed(opts: ClientOpts, until: Until, c: Core)
    ensures Serves(opts, until, c, c, [], [])
  {
    assert TakenSince(c, c) == [];
    ServingServes(opts, until, c, c, [], [], [], Quiet(c.st));
  }

  // ---- the loop of `connect` ----

  lemma RunOne(opts: ClientOpts, c: Core, e: Event)
    ensures RunFrom(opts, c, [e]) == Step(opts, c, e)
  {
    RunSnoc(opts, c, [], e);
    assert [] + [e] == [e];
  }

  function Readings(stream: seq<Reading>): seq<Event> {
    if stream == [] then []
    else
      var last := stream[|stream| - 1];
      Readings(stream[..|stream| - 1])
      + [if last.Failed? then Task(HandshakeFails) else Task(HandshakeItem(last.resp))]
  }

  function EarlyResponse(): Reading -> Option<Response> {
    (r: Reading) => if r.Envelope? then r.resp else None
  }

  /** The early responses of `stream` were read and posted. */
  function Early(c: Core, stream: seq<Reading>): Core {
    c.(box := c.box + Pick(stream, AsEarly()),
       posted := c.posted + Pick(stream, AsEarly()),
       arrivals := c.arrivals + Pick(stream, EarlyResponse()))
  }

  /** During the handshake the state machine, reading responses that do not decide, does exactly what
      the loop of `connect` does: it posts them to the mailbox, in order, and stays in the handshake. */
  lemma {:induction false} ConnectLoop(opts: ClientOpts, c: Core, stream: seq<Reading>)
    requires c.phase.Handshaking? && forall r <- stream :: !Decides(r)
    ensures RunFrom(opts, c, Readings(stream)) == Early(c, stream)
  {
    if stream == [] {
      EarlyNone(c);
    } else {
      var n := |stream| - 1;
      assert stream[n] in stream && stream == stream[..n] + [stream[n]];
      ConnectLoop(opts, c, stream[..n]);
      RunSnoc(opts, c, Readings(stream[..n]), Task(HandshakeItem(stream[n].resp)));
      EarlyOne(opts, Early(c, stream[..n]), stream[n]);
      EarlyMore(c, stream[..n], stream[n]);
    }
  }

  lemma EarlyNone(c: Core)
    ensures Early(c, []) == c
  {
  }

  lemma EarlyOne(opts: ClientOpts, c: Core, r: Reading)
    requires c.phase.Handshaking? && !Decides(r)
    ensures Step(opts, c, Task(HandshakeItem(r.resp))) == Early(c, [r])
  {
    PickOne(r, AsEarly());
    PickOne(r, EarlyResponse());
    if r.resp.None? { assert Early(c, [r]) == c; }
  }

  lemma EarlyMore(c: Core, stream: seq<Reading>, r: Reading)
    ensures Early(Early(c, stream), [r]) == Early(c, stream + [r])
  {
    PickConcat(stream, [r], AsEarly());
    PickConcat(stream, [r], EarlyResponse());
    var a, b := Pick(stream, AsEarly()), Pick([r], AsEarly());
    Assoc(c.box, a, b);
    Assoc(c.posted, a, b);
    Assoc(c.arrivals, Pick(stream, EarlyResponse()), Pick([r], EarlyResponse()));
  }

  // ---- one connection ----

  /** The event that decides the handshake after `k` readings. */
  function Decider(stream: seq<Reading>, k: nat): Event
    requires k <= |stream|
  {
    if k == |stream| then Task(HandshakeEnds)
    else if stream[k].Failed? then Task(HandshakeFails)
    else Task(HandshakeItem(stream[k].resp))
  }

  /** Dialing, and reading responses until one of them decides. */
  function Handshake(token: string, stream: seq<Reading>, k: nat): seq<Event>
    requires k <= |stream|
  {
    [Task(Dial(token))] + Readings(stream[..k]) + [Decider(stream, k)]
  }

  /** Where the handshake leaves the state machine: the request is queued, the early responses are
      posted, and the connection is up, with the heartbeat started, or refused. */
  function Connects(opts: ClientOpts, c: Core, token: string, stream: seq<Reading>, k: nat): Core
    requires k <= |stream|
  {
    var c1 := Early(Dialed(opts, c, token), stream[..k]);
    match ConnectedBy(stream, k)
    case Established(ended) => WentLive(c1, ended)
    case Refused => Cut(opts, c1, OtherError)
  }

  lemma HandshakeRuns(opts: ClientOpts, c: Core, token: string, stream: seq<Reading>, k: nat)
    requires c.phase.Dialing? && DecidedAt(stream, k)
    ensures RunFrom(opts, c, Handshake(token, stream, k)) == Connects(opts, c, token, stream, k)
  {
    var dial := Task(Dial(token));
    RunOne(opts, c, dial);
    RunConcat(opts, c, [dial], Readings(stream[..k]));
    ConnectLoop(opts, Dialed(opts, c, token), stream[..k]);
    RunSnoc(opts, c, [dial] + Readings(stream[..k]), Decider(stream, k));
    DeciderSteps(opts, Early(Dialed(opts, c, token), stream[..k]), stream, k);
  }

  lemma DeciderSteps(opts: ClientOpts, c: Core, stream: seq<Reading>, k: nat)
    requires c.phase.Handshaking? && DecidedAt(stream, k)
    ensures Step(opts, c, Decider(stream, k)) ==
            match ConnectedBy(stream, k)
            case Established(ended) => WentLive(c, ended)
            case Refused => Cut(opts, c, OtherError)
  {
  }

  /** A whole connection, for every handshake and everything that follows on it: the state machine does
      exactly what `MainLoop` of `RelayActor` is proved to do. */
  lemma OneConnection(opts: ClientOpts, c: Core, token: string, stream: seq<Reading>, k: nat, es: seq<Event>)
    requires c.phase.Dialing? && DecidedAt(stream, k)
    ensures var c1 := Connects(opts, c, token, stream, k);
            && RunFrom(opts, c, Handshake(token, stream, k)) == c1
            && (ConnectedBy(stream, k).Established? && OneStretch(opts, c1, es) ==>
                  Serves(opts, UntilOf(opts, c1, es), c1, RunFrom(opts, c, Handshake(token, stream, k) + es),
                         FeedOf(opts, c1, es), FiredIn(opts, c1, es)))
  {
    var c1 := Connects(opts, c, token, stream, k);
    HandshakeRuns(opts, c, token, stream, k);
    RunConcat(opts, c, Handshake(token, stream, k), es);
    if ConnectedBy(stream, k).Established? && OneStretch(opts, c1, es) { ReceiveLoop(opts, c1, es); }
  }
}
