/** How much the actor task can do before `run` returns. */
module Progress {
  import opened Sequences
  import opened Messages
  import opened Actor
  import opened Protocol
  import opened Waiters
  import opened Mailbox
  import opened Guarantees

  /** The steps of the actor task that had an effect. An empty envelope has none. */
  function Worked(opts: ClientOpts, es: seq<Event>): nat {
    if es == [] then 0
    else
      var c, e := Run(opts, es[..|es| - 1]), es[|es| - 1];
      Worked(opts, es[..|es| - 1]) + Bit(e.Task? && Step(opts, c, e) != c)
  }

  /** What every such step adds to: streams opened and established, responses read, messages taken,
      connections ended. */
  function Work(c: Core): int {
    2 * c.dials - Bit(c.phase.Handshaking?) + |c.arrivals| + |c.handled| + c.cuts
  }

  function IsReconnect(): Msg -> bool {
    (m: Msg) => m.Reconnect?
  }

  /** Connections end by Stop, once; by a Reconnect that was taken; or by a failure. A new one is
      dialed only after the last one ended. */
  ghost predicate Accounted(c: Core) {
    && c.cuts == c.failures + Count(c.handled, IsReconnect()) + Bit(c.phase == Over(true))
    && c.dials <= c.cuts + Bit(c.phase.Handshaking? || c.phase.Live?)
  }

  lemma OutcomeReconnects(opts: ClientOpts, st: State, clientOpen: bool, m: Msg)
    ensures OnMsg(opts, st, clientOpen, m).status == ReconnectRequest <==> m.Reconnect?
  {
  }

  lemma AccountedProcessed(opts: ClientOpts, c: Core, m: Msg)
    requires Accounted(c) && c.phase.Live?
    ensures Accounted(Processed(opts, c, m)) && Work(Processed(opts, c, m)) > Work(c)
  {
    OutcomeReconnects(opts, c.st, c.clientOpen, m);
    CountSnoc(c.handled, m, IsReconnect());
  }

  lemma AccountedCut(opts: ClientOpts, c: Core)
    requires Accounted(c) && !c.phase.Over?
    ensures Accounted(Cut(opts, c, OtherError)) && Work(Cut(opts, c, OtherError)) > Work(c)
  {
  }

  lemma AccountedHandshake(opts: ClientOpts, c: Core, resp: Response)
    requires Accounted(c) && c.phase.Handshaking?
    ensures Accounted(Handshook(opts, c, resp)) && Work(Handshook(opts, c, resp)) > Work(c)
  {
    AccountedCut(opts, c);
  }

  lemma AccountedActor(opts: ClientOpts, c: Core, e: ActorEvent)
    requires Accounted(c)
    ensures var c' := ActorStep(opts, c, e);
            Accounted(c') && (c' == c || Work(c') > Work(c))
  {
    match e
    case Dial(token) =>
    case HandshakeEnds =>
    case HandshakeItem(resp) => if c.phase.Handshaking? && resp.Some? { AccountedHandshake(opts, c, resp.value); }
    case Take => if c.phase.Live? && c.box != [] { AccountedProcessed(opts, Popped(c), c.box[0]); }
    case StreamItem(resp) =>
      if c.phase == Live(false) && c.box == [] && resp.Some? {
        var m := RelayResponse(resp.value);
        AccountedProcessed(opts, Popped(Posted(Arrived(c, resp.value), m)), m);
      }
    case _ => if !c.phase.Over? { AccountedCut(opts, c); }
  }

  lemma {:induction false} WorkBounds(opts: ClientOpts, es: seq<Event>)
    ensures Accounted(Run(opts, es)) && Worked(opts, es) <= Work(Run(opts, es))
  {
    if es != [] {
      WorkBounds(opts, es[..|es| - 1]);
      var c := Run(opts, es[..|es| - 1]);
      match es[|es| - 1]
      case Client(e) => ClientFrame(opts, c, e);
      case Wake(i) => TimerFrame(c, i);
      case Task(e) => AccountedActor(opts, c, e);
    }
  }

  /** With a limit on connection attempts the actor task takes a bounded number of effective steps:
      the bound counts the limit, the Reconnects posted, the responses read and the messages posted. */
  lemma StepsBounded(opts: ClientOpts, es: seq<Event>)
    requires opts.maxConnectionAttempts.Val?
    ensures var c := Run(opts, es);
            Worked(opts, es) <= 3 * (Limit(opts.maxConnectionAttempts.v) + Count(c.posted, IsReconnect())) + 5
                                + |c.arrivals| + |c.posted|
  {
    WorkBounds(opts, es);
    InvRun(opts, es);
    var c := Run(opts, es);
    CountConcat(c.handled, c.box, IsReconnect());
  }

  // ---- where the task rests ----

  /** The task waits for the stream: for the handshake, or in the select with an empty mailbox. */
  predicate Waits(c: Core) {
    c.phase.Handshaking? || (c.phase == Live(false) && c.box == [])
  }

  /** The event is what the stream did, or, in the handshake, that it did nothing in time. */
  predicate OfStream(c: Core, e: ActorEvent) {
    || e.HandshakeItem? || e.HandshakeEnds? || e.HandshakeFails?
    || e.StreamItem? || (e.StreamFails? && c.phase == Live(false))
  }

  /** Until `run` returns, the task can do something without the stream exactly when it does not wait
      for it: it rests in these two places and nowhere else. */
  lemma RestsExactly(opts: ClientOpts, es: seq<Event>)
    requires !Run(opts, es).phase.Over?
    ensures var c := Run(opts, es);
            (exists e: ActorEvent :: !OfStream(c, e) && ActorStep(opts, c, e) != c) <==> !Waits(c)
  {
    var c := Run(opts, es);
    if Waits(c) {
      forall e: ActorEvent | !OfStream(c, e) ensures ActorStep(opts, c, e) == c {
      }
    } else {
      WorkBounds(opts, es);
      var e := if c.phase.Dialing? then Dial("") else if c.box != [] then Take else StreamFails;
      EffectiveStep(opts, c, e);
      assert !OfStream(c, e);
    }
  }

  lemma EffectiveStep(opts: ClientOpts, c: Core, e: ActorEvent)
    requires Accounted(c)
    requires match c.phase
             case Dialing => e == Dial("")
             case Handshaking => false
             case Live(_) => e == (if c.box != [] then Take else StreamFails)
             case Over(_) => false
    ensures ActorStep(opts, c, e) != c
  {
    if e.Take? {
      AccountedProcessed(opts, Popped(c), c.box[0]);
    } else if !e.Dial? {
      AccountedCut(opts, c);
    }
  }

  // ---- when `run` returns ----

  /** An infinite run. */
  type Schedule = nat -> Event

  function Prefix(sched: Schedule, n: nat): seq<Event> {
    if n == 0 then [] else Prefix(sched, n - 1) + [sched(n - 1)]
  }

  function StateAt(opts: ClientOpts, sched: Schedule, n: nat): Core {
    Run(opts, Prefix(sched, n))
  }

  /** Event number `n` is an effective step of the task. */
  predicate Acts(opts: ClientOpts, sched: Schedule, n: nat) {
    sched(n).Task? && StateAt(opts, sched, n + 1) != StateAt(opts, sched, n)
  }

  /** If the task can go on by itself at `n`, it is run some time later. */
  ghost predicate RunsAfter(opts: ClientOpts, sched: Schedule, n: nat) {
    !StateAt(opts, sched, n).phase.Over? && !Waits(StateAt(opts, sched, n)) ==>
      exists m: nat :: n <= m && Acts(opts, sched, m)
  }

  ghost predicate KeptRunning(opts: ClientOpts, sched: Schedule) {
    forall n: nat :: RunsAfter(opts, sched, n)
  }

  /** If the task waits for the stream at `n`, it no longer does some time later. */
  ghost predicate StopsWaiting(opts: ClientOpts, sched: Schedule, n: nat) {
    Waits(StateAt(opts, sched, n)) ==> exists m: nat :: n <= m && !Waits(StateAt(opts, sched, m))
  }

  ghost predicate WaitsEnd(opts: ClientOpts, sched: Schedule) {
    forall n: nat :: StopsWaiting(opts, sched, n)
  }

  /** At most `perConnection` responses and messages for each connection so far, and `reconnects`
      Reconnects in all. */
  predicate InputWithin(c: Core, perConnection: nat, reconnects: nat) {
    && |c.arrivals| + |c.posted| <= perConnection * (c.cuts + 1)
    && Count(c.posted, IsReconnect()) <= reconnects
  }

  ghost predicate FiniteInput(opts: ClientOpts, sched: Schedule, perConnection: nat, reconnects: nat) {
    forall n: nat :: InputWithin(Run(opts, Prefix(sched, n)), perConnection, reconnects)
  }

  lemma WorkedNext(opts: ClientOpts, sched: Schedule, n: nat)
    ensures Worked(opts, Prefix(sched, n + 1)) == Worked(opts, Prefix(sched, n)) + Bit(Acts(opts, sched, n))
  {
    var es := Prefix(sched, n);
    assert Prefix(sched, n + 1)[..|es|] == es;
    RunSnoc(opts, Start(), es, sched(n));
    assert |Prefix(sched, n + 1)| == |es| + 1 && Prefix(sched, n + 1)[|es|] == sched(n);
  }

  lemma {:induction false} WorkedGrows(opts: ClientOpts, sched: Schedule, n: nat, m: nat)
    requires n <= m
    ensures Worked(opts, Prefix(sched, n)) <= Worked(opts, Prefix(sched, m))
    decreases m
  {
    if n < m {
      WorkedGrows(opts, sched, n, m - 1);
      WorkedNext(opts, sched, m - 1);
    }
  }

  /** From `n` on, `run` has returned or the task takes one more effective step. */
  lemma WorksAgain(opts: ClientOpts, sched: Schedule, n: nat) returns (m: nat)
    requires KeptRunning(opts, sched) && WaitsEnd(opts, sched)
    ensures n <= m && (StateAt(opts, sched, m).phase.Over? || Acts(opts, sched, m))
  {
    m := n;
    assert StopsWaiting(opts, sched, n);
    if Waits(StateAt(opts, sched, n)) {
      m :| n <= m && !Waits(StateAt(opts, sched, m));
    }
    assert RunsAfter(opts, sched, m);
    if !StateAt(opts, sched, m).phase.Over? {
      var m': nat :| m <= m' && Acts(opts, sched, m');
      m := m';
    }
  }

  /** `run` returns, or the task takes as many effective steps as one likes. */
  lemma {:induction false} WorksOn(opts: ClientOpts, sched: Schedule, k: nat) returns (n: nat)
    requires KeptRunning(opts, sched) && WaitsEnd(opts, sched)
    ensures StateAt(opts, sched, n).phase.Over? || k <= Worked(opts, Prefix(sched, n))
  {
    n := 0;
    if k > 0 {
      var n0 := WorksOn(opts, sched, k - 1);
      n := WorksAgain(opts, sched, n0);
      if StateAt(opts, sched, n0).phase.Over? {
        return n0;
      }
      if !StateAt(opts, sched, n).phase.Over? {
        WorkedGrows(opts, sched, n0, n);
        WorkedNext(opts, sched, n);
        n := n + 1;
      }
    }
  }

  /** With a limit on connection attempts, finitely many Reconnects and boundedly many messages and
      responses per connection, `run` returns, if the task is kept running and every wait for the stream
      ends. */
  lemma Returns(opts: ClientOpts, sched: Schedule, perConnection: nat, reconnects: nat) returns (n: nat)
    requires opts.maxConnectionAttempts.Val?
    requires KeptRunning(opts, sched) && WaitsEnd(opts, sched)
    requires FiniteInput(opts, sched, perConnection, reconnects)
    ensures StateAt(opts, sched, n).phase.Over?
  {
    var ends: nat := Limit(opts.maxConnectionAttempts.v) + reconnects;
    n := WorksOn(opts, sched, 3 * ends + 6 + perConnection * (ends + 2));
    assert InputWithin(Run(opts, Prefix(sched, n)), perConnection, reconnects);
    WorkedWithin(opts, Prefix(sched, n), perConnection, reconnects, ends);
  }

  lemma WorkedWithin(opts: ClientOpts, es: seq<Event>, perConnection: nat, reconnects: nat, ends: nat)
    requires opts.maxConnectionAttempts.Val? && ends == Limit(opts.maxConnectionAttempts.v) + reconnects
    requires InputWithin(Run(opts, es), perConnection, reconnects)
    ensures Worked(opts, es) <= 3 * ends + 5 + perConnection * (ends + 2)
  {
    StepsBounded(opts, es);
    CutsBounded(opts, es, reconnects);
    TimesGrows(perConnection, Run(opts, es).cuts + 1, ends + 2);
  }

  lemma TimesGrows(a: nat, x: nat, y: nat)
    requires x <= y
    ensures a * x <= a * y
  {
  }

  lemma CutsBounded(opts: ClientOpts, es: seq<Event>, reconnects: nat)
    requires opts.maxConnectionAttempts.Val? && Count(Run(opts, es).posted, IsReconnect()) <= reconnects
    ensures Run(opts, es).cuts <= Limit(opts.maxConnectionAttempts.v) + reconnects + 1
  {
    WorkBounds(opts, es);
    InvRun(opts, es);
    var c := Run(opts, es);
    CountConcat(c.handled, c.box, IsReconnect());
  }
}
