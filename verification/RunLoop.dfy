/** The reconnect loop with its budget, against the state machine. */
module RunLoop {
  import opened Amounts
  import opened Sequences
  import opened Messages
  import opened Actor
  import opened Protocol
  import opened Mailbox
  import opened Guarantees

  function IsFailure(): Status -> bool {
    (s: Status) => s == OtherError
  }

  datatype Verdict = RunReturned(ok: bool) | Ongoing

  /** Over the results of `main_loop`, one per connection, the first `used` bring the loop of `run` to
      `verdict`: Ok at the first Stop, an error at failure number max(1, n) when the limit is `n`. */
  predicate RunsTo(limit: Amount, results: seq<Status>, verdict: Verdict, used: nat) {
    && used <= |results|
    && match verdict
       case Ongoing => used == |results| && StopRequest !in results && WithinLimit(limit, results)
       case RunReturned(true) =>
         && used > 0 && results[used - 1] == StopRequest && StopRequest !in results[..used - 1]
         && WithinLimit(limit, results[..used])
       case RunReturned(false) =>
         && used > 0 && results[used - 1] == OtherError && StopRequest !in results[..used]
         && limit.Val? && Count(results[..used], IsFailure()) == Limit(limit.v)
  }

  predicate WithinLimit(limit: Amount, results: seq<Status>) {
    limit.Val? ==> Count(results, IsFailure()) < Limit(limit.v)
  }

  /** The loop of `run`. */
  method RunConnections(limit: Amount, results: seq<Status>) returns (verdict: Verdict, used: nat)
    ensures RunsTo(limit, results, verdict, used)
  {
    var connAttempts: nat := 1;
    used := 0;
    while used < |results|
      invariant used <= |results| && StopRequest !in results[..used]
      invariant connAttempts == 1 + Count(results[..used], IsFailure())
      invariant limit.Val? ==> connAttempts <= Limit(limit.v)
    {
      var result := results[used];
      assert results[..used + 1] == results[..used] + [result];
      CountSnoc(results[..used], result, IsFailure());
      used := used + 1;
      match result {
        case Continue =>
        case StopRequest => return RunReturned(true), used;
        case ReconnectRequest =>
        case OtherError =>
          if limit.AtMost(connAttempts) {
            return RunReturned(false), used;
          }
          connAttempts := connAttempts + 1;
      }
    }
    assert results[..used] == results;
    return Ongoing, used;
  }

  /** Failures only add up. */
  lemma FailuresGrow(results: seq<Status>, i: nat, j: nat)
    requires i < j <= |results|
    ensures Count(results[..i], IsFailure()) + (if results[j - 1] == OtherError then 1 else 0)
            <= Count(results[..j], IsFailure())
  {
    assert results[..j] == results[..j - 1] + [results[j - 1]];
    CountSnoc(results[..j - 1], results[j - 1], IsFailure());
    assert results[..j - 1] == results[..i] + results[i..j - 1];
    CountConcat(results[..i], results[i..j - 1], IsFailure());
  }

  lemma Inside(results: seq<Status>, i: nat, j: nat)
    requires i < j <= |results|
    ensures i > 0 ==> results[i - 1] in results[..j - 1] && results[i - 1] in results[..j]
  {
    if i > 0 { assert results[..j - 1][i - 1] == results[..j][i - 1] == results[i - 1]; }
  }

  lemma NotLater(limit: Amount, results: seq<Status>, v: Verdict, used: nat, v': Verdict, used': nat)
    requires RunsTo(limit, results, v, used) && RunsTo(limit, results, v', used')
    ensures used' <= used
  {
    assert results[..|results|] == results;
    if used < used' {
      FailuresGrow(results, used, used');
      Inside(results, used, used');
    }
  }

  /** The loop comes to nothing else. */
  lemma RunsToOnce(limit: Amount, results: seq<Status>, v: Verdict, used: nat, v': Verdict, used': nat)
    requires RunsTo(limit, results, v, used) && RunsTo(limit, results, v', used')
    ensures v == v' && used == used'
  {
    NotLater(limit, results, v, used, v', used');
    NotLater(limit, results, v', used', v, used);
    assert results[..|results|] == results;
  }

  // ---- in the state machine ----

  /** How a message ends a connection: a Stop, a Reconnect, or a payload that nobody can be given. */
  function EndedBy(c: Core, m: Msg): seq<Status> {
    match m
    case Stop => [StopRequest]
    case Reconnect => [ReconnectRequest]
    case RelayResponse(Payload(p)) =>
      if p.src.Some? && p.payload.Some? && !c.clientOpen && (p.src.value.id, p.seqNo) !in c.st.pendingReplies then
        [OtherError]
      else []
    case _ => []
  }

  /** The result of `main_loop`, by phase and event: an error of a dial that fails, of a handshake that is
      refused or fails and of a stream that ends or breaks, and what a handled message says. */
  function ResultOf(c: Core, e: Event): seq<Status> {
    match e
    case Task(DialFails) => if c.phase.Dialing? then [OtherError] else []
    case Task(HandshakeFails) => if c.phase.Handshaking? then [OtherError] else []
    case Task(HandshakeItem(resp)) =>
      if c.phase.Handshaking? && resp == Some(ConnectResponse(false)) then [OtherError] else []
    case Task(StreamFails) => if c.phase.Live? && c.box == [] then [OtherError] else []
    case Task(Take) => if c.phase.Live? && c.box != [] then EndedBy(c, c.box[0]) else []
    case Task(StreamItem(resp)) =>
      if c.phase == Live(false) && c.box == [] && resp.Some? then EndedBy(c, RelayResponse(resp.value)) else []
    case _ => []
  }

  function Results(): (Core, Event) -> seq<Status> {
    (c: Core, e: Event) => ResultOf(c, e)
  }

  /** The results of a run's connections, and of its attempts at one. */
  function ResultsOf(opts: ClientOpts, es: seq<Event>): seq<Status> {
    Collected(opts, es, Results())
  }

  lemma EndedExactly(opts: ClientOpts, c: Core, m: Msg)
    ensures var status := OnMsg(opts, c.st, c.clientOpen, m).status;
            EndedBy(c, m) == if status == Continue then [] else [status]
  {
  }

  function VerdictOf(phase: Phase): Verdict {
    if phase.Over? then RunReturned(phase.ok) else Ongoing
  }

  /** The results of a run's connections: as many as connections ended, and as many failures. */
  ghost predicate Reported(c: Core, results: seq<Status>) {
    && |results| == c.cuts && Count(results, IsFailure()) == c.failures
    && match c.phase
       case Over(true) =>
         results != [] && results[|results| - 1] == StopRequest && StopRequest !in results[..|results| - 1]
       case Over(false) => results != [] && results[|results| - 1] == OtherError && StopRequest !in results
       case _ => StopRequest !in results
  }

  /** A connection ends with `status`. */
  lemma ReportedCut(opts: ClientOpts, c: Core, c0: Core, results: seq<Status>, status: Status)
    requires Reported(c0, results) && !c0.phase.Over?
    requires c.phase == c0.phase && c.cuts == c0.cuts && c.failures == c0.failures && status != Continue
    ensures Reported(Cut(opts, c, status), results + [status]) && Cut(opts, c, status).cuts == c.cuts + 1
  {
    CountSnoc(results, status, IsFailure());
    assert (results + [status])[..|results|] == results;
  }

  lemma ReportedSame(c: Core, c0: Core, results: seq<Status>)
    requires Reported(c0, results)
    requires c.cuts == c0.cuts && c.failures == c0.failures
    requires c.phase == c0.phase || !(c.phase.Over? || c0.phase.Over?)
    ensures Reported(c, results + [])
  {
    assert results + [] == results;
  }

  /** Handling one message on a live connection; `c` is the state with `m` already taken. */
  lemma ReportedProcessed(opts: ClientOpts, c: Core, c0: Core, results: seq<Status>, m: Msg)
    requires Reported(c0, results) && !c0.phase.Over?
    requires c.phase == c0.phase && c.cuts == c0.cuts && c.failures == c0.failures
    ensures Reported(Processed(opts, c, m), results + EndedBy(c, m))
  {
    EndedExactly(opts, c, m);
    var o := OnMsg(opts, c.st, c.clientOpen, m);
    var c1 := Applied(c, m, o);
    if o.status == Continue {
      ReportedSame(c1, c0, results);
    } else {
      ReportedCut(opts, c1, c0, results, o.status);
    }
  }

  lemma ReportedActor(opts: ClientOpts, c: Core, results: seq<Status>, e: ActorEvent)
    requires Reported(c, results)
    ensures Reported(ActorStep(opts, c, e), results + ResultOf(c, Task(e)))
  {
    match e
    case Take =>
      if c.phase.Live? && c.box != [] {
        ReportedProcessed(opts, Popped(c), c, results, c.box[0]);
      } else {
        ReportedSame(c, c, results);
      }
    case StreamItem(resp) =>
      if c.phase == Live(false) && c.box == [] && resp.Some? {
        var m := RelayResponse(resp.value);
        ReportedProcessed(opts, Popped(Posted(Arrived(c, resp.value), m)), c, results, m);
      } else {
        ReportedSame(c, c, results);
      }
    case _ => ReportedOther(opts, c, results, e);
  }

  lemma ReportedOther(opts: ClientOpts, c: Core, results: seq<Status>, e: ActorEvent)
    requires Reported(c, results) && !e.Take? && !e.StreamItem?
    ensures Reported(ActorStep(opts, c, e), results + ResultOf(c, Task(e)))
  {
    if ResultOf(c, Task(e)) == [OtherError] {
      ReportedCut(opts, c, c, results, OtherError);
    } else {
      ReportedSame(ActorStep(opts, c, e), c, results);
    }
  }

  lemma ReportedStep(opts: ClientOpts, c: Core, results: seq<Status>, e: Event)
    requires Reported(c, results)
    ensures Reported(Step(opts, c, e), results + ResultOf(c, e))
  {
    match e
    case Client(e) =>
      ClientFrame(opts, c, e);
      ReportedSame(ClientStep(opts, c, e), c, results);
    case Wake(i) =>
      TimerFrame(c, i);
      ReportedSame(TimerStep(c, i), c, results);
    case Task(e) => ReportedActor(opts, c, results, e);
  }

  lemma {:induction false} ReportedRun(opts: ClientOpts, es: seq<Event>)
    ensures Reported(Run(opts, es), ResultsOf(opts, es))
  {
    if es != [] {
      ReportedRun(opts, es[..|es| - 1]);
      ReportedStep(opts, Run(opts, es[..|es| - 1]), ResultsOf(opts, es[..|es| - 1]), es[|es| - 1]);
    }
  }

  /** Where a result leads on attempt number `attempts`. */
  function PhaseOn(opts: ClientOpts, attempts: nat, result: Status): Phase {
    match result
    case StopRequest => Over(true)
    case OtherError =>
      if opts.maxConnectionAttempts.Val? && attempts >= opts.maxConnectionAttempts.v then Over(false) else Dialing
    case _ => Dialing
  }

  /** Where an event leads. */
  function PhaseAfter(opts: ClientOpts, c: Core, e: Event): Phase {
    if ResultOf(c, e) != [] then PhaseOn(opts, c.attempts, ResultOf(c, e)[0])
    else if c.phase.Dialing? && e.Task? && e.actor.Dial? then Handshaking
    else if c.phase.Handshaking? && e == Task(HandshakeItem(Some(ConnectResponse(true)))) then Live(false)
    else if c.phase.Handshaking? && e == Task(HandshakeEnds) then Live(true)
    else c.phase
  }

  lemma ProcessedPhase(opts: ClientOpts, c: Core, m: Msg)
    requires c.phase.Live?
    ensures Processed(opts, c, m).phase
            == if EndedBy(c, m) == [] then c.phase else PhaseOn(opts, c.attempts, EndedBy(c, m)[0])
  {
    EndedExactly(opts, c, m);
  }

  lemma StepPhase(opts: ClientOpts, c: Core, e: Event)
    ensures Step(opts, c, e).phase == PhaseAfter(opts, c, e)
  {
    match e
    case Client(e) => ClientFrame(opts, c, e);
    case Wake(i) => TimerFrame(c, i);
    case Task(e) =>
      match e
      case Take => if c.phase.Live? && c.box != [] { ProcessedPhase(opts, Popped(c), c.box[0]); }
      case StreamItem(resp) =>
        if c.phase == Live(false) && c.box == [] && resp.Some? {
          var m := RelayResponse(resp.value);
          ProcessedPhase(opts, Popped(Posted(Arrived(c, resp.value), m)), m);
        }
      case _ =>
  }

  /** The loop of `run`, given the results of a run's connections, uses all of them and returns exactly
      when the state machine is over, with its verdict. */
  lemma LoopAgrees(opts: ClientOpts, es: seq<Event>)
    ensures var results := ResultsOf(opts, es);
            && |results| == Run(opts, es).cuts
            && RunsTo(opts.maxConnectionAttempts, results, VerdictOf(Run(opts, es).phase), |results|)
  {
    ReportedRun(opts, es);
    InvRun(opts, es);
    var results := ResultsOf(opts, es);
    assert results[..|results|] == results;
  }

  /** So with a limit of `n` attempts `run` returns an error exactly at the result number max(1, n) that is
      an error, and without a limit it never does. */
  lemma FailuresCounted(opts: ClientOpts, es: seq<Event>)
    ensures var c := Run(opts, es);
            var failed := Count(ResultsOf(opts, es), IsFailure());
            && failed == c.failures
            && (!c.phase.Over? ==> c.attempts == 1 + failed)
            && match opts.maxConnectionAttempts
               case Val(n) => c.phase == Over(false) <==> failed == if n == 0 then 1 else n
               case Infinite => c.phase != Over(false)
  {
    ReportedRun(opts, es);
    InvRun(opts, es);
  }

  /** The phases follow the events and the results: a stream is opened by a dial and established by its
      acceptance or its end; every result ends it; the actor is over after a Stop, and after the error
      that uses up the attempts. */
  lemma PhasesFollow(opts: ClientOpts, es: seq<Event>, e: Event)
    ensures Run(opts, es + [e]).phase == PhaseAfter(opts, Run(opts, es), e)
  {
    RunSnoc(opts, Start(), es, e);
    StepPhase(opts, Run(opts, es), e);
  }

  /** After `k` failed dials in a row `run` dials on, or it has returned an error: on number max(1, n) of
      a limit of `n`, and on the first if the limit is 0. */
  lemma {:induction false} DialsFail(opts: ClientOpts, k: nat)
    requires opts.maxConnectionAttempts.Val? ==> k <= opts.maxConnectionAttempts.v || k <= 1
    ensures var c := Run(opts, seq(k, _ => Task(DialFails)));
            if k > 0 && opts.maxConnectionAttempts.Val? && k >= opts.maxConnectionAttempts.v then
              c.phase == Over(false)
            else
              c.phase == Dialing && c.attempts == k + 1 && c.failures == k
  {
    if k > 0 {
      var fails := seq(k - 1, _ => Task(DialFails));
      DialsFail(opts, k - 1);
      assert seq(k, _ => Task(DialFails)) == fails + [Task(DialFails)];
      RunSnoc(opts, Start(), fails, Task(DialFails));
      DialFailsOnce(opts, Run(opts, fails));
    }
  }

  lemma DialFailsOnce(opts: ClientOpts, c: Core)
    requires c.phase == Dialing
    ensures var c' := Step(opts, c, Task(DialFails));
            && c'.failures == c.failures + 1
            && if opts.maxConnectionAttempts.Val? && c.attempts >= opts.maxConnectionAttempts.v then
                 c'.phase == Over(false)
               else
                 c'.phase == Dialing && c'.attempts == c.attempts + 1
  {
  }
}
