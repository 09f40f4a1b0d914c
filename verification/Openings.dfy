/** What a connection's stream begins with. */
module Openings {
  import opened Messages
  import opened Actor
  import opened Protocol
  import opened Forwarder
  import opened Relay
  import opened Scenes

  /** What connections before number `k` took. */
  function Before(w: Wire, k: nat): seq<Item>
    requires k <= |w.conns|
  {
    Joined(w.conns[..k], TakenOf())
  }

  /** Once a later connection is open, nothing changes what the earlier ones took. */
  lemma BeforeStep(opts: ClientOpts, sv: Server, s: System, e: SystemEvent, k: nat)
    requires SystemInv(opts, sv, s) && k < |s.wire.conns|
    ensures var s' := SystemStep(opts, sv, s, e);
            k < |s'.wire.conns| && Before(s'.wire, k) == Before(s.wire, k)
  {
    var s' := SystemStep(opts, sv, s, e);
    match e
    case Local(e) =>
      if Honest(sv, s.wire, e) {
        PushesGrow(opts, s.core, e);
        FollowTaken(s.wire, s.core, s'.core);
        JoinedSame(s.wire.conns[..k], s'.wire.conns[..k], TakenOf());
      }
    case Net(e) =>
      WireStepFrame(s.wire, e);
      NetTaken(s.wire, e, k);
      JoinedSame(s.wire.conns[..k], s'.wire.conns[..k], TakenOf());
  }

  lemma FollowTaken(w: Wire, c: Core, c': Core)
    requires c.pushed <= c'.pushed
    ensures |w.conns| <= |Follow(w, c, c').conns|
    ensures forall i :: 0 <= i < |w.conns| ==> w.conns[i].taken == Follow(w, c, c').conns[i].taken
  {
  }

  /** Earlier connections are cancelled, and only a task that is not cancelled takes from the queue. */
  lemma NetTaken(w: Wire, e: WireEvent, k: nat)
    requires WireOk(w) && k < |w.conns|
    ensures |WireStep(w, e).conns| == |w.conns|
    ensures forall i :: 0 <= i < k ==> w.conns[i].taken == WireStep(w, e).conns[i].taken
  {
    if e.k < k { assert w.conns[e.k].cancelled; }
  }

  lemma {:induction false} BeforeRun(opts: ClientOpts, sv: Server, es: seq<SystemEvent>, es': seq<SystemEvent>, k: nat)
    requires k < |SystemRun(opts, sv, es).wire.conns|
    ensures var w := SystemRun(opts, sv, es + es').wire;
            k < |w.conns| && Before(w, k) == Before(SystemRun(opts, sv, es).wire, k)
  {
    if es' == [] {
      assert es + es' == es;
    } else {
      SystemRunLast(opts, sv, es, es');
      BeforeRun(opts, sv, es, es'[..|es'| - 1], k);
      SystemInvRun(opts, sv, es + es'[..|es'| - 1]);
      BeforeStep(opts, sv, SystemRun(opts, sv, es + es'[..|es'| - 1]), es'[|es'| - 1], k);
    }
  }

  lemma PushesGrowStep(opts: ClientOpts, sv: Server, s: System, e: SystemEvent)
    ensures s.core.pushed <= SystemStep(opts, sv, s, e).core.pushed
  {
    if e.Local? { PushesGrow(opts, s.core, e.local); }
  }

  /** The pushes of a run are the first of any longer run. */
  lemma {:induction false} PushesGrowRun(opts: ClientOpts, sv: Server, es: seq<SystemEvent>, es': seq<SystemEvent>)
    ensures SystemRun(opts, sv, es).core.pushed <= SystemRun(opts, sv, es + es').core.pushed
  {
    if es' == [] {
      assert es + es' == es;
    } else {
      SystemRunLast(opts, sv, es, es');
      PushesGrowRun(opts, sv, es, es'[..|es'| - 1]);
      PushesGrowStep(opts, sv, SystemRun(opts, sv, es + es'[..|es'| - 1]), es'[|es'| - 1]);
    }
  }

  /** What the connections up to `k` took, and then what `k` took, is a first part of the pushes. */
  lemma {:induction false} TakenInOrder(conns: seq<Conn>, k: nat)
    requires k < |conns|
    ensures Joined(conns[..k], TakenOf()) + conns[k].taken <= Joined(conns, TakenOf())
  {
    if k < |conns| - 1 {
      TakenInOrder(conns[..|conns| - 1], k);
      assert conns[..|conns| - 1][..k] == conns[..k];
    }
  }

  /** The connection takes first whatever the queue held when it was dialed, and then its own request. */
  lemma DialStarts(opts: ClientOpts, sv: Server, es: seq<SystemEvent>, token: string)
    requires SystemRun(opts, sv, es).core.phase.Dialing?
    ensures var s0, s := SystemRun(opts, sv, es), SystemRun(opts, sv, es + [Local(Task(Dial(token)))]);
            var k := s0.core.dials;
            && |s.wire.conns| == k + 1
            && s.core.pushed == s0.core.pushed + [HelloItem(opts, token)]
            && Before(s.wire, k) + s0.wire.queue == s0.core.pushed
  {
    SystemInvRun(opts, sv, es);
    SystemRunSnoc(opts, sv, es, Local(Task(Dial(token))));
    var s0, s := SystemRun(opts, sv, es), SystemRun(opts, sv, es + [Local(Task(Dial(token)))]);
    assert s.wire.conns[..s0.core.dials] == s0.wire.conns;
  }

  /** The position, in the order of the pushes, of the first item that connection `k` takes. */
  function StartOf(w: Wire, k: nat): nat
    requires k <= |w.conns|
  {
    |Before(w, k)|
  }

  /** In any run, however it goes on after a dial: the connection takes a consecutive part of the pushes,
      and its first item is its own request if and only if the queue was empty when it dialed. If not,
      the stream begins with what was left over, be it an earlier connection's request. */
  lemma FirstItem(opts: ClientOpts, sv: Server, es: seq<SystemEvent>, token: string, es': seq<SystemEvent>)
    requires SystemRun(opts, sv, es).core.phase.Dialing?
    ensures var s0, s := SystemRun(opts, sv, es), SystemRun(opts, sv, es + [Local(Task(Dial(token)))] + es');
            var k, own := s0.core.dials, |s0.core.pushed|;
            && k < |s.wire.conns| && own < |s.core.pushed|
            && s.core.pushed[own] == HelloItem(opts, token)
            && var start, conn := StartOf(s.wire, k), s.wire.conns[k];
               && start <= own && conn.taken <= s.core.pushed[start..]
               && (start == own <==> s0.wire.queue == [])
               && (conn.sent != [] ==> conn.sent[0] == (s0.wire.queue + [HelloItem(opts, token)])[0])
  {
    var es1 := es + [Local(Task(Dial(token)))];
    var s0, s := SystemRun(opts, sv, es), SystemRun(opts, sv, es1 + es');
    var k := s0.core.dials;
    DialStarts(opts, sv, es, token);
    BeforeRun(opts, sv, es1, es', k);
    PushesGrowRun(opts, sv, es1, es');
    SystemInvRun(opts, sv, es1 + es');
    assert WireOk(s.wire) && s.wire.pushed == s.core.pushed;
    FirstTaken(s.wire, k, s0.wire.queue + [HelloItem(opts, token)]);
  }

  /** After what the connections before `k` took, the wire has `line` queued. */
  lemma FirstTaken(w: Wire, k: nat, line: seq<Item>)
    requires WireOk(w) && k < |w.conns| && line != [] && Before(w, k) + line <= w.pushed
    ensures var conn := w.conns[k];
            && conn.taken <= w.pushed[StartOf(w, k)..] && (conn.sent != [] ==> conn.sent[0] == line[0])
  {
    TakenInOrder(w.conns, k);
    assert ConnOk(w.conns[k]);
    FirstOf(Before(w, k), w.conns[k].taken, line, w.pushed);
  }

  lemma FirstOf(a: seq<Item>, b: seq<Item>, c: seq<Item>, all: seq<Item>)
    requires a + b <= all && a + c <= all && c != []
    ensures b <= all[|a|..] && (b != [] ==> b[0] == c[0])
  {
    assert b != [] ==> (a + b)[|a|] == b[0] == all[|a|];
    assert (a + c)[|a|] == c[0];
  }

  /** A run in which the second stream begins with the first connection's request. */
  lemma StaleRequest(opts: ClientOpts, sv: Server, first: string, second: string) returns (es: seq<SystemEvent>)
    ensures var s := SystemRun(opts, sv, es);
            && s.core.dials == 2 && |s.wire.conns| == 2
            && s.wire.conns[0].sent == [] && s.wire.conns[1].sent == [HelloItem(opts, first)]
            && s.core.pushed == [HelloItem(opts, first), HelloItem(opts, second)]
  {
    es := Redials(opts, sv, first, second);
    var hello, hello' := HelloItem(opts, first), HelloItem(opts, second);
    var w := SystemRun(opts, sv, es).wire;
    var w1 := WireStep(w, Grab(1));
    assert w1.conns[1] == Grabbed(FRESH, hello) && w1.conns[0] == w.conns[0];
    assert [] + [hello] == [hello];
    var w2 := WireStep(w1, Put(1));
    assert w2.conns[1].buffer == [hello] && w2.conns[0] == w.conns[0];
    var w3 := WireStep(w2, Consume(1));
    assert w3.conns[1].sent == [hello] && w3.conns[0] == w.conns[0];
    SystemRunSnoc(opts, sv, es, Net(Grab(1)));
    SystemRunSnoc(opts, sv, es + [Net(Grab(1))], Net(Put(1)));
    SystemRunSnoc(opts, sv, es + [Net(Grab(1))] + [Net(Put(1))], Net(Consume(1)));
    es := es + [Net(Grab(1))] + [Net(Put(1))] + [Net(Consume(1))];
  }

  /** The first stream ends before it took anything; the client is told to reconnect, and dials again. */
  lemma Redials(opts: ClientOpts, sv: Server, first: string, second: string) returns (es: seq<SystemEvent>)
    ensures var s := SystemRun(opts, sv, es);
            var items := [HelloItem(opts, first), HelloItem(opts, second)];
            && s.core.dials == 2 && s.core.pushed == items
            && s.wire == Wire(items, items, [FRESH.(cancelled := true), FRESH])
  {
    var hello := HelloItem(opts, first);
    es := Dials(opts, sv, [], first);
    assert [] + [hello] == [hello];
    es := Proceed(opts, sv, es, Task(HandshakeEnds));
    es := Proceed(opts, sv, es, Client(PostReconnect));
    es := Leaves(opts, sv, es, hello);
    es := Dials(opts, sv, es, second);
  }

  lemma Leaves(opts: ClientOpts, sv: Server, es: seq<SystemEvent>, hello: Item) returns (es': seq<SystemEvent>)
    requires var s := SystemRun(opts, sv, es);
             && s.core.phase == Live(true) && s.core.box == [Reconnect] && s.core.dials == 1
             && s.core.pushed == [hello] && s.wire == Wire([hello], [hello], [FRESH])
    ensures var s := SystemRun(opts, sv, es');
            && s.core.phase.Dialing? && s.core.dials == 1 && s.core.pushed == [hello]
            && s.wire == Wire([hello], [hello], [FRESH.(cancelled := true)])
  {
    SystemRunSnoc(opts, sv, es, Local(Task(Take)));
    es' := es + [Local(Task(Take))];
    var s, c' := SystemRun(opts, sv, es), SystemRun(opts, sv, es').core;
    assert c'.pushed == [hello] && c'.cuts == s.core.cuts + 1;
    assert c'.pushed[1..] == [];
    assert Pushed(s.wire, []) == s.wire;
  }
}
