/** Why `SendOkMeansReceived` needs its hypotheses. A reply under a `send`'s sequence number, and a
    heartbeat, whose number is 0, can reach the server and be acknowledged; the ack then settles a
    `send` whose own payload the server never received. */
module Collision {
  import opened Amounts
  import opened Sequences
  import opened Messages
  import opened Actor
  import opened Protocol
  import opened Forwarder
  import opened Relay
  import opened Scenes

  const ORDINARY := SendMessage(Unspecified, [], "peer", "", AtMostOnce)

  /** Every reply so far uses a number in `numbers`. */
  ghost predicate RepliesIn(calls: seq<Call>, numbers: iset<Seq>) {
    forall call <- calls :: call.kind.ReplyCall? ==> call.seqNo in numbers
  }

  /** Not the message of the waiting `send`, which has a body of one byte. */
  predicate IsOther(it: Item) {
    it.request.PayloadRequest? ==> it.request.payload.payload == Some(Any("", []))
  }

  /** `n` messages were sent without asking for delivery, and all were taken. */
  ghost predicate Busy(s: System, n: nat) {
    var c := s.core;
    && Idle(s, c.calls, n, c.pushed) && |c.calls| == n && |c.pushed| == n + 1 && c.notes == []
    && RepliesIn(c.calls, iset{}) && forall it <- c.pushed :: IsOther(it)
  }

  lemma {:induction false} Everyday(opts: ClientOpts, sv: Server, n: nat) returns (es: seq<SystemEvent>)
    ensures Busy(SystemRun(opts, sv, es), n)
  {
    if n == 0 {
      es := Opens(opts, sv);
    } else {
      var before := Everyday(opts, sv, n - 1);
      var c := SystemRun(opts, sv, before).core;
      es := SaysOnce(opts, sv, before, BeginSend(ORDINARY), NewSend(opts, n - 1, ORDINARY), n, c.calls, c.pushed);
    }
  }

  /** The peer's message numbered `q` arrives, and the client replies without asking for delivery. */
  lemma Replies(opts: ClientOpts, sv: Server, es: seq<SystemEvent>, q: Seq) returns (es': seq<SystemEvent>)
    requires Busy(SystemRun(opts, sv, es), q)
    ensures var c := SystemRun(opts, sv, es').core;
            && Idle(SystemRun(opts, sv, es'), c.calls, q, c.pushed)
            && |c.calls| == q + 1 && RepliesIn(c.calls, iset{q})
            && |c.pushed| == q + 2 && Carries(sv, c.pushed[q + 1], q)
            && forall it <- c.pushed :: IsOther(it)
  {
    var c := SystemRun(opts, sv, es).core;
    assert PayloadIn(PeerPayload(q)) == Some(FromPeer(q));
    es' := Proceed(opts, sv, es, Task(StreamItem(Some(PeerPayload(q)))));
    assert ToClient(FromPeer(q)) in SystemRun(opts, sv, es').core.notes;
    var call := NewReply(opts, FromPeer(q), [], AtMostOnce);
    es' := SaysOnce(opts, sv, es', BeginReply(FromPeer(q), [], AtMostOnce), call, q, c.calls, c.pushed);
  }

  /** Everything before the waiting `send` reaches the server, and item `i` is acknowledged under the
      number of the `send`. */
  lemma Settles(opts: ClientOpts, sv: Server, es: seq<SystemEvent>, calls: seq<Call>, q: Seq, items: seq<Item>, i: nat)
    returns (es': seq<SystemEvent>)
    requires Waits(opts, SystemRun(opts, sv, es), calls, q, items,
                   Wire(items + [SendItem(opts, q, |calls|)], items + [SendItem(opts, q, |calls|)], [FRESH]))
    requires i < |items| && Carries(sv, items[i], q) && forall it <- items :: IsOther(it)
    ensures var s := SystemRun(opts, sv, es');
            && s.core.calls == SystemRun(opts, sv, es).core.calls && s.core.issued == q + 1
            && Acked(|calls|) in s.core.notes && !Delivered(s, |calls|)
  {
    es' := GetsThere(opts, sv, es, calls, q, items);
    es' := Misled(opts, sv, es', calls, q, items, i);
  }

  lemma GetsThere(opts: ClientOpts, sv: Server, es: seq<SystemEvent>, calls: seq<Call>, q: Seq, items: seq<Item>)
    returns (es': seq<SystemEvent>)
    requires var all := items + [SendItem(opts, q, |calls|)];
             Waits(opts, SystemRun(opts, sv, es), calls, q, items, Wire(all, all, [FRESH]))
    ensures var s := SystemRun(opts, sv, es');
            && s.core == SystemRun(opts, sv, es).core
            && Waits(opts, s, calls, q, items, s.wire) && AtServer(s.wire) == items
  {
    var all := items + [SendItem(opts, q, |calls|)];
    assert FRESH == Carried([]);
    es' := Transfers(opts, sv, es, all, [], |items|);
    assert [] + all[..|items|] == items;
    AllArrived(SystemRun(opts, sv, es').wire, items);
  }

  lemma Misled(opts: ClientOpts, sv: Server, es: seq<SystemEvent>, calls: seq<Call>, q: Seq, items: seq<Item>, i: nat)
    returns (es': seq<SystemEvent>)
    requires var s := SystemRun(opts, sv, es); Waits(opts, s, calls, q, items, s.wire) && AtServer(s.wire) == items
    requires i < |items| && Carries(sv, items[i], q) && forall it <- items :: IsOther(it)
    ensures var s := SystemRun(opts, sv, es');
            && s.core.calls == SystemRun(opts, sv, es).core.calls && s.core.issued == q + 1
            && Acked(|calls|) in s.core.notes && !Delivered(s, |calls|)
  {
    var s := SystemRun(opts, sv, es);
    assert items[i] in AtServer(s.wire);
    es' := Proceed(opts, sv, es, Task(StreamItem(Some(Ack(q)))));
    assert SystemRun(opts, sv, es').core.notes == s.core.notes + [Acked(|calls|)];
  }

  /** For every sequence number: a run in which `send` returns Ok for a payload the server never got,
      with replies under that number only. */
  lemma SharedSeqUnsound(opts: ClientOpts, sv: Server, q: Seq) returns (es: seq<SystemEvent>)
    ensures var s := SystemRun(opts, sv, es);
            && s.core.issued <= TWO_64 && |s.core.calls| == q + 2 && RepliesIn(s.core.calls, iset{q})
            && s.core.calls[q + 1].kind.SendCall? && s.core.calls[q + 1].seqNo == q
            && Acked(q + 1) in s.core.notes && !Delivered(s, q + 1)
  {
    es := Everyday(opts, sv, q);
    es := Replies(opts, sv, es, q);
    var c := SystemRun(opts, sv, es).core;
    es := Sends(opts, sv, es, c.calls, q, c.pushed);
    es := Settles(opts, sv, es, c.calls, q, c.pushed, q + 1);
  }

  /** With no reply at all: when the server acknowledges heartbeats, the ack of one settles the client's
      first `send`. */
  lemma HeartbeatUnsound(opts: ClientOpts) returns (es: seq<SystemEvent>)
    ensures var s := SystemRun(opts, AcksNumbered, es);
            && s.core.issued == 1 && |s.core.calls| == 1 && RepliesIn(s.core.calls, iset{})
            && s.core.calls[0].kind.SendCall? && s.core.calls[0].seqNo == 0
            && Acked(0) in s.core.notes && !Delivered(s, 0)
  {
    var sv := AcksNumbered;
    var beat := Item(HeartbeatRequest(0), Beat);
    es := Opens(opts, sv);
    es := Proceed(opts, sv, es, Wake(0));
    assert SystemRun(opts, sv, es).core.box == [Heartbeat];
    es := Extend(opts, sv, es, Task(Take), [beat]);
    var items := [HelloItem(opts, ""), beat];
    assert SystemRun(opts, sv, es).core.pushed == items;
    es := Sends(opts, sv, es, [], 0, items);
    es := Settles(opts, sv, es, [], 0, items, 1);
  }

  /** A `send` numbered `q` returned Ok, in a run with at most 2^64 tickets. */
  predicate SendAcked(s: System, w: CallId, q: Seq) {
    && s.core.issued <= TWO_64 && w < |s.core.calls|
    && s.core.calls[w].kind.SendCall? && s.core.calls[w].seqNo == q
    && Acked(w) in s.core.notes
  }

  /** In every run whose replies use numbers in `numbers`, an Ok of a `send` numbered `q` means that its
      payload was received. */
  ghost predicate AcksSound(opts: ClientOpts, sv: Server, q: Seq, numbers: iset<Seq>) {
    forall es: seq<SystemEvent>, w: CallId ::
      RepliesIn(SystemRun(opts, sv, es).core.calls, numbers) && SendAcked(SystemRun(opts, sv, es), w, q)
      ==> Delivered(SystemRun(opts, sv, es), w)
  }

  /** Whatever numbers replies may use: acks are sound for exactly the others, but for 0 when the server
      acknowledges heartbeats. */
  lemma AcksSoundExact(opts: ClientOpts, sv: Server, q: Seq, numbers: iset<Seq>)
    ensures AcksSound(opts, sv, q, numbers) <==> q !in numbers && (sv == AcksNumbered ==> q != 0)
  {
    if q in numbers {
      var es := SharedSeqUnsound(opts, sv, q);
      assert RepliesIn(SystemRun(opts, sv, es).core.calls, numbers);
      assert SendAcked(SystemRun(opts, sv, es), q + 1, q);
    } else if sv == AcksNumbered && q == 0 {
      var es := HeartbeatUnsound(opts);
      assert RepliesIn(SystemRun(opts, sv, es).core.calls, numbers);
      assert SendAcked(SystemRun(opts, sv, es), 0, q);
    } else {
      forall es: seq<SystemEvent>, w: CallId |
        RepliesIn(SystemRun(opts, sv, es).core.calls, numbers) && SendAcked(SystemRun(opts, sv, es), w, q)
        ensures Delivered(SystemRun(opts, sv, es), w)
      {
        SendUnshared(opts, sv, es, w);
        AckedMeansDelivered(opts, sv, es, w);
      }
    }
  }
}
