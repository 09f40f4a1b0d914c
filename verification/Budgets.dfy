/** When the bound that `max_message_attempts` promises holds: of the program, and of a program whose
    retry hands on its own budget less one. */
module Budgets {
  import opened Sequences
  import opened Messages
  import opened Actor
  import opened Protocol
  import opened Provenance
  import opened Waiters
  import opened Attempts
  import opened Guarantees
  import Witnesses
  import SharedKey

  /** The call has registered its wait under the key. */
  function IsUnder(key: Key): Call -> bool {
    (call: Call) => call.stage == Waiting && KeyOf(call) == key
  }

  /** How many calls share the key of call `w`. */
  function Sharers(c: Core, w: CallId): nat {
    if w < |c.calls| then Count(c.calls, IsUnder(KeyOf(c.calls[w]))) else 0
  }

  /** The retransmissions of `w` by chains below `k`. */
  function AgainBelow(w: CallId, k: nat): Item -> bool {
    (it: Item) => it.origin.Again? && it.origin.call == w && it.origin.chain < k
  }

  lemma {:induction false} OneMoreChain(s: seq<Item>, w: CallId, k: nat)
    ensures Count(s, AgainBelow(w, k)) <= Count(s, AgainBelow(w, k + 1))
    ensures Count(s, AgainBelow(w, k + 1)) <= Count(s, AgainBelow(w, k)) + Count(s, IsBy(k))
  {
    if s != [] { OneMoreChain(s[..|s| - 1], w, k); }
  }

  lemma OneMoreTimes(n: nat, x: nat)
    ensures n * (x + 1) == n * x + n
  {
  }

  /** Only the chains of calls under the same key retransmit a message, each within its budget. */
  lemma {:induction false} ChainsSpend(opts: ClientOpts, c: Core, w: CallId, k: nat)
    requires Traced(opts, c) && Frugal(opts, c) && Sparing(opts) && w < |c.calls| && k <= |c.calls|
    ensures Count(c.pushed, AgainBelow(w, k))
            <= opts.maxMessageAttempts.v * Count(c.calls[..k], IsUnder(KeyOf(c.calls[w])))
  {
    var key, n: nat := KeyOf(c.calls[w]), opts.maxMessageAttempts.v;
    if k == 0 {
      CountZero(c.pushed, AgainBelow(w, 0));
    } else {
      ChainsSpend(opts, c, w, k - 1);
      OneMoreChain(c.pushed, w, k - 1);
      assert c.calls[..k] == c.calls[..k - 1] + [c.calls[k - 1]];
      CountSnoc(c.calls[..k - 1], c.calls[k - 1], IsUnder(key));
      if IsUnder(key)(c.calls[k - 1]) {
        assert Spending(opts, c, k - 1) <= n;
        OneMoreTimes(n, Count(c.calls[..k - 1], IsUnder(key)));
      } else {
        forall it <- c.pushed ensures AgainBelow(w, k)(it) ==> AgainBelow(w, k - 1)(it) {
          assert ItemOk(c.calls, it);
        }
        CountWeaker(c.pushed, AgainBelow(w, k), AgainBelow(w, k - 1));
      }
    }
  }

  /** Every retransmission is by the chain of some call. */
  lemma AllChains(opts: ClientOpts, c: Core, w: CallId)
    requires Traced(opts, c)
    ensures Count(c.pushed, IsAgain(w)) <= Count(c.pushed, AgainBelow(w, |c.calls|))
    ensures w >= |c.calls| ==> Count(c.pushed, IsAgain(w)) == 0
  {
    forall it <- c.pushed ensures IsAgain(w)(it) ==> w < |c.calls| && AgainBelow(w, |c.calls|)(it) {
      assert ItemOk(c.calls, it);
    }
    CountWeaker(c.pushed, IsAgain(w), AgainBelow(w, |c.calls|));
    CountZero(c.pushed, IsAgain(w));
  }

  /** When every copy costs an attempt, a message is retransmitted at most the maximum times the number
      of calls registered under its key. */
  lemma RetransmissionsShared(opts: ClientOpts, es: seq<Event>, w: CallId)
    requires Sparing(opts)
    ensures Count(Run(opts, es).pushed, IsAgain(w)) <= opts.maxMessageAttempts.v * Sharers(Run(opts, es), w)
  {
    InvRun(opts, es);
    var c := Run(opts, es);
    AllChains(opts, c, w);
    if w < |c.calls| {
      ChainsSpend(opts, c, w, |c.calls|);
      assert c.calls[..|c.calls|] == c.calls;
    }
  }

  lemma {:induction false} AloneCounts(c: Core, w: CallId, k: nat)
    requires Alone(c, w) && k <= |c.calls|
    ensures Count(c.calls[..k], IsUnder(KeyOf(c.calls[w]))) == Bit(w < k)
  {
    if k > 0 {
      var key := KeyOf(c.calls[w]);
      AloneCounts(c, w, k - 1);
      assert c.calls[..k] == c.calls[..k - 1] + [c.calls[k - 1]];
      CountSnoc(c.calls[..k - 1], c.calls[k - 1], IsUnder(key));
      assert IsUnder(key)(c.calls[k - 1]) <==> Registered(c.calls, k - 1, key);
    }
  }

  /** So a message alone under its key is retransmitted at most the maximum times. */
  lemma RetransmissionsAlone(opts: ClientOpts, es: seq<Event>, w: CallId)
    requires Sparing(opts) && Alone(Run(opts, es), w)
    ensures Count(Run(opts, es).pushed, IsAgain(w)) <= opts.maxMessageAttempts.v
  {
    var c := Run(opts, es);
    RetransmissionsShared(opts, es, w);
    AloneCounts(c, w, |c.calls|);
    assert c.calls[..|c.calls|] == c.calls;
  }

  /** A program whose retry hands on its own budget less one keeps the promised bound in every run,
      for every maximum. */
  lemma CountingDownKeepsBound(opts: ClientOpts, es: seq<Event>, w: CallId)
    requires opts.handover == OwnLessOne && opts.maxMessageAttempts.Val? && Alone(Run(opts, es), w)
    ensures Count(Run(opts, es).pushed, IsAgain(w)) <= opts.maxMessageAttempts.v
  {
    RetransmissionsAlone(opts, es, w);
  }

  /** The promised bound, of every message alone under its key, in every run. */
  ghost predicate BoundsAlone(opts: ClientOpts)
    requires opts.maxMessageAttempts.Val?
  {
    forall es: seq<Event>, w: CallId ::
      Alone(Run(opts, es), w) ==> Count(Run(opts, es).pushed, IsAgain(w)) <= opts.maxMessageAttempts.v
  }

  /** The promised bound, of every message, in every run. */
  ghost predicate BoundsAll(opts: ClientOpts)
    requires opts.maxMessageAttempts.Val?
  {
    forall es: seq<Event>, w: CallId :: Count(Run(opts, es).pushed, IsAgain(w)) <= opts.maxMessageAttempts.v
  }

  /** One message more often than any bound, when timers never carry zero. */
  lemma TooMany(opts: ClientOpts, n: nat) returns (es: seq<Event>)
    requires Endless(opts)
    ensures Alone(Run(opts, es), 0) && Count(Run(opts, es).pushed, IsAgain(0)) == n + 1
  {
    es := Witnesses.AnyNumberOfRetransmissions(opts, SendMessage(App, [], "", "", AtLeastOnce), n + 1);
  }

  /** For messages alone under their keys the bound holds exactly when timers count down or the maximum
      is 0 or 1: in the program, exactly when it is 0 or 1. */
  lemma BoundAloneExact(opts: ClientOpts)
    requires opts.maxMessageAttempts.Val?
    ensures BoundsAlone(opts) <==> opts.handover == OwnLessOne || opts.maxMessageAttempts.v <= 1
  {
    if Sparing(opts) {
      forall es: seq<Event>, w: CallId | Alone(Run(opts, es), w)
        ensures Count(Run(opts, es).pushed, IsAgain(w)) <= opts.maxMessageAttempts.v
      {
        RetransmissionsAlone(opts, es, w);
      }
    } else {
      var es := TooMany(opts, opts.maxMessageAttempts.v);
      assert Alone(Run(opts, es), 0);
    }
  }

  /** For all messages the bound holds exactly when the maximum is 0: calls that share a key have a
      timer each, which all retransmit the same message, whichever budget they hand on. */
  lemma BoundAllExact(opts: ClientOpts)
    requires opts.maxMessageAttempts.Val?
    ensures BoundsAll(opts) <==> opts.maxMessageAttempts.v == 0
  {
    var n: nat := opts.maxMessageAttempts.v;
    if n == 0 {
      forall es: seq<Event>, w: CallId ensures Count(Run(opts, es).pushed, IsAgain(w)) <= n {
        RetransmissionsShared(opts, es, w);
      }
    } else if Sparing(opts) {
      var es := SharedKey.OneTooMany(opts);
      assert Count(Run(opts, es).pushed, IsAgain(1)) > n;
    } else {
      var es := TooMany(opts, n);
      assert Count(Run(opts, es).pushed, IsAgain(0)) > n;
    }
  }
}
