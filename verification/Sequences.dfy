/** Counting, filtering and joining sequences, with the few laws the other modules use. */
module Sequences {

  datatype Option<+T> = None | Some(value: T)

  lemma Assoc<T>(a: seq<T>, b: seq<T>, c: seq<T>)
    ensures a + b + c == a + (b + c)
  {
  }

  lemma SplitsBack<T>(a: seq<T>, b: seq<T>)
    ensures (a + b)[..|a|] == a && (a + b)[|a|..] == b
  {
  }

  /** How many elements of `s` satisfy `p`. */
  function Count<T>(s: seq<T>, p: T -> bool): nat {
    if s == [] then 0 else Count(s[..|s| - 1], p) + (if p(s[|s| - 1]) then 1 else 0)
  }

  lemma {:induction false} CountConcat<T>(a: seq<T>, b: seq<T>, p: T -> bool)
    ensures Count(a + b, p) == Count(a, p) + Count(b, p)
  {
    if b == [] {
      assert a + b == a;
    } else {
      var b' := b[..|b| - 1];
      assert (a + b)[..|a + b| - 1] == a + b';
      CountConcat(a, b', p);
    }
  }

  lemma CountOne<T>(x: T, p: T -> bool)
    ensures Count([x], p) == (if p(x) then 1 else 0)
  {
    assert [x][..0] == [];
  }

  lemma CountSnoc<T>(a: seq<T>, x: T, p: T -> bool)
    ensures Count(a + [x], p) == Count(a, p) + (if p(x) then 1 else 0)
  {
    CountConcat(a, [x], p);
    CountOne(x, p);
  }

  lemma CountHead<T>(s: seq<T>, p: T -> bool)
    requires s != []
    ensures Count(s, p) == (if p(s[0]) then 1 else 0) + Count(s[1..], p)
  {
    assert s == [s[0]] + s[1..];
    CountConcat([s[0]], s[1..], p);
    CountOne(s[0], p);
  }

  /** Taking out the element at `i` lowers the count by what that element contributed. */
  lemma CountRemove<T>(s: seq<T>, i: nat, p: T -> bool)
    requires i < |s|
    ensures Count(s, p) == Count(s[..i] + s[i + 1..], p) + (if p(s[i]) then 1 else 0)
  {
    assert s == s[..i] + s[i..];
    CountConcat(s[..i], s[i..], p);
    CountHead(s[i..], p);
    assert s[i..][1..] == s[i + 1..];
    CountConcat(s[..i], s[i + 1..], p);
  }

  lemma {:induction false} CountZero<T>(s: seq<T>, p: T -> bool)
    ensures Count(s, p) == 0 <==> forall x <- s :: !p(x)
  {
    if s != [] {
      CountZero(s[..|s| - 1], p);
      assert s == s[..|s| - 1] + [s[|s| - 1]];
    }
  }

  /** A weaker predicate counts at least as many. */
  lemma {:induction false} CountWeaker<T>(s: seq<T>, p: T -> bool, p': T -> bool)
    requires forall x <- s :: p(x) ==> p'(x)
    ensures Count(s, p) <= Count(s, p')
  {
    if s != [] {
      assert s[|s| - 1] in s;
      CountWeaker(s[..|s| - 1], p, p');
    }
  }

  /** The sum of `f` over `s`. */
  function Total<T>(s: seq<T>, f: T -> nat): nat {
    if s == [] then 0 else Total(s[..|s| - 1], f) + f(s[|s| - 1])
  }

  lemma {:induction false} TotalConcat<T>(a: seq<T>, b: seq<T>, f: T -> nat)
    ensures Total(a + b, f) == Total(a, f) + Total(b, f)
  {
    if b == [] {
      assert a + b == a;
    } else {
      var b' := b[..|b| - 1];
      assert (a + b)[..|a + b| - 1] == a + b';
      TotalConcat(a, b', f);
    }
  }

  lemma TotalSnoc<T>(a: seq<T>, x: T, f: T -> nat)
    ensures Total(a + [x], f) == Total(a, f) + f(x)
  {
    assert (a + [x])[..|a|] == a;
  }

  lemma TotalOne<T>(x: T, f: T -> nat)
    ensures Total([x], f) == f(x)
  {
    assert [x][..0] == [];
  }

  lemma TotalHead<T>(s: seq<T>, f: T -> nat)
    requires s != []
    ensures Total(s, f) == f(s[0]) + Total(s[1..], f)
  {
    assert s == [s[0]] + s[1..];
    TotalConcat([s[0]], s[1..], f);
    TotalOne(s[0], f);
  }

  /** Taking out the element at `i` lowers the sum by what that element contributed. */
  lemma TotalRemove<T>(s: seq<T>, i: nat, f: T -> nat)
    requires i < |s|
    ensures Total(s, f) == Total(s[..i] + s[i + 1..], f) + f(s[i])
  {
    assert s == s[..i] + s[i..];
    TotalConcat(s[..i], s[i..], f);
    TotalHead(s[i..], f);
    assert s[i..][1..] == s[i + 1..];
    TotalConcat(s[..i], s[i + 1..], f);
  }

  /** The values `f` finds in `s`, in order. */
  function Pick<T, U>(s: seq<T>, f: T -> Option<U>): seq<U> {
    if s == [] then [] else Pick(s[..|s| - 1], f) + Optional(f(s[|s| - 1]))
  }

  function Optional<U>(o: Option<U>): seq<U> {
    if o.Some? then [o.value] else []
  }

  lemma {:induction false} PickConcat<T, U>(a: seq<T>, b: seq<T>, f: T -> Option<U>)
    ensures Pick(a + b, f) == Pick(a, f) + Pick(b, f)
  {
    if b == [] {
      assert a + b == a;
    } else {
      var b' := b[..|b| - 1];
      assert (a + b)[..|a + b| - 1] == a + b';
      PickConcat(a, b', f);
    }
  }

  lemma PickSnoc<T, U>(a: seq<T>, x: T, f: T -> Option<U>)
    ensures Pick(a + [x], f) == Pick(a, f) + Optional(f(x))
  {
    assert (a + [x])[..|a|] == a;
  }

  lemma PickHead<T, U>(s: seq<T>, f: T -> Option<U>)
    requires s != []
    ensures Pick(s, f) == Optional(f(s[0])) + Pick(s[1..], f)
  {
    assert s == [s[0]] + s[1..];
    PickConcat([s[0]], s[1..], f);
    PickOne(s[0], f);
  }

  lemma PickOne<T, U>(x: T, f: T -> Option<U>)
    ensures Pick([x], f) == Optional(f(x))
  {
    PickSnoc([], x, f);
    assert [] + [x] == [x];
  }

  /** `a` can be obtained from `b` by deleting elements. */
  ghost predicate Subsequence<T(!new)>(a: seq<T>, b: seq<T>) {
    a == [] || (b != [] && (Subsequence(a, b[..|b| - 1])
                            || (a[|a| - 1] == b[|b| - 1] && Subsequence(a[..|a| - 1], b[..|b| - 1]))))
  }

  lemma {:induction false} SubsequencePrefix<T(!new)>(a: seq<T>, b: seq<T>)
    requires a <= b
    ensures Subsequence(a, b)
  {
    if a != [] {
      if |a| == |b| {
        SubsequencePrefix(a[..|a| - 1], b[..|b| - 1]);
      } else {
        SubsequencePrefix(a, b[..|b| - 1]);
      }
    }
  }

  lemma {:induction false} SubsequenceConcat<T(!new)>(a: seq<T>, b: seq<T>, c: seq<T>, d: seq<T>)
    requires Subsequence(a, b) && Subsequence(c, d)
    ensures Subsequence(a + c, b + d)
    decreases |d|
  {
    if d == [] {
      assert a + c == a && b + d == b;
    } else if c != [] && c[|c| - 1] == d[|d| - 1] && Subsequence(c[..|c| - 1], d[..|d| - 1]) {
      SubsequenceConcat(a, b, c[..|c| - 1], d[..|d| - 1]);
      assert (a + c)[..|a + c| - 1] == a + c[..|c| - 1];
      assert (b + d)[..|b + d| - 1] == b + d[..|d| - 1];
    } else {
      SubsequenceConcat(a, b, c, d[..|d| - 1]);
      assert (b + d)[..|b + d| - 1] == b + d[..|d| - 1];
    }
  }

  /** The positions in `b` of the elements of `a`. */
  lemma {:induction false} SubsequenceAt<T(!new)>(a: seq<T>, b: seq<T>) returns (at: seq<nat>)
    requires Subsequence(a, b)
    ensures |at| == |a| && (forall i :: 0 <= i < |a| ==> at[i] < |b| && b[at[i]] == a[i])
    ensures forall i, j :: 0 <= i < j < |a| ==> at[i] < at[j]
    decreases |b|
  {
    if a == [] {
      at := [];
    } else if Subsequence(a, b[..|b| - 1]) {
      at := SubsequenceAt(a, b[..|b| - 1]);
    } else {
      at := SubsequenceAt(a[..|a| - 1], b[..|b| - 1]);
      at := at + [|b| - 1];
    }
  }
}
