/** Sequence helpers the game code uses on its entity lists: `Array.prototype.indexOf`
    and the guarded one-element removal built on `HUtils.removeElements`. */
module Lists {

  /** No element occurs twice: the last one is not among the others, which are
      themselves distinct. */
  ghost predicate Distinct<T>(s: seq<T>)
    decreases |s|
  {
    s == [] || (s[|s| - 1] !in s[..|s| - 1] && Distinct(s[..|s| - 1]))
  }

  /** `Distinct` is the usual pairwise condition. */
  lemma {:induction false} DistinctPairs<T>(s: seq<T>)
    ensures Distinct(s) <==> forall i, j :: 0 <= i < j < |s| ==> s[i] != s[j]
    decreases |s|
  {
    if s != [] {
      var s', x := s[..|s| - 1], s[|s| - 1];
      DistinctPairs(s');
      if Distinct(s) {
        forall i, j | 0 <= i < j < |s| ensures s[i] != s[j] {
          assert s[i] == s'[i];
          if j < |s'| { assert s[j] == s'[j]; }
        }
      }
      if forall i, j :: 0 <= i < j < |s| ==> s[i] != s[j] {
        forall i, j | 0 <= i < j < |s'| ensures s'[i] != s'[j] {
          assert s'[i] == s[i] && s'[j] == s[j];
        }
        forall i | 0 <= i < |s'| ensures s'[i] != x {
          assert s'[i] == s[i];
        }
      }
    }
  }

  /** In a list without repetitions, the element at `i` occurs nowhere else. */
  lemma DistinctAt<T>(s: seq<T>, i: int)
    requires Distinct(s) && 0 <= i < |s|
    ensures forall k :: 0 <= k < |s| && k != i ==> s[k] != s[i]
  {
    DistinctPairs(s);
  }

  /** No element of `a` occurs in `b`. */
  ghost predicate Disjoint<T>(a: seq<T>, b: seq<T>) {
    forall x :: x in a ==> x !in b
  }

  /** `s.indexOf(x)`: the first position of `x`, or -1 when it is absent. */
  function IndexOf<T(==)>(s: seq<T>, x: T): (i: int)
    ensures -1 <= i < |s|
    ensures i == -1 <==> x !in s
    ensures 0 <= i ==> s[i] == x && x !in s[..i]
  {
    if s == [] then -1
    else if s[0] == x then 0
    else
      var k := IndexOf(s[1..], x);
      assert s[1..][..if k < 0 then 0 else k] == s[1..if k < 0 then 1 else k + 1];
      if k == -1 then -1 else k + 1
  }

  /** The guarded removal the collision handlers perform: look `x` up and, only when
      the index is not -1, remove that one element. */
  function Without<T(==)>(s: seq<T>, x: T): (r: seq<T>)
    ensures x !in s ==> r == s
    ensures x in s ==> |r| == |s| - 1 && multiset(r) == multiset(s) - multiset{x}
    ensures forall y :: y in r ==> y in s
    ensures forall y :: y in s && y != x ==> y in r
    ensures Distinct(s) ==> x !in r && Distinct(r)
  {
    var i := IndexOf(s, x);
    if i < 0 then s
    else
      SplitFacts(s, i);
      s[..i] + s[i + 1..]
  }

  lemma SplitFacts<T>(s: seq<T>, i: int)
    requires 0 <= i < |s|
    ensures multiset(s[..i] + s[i + 1..]) == multiset(s) - multiset{s[i]}
    ensures forall y :: y in s[..i] + s[i + 1..] ==> y in s
    ensures forall y :: y in s && y != s[i] ==> y in s[..i] + s[i + 1..]
    ensures Distinct(s) ==> s[i] !in s[..i] + s[i + 1..] && Distinct(s[..i] + s[i + 1..])
  {
    SplitCount(s, i);
    SplitMembers(s, i);
    if Distinct(s) {
      DistinctRemove(s, i);
    }
  }

  lemma SplitCount<T>(s: seq<T>, i: int)
    requires 0 <= i < |s|
    ensures multiset(s[..i] + s[i + 1..]) == multiset(s) - multiset{s[i]}
  {
    assert s == s[..i] + [s[i]] + s[i + 1..];
    assert multiset(s) == multiset(s[..i]) + multiset{s[i]} + multiset(s[i + 1..]);
  }

  lemma SplitMembers<T>(s: seq<T>, i: int)
    requires 0 <= i < |s|
    ensures forall y :: y in s[..i] + s[i + 1..] ==> y in s
    ensures forall y :: y in s && y != s[i] ==> y in s[..i] + s[i + 1..]
  {
    var r := s[..i] + s[i + 1..];
    forall y | y in s && y != s[i] ensures y in r {
      var k :| 0 <= k < |s| && s[k] == y;
      if k < i { assert r[k] == y; } else { assert k > i && r[k - 1] == y; }
    }
  }

  /** Removing one element of a list without repetitions leaves a list without
      repetitions that no longer holds that element. */
  lemma {:induction false} DistinctRemove<T>(s: seq<T>, i: int)
    requires Distinct(s) && 0 <= i < |s|
    ensures s[i] !in s[..i] + s[i + 1..] && Distinct(s[..i] + s[i + 1..])
    decreases |s|
  {
    var r, s', last := s[..i] + s[i + 1..], s[..|s| - 1], s[|s| - 1];
    if i == |s| - 1 {
      assert r == s';
    } else {
      DistinctRemove(s', i);
      var r' := s'[..i] + s'[i + 1..];
      assert r == r' + [last] && r[..|r| - 1] == r';
      assert s[i] == s'[i] && s[i] in s';
      forall y | y in r' ensures y in s' {
        var k :| 0 <= k < |r'| && r'[k] == y;
        assert y == s'[if k < i then k else k + 1];
      }
    }
  }

  /** Two lists without repetitions and without common elements concatenate to a list
      without repetitions. */
  lemma DistinctConcat<T>(a: seq<T>, b: seq<T>)
    requires Distinct(a) && Distinct(b) && Disjoint(a, b)
    ensures Distinct(a + b)
  {
    DistinctPairs(a);
    DistinctPairs(b);
    DistinctPairs(a + b);
    forall i, j | 0 <= i < j < |a + b| ensures (a + b)[i] != (a + b)[j] {
      if j < |a| {
        assert (a + b)[i] == a[i] && (a + b)[j] == a[j];
      } else if i < |a| {
        assert (a + b)[i] == a[i] && (a + b)[j] == b[j - |a|] && b[j - |a|] in b;
      } else {
        assert (a + b)[i] == b[i - |a|] && (a + b)[j] == b[j - |a|];
      }
    }
  }

  /** `Distinct` in terms of counts: no element occurs more than once. */
  lemma {:induction false} DistinctCounts<T>(s: seq<T>)
    ensures Distinct(s) <==> forall x :: multiset(s)[x] <= 1
    decreases |s|
  {
    if s != [] {
      var s', last := s[..|s| - 1], s[|s| - 1];
      assert s == s' + [last];
      DistinctCounts(s');
      assert multiset(s) == multiset(s') + multiset{last};
      if forall x :: multiset(s)[x] <= 1 {
        assert multiset(s)[last] <= 1;
        forall x ensures multiset(s')[x] <= 1 {
          assert multiset(s)[x] <= 1;
        }
      }
    }
  }

  /** A rearrangement of a list without repetitions has none either. */
  lemma DistinctPermuted<T>(a: seq<T>, b: seq<T>)
    requires Distinct(a) && multiset(a) == multiset(b)
    ensures Distinct(b)
  {
    DistinctCounts(a);
    DistinctCounts(b);
  }

  /** The two parts of a list without repetitions have none and share nothing. */
  lemma DistinctSplit<T>(a: seq<T>, b: seq<T>)
    requires Distinct(a + b)
    ensures Distinct(a) && Distinct(b) && Disjoint(a, b)
  {
    DistinctCounts(a + b);
    DistinctCounts(a);
    DistinctCounts(b);
    assert multiset(a + b) == multiset(a) + multiset(b);
    forall x ensures multiset(a)[x] <= 1 && multiset(b)[x] <= 1 {
      assert multiset(a + b)[x] <= 1;
    }
    forall x | x in a ensures x !in b {
      assert multiset(a + b)[x] <= 1;
    }
  }

  /** Moving the middle part `p` of a list without repetitions to the end keeps it
      without repetitions. */
  lemma DistinctMoved<T>(a: seq<T>, p: seq<T>, b: seq<T>, f: seq<T>)
    requires Distinct(a + p + b + f)
    ensures Distinct(a + b + (f + p)) && Distinct(f + p)
  {
    assert multiset(a + b + (f + p)) == multiset(a + p + b + f);
    DistinctPermuted(a + p + b + f, a + b + (f + p));
    DistinctSplit(a + b, f + p);
  }

  /** A list `p` taken from the top of a free list `f0`, or made of new elements, can
      join the elements `a` that were apart from `f0`, with what is left `f` of the
      free list after them. */
  lemma DistinctJoin<T>(a: seq<T>, p: seq<T>, f0: seq<T>, f: seq<T>)
    requires Distinct(a + f0) && Distinct(p) && Distinct(f) && Disjoint(p, f)
    requires |f| <= |f0| && f == f0[..|f|]
    requires forall x :: x in p ==> x in f0 || x !in a
    ensures Distinct(a + p + f)
  {
    assert a + p + f == a + (p + f);
    DistinctSplit(a, f0);
    DistinctConcat(p, f);
    PrefixMembers(f0, |f|);
    forall x | x in a ensures x !in p + f {
      assert x !in f0;
    }
    DistinctConcat(a, p + f);
  }

  /** Moving the last element of a free list to the end of a list it shares nothing
      with keeps both lists without repetitions and without common elements. */
  lemma MoveLast<T>(r: seq<T>, free: seq<T>)
    requires free != [] && Distinct(r) && Distinct(free) && Disjoint(r, free)
    ensures var p, rest := free[|free| - 1], free[..|free| - 1];
      Distinct(r + [p]) && Distinct(rest) && Disjoint(r + [p], rest) && p !in r && p !in rest
  {
    var p, rest := free[|free| - 1], free[..|free| - 1];
    assert p in free;
    assert (r + [p])[..|r|] == r;
    forall x | x in rest ensures x in free {
      var k :| 0 <= k < |rest| && rest[k] == x;
      assert free[k] == x;
    }
  }

  /** The elements of a prefix are elements of the list. */
  lemma PrefixMembers<T>(s: seq<T>, n: int)
    requires 0 <= n <= |s|
    ensures forall x :: x in s[..n] ==> x in s
  {
    forall x | x in s[..n] ensures x in s {
      var k :| 0 <= k < n && s[..n][k] == x;
      assert s[k] == x;
    }
  }

  /** A new element can be appended to a list without repetitions. */
  lemma AppendNew<T>(r: seq<T>, p: T)
    requires Distinct(r) && p !in r
    ensures Distinct(r + [p])
  {
    assert (r + [p])[..|r|] == r;
  }

  /** An element leaving a list for the free list keeps every element in at most one
      place, once. */
  lemma ReturnedApart<T>(s: seq<T>, free: seq<T>, x: T)
    requires Distinct(s) && Distinct(free) && Disjoint(s, free) && x !in free
    ensures Distinct(Without(s, x)) && Distinct(free + [x]) && Disjoint(Without(s, x), free + [x])
  {
    AppendNew(free, x);
  }

  /** Removing an element from a list keeps it apart from any list it was apart from. */
  lemma WithoutApart<T>(s: seq<T>, x: T, free: seq<T>)
    requires Disjoint(s, free)
    ensures Disjoint(Without(s, x), free)
  {
  }

  function Min(a: int, b: int): int {
    if a < b then a else b
  }

  /** Pool bookkeeping of a loop that pops one element per pass from a free list, as
      `HP.Pool.pop` does (the last free element, or a new one when the list is empty),
      and appends it to `r`. After `i` passes that started from the free list `free0`:
      `r` holds `base + i` elements, the pool holds what is left of `free0`, the popped
      elements are the most recently freed ones in pop order, and no element is in two
      places. */
  ghost predicate Popped<T>(r: seq<T>, base: nat, i: nat, free0: seq<T>, free: seq<T>) {
    && |r| == base + i
    && free == free0[..|free0| - Min(i, |free0|)]
    && Distinct(r) && Distinct(free) && Disjoint(r, free)
    && forall k :: base <= k < base + Min(i, |free0|) ==> r[k] == free0[|free0| - 1 - (k - base)]
  }

  /** Before the first pass nothing has been popped. */
  lemma PoppedStart<T>(r: seq<T>, free0: seq<T>)
    requires Distinct(r) && Distinct(free0) && Disjoint(r, free0)
    ensures Popped(r, |r|, 0, free0, free0)
  {
    assert free0[..|free0|] == free0;
  }

  /** What is not in a list is not in any of its prefixes. */
  lemma NotInPrefix<T>(s: seq<T>, n: int, x: T)
    requires x !in s && 0 <= n <= |s|
    ensures x !in s[..n]
  {
    forall k | 0 <= k < n ensures s[..n][k] != x {
      assert s[..n][k] == s[k];
    }
  }

  /** What is not in a list is not in any of its suffixes. */
  lemma NotInSuffix<T>(s: seq<T>, n: int, x: T)
    requires x !in s && 0 <= n <= |s|
    ensures x !in s[n..]
  {
    forall k | 0 <= k < |s| - n ensures s[n..][k] != x {
      assert s[n..][k] == s[n + k];
    }
  }

  /** One more pass: `pop` took the last free element, or a new one when the list was
      empty. */
  lemma PopStep<T>(r: seq<T>, base: nat, i: nat, free0: seq<T>, free: seq<T>, p: T)
    requires Popped(r, base, i, free0, free) && p !in r
    requires free != [] ==> p == free[|free| - 1]
    ensures Popped(r + [p], base, i + 1, free0, if free == [] then [] else free[..|free| - 1])
    ensures (r + [p])[..base] == r[..base]
  {
    var free' := if free == [] then [] else free[..|free| - 1];
    if free != [] {
      MoveLast(r, free);
      assert i < |free0| && p == free0[|free0| - 1 - i];
      assert free' == free0[..|free0| - Min(i + 1, |free0|)];
    } else {
      AppendNew(r, p);
    }
    forall k | base <= k < base + Min(i + 1, |free0|)
      ensures (r + [p])[k] == free0[|free0| - 1 - (k - base)]
    {
      if k < |r| { assert (r + [p])[k] == r[k]; }
    }
  }

  /** The guarded removal of an element that is present cuts the list around its first
      occurrence `i`. */
  lemma WithoutAt<T>(s: seq<T>, x: T, i: int)
    requires 0 <= i && i == IndexOf(s, x)
    ensures Without(s, x) == s[..i] + s[i + 1..]
  {
  }

  /** A list is what comes before position `i`, the element there, and the rest. */
  lemma Around<T>(s: seq<T>, i: int)
    requires 0 <= i < |s|
    ensures s == (s[..i] + [s[i]]) + s[i + 1..]
  {
    assert s[..i] + [s[i]] == s[..i + 1];
  }

  /** The elements of `s` at even positions, in order. */
  function Evens<T>(s: seq<T>): seq<T> {
    seq((|s| + 1) / 2, i requires 0 <= i < (|s| + 1) / 2 => s[2 * i])
  }

  /** The elements of `s` at odd positions, in order. */
  function Odds<T>(s: seq<T>): seq<T> {
    seq(|s| / 2, i requires 0 <= i < |s| / 2 => s[2 * i + 1])
  }

  /** An array that started as `s` after `k` passes of a `forEach` whose callback
      removes the visited element: each pass removes the element at index `k` of what
      is left, so the passes take every other element, and the ones in between stay. */
  function Remaining<T>(s: seq<T>, k: nat): seq<T> {
    var m := Min(2 * k, |s|);
    Odds(s[..m]) + s[m..]
  }

  /** While the index is within what is left, pass `k` visits `s[2 * k]`, removes it,
      and skips `s[2 * k + 1]`. */
  lemma SkipStep<T>(s: seq<T>, k: nat)
    requires Distinct(s) && 2 * k < |s|
    ensures |Remaining(s, k)| == |s| - k && Remaining(s, k)[k] == s[2 * k]
    ensures Without(Remaining(s, k), s[2 * k]) == Remaining(s, k + 1)
    ensures Evens(s[..Min(2 * k + 2, |s|)]) == Evens(s[..2 * k]) + [s[2 * k]]
  {
    var o, x, t := Odds(s[..2 * k]), s[2 * k], s[2 * k + 1..];
    SkipSplits(s, k);
    OddsMiss(s, k);
    WithoutAfter(o, x, t);
    SkipTail(s, k);
    SkipEvens(s, k);
    assert (o + [x] + t)[|o|] == x;
  }

  /** What is left before pass `k`: the skipped elements, then `s[2 * k]` and the rest. */
  lemma SkipSplits<T>(s: seq<T>, k: nat)
    requires 2 * k < |s|
    ensures Remaining(s, k) == Odds(s[..2 * k]) + [s[2 * k]] + s[2 * k + 1..]
    ensures |Odds(s[..2 * k])| == k
  {
    assert s[2 * k..] == [s[2 * k]] + s[2 * k + 1..];
  }

  /** The elements at odd positions before `2 * k` differ from `s[2 * k]`. */
  lemma OddsMiss<T>(s: seq<T>, k: nat)
    requires Distinct(s) && 2 * k < |s|
    ensures s[2 * k] !in Odds(s[..2 * k])
  {
    var o := Odds(s[..2 * k]);
    DistinctAt(s, 2 * k);
    forall i | 0 <= i < |o| ensures o[i] != s[2 * k] {
      assert o[i] == s[2 * i + 1];
    }
  }

  /** An element absent from `a` is first found right after it. */
  lemma {:induction false} IndexOfAfter<T>(a: seq<T>, x: T, b: seq<T>)
    requires x !in a
    ensures IndexOf(a + [x] + b, x) == |a|
    decreases |a|
  {
    if a != [] {
      var r := a + [x] + b;
      assert r[1..] == a[1..] + [x] + b;
      IndexOfAfter(a[1..], x, b);
    }
  }

  /** Removing an element absent from `a` from `a + [x] + b` removes the `x` after `a`. */
  lemma WithoutAfter<T>(a: seq<T>, x: T, b: seq<T>)
    requires x !in a
    ensures Without(a + [x] + b, x) == a + b
  {
    var r := a + [x] + b;
    IndexOfAfter(a, x, b);
    assert r[..|a|] == a && r[|a| + 1..] == b;
  }

  /** Removing `s[2 * k]` leaves what is left after pass `k + 1`. */
  lemma SkipTail<T>(s: seq<T>, k: nat)
    requires 2 * k < |s|
    ensures Odds(s[..2 * k]) + s[2 * k + 1..] == Remaining(s, k + 1)
  {
    var o := Odds(s[..2 * k]);
    var m := Min(2 * k + 2, |s|);
    if m == 2 * k + 2 {
      assert Odds(s[..m]) == o + [s[2 * k + 1]];
      assert s[2 * k + 1..] == [s[2 * k + 1]] + s[m..];
    } else {
      assert Odds(s[..m]) == o;
    }
  }

  /** Pass `k` adds `s[2 * k]` to the visited elements. */
  lemma SkipEvens<T>(s: seq<T>, k: nat)
    requires 2 * k < |s|
    ensures Evens(s[..Min(2 * k + 2, |s|)]) == Evens(s[..2 * k]) + [s[2 * k]]
  {
    var m := Min(2 * k + 2, |s|);
    assert |Evens(s[..m])| == k + 1;
  }

  /** Before the first pass, the whole array is left and nothing was visited. */
  lemma SkipStart<T>(s: seq<T>)
    ensures Remaining(s, 0) == s && Evens(s[..Min(0, |s|)]) == []
  {
    assert s[..0] == [] && s[0..] == s;
  }

  /** The index `k` is within what is left exactly while `2 * k` is within `s`. */
  lemma SkipLength<T>(s: seq<T>, k: nat)
    ensures k < |Remaining(s, k)| <==> 2 * k < |s|
  {
    if 2 * k < |s| {
      assert |Odds(s[..2 * k])| == k;
    }
  }

  /** Once the index passes what is left, the loop is over: the even positions were
      visited and the odd ones stay. */
  lemma SkipDone<T>(s: seq<T>, k: nat)
    requires |s| <= 2 * k
    ensures Remaining(s, k) == Odds(s) && |Remaining(s, k)| <= k
    ensures Evens(s[..Min(2 * k, |s|)]) == Evens(s)
  {
    assert s[..|s|] == s;
  }

  /** A pass whose index is past what is left changes nothing. */
  lemma SkipPast<T>(s: seq<T>, k: nat)
    requires |s| <= 2 * k
    ensures Remaining(s, k + 1) == Remaining(s, k) && Min(2 * k + 2, |s|) == Min(2 * k, |s|)
  {
  }

  /** A `forEach` over at least two elements that removes each visited one leaves the
      second element behind. */
  lemma SecondSkipped<T>(s: seq<T>)
    requires |s| >= 2
    ensures s[1] in Odds(s) && Odds(s) != []
  {
    assert Odds(s)[0] == s[1];
  }

}
