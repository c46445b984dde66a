/** Order statistics: the percentile index over a sorted copy of the samples. */
module OrderStatistics {

  predicate Sorted(s: seq<int>) { forall i, j :: 0 <= i < j < |s| ==> s[i] <= s[j] }

  function Insert(s: seq<int>, x: int): (r: seq<int>)
    ensures |r| == |s| + 1
  {
    if s == [] || s[|s| - 1] <= x then s + [x] else Insert(s[..|s| - 1], x) + [s[|s| - 1]]
  }

  /** The values in ascending order. */
  function Ranked(s: seq<int>): (r: seq<int>)
    ensures |r| == |s|
  {
    if s == [] then [] else Insert(Ranked(s[..|s| - 1]), s[|s| - 1])
  }

  function Count(s: seq<int>, p: int -> bool): nat {
    if s == [] then 0 else Count(s[..|s| - 1], p) + if p(s[|s| - 1]) then 1 else 0
  }

  function Below(v: int): int -> bool { x => x < v }

  function AtMost(v: int): int -> bool { x => x <= v }

  /** The index the program takes for the 95th percentile of `n` samples. */
  function P95Index(n: int): (i: int)
    requires n > 0
    ensures 0 <= i < n && 100 * i <= 95 * (n - 1) < 100 * i + 100
  {
    95 * (n - 1) / 100
  }

  function P95(s: seq<int>): int
    requires s != []
  {
    Ranked(s)[P95Index(|s|)]
  }

  lemma {:induction false} InsertSorted(s: seq<int>, x: int)
    requires Sorted(s)
    ensures Sorted(Insert(s, x))
    ensures Insert(s, x)[|s|] == if s == [] || s[|s| - 1] <= x then x else s[|s| - 1]
  {
    if s == [] || s[|s| - 1] <= x {
    } else {
      InsertSorted(s[..|s| - 1], x);
    }
  }

  lemma {:induction false} InsertBag(s: seq<int>, x: int)
    ensures multiset(Insert(s, x)) == multiset(s) + multiset{x}
  {
    if s == [] || s[|s| - 1] <= x {
    } else {
      InsertBag(s[..|s| - 1], x);
      assert s == s[..|s| - 1] + [s[|s| - 1]];
    }
  }

  lemma {:induction false} InsertCount(s: seq<int>, x: int, p: int -> bool)
    ensures Count(Insert(s, x), p) == Count(s, p) + if p(x) then 1 else 0
  {
    if s == [] || s[|s| - 1] <= x {
      assert (s + [x])[..|s|] == s;
    } else {
      var rest := Insert(s[..|s| - 1], x);
      InsertCount(s[..|s| - 1], x, p);
      assert (rest + [s[|s| - 1]])[..|rest|] == rest;
    }
  }

  lemma {:induction false} RankedAscends(s: seq<int>)
    ensures Sorted(Ranked(s))
  {
    if s == [] {
    } else {
      RankedAscends(s[..|s| - 1]);
      InsertSorted(Ranked(s[..|s| - 1]), s[|s| - 1]);
    }
  }

  lemma {:induction false} RankedBag(s: seq<int>)
    ensures multiset(Ranked(s)) == multiset(s)
  {
    if s == [] {
    } else {
      RankedBag(s[..|s| - 1]);
      InsertBag(Ranked(s[..|s| - 1]), s[|s| - 1]);
      assert s == s[..|s| - 1] + [s[|s| - 1]];
    }
  }

  lemma RankedSorted(s: seq<int>)
    ensures Sorted(Ranked(s)) && multiset(Ranked(s)) == multiset(s)
  {
    RankedAscends(s);
    RankedBag(s);
  }

  lemma {:induction false} RankedCount(s: seq<int>, p: int -> bool)
    ensures Count(Ranked(s), p) == Count(s, p)
  {
    if s == [] {
    } else {
      RankedCount(s[..|s| - 1], p);
      InsertCount(Ranked(s[..|s| - 1]), s[|s| - 1], p);
    }
  }

  lemma SameLength(a: seq<int>, b: seq<int>)
    requires multiset(a) == multiset(b)
    ensures |a| == |b|
  {
    assert |a| == |multiset(a)| && |b| == |multiset(b)|;
  }

  lemma LastIsLargest(a: seq<int>, x: int)
    requires Sorted(a) && x in multiset(a)
    ensures a != [] && x <= a[|a| - 1]
  {
    assert x in a;
  }

  lemma DropLast(a: seq<int>)
    requires a != []
    ensures multiset(a[..|a| - 1]) == multiset(a) - multiset{a[|a| - 1]}
  {
    assert a == a[..|a| - 1] + [a[|a| - 1]];
  }

  lemma SameLargest(a: seq<int>, b: seq<int>)
    requires Sorted(a) && Sorted(b) && multiset(a) == multiset(b) && a != []
    ensures b != [] && a[|a| - 1] == b[|b| - 1]
  {
    SameLength(a, b);
    LastIsLargest(a, b[|b| - 1]);
    LastIsLargest(b, a[|a| - 1]);
  }

  /** Whatever sorting algorithm is used, and whatever it does with ties, the result is the same. */
  lemma {:induction false} SortedUnique(a: seq<int>, b: seq<int>)
    requires Sorted(a) && Sorted(b) && multiset(a) == multiset(b)
    ensures a == b
    decreases |a|
  {
    SameLength(a, b);
    if a == [] {
    } else {
      SameLargest(a, b);
      DropLast(a);
      DropLast(b);
      SortedUnique(a[..|a| - 1], b[..|b| - 1]);
      assert a == a[..|a| - 1] + [a[|a| - 1]] && b == b[..|b| - 1] + [b[|b| - 1]];
    }
  }

  lemma {:induction false} CountBounds(s: seq<int>, k: nat, p: int -> bool)
    requires k <= |s|
    ensures Count(s, p) <= |s|
    ensures (forall i :: 0 <= i < k ==> p(s[i])) ==> Count(s, p) >= k
    ensures (forall i :: k <= i < |s| ==> !p(s[i])) ==> Count(s, p) <= k
  {
    if s == [] {
    } else {
      CountBounds(s[..|s| - 1], if k < |s| then k else k - 1, p);
    }
  }

  lemma RankCounts(r: seq<int>, i: nat)
    requires Sorted(r) && i < |r|
    ensures Count(r, AtMost(r[i])) >= i + 1 && Count(r, Below(r[i])) <= i
  {
    CountBounds(r, i + 1, AtMost(r[i]));
    CountBounds(r, i, Below(r[i]));
  }

  /** P95 is the true order statistic: of `n` samples, more than 95 percent of `n - 1` are no larger and at most 95
      percent of `n - 1` are smaller. */
  lemma P95IsOrderStatistic(s: seq<int>)
    requires s != []
    ensures P95(s) in s
    ensures 100 * Count(s, AtMost(P95(s))) > 95 * (|s| - 1)
    ensures 100 * Count(s, Below(P95(s))) <= 95 * (|s| - 1)
  {
    var p := P95(s);
    assert p in Ranked(s);
    assert p in multiset(s) by { RankedSorted(s); }
    assert Sorted(Ranked(s)) by { RankedSorted(s); }
    RankCounts(Ranked(s), P95Index(|s|));
    RankedCount(s, AtMost(p));
    RankedCount(s, Below(p));
  }

  /** Only the bag of durations matters: any ascending rearrangement has P95 at the index. */
  lemma P95OfAnySort(s: seq<int>, r: seq<int>)
    requires s != [] && Sorted(r) && multiset(r) == multiset(s)
    ensures |r| == |s| && r[P95Index(|s|)] == P95(s)
  {
    RankedSorted(s);
    SortedUnique(r, Ranked(s));
  }

  /** The order in which the flows arrived is irrelevant. */
  lemma P95IgnoresArrivalOrder(s: seq<int>, t: seq<int>)
    requires s != [] && multiset(s) == multiset(t)
    ensures t != [] && P95(s) == P95(t)
  {
    SameLength(s, t);
    RankedSorted(s);
    P95OfAnySort(t, Ranked(s));
  }

  /** Stands for the library sort: some ascending rearrangement. */
  method SortDurations(s: seq<int>) returns (r: seq<int>)
    ensures Sorted(r) && multiset(r) == multiset(s)
  {
    r := [];
    for i := 0 to |s|
      invariant Sorted(r) && multiset(r) == multiset(s[..i])
    {
      InsertSorted(r, s[i]);
      InsertBag(r, s[i]);
      r := Insert(r, s[i]);
      assert s[..i + 1] == s[..i] + [s[i]];
    }
    assert s[..|s|] == s;
  }
}
