/** The pure statistics the agent applies to its bounded histories: the
    append of a `deque(maxlen=...)`, the upper median `sorted(h)[len(h)//2]`
    and the arithmetic mean `sum(h)/len(h)`. */
module Stats {

  // ---------- Bounded deque ----------

  /** `deque(maxlen=cap).append(x)`: keep the last `cap` entries of `h + [x]`. */
  function Append(h: seq<real>, x: real, cap: nat): (r: seq<real>)
    requires 0 < cap
    ensures |r| <= cap && |r| > 0 && r[|r| - 1] == x
  {
    var s := h + [x];
    if |s| <= cap then s else s[|s| - cap..]
  }

  /** A deque with room grows by `x`; a full one drops its oldest entry
      first; either way nothing but `x` and old entries is stored. */
  lemma AppendEvictsOldest(h: seq<real>, x: real, cap: nat)
    requires 0 < cap
    ensures |h| < cap ==> Append(h, x, cap) == h + [x]
    ensures |h| == cap ==> Append(h, x, cap) == h[1..] + [x]
    ensures forall y :: y in Append(h, x, cap) ==> y == x || y in h
  {
    var s := h + [x];
    if |s| > cap {
      forall y | y in s[|s| - cap..] ensures y == x || y in h {
        var k :| 0 <= k < |s[|s| - cap..]| && s[|s| - cap..][k] == y;
        assert y == s[|s| - cap + k];
      }
    }
  }

  /** Appending a value within `[lo, hi]` keeps every entry within `[lo, hi]`. */
  lemma AppendWithin(h: seq<real>, x: real, cap: nat, lo: real, hi: real)
    requires 0 < cap
    requires forall i :: 0 <= i < |h| ==> lo <= h[i] <= hi
    requires lo <= x <= hi
    ensures forall i :: 0 <= i < |Append(h, x, cap)| ==> lo <= Append(h, x, cap)[i] <= hi
  {
    var r := Append(h, x, cap);
    AppendEvictsOldest(h, x, cap);
    forall i | 0 <= i < |r| ensures lo <= r[i] <= hi {
      assert r[i] in r;
      if r[i] != x {
        var k :| 0 <= k < |h| && h[k] == r[i];
      }
    }
  }

  /** Appending a value of at least `lo` keeps every entry at least `lo`. */
  lemma AppendAtLeast(h: seq<real>, x: real, cap: nat, lo: real)
    requires 0 < cap
    requires forall i :: 0 <= i < |h| ==> lo <= h[i]
    requires lo <= x
    ensures forall i :: 0 <= i < |Append(h, x, cap)| ==> lo <= Append(h, x, cap)[i]
  {
    var r := Append(h, x, cap);
    AppendEvictsOldest(h, x, cap);
    forall i | 0 <= i < |r| ensures lo <= r[i] {
      assert r[i] in r;
      if r[i] != x {
        var k :| 0 <= k < |h| && h[k] == r[i];
      }
    }
  }

  // ---------- Sorting ----------

  predicate Sorted(s: seq<real>) {
    forall i, j :: 0 <= i < j < |s| ==> s[i] <= s[j]
  }

  lemma SortedCons(x: real, s: seq<real>)
    requires Sorted(s)
    requires forall y :: y in multiset(s) ==> x <= y
    ensures Sorted([x] + s)
  {
    forall i, j | 0 <= i < j < |s| + 1 ensures ([x] + s)[i] <= ([x] + s)[j] {
      if i == 0 {
        assert ([x] + s)[j] == s[j - 1] && s[j - 1] in multiset(s);
      } else {
        assert ([x] + s)[i] == s[i - 1] && ([x] + s)[j] == s[j - 1];
      }
    }
  }

  lemma SortedTailAbove(s: seq<real>, y: real)
    requires Sorted(s) && s != [] && y in multiset(s[1..])
    ensures s[0] <= y
  {
    var k :| 0 <= k < |s[1..]| && s[1..][k] == y;
    assert s[k + 1] == y;
  }

  /** Insert `x` before the first entry not below it. */
  function Insert(x: real, s: seq<real>): (r: seq<real>)
    ensures |r| == |s| + 1
  {
    if s == [] || x <= s[0] then [x] + s else [s[0]] + Insert(x, s[1..])
  }

  /** Insertion sort, standing for Python's `sorted` on a list of numbers. */
  function Sort(s: seq<real>): (r: seq<real>)
    ensures |r| == |s|
  {
    if s == [] then [] else Insert(s[0], Sort(s[1..]))
  }

  lemma {:induction false} InsertCorrect(x: real, s: seq<real>)
    ensures multiset(Insert(x, s)) == multiset(s) + multiset{x}
    ensures Sorted(s) ==> Sorted(Insert(x, s))
  {
    assert s != [] ==> s == [s[0]] + s[1..];
    if s == [] || x <= s[0] {
      if Sorted(s) {
        forall y | y in multiset(s) ensures x <= y {
          SortedHeadIsLeast(s, y);
        }
        SortedCons(x, s);
      }
    } else {
      var rest := Insert(x, s[1..]);
      InsertCorrect(x, s[1..]);
      if Sorted(s) {
        SortedTail(s);
        forall y | y in multiset(rest) ensures s[0] <= y {
          if y != x {
            SortedTailAbove(s, y);
          }
        }
        SortedCons(s[0], rest);
      }
    }
  }

  /** `Sort` returns an ascending permutation of its input. */
  lemma {:induction false} SortCorrect(s: seq<real>)
    ensures Sorted(Sort(s))
    ensures multiset(Sort(s)) == multiset(s)
  {
    if s != [] {
      assert s == [s[0]] + s[1..];
      SortCorrect(s[1..]);
      InsertCorrect(s[0], Sort(s[1..]));
    }
  }

  lemma SortedHeadIsLeast(s: seq<real>, y: real)
    requires Sorted(s) && y in multiset(s)
    ensures s[0] <= y
  {
    var k :| 0 <= k < |s| && s[k] == y;
  }

  lemma SortedTail(s: seq<real>)
    requires Sorted(s) && s != []
    ensures Sorted(s[1..])
  {
    forall i, j | 0 <= i < j < |s| - 1 ensures s[1..][i] <= s[1..][j] {
      assert s[1..][i] == s[i + 1] && s[1..][j] == s[j + 1];
    }
  }

  lemma TailMultiset(s: seq<real>)
    requires s != []
    ensures multiset(s[1..]) == multiset(s) - multiset{s[0]}
  {
    assert s == [s[0]] + s[1..];
  }

  /** Two sorted permutations of one non-empty multiset start with the same
      (least) element and continue with sorted permutations of one another. */
  lemma SameHead(a: seq<real>, b: seq<real>)
    requires Sorted(a) && Sorted(b) && a != []
    requires multiset(a) == multiset(b)
    ensures b != [] && a[0] == b[0]
    ensures multiset(a[1..]) == multiset(b[1..])
    ensures Sorted(a[1..]) && Sorted(b[1..])
  {
    assert |b| == |multiset(b)| == |multiset(a)| == |a|;
    SortedHeadIsLeast(b, a[0]);
    SortedHeadIsLeast(a, b[0]);
    TailMultiset(a);
    TailMultiset(b);
    SortedTail(a);
    SortedTail(b);
  }

  /** There is only one ascending permutation of a sequence, so `Sort` is
      exactly Python's `sorted`, whatever algorithm computes it. */
  lemma {:induction false} SortedPermutationsEqual(a: seq<real>, b: seq<real>)
    requires Sorted(a) && Sorted(b)
    requires multiset(a) == multiset(b)
    ensures a == b
  {
    if a == [] {
      assert |b| == |multiset(b)| == 0;
    } else {
      SameHead(a, b);
      SortedPermutationsEqual(a[1..], b[1..]);
      assert a == [a[0]] + a[1..] && b == [b[0]] + b[1..];
    }
  }

  // ---------- Upper median ----------

  /** `sorted(h)[len(h) // 2]`: the middle element, the upper one of the two
      middles when the length is even. */
  function UpperMedian(h: seq<real>): real
    requires |h| > 0
  {
    Sort(h)[|h| / 2]
  }

  /** Number of entries strictly below `m`. */
  function CountBelow(s: seq<real>, m: real): nat {
    if s == [] then 0 else (if s[0] < m then 1 else 0) + CountBelow(s[1..], m)
  }

  /** Number of entries at or below `m`. */
  function CountAtMost(s: seq<real>, m: real): nat {
    if s == [] then 0 else (if s[0] <= m then 1 else 0) + CountAtMost(s[1..], m)
  }

  lemma {:induction false} CountsOfInsert(x: real, s: seq<real>, m: real)
    ensures CountBelow(Insert(x, s), m) == CountBelow(s, m) + (if x < m then 1 else 0)
    ensures CountAtMost(Insert(x, s), m) == CountAtMost(s, m) + (if x <= m then 1 else 0)
  {
    if s == [] || x <= s[0] {
      assert ([x] + s)[1..] == s;
    } else {
      CountsOfInsert(x, s[1..], m);
      assert ([s[0]] + Insert(x, s[1..]))[1..] == Insert(x, s[1..]);
    }
  }

  lemma {:induction false} CountsOfSort(s: seq<real>, m: real)
    ensures CountBelow(Sort(s), m) == CountBelow(s, m)
    ensures CountAtMost(Sort(s), m) == CountAtMost(s, m)
  {
    if s != [] {
      CountsOfSort(s[1..], m);
      CountsOfInsert(s[0], Sort(s[1..]), m);
    }
  }

  lemma {:induction false} NoneBelow(s: seq<real>, m: real)
    requires forall i :: 0 <= i < |s| ==> m <= s[i]
    ensures CountBelow(s, m) == 0
  {
    if s != [] {
      NoneBelow(s[1..], m);
    }
  }

  lemma {:induction false} CountsOfSortedAt(s: seq<real>, k: nat)
    requires Sorted(s) && k < |s|
    ensures CountBelow(s, s[k]) <= k
    ensures CountAtMost(s, s[k]) >= k + 1
  {
    if k == 0 {
      NoneBelow(s[1..], s[0]);
    } else {
      assert s[1..][k - 1] == s[k];
      CountsOfSortedAt(s[1..], k - 1);
    }
  }

  /** The upper median is an entry of the history, characterised by rank:
      at most half of the entries (rounded down) lie strictly below it and
      more than half lie at or below it. */
  lemma UpperMedianRank(h: seq<real>)
    requires |h| > 0
    ensures UpperMedian(h) in h
    ensures CountBelow(h, UpperMedian(h)) <= |h| / 2
    ensures CountAtMost(h, UpperMedian(h)) > |h| / 2
  {
    var s := Sort(h);
    SortCorrect(h);
    assert s[|h| / 2] in multiset(s);
    CountsOfSortedAt(s, |h| / 2);
    CountsOfSort(h, UpperMedian(h));
  }

  // ---------- Mean ----------

  function Sum(h: seq<real>): real {
    if h == [] then 0.0 else h[0] + Sum(h[1..])
  }

  function Min(h: seq<real>): (m: real)
    requires |h| > 0
    ensures m in h
    ensures forall i :: 0 <= i < |h| ==> m <= h[i]
  {
    if |h| == 1 then h[0]
    else
      var t := Min(h[1..]);
      assert forall i :: 1 <= i < |h| ==> h[1..][i - 1] == h[i];
      if h[0] <= t then h[0] else t
  }

  function Max(h: seq<real>): (m: real)
    requires |h| > 0
    ensures m in h
    ensures forall i :: 0 <= i < |h| ==> h[i] <= m
  {
    if |h| == 1 then h[0]
    else
      var t := Max(h[1..]);
      assert forall i :: 1 <= i < |h| ==> h[1..][i - 1] == h[i];
      if h[0] >= t then h[0] else t
  }

  lemma {:induction false} SumBetween(h: seq<real>, lo: real, hi: real)
    requires forall i :: 0 <= i < |h| ==> lo <= h[i] <= hi
    ensures (|h| as real) * lo <= Sum(h) <= (|h| as real) * hi
  {
    if h != [] {
      assert forall i :: 0 <= i < |h[1..]| ==> h[1..][i] == h[i + 1];
      SumBetween(h[1..], lo, hi);
      assert (|h| as real) * lo == (|h[1..]| as real) * lo + lo;
      assert (|h| as real) * hi == (|h[1..]| as real) * hi + hi;
    }
  }

  lemma QuotientBetween(a: real, n: real, lo: real, hi: real)
    requires n > 0.0 && n * lo <= a <= n * hi
    ensures lo <= a / n <= hi
  {
    assert a == (a / n) * n;
  }

  /** `sum(h) / len(h)`. */
  function Mean(h: seq<real>): real
    requires |h| > 0
  {
    Sum(h) / (|h| as real)
  }

  /** Bounds that hold for every entry hold for the mean. */
  lemma MeanWithin(h: seq<real>, lo: real, hi: real)
    requires |h| > 0
    requires forall i :: 0 <= i < |h| ==> lo <= h[i] <= hi
    ensures lo <= Mean(h) <= hi
  {
    SumBetween(h, lo, hi);
    QuotientBetween(Sum(h), |h| as real, lo, hi);
  }

  /** The mean lies between the smallest and the largest entry. */
  lemma MeanBetween(h: seq<real>)
    requires |h| > 0
    ensures Min(h) <= Mean(h) <= Max(h)
  {
    MeanWithin(h, Min(h), Max(h));
  }
}
