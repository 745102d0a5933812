/**
 * Python's `sum`, `min`, `max` and `sorted` over a list of numbers, shared by the
 * calculator tools and by the market-price summary.
 */
module Stats {

  /** `sum(xs)` */
  function Sum(xs: seq<real>): real {
    if xs == [] then 0.0 else xs[0] + Sum(xs[1..])
  }

  /** the product of all elements */
  function Product(xs: seq<real>): real {
    if xs == [] then 1.0 else xs[0] * Product(xs[1..])
  }

  /** Sums and products of the short literal lists the calculator tools build. */
  lemma SumProductOfLiterals(a: real, b: real, c: real, d: real, e: real)
    ensures Sum([a, b]) == a + b && Sum([a, b, c]) == a + b + c
    ensures Sum([a, b, c, d]) == a + b + c + d && Sum([a, b, c, d, e]) == a + b + c + d + e
    ensures Product([a, b, c, d, e]) == a * b * c * d * e
  {
    assert Sum([e]) == e by { assert [e][1..] == []; }
    assert Sum([d, e]) == d + e by { assert [d, e][1..] == [e]; }
    assert Sum([c, d, e]) == c + d + e by { assert [c, d, e][1..] == [d, e]; }
    assert Sum([b, c, d, e]) == b + c + d + e by { assert [b, c, d, e][1..] == [c, d, e]; }
    assert Sum([a, b, c, d, e]) == a + b + c + d + e by { assert [a, b, c, d, e][1..] == [b, c, d, e]; }
    assert Sum([d]) == d by { assert [d][1..] == []; }
    assert Sum([c, d]) == c + d by { assert [c, d][1..] == [d]; }
    assert Sum([b, c, d]) == b + c + d by { assert [b, c, d][1..] == [c, d]; }
    assert Sum([a, b, c, d]) == a + b + c + d by { assert [a, b, c, d][1..] == [b, c, d]; }
    assert Sum([c]) == c by { assert [c][1..] == []; }
    assert Sum([b, c]) == b + c by { assert [b, c][1..] == [c]; }
    assert Sum([a, b, c]) == a + b + c by { assert [a, b, c][1..] == [b, c]; }
    assert Sum([b]) == b by { assert [b][1..] == []; }
    assert Sum([a, b]) == a + b by { assert [a, b][1..] == [b]; }
    assert Product([e]) == e by { assert [e][1..] == []; }
    assert Product([d, e]) == d * e by { assert [d, e][1..] == [e]; }
    assert Product([c, d, e]) == c * (d * e) by { assert [c, d, e][1..] == [d, e]; }
    assert Product([b, c, d, e]) == b * (c * (d * e)) by { assert [b, c, d, e][1..] == [c, d, e]; }
    assert Product([a, b, c, d, e]) == a * (b * (c * (d * e))) by { assert [a, b, c, d, e][1..] == [b, c, d, e]; }
  }

  /** `sum(xs) / len(xs)` */
  function Mean(xs: seq<real>): real
    requires |xs| > 0
  {
    Sum(xs) / |xs| as real
  }

  /** `min(xs)`: an element of `xs` that is at most every element. */
  function SeqMin(xs: seq<real>): (m: real)
    requires |xs| > 0
    ensures m in xs
    ensures forall i :: 0 <= i < |xs| ==> m <= xs[i]
  {
    if |xs| == 1 then xs[0]
    else
      var rest := SeqMin(xs[1..]);
      if rest < xs[0] then rest else xs[0]
  }

  /** `max(xs)`: an element of `xs` that is at least every element. */
  function SeqMax(xs: seq<real>): (m: real)
    requires |xs| > 0
    ensures m in xs
    ensures forall i :: 0 <= i < |xs| ==> xs[i] <= m
  {
    if |xs| == 1 then xs[0]
    else
      var rest := SeqMax(xs[1..]);
      if rest > xs[0] then rest else xs[0]
  }

  /** The sum of `xs` lies between `|xs|` times its least and `|xs|` times its greatest element. */
  lemma {:induction false} SumBounds(xs: seq<real>, lo: real, hi: real)
    requires forall i :: 0 <= i < |xs| ==> lo <= xs[i] <= hi
    ensures |xs| as real * lo <= Sum(xs) <= |xs| as real * hi
  {
    if xs != [] {
      SumBounds(xs[1..], lo, hi);
    }
  }

  /** The mean lies between the minimum and the maximum. */
  lemma MeanBetweenMinAndMax(xs: seq<real>)
    requires |xs| > 0
    ensures SeqMin(xs) <= Mean(xs) <= SeqMax(xs)
  {
    MeanBounds(xs, SeqMin(xs), SeqMax(xs));
  }

  lemma MeanBounds(xs: seq<real>, lo: real, hi: real)
    requires |xs| > 0
    requires forall i :: 0 <= i < |xs| ==> lo <= xs[i] <= hi
    ensures lo <= Sum(xs) / |xs| as real <= hi
  {
    SumBounds(xs, lo, hi);
    DivideBounds(|xs| as real, lo, Sum(xs), hi);
  }

  lemma DivideBounds(n: real, lo: real, s: real, hi: real)
    requires n > 0.0 && n * lo <= s <= n * hi
    ensures lo <= s / n <= hi
  {
    var q := s / n;
    assert q * n == s;
    assert (q - lo) * n >= 0.0;
    assert (hi - q) * n >= 0.0;
  }

  ghost predicate IsSorted(xs: seq<real>) {
    forall i, j :: 0 <= i < j < |xs| ==> xs[i] <= xs[j]
  }

  /** A sequence whose neighbours are in order is sorted. */
  lemma {:induction false} NeighboursSorted(xs: seq<real>)
    requires forall i :: 0 <= i < |xs| - 1 ==> xs[i] <= xs[i + 1]
    ensures IsSorted(xs)
  {
    if |xs| >= 2 {
      var tail := xs[1..];
      assert forall i :: 0 <= i < |tail| - 1 ==> tail[i] <= tail[i + 1] by {
        forall i | 0 <= i < |tail| - 1 ensures tail[i] <= tail[i + 1] {
          assert tail[i] == xs[i + 1] && tail[i + 1] == xs[i + 2];
        }
      }
      NeighboursSorted(tail);
      forall i, j | 0 <= i < j < |xs| ensures xs[i] <= xs[j] {
        if i > 0 {
          assert xs[i] == tail[i - 1] && xs[j] == tail[j - 1];
        } else if j > 1 {
          assert xs[1] == tail[0] && xs[j] == tail[j - 1];
        }
      }
    }
  }

  /** Inserts `x` into a sorted sequence, in front of the first element not below it. */
  function Insert(x: real, s: seq<real>): (r: seq<real>)
    requires IsSorted(s)
    ensures IsSorted(r)
    ensures |r| == |s| + 1
    ensures r[0] == if s == [] || x <= s[0] then x else s[0]
  {
    if s == [] || x <= s[0] then
      TailBound(s);
      ConsSorted(x, s);
      [x] + s
    else
      TailBound(s);
      var tail := Insert(x, s[1..]);
      HeadBound(s[0], tail);
      ConsSorted(s[0], tail);
      [s[0]] + tail
  }

  /** Every element of a sorted sequence's tail is at least its head, and the tail is sorted. */
  lemma TailBound(s: seq<real>)
    requires IsSorted(s)
    ensures s != [] ==> IsSorted(s[1..]) && forall i :: 0 <= i < |s[1..]| ==> s[0] <= s[1..][i]
  {
  }

  /** A value at most the head of a sorted sequence is at most all of it. */
  lemma HeadBound(b: real, t: seq<real>)
    requires IsSorted(t) && |t| > 0 && b <= t[0]
    ensures forall i :: 0 <= i < |t| ==> b <= t[i]
  {
  }

  /** A value at most every element of a sorted sequence can go in front of it. */
  lemma ConsSorted(b: real, t: seq<real>)
    requires IsSorted(t)
    requires forall i :: 0 <= i < |t| ==> b <= t[i]
    ensures IsSorted([b] + t)
  {
  }

  /** Inserting adds `x` and keeps every element already there. */
  lemma {:induction false} InsertPermutes(x: real, s: seq<real>)
    requires IsSorted(s)
    ensures multiset(Insert(x, s)) == multiset(s) + multiset{x}
  {
    if s != [] && x > s[0] {
      InsertPermutes(x, s[1..]);
      assert s == [s[0]] + s[1..];
    }
  }

  /** `sorted(xs)`: an ascending sequence of the same length as `xs`. */
  function Sort(xs: seq<real>): (r: seq<real>)
    ensures IsSorted(r)
    ensures |r| == |xs|
  {
    if xs == [] then [] else Insert(xs[0], Sort(xs[1..]))
  }

  /** `sorted(xs)` is a permutation of `xs`. */
  lemma {:induction false} SortPermutes(xs: seq<real>)
    ensures multiset(Sort(xs)) == multiset(xs)
  {
    if xs != [] {
      var t := Sort(xs[1..]);
      SortPermutes(xs[1..]);
      InsertPermutes(xs[0], t);
      assert Sort(xs) == Insert(xs[0], t);
      MultisetOfCons(xs);
    }
  }

  lemma MultisetOfCons(xs: seq<real>)
    requires xs != []
    ensures multiset(xs) == multiset(xs[1..]) + multiset{xs[0]}
  {
    assert xs == [xs[0]] + xs[1..];
  }

  /** How many elements of `xs` are strictly below `m`. */
  function CountBelow(xs: seq<real>, m: real): (n: nat)
    ensures n <= |xs|
  {
    if xs == [] then 0 else (if xs[0] < m then 1 else 0) + CountBelow(xs[1..], m)
  }

  /** How many elements of `xs` are strictly above `m`. */
  function CountAbove(xs: seq<real>, m: real): (n: nat)
    ensures n <= |xs|
  {
    if xs == [] then 0 else (if xs[0] > m then 1 else 0) + CountAbove(xs[1..], m)
  }

  /**
   * `m` is a median of `xs`: it is one of the values, at most half of the values lie
   * strictly below it and at most half strictly above it.
   */
  ghost predicate IsMedian(m: real, xs: seq<real>) {
    && m in xs
    && CountBelow(xs, m) <= |xs| / 2
    && CountAbove(xs, m) <= |xs| / 2
  }

  lemma {:induction false} InsertCounts(x: real, s: seq<real>, m: real)
    requires IsSorted(s)
    ensures CountBelow(Insert(x, s), m) == CountBelow(s, m) + (if x < m then 1 else 0)
    ensures CountAbove(Insert(x, s), m) == CountAbove(s, m) + (if x > m then 1 else 0)
  {
    if s == [] || x <= s[0] {
      assert ([x] + s)[1..] == s;
    } else {
      InsertCounts(x, s[1..], m);
      assert ([s[0]] + Insert(x, s[1..]))[1..] == Insert(x, s[1..]);
    }
  }

  /** Sorting does not change how many values lie below or above a given value. */
  lemma {:induction false} SortCounts(xs: seq<real>, m: real)
    ensures CountBelow(Sort(xs), m) == CountBelow(xs, m)
    ensures CountAbove(Sort(xs), m) == CountAbove(xs, m)
  {
    if xs != [] {
      SortCounts(xs[1..], m);
      InsertCounts(xs[0], Sort(xs[1..]), m);
    }
  }

  /** In a sorted sequence at most `k` values lie below the `k`-th and at most `|s| - 1 - k` above it. */
  lemma {:induction false} SortedRankCounts(s: seq<real>, k: nat, m: real)
    requires IsSorted(s) && k < |s| && s[k] == m
    ensures CountBelow(s, m) <= k
    ensures CountAbove(s, m) <= |s| - 1 - k
  {
    if k == 0 {
      NoneBelow(s, m);
    } else {
      assert IsSorted(s[1..]) && s[1..][k - 1] == m;
      SortedRankCounts(s[1..], k - 1, m);
    }
  }

  lemma {:induction false} NoneBelow(s: seq<real>, m: real)
    requires forall i :: 0 <= i < |s| ==> m <= s[i]
    ensures CountBelow(s, m) == 0
  {
    if s != [] {
      NoneBelow(s[1..], m);
    }
  }

  /** The middle element of the sorted values is a median of the values. */
  lemma MiddleOfSortedIsMedian(xs: seq<real>)
    requires |xs| > 0
    ensures IsMedian(Sort(xs)[|xs| / 2], xs)
  {
    var m := Sort(xs)[|xs| / 2];
    SortPermutes(xs);
    assert m in multiset(Sort(xs));
    SortCounts(xs, m);
    SortedRankCounts(Sort(xs), |xs| / 2, m);
  }
}
