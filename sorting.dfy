/** Ordering helpers for the three places the source sorts records: the
    recommendation ranker (`Array.prototype.sort` by annual fee), the catalog
    listing (`ORDER BY`) and the favorites join (`ORDER BY created_at DESC`).
    A sort is specified by a "comes no later than" relation `le`. */
module Sorting {

  /** `le` is total and transitive, so it can order any sequence. */
  ghost predicate TotalPreorder<T(!new)>(le: (T, T) -> bool) {
    && (forall a, b :: le(a, b) || le(b, a))
    && (forall a, b, c :: le(a, b) && le(b, c) ==> le(a, c))
  }

  /** Every element comes no later than every element after it. */
  predicate SortedBy<T>(s: seq<T>, le: (T, T) -> bool) {
    forall i, j :: 0 <= i < j < |s| ==> le(s[i], s[j])
  }

  /** `x` placed in front of the first element it comes no later than. */
  function Insert<T>(x: T, s: seq<T>, le: (T, T) -> bool): (r: seq<T>)
    ensures multiset(r) == multiset(s) + multiset{x}
    ensures |r| == |s| + 1
  {
    if s == [] then [x]
    else if le(x, s[0]) then [x] + s
    else
      var rest := Insert(x, s[1..], le);
      assert s == [s[0]] + s[1..];
      [s[0]] + rest
  }

  /** Insertion sort: the same elements, rearranged. */
  function SortBy<T>(s: seq<T>, le: (T, T) -> bool): (r: seq<T>)
    ensures multiset(r) == multiset(s)
    ensures |r| == |s|
  {
    if s == [] then []
    else
      var rest := SortBy(s[1..], le);
      assert s == [s[0]] + s[1..];
      Insert(s[0], rest, le)
  }

  lemma {:induction false} InsertSorted<T(!new)>(x: T, s: seq<T>, le: (T, T) -> bool)
    requires TotalPreorder(le)
    requires SortedBy(s, le)
    ensures SortedBy(Insert(x, s, le), le)
  {
    if s != [] && !le(x, s[0]) {
      var rest := Insert(x, s[1..], le);
      assert SortedBy(s[1..], le);
      InsertSorted(x, s[1..], le);
      assert le(s[0], x);
      forall j | 0 <= j < |rest| ensures le(s[0], rest[j]) {
        assert rest[j] in multiset(rest);
        assert rest[j] == x || rest[j] in multiset(s[1..]);
        if rest[j] != x {
          var k :| 0 <= k < |s[1..]| && s[1..][k] == rest[j];
          assert s[k + 1] == rest[j];
        }
      }
      var r := [s[0]] + rest;
      forall i, j | 0 <= i < j < |r| ensures le(r[i], r[j]) {
        if i > 0 {
          assert r[i] == rest[i - 1] && r[j] == rest[j - 1];
        } else {
          assert r[j] == rest[j - 1];
        }
      }
    }
  }

  /** The sort returns a sorted sequence. */
  lemma {:induction false} SortBySorted<T(!new)>(s: seq<T>, le: (T, T) -> bool)
    requires TotalPreorder(le)
    ensures SortedBy(SortBy(s, le), le)
  {
    if s != [] {
      SortBySorted(s[1..], le);
      InsertSorted(s[0], SortBy(s[1..], le), le);
    }
  }

  /** Every element of a sorted sequence's first `n` comes no later than every
      element after them. */
  lemma PrefixBeforeRest<T>(s: seq<T>, le: (T, T) -> bool, n: nat, x: T)
    requires SortedBy(s, le)
    requires n <= |s|
    requires x in s[n..]
    ensures forall y :: y in s[..n] ==> le(y, x)
  {
    var j :| n <= j < |s| && s[j] == x by {
      var t :| 0 <= t < |s[n..]| && s[n..][t] == x;
      assert s[n + t] == x;
    }
    forall y | y in s[..n] ensures le(y, x) {
      var i :| 0 <= i < n && s[..n][i] == y;
      assert s[i] == y;
    }
  }

  /** The elements of `s` that satisfy `keep`, in their original order. */
  function Filter<T(!new)>(s: seq<T>, keep: T -> bool): (r: seq<T>)
    ensures |r| <= |s|
    ensures forall x :: x in r <==> x in s && keep(x)
    ensures forall x :: multiset(r)[x] == if keep(x) then multiset(s)[x] else 0
  {
    if s == [] then []
    else
      var rest := Filter(s[1..], keep);
      assert s == [s[0]] + s[1..];
      if keep(s[0]) then [s[0]] + rest else rest
  }

  /** `s.slice(0, n)`, also `LIMIT n`. */
  function Take<T>(s: seq<T>, n: nat): (r: seq<T>)
    ensures |r| == if n < |s| then n else |s|
    ensures r == s[..|r|]
    ensures multiset(r) <= multiset(s)
  {
    var r := if n < |s| then s[..n] else s;
    assert s == r + s[|r|..];
    r
  }

  /** `OFFSET o LIMIT n`: the elements at positions `o` to `o + n - 1`. */
  function Window<T>(s: seq<T>, o: nat, n: nat): (r: seq<T>)
    ensures o >= |s| ==> r == []
    ensures o < |s| ==> r == Take(s[o..], n)
    ensures |r| == if o >= |s| then 0 else if n < |s| - o then n else |s| - o
    ensures forall k :: 0 <= k < |r| ==> r[k] == s[o + k]
  {
    if o >= |s| then [] else Take(s[o..], n)
  }

  /** A window of a sorted sequence is sorted, and holds only elements of it. */
  lemma WindowOfSorted<T>(s: seq<T>, o: nat, n: nat, le: (T, T) -> bool)
    requires SortedBy(s, le)
    ensures SortedBy(Window(s, o, n), le)
    ensures forall x :: x in Window(s, o, n) ==> x in s
  {
    var w := Window(s, o, n);
    forall x | x in w ensures x in s {
      var k :| 0 <= k < |w| && w[k] == x;
      assert s[o + k] == x;
    }
  }

  /** Proof helper: one step of the filter, the head (if it passes) before
      the filtered tail. */
  lemma FilterCons<T(!new)>(s: seq<T>, keep: T -> bool)
    requires s != []
    ensures Filter(s, keep) == (if keep(s[0]) then [s[0]] else []) + Filter(s[1..], keep)
  {
  }

  /** Proof helper: concatenation regroups; stated on its own so that the
      step of `FilterConcat` that needs it stays small. */
  lemma ConcatAssociative<T>(x: seq<T>, y: seq<T>, z: seq<T>)
    ensures x + (y + z) == (x + y) + z
  {
  }

  /** Filtering distributes over concatenation, so it keeps the order. */
  lemma {:induction false} FilterConcat<T(!new)>(a: seq<T>, b: seq<T>, keep: T -> bool)
    ensures Filter(a + b, keep) == Filter(a, keep) + Filter(b, keep)
  {
    if a == [] {
      assert a + b == b;
    } else {
      var ab := a + b;
      assert ab[0] == a[0] && ab[1..] == a[1..] + b;
      FilterCons(a, keep);
      FilterCons(ab, keep);
      FilterConcat(a[1..], b, keep);
      ConcatAssociative(if keep(a[0]) then [a[0]] else [], Filter(a[1..], keep), Filter(b, keep));
    }
  }

  /** A filter that every element passes changes nothing. */
  lemma {:induction false} FilterKeepsAll<T(!new)>(s: seq<T>, keep: T -> bool)
    requires forall x :: x in s ==> keep(x)
    ensures Filter(s, keep) == s
  {
    if s != [] {
      FilterKeepsAll(s[1..], keep);
    }
  }

  /** Two consecutive windows of width `n` make one window of width `2n`:
      consecutive pages neither overlap nor skip an element. */
  lemma ConsecutiveWindows<T>(s: seq<T>, o: nat, n: nat)
    ensures Window(s, o, n) + Window(s, o + n, n) == Window(s, o, n + n)
  {
    var w := Window(s, o, n + n);
    var joined := Window(s, o, n) + Window(s, o + n, n);
    assert |joined| == |w|;
    forall k | 0 <= k < |w| ensures joined[k] == w[k] {
      if k < |Window(s, o, n)| {
        assert joined[k] == s[o + k];
      } else {
        assert joined[k] == Window(s, o + n, n)[k - n];
      }
    }
  }

  /** An element of a sorted sequence that its first `n` leave out comes after
      all of them, and there are `n` of them. */
  lemma TakeSkipsOnlyLater<T>(s: seq<T>, le: (T, T) -> bool, n: nat, x: T)
    requires SortedBy(s, le)
    requires x in s && x !in Take(s, n)
    ensures |Take(s, n)| == n
    ensures forall y :: y in Take(s, n) ==> le(y, x)
  {
    assert n < |s|;
    assert s == s[..n] + s[n..];
    PrefixBeforeRest(s, le, n, x);
  }

  /** Filtering keeps a sorted sequence sorted. */
  lemma {:induction false} FilterSorted<T(!new)>(s: seq<T>, le: (T, T) -> bool, keep: T -> bool)
    requires SortedBy(s, le)
    ensures SortedBy(Filter(s, keep), le)
  {
    if s != [] {
      var rest := Filter(s[1..], keep);
      assert SortedBy(s[1..], le);
      FilterSorted(s[1..], le, keep);
      if keep(s[0]) {
        var r := [s[0]] + rest;
        forall i, j | 0 <= i < j < |r| ensures le(r[i], r[j]) {
          assert r[j] == rest[j - 1] && r[j] in s[1..];
          if i > 0 {
            assert r[i] == rest[i - 1];
          } else {
            var k :| 0 <= k < |s[1..]| && s[1..][k] == r[j];
            assert s[k + 1] == r[j];
          }
        }
      }
    }
  }

  /** Two tests that agree on every element filter alike. */
  lemma {:induction false} FilterAgreeing<T(!new)>(s: seq<T>, keep: T -> bool, keep2: T -> bool)
    requires forall x :: x in s ==> keep(x) == keep2(x)
    ensures Filter(s, keep) == Filter(s, keep2)
  {
    if s != [] {
      assert s[0] in s;
      assert forall x :: x in s[1..] ==> x in s;
      FilterAgreeing(s[1..], keep, keep2);
    }
  }
}
