/**
 * Pairing two price lists after sorting both is an optimal matching: some bijection keeps every pair
 * within a tolerance exactly when the sorted pairing does.
 */
module Matching {
  import opened Seqs
  import opened Sorting

  function Price(x: real): real { x }

  function Sorted(s: seq<real>): (r: seq<real>)
    ensures |r| == |s|
  {
    Sort(Price, s)
  }

  function Delta(a: real, b: real): real { if a >= b then a - b else b - a }

  ghost predicate Within(s: seq<real>, t: seq<real>, tolerance: real) {
    |s| == |t| && forall i | 0 <= i < |s| :: Delta(s[i], t[i]) <= tolerance
  }

  /** A bijection between positions, as the list of its values. */
  ghost predicate Bijection(pi: seq<nat>, n: nat) {
    |pi| == n && NoDup(pi) && forall i | 0 <= i < n :: pi[i] < n
  }

  function Along(s: seq<real>, pi: seq<nat>): (r: seq<real>)
    ensures |r| == |pi|
    ensures forall i | 0 <= i < |pi| && pi[i] < |s| :: r[i] == s[pi[i]]
  {
    Map((i: nat) => if i < |s| then s[i] else 0.0, pi)
  }

  /** Some bijection pairs every expected price with a native one within the tolerance. */
  ghost predicate Matchable(expected: seq<real>, native: seq<real>, tolerance: real) {
    |expected| == |native|
    && exists pi :: Bijection(pi, |expected|) && Within(expected, Along(native, pi), tolerance)
  }

  // ----- bijections and rearrangements -----

  lemma BijectionCoversAll(pi: seq<nat>, n: nat)
    requires Bijection(pi, n)
    ensures multiset(pi) == multiset(Range(n))
  {
    NoDupSize(pi);
    NoDupSize(Range(n));
    assert Elems(pi) <= Elems(Range(n)) by {
      forall x | x in pi ensures x in Range(n) { assert Range(n)[x] == x; }
    }
    SubsetSameSize(Elems(pi), Elems(Range(n)));
    NoDupMultiset(pi);
    NoDupMultiset(Range(n));
    forall x ensures multiset(pi)[x] == multiset(Range(n))[x] {
      assert x in multiset(pi) <==> x in Elems(pi);
      assert x in multiset(Range(n)) <==> x in Elems(Range(n));
    }
  }

  lemma SubsetSameSize<T>(s: set<T>, t: set<T>)
    requires s <= t && |s| == |t|
    ensures s == t
  {
    assert t == s + (t - s);
    assert |t| == |s| + |t - s|;
  }

  lemma AlongRearranges(s: seq<real>, pi: seq<nat>)
    requires Bijection(pi, |s|)
    ensures multiset(Along(s, pi)) == multiset(s)
  {
    var f := (i: nat) => if i < |s| then s[i] else 0.0;
    BijectionCoversAll(pi, |s|);
    MapPermuted(f, pi, Range(|s|));
    assert Map(f, Range(|s|)) == s;
    assert Along(s, pi) == Map(f, pi);
  }

  /** Put the position removed at i back: positions at or after it move up by one. */
  function Lift(pi: seq<nat>, i: nat): (r: seq<nat>)
    ensures |r| == |pi| + 1 && r[0] == i
    ensures forall k | 0 < k < |r| :: r[k] == Up(pi[k - 1], i)
  {
    [i] + Map((j: nat) => Up(j, i), pi)
  }

  function Up(j: nat, i: nat): (r: nat)
    ensures r != i && (r == j || r == j + 1)
  {
    if j < i then j else j + 1
  }

  lemma UpDistinct(j: nat, k: nat, i: nat)
    requires j != k
    ensures Up(j, i) != Up(k, i)
  {
  }

  lemma LiftBijection(pi: seq<nat>, n: nat, i: nat)
    requires Bijection(pi, n) && i <= n
    ensures Bijection(Lift(pi, i), n + 1)
  {
    var r := Lift(pi, i);
    hide Lift, Up;
    forall a, b | 0 <= a < b < |r| ensures r[a] != r[b] {
      assert r[b] == Up(pi[b - 1], i);
      if a > 0 {
        assert r[a] == Up(pi[a - 1], i);
        UpDistinct(pi[a - 1], pi[b - 1], i);
      }
    }
    forall a | 0 <= a < |r| ensures r[a] < n + 1 {
      if a > 0 { assert r[a] == Up(pi[a - 1], i) && pi[a - 1] < n; }
    }
  }

  lemma LiftFollows(s: seq<real>, t: seq<real>, i: nat, rest: seq<nat>)
    requires s != [] && i < |t| && t[i] == s[0] && |s| == |t|
    requires Bijection(rest, |t| - 1) && Along(Without(t, i), rest) == Without(s, 0)
    ensures Along(t, Lift(rest, i)) == s
  {
    var pi := Lift(rest, i);
    LiftBijection(rest, |t| - 1, i);
    hide Lift, Up, Along, NoDup;
    forall k | 0 <= k < |s| ensures Along(t, pi)[k] == s[k] {
      if k > 0 {
        assert pi[k] == Up(rest[k - 1], i) && rest[k - 1] < |t| - 1;
        WithoutAt(t, i, rest[k - 1]);
        WithoutAt(s, 0, k - 1);
        assert Along(Without(t, i), rest)[k - 1] == Without(t, i)[rest[k - 1]];
      }
    }
  }

  lemma WithoutAt(s: seq<real>, i: nat, j: nat)
    requires i < |s| && j < |s| - 1
    ensures Up(j, i) < |s| && |Without(s, i)| == |s| - 1 && Without(s, i)[j] == s[Up(j, i)]
  {
  }

  /** Every rearrangement is along some bijection. */
  lemma {:induction false} RearrangedAlong(s: seq<real>, t: seq<real>) returns (pi: seq<nat>)
    requires multiset(s) == multiset(t)
    ensures Bijection(pi, |t|) && Along(t, pi) == s
    decreases |s|
  {
    assert |multiset(s)| == |multiset(t)|;
    if s == [] {
      return [];
    }
    assert s[0] in multiset(t);
    var i :| 0 <= i < |t| && t[i] == s[0];
    WithoutOne(s, 0);
    WithoutOne(t, i);
    var rest := RearrangedAlong(Without(s, 0), Without(t, i));
    pi := Lift(rest, i);
    hide Lift, Along, Without;
    LiftBijection(rest, |t| - 1, i);
    LiftFollows(s, t, i, rest);
  }

  // ----- the exchange argument -----

  lemma {:induction false} InsertSmallest(x: real, s: seq<real>)
    requires Ordered(Price, s) && (s != [] ==> x <= s[0])
    ensures Insert(Price, x, s) == [x] + s
  {
  }

  lemma WithinCons(x: real, y: real, a: seq<real>, b: seq<real>, tolerance: real)
    requires Delta(x, y) <= tolerance && Within(a, b, tolerance)
    ensures Within([x] + a, [y] + b, tolerance)
  {
  }

  lemma HeadAndTail(a: seq<real>, b: seq<real>, tolerance: real)
    requires a != [] && Ordered(Price, a) && Ordered(Price, b) && Within(a, b, tolerance)
    ensures b != [] && Delta(a[0], b[0]) <= tolerance && a == [a[0]] + a[1..] && b == [b[0]] + b[1..]
    ensures Ordered(Price, a[1..]) && Ordered(Price, b[1..]) && Within(a[1..], b[1..], tolerance)
    ensures a[1..] != [] ==> a[0] <= a[1..][0]
    ensures b[1..] != [] ==> b[0] <= b[1..][0]
  {
    assert |a| > 1 ==> Price(a[0]) <= Price(a[1]);
    assert |b| > 1 ==> Price(b[0]) <= Price(b[1]);
  }

  /** Inserting two close prices into two close ordered lists leaves them close: where the two land at
      different places, every pair in between is exchanged without getting worse. */
  lemma {:induction false} InsertWithin(a: seq<real>, b: seq<real>, x: real, y: real, tolerance: real)
    requires Ordered(Price, a) && Ordered(Price, b) && Within(a, b, tolerance) && Delta(x, y) <= tolerance
    ensures Within(Insert(Price, x, a), Insert(Price, y, b), tolerance)
    decreases |a|
  {
    if a == [] {
      WithinCons(x, y, a, b, tolerance);
    } else {
      HeadAndTail(a, b, tolerance);
      var a', b' := a[1..], b[1..];
      hide Within, Ordered;
      if x > a[0] && y > b[0] {
        InsertWithin(a', b', x, y, tolerance);
        WithinCons(a[0], b[0], Insert(Price, x, a'), Insert(Price, y, b'), tolerance);
      } else if x <= a[0] && y > b[0] {
        InsertSmallest(a[0], a');
        InsertWithin(a', b', a[0], y, tolerance);
        WithinCons(x, b[0], a, Insert(Price, y, b'), tolerance);
      } else if x > a[0] && y <= b[0] {
        InsertSmallest(b[0], b');
        InsertWithin(a', b', x, b[0], tolerance);
        WithinCons(a[0], y, Insert(Price, x, a'), b, tolerance);
      } else {
        WithinCons(x, y, a, b, tolerance);
      }
    }
  }

  lemma {:induction false} SortedWithin(s: seq<real>, t: seq<real>, tolerance: real)
    requires Within(s, t, tolerance)
    ensures Within(Sorted(s), Sorted(t), tolerance)
  {
    if s != [] {
      assert Delta(s[0], t[0]) <= tolerance;
      assert Within(s[1..], t[1..], tolerance);
      SortedWithin(s[1..], t[1..], tolerance);
      SortSorts(Price, s[1..]);
      SortSorts(Price, t[1..]);
      InsertWithin(Sorted(s[1..]), Sorted(t[1..]), s[0], t[0], tolerance);
    }
  }

  lemma FirstIsLeast(s: seq<real>, x: real)
    requires Ordered(Price, s) && x in s
    ensures s[0] <= x
  {
    var i :| 0 <= i < |s| && s[i] == x;
    if i > 0 { assert Price(s[0]) <= Price(s[i]); }
  }

  lemma OrderedTail(s: seq<real>)
    requires Ordered(Price, s) && s != []
    ensures Ordered(Price, s[1..]) && multiset(s[1..]) == multiset(s) - multiset{s[0]}
  {
    assert s == [s[0]] + s[1..];
  }

  lemma SameFirst(s: seq<real>, t: seq<real>)
    requires Ordered(Price, s) && Ordered(Price, t) && multiset(s) == multiset(t) && s != [] && t != []
    ensures s[0] == t[0]
  {
    assert s[0] in multiset(t) && t[0] in multiset(s);
    FirstIsLeast(s, t[0]);
    FirstIsLeast(t, s[0]);
  }

  /** A list has only one ordered rearrangement. */
  lemma {:induction false} OrderedUnique(s: seq<real>, t: seq<real>)
    requires Ordered(Price, s) && Ordered(Price, t) && multiset(s) == multiset(t)
    ensures s == t
  {
    assert |multiset(s)| == |multiset(t)|;
    hide Ordered;
    if s != [] {
      SameFirst(s, t);
      OrderedTail(s);
      OrderedTail(t);
      OrderedUnique(s[1..], t[1..]);
      SameHeadTail(s, t);
    }
  }

  lemma SameHeadTail(s: seq<real>, t: seq<real>)
    requires s != [] && t != [] && s[0] == t[0] && s[1..] == t[1..]
    ensures s == t
  {
    assert s == [s[0]] + s[1..] && t == [t[0]] + t[1..];
  }

  lemma SortedOfRearranged(s: seq<real>, t: seq<real>)
    requires multiset(s) == multiset(t)
    ensures Sorted(s) == Sorted(t)
  {
    SortSorts(Price, s);
    SortSorts(Price, t);
    OrderedUnique(Sorted(s), Sorted(t));
  }

  lemma WithinRearranged(s: seq<real>, t: seq<real>, pi: seq<nat>, tolerance: real)
    requires Bijection(pi, |s|) && |s| == |t| && Within(s, t, tolerance)
    ensures Within(Along(s, pi), Along(t, pi), tolerance)
  {
    forall i | 0 <= i < |pi| ensures Delta(Along(s, pi)[i], Along(t, pi)[i]) <= tolerance {
      assert pi[i] < |s|;
    }
  }

  /** Optimal matching: a bijection within the tolerance exists exactly when the sorted lists pair
      within it. */
  lemma SortedPairingIsOptimal(expected: seq<real>, native: seq<real>, tolerance: real)
    ensures Matchable(expected, native, tolerance) <==> Within(Sorted(expected), Sorted(native), tolerance)
  {
    if Matchable(expected, native, tolerance) {
      var pi :| Bijection(pi, |expected|) && Within(expected, Along(native, pi), tolerance);
      AlongRearranges(native, pi);
      SortedWithin(expected, Along(native, pi), tolerance);
      SortedOfRearranged(Along(native, pi), native);
    }
    if Within(Sorted(expected), Sorted(native), tolerance) {
      SortSorts(Price, expected);
      SortSorts(Price, native);
      var p := RearrangedAlong(expected, Sorted(expected));
      var paired := Along(Sorted(native), p);
      WithinRearranged(Sorted(expected), Sorted(native), p, tolerance);
      AlongRearranges(Sorted(native), p);
      var q := RearrangedAlong(paired, native);
      assert Within(expected, Along(native, q), tolerance);
    }
  }
}
