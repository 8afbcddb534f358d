/** Sequences without repetition, and what multisets say about them. */
module Seqs {
  ghost predicate NoDup<T>(s: seq<T>) {
    forall i, j | 0 <= i < j < |s| :: s[i] != s[j]
  }

  /** The distinct values of a sequence. */
  function Elems<T>(s: seq<T>): set<T> {
    set x | x in s
  }

  /** Keep only what passes the test, in order. */
  function Filter<T(!new)>(keep: T -> bool, s: seq<T>): (r: seq<T>)
    ensures |r| <= |s|
    ensures forall x :: x in r <==> x in s && keep(x)
  {
    if s == [] then []
    else
      var rest := Filter(keep, s[1..]);
      assert s == [s[0]] + s[1..];
      if keep(s[0]) then [s[0]] + rest else rest
  }

  function Map<A, B>(f: A -> B, s: seq<A>): (r: seq<B>)
    ensures |r| == |s|
    ensures forall i | 0 <= i < |s| :: r[i] == f(s[i])
  {
    seq(|s|, i requires 0 <= i < |s| => f(s[i]))
  }

  lemma MapConcat<A, B>(f: A -> B, s: seq<A>, t: seq<A>)
    ensures Map(f, s + t) == Map(f, s) + Map(f, t)
  {
  }

  lemma {:induction false} FilterConcat<T(!new)>(keep: T -> bool, s: seq<T>, t: seq<T>)
    ensures Filter(keep, s + t) == Filter(keep, s) + Filter(keep, t)
  {
    if s == [] {
      assert s + t == t;
    } else {
      assert (s + t)[1..] == s[1..] + t;
      FilterConcat(keep, s[1..], t);
    }
  }

  /** A sequence repeats nothing exactly when every multiplicity is at most one. */
  lemma {:induction false} NoDupMultiset<T>(s: seq<T>)
    ensures NoDup(s) <==> forall x :: multiset(s)[x] <= 1
  {
    if s == [] {
    } else {
      NoDupMultiset(s[1..]);
      assert s == [s[0]] + s[1..];
      assert multiset(s) == multiset{s[0]} + multiset(s[1..]);
      if NoDup(s) {
        assert s[0] !in s[1..];
        forall x ensures multiset(s)[x] <= 1 { assert multiset(s[1..])[x] <= 1; }
      }
      if forall x :: multiset(s)[x] <= 1 {
        forall x ensures multiset(s[1..])[x] <= 1 { assert multiset(s)[x] <= 1; }
        assert multiset(s)[s[0]] <= 1;
        assert s[0] !in s[1..];
        forall i, j | 0 <= i < j < |s| ensures s[i] != s[j] {
          assert s[j] == s[1..][j - 1];
          if i > 0 { assert s[i] == s[1..][i - 1]; }
        }
      }
    }
  }

  lemma NoDupPermutation<T>(s: seq<T>, t: seq<T>)
    requires multiset(s) == multiset(t)
    ensures NoDup(s) <==> NoDup(t)
    ensures Elems(s) == Elems(t)
  {
    NoDupMultiset(s);
    NoDupMultiset(t);
    forall x ensures x in s <==> x in t {
      assert x in multiset(s) <==> x in multiset(t);
    }
  }

  lemma SameElements<T>(s: seq<T>, t: seq<T>)
    requires NoDup(s) && NoDup(t) && Elems(s) == Elems(t)
    ensures multiset(s) == multiset(t)
  {
    NoDupMultiset(s);
    NoDupMultiset(t);
    forall x ensures multiset(s)[x] == multiset(t)[x] {
      assert x in multiset(s) <==> x in Elems(s);
      assert x in multiset(t) <==> x in Elems(t);
    }
  }

  lemma NoDupSnoc<T>(s: seq<T>, x: T)
    ensures NoDup(s + [x]) <==> NoDup(s) && x !in s
  {
    var t := s + [x];
    assert t[|s|] == x;
    assert forall i | 0 <= i < |s| :: t[i] == s[i];
    if NoDup(t) {
      assert forall i, j | 0 <= i < j < |s| :: t[i] != t[j];
    }
  }

  lemma NoDupPrefix<T>(s: seq<T>, prefix: seq<T>)
    requires prefix <= s
    ensures NoDup(s) ==> NoDup(prefix)
  {
  }

  /** Without repetition, counting a sequence and counting its values agree; and conversely. */
  lemma {:induction false} NoDupSize<T>(s: seq<T>)
    ensures |Elems(s)| <= |s|
    ensures NoDup(s) <==> |Elems(s)| == |s|
  {
    if s == [] {
    } else {
      NoDupSize(s[1..]);
      assert s == [s[0]] + s[1..];
      assert Elems(s) == {s[0]} + Elems(s[1..]);
      if s[0] in s[1..] {
        var j :| 0 <= j < |s[1..]| && s[1..][j] == s[0];
        assert s[j + 1] == s[0];
        assert Elems(s) == Elems(s[1..]);
      } else if NoDup(s[1..]) {
        forall i, j | 0 <= i < j < |s| ensures s[i] != s[j] {
          assert s[j] == s[1..][j - 1];
          if i > 0 { assert s[i] == s[1..][i - 1]; }
        }
      } else {
        var i, j :| 0 <= i < j < |s[1..]| && s[1..][i] == s[1..][j];
        assert s[i + 1] == s[j + 1];
      }
    }
  }

  lemma NoDupConcat<T>(s: seq<T>, t: seq<T>)
    ensures NoDup(s + t) <==> NoDup(s) && NoDup(t) && Elems(s) !! Elems(t)
  {
    NoDupMultiset(s);
    NoDupMultiset(t);
    NoDupMultiset(s + t);
    assert multiset(s + t) == multiset(s) + multiset(t);
    if NoDup(s + t) {
      forall x ensures multiset(s)[x] <= 1 && multiset(t)[x] <= 1 && !(x in s && x in t) {
        assert multiset(s + t)[x] <= 1;
      }
    }
    if NoDup(s) && NoDup(t) && Elems(s) !! Elems(t) {
      forall x ensures multiset(s + t)[x] <= 1 {
        assert !(x in Elems(s) && x in Elems(t));
      }
    }
  }

  lemma TakeSnoc<T>(s: seq<T>, k: nat)
    requires k < |s|
    ensures multiset(s[..k + 1]) == multiset(s[..k]) + multiset{s[k]}
  {
    assert s[..k + 1] == s[..k] + [s[k]];
  }

  function Without<T>(s: seq<T>, i: nat): seq<T>
    requires i < |s|
  {
    s[..i] + s[i + 1..]
  }

  lemma WithoutOne<T>(s: seq<T>, i: nat)
    requires i < |s|
    ensures multiset(s) == multiset(Without(s, i)) + multiset{s[i]}
    ensures multiset(Without(s, i)) == multiset(s) - multiset{s[i]}
  {
    assert s == s[..i] + [s[i]] + s[i + 1..];
  }

  lemma MapWithout<A, B>(f: A -> B, s: seq<A>, i: nat)
    requires i < |s|
    ensures multiset(Map(f, s)) == multiset(Map(f, Without(s, i))) + multiset{f(s[i])}
  {
    WithoutOne(Map(f, s), i);
    assert Map(f, Without(s, i)) == Without(Map(f, s), i);
  }

  lemma {:induction false} MapPermuted<A, B>(f: A -> B, s: seq<A>, t: seq<A>)
    requires multiset(s) == multiset(t)
    ensures multiset(Map(f, s)) == multiset(Map(f, t))
    decreases |s|
  {
    assert |multiset(s)| == |multiset(t)|;
    if s != [] {
      assert s[0] in multiset(t);
      var i :| 0 <= i < |t| && t[i] == s[0];
      WithoutOne(s, 0);
      WithoutOne(t, i);
      MapWithout(f, s, 0);
      MapWithout(f, t, i);
      hide Map, Without;
      assert |multiset(Without(s, 0))| == |s| - 1;
      MapPermuted(f, Without(s, 0), Without(t, i));
    }
  }

  /** Add values one by one to a set of seen values, refusing the first repetition. */
  method AddDistinct<T(==)>(values: seq<T>, ghost before: seq<T>, seen: set<T>) returns (ok: bool, all: set<T>)
    requires NoDup(before) && seen == Elems(before)
    ensures ok <==> NoDup(before + values)
    ensures ok ==> all == Elems(before + values)
  {
    ok, all := false, seen;
    ghost var done := before;
    for i := 0 to |values|
      invariant done == before + values[..i] && NoDup(done) && all == Elems(done)
    {
      ghost var next := done + [values[i]];
      assert next == before + values[..i + 1];
      NoDupSnoc(done, values[i]);
      NoDupPrefix(before + values, next);
      if values[i] in all {
        return;
      }
      all := all + {values[i]};
      done := next;
    }
    assert values[..|values|] == values;
    ok := true;
  }

  method Distinct<T(==)>(values: seq<T>) returns (ok: bool)
    ensures ok <==> NoDup(values)
  {
    var all;
    ok, all := AddDistinct(values, [], {});
    assert [] + values == values;
  }

  function Range(n: nat): (r: seq<nat>)
    ensures |r| == n && forall i | 0 <= i < n :: r[i] == i
  {
    seq(n, i requires 0 <= i < n => i)
  }

  /** The natural numbers lo .. hi - 1. */
  function Span(lo: nat, hi: nat): (r: set<nat>)
    ensures lo <= hi ==> |r| == hi - lo
    ensures forall x: nat :: x in r <==> lo <= x < hi
    decreases hi - lo
  {
    if hi <= lo then {} else Span(lo, hi - 1) + {hi - 1}
  }
}
