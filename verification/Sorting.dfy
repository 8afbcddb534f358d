/** The stable sort by a key that the repository's `sorted` calls rely on. */
module Sorting {
  ghost predicate Ordered<T>(key: T -> real, s: seq<T>) {
    forall i, j | 0 <= i < j < |s| :: key(s[i]) <= key(s[j])
  }

  /** Put one value before the first that is not smaller. */
  function Insert<T>(key: T -> real, x: T, s: seq<T>): (r: seq<T>)
    ensures |r| == |s| + 1
  {
    if s == [] || key(x) <= key(s[0]) then [x] + s else [s[0]] + Insert(key, x, s[1..])
  }

  function Sort<T>(key: T -> real, s: seq<T>): (r: seq<T>)
    ensures |r| == |s|
  {
    if s == [] then [] else Insert(key, s[0], Sort(key, s[1..]))
  }

  lemma {:induction false} InsertPermutes<T>(key: T -> real, x: T, s: seq<T>)
    ensures multiset(Insert(key, x, s)) == multiset(s) + multiset{x}
  {
    if s != [] && key(x) > key(s[0]) {
      InsertPermutes(key, x, s[1..]);
      assert s == [s[0]] + s[1..];
    }
  }

  lemma {:induction false} InsertOrders<T>(key: T -> real, x: T, s: seq<T>)
    requires Ordered(key, s)
    ensures Ordered(key, Insert(key, x, s))
  {
    if s != [] && key(x) > key(s[0]) {
      InsertOrders(key, x, s[1..]);
      var rest := Insert(key, x, s[1..]);
      InsertPermutes(key, x, s[1..]);
      forall j | 0 <= j < |rest| ensures key(s[0]) <= key(rest[j]) {
        assert rest[j] in multiset(rest);
        if rest[j] != x {
          assert rest[j] in s[1..];
          var i :| 0 <= i < |s[1..]| && s[1..][i] == rest[j];
          assert s[i + 1] == rest[j];
        }
      }
    }
  }

  lemma {:induction false} SortSorts<T>(key: T -> real, s: seq<T>)
    ensures multiset(Sort(key, s)) == multiset(s) && Ordered(key, Sort(key, s))
  {
    if s != [] {
      SortSorts(key, s[1..]);
      InsertPermutes(key, s[0], Sort(key, s[1..]));
      InsertOrders(key, s[0], Sort(key, s[1..]));
      assert s == [s[0]] + s[1..];
    }
  }

  lemma {:induction false} SortKeepsOrdered<T>(key: T -> real, s: seq<T>)
    requires Ordered(key, s)
    ensures Sort(key, s) == s
  {
    if s != [] {
      SortKeepsOrdered(key, s[1..]);
      assert s == [s[0]] + s[1..];
    }
  }

  lemma OrderedHeads<T>(key: T -> real, s: seq<T>, t: seq<T>)
    requires Ordered(key, s) && Ordered(key, t) && multiset(s) == multiset(t) && s != [] && t != []
    ensures key(s[0]) == key(t[0]) && t[0] in s
  {
    assert s[0] in multiset(t) && t[0] in multiset(s);
    var i :| 0 <= i < |t| && t[i] == s[0];
    var j :| 0 <= j < |s| && s[j] == t[0];
    assert key(t[0]) <= key(t[i]) && key(s[0]) <= key(s[j]);
  }

  lemma TailsPermuted<T>(s: seq<T>, t: seq<T>)
    requires multiset(s) == multiset(t) && s != [] && t != [] && s[0] == t[0]
    ensures multiset(s[1..]) == multiset(t[1..])
  {
    assert s == [s[0]] + s[1..] && t == [t[0]] + t[1..];
    assert multiset(s[1..]) == multiset(s) - multiset{s[0]};
    assert multiset(t[1..]) == multiset(t) - multiset{t[0]};
  }

  ghost predicate Told<T>(key: T -> real, s: seq<T>) {
    forall x, y | x in s && y in s && key(x) == key(y) :: x == y
  }

  /** Two ordered arrangements of the same values, told apart by the key, are the same. */
  lemma {:induction false} OrderedIsUnique<T>(key: T -> real, s: seq<T>, t: seq<T>)
    requires Ordered(key, s) && Ordered(key, t) && multiset(s) == multiset(t) && Told(key, s)
    ensures s == t
    decreases |s|
  {
    assert |multiset(s)| == |multiset(t)|;
    if s != [] {
      OrderedHeads(key, s, t);
      assert s[0] == t[0];
      TailsPermuted(s, t);
      assert Ordered(key, s[1..]) && Ordered(key, t[1..]) && Told(key, s[1..]);
      hide Ordered, Told;
      OrderedIsUnique(key, s[1..], t[1..]);
      assert s == [s[0]] + s[1..] && t == [t[0]] + t[1..];
    }
  }
}
