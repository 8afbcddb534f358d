/**
 * The parity check of dated buy and sell markers: owner, instant and kind must agree exactly, and
 * only prices may differ, within a fixed tolerance.
 */
module Pricing {
  import opened Seqs
  import opened Sorting
  import opened Matching

  const PRICE_TOLERANCE := 0.00000001
  const DETAIL_LIMIT: nat := 50

  datatype Kind = Buy | Sell
  datatype MarkerKey = MarkerKey(owner: string, at: int, kind: Kind)
  datatype Marker = Marker(key: MarkerKey, price: real)

  type Groups = map<MarkerKey, seq<real>>

  /** The prices recorded under one key, in the order they were met. */
  function PricesAt(markers: seq<Marker>, key: MarkerKey): seq<real> {
    if markers == [] then []
    else
      var last := markers[|markers| - 1];
      PricesAt(markers[..|markers| - 1], key) + if last.key == key then [last.price] else []
  }

  function KeysOf(markers: seq<Marker>): seq<MarkerKey> {
    Map((m: Marker) => m.key, markers)
  }

  lemma PricesNext(markers: seq<Marker>, i: nat, key: MarkerKey)
    requires i < |markers|
    ensures PricesAt(markers[..i + 1], key)
         == if markers[i].key == key then PricesAt(markers[..i], key) + [markers[i].price] else PricesAt(markers[..i], key)
  {
    assert markers[..i + 1][..i] == markers[..i];
    var before := PricesAt(markers[..i], key);
    assert before + [] == before;
  }

  lemma {:induction false} PricesExist(markers: seq<Marker>, key: MarkerKey)
    ensures PricesAt(markers, key) != [] <==> key in KeysOf(markers)
  {
    if markers != [] {
      var n := |markers| - 1;
      PricesExist(markers[..n], key);
      assert KeysOf(markers) == KeysOf(markers[..n]) + [markers[n].key];
    }
  }

  function Prices(groups: Groups, key: MarkerKey): seq<real> {
    if key in groups then groups[key] else []
  }

  ghost predicate Grouped(groups: Groups, markers: seq<Marker>) {
    groups.Keys == Elems(KeysOf(markers)) && forall key :: Prices(groups, key) == PricesAt(markers, key)
  }

  lemma GroupedNext(groups: Groups, markers: seq<Marker>, i: nat)
    requires i < |markers| && Grouped(groups, markers[..i])
    ensures var key := markers[i].key;
            Grouped(groups[key := Prices(groups, key) + [markers[i].price]], markers[..i + 1])
  {
    var key := markers[i].key;
    var next := groups[key := Prices(groups, key) + [markers[i].price]];
    assert KeysOf(markers[..i + 1]) == KeysOf(markers[..i]) + [key];
    hide PricesAt;
    forall k ensures Prices(next, k) == PricesAt(markers[..i + 1], k) {
      PricesNext(markers, i, k);
    }
  }

  /** Collect prices under their keys. */
  method Group(markers: seq<Marker>) returns (groups: Groups)
    ensures Grouped(groups, markers)
  {
    groups := map[];
    for i := 0 to |markers|
      invariant Grouped(groups, markers[..i])
    {
      GroupedNext(groups, markers, i);
      groups := groups[markers[i].key := Prices(groups, markers[i].key) + [markers[i].price]];
    }
    assert markers[..|markers|] == markers;
  }

  /** The first occurrence of every value. */
  function Distinct<T(==)>(s: seq<T>): seq<T> {
    if s == [] then []
    else
      var before, last := Distinct(s[..|s| - 1]), s[|s| - 1];
      if last in before then before else before + [last]
  }

  lemma {:induction false} DistinctKeeps<T>(s: seq<T>)
    ensures NoDup(Distinct(s)) && forall x :: x in Distinct(s) <==> x in s
  {
    if s != [] {
      DistinctKeeps(s[..|s| - 1]);
      assert s == s[..|s| - 1] + [s[|s| - 1]];
      NoDupSnoc(Distinct(s[..|s| - 1]), s[|s| - 1]);
    }
  }

  function KeyOrder(key: MarkerKey): real {
    (2 * key.at + if key.kind.Buy? then 0 else 1) as real
  }

  /** All keys of one owner on either side, in order of time and kind. */
  function OwnerKeys(expected: seq<Marker>, native: seq<Marker>, owner: string): seq<MarkerKey> {
    Sort(KeyOrder, Distinct(Filter((k: MarkerKey) => k.owner == owner, KeysOf(expected) + KeysOf(native))))
  }

  lemma OwnerKeysAre(expected: seq<Marker>, native: seq<Marker>, owner: string)
    ensures NoDup(OwnerKeys(expected, native, owner))
    ensures forall k :: k in OwnerKeys(expected, native, owner)
                   <==> k.owner == owner && (k in KeysOf(expected) || k in KeysOf(native))
  {
    var all := Filter((k: MarkerKey) => k.owner == owner, KeysOf(expected) + KeysOf(native));
    DistinctKeeps(all);
    SortSorts(KeyOrder, Distinct(all));
    NoDupPermutation(OwnerKeys(expected, native, owner), Distinct(all));
    forall k ensures k in OwnerKeys(expected, native, owner) <==> k in all {
      assert k in Elems(OwnerKeys(expected, native, owner)) <==> k in Elems(Distinct(all));
    }
  }

  datatype Detail =
    | CountDiffers(key: MarkerKey, expected: nat, actual: nat)
    | PriceDiffers(key: MarkerKey, expectedPrice: real, actualPrice: real)

  function PairDetails(key: MarkerKey, s: seq<real>, t: seq<real>): seq<Detail>
    requires |s| == |t|
  {
    if s == [] then []
    else
      var n := |s| - 1;
      PairDetails(key, s[..n], t[..n]) + if Delta(s[n], t[n]) > PRICE_TOLERANCE then [PriceDiffers(key, s[n], t[n])] else []
  }

  function Least(a: nat, b: nat): nat { if a < b then a else b }

  /** The two lists cut to the shorter one. */
  function Zipped(s: seq<real>, t: seq<real>): (r: (seq<real>, seq<real>))
    ensures |r.0| == |r.1| == Least(|s|, |t|)
  {
    (s[..Least(|s|, |t|)], t[..Least(|s|, |t|)])
  }

  /** Every difference under one key. */
  function KeyDetails(key: MarkerKey, expected: seq<real>, native: seq<real>): seq<Detail> {
    var (left, right) := Zipped(Sorted(expected), Sorted(native));
    (if |expected| != |native| then [CountDiffers(key, |expected|, |native|)] else []) + PairDetails(key, left, right)
  }

  function MaxDelta(s: seq<real>, t: seq<real>): real
    requires |s| == |t|
  {
    if s == [] then 0.0
    else
      var before, last := MaxDelta(s[..|s| - 1], t[..|s| - 1]), Delta(s[|s| - 1], t[|s| - 1]);
      if last > before then last else before
  }

  function KeyMax(expected: seq<real>, native: seq<real>): real {
    var (left, right) := Zipped(Sorted(expected), Sorted(native));
    MaxDelta(left, right)
  }

  function AllDetails(expected: seq<Marker>, native: seq<Marker>, keys: seq<MarkerKey>): seq<Detail> {
    if keys == [] then []
    else
      var key := keys[|keys| - 1];
      AllDetails(expected, native, keys[..|keys| - 1]) + KeyDetails(key, PricesAt(expected, key), PricesAt(native, key))
  }

  function AllMax(expected: seq<Marker>, native: seq<Marker>, keys: seq<MarkerKey>): real {
    if keys == [] then 0.0
    else
      var key := keys[|keys| - 1];
      var before, last := AllMax(expected, native, keys[..|keys| - 1]), KeyMax(PricesAt(expected, key), PricesAt(native, key));
      if last > before then last else before
  }

  function Total(markers: seq<Marker>, keys: seq<MarkerKey>): nat {
    if keys == [] then 0 else Total(markers, keys[..|keys| - 1]) + |PricesAt(markers, keys[|keys| - 1])|
  }

  /** The first fifty differences. */
  function Kept(details: seq<Detail>): seq<Detail> {
    details[..Least(|details|, DETAIL_LIMIT)]
  }

  lemma KeptNothing()
    ensures Kept([]) == []
  {
  }

  /** What the report says about one owner under one strategy. */
  datatype Check = Check(
    owner: string, passed: bool, expectedCount: nat, nativeCount: nat, differences: nat, maxDelta: real,
    details: seq<Detail>)

  function CheckOf(expected: seq<Marker>, native: seq<Marker>, owner: string): Check {
    var keys := OwnerKeys(expected, native, owner);
    var details := AllDetails(expected, native, keys);
    Check(owner, details == [], Total(expected, keys), Total(native, keys), |details|, AllMax(expected, native, keys),
          Kept(details))
  }

  // ----- the methods -----

  lemma KeptNext(details: seq<Detail>, d: Detail)
    ensures Kept(details + [d]) == Kept(details) + if |Kept(details)| < DETAIL_LIMIT then [d] else []
  {
  }

  method ComparePairs(key: MarkerKey, left: seq<real>, right: seq<real>, ghost before: seq<Detail>,
                      count: nat, kept: seq<Detail>, running: real)
    returns (count': nat, kept': seq<Detail>, running': real)
    requires |left| == |right| && count == |before| && kept == Kept(before)
    ensures count' == |before + PairDetails(key, left, right)| && kept' == Kept(before + PairDetails(key, left, right))
    ensures running' == if MaxDelta(left, right) > running then MaxDelta(left, right) else running
    requires running >= 0.0
  {
    hide Kept;
    count', kept', running' := count, kept, running;
    ghost var all := before;
    for i := 0 to |left|
      invariant all == before + PairDetails(key, left[..i], right[..i])
      invariant count' == |all| && kept' == Kept(all)
      invariant running' == if MaxDelta(left[..i], right[..i]) > running then MaxDelta(left[..i], right[..i]) else running
    {
      assert left[..i + 1][..i] == left[..i] && right[..i + 1][..i] == right[..i];
      var delta := Delta(left[i], right[i]);
      running' := if delta > running' then delta else running';
      if delta > PRICE_TOLERANCE {
        var d := PriceDiffers(key, left[i], right[i]);
        KeptNext(all, d);
        count' := count' + 1;
        kept' := kept' + if |kept'| < DETAIL_LIMIT then [d] else [];
        all := all + [d];
      }
    }
    assert left[..|left|] == left && right[..|left|] == right;
  }

  /** Compare what two sides have under one key. */
  method CompareKey(key: MarkerKey, expected: seq<real>, native: seq<real>, ghost before: seq<Detail>,
                    count: nat, kept: seq<Detail>, running: real)
    returns (count': nat, kept': seq<Detail>, running': real)
    requires count == |before| && kept == Kept(before) && running >= 0.0
    ensures var all := before + KeyDetails(key, expected, native); count' == |all| && kept' == Kept(all)
    ensures running' == if KeyMax(expected, native) > running then KeyMax(expected, native) else running
  {
    hide Kept, PairDetails, MaxDelta, Sorted;
    var sortedExpected, sortedNative := Sorted(expected), Sorted(native);
    var n := Least(|expected|, |native|);
    count', kept' := count, kept;
    ghost var all := before;
    if |expected| != |native| {
      var d := CountDiffers(key, |expected|, |native|);
      KeptNext(all, d);
      count' := count' + 1;
      kept' := kept' + if |kept'| < DETAIL_LIMIT then [d] else [];
      all := all + [d];
    }
    count', kept', running' := ComparePairs(key, sortedExpected[..n], sortedNative[..n], all, count', kept', running);
    assert all + PairDetails(key, sortedExpected[..n], sortedNative[..n]) == before + KeyDetails(key, expected, native);
  }

  method CompareOwner(expected: seq<Marker>, native: seq<Marker>, owner: string, left: Groups, right: Groups)
    returns (check: Check)
    requires Grouped(left, expected) && Grouped(right, native)
    ensures check == CheckOf(expected, native, owner)
  {
    hide Grouped, Kept, KeyDetails, KeyMax, OwnerKeys, PricesAt, Prices;
    var keys := OwnerKeys(expected, native, owner);
    var count, kept, running := 0, [], 0.0;
    var expectedCount, nativeCount := 0, 0;
    KeptNothing();
    for i := 0 to |keys|
      invariant var all := AllDetails(expected, native, keys[..i]); count == |all| && kept == Kept(all)
      invariant running == AllMax(expected, native, keys[..i]) && running >= 0.0
      invariant expectedCount == Total(expected, keys[..i]) && nativeCount == Total(native, keys[..i])
    {
      assert keys[..i + 1][..i] == keys[..i];
      PricesOf(left, expected, keys[i]);
      PricesOf(right, native, keys[i]);
      expectedCount := expectedCount + |Prices(left, keys[i])|;
      nativeCount := nativeCount + |Prices(right, keys[i])|;
      count, kept, running := CompareKey(keys[i], Prices(left, keys[i]), Prices(right, keys[i]),
                                         AllDetails(expected, native, keys[..i]), count, kept, running);
    }
    assert keys[..|keys|] == keys;
    check := Check(owner, count == 0, expectedCount, nativeCount, count, running, kept);
  }

  lemma PricesOf(groups: Groups, markers: seq<Marker>, key: MarkerKey)
    requires Grouped(groups, markers)
    ensures Prices(groups, key) == PricesAt(markers, key)
  {
  }

  /** One strategy: its expected markers and its native ones. */
  datatype Strategy = Strategy(expected: seq<Marker>, native: seq<Marker>)

  function OwnerChecks(s: Strategy, owners: seq<string>): seq<Check> {
    if owners == [] then []
    else OwnerChecks(s, owners[..|owners| - 1]) + [CheckOf(s.expected, s.native, owners[|owners| - 1])]
  }

  /** Every strategy against every owner, in the order of the report. */
  function AllChecks(strategies: seq<Strategy>, owners: seq<string>): seq<Check> {
    if strategies == [] then []
    else AllChecks(strategies[..|strategies| - 1], owners) + OwnerChecks(strategies[|strategies| - 1], owners)
  }

  method CompareStrategy(s: Strategy, owners: seq<string>) returns (passed: bool, checks: seq<Check>)
    ensures checks == OwnerChecks(s, owners) && (passed <==> forall c | c in checks :: c.passed)
  {
    hide CheckOf, Grouped;
    var left := Group(s.expected);
    var right := Group(s.native);
    passed, checks := true, [];
    for o := 0 to |owners|
      invariant checks == OwnerChecks(s, owners[..o]) && (passed <==> forall c | c in checks :: c.passed)
    {
      assert owners[..o + 1][..o] == owners[..o];
      var check := CompareOwner(s.expected, s.native, owners[o], left, right);
      checks := checks + [check];
      passed := passed && check.passed;
    }
    assert owners[..|owners|] == owners;
  }

  /** Compare every strategy for every owner. */
  method CompareNativeSignals(strategies: seq<Strategy>, owners: seq<string>) returns (passed: bool, checks: seq<Check>)
    ensures checks == AllChecks(strategies, owners) && (passed <==> forall c | c in checks :: c.passed)
  {
    hide OwnerChecks;
    passed, checks := true, [];
    for s := 0 to |strategies|
      invariant checks == AllChecks(strategies[..s], owners) && (passed <==> forall c | c in checks :: c.passed)
    {
      assert strategies[..s + 1][..s] == strategies[..s];
      var own, all := CompareStrategy(strategies[s], owners);
      checks := checks + all;
      passed := passed && own;
    }
    assert strategies[..|strategies|] == strategies;
  }

  // ----- what a check decides -----

  lemma {:induction false} NoPairDetails(key: MarkerKey, s: seq<real>, t: seq<real>)
    requires |s| == |t|
    ensures PairDetails(key, s, t) == [] <==> Within(s, t, PRICE_TOLERANCE)
  {
    if s != [] {
      var n := |s| - 1;
      NoPairDetails(key, s[..n], t[..n]);
      if Within(s[..n], t[..n], PRICE_TOLERANCE) && Delta(s[n], t[n]) <= PRICE_TOLERANCE {
        forall i | 0 <= i < |s| ensures Delta(s[i], t[i]) <= PRICE_TOLERANCE {
          if i < n { assert Delta(s[..n][i], t[..n][i]) <= PRICE_TOLERANCE; }
        }
      }
    }
  }

  lemma KeyDecides(key: MarkerKey, expected: seq<real>, native: seq<real>)
    ensures KeyDetails(key, expected, native) == [] <==> Matchable(expected, native, PRICE_TOLERANCE)
  {
    SortedPairingIsOptimal(expected, native, PRICE_TOLERANCE);
    hide Matchable;
    if |expected| == |native| {
      assert Sorted(expected)[..|expected|] == Sorted(expected) && Sorted(native)[..|native|] == Sorted(native);
      NoPairDetails(key, Sorted(expected), Sorted(native));
    }
  }

  lemma SnocMembers<T>(s: seq<T>)
    requires s != []
    ensures forall x :: x in s <==> x in s[..|s| - 1] || x == s[|s| - 1]
  {
    assert s == s[..|s| - 1] + [s[|s| - 1]];
  }

  lemma {:induction false} NoDetails(expected: seq<Marker>, native: seq<Marker>, keys: seq<MarkerKey>)
    ensures AllDetails(expected, native, keys) == []
       <==> forall k | k in keys :: KeyDetails(k, PricesAt(expected, k), PricesAt(native, k)) == []
  {
    hide KeyDetails;
    if keys != [] {
      var n := |keys| - 1;
      NoDetails(expected, native, keys[..n]);
      assert forall k :: k in keys <==> k in keys[..n] || k == keys[n] by { SnocMembers(keys); }
      assert |AllDetails(expected, native, keys)|
          == |AllDetails(expected, native, keys[..n])| + |KeyDetails(keys[n], PricesAt(expected, keys[n]), PricesAt(native, keys[n]))|;
    }
  }

  /** A check passes exactly when, for every instant and kind of its owner, some bijection between the
      expected and the native prices keeps every pair within the tolerance. */
  lemma PassesExactly(expected: seq<Marker>, native: seq<Marker>, owner: string)
    ensures CheckOf(expected, native, owner).passed
       <==> forall k: MarkerKey | k.owner == owner :: Matchable(PricesAt(expected, k), PricesAt(native, k), PRICE_TOLERANCE)
  {
    var keys := OwnerKeys(expected, native, owner);
    NoDetails(expected, native, keys);
    OwnerKeysAre(expected, native, owner);
    hide OwnerKeys, AllDetails, KeyDetails, Matchable, AllMax, Total, Kept;
    forall k: MarkerKey | k.owner == owner
      ensures Matchable(PricesAt(expected, k), PricesAt(native, k), PRICE_TOLERANCE)
         <==> k in keys ==> KeyDetails(k, PricesAt(expected, k), PricesAt(native, k)) == []
    {
      KeyDecides(k, PricesAt(expected, k), PricesAt(native, k));
      PricesExist(expected, k);
      PricesExist(native, k);
      if k !in keys { NothingToMatch(); }
    }
  }

  lemma NothingToMatch()
    ensures Matchable([], [], PRICE_TOLERANCE)
  {
    assert Bijection([], 0) && Within([], Along([], []), PRICE_TOLERANCE);
  }

  lemma {:induction false} MaxDeltaBounds(s: seq<real>, t: seq<real>, d: real)
    requires |s| == |t| && d >= 0.0
    ensures MaxDelta(s, t) <= d <==> Within(s, t, d)
  {
    if s != [] {
      var n := |s| - 1;
      MaxDeltaBounds(s[..n], t[..n], d);
      if Within(s[..n], t[..n], d) && Delta(s[n], t[n]) <= d {
        forall i | 0 <= i < |s| ensures Delta(s[i], t[i]) <= d {
          if i < n { assert Delta(s[..n][i], t[..n][i]) <= d; }
        }
      }
    }
  }

  lemma KeyMaxBounds(expected: seq<real>, native: seq<real>, d: real)
    requires |expected| == |native| && d >= 0.0
    ensures KeyMax(expected, native) <= d <==> Matchable(expected, native, d)
  {
    SortedPairingIsOptimal(expected, native, d);
    assert Sorted(expected)[..|expected|] == Sorted(expected) && Sorted(native)[..|native|] == Sorted(native);
    MaxDeltaBounds(Sorted(expected), Sorted(native), d);
  }

  lemma {:induction false} AllMaxBounds(expected: seq<Marker>, native: seq<Marker>, keys: seq<MarkerKey>, d: real)
    requires d >= 0.0
    ensures AllMax(expected, native, keys) <= d
       <==> forall k | k in keys :: KeyMax(PricesAt(expected, k), PricesAt(native, k)) <= d
  {
    hide KeyMax;
    if keys != [] {
      var n := |keys| - 1;
      AllMaxBounds(expected, native, keys[..n], d);
      assert forall k :: k in keys <==> k in keys[..n] || k == keys[n] by { SnocMembers(keys); }
      assert AllMax(expected, native, keys) <= d
        <==> AllMax(expected, native, keys[..n]) <= d && KeyMax(PricesAt(expected, keys[n]), PricesAt(native, keys[n])) <= d;
    }
  }

  /** The reported largest difference is the least any pairing can reach: when the counts agree, it is
      at most d exactly if every key has a bijection that keeps every pair within d. */
  lemma MaxDeltaIsLeast(expected: seq<Marker>, native: seq<Marker>, owner: string, d: real)
    requires d >= 0.0
    requires forall k: MarkerKey | k.owner == owner :: |PricesAt(expected, k)| == |PricesAt(native, k)|
    ensures CheckOf(expected, native, owner).maxDelta <= d
       <==> forall k: MarkerKey | k.owner == owner :: Matchable(PricesAt(expected, k), PricesAt(native, k), d)
  {
    var keys := OwnerKeys(expected, native, owner);
    AllMaxBounds(expected, native, keys, d);
    OwnerKeysAre(expected, native, owner);
    hide OwnerKeys, AllDetails, KeyMax, Matchable, AllMax, Total, Kept;
    forall k: MarkerKey | k.owner == owner
      ensures Matchable(PricesAt(expected, k), PricesAt(native, k), d)
         <==> k in keys ==> KeyMax(PricesAt(expected, k), PricesAt(native, k)) <= d
    {
      KeyMaxBounds(PricesAt(expected, k), PricesAt(native, k), d);
      PricesExist(expected, k);
      PricesExist(native, k);
      if k !in keys { NothingBeyond(d); }
    }
  }

  lemma NothingBeyond(d: real)
    requires d >= 0.0
    ensures Matchable([], [], d)
  {
    assert Bijection([], 0) && Within([], Along([], []), d);
  }

  // ----- no marker escapes -----

  function OwnedCount(markers: seq<Marker>, owner: string): nat {
    if markers == [] then 0
    else OwnedCount(markers[..|markers| - 1], owner) + if markers[|markers| - 1].key.owner == owner then 1 else 0
  }

  lemma {:induction false} TotalNext(markers: seq<Marker>, m: Marker, keys: seq<MarkerKey>)
    requires NoDup(keys)
    ensures Total(markers + [m], keys) == Total(markers, keys) + if m.key in keys then 1 else 0
  {
    if keys != [] {
      var n := |keys| - 1;
      assert keys == keys[..n] + [keys[n]];
      NoDupSnoc(keys[..n], keys[n]);
      TotalNext(markers, m, keys[..n]);
      assert (markers + [m])[..|markers|] == markers;
      PricesNext(markers + [m], |markers|, keys[n]);
      assert (markers + [m])[..|markers| + 1] == markers + [m];
    }
  }

  lemma {:induction false} NothingTotal(keys: seq<MarkerKey>)
    ensures Total([], keys) == 0
  {
    if keys != [] { NothingTotal(keys[..|keys| - 1]); }
  }

  lemma {:induction false} TotalIsOwned(markers: seq<Marker>, keys: seq<MarkerKey>, owner: string)
    requires NoDup(keys) && (forall k | k in keys :: k.owner == owner)
    requires forall m | m in markers && m.key.owner == owner :: m.key in keys
    ensures Total(markers, keys) == OwnedCount(markers, owner)
  {
    if markers == [] {
      NothingTotal(keys);
    } else {
      var n := |markers| - 1;
      assert markers == markers[..n] + [markers[n]];
      TotalIsOwned(markers[..n], keys, owner);
      TotalNext(markers[..n], markers[n], keys);
    }
  }

  /** No marker escapes the comparison: the counts a check reports are all markers of its owner. */
  lemma EveryMarkerIsCounted(expected: seq<Marker>, native: seq<Marker>, owner: string)
    ensures var check := CheckOf(expected, native, owner);
            check.expectedCount == OwnedCount(expected, owner) && check.nativeCount == OwnedCount(native, owner)
  {
    var keys := OwnerKeys(expected, native, owner);
    OwnerKeysAre(expected, native, owner);
    hide OwnerKeys, AllDetails, AllMax, Total, Kept, OwnedCount, Distinct;
    forall m | m in expected && m.key.owner == owner ensures m.key in keys { KeyIsThere(expected, m); }
    forall m | m in native && m.key.owner == owner ensures m.key in keys { KeyIsThere(native, m); }
    TotalIsOwned(expected, keys, owner);
    TotalIsOwned(native, keys, owner);
  }

  lemma KeyIsThere(markers: seq<Marker>, m: Marker)
    requires m in markers
    ensures m.key in KeysOf(markers)
  {
    var i :| 0 <= i < |markers| && markers[i] == m;
    assert KeysOf(markers)[i] == m.key;
  }
}
