/** The detector of weekly conflicts: complete weeks whose stored bar differs from the aggregate of
    their stored days. A finished realignment silences it. */
module Detector {
  import opened Wrappers
  import opened Seqs
  import opened Sorting
  import opened Bars
  import opened Overlay
  import opened Realign
  import opened RealignTheorems

  /** An expected endpoint: when a bar ends and which trading day it belongs to. */
  datatype Point = Point(end: int, day: Date)

  /** A conflict week with the stored bar and what its days say. */
  datatype Conflict = Conflict(point: Point, stored: Bar, aggregate: Bar)

  /** What a contract has stored, as the detector reads it. */
  datatype Stored = Stored(daily: seq<Bar>, gaps: seq<Date>, weekly: map<int, Bar>)

  function PointsOf(bars: seq<Bar>): seq<Point> {
    Map((b: Bar) => Point(b.end, b.day), bars)
  }

  function BarsOf(weekOf: Date -> int, bars: seq<Bar>, week: int): seq<Bar> {
    Filter((b: Bar) => weekOf(b.day) == week, bars)
  }

  /** A week is compared only if its bar is stored and its days are stored completely, without gaps. */
  predicate Complete(weekOf: Date -> int, p: Point, expected: seq<Point>, s: Stored) {
    var week := weekOf(p.day);
    && p.end in s.weekly
    && Filter((d: Date) => weekOf(d) == week, s.gaps) == []
    && PointsOf(BarsOf(weekOf, s.daily, week)) == Filter((q: Point) => weekOf(q.day) == week, expected)
  }

  /** What the detector finds about one week: nothing, a conflict, or days that cannot be aggregated. */
  function Examine(weekOf: Date -> int, p: Point, expected: seq<Point>, s: Stored): Result<Option<Conflict>, string> {
    if !Complete(weekOf, p, expected, s) then Ok(None)
    else
      var aggregate := Aggregate(BarsOf(weekOf, s.daily, weekOf(p.day)), p.end);
      if aggregate.Err? then Err(aggregate.error)
      else if s.weekly[p.end] == aggregate.value then Ok(None)
      else Ok(Some(Conflict(p, s.weekly[p.end], aggregate.value)))
  }

  function Conflicts(weekOf: Date -> int, weekly: seq<Point>, expected: seq<Point>, s: Stored): Result<seq<Conflict>, string> {
    if weekly == [] then Ok([])
    else
      var before := Conflicts(weekOf, weekly[..|weekly| - 1], expected, s);
      if before.Err? then before
      else
        var last := Examine(weekOf, weekly[|weekly| - 1], expected, s);
        if last.Err? then Err(last.error)
        else Ok(before.value + if last.value.Some? then [last.value.value] else [])
  }

  lemma {:induction false} ConflictsStop(weekOf: Date -> int, weekly: seq<Point>, expected: seq<Point>, s: Stored, i: nat)
    requires i <= |weekly| && Conflicts(weekOf, weekly[..i], expected, s).Err?
    ensures Conflicts(weekOf, weekly, expected, s) == Conflicts(weekOf, weekly[..i], expected, s)
    decreases |weekly|
  {
    if i < |weekly| {
      assert weekly[..|weekly| - 1][..i] == weekly[..i];
      ConflictsStop(weekOf, weekly[..|weekly| - 1], expected, s, i);
    } else {
      assert weekly[..i] == weekly;
    }
  }

  method CollectConflictWeeks(weekOf: Date -> int, weekly: seq<Point>, expected: seq<Point>, s: Stored)
    returns (r: Result<seq<Conflict>, string>)
    ensures r == Conflicts(weekOf, weekly, expected, s)
  {
    hide Complete;
    var weeks: seq<Conflict> := [];
    for i := 0 to |weekly|
      invariant Conflicts(weekOf, weekly[..i], expected, s) == Ok(weeks)
    {
      assert weekly[..i + 1][..i] == weekly[..i];
      assert weeks + [] == weeks;
      if !Complete(weekOf, weekly[i], expected, s) {
        CompleteOrQuiet(weekOf, weekly[i], expected, s);
        continue;
      }
      assert weekly[i].end in s.weekly by { CompleteOrQuiet(weekOf, weekly[i], expected, s); }
      var aggregate := AggregateDailyRows(BarsOf(weekOf, s.daily, weekOf(weekly[i].day)), weekly[i].end);
      if aggregate.Err? {
        ConflictsStop(weekOf, weekly, expected, s, i + 1);
        return Err(aggregate.error);
      }
      var persisted := s.weekly[weekly[i].end];
      if persisted != aggregate.value {
        weeks := weeks + [Conflict(weekly[i], persisted, aggregate.value)];
      }
    }
    assert weekly[..|weekly|] == weekly;
    r := Ok(weeks);
  }

  lemma CompleteOrQuiet(weekOf: Date -> int, p: Point, expected: seq<Point>, s: Stored)
    ensures Complete(weekOf, p, expected, s) ==> p.end in s.weekly
    ensures !Complete(weekOf, p, expected, s) ==> Examine(weekOf, p, expected, s) == Ok(None)
  {
  }

  /** The detector reports exactly the complete weeks whose stored bar is not their aggregate. */
  lemma {:induction false} ReportsExactly(weekOf: Date -> int, weekly: seq<Point>, expected: seq<Point>, s: Stored, w: Conflict)
    requires Conflicts(weekOf, weekly, expected, s).Ok?
    ensures w in Conflicts(weekOf, weekly, expected, s).value
       <==> && w.point in weekly && Complete(weekOf, w.point, expected, s)
            && w.stored == s.weekly[w.point.end] && w.stored != w.aggregate
            && Aggregate(BarsOf(weekOf, s.daily, weekOf(w.point.day)), w.point.end) == Ok(w.aggregate)
  {
    hide Complete, Aggregate, BarsOf;
    if weekly != [] {
      var n := |weekly| - 1;
      ReportsExactly(weekOf, weekly[..n], expected, s, w);
      CompleteOrQuiet(weekOf, weekly[n], expected, s);
      CompleteOrQuiet(weekOf, w.point, expected, s);
      assert weekly == weekly[..n] + [weekly[n]];
      assert Examine(weekOf, weekly[n], expected, s).Ok?;
    }
  }

  // ----- what the detector reads -----

  const DUPLICATE_BAR := "WEEKLY_CONFLICT_DUPLICATE_BAR"

  /** The bars of some partitions, one partition after another. */
  function BarsIn(c: Catalog, keys: seq<Key>): seq<Bar>
    requires forall key | key in keys :: key in c
  {
    if keys == [] then [] else BarsIn(c, keys[..|keys| - 1]) + c[keys[|keys| - 1]].bars
  }

  function Until(cutoff: int, bars: seq<Bar>): seq<Bar> {
    Filter((b: Bar) => b.end <= cutoff, bars)
  }

  function EndsOf(bars: seq<Bar>): seq<int> {
    Map((b: Bar) => b.end, bars)
  }

  /** The partitions of one contract: all of one frequency, each listed once or more. */
  ghost predicate Lists(c: Catalog, contract: string, daily: seq<Key>, weekly: seq<Key>) {
    && (forall key :: key in daily <==> key in c && key.Daily? && key.contract == contract)
    && (forall key :: key in weekly <==> key in c && key.Weekly? && key.contract == contract)
  }

  /** The weekly bars up to the cutoff, by their end; two bars with one end are refused. */
  method StoredByEnd(c: Catalog, weekly: seq<Key>, cutoff: int) returns (r: Result<map<int, Bar>, string>)
    requires forall key | key in weekly :: key in c
    ensures var bars := Until(cutoff, BarsIn(c, weekly));
            if NoDup(EndsOf(bars)) then r.Ok? && ByEnd(r.value, bars) else r == Err(DUPLICATE_BAR)
  {
    hide Until, BarsIn, NoDup, ByEnd;
    var bars := Until(cutoff, BarsIn(c, weekly));
    var byEnd: map<int, Bar> := map[];
    for i := 0 to |bars|
      invariant byEnd.Keys == Elems(EndsOf(bars)[..i])
      invariant forall e | e in byEnd :: byEnd[e] in bars && byEnd[e].end == e
    {
      assert EndsOf(bars)[..i + 1] == EndsOf(bars)[..i] + [bars[i].end];
      byEnd := byEnd[bars[i].end := bars[i]];
    }
    assert EndsOf(bars)[..|bars|] == EndsOf(bars);
    EndsTold(byEnd, bars);
    r := if |byEnd| != |bars| then Err(DUPLICATE_BAR) else Ok(byEnd);
  }

  /** The dictionary of the bars by their end loses none exactly when no two share an end. */
  lemma EndsTold(byEnd: map<int, Bar>, bars: seq<Bar>)
    requires byEnd.Keys == Elems(EndsOf(bars)) && forall e | e in byEnd :: byEnd[e] in bars && byEnd[e].end == e
    ensures |byEnd| == |bars| <==> NoDup(EndsOf(bars))
    ensures NoDup(EndsOf(bars)) ==> ByEnd(byEnd, bars)
  {
    NoDupSize(EndsOf(bars));
    assert |byEnd| == |byEnd.Keys|;
    if NoDup(EndsOf(bars)) {
      forall b | b in bars ensures b.end in byEnd && byEnd[b.end] == b { OneBarEndsAt(byEnd, bars, b); }
    }
  }

  lemma OneBarEndsAt(byEnd: map<int, Bar>, bars: seq<Bar>, b: Bar)
    requires byEnd.Keys == Elems(EndsOf(bars)) && (forall e | e in byEnd :: byEnd[e] in bars && byEnd[e].end == e)
    requires NoDup(EndsOf(bars)) && b in bars
    ensures b.end in byEnd && byEnd[b.end] == b
  {
    var i :| 0 <= i < |bars| && bars[i] == b;
    assert EndsOf(bars)[i] == b.end;
    var j :| 0 <= j < |bars| && bars[j] == byEnd[b.end];
    assert EndsOf(bars)[j] == b.end;
  }

  ghost predicate ByEnd(m: map<int, Bar>, bars: seq<Bar>) {
    && (forall e | e in m :: m[e] in bars && m[e].end == e)
    && (forall b | b in bars :: b.end in m && m[b.end] == b)
  }

  /** What is read out of the catalog about one contract: some of its daily bars, in any order, and all its
      weekly bars up to the cutoff. */
  ghost predicate ReadOut(c: Catalog, contract: string, cutoff: int, s: Stored) {
    exists daily, weekly :: Lists(c, contract, daily, weekly)
      && (forall b | b in s.daily :: b in BarsIn(c, daily)) && ByEnd(s.weekly, Until(cutoff, BarsIn(c, weekly)))
  }

  /** Endpoints come in the order of their trading days. */
  ghost predicate Chronological(expected: seq<Point>) {
    forall i, j | 0 <= i < j < |expected| :: DayRank(expected[i].day) < DayRank(expected[j].day)
  }

  /** The expected endpoints of the week of a trading day. */
  function WeekPoints(weekOf: Date -> int, day: Date, expected: seq<Point>): seq<Point> {
    Filter((q: Point) => weekOf(q.day) == weekOf(day), expected)
  }

  /** A weekly endpoint is the week of a unit: it ends with it, and its expected days are the unit's days. */
  ghost predicate WeekOf(weekOf: Date -> int, p: Point, expected: seq<Point>, u: Unit) {
    u.end == p.end && forall d :: d in u.days <==> exists q :: q in WeekPoints(weekOf, p.day, expected) && q.day == d
  }

  lemma {:induction false} BarsInHas(c: Catalog, keys: seq<Key>, b: Bar)
    requires forall key | key in keys :: key in c
    ensures b in BarsIn(c, keys) <==> exists key :: key in keys && b in c[key].bars
  {
    if keys != [] {
      var n := |keys| - 1;
      BarsInHas(c, keys[..n], b);
      assert keys == keys[..n] + [keys[n]];
    }
  }

  lemma {:induction false} FilterKeepsOrder(keep: Point -> bool, points: seq<Point>)
    requires Chronological(points)
    ensures Chronological(Filter(keep, points))
  {
    if points != [] {
      FilterKeepsOrder(keep, points[1..]);
      forall q | q in Filter(keep, points[1..]) ensures DayRank(points[0].day) < DayRank(q.day) {
        assert q in points[1..];
        var i :| 0 <= i < |points[1..]| && points[1..][i] == q;
        assert points[i + 1] == q;
      }
    }
  }

  predicate HeldIn(c: Catalog, u: Unit, m: PartMeta, b: Bar) {
    DailyKey(u, m) in c && b in c[DailyKey(u, m)].bars
  }

  lemma {:induction false} StoredDaysHave(c: Catalog, u: Unit, metas: seq<PartMeta>, b: Bar)
    requires forall m | m in metas :: DailyKey(u, m) in c
    ensures b in StoredDays(c, u, metas) <==> b.day in u.days && exists m :: m in metas && HeldIn(c, u, m, b)
  {
    if metas != [] {
      var n := |metas| - 1;
      StoredDaysHave(c, u, metas[..n], b);
      assert metas == metas[..n] + [metas[n]];
      assert b in InWeek(c[DailyKey(u, metas[n])].bars, Elems(u.days)) <==> HeldIn(c, u, metas[n], b) && b.day in u.days;
      hide HeldIn, InWeek;
      assert (exists m :: m in metas && HeldIn(c, u, m, b))
        <==> (exists m :: m in metas[..n] && HeldIn(c, u, m, b)) || HeldIn(c, u, metas[n], b);
    }
  }

  /** A catalog in which every daily partition has its own month and one bar per day. */
  ghost predicate DailyOk(c: Catalog, u: Unit) {
    && (forall key | key in c :: Publishable(key, c[key].bars))
    && (forall i, j | 0 <= i < j < |u.daily| :: DailyKey(u, u.daily[i]) != DailyKey(u, u.daily[j]))
    && (forall m | m in u.daily :: DailyKey(u, m) in c && NoDup(DaysOf(c[DailyKey(u, m)].bars)))
  }

  lemma InWeekDistinct(bars: seq<Bar>, days: set<Date>)
    requires Increasing(bars)
    ensures NoDup(InWeek(bars, days)) && forall b | b in InWeek(bars, days) :: b in bars && b.day in days
  {
    FilterDistinct((b: Bar) => b.day in days, bars);
  }

  lemma {:induction false} FilterDistinct(keep: Bar -> bool, bars: seq<Bar>)
    requires NoDup(bars)
    ensures NoDup(Filter(keep, bars))
  {
    if bars != [] {
      FilterDistinct(keep, bars[1..]);
      assert bars[0] !in bars[1..];
      NoDupConcat([bars[0]], Filter(keep, bars[1..]));
    }
  }

  /** Stored days of the first n partitions lie in other months than the next partition. */
  lemma OtherMonths(c: Catalog, u: Unit, n: nat)
    requires DailyOk(c, u) && n < |u.daily|
    ensures forall b | b in StoredDays(c, u, u.daily[..n]) :: !InMonth(DailyKey(u, u.daily[n]), b)
  {
    hide StoredDays, NoDup, DaysOf;
    forall b | b in StoredDays(c, u, u.daily[..n]) ensures !InMonth(DailyKey(u, u.daily[n]), b) {
      StoredDaysHave(c, u, u.daily[..n], b);
      var m :| m in u.daily[..n] && HeldIn(c, u, m, b);
      var i :| 0 <= i < n && u.daily[i] == m;
      assert InMonth(DailyKey(u, m), b) && DailyKey(u, m) != DailyKey(u, u.daily[n]);
    }
  }

  lemma ThisMonth(c: Catalog, u: Unit, m: PartMeta)
    requires DailyOk(c, u) && m in u.daily
    ensures var last := InWeek(c[DailyKey(u, m)].bars, Elems(u.days));
            NoDup(last) && forall b | b in last :: InMonth(DailyKey(u, m), b)
  {
    InWeekDistinct(c[DailyKey(u, m)].bars, Elems(u.days));
    hide InWeek, NoDup, DaysOf;
  }

  lemma StoredDaysSnoc(c: Catalog, u: Unit, n: nat)
    requires n < |u.daily| && forall m | m in u.daily :: DailyKey(u, m) in c
    ensures StoredDays(c, u, u.daily[..n + 1])
         == StoredDays(c, u, u.daily[..n]) + InWeek(c[DailyKey(u, u.daily[n])].bars, Elems(u.days))
  {
    assert u.daily[..n + 1][..n] == u.daily[..n];
  }

  lemma MonthsApart(before: seq<Bar>, last: seq<Bar>, key: Key)
    requires NoDup(before) && NoDup(last)
    requires (forall b | b in before :: !InMonth(key, b)) && forall b | b in last :: InMonth(key, b)
    ensures NoDup(before + last)
  {
    hide NoDup, InMonth;
    forall b | b in before ensures b !in last {
      assert !InMonth(key, b);
    }
    NoDupConcat(before, last);
  }

  lemma DailyKeysIn(c: Catalog, u: Unit)
    requires DailyOk(c, u)
    ensures forall m | m in u.daily :: DailyKey(u, m) in c
  {
  }

  lemma DaysDistinctNext(c: Catalog, u: Unit, n: nat)
    requires DailyOk(c, u) && n < |u.daily| && NoDup(StoredDays(c, u, u.daily[..n]))
    ensures NoDup(StoredDays(c, u, u.daily[..n + 1]))
  {
    hide DailyOk, StoredDays, InWeek, NoDup, InMonth, Elems;
    DailyKeysIn(c, u);
    var m := u.daily[n];
    OtherMonths(c, u, n);
    ThisMonth(c, u, m);
    StoredDaysSnoc(c, u, n);
    MonthsApart(StoredDays(c, u, u.daily[..n]), InWeek(c[DailyKey(u, m)].bars, Elems(u.days)), DailyKey(u, m));
  }

  lemma {:induction false} StoredDaysDistinct(c: Catalog, u: Unit, n: nat)
    requires DailyOk(c, u) && n <= |u.daily|
    ensures NoDup(StoredDays(c, u, u.daily[..n]))
  {
    hide DailyOk;
    DailyKeysIn(c, u);
    if n == 0 {
      assert u.daily[..0] == [];
    } else {
      hide StoredDays, NoDup;
      StoredDaysDistinct(c, u, n - 1);
      DaysDistinctNext(c, u, n - 1);
    }
  }

  /** Two bars of one contract and day are one bar. */
  lemma SameDaySameBar(c: Catalog, u: Unit, m: PartMeta, key: Key, a: Bar, b: Bar)
    requires DailyOk(c, u) && m in u.daily && key in c && key.Daily? && key.contract == u.contract
    requires a in c[DailyKey(u, m)].bars && b in c[key].bars && a.day == b.day
    ensures a == b && key == DailyKey(u, m)
  {
    assert InMonth(key, b) && InMonth(DailyKey(u, m), a);
    var bars := c[key].bars;
    var i :| 0 <= i < |bars| && bars[i] == a;
    var j :| 0 <= j < |bars| && bars[j] == b;
    assert DaysOf(bars)[i] == DaysOf(bars)[j];
  }

  /** The bars the detector takes for a complete week of a unit are its stored days, in order. */
  lemma WeekIsStored(weekOf: Date -> int, p: Point, expected: seq<Point>, c: Catalog, daily: seq<Key>, s: Stored, u: Unit)
    requires DailyOk(c, u) && Chronological(expected)
    requires forall key | key in daily :: key in c && key.Daily? && key.contract == u.contract
    requires forall b | b in s.daily :: b in BarsIn(c, daily)
    requires Complete(weekOf, p, expected, s) && WeekOf(weekOf, p, expected, u)
    requires Elems(DaysOf(StoredDays(c, u, u.daily))) == Elems(u.days)
    ensures BarsOf(weekOf, s.daily, weekOf(p.day)) == Sort(DayOrder, StoredDays(c, u, u.daily))
  {
    var bars, stored := BarsOf(weekOf, s.daily, weekOf(p.day)), StoredDays(c, u, u.daily);
    var points := WeekPoints(weekOf, p.day, expected);
    assert PointsOf(bars) == points;
    FilterKeepsOrder((q: Point) => weekOf(q.day) == weekOf(p.day), expected);
    RankedBars(bars);
    forall b ensures b in Elems(bars) <==> b in Elems(stored) {
      if b in bars { WeekBarIsStored(weekOf, p, expected, c, daily, s, u, b); }
      if b in stored { StoredBarIsRead(weekOf, p, expected, c, daily, s, u, b); }
    }
    StoredDaysDistinct(c, u, |u.daily|);
    assert u.daily[..|u.daily|] == u.daily;
    hide Complete, WeekOf, DailyOk, BarsOf, StoredDays, WeekPoints;
    SameElements(bars, stored);
    SortSorts(DayOrder, stored);
    OrderedIsUnique(DayOrder, bars, Sort(DayOrder, stored));
  }

  lemma RankedBars(bars: seq<Bar>)
    requires Chronological(PointsOf(bars))
    ensures NoDup(bars) && Ordered(DayOrder, bars) && Told(DayOrder, bars)
  {
    assert forall i | 0 <= i < |bars| :: DayOrder(bars[i]) == DayRank(PointsOf(bars)[i].day);
    forall x, y | x in bars && y in bars && DayOrder(x) == DayOrder(y) ensures x == y {
      var i :| 0 <= i < |bars| && bars[i] == x;
      var j :| 0 <= j < |bars| && bars[j] == y;
      if i < j { } else if j < i { }
    }
  }

  lemma WeekBarIsStored(weekOf: Date -> int, p: Point, expected: seq<Point>, c: Catalog, daily: seq<Key>, s: Stored, u: Unit, b: Bar)
    requires DailyOk(c, u) && Complete(weekOf, p, expected, s) && WeekOf(weekOf, p, expected, u)
    requires forall key | key in daily :: key in c && key.Daily? && key.contract == u.contract
    requires forall b | b in s.daily :: b in BarsIn(c, daily)
    requires Elems(DaysOf(StoredDays(c, u, u.daily))) == Elems(u.days)
    requires b in BarsOf(weekOf, s.daily, weekOf(p.day))
    ensures b in StoredDays(c, u, u.daily)
  {
    var bars, stored := BarsOf(weekOf, s.daily, weekOf(p.day)), StoredDays(c, u, u.daily);
    var i :| 0 <= i < |bars| && bars[i] == b;
    assert PointsOf(bars)[i] == Point(b.end, b.day);
    assert Point(b.end, b.day) in WeekPoints(weekOf, p.day, expected);
    assert b.day in Elems(DaysOf(stored));
    var j :| 0 <= j < |stored| && DaysOf(stored)[j] == b.day;
    var a := stored[j];
    StoredDaysHave(c, u, u.daily, a);
    var m :| m in u.daily && HeldIn(c, u, m, a);
    BarsInHas(c, daily, b);
    var key :| key in daily && b in c[key].bars;
    SameDaySameBar(c, u, m, key, a, b);
  }

  lemma StoredBarIsRead(weekOf: Date -> int, p: Point, expected: seq<Point>, c: Catalog, daily: seq<Key>, s: Stored, u: Unit, b: Bar)
    requires DailyOk(c, u) && Complete(weekOf, p, expected, s) && WeekOf(weekOf, p, expected, u)
    requires forall key | key in daily :: key in c && key.Daily? && key.contract == u.contract
    requires forall b | b in s.daily :: b in BarsIn(c, daily)
    requires b in StoredDays(c, u, u.daily)
    ensures b in BarsOf(weekOf, s.daily, weekOf(p.day))
  {
    var bars := BarsOf(weekOf, s.daily, weekOf(p.day));
    StoredDaysHave(c, u, u.daily, b);
    var m :| m in u.daily && HeldIn(c, u, m, b);
    var q :| q in WeekPoints(weekOf, p.day, expected) && q.day == b.day;
    assert q in PointsOf(bars);
    var i :| 0 <= i < |bars| && PointsOf(bars)[i] == q;
    var a := bars[i];
    assert a in s.daily;
    BarsInHas(c, daily, a);
    var key :| key in daily && a in c[key].bars;
    SameDaySameBar(c, u, m, key, b, a);
  }

  /** The weekly bar the detector takes for an endpoint of a unit is the unit's own. */
  lemma WeeklyIsStored(c: Catalog, weekly: seq<Key>, cutoff: int, s: Stored, u: Unit)
    requires forall key | key in weekly :: key in c
    requires WeeklyKey(u) in weekly && EndingAt(c[WeeklyKey(u)].bars, u.end).Some?
    requires ByEnd(s.weekly, Until(cutoff, BarsIn(c, weekly))) && u.end in s.weekly
    ensures EndingAt(c[WeeklyKey(u)].bars, u.end) == Some(s.weekly[u.end])
  {
    var b := EndingAt(c[WeeklyKey(u)].bars, u.end).value;
    EndingAtFinds(c[WeeklyKey(u)].bars, u.end);
    BarsInHas(c, weekly, b);
    assert s.weekly[u.end] in Until(cutoff, BarsIn(c, weekly));
    assert b in Until(cutoff, BarsIn(c, weekly));
  }

  lemma FinishedIsOk(c0: Catalog, units: seq<Unit>, u: Unit)
    requires Packet(c0, units) && NoSharedWrites(units) && u in units
    ensures DailyOk(ApplyRun(c0, units, None).catalog, u)
  {
    var c := ApplyRun(c0, units, None).catalog;
    RunChangesOnlyTurnovers(c0, units, None);
    assert Prepared(c0, u);
    hide ApplyRun, PreparedWeekly, NoSharedWrites, DisjointWeeks, OnlyTurnoverDiffers, Publishable;
    forall key | key in c ensures Publishable(key, c[key].bars) && DaysOf(c[key].bars) == DaysOf(c0[key].bars) {
      FrameKeepsPublishable(key, c0[key].bars, c[key].bars);
    }
    forall m | m in u.daily ensures DailyKey(u, m) in c && NoDup(DaysOf(c[DailyKey(u, m)].bars)) {
      assert PreparedDaily(c0[DailyKey(u, m)], u, m);
    }
  }

  lemma ReadFrom(c: Catalog, contract: string, cutoff: int, s: Stored) returns (daily: seq<Key>, weekly: seq<Key>)
    requires ReadOut(c, contract, cutoff, s)
    ensures Lists(c, contract, daily, weekly)
    ensures (forall b | b in s.daily :: b in BarsIn(c, daily)) && ByEnd(s.weekly, Until(cutoff, BarsIn(c, weekly)))
  {
    hide BarsIn, ByEnd, Until;
    daily, weekly :| Lists(c, contract, daily, weekly)
      && (forall b | b in s.daily :: b in BarsIn(c, daily)) && ByEnd(s.weekly, Until(cutoff, BarsIn(c, weekly)));
  }

  /** A week whose stored bar is the aggregate of its stored days is not reported, wherever it is read. */
  lemma AgreedWeekIsQuiet(weekOf: Date -> int, c: Catalog, u: Unit, p: Point, expected: seq<Point>, cutoff: int, s: Stored)
    requires DailyOk(c, u) && Chronological(expected) && ReadOut(c, u.contract, cutoff, s) && WeekOf(weekOf, p, expected, u)
    requires WeeklyKey(u) in c && EndingAt(c[WeeklyKey(u)].bars, u.end).Some?
    requires Elems(DaysOf(StoredDays(c, u, u.daily))) == Elems(u.days)
    requires Aggregate(Sort(DayOrder, StoredDays(c, u, u.daily)), u.end) == Ok(EndingAt(c[WeeklyKey(u)].bars, u.end).value)
    ensures Examine(weekOf, p, expected, s) == Ok(None)
  {
    hide ReadOut, Aggregate, EndingAt, Sort, StoredDays, BarsIn, ByEnd, Until, DailyOk, Chronological, Complete, BarsOf;
    var daily, weekly := ReadFrom(c, u.contract, cutoff, s);
    CompleteOrQuiet(weekOf, p, expected, s);
    if Complete(weekOf, p, expected, s) {
      WeekIsStored(weekOf, p, expected, c, daily, s, u);
      WeeklyIsStored(c, weekly, cutoff, s, u);
    }
  }

  /** After a finished realignment the detector finds nothing about any week of the packet, whatever else
      the scan covers. */
  lemma PacketWeekIsQuiet(weekOf: Date -> int, c0: Catalog, units: seq<Unit>, u: Unit, p: Point, expected: seq<Point>,
                          cutoff: int, s: Stored)
    requires Packet(c0, units) && NoSharedWrites(units) && u in units && Chronological(expected)
    requires ReadOut(ApplyRun(c0, units, None).catalog, u.contract, cutoff, s)
    requires WeekOf(weekOf, p, expected, u)
    ensures Examine(weekOf, p, expected, s) == Ok(None)
  {
    hide Packet, NoSharedWrites, ApplyRun, DailyOk, Aggregate, EndingAt, Sort, StoredDays, ReadOut, Chronological, WeekOf,
         Examine, DaysOf, Elems;
    FinishedIsOk(c0, units, u);
    WeeksAgreeAfterwards(c0, units, u);
    DaysAfterwards(c0, units, u);
    AgreedWeekIsQuiet(weekOf, ApplyRun(c0, units, None).catalog, u, p, expected, cutoff, s);
  }

  lemma DaysAfterwards(c0: Catalog, units: seq<Unit>, u: Unit)
    requires Packet(c0, units) && NoSharedWrites(units) && u in units
    ensures var c := ApplyRun(c0, units, None).catalog;
            (forall m | m in u.daily :: DailyKey(u, m) in c) && Elems(DaysOf(StoredDays(c, u, u.daily))) == Elems(u.days)
  {
    hide ApplyRun, NoSharedWrites, Packet, Finished, Prepared, PreparedWeekly, CatalogOk, StoredDays, PlannedDays, DaysOf, Elems;
    var done := FinishedRun(c0, units);
    PreparedIn(c0, units, u);
    DaysWhenFinished(c0, units, done, ApplyRun(c0, units, None).catalog, u, |u.daily|);
    assert u.daily[..|u.daily|] == u.daily;
  }

  /** The repair silences the detector: whatever a scan of the repaired catalog still reports is not a
      week of the packet. */
  lemma QuietAfterwards(weekOf: Date -> int, c0: Catalog, units: seq<Unit>, contract: string, weekly: seq<Point>,
                        expected: seq<Point>, cutoff: int, s: Stored, w: Conflict)
    requires Packet(c0, units) && NoSharedWrites(units) && Chronological(expected)
    requires ReadOut(ApplyRun(c0, units, None).catalog, contract, cutoff, s)
    requires Conflicts(weekOf, weekly, expected, s).Ok? && w in Conflicts(weekOf, weekly, expected, s).value
    ensures forall u | u in units && u.contract == contract :: !WeekOf(weekOf, w.point, expected, u)
  {
    hide Packet, NoSharedWrites, ApplyRun, Chronological, ReadOut, WeekOf;
    ReportsExactly(weekOf, weekly, expected, s, w);
    forall u | u in units && u.contract == contract && WeekOf(weekOf, w.point, expected, u) ensures false {
      PacketWeekIsQuiet(weekOf, c0, units, u, w.point, expected, cutoff, s);
    }
  }
}
