/** Packets that meet the two ways a realignment can fail: a prepared weekly text that is not stable, and
    two weeks of one month. */
module RealignExamples {
  import opened Wrappers
  import opened Seqs
  import opened Sorting
  import opened Bars
  import opened Overlay
  import opened Realign
  import opened RealignTheorems

  function BarOf(end: int, day: Date, turnover: int): Bar {
    Bar(end, day, 1, 1, 1, 1, 1, Some(turnover), None)
  }

  function DailyOf(contract: string): Key { Daily(contract, 2024, 1) }
  function WeeklyOfMonth(contract: string): Key { Weekly(contract, 2024, 1) }

  /** One contract with one month of daily and one of weekly bars. */
  function Month(contract: string, daily: seq<Bar>, weekly: seq<Bar>): Catalog {
    map[DailyOf(contract) := Published(daily), WeeklyOfMonth(contract) := Published(weekly)]
  }

  /** A week of one day, whose turnover is corrected to the provider's number 7, written without a fraction. */
  function OneDayWeek(contract: string, end: int, day: Date, daily: seq<Bar>, weekly: seq<Bar>): Unit {
    Unit(contract, end, [day], true,
         [PartMeta(2024, 1, Published(daily).name, Sha(Published(daily)), |daily|, map[day := 7], map[day := 0])],
         WeeklyMeta(2024, 1, Published(weekly).name, Sha(Published(weekly)), |weekly|, 7, 0, true))
  }

  /** Stored bars of a month: one bar a day, in order. */
  ghost predicate MonthOk(key: Key, bars: seq<Bar>) {
    Publishable(key, bars) && NoDup(DaysOf(bars))
  }

  lemma {:induction false} FilterNone(keep: Bar -> bool, bars: seq<Bar>)
    requires forall k | 0 <= k < |bars| :: !keep(bars[k])
    ensures Filter(keep, bars) == []
  {
    if bars != [] { FilterNone(keep, bars[1..]); }
  }

  lemma FilterAround(keep: Bar -> bool, a: seq<Bar>, x: Bar, b: seq<Bar>)
    requires Filter(keep, a) == [] && Filter(keep, b) == [] && keep(x)
    ensures Filter(keep, a + ([x] + b)) == [x]
  {
    var one := [x];
    assert one[1..] == [] && Filter(keep, one) == one;
    hide Filter;
    FilterConcat(keep, a, one + b);
    FilterConcat(keep, one, b);
  }

  lemma FilterOne(keep: Bar -> bool, bars: seq<Bar>, i: nat)
    requires i < |bars| && forall k | 0 <= k < |bars| :: keep(bars[k]) <==> k == i
    ensures Filter(keep, bars) == [bars[i]]
  {
    hide Filter;
    var a, b := bars[..i], bars[i + 1..];
    FilterNone(keep, a);
    FilterNone(keep, b);
    FilterAround(keep, a, bars[i], b);
    assert bars == a + ([bars[i]] + b);
  }

  lemma InWeekOne(bars: seq<Bar>, days: set<Date>, i: nat)
    requires i < |bars| && forall k | 0 <= k < |bars| :: bars[k].day in days <==> k == i
    ensures InWeek(bars, days) == [bars[i]]
  {
    FilterOne((b: Bar) => b.day in days, bars, i);
  }

  /** Correcting the one day of a week leaves that day with the new turnover. */
  lemma CorrectedDay(daily: seq<Bar>, b: Bar)
    requires Increasing(daily) && NoDup(DaysOf(daily)) && b in daily
    ensures InWeek(WithPrepared(daily, map[b.day := 7]), {b.day}) == [b.(turnover := Some(7))]
  {
    var corrected: map<Date, int> := map[b.day := 7];
    PreparedInPlace(daily, corrected);
    var prepared := WithPrepared(daily, corrected);
    var i :| 0 <= i < |daily| && daily[i] == b;
    forall j | 0 <= j < |prepared| ensures prepared[j].day in {b.day} <==> j == i {
      assert DaysOf(daily)[j] == daily[j].day && DaysOf(daily)[i] == b.day;
    }
    hide WithPrepared, Increasing, NoDup;
    InWeekOne(prepared, {b.day}, i);
  }

  lemma OneDayPlanned(contract: string, end: int, day: Date, daily: seq<Bar>, weekly: seq<Bar>)
    requires MonthOk(DailyOf(contract), daily) && BarOf(end, day, 10) in daily
    ensures var c, u := Month(contract, daily, weekly), OneDayWeek(contract, end, day, daily, weekly);
            && DailyKey(u, u.daily[0]) in c
            && PlannedDays(c, u, u.daily) == [BarOf(end, day, 7)] && StateDigits(c, u, u.daily, {}) == 0
  {
    var c, u := Month(contract, daily, weekly), OneDayWeek(contract, end, day, daily, weekly);
    CorrectedDay(daily, BarOf(end, day, 10));
    hide InWeek, WithPrepared;
    assert Elems(u.days) == {day} && u.daily[..0] == [];
    var planned := [BarOf(end, day, 7)];
    assert planned[..0] == [];
    assert PartDays(c, u, u.daily[0]) == planned;
    assert PlannedDays(c, u, []) == [] && [] + planned == planned;
    assert Digits(planned, u.daily[0].digits) == 0;
  }

  lemma OneDayPrepared(contract: string, end: int, day: Date, daily: seq<Bar>, weekly: seq<Bar>)
    requires MonthOk(DailyOf(contract), daily) && MonthOk(WeeklyOfMonth(contract), weekly)
    requires BarOf(end, day, 10) in daily && BarOf(end, day, 9) in weekly
    ensures var c, u := Month(contract, daily, weekly), OneDayWeek(contract, end, day, daily, weekly);
            && Prepared(c, u) && Writes(u, DailyOf(contract))
            && DailyKey(u, u.daily[0]) == DailyOf(contract) && PlannedDays(c, u, u.daily) == [BarOf(end, day, 7)]
  {
    hide PreparedDaily, PreparedWeekly, PartDays, StateDigits, PlannedDays, MonthOk, Published, Sha, BarOf;
    var c, u := Month(contract, daily, weekly), OneDayWeek(contract, end, day, daily, weekly);
    var m := u.daily[0];
    OneDayPlanned(contract, end, day, daily, weekly);
    DayPrepared(contract, end, day, daily, weekly);
    WeekPrepared(contract, end, day, daily, weekly);
    assert u.daily == [m] && m in u.daily && day in m.corrected && forall m' | m' in u.daily :: m' == m;
    assert c[DailyKey(u, m)] == Published(daily);
    assert c[WeeklyKey(u)] == Published(weekly);
  }

  lemma DayPrepared(contract: string, end: int, day: Date, daily: seq<Bar>, weekly: seq<Bar>)
    requires MonthOk(DailyOf(contract), daily) && BarOf(end, day, 10) in daily
    ensures var u := OneDayWeek(contract, end, day, daily, weekly); PreparedDaily(Published(daily), u, u.daily[0])
  {
    OnDistinct(daily, BarOf(end, day, 10));
  }

  lemma WeekPrepared(contract: string, end: int, day: Date, daily: seq<Bar>, weekly: seq<Bar>)
    requires MonthOk(WeeklyOfMonth(contract), weekly) && BarOf(end, day, 9) in weekly
    ensures PreparedWeekly(Published(weekly), OneDayWeek(contract, end, day, daily, weekly), [BarOf(end, day, 7)])
  {
    var planned, b := [BarOf(end, day, 7)], BarOf(end, day, 9);
    assert planned[1..] == [];
    assert Sort(DayOrder, planned) == planned;
    EndingAtFinds(weekly, end);
    var found := EndingAt(weekly, end).value;
    var i :| 0 <= i < |weekly| && weekly[i] == b;
    var j :| 0 <= j < |weekly| && weekly[j] == found;
    if i < j { } else if j < i { }
    AggregateOfOne(BarOf(end, day, 7), end);
    assert DaysOf(planned) == [day];
    hide Aggregate, Sort, Increasing;
  }

  // ----- a text that is not stable -----

  lemma OneDayReread(b: Bar)
    requires b.turnover.Some? && b.turnover.value != 0
    ensures Digits([b], map[]) == STORED_DIGITS
  {
    assert [b][..0] == [];
  }

  lemma OneDayMonths(contract: string, end: int, day: Date)
    requires day.year == 2024 && day.month == 1
    ensures MonthOk(DailyOf(contract), [BarOf(end, day, 10)]) && MonthOk(WeeklyOfMonth(contract), [BarOf(end, day, 9)])
    ensures CatalogOk(Month(contract, [BarOf(end, day, 10)], [BarOf(end, day, 9)]))
  {
  }

  lemma OneDayUnstable(c: Catalog, u: Unit, b: Bar)
    requires (forall m | m in u.daily :: DailyKey(u, m) in c) && PlannedDays(c, u, u.daily) == [b]
    requires b.turnover.Some? && b.turnover.value != 0 && u.weekly.digits == 0
    ensures !Stable(c, u)
  {
    OneDayReread(b);
    hide PlannedDays, Digits;
  }

  lemma OneUnitPacket(c: Catalog, u: Unit)
    requires CatalogOk(c) && Prepared(c, u) && u.planned && !Stable(c, u)
    ensures Packet(c, [u]) && NoSharedWrites([u]) && !AllStable(c, [u])
  {
    hide CatalogOk, Prepared, Stable, Writes;
    assert u in [u];
  }

  /** A packet that is applied once and refused when it runs again: one week of one day, stored with
      turnovers 10 and 9, prepared as 7. */
  lemma UnstableExample(contract: string)
    ensures var day := Date(2024, 1, 5);
            var daily, weekly := [BarOf(5, day, 10)], [BarOf(5, day, 9)];
            var c, u := Month(contract, daily, weekly), OneDayWeek(contract, 5, day, daily, weekly);
            && Packet(c, [u]) && NoSharedWrites([u]) && !AllStable(c, [u])
            && ApplyRun(c, [u], None).outcome.Going?
            && ApplyRun(ApplyRun(c, [u], None).catalog, [u], None).outcome == Refused(W1_TURNOVER_DRIFT)
  {
    hide Packet, ApplyRun, Stable, CatalogOk, AllStable, NoSharedWrites, PlannedDays, Writes, MonthOk, Month;
    var day := Date(2024, 1, 5);
    var daily, weekly := [BarOf(5, day, 10)], [BarOf(5, day, 9)];
    var c, u := Month(contract, daily, weekly), OneDayWeek(contract, 5, day, daily, weekly);
    OneDayMonths(contract, 5, day);
    OneDayPrepared(contract, 5, day, daily, weekly);
    assert forall m | m in u.daily :: DailyKey(u, m) in c;
    hide Prepared;
    OneDayUnstable(c, u, BarOf(5, day, 7));
    OneUnitPacket(c, u);
    AppliesExactly(c, [u]);
    RerunExactly(c, [u]);
  }

  // ----- two weeks of one month -----

  function TwoBars(first: Date, second: Date, turnover: int): seq<Bar> {
    [BarOf(5, first, turnover), BarOf(12, second, turnover)]
  }

  lemma TwoWeekMonths(contract: string, first: Date, second: Date)
    requires first != second && first.year == second.year == 2024 && first.month == second.month == 1
    ensures MonthOk(DailyOf(contract), TwoBars(first, second, 10)) && MonthOk(WeeklyOfMonth(contract), TwoBars(first, second, 9))
    ensures CatalogOk(Month(contract, TwoBars(first, second, 10), TwoBars(first, second, 9)))
    ensures BarOf(5, first, 10) in TwoBars(first, second, 10) && BarOf(12, second, 10) in TwoBars(first, second, 10)
    ensures BarOf(5, first, 9) in TwoBars(first, second, 9) && BarOf(12, second, 9) in TwoBars(first, second, 9)
  {
    assert DaysOf(TwoBars(first, second, 10)) == [first, second] && DaysOf(TwoBars(first, second, 9)) == [first, second];
  }

  lemma TwoUnitPacket(c: Catalog, u: Unit, v: Unit, key: Key)
    requires CatalogOk(c) && Prepared(c, u) && Prepared(c, v) && Writes(u, key) && Writes(v, key)
    requires u.end != v.end && Elems(u.days) !! Elems(v.days)
    ensures Packet(c, [u, v]) && !NoSharedWrites([u, v])
  {
    hide CatalogOk, Prepared, Writes, Elems;
    var units := [u, v];
    assert Writes(units[0], key) && Writes(units[1], key);
  }

  /** A packet that is refused on the very catalog it was prepared from: two weeks of one month. */
  lemma SharedExample(contract: string)
    ensures var first, second := Date(2024, 1, 5), Date(2024, 1, 12);
            var daily, weekly := TwoBars(first, second, 10), TwoBars(first, second, 9);
            var c := Month(contract, daily, weekly);
            var units := [OneDayWeek(contract, 5, first, daily, weekly), OneDayWeek(contract, 12, second, daily, weekly)];
            && Packet(c, units) && !NoSharedWrites(units) && !ApplyRun(c, units, None).outcome.Going?
  {
    hide Packet, Prepared, ApplyRun, CatalogOk, NoSharedWrites, PlannedDays, Writes, MonthOk, Month, TwoBars;
    var first, second := Date(2024, 1, 5), Date(2024, 1, 12);
    var daily, weekly := TwoBars(first, second, 10), TwoBars(first, second, 9);
    var u, v := OneDayWeek(contract, 5, first, daily, weekly), OneDayWeek(contract, 12, second, daily, weekly);
    TwoWeekMonths(contract, first, second);
    OneDayPrepared(contract, 5, first, daily, weekly);
    OneDayPrepared(contract, 12, second, daily, weekly);
    assert Elems(u.days) == {first} && Elems(v.days) == {second};
    TwoUnitPacket(Month(contract, daily, weekly), u, v, DailyOf(contract));
    AppliesExactly(Month(contract, daily, weekly), [u, v]);
  }
}
