/**
 * Interrupted and repeated runs of a prepared realignment converge, a finished one has nothing left
 * to write, only turnovers change, and the conflict detector goes quiet.
 */
module RealignTheorems {
  import opened Wrappers
  import opened Seqs
  import opened Sorting
  import opened Bars
  import opened Overlay
  import opened Realign

  // ----- what a prepared packet says about the catalog it was prepared from -----

  /** Every stored partition passed the store's checks; a weekly one has one bar per trading day. */
  ghost predicate CatalogOk(c: Catalog) {
    forall key | key in c :: Publishable(key, c[key].bars) && (key.Weekly? ==> NoDup(DaysOf(c[key].bars)))
  }

  ghost predicate PreparedDaily(part: Part, u: Unit, m: PartMeta) {
    && !part.quality && m.name == part.name && m.sha == Sha(part) && m.rowCount == |part.bars|
    && NoDup(DaysOf(part.bars))
    && m.digits.Keys == m.corrected.Keys && (forall d | d in m.digits :: m.digits[d] <= STORED_DIGITS)
    && forall d | d in m.corrected ::
         d in u.days && On(part.bars, d).Some? && On(part.bars, d).value.turnover != Some(m.corrected[d])
  }

  /** The corrected days of a unit, partition after partition. */
  ghost function PlannedDays(c: Catalog, u: Unit, metas: seq<PartMeta>): seq<Bar>
    requires forall m | m in metas :: DailyKey(u, m) in c
  {
    if metas == [] then []
    else
      var m := metas[|metas| - 1];
      PlannedDays(c, u, metas[..|metas| - 1]) + PartDays(c, u, m)
  }

  /** What one partition contributes to the corrected week. */
  function PartDays(c: Catalog, u: Unit, m: PartMeta): seq<Bar>
    requires DailyKey(u, m) in c
  {
    InWeek(WithPrepared(c[DailyKey(u, m)].bars, m.corrected), Elems(u.days))
  }

  /** The fractional digits of the weekly sum while the partitions in `done` are read back from the store
      and the others are corrected from the prepared texts. */
  ghost function StateDigits(c: Catalog, u: Unit, metas: seq<PartMeta>, done: set<Key>): nat
    requires forall m | m in metas :: DailyKey(u, m) in c
  {
    if metas == [] then 0
    else
      var m := metas[|metas| - 1];
      Most(StateDigits(c, u, metas[..|metas| - 1], done),
           Digits(PartDays(c, u, m), if DailyKey(u, m) in done then map[] else m.digits))
  }

  ghost predicate PreparedWeekly(part: Part, u: Unit, week: seq<Bar>) {
    var m, weekly := u.weekly, EndingAt(part.bars, u.end);
    && !part.quality && m.name == part.name && m.sha == Sha(part) && m.rowCount == |part.bars|
    && Elems(DaysOf(week)) == Elems(u.days)
    && weekly.Some? && Realigned(weekly.value, Sort(DayOrder, week)).Ok?
    && Realigned(weekly.value, Sort(DayOrder, week)).value.turnover == Some(m.turnover)
    && (m.rewritten <==> weekly.value.turnover != Some(m.turnover))
  }

  ghost predicate Prepared(c: Catalog, u: Unit) {
    && (forall i, j | 0 <= i < j < |u.daily| :: DailyKey(u, u.daily[i]) != DailyKey(u, u.daily[j]))
    && (forall m | m in u.daily :: DailyKey(u, m) in c && PreparedDaily(c[DailyKey(u, m)], u, m))
    && WeeklyKey(u) in c && PreparedWeekly(c[WeeklyKey(u)], u, PlannedDays(c, u, u.daily))
    && u.weekly.digits == StateDigits(c, u, u.daily, {})
    && (u.planned <==> u.weekly.rewritten || exists m :: m in u.daily && m.corrected != map[])
  }

  function CorrectedIn(u: Unit, metas: seq<PartMeta>, key: Key): map<Date, int> {
    if metas == [] then map[]
    else if DailyKey(u, metas[0]) == key then metas[0].corrected
    else CorrectedIn(u, metas[1..], key)
  }

  lemma {:induction false} CorrectedOfMeta(u: Unit, metas: seq<PartMeta>, m: PartMeta)
    requires forall i, j | 0 <= i < j < |metas| :: DailyKey(u, metas[i]) != DailyKey(u, metas[j])
    requires m in metas
    ensures CorrectedIn(u, metas, DailyKey(u, m)) == m.corrected
  {
    if m != metas[0] {
      var j :| 0 <= j < |metas| && metas[j] == m;
      assert metas[1..][j - 1] == m;
      CorrectedOfMeta(u, metas[1..], m);
    }
  }

  lemma {:induction false} CorrectedHasMeta(u: Unit, metas: seq<PartMeta>, key: Key)
    requires CorrectedIn(u, metas, key) != map[]
    ensures exists m :: m in metas && DailyKey(u, m) == key && m.corrected == CorrectedIn(u, metas, key)
  {
    if DailyKey(u, metas[0]) != key {
      CorrectedHasMeta(u, metas[1..], key);
    }
  }

  /** The unit publishes this partition unless it finds it done. */
  ghost predicate Writes(u: Unit, key: Key) {
    u.planned && if key.Daily? then CorrectedIn(u, u.daily, key) != map[] else key == WeeklyKey(u) && u.weekly.rewritten
  }

  function Rewritten(bars: seq<Bar>, end: int, turnover: int): seq<Bar> {
    var weekly := EndingAt(bars, end);
    if weekly.None? then bars else WithWeekly(bars, end, weekly.value.(turnover := Some(turnover)))
  }

  /** What a unit makes of the bars of a partition it writes. */
  function Touched(u: Unit, key: Key, bars: seq<Bar>): seq<Bar> {
    if key.Daily? then WithPrepared(bars, CorrectedIn(u, u.daily, key)) else Rewritten(bars, u.end, u.weekly.turnover)
  }

  ghost predicate DisjointWeeks(units: seq<Unit>) {
    forall i, j | 0 <= i < j < |units| && units[i].contract == units[j].contract ::
      units[i].end != units[j].end && Elems(units[i].days) !! Elems(units[j].days)
  }

  ghost predicate NoSharedWrites(units: seq<Unit>) {
    forall i, j, key | 0 <= i < j < |units| :: !(Writes(units[i], key) && Writes(units[j], key))
  }

  /** Prepared units of one catalog, for distinct weeks. */
  ghost predicate Packet(c: Catalog, units: seq<Unit>) {
    CatalogOk(c) && (forall u | u in units :: Prepared(c, u)) && DisjointWeeks(units)
  }

  // ----- in place -----

  lemma PreparedInPlace(bars: seq<Bar>, corrected: map<Date, int>)
    requires Increasing(bars)
    ensures WithPrepared(bars, corrected) == Map((b: Bar) => Prepare(b, corrected), bars)
  {
    var mapped := Map((b: Bar) => Prepare(b, corrected), bars);
    forall i, j | 0 <= i < j < |mapped| ensures EndOf(mapped[i]) <= EndOf(mapped[j]) {
      assert bars[i].end < bars[j].end;
    }
    SortKeepsOrdered(EndOf, mapped);
  }

  lemma NothingPrepared(bars: seq<Bar>)
    requires Increasing(bars)
    ensures WithPrepared(bars, map[]) == bars
  {
    PreparedInPlace(bars, map[]);
  }

  lemma {:induction false} OtherDaysStay(bars: seq<Bar>, corrected: map<Date, int>, days: set<Date>)
    requires corrected.Keys !! days
    ensures InWeek(Map((b: Bar) => Prepare(b, corrected), bars), days) == InWeek(bars, days)
  {
    var f := (b: Bar) => Prepare(b, corrected);
    if bars == [] {
      assert Map(f, bars) == [];
    } else {
      OtherDaysStay(bars[1..], corrected, days);
      assert Map(f, bars)[1..] == Map(f, bars[1..]);
    }
  }

  lemma {:induction false} EndingAtFinds(bars: seq<Bar>, end: int)
    ensures EndingAt(bars, end).Some? ==> EndingAt(bars, end).value in bars && EndingAt(bars, end).value.end == end
    ensures EndingAt(bars, end).None? <==> forall b | b in bars :: b.end != end
  {
    if bars != [] {
      EndingAtFinds(bars[1..], end);
      assert bars == [bars[0]] + bars[1..];
    }
  }

  lemma {:induction false} EndingAtWithWeekly(bars: seq<Bar>, end: int, updated: Bar, at: int)
    requires updated.end == end
    ensures EndingAt(WithWeekly(bars, end, updated), at)
         == if at == end && EndingAt(bars, end).Some? then Some(updated) else EndingAt(bars, at)
  {
    if bars != [] {
      EndingAtWithWeekly(bars[1..], end, updated, at);
      assert WithWeekly(bars, end, updated)[1..] == WithWeekly(bars[1..], end, updated);
    } else {
      assert WithWeekly(bars, end, updated) == [];
    }
  }

  lemma EndingAtRewritten(bars: seq<Bar>, end: int, turnover: int, at: int)
    ensures EndingAt(Rewritten(bars, end, turnover), at)
         == if at == end && EndingAt(bars, end).Some? then Some(EndingAt(bars, end).value.(turnover := Some(turnover)))
            else EndingAt(bars, at)
    ensures |Rewritten(bars, end, turnover)| == |bars|
  {
    EndingAtFinds(bars, end);
    if EndingAt(bars, end).Some? {
      EndingAtWithWeekly(bars, end, EndingAt(bars, end).value.(turnover := Some(turnover)), at);
    }
  }

  lemma RealignedIgnoresTurnover(weekly: Bar, turnover: Option<int>, week: seq<Bar>)
    ensures Realigned(weekly.(turnover := turnover), week) == Realigned(weekly, week)
  {
  }

  // ----- the frame: a touched partition differs in turnovers only -----

  /** The same bars but for turnovers. */
  ghost predicate OnlyTurnoverDiffers(before: seq<Bar>, after: seq<Bar>) {
    |after| == |before| && forall i | 0 <= i < |before| :: after[i] == before[i].(turnover := after[i].turnover)
  }

  lemma TouchedKeepsFrame(u: Unit, key: Key, bars: seq<Bar>)
    requires Publishable(key, bars)
    ensures OnlyTurnoverDiffers(bars, Touched(u, key, bars)) && Publishable(key, Touched(u, key, bars))
    ensures DaysOf(Touched(u, key, bars)) == DaysOf(bars)
  {
    var after := Touched(u, key, bars);
    if key.Daily? {
      PreparedInPlace(bars, CorrectedIn(u, u.daily, key));
    } else {
      EndingAtFinds(bars, u.end);
      if EndingAt(bars, u.end).Some? {
        var k :| 0 <= k < |bars| && bars[k] == EndingAt(bars, u.end).value;
        forall i | 0 <= i < |bars| ensures after[i] == bars[i].(turnover := after[i].turnover) {
          if i < k { assert bars[i].end < bars[k].end; }
          if k < i { assert bars[k].end < bars[i].end; }
        }
      }
    }
    assert OnlyTurnoverDiffers(bars, after);
    FrameKeepsPublishable(key, bars, after);
  }

  lemma FrameKeepsPublishable(key: Key, before: seq<Bar>, after: seq<Bar>)
    requires Publishable(key, before) && OnlyTurnoverDiffers(before, after)
    ensures Publishable(key, after) && DaysOf(after) == DaysOf(before)
  {
    forall b | b in after ensures InMonth(key, b) {
      var i :| 0 <= i < |after| && after[i] == b;
      assert before[i] in before;
    }
  }

  // ----- one daily partition, in each state it can be found in -----

  /** What checking a daily partition must yield, whatever has been written before. */
  ghost predicate DailyYields(part: Part, original: Part, u: Unit, m: PartMeta, pending: bool) {
    var key := DailyKey(u, m);
    var r := CheckDailyPart(key, part, m);
    && r.Ok?
    && InWeek(r.value.bars, Elems(u.days)) == InWeek(WithPrepared(original.bars, m.corrected), Elems(u.days))
    && r.value.text == (if pending then m.digits else map[])
    && r.value.jobs == if pending && m.corrected != map[] then [Job(key, WithPrepared(original.bars, m.corrected), m.corrected)] else []
  }

  lemma DayOf(bars: seq<Bar>, day: Date)
    requires On(bars, day).Some?
    ensures day in DaysOf(bars)
  {
    StoredOn(bars, day);
  }

  lemma UntouchedDaily(part: Part, u: Unit, m: PartMeta)
    requires PreparedDaily(part, u, m)
    ensures DailyYields(part, part, u, m, true)
  {
    forall d | d in m.corrected ensures d in DaysOf(part.bars) { DayOf(part.bars, d); }
  }

  lemma OnPrepared(bars: seq<Bar>, corrected: map<Date, int>, d: Date)
    requires Increasing(bars) && NoDup(DaysOf(bars)) && On(bars, d).Some?
    ensures On(WithPrepared(bars, corrected), d) == Some(Prepare(On(bars, d).value, corrected))
  {
    PreparedInPlace(bars, corrected);
    OnFinds(bars, d);
    var after := WithPrepared(bars, corrected);
    assert DaysOf(after) == DaysOf(bars);
    var i :| 0 <= i < |bars| && bars[i] == On(bars, d).value;
    assert after[i] == Prepare(bars[i], corrected);
    hide WithPrepared, DaysOf, Increasing, NoDup, On;
    OnDistinct(after, after[i]);
  }

  lemma PresentWhenDistinct(bars: seq<Bar>, corrected: map<Date, int>)
    requires NoDup(DaysOf(bars))
    ensures PreparedPresent(bars, corrected)
            <==> forall d | d in corrected :: On(bars, d).Some? && On(bars, d).value.turnover == Some(corrected[d])
  {
    forall d | d in corrected
      ensures (exists i :: 0 <= i < |bars| && bars[i].day == d && bars[i].turnover == Some(corrected[d])
                           && forall j | i < j < |bars| :: bars[j].day != d)
         <==> On(bars, d).Some? && On(bars, d).value.turnover == Some(corrected[d])
    {
      OnFinds(bars, d);
      if i :| 0 <= i < |bars| && bars[i].day == d {
        OnDistinct(bars, bars[i]);
        forall j | i < j < |bars| ensures bars[j].day != d { assert DaysOf(bars)[i] != DaysOf(bars)[j]; }
      }
    }
  }

  lemma CorrectedArePresent(bars: seq<Bar>, corrected: map<Date, int>)
    requires Increasing(bars) && NoDup(DaysOf(bars)) && forall d | d in corrected :: On(bars, d).Some?
    ensures PreparedPresent(WithPrepared(bars, corrected), corrected) && |WithPrepared(bars, corrected)| == |bars|
  {
    var after := WithPrepared(bars, corrected);
    PreparedInPlace(bars, corrected);
    assert DaysOf(after) == DaysOf(bars);
    hide WithPrepared, PreparedPresent, DaysOf;
    forall d | d in corrected ensures On(after, d).Some? && On(after, d).value.turnover == Some(corrected[d]) {
      OnPrepared(bars, corrected, d);
      OnFinds(bars, d);
    }
    PresentWhenDistinct(after, corrected);
  }

  lemma CorrectedDiffer(bars: seq<Bar>, corrected: map<Date, int>, d: Date)
    requires Increasing(bars) && NoDup(DaysOf(bars)) && d in corrected
    requires On(bars, d).Some? && On(bars, d).value.turnover != Some(corrected[d])
    ensures WithPrepared(bars, corrected) != bars
  {
    OnPrepared(bars, corrected, d);
    OnFinds(bars, d);
    hide WithPrepared, On;
    assert On(WithPrepared(bars, corrected), d) != On(bars, d);
  }

  lemma DoneDaily(original: Part, u: Unit, m: PartMeta)
    requires PreparedDaily(original, u, m) && Increasing(original.bars) && m.corrected != map[]
    ensures DailyYields(Published(WithPrepared(original.bars, m.corrected)), original, u, m, false)
  {
    hide WithPrepared, PreparedPresent, DaysOf, NoDup, On, InWeek, Increasing;
    var d :| d in m.corrected;
    CorrectedDiffer(original.bars, m.corrected, d);
    CorrectedArePresent(original.bars, m.corrected);
  }

  /** Nothing is corrected in a partition, so checking it, old or not, leaves it as it is. */
  lemma NothingToCorrect(key: Key, part: Part, m: PartMeta)
    requires !part.quality && |part.bars| == m.rowCount && NoDup(DaysOf(part.bars)) && Increasing(part.bars)
    requires m.corrected == map[] && m.digits == map[]
    ensures CheckDailyPart(key, part, m) == Ok(DailyCheck(part.bars, [], map[]))
  {
    NothingPrepared(part.bars);
    hide WithPrepared, Increasing, NoDup, DaysOf;
  }

  /** Correcting days of other weeks keeps ends, days and the bars of this week. */
  lemma ForeignInPlace(bars: seq<Bar>, corrected: map<Date, int>, days: set<Date>)
    requires Increasing(bars) && corrected.Keys !! days
    ensures var after := WithPrepared(bars, corrected);
            Increasing(after) && DaysOf(after) == DaysOf(bars) && |after| == |bars| && InWeek(after, days) == InWeek(bars, days)
  {
    PreparedInPlace(bars, corrected);
    OtherDaysStay(bars, corrected, days);
    hide InWeek, WithPrepared;
  }

  /** Another unit wrote the partition: this one has no turnover to set there, and its days stay. */
  lemma ForeignDaily(original: Part, u: Unit, m: PartMeta, corrected: map<Date, int>)
    requires PreparedDaily(original, u, m) && Increasing(original.bars) && m.corrected == map[]
    requires corrected.Keys !! Elems(u.days)
    ensures DailyYields(Published(WithPrepared(original.bars, corrected)), original, u, m, false)
  {
    assert m.digits == map[] by { assert m.digits.Keys == {}; }
    hide InWeek, WithPrepared, Increasing, NoDup, DaysOf, CheckDailyPart, Elems;
    var after := WithPrepared(original.bars, corrected);
    ForeignInPlace(original.bars, corrected, Elems(u.days));
    NothingPrepared(original.bars);
    NothingToCorrect(DailyKey(u, m), Published(after), m);
  }

  // ----- the states a packet's runs go through -----

  /** Exactly the partitions in `done` are rewritten, each as its own unit planned it. */
  ghost predicate Mixed(c0: Catalog, units: seq<Unit>, done: set<Key>, c: Catalog) {
    && c.Keys == c0.Keys
    && forall key | key in c0 ::
         if key in done
         then exists u :: u in units && Writes(u, key) && c[key] == Published(Touched(u, key, c0[key].bars))
         else c[key] == c0[key]
  }

  lemma OtherUnit(units: seq<Unit>, u: Unit, v: Unit)
    requires u in units && v in units && u != v && DisjointWeeks(units) && u.contract == v.contract
    ensures u.end != v.end && Elems(u.days) !! Elems(v.days)
  {
    var i :| 0 <= i < |units| && units[i] == u;
    var j :| 0 <= j < |units| && units[j] == v;
    if i < j { } else { }
  }

  lemma OneWriter(units: seq<Unit>, u: Unit, v: Unit, key: Key)
    requires u in units && v in units && NoSharedWrites(units) && Writes(u, key) && Writes(v, key)
    ensures u == v
  {
    var i :| 0 <= i < |units| && units[i] == u;
    var j :| 0 <= j < |units| && units[j] == v;
    if i < j { } else if j < i { }
  }

  lemma WritesIsOwn(c0: Catalog, u: Unit, key: Key)
    requires Prepared(c0, u) && Writes(u, key)
    ensures key.contract == u.contract && key in c0
    ensures key.Daily? ==> CorrectedIn(u, u.daily, key).Keys <= Elems(u.days)
  {
    if key.Daily? {
      CorrectedHasMeta(u, u.daily, key);
      var m :| m in u.daily && DailyKey(u, m) == key && m.corrected == CorrectedIn(u, u.daily, key);
      assert PreparedDaily(c0[key], u, m);
    }
  }

  lemma DailyInMixed(c0: Catalog, units: seq<Unit>, done: set<Key>, c: Catalog, u: Unit, m: PartMeta)
    requires Packet(c0, units) && NoSharedWrites(units) && Mixed(c0, units, done, c)
    requires u in units && u.planned && m in u.daily
    ensures var key := DailyKey(u, m);
            key in c && DailyYields(c[key], c0[key], u, m, key !in done)
  {
    var key := DailyKey(u, m);
    assert PreparedDaily(c0[key], u, m);
    CorrectedOfMeta(u, u.daily, m);
    hide DailyYields, PreparedDaily, DisjointWeeks, NoSharedWrites, Prepared, PreparedWeekly;
    if key !in done {
      UntouchedDaily(c0[key], u, m);
    } else {
      var v :| v in units && Writes(v, key) && c[key] == Published(Touched(v, key, c0[key].bars));
      if m.corrected != map[] {
        OneWriter(units, u, v, key);
        DoneDaily(c0[key], u, m);
      } else {
        WritesIsOwn(c0, v, key);
        OtherUnit(units, u, v);
        ForeignDaily(c0[key], u, m, CorrectedIn(v, v.daily, key));
      }
    }
  }

  function DailyJobs(c0: Catalog, u: Unit, metas: seq<PartMeta>, done: set<Key>): seq<Job>
    requires forall m | m in metas :: DailyKey(u, m) in c0
  {
    if metas == [] then []
    else
      var m := metas[|metas| - 1];
      DailyJobs(c0, u, metas[..|metas| - 1], done) + DailyJob(c0, u, m, done)
  }

  /** What checking the first `n` daily partitions must yield. */
  ghost predicate DaysYield(c: Catalog, c0: Catalog, u: Unit, metas: seq<PartMeta>, done: set<Key>)
    requires forall m | m in metas :: DailyKey(u, m) in c0
  {
    CheckDays(c, u, metas) == Ok(WeekCheck(PlannedDays(c0, u, metas), DailyJobs(c0, u, metas, done), StateDigits(c0, u, metas, done)))
  }

  lemma DaysYieldSnoc(c: Catalog, c0: Catalog, u: Unit, metas: seq<PartMeta>, m: PartMeta, done: set<Key>)
    requires forall m' | m' in metas + [m] :: DailyKey(u, m') in c0
    requires DaysYield(c, c0, u, metas, done)
    requires DailyKey(u, m) in c && DailyYields(c[DailyKey(u, m)], c0[DailyKey(u, m)], u, m, DailyKey(u, m) !in done)
    ensures DaysYield(c, c0, u, metas + [m], done)
  {
    hide CheckDailyPart, WithPrepared, InWeek, Digits;
    var all := metas + [m];
    assert all[..|all| - 1] == metas;
    assert all[|all| - 1] == m;
  }

  lemma DailyKeysPresent(c0: Catalog, units: seq<Unit>, u: Unit)
    requires Packet(c0, units) && u in units && u.planned
    ensures forall m | m in u.daily :: DailyKey(u, m) in c0
  {
    assert Prepared(c0, u);
  }

  lemma {:induction false} DaysInMixed(c0: Catalog, units: seq<Unit>, done: set<Key>, c: Catalog, u: Unit, n: nat)
    requires Packet(c0, units) && NoSharedWrites(units) && Mixed(c0, units, done, c)
    requires u in units && u.planned && n <= |u.daily|
    ensures forall m | m in u.daily :: DailyKey(u, m) in c0
    ensures DaysYield(c, c0, u, u.daily[..n], done)
  {
    hide Packet, NoSharedWrites, Mixed, DailyYields, Prepared, CheckDaily, Extended, PartDays;
    DailyKeysPresent(c0, units, u);
    if n == 0 {
      assert u.daily[..0] == [];
    } else {
      hide DaysYield;
      DaysInMixed(c0, units, done, c, u, n - 1);
      DailyInMixed(c0, units, done, c, u, u.daily[n - 1]);
      DaysYieldSnoc(c, c0, u, u.daily[..n - 1], u.daily[n - 1], done);
      assert u.daily[..n - 1] + [u.daily[n - 1]] == u.daily[..n];
    }
  }

  // ----- the weekly partition -----

  ghost predicate WeeklyYields(part: Part, original: Part, u: Unit, week: seq<Bar>, pending: bool)
    requires EndingAt(original.bars, u.end).Some?
  {
    var m := u.weekly;
    var job := Job(WeeklyKey(u), Rewritten(original.bars, u.end, m.turnover),
                   map[EndingAt(original.bars, u.end).value.day := m.turnover]);
    CheckWeeklyPart(part, u, Sort(DayOrder, week), m.digits) == Ok(if pending && m.rewritten then [job] else [])
  }

  lemma UntouchedWeekly(part: Part, u: Unit, week: seq<Bar>)
    requires PreparedWeekly(part, u, week)
    ensures WeeklyYields(part, part, u, week, true)
  {
    hide Sort, DayOrder, WithWeekly;
  }

  lemma DoneWeekly(original: Part, u: Unit, week: seq<Bar>)
    requires PreparedWeekly(original, u, week)
    ensures WeeklyYields(Published(Rewritten(original.bars, u.end, u.weekly.turnover)), original, u, week, false)
  {
    hide Sort, DayOrder, WithWeekly, Rewritten;
    EndingAtRewritten(original.bars, u.end, u.weekly.turnover, u.end);
    RealignedIgnoresTurnover(EndingAt(original.bars, u.end).value, Some(u.weekly.turnover), Sort(DayOrder, week));
  }

  lemma ForeignWeekly(original: Part, u: Unit, week: seq<Bar>, end: int, turnover: int)
    requires PreparedWeekly(original, u, week) && !u.weekly.rewritten && end != u.end
    ensures WeeklyYields(Published(Rewritten(original.bars, end, turnover)), original, u, week, false)
  {
    hide Sort, DayOrder, WithWeekly, Rewritten;
    EndingAtRewritten(original.bars, end, turnover, u.end);
  }

  lemma WeeklyInMixed(c0: Catalog, units: seq<Unit>, done: set<Key>, c: Catalog, u: Unit)
    requires Packet(c0, units) && NoSharedWrites(units) && Mixed(c0, units, done, c)
    requires u in units && u.planned
    ensures forall m | m in u.daily :: DailyKey(u, m) in c0
    ensures var key, week := WeeklyKey(u), PlannedDays(c0, u, u.daily);
            && key in c && EndingAt(c0[key].bars, u.end).Some?
            && WeeklyYields(c[key], c0[key], u, week, key !in done)
  {
    assert Prepared(c0, u);
    var key, week := WeeklyKey(u), PlannedDays(c0, u, u.daily);
    assert PreparedWeekly(c0[key], u, week);
    hide WeeklyYields, DisjointWeeks, NoSharedWrites, Prepared, PreparedWeekly, Rewritten, PlannedDays, CatalogOk;
    assert EndingAt(c0[key].bars, u.end).Some? by { WeeklyOf(c0[key], u, week); }
    if key !in done {
      UntouchedWeekly(c0[key], u, week);
    } else {
      var v :| v in units && Writes(v, key) && c[key] == Published(Touched(v, key, c0[key].bars));
      if u == v {
        DoneWeekly(c0[key], u, week);
      } else {
        WritesIsOwn(c0, v, key);
        OtherUnit(units, u, v);
        if u.weekly.rewritten { OneWriter(units, u, v, key); }
        ForeignWeekly(c0[key], u, week, v.end, v.weekly.turnover);
      }
    }
  }

  lemma WeeklyOf(part: Part, u: Unit, week: seq<Bar>)
    requires PreparedWeekly(part, u, week)
    ensures EndingAt(part.bars, u.end).Some? && Elems(DaysOf(week)) == Elems(u.days)
  {
  }

  // ----- the digits of the weekly turnover -----

  lemma {:induction false} DigitsConcat(a: seq<Bar>, b: seq<Bar>, text: map<Date, nat>)
    ensures Digits(a + b, text) == Most(Digits(a, text), Digits(b, text))
    decreases |b|
  {
    if b == [] {
      assert a + b == a;
    } else {
      assert (a + b)[..|a + b| - 1] == a + b[..|b| - 1];
      DigitsConcat(a, b[..|b| - 1], text);
    }
  }

  lemma {:induction false} DigitsRise(bars: seq<Bar>, text: map<Date, nat>)
    requires forall d | d in text :: text[d] <= STORED_DIGITS
    ensures Digits(bars, text) <= Digits(bars, map[]) <= STORED_DIGITS
    ensures Digits(bars, map[]) == if forall b | b in bars :: Printed(b, map[]) == 0 then 0 else STORED_DIGITS
  {
    if bars != [] {
      var n := |bars| - 1;
      DigitsRise(bars[..n], text);
      assert bars == bars[..n] + [bars[n]];
    }
  }

  /** The digits once every day of the week is read back from the store. */
  ghost function RereadDigits(c: Catalog, u: Unit): nat
    requires forall m | m in u.daily :: DailyKey(u, m) in c
  {
    Digits(PlannedDays(c, u, u.daily), map[])
  }

  /** The prepared text of the weekly turnover is the one a later run computes from the store. */
  ghost predicate Stable(c: Catalog, u: Unit) {
    (forall m | m in u.daily :: DailyKey(u, m) in c) && u.weekly.digits == RereadDigits(c, u)
  }

  /** While the partitions in `done` are rewritten, the text of the unit still comes out as prepared. */
  ghost predicate Steady(c: Catalog, u: Unit, done: set<Key>) {
    (forall m | m in u.daily :: DailyKey(u, m) in c) && StateDigits(c, u, u.daily, done) == u.weekly.digits
  }

  lemma {:induction false} DigitsBetween(c: Catalog, u: Unit, metas: seq<PartMeta>, done: set<Key>)
    requires forall m | m in metas :: DailyKey(u, m) in c && forall d | d in m.digits :: m.digits[d] <= STORED_DIGITS
    ensures StateDigits(c, u, metas, {}) <= StateDigits(c, u, metas, done) <= Digits(PlannedDays(c, u, metas), map[])
  {
    if metas != [] {
      var n := |metas| - 1;
      DigitsBetween(c, u, metas[..n], done);
      DigitsRise(PartDays(c, u, metas[n]), metas[n].digits);
      DigitsConcat(PlannedDays(c, u, metas[..n]), PartDays(c, u, metas[n]), map[]);
      hide PartDays, Digits;
    }
  }

  /** Rewriting partitions that the unit does not correct leaves the digits of its week alone. */
  lemma {:induction false} DigitsSame(c: Catalog, u: Unit, metas: seq<PartMeta>, done: set<Key>, done': set<Key>)
    requires forall m | m in metas :: DailyKey(u, m) in c && (m.digits != map[] ==> (DailyKey(u, m) in done <==> DailyKey(u, m) in done'))
    ensures StateDigits(c, u, metas, done) == StateDigits(c, u, metas, done')
  {
    hide PartDays, Digits;
    if metas != [] { DigitsSame(c, u, metas[..|metas| - 1], done, done'); }
  }

  lemma {:induction false} DigitsReread(c: Catalog, u: Unit, metas: seq<PartMeta>, done: set<Key>)
    requires forall m | m in metas :: DailyKey(u, m) in c && (DailyKey(u, m) !in done ==> m.digits == map[])
    ensures StateDigits(c, u, metas, done) == Digits(PlannedDays(c, u, metas), map[])
  {
    hide PartDays;
    if metas != [] {
      var n := |metas| - 1;
      DigitsReread(c, u, metas[..n], done);
      DigitsConcat(PlannedDays(c, u, metas[..n]), PartDays(c, u, metas[n]), map[]);
      hide Digits;
    }
  }

  lemma DigitsOfMeta(c: Catalog, u: Unit, m: PartMeta)
    requires Prepared(c, u) && m in u.daily
    ensures DailyKey(u, m) in c && forall d | d in m.digits :: m.digits[d] <= STORED_DIGITS
    ensures u.planned && !Writes(u, DailyKey(u, m)) ==> m.digits == map[]
  {
    CorrectedOfMeta(u, u.daily, m);
    assert PreparedDaily(c[DailyKey(u, m)], u, m);
    if m.corrected == map[] { assert m.digits.Keys == {}; }
  }

  lemma MetasOk(c: Catalog, u: Unit)
    requires Prepared(c, u)
    ensures forall m | m in u.daily :: DailyKey(u, m) in c && forall d | d in m.digits :: m.digits[d] <= STORED_DIGITS
    ensures u.weekly.digits == StateDigits(c, u, u.daily, {})
  {
    hide PreparedDaily, PreparedWeekly, StateDigits;
    forall m | m in u.daily ensures DailyKey(u, m) in c && forall d | d in m.digits :: m.digits[d] <= STORED_DIGITS {
      DigitsOfMeta(c, u, m);
    }
  }

  /** Some day of the week in this partition has a turnover. */
  ghost predicate HasTurnover(c: Catalog, u: Unit, m: PartMeta)
    requires DailyKey(u, m) in c
  {
    exists b :: b in PartDays(c, u, m) && Printed(b, map[]) != 0
  }

  lemma PartDigits(c: Catalog, u: Unit, m: PartMeta)
    requires DailyKey(u, m) in c && forall d | d in m.digits :: m.digits[d] <= STORED_DIGITS
    ensures Digits(PartDays(c, u, m), map[]) == if HasTurnover(c, u, m) then STORED_DIGITS else 0
    ensures Digits(PartDays(c, u, m), m.digits) <= Digits(PartDays(c, u, m), map[])
  {
    DigitsRise(PartDays(c, u, m), m.digits);
    hide PartDays, Digits, Printed;
  }

  lemma {:induction false} DigitsOfDone(c: Catalog, u: Unit, metas: seq<PartMeta>, done: set<Key>)
    requires forall m | m in metas :: DailyKey(u, m) in c && forall d | d in m.digits :: m.digits[d] <= STORED_DIGITS
    ensures StateDigits(c, u, metas, {}) <= STORED_DIGITS
    ensures StateDigits(c, u, metas, done)
         == if exists m :: m in metas && DailyKey(u, m) in done && HasTurnover(c, u, m) then STORED_DIGITS
            else StateDigits(c, u, metas, {})
  {
    hide PartDays, Digits, HasTurnover;
    if metas != [] {
      var n := |metas| - 1;
      DigitsOfDone(c, u, metas[..n], done);
      PartDigits(c, u, metas[n]);
      assert metas == metas[..n] + [metas[n]];
    }
  }

  /** When the text of a unit survives the rewriting of some partitions: it has all the digits of a stored
      number, or no rewritten partition gives its week a turnover. */
  lemma SteadyExactly(c: Catalog, u: Unit, done: set<Key>)
    requires Prepared(c, u)
    ensures forall m | m in u.daily :: DailyKey(u, m) in c
    ensures Steady(c, u, done)
       <==> u.weekly.digits == STORED_DIGITS || forall m | m in u.daily && DailyKey(u, m) in done :: !HasTurnover(c, u, m)
  {
    hide Prepared, HasTurnover, StateDigits;
    MetasOk(c, u);
    DigitsOfDone(c, u, u.daily, done);
  }

  /** When the prepared text is stable: it has all the digits of a stored number, or the week has no
      turnover at all. */
  lemma StableExactly(c: Catalog, u: Unit)
    requires Prepared(c, u)
    ensures forall m | m in u.daily :: DailyKey(u, m) in c
    ensures Stable(c, u) <==> u.weekly.digits == STORED_DIGITS || forall b | b in PlannedDays(c, u, u.daily) :: Printed(b, map[]) == 0
  {
    hide Prepared, StateDigits, PlannedDays, Digits, Printed;
    MetasOk(c, u);
    DigitsBetween(c, u, u.daily, {});
    var none: map<Date, nat> := map[];
    DigitsRise(PlannedDays(c, u, u.daily), none);
  }

  lemma {:induction false} DigitsStayBelow(bars: seq<Bar>, text: map<Date, nat>)
    requires forall b | b in bars && Printed(b, map[]) != 0 :: b.day in text && text[b.day] < STORED_DIGITS
    ensures Digits(bars, text) < STORED_DIGITS
  {
    if bars != [] {
      assert bars == bars[..|bars| - 1] + [bars[|bars| - 1]];
      DigitsStayBelow(bars[..|bars| - 1], text);
    }
  }

  lemma {:induction false} TextStaysBelow(c: Catalog, u: Unit, metas: seq<PartMeta>)
    requires forall m | m in metas :: DailyKey(u, m) in c && Throughout(c, u, m)
    ensures StateDigits(c, u, metas, {}) < STORED_DIGITS
  {
    if metas != [] {
      var n := |metas| - 1;
      TextStaysBelow(c, u, metas[..n]);
      assert metas[n] in metas;
      DigitsStayBelow(PartDays(c, u, metas[n]), metas[n].digits);
      hide PartDays, Digits;
    }
  }

  /** Every day with a turnover is corrected, by a text with fewer digits than a stored number. */
  ghost predicate Throughout(c: Catalog, u: Unit, m: PartMeta)
    requires DailyKey(u, m) in c
  {
    forall b | b in PartDays(c, u, m) && Printed(b, map[]) != 0 :: b.day in m.digits && m.digits[b.day] < STORED_DIGITS
  }

  /** A week corrected on every one of its days by ordinary provider numbers is not stable. */
  lemma CorrectedThroughoutIsUnstable(c: Catalog, u: Unit)
    requires Prepared(c, u) && (forall m | m in u.daily :: DailyKey(u, m) in c && Throughout(c, u, m))
    requires exists b :: b in PlannedDays(c, u, u.daily) && Printed(b, map[]) != 0
    ensures !Stable(c, u)
  {
    TextStaysBelow(c, u, u.daily);
    StableExactly(c, u);
    hide PlannedDays, StateDigits, Printed, Throughout, PreparedDaily, PreparedWeekly;
  }

  // ----- the jobs of a unit -----

  ghost function WeeklyJobs(c0: Catalog, u: Unit, done: set<Key>): seq<Job>
    requires WeeklyKey(u) in c0 && EndingAt(c0[WeeklyKey(u)].bars, u.end).Some?
  {
    var key, m := WeeklyKey(u), u.weekly;
    if key !in done && m.rewritten
    then [Job(key, Rewritten(c0[key].bars, u.end, m.turnover), map[EndingAt(c0[key].bars, u.end).value.day := m.turnover])]
    else []
  }

  ghost predicate HasJobs(c0: Catalog, u: Unit) {
    && (forall m | m in u.daily :: DailyKey(u, m) in c0)
    && WeeklyKey(u) in c0 && EndingAt(c0[WeeklyKey(u)].bars, u.end).Some?
  }

  ghost function Jobs(c0: Catalog, u: Unit, done: set<Key>): seq<Job>
    requires HasJobs(c0, u)
  {
    DailyJobs(c0, u, u.daily, done) + WeeklyJobs(c0, u, done)
  }

  /** What checking a unit reads while the partitions in `done` are rewritten: its days as planned, and
      whatever its weekly partition then says about them. */
  lemma UnitReads(c0: Catalog, units: seq<Unit>, done: set<Key>, c: Catalog, u: Unit)
    requires Packet(c0, units) && NoSharedWrites(units) && Mixed(c0, units, done, c)
    requires u in units && u.planned
    ensures HasJobs(c0, u) && WeeklyKey(u) in c
    ensures var week, digits := PlannedDays(c0, u, u.daily), StateDigits(c0, u, u.daily, done);
            && Elems(DaysOf(week)) == Elems(u.days)
            && CheckDays(c, u, u.daily) == Ok(WeekCheck(week, DailyJobs(c0, u, u.daily, done), digits))
            && CheckWeeklyPart(c[WeeklyKey(u)], u, Sort(DayOrder, week), u.weekly.digits) == Ok(WeeklyJobs(c0, u, done))
  {
    hide Mixed, NoSharedWrites, CheckWeeklyPart, CheckDays, PlannedDays, DailyJobs, StateDigits, Rewritten, Prepared, Sort;
    PreparedIn(c0, units, u);
    DaysInMixed(c0, units, done, c, u, |u.daily|);
    assert u.daily[..|u.daily|] == u.daily;
    WeeklyInMixed(c0, units, done, c, u);
  }

  lemma PreparedIn(c0: Catalog, units: seq<Unit>, u: Unit)
    requires Packet(c0, units) && u in units
    ensures CatalogOk(c0) && Prepared(c0, u) && (forall m | m in u.daily :: DailyKey(u, m) in c0)
    ensures WeeklyKey(u) in c0 && PreparedWeekly(c0[WeeklyKey(u)], u, PlannedDays(c0, u, u.daily))
    ensures Elems(DaysOf(PlannedDays(c0, u, u.daily))) == Elems(u.days)
  {
    assert Prepared(c0, u);
    hide Sort, Realigned, PreparedDaily, StateDigits;
  }

  lemma UnitInMixed(c0: Catalog, units: seq<Unit>, done: set<Key>, c: Catalog, u: Unit)
    requires Packet(c0, units) && NoSharedWrites(units) && Mixed(c0, units, done, c)
    requires u in units && u.planned && Steady(c0, u, done)
    ensures HasJobs(c0, u) && Check(c, u) == Ok(Jobs(c0, u, done))
  {
    UnitReads(c0, units, done, c, u);
    hide StateDigits, Packet, NoSharedWrites, Mixed, CheckWeeklyPart, CheckDays, PlannedDays, DailyJobs, WeeklyJobs, DaysOf, Elems, Sort;
  }

  lemma DriftingPart(part: Part, u: Unit, week: seq<Bar>, digits: nat)
    requires CheckWeeklyPart(part, u, week, u.weekly.digits).Ok? && digits != u.weekly.digits
    ensures CheckWeeklyPart(part, u, week, digits) == Err(W1_TURNOVER_DRIFT)
  {
  }

  /** A unit whose text no longer comes out as prepared is refused. */
  lemma UnsteadyDrifts(c0: Catalog, units: seq<Unit>, done: set<Key>, c: Catalog, u: Unit)
    requires Packet(c0, units) && NoSharedWrites(units) && Mixed(c0, units, done, c)
    requires u in units && u.planned && !Steady(c0, u, done)
    ensures Check(c, u) == Err(W1_TURNOVER_DRIFT)
  {
    UnitReads(c0, units, done, c, u);
    hide StateDigits, Packet, NoSharedWrites, Mixed, CheckWeeklyPart, CheckDays, PlannedDays, DailyJobs, WeeklyJobs, DaysOf, Elems, Sort;
    DriftingPart(c[WeeklyKey(u)], u, Sort(DayOrder, PlannedDays(c0, u, u.daily)), StateDigits(c0, u, u.daily, done));
  }

  /** A job rewrites one partition of its unit the way it was planned, and the store takes it. */
  ghost predicate JobOk(c0: Catalog, u: Unit, job: Job) {
    && job.key in c0 && Writes(u, job.key) && job.bars == Touched(u, job.key, c0[job.key].bars)
    && Publishable(job.key, job.bars) && ReadsBack(Published(job.bars), job.expected)
  }

  lemma DailyJobOk(c0: Catalog, u: Unit, m: PartMeta)
    requires CatalogOk(c0) && Prepared(c0, u) && u.planned && m in u.daily && m.corrected != map[]
    ensures JobOk(c0, u, Job(DailyKey(u, m), WithPrepared(c0[DailyKey(u, m)].bars, m.corrected), m.corrected))
  {
    var key := DailyKey(u, m);
    var bars := c0[key].bars;
    CorrectedOfMeta(u, u.daily, m);
    assert PreparedDaily(c0[key], u, m);
    TouchedKeepsFrame(u, key, bars);
    forall d | d in m.corrected
      ensures var b := On(WithPrepared(bars, m.corrected), d);
              b.Some? && b.value.turnover == Some(m.corrected[d])
    {
      OnPrepared(bars, m.corrected, d);
      OnFinds(bars, d);
    }
  }

  lemma WeeklyJobOk(c0: Catalog, u: Unit)
    requires CatalogOk(c0) && Prepared(c0, u) && HasJobs(c0, u) && u.planned && u.weekly.rewritten
    ensures var key, m := WeeklyKey(u), u.weekly;
            JobOk(c0, u, Job(key, Rewritten(c0[key].bars, u.end, m.turnover),
                             map[EndingAt(c0[key].bars, u.end).value.day := m.turnover]))
  {
    var key, m := WeeklyKey(u), u.weekly;
    var bars := c0[key].bars;
    var after, weekly := Rewritten(bars, u.end, m.turnover), EndingAt(bars, u.end).value;
    TouchedKeepsFrame(u, key, bars);
    assert after == Touched(u, key, bars);
    EndingAtRewritten(bars, u.end, m.turnover, u.end);
    EndingAtFinds(after, u.end);
    OnDistinct(after, weekly.(turnover := Some(m.turnover)));
  }

  /** The daily jobs of the first n partitions are planned writes of partitions still to do, and none of
      those is missing. */
  ghost predicate JobsCover(c0: Catalog, u: Unit, n: nat, done: set<Key>, jobs: seq<Job>)
    requires n <= |u.daily|
  {
    && (forall job | job in jobs :: JobOk(c0, u, job) && job.key !in done)
    && (forall i | 0 <= i < n && u.daily[i].corrected != map[] && DailyKey(u, u.daily[i]) !in done ::
          DailyKey(u, u.daily[i]) in JobKeys(jobs))
  }

  lemma JobsCoverNext(c0: Catalog, u: Unit, n: nat, done: set<Key>, jobs: seq<Job>, more: seq<Job>)
    requires n < |u.daily| && JobsCover(c0, u, n, done, jobs)
    requires var m := u.daily[n];
             if DailyKey(u, m) !in done && m.corrected != map[]
             then |more| == 1 && JobOk(c0, u, more[0]) && more[0].key == DailyKey(u, m) else more == []
    ensures JobsCover(c0, u, n + 1, done, jobs + more)
  {
    hide JobOk;
    forall key | key in JobKeys(jobs) ensures key in JobKeys(jobs + more) {
      var job :| job in jobs && job.key == key;
      assert job in jobs + more;
    }
    if more != [] { assert more[0] in jobs + more; }
  }

  /** The job one daily partition still needs. */
  function DailyJob(c0: Catalog, u: Unit, m: PartMeta, done: set<Key>): seq<Job>
    requires DailyKey(u, m) in c0
  {
    var key := DailyKey(u, m);
    if key !in done && m.corrected != map[] then [Job(key, WithPrepared(c0[key].bars, m.corrected), m.corrected)] else []
  }

  lemma DailyJobsSnoc(c0: Catalog, u: Unit, n: nat, done: set<Key>)
    requires n < |u.daily| && forall m | m in u.daily :: DailyKey(u, m) in c0
    ensures DailyJobs(c0, u, u.daily[..n + 1], done) == DailyJobs(c0, u, u.daily[..n], done) + DailyJob(c0, u, u.daily[n], done)
  {
    assert u.daily[..n + 1][..n] == u.daily[..n];
  }

  lemma PreparedHas(c0: Catalog, u: Unit)
    requires Prepared(c0, u)
    ensures forall m | m in u.daily :: DailyKey(u, m) in c0
  {
  }

  lemma DailyJobsNext(c0: Catalog, u: Unit, n: nat, done: set<Key>)
    requires CatalogOk(c0) && Prepared(c0, u) && u.planned && n < |u.daily|
    requires JobsCover(c0, u, n, done, DailyJobs(c0, u, u.daily[..n], done))
    ensures JobsCover(c0, u, n + 1, done, DailyJobs(c0, u, u.daily[..n + 1], done))
  {
    hide JobOk, CatalogOk, JobsCover, WithPrepared, Prepared, DailyJobs;
    PreparedHas(c0, u);
    var m := u.daily[n];
    if m.corrected != map[] { DailyJobOk(c0, u, m); }
    DailyJobsSnoc(c0, u, n, done);
    JobsCoverNext(c0, u, n, done, DailyJobs(c0, u, u.daily[..n], done), DailyJob(c0, u, m, done));
  }

  lemma {:induction false} DailyJobsOk(c0: Catalog, u: Unit, n: nat, done: set<Key>)
    requires CatalogOk(c0) && Prepared(c0, u) && u.planned && n <= |u.daily|
    ensures JobsCover(c0, u, n, done, DailyJobs(c0, u, u.daily[..n], done))
  {
    hide CatalogOk, Prepared;
    PreparedHas(c0, u);
    if n == 0 {
      assert u.daily[..0] == [];
    } else {
      hide JobsCover, DailyJobs;
      DailyJobsOk(c0, u, n - 1, done);
      DailyJobsNext(c0, u, n - 1, done);
    }
  }

  function JobKeys(jobs: seq<Job>): set<Key> {
    set job | job in jobs :: job.key
  }

  lemma WeeklyJobsOk(c0: Catalog, u: Unit, done: set<Key>)
    requires CatalogOk(c0) && Prepared(c0, u) && HasJobs(c0, u) && u.planned
    ensures forall job | job in WeeklyJobs(c0, u, done) :: JobOk(c0, u, job) && job.key !in done
    ensures u.weekly.rewritten && WeeklyKey(u) !in done ==> WeeklyKey(u) in JobKeys(WeeklyJobs(c0, u, done))
  {
    if u.weekly.rewritten { WeeklyJobOk(c0, u); }
    hide JobOk, Prepared, CatalogOk, Rewritten, EndingAt;
    var jobs := WeeklyJobs(c0, u, done);
    assert jobs != [] ==> jobs[0] in jobs;
  }

  lemma DailyJobsReach(c0: Catalog, u: Unit, done: set<Key>, key: Key)
    requires CatalogOk(c0) && Prepared(c0, u) && HasJobs(c0, u) && u.planned
    requires key.Daily? && Writes(u, key) && key !in done
    ensures key in JobKeys(DailyJobs(c0, u, u.daily, done))
  {
    hide CatalogOk, Prepared, DailyJobs, JobOk, CorrectedIn;
    DailyJobsOk(c0, u, |u.daily|, done);
    assert u.daily[..|u.daily|] == u.daily;
    CorrectedHasMeta(u, u.daily, key);
    var m :| m in u.daily && DailyKey(u, m) == key && m.corrected == CorrectedIn(u, u.daily, key);
    var i :| 0 <= i < |u.daily| && u.daily[i] == m;
  }

  lemma JobKeysConcat(a: seq<Job>, b: seq<Job>)
    ensures JobKeys(a + b) == JobKeys(a) + JobKeys(b)
  {
    forall key | key in JobKeys(a) || key in JobKeys(b) ensures key in JobKeys(a + b) {
      if job :| job in a && job.key == key { assert job in a + b; }
      else { var job :| job in b && job.key == key; assert job in a + b; }
    }
  }

  lemma JobsOk(c0: Catalog, u: Unit, done: set<Key>)
    requires CatalogOk(c0) && Prepared(c0, u) && HasJobs(c0, u) && u.planned
    ensures forall job | job in Jobs(c0, u, done) :: JobOk(c0, u, job) && job.key !in done
    ensures forall key | Writes(u, key) && key !in done :: key in JobKeys(Jobs(c0, u, done))
  {
    hide JobOk, Prepared, CatalogOk, DailyJobs, WeeklyJobs, CorrectedIn, JobKeys;
    var daily, weekly := DailyJobs(c0, u, u.daily, done), WeeklyJobs(c0, u, done);
    DailyJobsOk(c0, u, |u.daily|, done);
    assert u.daily[..|u.daily|] == u.daily;
    WeeklyJobsOk(c0, u, done);
    JobKeysConcat(daily, weekly);
    forall key | Writes(u, key) && key !in done ensures key in JobKeys(daily + weekly) {
      if key.Daily? { DailyJobsReach(c0, u, done, key); }
    }
  }

  // ----- runs -----

  lemma MixedNext(c0: Catalog, units: seq<Unit>, done: set<Key>, c: Catalog, u: Unit, job: Job)
    requires Mixed(c0, units, done, c) && u in units && JobOk(c0, u, job)
    ensures Mixed(c0, units, done + {job.key}, c[job.key := Published(job.bars)])
  {
    hide Writes, Touched, Publishable;
  }

  lemma CommitOk(c0: Catalog, u: Unit, p: Progress, job: Job, crash: Option<nat>)
    requires JobOk(c0, u, job)
    ensures Commit(p, job, crash)
         == if crash == Some(p.writes) then p.(outcome := Crashed)
            else Progress(p.catalog[job.key := Published(job.bars)], p.writes + 1, Going)
  {
  }

  lemma {:induction false} CommitsMixed(c0: Catalog, units: seq<Unit>, done: set<Key>, p: Progress, u: Unit, jobs: seq<Job>,
                                        crash: Option<nat>)
    returns (done': set<Key>)
    requires Mixed(c0, units, done, p.catalog) && p.outcome.Going? && u in units
    requires forall job | job in jobs :: JobOk(c0, u, job)
    ensures var r := Commits(p, jobs, crash);
            && Mixed(c0, units, done', r.catalog) && done <= done'
            && (forall key | key in done' :: key in done || Writes(u, key))
            && (r.outcome.Going? ==> done' == done + JobKeys(jobs) && r.writes == p.writes + |jobs|)
            && (!r.outcome.Going? ==> r.outcome.Crashed? && crash == Some(r.writes))
  {
    if jobs == [] {
      assert JobKeys(jobs) == {};
      return done;
    }
    hide Mixed, JobOk, Commit, Writes, JobKeys;
    var n := |jobs| - 1;
    var job := jobs[n];
    JobKeysSnoc(jobs);
    done' := CommitsMixed(c0, units, done, p, u, jobs[..n], crash);
    var before := Commits(p, jobs[..n], crash);
    CommitOk(c0, u, before, job, crash);
    JobWrites(c0, u, job);
    if before.outcome.Going? && crash != Some(before.writes) {
      MixedNext(c0, units, done', before.catalog, u, job);
      done' := done' + {job.key};
    }
  }

  lemma JobKeysSnoc(jobs: seq<Job>)
    requires jobs != []
    ensures JobKeys(jobs) == JobKeys(jobs[..|jobs| - 1]) + {jobs[|jobs| - 1].key}
    ensures jobs[|jobs| - 1] in jobs && forall job | job in jobs[..|jobs| - 1] :: job in jobs
  {
    assert jobs == jobs[..|jobs| - 1] + [jobs[|jobs| - 1]];
  }

  lemma UnitKeepsMixed(c0: Catalog, units: seq<Unit>, done: set<Key>, p: Progress, u: Unit, crash: Option<nat>)
    returns (done': set<Key>)
    requires Packet(c0, units) && NoSharedWrites(units) && Mixed(c0, units, done, p.catalog)
    requires p.outcome.Going? && u in units && (u.planned ==> Steady(c0, u, done))
    ensures var r := ApplyUnit(p, u, crash);
            && Mixed(c0, units, done', r.catalog) && done <= done'
            && (forall key | key in done' :: key in done || Writes(u, key))
            && (r.outcome.Going? ==> forall key | Writes(u, key) :: key in done')
            && (!r.outcome.Going? ==> r.outcome.Crashed? && crash == Some(r.writes))
            && ((forall key | Writes(u, key) :: key in done) ==> r == p)
  {
    hide NoSharedWrites, Mixed, Check, Jobs, JobOk, Writes, JobKeys, Steady, Commits;
    done' := done;
    if u.planned {
      PreparedIn(c0, units, u);
      hide Packet, Prepared, CatalogOk, PreparedWeekly, PlannedDays;
      UnitInMixed(c0, units, done, p.catalog, u);
      JobsOk(c0, u, done);
      var jobs := Jobs(c0, u, done);
      done' := CommitsMixed(c0, units, done, p, u, jobs, crash);
      forall job | job in jobs ensures Writes(u, job.key) { JobWrites(c0, u, job); }
      NoJobs(p, jobs, crash);
    } else {
      NothingWritten(u);
    }
  }

  lemma NoJobs(p: Progress, jobs: seq<Job>, crash: Option<nat>)
    ensures jobs == [] ==> Commits(p, jobs, crash) == p
    ensures jobs != [] ==> jobs[0] in jobs
  {
    hide Commit;
  }

  lemma NothingWritten(u: Unit)
    ensures !u.planned ==> forall key :: !Writes(u, key)
  {
  }

  lemma JobWrites(c0: Catalog, u: Unit, job: Job)
    requires JobOk(c0, u, job)
    ensures Writes(u, job.key)
  {
  }

  ghost predicate WrittenBy(units: seq<Unit>, key: Key) {
    exists u :: u in units && Writes(u, key)
  }

  ghost predicate AllSteady(c0: Catalog, units: seq<Unit>, done: set<Key>) {
    forall u | u in units && u.planned :: Steady(c0, u, done)
  }

  ghost predicate AllStable(c0: Catalog, units: seq<Unit>) {
    forall u | u in units && u.planned :: Stable(c0, u)
  }

  lemma StableIsSteady(c0: Catalog, units: seq<Unit>, done: set<Key>)
    requires forall u | u in units :: Prepared(c0, u)
    ensures AllStable(c0, units) ==> AllSteady(c0, units, done)
    ensures AllSteady(c0, units, {})
  {
    hide Prepared, StateDigits, Digits, PlannedDays;
    forall u | u in units && u.planned
      ensures Steady(c0, u, {}) && (Stable(c0, u) ==> Steady(c0, u, done))
    {
      MetasOk(c0, u);
      DigitsBetween(c0, u, u.daily, done);
    }
    hide Steady, Stable;
  }

  lemma SteadyPrefix(c0: Catalog, units: seq<Unit>, n: nat, done: set<Key>)
    requires 0 < n <= |units| && AllSteady(c0, units[..n], done)
    ensures AllSteady(c0, units[..n - 1], done) && (units[n - 1].planned ==> Steady(c0, units[n - 1], done))
  {
    assert units[..n] == units[..n - 1] + [units[n - 1]];
  }

  /** What other units have written leaves a unit steady. */
  lemma SteadyAfterOthers(c0: Catalog, units: seq<Unit>, n: nat, done: set<Key>, done': set<Key>)
    requires n < |units| && NoSharedWrites(units) && Prepared(c0, units[n]) && units[n].planned && done <= done'
    requires forall key | key in done' :: key in done || WrittenBy(units[..n], key)
    ensures Steady(c0, units[n], done) <==> Steady(c0, units[n], done')
  {
    var v := units[n];
    forall key | WrittenBy(units[..n], key) ensures !Writes(v, key) {
      var u :| u in units[..n] && Writes(u, key);
      var i :| 0 <= i < n && units[i] == u;
    }
    hide Writes, StateDigits, Prepared, NoSharedWrites, WrittenBy;
    forall m | m in v.daily
      ensures DailyKey(v, m) in c0 && (m.digits != map[] ==> (DailyKey(v, m) in done <==> DailyKey(v, m) in done'))
    {
      DigitsOfMeta(c0, v, m);
    }
    DigitsSame(c0, v, v.daily, done, done');
  }

  /** A run over the first units of a packet, from any mixed state. */
  lemma {:induction false} RunKeepsMixed(c0: Catalog, units: seq<Unit>, n: nat, done: set<Key>, p: Progress, crash: Option<nat>)
    returns (done': set<Key>)
    requires Packet(c0, units) && NoSharedWrites(units) && Mixed(c0, units, done, p.catalog)
    requires p.outcome.Going? && n <= |units| && AllSteady(c0, units[..n], done)
    ensures var r := Apply(p, units[..n], crash);
            && Mixed(c0, units, done', r.catalog) && done <= done'
            && (forall key | key in done' :: key in done || WrittenBy(units[..n], key))
            && (r.outcome.Going? ==> forall key | WrittenBy(units[..n], key) :: key in done')
            && (!r.outcome.Going? ==> r.outcome.Crashed? && crash == Some(r.writes))
            && ((forall key | WrittenBy(units[..n], key) :: key in done) ==> r == p)
  {
    hide Packet, NoSharedWrites, Mixed, ApplyUnit, Writes, AllSteady, Steady, Prepared;
    if n == 0 {
      assert units[..0] == [];
      return done;
    }
    hide WrittenBy;
    SteadyPrefix(c0, units, n, done);
    done' := RunKeepsMixed(c0, units, n - 1, done, p, crash);
    PreparedAt(c0, units, n - 1);
    ApplyLast(p, units, crash, n - 1);
    WrittenBySnoc(units, n - 1);
    var before := Apply(p, units[..n - 1], crash);
    hide Apply;
    if before.outcome.Going? {
      if units[n - 1].planned { SteadyAfterOthers(c0, units, n - 1, done, done'); }
      done' := UnitKeepsMixed(c0, units, done', before, units[n - 1], crash);
    }
  }

  lemma PreparedAt(c0: Catalog, units: seq<Unit>, n: nat)
    requires Packet(c0, units) && n < |units|
    ensures units[n] in units && Prepared(c0, units[n])
  {
    hide Prepared;
  }

  lemma ApplyLast(p: Progress, units: seq<Unit>, crash: Option<nat>, n: nat)
    requires n < |units|
    ensures var before := Apply(p, units[..n], crash);
            Apply(p, units[..n + 1], crash) == if before.outcome.Going? then ApplyUnit(before, units[n], crash) else before
  {
    assert units[..n + 1][..n] == units[..n];
  }

  lemma WrittenBySnoc(units: seq<Unit>, n: nat)
    requires n < |units|
    ensures forall key :: WrittenBy(units[..n + 1], key) <==> WrittenBy(units[..n], key) || Writes(units[n], key)
  {
    assert units[..n + 1] == units[..n] + [units[n]];
  }

  lemma MixedUnique(c0: Catalog, units: seq<Unit>, done: set<Key>, done': set<Key>, c: Catalog, c': Catalog)
    requires NoSharedWrites(units) && Mixed(c0, units, done, c) && Mixed(c0, units, done', c')
    requires forall key | key in c0 :: key in done <==> key in done'
    ensures c == c'
  {
    forall key | key in c0 ensures c[key] == c'[key] {
      if key in done {
        var u :| u in units && Writes(u, key) && c[key] == Published(Touched(u, key, c0[key].bars));
        var v :| v in units && Writes(v, key) && c'[key] == Published(Touched(v, key, c0[key].bars));
        OneWriter(units, u, v, key);
      }
    }
  }

  /** Runs that each stop after some number of commits, one after another. */
  ghost function Interrupted(c: Catalog, units: seq<Unit>, crashes: seq<nat>): Catalog {
    if crashes == [] then c
    else ApplyRun(Interrupted(c, units, crashes[..|crashes| - 1]), units, Some(crashes[|crashes| - 1])).catalog
  }

  lemma FullRun(c0: Catalog, units: seq<Unit>, done: set<Key>, c: Catalog, crash: Option<nat>) returns (done': set<Key>)
    requires Packet(c0, units) && NoSharedWrites(units) && Mixed(c0, units, done, c) && AllSteady(c0, units, done)
    requires forall key | key in done :: WrittenBy(units, key)
    ensures var r := ApplyRun(c, units, crash);
            && Mixed(c0, units, done', r.catalog)
            && (forall key | key in done' :: WrittenBy(units, key))
            && (r.outcome.Going? ==> forall key :: WrittenBy(units, key) <==> key in done')
            && (!r.outcome.Going? ==> r.outcome.Crashed? && crash == Some(r.writes))
            && ((forall key | WrittenBy(units, key) :: key in done) ==> r == Progress(c, 0, Going))
  {
    hide Packet, NoSharedWrites, Mixed, Apply, WrittenBy, AllSteady;
    assert units[..|units|] == units;
    done' := RunKeepsMixed(c0, units, |units|, done, Progress(c, 0, Going), crash);
  }

  lemma {:induction false} InterruptedMixed(c0: Catalog, units: seq<Unit>, crashes: seq<nat>) returns (done: set<Key>)
    requires Packet(c0, units) && NoSharedWrites(units) && AllStable(c0, units)
    ensures Mixed(c0, units, done, Interrupted(c0, units, crashes)) && forall key | key in done :: WrittenBy(units, key)
  {
    if crashes == [] {
      return {};
    }
    hide Packet, NoSharedWrites, Mixed, ApplyRun, WrittenBy, AllStable, AllSteady;
    done := InterruptedMixed(c0, units, crashes[..|crashes| - 1]);
    StableIsSteady(c0, units, done);
    done := FullRun(c0, units, done, Interrupted(c0, units, crashes[..|crashes| - 1]), Some(crashes[|crashes| - 1]));
  }

  /** Crash convergence: after any number of runs, each stopped anywhere, one more run of the same
      packet finishes and reaches exactly the catalog of one uninterrupted run; and a further run
      writes nothing. */
  lemma Converges(c0: Catalog, units: seq<Unit>, crashes: seq<nat>)
    requires Packet(c0, units) && NoSharedWrites(units) && AllStable(c0, units)
    ensures var whole, resumed := ApplyRun(c0, units, None), ApplyRun(Interrupted(c0, units, crashes), units, None);
            && whole.outcome.Going? && resumed.outcome.Going?
            && resumed.catalog == whole.catalog
            && ApplyRun(whole.catalog, units, None) == Progress(whole.catalog, 0, Going)
  {
    assert Mixed(c0, units, {}, c0);
    hide Packet, NoSharedWrites, Mixed, ApplyRun, WrittenBy, Interrupted, AllStable, AllSteady;
    var whole := ApplyRun(c0, units, None);
    StableIsSteady(c0, units, {});
    var done := FullRun(c0, units, {}, c0, None);
    var some := InterruptedMixed(c0, units, crashes);
    StableIsSteady(c0, units, some);
    StableIsSteady(c0, units, done);
    var all := FullRun(c0, units, some, Interrupted(c0, units, crashes), None);
    MixedUnique(c0, units, done, all, whole.catalog, ApplyRun(Interrupted(c0, units, crashes), units, None).catalog);
    var again := FullRun(c0, units, done, whole.catalog, None);
  }

  // ----- when a packet cannot be applied -----

  lemma PacketPrefix(c0: Catalog, units: seq<Unit>, n: nat)
    requires Packet(c0, units) && n <= |units|
    ensures Packet(c0, units[..n])
  {
    assert forall u | u in units[..n] :: u in units;
  }

  /** The first unit that would write what an earlier one writes. */
  lemma {:induction false} FirstShared(units: seq<Unit>, n: nat) returns (j: nat, key: Key)
    requires n <= |units| && !NoSharedWrites(units[..n])
    ensures j < n && NoSharedWrites(units[..j]) && Writes(units[j], key) && WrittenBy(units[..j], key)
  {
    hide Writes;
    if !NoSharedWrites(units[..n - 1]) {
      j, key := FirstShared(units, n - 1);
    } else {
      j := n - 1;
      var a, b, k :| 0 <= a < b < |units[..n]| && Writes(units[..n][a], k) && Writes(units[..n][b], k);
      key := k;
      assert b == n - 1;
      assert units[..j][a] == units[a];
    }
  }

  lemma OtherInPrefix(units: seq<Unit>, j: nat, v: Unit)
    requires j < |units| && v in units[..j] && DisjointWeeks(units) && v.contract == units[j].contract
    ensures v.end != units[j].end && Elems(v.days) !! Elems(units[j].days)
  {
    var i :| 0 <= i < j && units[i] == v;
  }

  /** A daily partition another unit has written is refused by a unit that must change it too. */
  lemma SharedDaily(original: Part, u: Unit, m: PartMeta, corrected: map<Date, int>)
    requires PreparedDaily(original, u, m) && Increasing(original.bars) && m.corrected != map[]
    requires corrected.Keys !! Elems(u.days)
    requires WithPrepared(original.bars, corrected) != original.bars
    ensures CheckDailyPart(DailyKey(u, m), Published(WithPrepared(original.bars, corrected)), m).Err?
  {
    var after := WithPrepared(original.bars, corrected);
    var d :| d in m.corrected;
    OnPrepared(original.bars, corrected, d);
    OnFinds(original.bars, d);
    assert On(after, d) == On(original.bars, d);
    PreparedInPlace(original.bars, corrected);
    assert DaysOf(after) == DaysOf(original.bars);
    PresentWhenDistinct(after, m.corrected);
  }

  lemma SharedWeekly(original: Part, u: Unit, planned: seq<Bar>, week: seq<Bar>, digits: nat, end: int, turnover: int)
    requires PreparedWeekly(original, u, planned) && u.weekly.rewritten && end != u.end
    requires Rewritten(original.bars, end, turnover) != original.bars
    ensures CheckWeeklyPart(Published(Rewritten(original.bars, end, turnover)), u, week, digits).Err?
  {
    EndingAtRewritten(original.bars, end, turnover, u.end);
    hide Rewritten;
  }

  lemma WriterChanges(c0: Catalog, v: Unit, key: Key)
    requires CatalogOk(c0) && Prepared(c0, v) && Writes(v, key)
    ensures key in c0 && Touched(v, key, c0[key].bars) != c0[key].bars
  {
    WritesIsOwn(c0, v, key);
    var bars := c0[key].bars;
    if key.Daily? {
      CorrectedHasMeta(v, v.daily, key);
      var m :| m in v.daily && DailyKey(v, m) == key && m.corrected == CorrectedIn(v, v.daily, key);
      assert PreparedDaily(c0[key], v, m);
      var d :| d in m.corrected;
      OnPrepared(bars, m.corrected, d);
      OnFinds(bars, d);
      assert On(WithPrepared(bars, m.corrected), d) != On(bars, d);
    } else {
      EndingAtRewritten(bars, v.end, v.weekly.turnover, v.end);
      assert EndingAt(Rewritten(bars, v.end, v.weekly.turnover), v.end) != EndingAt(bars, v.end);
    }
  }

  lemma {:induction false} OneBadDay(c: Catalog, u: Unit, metas: seq<PartMeta>, m: PartMeta)
    requires m in metas && CheckDaily(c, u, m).Err?
    ensures CheckDays(c, u, metas).Err?
  {
    hide CheckDaily;
    var n := |metas| - 1;
    if m != metas[n] {
      assert metas == metas[..n] + [metas[n]];
      OneBadDay(c, u, metas[..n], m);
    }
  }

  lemma SharedDailyIsRefused(c0: Catalog, u: Unit, v: Unit, key: Key, c: Catalog)
    requires CatalogOk(c0) && Prepared(c0, u) && Prepared(c0, v) && key.Daily? && Writes(u, key) && Writes(v, key)
    requires Elems(u.days) !! Elems(v.days) && key in c && key in c0
    requires c[key] == Published(Touched(v, key, c0[key].bars)) && Touched(v, key, c0[key].bars) != c0[key].bars
    ensures Check(c, u).Err?
  {
    WritesIsOwn(c0, v, key);
    CorrectedHasMeta(u, u.daily, key);
    var m :| m in u.daily && DailyKey(u, m) == key && m.corrected == CorrectedIn(u, u.daily, key);
    hide CheckDailyPart, WithPrepared, CorrectedIn, PreparedDaily, PreparedWeekly, StateDigits, CatalogOk, CheckDays;
    assert PreparedDaily(c0[key], u, m);
    assert Increasing(c0[key].bars) by { KeyIsPublishable(c0, key); }
    SharedDaily(c0[key], u, m, CorrectedIn(v, v.daily, key));
    OneBadDay(c, u, u.daily, m);
  }

  lemma KeyIsPublishable(c: Catalog, key: Key)
    requires CatalogOk(c) && key in c
    ensures Publishable(key, c[key].bars)
  {
  }

  lemma SharedWeeklyIsRefused(c0: Catalog, u: Unit, v: Unit, key: Key, c: Catalog)
    requires Prepared(c0, u) && key.Weekly? && Writes(u, key) && Writes(v, key)
    requires u.end != v.end && key in c && key in c0
    requires c[key] == Published(Touched(v, key, c0[key].bars)) && Touched(v, key, c0[key].bars) != c0[key].bars
    ensures Check(c, u).Err?
  {
    hide CheckWeeklyPart, CheckDays, Rewritten, PreparedWeekly, PreparedDaily, StateDigits, PlannedDays, Sort, DaysOf, Elems;
    if CheckDays(c, u, u.daily).Ok? {
      var week := CheckDays(c, u, u.daily).value;
      SharedWeekly(c0[key], u, PlannedDays(c0, u, u.daily), Sort(DayOrder, week.bars), week.digits, v.end, v.weekly.turnover);
    }
  }

  lemma SharedIsRefused(c0: Catalog, units: seq<Unit>, j: nat, key: Key, done: set<Key>, c: Catalog)
    requires Packet(c0, units) && j < |units| && Mixed(c0, units[..j], done, c)
    requires Writes(units[j], key) && key in done
    ensures Check(c, units[j]).Err?
  {
    var u := units[j];
    PreparedIn(c0, units, u);
    hide Prepared, Check, Touched, PreparedWeekly, PlannedDays, CatalogOk;
    WritesIsOwn(c0, u, key);
    var v :| v in units[..j] && Writes(v, key) && c[key] == Published(Touched(v, key, c0[key].bars));
    PreparedIn(c0, units, v);
    WritesIsOwn(c0, v, key);
    OtherInPrefix(units, j, v);
    WriterChanges(c0, v, key);
    hide Packet, Mixed, Writes;
    if key.Daily? { SharedDailyIsRefused(c0, u, v, key, c); } else { SharedWeeklyIsRefused(c0, u, v, key, c); }
  }

  /** Refusal is not atomic: when two units of a packet write the same partition, the run from the very
      catalog the packet was prepared from is refused at the later one, and everything the units before
      it planned stays committed. */
  lemma SharedWritesAreRefused(c0: Catalog, units: seq<Unit>)
    requires Packet(c0, units) && !NoSharedWrites(units)
    ensures var r := ApplyRun(c0, units, None);
            && r.outcome.Refused?
            && exists j :: 0 < j < |units| && r.catalog == ApplyRun(c0, units[..j], None).catalog && r.catalog != c0
  {
    assert units[..|units|] == units;
    var j, key := FirstShared(units, |units|);
    PacketPrefix(c0, units, j);
    assert Mixed(c0, units[..j], {}, c0);
    hide Packet, NoSharedWrites, Mixed, Writes, Check, Commits, Touched, ApplyRun, WrittenBy, AllSteady;
    StableIsSteady(c0, units[..j], {});
    var done := FullRun(c0, units[..j], {}, c0, None);
    var before := ApplyRun(c0, units[..j], None);
    PrefixChanges(c0, units, j, key, done, before.catalog);
    SharedIsRefused(c0, units, j, key, done, before.catalog);
    PlannedWriter(units[j], key);
    RefusedAt(c0, units, j);
  }

  /** Whatever a unit is refused for, a moved preimage, a drifted turnover or a week that differs in more than
      turnover, the run ends there and what the units before it committed stays. */
  lemma RefusedAt(c: Catalog, units: seq<Unit>, j: nat)
    requires j < |units| && units[j].planned && ApplyRun(c, units[..j], None).outcome.Going?
    requires Check(ApplyRun(c, units[..j], None).catalog, units[j]).Err?
    ensures var before := ApplyRun(c, units[..j], None);
            ApplyRun(c, units, None) == before.(outcome := Refused(Check(before.catalog, units[j]).error))
  {
    hide Check, Commits;
    ApplySnoc(Progress(c, 0, Going), units, None, j);
    ApplyStop(Progress(c, 0, Going), units, None, j + 1);
  }

  lemma PlannedWriter(u: Unit, key: Key)
    requires Writes(u, key)
    ensures u.planned
  {
  }

  lemma PrefixChanges(c0: Catalog, units: seq<Unit>, j: nat, key: Key, done: set<Key>, c: Catalog)
    requires j < |units| && Packet(c0, units[..j]) && Mixed(c0, units[..j], done, c) && key in done && WrittenBy(units[..j], key)
    ensures c != c0 && 0 < j
  {
    var w :| w in units[..j] && Writes(w, key);
    WriterChanges(c0, w, key);
    var v :| v in units[..j] && Writes(v, key) && c[key] == Published(Touched(v, key, c0[key].bars));
    WriterChanges(c0, v, key);
    assert c[key].bars != c0[key].bars;
  }

  /** A packet applies to the catalog it was prepared from exactly when no two of its units write the
      same partition. */
  lemma AppliesExactly(c0: Catalog, units: seq<Unit>)
    requires Packet(c0, units)
    ensures ApplyRun(c0, units, None).outcome.Going? <==> NoSharedWrites(units)
  {
    if NoSharedWrites(units) { var done := FinishedRun(c0, units); } else { SharedWritesAreRefused(c0, units); }
  }

  // ----- what a run changes -----

  /** The frame of any run, finished or not: every partition keeps its bars, their order, days and all
      fields but turnover, and a turnover changes only in a week of the packet. */
  lemma RunChangesOnlyTurnovers(c0: Catalog, units: seq<Unit>, crash: Option<nat>)
    requires Packet(c0, units) && NoSharedWrites(units)
    ensures var c := ApplyRun(c0, units, crash).catalog;
            && c.Keys == c0.Keys
            && forall key | key in c0 ::
                 && OnlyTurnoverDiffers(c0[key].bars, c[key].bars)
                 && (c[key] != c0[key] ==> WrittenBy(units, key))
                 && forall i | 0 <= i < |c0[key].bars| && c[key].bars[i] != c0[key].bars[i] :: Covered(units, key, c0[key].bars[i])
  {
    assert Mixed(c0, units, {}, c0);
    StableIsSteady(c0, units, {});
    var done := FullRun(c0, units, {}, c0, crash);
    var c := ApplyRun(c0, units, crash).catalog;
    hide ApplyRun, Publishable, Touched, OnlyTurnoverDiffers, NoSharedWrites, DisjointWeeks;
    forall key | key in c0
      ensures OnlyTurnoverDiffers(c0[key].bars, c[key].bars) && (c[key] != c0[key] ==> WrittenBy(units, key))
      ensures forall i | 0 <= i < |c0[key].bars| && c[key].bars[i] != c0[key].bars[i] :: Covered(units, key, c0[key].bars[i])
    {
      if key in done {
        var u :| u in units && Writes(u, key) && c[key] == Published(Touched(u, key, c0[key].bars));
        TouchedKeepsFrame(u, key, c0[key].bars);
        TouchedCovered(c0, units, u, key);
      } else {
        SameFrame(c0[key].bars);
      }
    }
  }

  lemma SameFrame(bars: seq<Bar>)
    ensures OnlyTurnoverDiffers(bars, bars)
  {
  }

  /** Some unit of the packet is about the week of this bar. */
  ghost predicate Covered(units: seq<Unit>, key: Key, b: Bar) {
    exists u :: u in units && u.contract == key.contract && if key.Daily? then b.day in u.days else b.end == u.end
  }

  lemma TouchedCovered(c0: Catalog, units: seq<Unit>, u: Unit, key: Key)
    requires CatalogOk(c0) && Prepared(c0, u) && u in units && Writes(u, key)
    ensures key in c0
    ensures var bars, after := c0[key].bars, Touched(u, key, c0[key].bars);
            |after| == |bars| && forall i | 0 <= i < |bars| && after[i] != bars[i] :: Covered(units, key, bars[i])
  {
    WritesIsOwn(c0, u, key);
    var bars := c0[key].bars;
    if key.Daily? {
      PreparedInPlace(bars, CorrectedIn(u, u.daily, key));
    } else {
      EndingAtRewritten(bars, u.end, u.weekly.turnover, u.end);
    }
  }

  // ----- a finished run closes the conflicts -----

  /** The stored days of a unit's week, partition after partition. */
  ghost function StoredDays(c: Catalog, u: Unit, metas: seq<PartMeta>): seq<Bar>
    requires forall m | m in metas :: DailyKey(u, m) in c
  {
    if metas == [] then []
    else
      StoredDays(c, u, metas[..|metas| - 1]) + InWeek(c[DailyKey(u, metas[|metas| - 1])].bars, Elems(u.days))
  }

  /** Every partition some unit writes is rewritten. */
  ghost predicate Finished(c0: Catalog, units: seq<Unit>, done: set<Key>, c: Catalog) {
    Mixed(c0, units, done, c) && forall key :: WrittenBy(units, key) <==> key in done
  }

  lemma DailyWhenFinished(c0: Catalog, units: seq<Unit>, done: set<Key>, c: Catalog, u: Unit, m: PartMeta)
    requires Packet(c0, units) && NoSharedWrites(units) && Finished(c0, units, done, c) && u in units && m in u.daily
    ensures var key := DailyKey(u, m);
            key in c && key in c0
            && InWeek(c[key].bars, Elems(u.days)) == PartDays(c0, u, m)
  {
    var key := DailyKey(u, m);
    assert Prepared(c0, u) && PreparedDaily(c0[key], u, m);
    CorrectedOfMeta(u, u.daily, m);
    var bars := c0[key].bars;
    hide DisjointWeeks, NoSharedWrites, Prepared, PreparedDaily, WithPrepared, InWeek;
    if Writes(u, key) {
      assert WrittenBy(units, key);
      var v :| v in units && Writes(v, key) && c[key] == Published(Touched(v, key, bars));
      OneWriter(units, u, v, key);
    } else {
      assert m.corrected == map[] by { if m.corrected != map[] { PlansWhatItCorrects(c0, u, m); } }
      NothingPrepared(bars);
      if key in done {
        var v :| v in units && Writes(v, key) && c[key] == Published(Touched(v, key, bars));
        WritesIsOwn(c0, v, key);
        OtherUnit(units, u, v);
        PreparedInPlace(bars, CorrectedIn(v, v.daily, key));
        OtherDaysStay(bars, CorrectedIn(v, v.daily, key), Elems(u.days));
      }
    }
  }

  lemma PlansWhatItCorrects(c0: Catalog, u: Unit, m: PartMeta)
    requires Prepared(c0, u) && m in u.daily && m.corrected != map[]
    ensures u.planned
  {
  }

  lemma {:induction false} DaysWhenFinished(c0: Catalog, units: seq<Unit>, done: set<Key>, c: Catalog, u: Unit, n: nat)
    requires Packet(c0, units) && NoSharedWrites(units) && Finished(c0, units, done, c) && u in units && n <= |u.daily|
    ensures forall m | m in u.daily :: DailyKey(u, m) in c0 && DailyKey(u, m) in c
    ensures StoredDays(c, u, u.daily[..n]) == PlannedDays(c0, u, u.daily[..n])
  {
    hide Packet, NoSharedWrites, Finished, InWeek, WithPrepared;
    forall m | m in u.daily { DailyWhenFinished(c0, units, done, c, u, m); }
    if n == 0 {
      assert u.daily[..0] == [];
    } else {
      DaysWhenFinished(c0, units, done, c, u, n - 1);
      assert u.daily[..n][..n - 1] == u.daily[..n - 1];
    }
  }

  lemma WeeklyWhenFinished(c0: Catalog, units: seq<Unit>, done: set<Key>, c: Catalog, u: Unit)
    requires Packet(c0, units) && NoSharedWrites(units) && Finished(c0, units, done, c) && u in units
    ensures WeeklyKey(u) in c0 && WeeklyKey(u) in c
    ensures var weekly := EndingAt(c0[WeeklyKey(u)].bars, u.end);
            weekly.Some? && EndingAt(c[WeeklyKey(u)].bars, u.end) == Some(weekly.value.(turnover := Some(u.weekly.turnover)))
  {
    var key := WeeklyKey(u);
    assert Prepared(c0, u) && PreparedWeekly(c0[key], u, PlannedDays(c0, u, u.daily));
    var bars := c0[key].bars;
    hide DisjointWeeks, NoSharedWrites, Rewritten, PlannedDays, Sort;
    EndingAtRewritten(bars, u.end, u.weekly.turnover, u.end);
    if Writes(u, key) {
      assert WrittenBy(units, key);
      var v :| v in units && Writes(v, key) && c[key] == Published(Touched(v, key, bars));
      OneWriter(units, u, v, key);
    } else if key in done {
      var v :| v in units && Writes(v, key) && c[key] == Published(Touched(v, key, bars));
      WritesIsOwn(c0, v, key);
      OtherUnit(units, u, v);
      EndingAtRewritten(bars, v.end, v.weekly.turnover, u.end);
    }
  }

  /** The repair closes the conflict: after a finished run the stored bar of every week of the packet is,
      in every field, the aggregate of its stored days. */
  lemma WeeksAgreeAfterwards(c0: Catalog, units: seq<Unit>, u: Unit)
    requires Packet(c0, units) && NoSharedWrites(units) && u in units
    ensures var c := ApplyRun(c0, units, None).catalog;
            && WeeklyKey(u) in c && (forall m | m in u.daily :: DailyKey(u, m) in c)
            && var weekly := EndingAt(c[WeeklyKey(u)].bars, u.end);
               weekly.Some? && Aggregate(Sort(DayOrder, StoredDays(c, u, u.daily)), u.end) == Ok(weekly.value)
  {
    hide Packet, NoSharedWrites, Mixed, ApplyRun, Aggregate, PlannedDays, StoredDays, Sort, Finished, EndingAt, Realigned;
    var c := ApplyRun(c0, units, None).catalog;
    var done := FinishedRun(c0, units);
    var planned := PlannedDaysOf(c0, units, u);
    WeeklyWhenFinished(c0, units, done, c, u);
    DaysWhenFinished(c0, units, done, c, u, |u.daily|);
    assert u.daily[..|u.daily|] == u.daily;
    var before := EndingAt(c0[WeeklyKey(u)].bars, u.end).value;
    EndingAtFinds(c0[WeeklyKey(u)].bars, u.end);
    RealignedIsAggregate(before, Sort(DayOrder, planned));
    RealignedSets(before, Sort(DayOrder, planned));
  }

  lemma FinishedRun(c0: Catalog, units: seq<Unit>) returns (done: set<Key>)
    requires Packet(c0, units) && NoSharedWrites(units)
    ensures Finished(c0, units, done, ApplyRun(c0, units, None).catalog) && ApplyRun(c0, units, None).outcome.Going?
  {
    assert Mixed(c0, units, {}, c0);
    StableIsSteady(c0, units, {});
    hide Packet, NoSharedWrites, Mixed, ApplyRun, WrittenBy, AllSteady;
    done := FullRun(c0, units, {}, c0, None);
  }

  lemma RealignedSets(weekly: Bar, week: seq<Bar>)
    requires Realigned(weekly, week).Ok?
    ensures Realigned(weekly, week).value == weekly.(turnover := Realigned(weekly, week).value.turnover)
  {
  }

  lemma PlannedDaysOf(c0: Catalog, units: seq<Unit>, u: Unit) returns (planned: seq<Bar>)
    requires Packet(c0, units) && u in units
    ensures forall m | m in u.daily :: DailyKey(u, m) in c0
    ensures planned == PlannedDays(c0, u, u.daily)
    ensures WeeklyKey(u) in c0 && EndingAt(c0[WeeklyKey(u)].bars, u.end).Some?
    ensures var r := Realigned(EndingAt(c0[WeeklyKey(u)].bars, u.end).value, Sort(DayOrder, planned));
            r.Ok? && r.value.turnover == Some(u.weekly.turnover)
  {
    assert Prepared(c0, u);
    planned := PlannedDays(c0, u, u.daily);
  }

  // ----- running again after a finished run -----

  /** The first planned unit whose text has changed. */
  lemma {:induction false} FirstUnsteady(c0: Catalog, units: seq<Unit>, n: nat, done: set<Key>) returns (j: nat)
    requires n <= |units| && !AllSteady(c0, units[..n], done)
    ensures j < n && AllSteady(c0, units[..j], done) && units[j].planned && !Steady(c0, units[j], done)
  {
    hide Steady;
    if !AllSteady(c0, units[..n - 1], done) {
      j := FirstUnsteady(c0, units, n - 1, done);
    } else {
      j := n - 1;
      assert units[..n] == units[..n - 1] + [units[n - 1]];
    }
  }

  /** A run that meets a unit whose text has changed ends there; what it did before that is what it does on
      the units before. */
  lemma RefusedAtUnsteady(c0: Catalog, units: seq<Unit>, done: set<Key>, c: Catalog)
    returns (j: nat)
    requires Packet(c0, units) && NoSharedWrites(units) && Mixed(c0, units, done, c) && !AllSteady(c0, units, done)
    ensures j < |units|
    ensures var before := ApplyRun(c, units[..j], None);
            && before.outcome.Going? && ApplyRun(c, units, None) == before.(outcome := Refused(W1_TURNOVER_DRIFT))
            && ((forall key | WrittenBy(units, key) :: key in done) ==> before == Progress(c, 0, Going))
  {
    hide Packet, NoSharedWrites, Mixed, Prepared, Steady, AllSteady, WrittenBy, Check, Apply;
    assert units[..|units|] == units;
    j := FirstUnsteady(c0, units, |units|, done);
    var done' := RunKeepsMixed(c0, units, j, done, Progress(c, 0, Going), None);
    WrittenByPrefix(units, j);
    PreparedAt(c0, units, j);
    SteadyAfterOthers(c0, units, j, done, done');
    UnsteadyDrifts(c0, units, done', ApplyRun(c, units[..j], None).catalog, units[j]);
    RefusedAt(c, units, j);
  }

  lemma WrittenByPrefix(units: seq<Unit>, j: nat)
    requires j <= |units|
    ensures forall key | WrittenBy(units[..j], key) :: WrittenBy(units, key)
  {
    hide Writes;
    forall key | WrittenBy(units[..j], key) ensures WrittenBy(units, key) {
      var u :| u in units[..j] && Writes(u, key);
      assert u in units;
    }
  }

  /** Resuming, exactly: from a catalog in which just the partitions in `done` are rewritten, the run finishes
      in the catalog of one uninterrupted run if and only if the text of every planned unit still comes out
      as prepared; otherwise it is refused as drifted. */
  lemma ResumesFrom(c0: Catalog, units: seq<Unit>, done: set<Key>, c: Catalog)
    requires Packet(c0, units) && NoSharedWrites(units) && Mixed(c0, units, done, c)
    requires forall key | key in done :: WrittenBy(units, key)
    ensures var r := ApplyRun(c, units, None);
            if AllSteady(c0, units, done) then r.outcome.Going? && r.catalog == ApplyRun(c0, units, None).catalog
            else r.outcome == Refused(W1_TURNOVER_DRIFT)
  {
    hide Packet, NoSharedWrites, Mixed, ApplyRun, AllSteady, WrittenBy;
    if AllSteady(c0, units, done) {
      var final := FinishedRun(c0, units);
      var all := FullRun(c0, units, done, c, None);
      MixedUnique(c0, units, all, final, ApplyRun(c, units, None).catalog, ApplyRun(c0, units, None).catalog);
    } else {
      var j := RefusedAtUnsteady(c0, units, done, c);
    }
  }

  lemma OwnIsDone(c0: Catalog, units: seq<Unit>, done: set<Key>, c: Catalog, u: Unit)
    requires Finished(c0, units, done, c) && u in units
    ensures forall key | Writes(u, key) :: key in done
  {
    hide Writes, Mixed;
    forall key | Writes(u, key) ensures key in done { assert WrittenBy(units, key); }
  }

  lemma RereadInFinished(c0: Catalog, units: seq<Unit>, done: set<Key>, c: Catalog, u: Unit)
    requires Packet(c0, units) && Finished(c0, units, done, c) && u in units && u.planned
    ensures Steady(c0, u, done) <==> Stable(c0, u)
  {
    hide Writes, StateDigits, PlannedDays, Packet, Prepared, Digits, Finished, PreparedWeekly, DaysOf, Elems;
    PreparedIn(c0, units, u);
    OwnIsDone(c0, units, done, c, u);
    forall m | m in u.daily ensures DailyKey(u, m) !in done ==> m.digits == map[] { DigitsOfMeta(c0, u, m); }
    DigitsReread(c0, u, u.daily, done);
  }

  /** Running a finished packet again writes nothing if and only if every prepared weekly text is stable;
      otherwise it is refused, because the text of the sum read back from the store has more digits. */
  lemma RerunExactly(c0: Catalog, units: seq<Unit>)
    requires Packet(c0, units) && NoSharedWrites(units)
    ensures var final := ApplyRun(c0, units, None).catalog;
            ApplyRun(final, units, None)
            == Progress(final, 0, if AllStable(c0, units) then Going else Refused(W1_TURNOVER_DRIFT))
  {
    hide Packet, NoSharedWrites, ApplyRun, Stable, Steady, Mixed, WrittenBy;
    var final := ApplyRun(c0, units, None).catalog;
    var done := FinishedRun(c0, units);
    forall u | u in units && u.planned ensures Steady(c0, u, done) <==> Stable(c0, u) {
      RereadInFinished(c0, units, done, final, u);
    }
    assert AllSteady(c0, units, done) <==> AllStable(c0, units);
    hide AllStable, AllSteady;
    if AllStable(c0, units) {
      var again := FullRun(c0, units, done, final, None);
    } else {
      var j := RefusedAtUnsteady(c0, units, done, final);
    }
  }

  lemma {:induction false} LateCommits(p: Progress, jobs: seq<Job>, limit: nat)
    requires var r := Commits(p, jobs, None); r.outcome.Going? && r.writes <= limit
    ensures Commits(p, jobs, Some(limit)) == Commits(p, jobs, None) && p.writes <= Commits(p, jobs, None).writes
    ensures p.outcome.Going?
  {
    hide ReadsBack;
    if jobs != [] { LateCommits(p, jobs[..|jobs| - 1], limit); }
  }

  lemma {:induction false} LateApply(p: Progress, units: seq<Unit>, limit: nat)
    requires var r := Apply(p, units, None); r.outcome.Going? && r.writes <= limit
    ensures Apply(p, units, Some(limit)) == Apply(p, units, None)
  {
    hide Check, Commits;
    if units != [] {
      var before, u := Apply(p, units[..|units| - 1], None), units[|units| - 1];
      if u.planned { LateCommits(before, Check(before.catalog, u).value, limit); }
      LateApply(p, units[..|units| - 1], limit);
    }
  }

  /** Every interrupted run of a packet can be resumed if and only if every prepared weekly text is stable:
      a run that dies right after its last commit leaves what running again is refused on. */
  lemma ResumesExactly(c0: Catalog, units: seq<Unit>)
    requires Packet(c0, units) && NoSharedWrites(units)
    ensures AllStable(c0, units)
       <==> forall crashes: seq<nat> :: ApplyRun(Interrupted(c0, units, crashes), units, None).outcome.Going?
  {
    hide Packet, NoSharedWrites, AllStable;
    if AllStable(c0, units) {
      forall crashes: seq<nat> ensures ApplyRun(Interrupted(c0, units, crashes), units, None).outcome.Going? {
        Converges(c0, units, crashes);
      }
    } else {
      var whole := ApplyRun(c0, units, None);
      var done := FinishedRun(c0, units);
      LateApply(Progress(c0, 0, Going), units, whole.writes);
      hide Apply;
      var crashes: seq<nat> := [whole.writes];
      assert crashes[..0] == [];
      assert Interrupted(c0, units, crashes) == whole.catalog;
      RerunExactly(c0, units);
      assert !ApplyRun(Interrupted(c0, units, crashes), units, None).outcome.Going?;
    }
  }
}
