/**
 * Preparing a turnover realignment: each week is planned from the stored months and one fresh daily
 * snapshot, and the packet of several planned weeks is what the runs need to converge.
 */
module RealignPlan {
  import opened Wrappers
  import opened Seqs
  import opened Sorting
  import opened Bars
  import opened Overlay
  import opened OverlayTheorems
  import opened Realign
  import opened RealignTheorems

  datatype MonthRef = MonthRef(year: int, month: int, name: FileName)

  /** One judged week: its days, its stored daily months and its stored weekly month. */
  datatype Week = Week(contract: string, end: int, days: seq<Date>, daily: seq<MonthRef>, weekly: MonthRef)

  const D1_PREIMAGE_MISMATCH := "D1_PREIMAGE_MISMATCH"
  const D1_QUALITY := "D1_SOURCE_QUALITY_PRESENT"
  const W1_PREIMAGE_MISMATCH := "W1_PREIMAGE_MISMATCH"
  const W1_QUALITY := "W1_SOURCE_QUALITY_PRESENT"
  const MISSING_DATES := "SOURCE_RESPONSE_MISSING_DATES"
  const PROVIDER_MONTH_EMPTY := "PROVIDER_MONTH_EMPTY"

  function ReadPart(c: Catalog, key: Key, name: FileName, mismatch: string, quality: string): Result<Part, string> {
    if key !in c then Err(PARTITION_MISSING)
    else if c[key].name != name then Err(mismatch)
    else if c[key].quality then Err(quality)
    else Ok(c[key])
  }

  function ReadMonth(c: Catalog, contract: string, ref: MonthRef): Result<Part, string> {
    ReadPart(c, Daily(contract, ref.year, ref.month), ref.name, D1_PREIMAGE_MISMATCH, D1_QUALITY)
  }

  function ReadMonths(c: Catalog, contract: string, refs: seq<MonthRef>): Result<seq<Part>, string> {
    if refs == [] then Ok([])
    else
      var before := ReadMonths(c, contract, refs[..|refs| - 1]);
      var last := ReadMonth(c, contract, refs[|refs| - 1]);
      if before.Err? then before else if last.Err? then Err(last.error) else Ok(before.value + [last.value])
  }

  /** The fresh rows of some stored days, each given the end of its stored bar. */
  function ProviderRows(rows: map<Date, Bar>, stored: seq<Bar>): Result<seq<Bar>, string> {
    if stored == [] then Ok([])
    else
      var before, last := ProviderRows(rows, stored[..|stored| - 1]), stored[|stored| - 1];
      if before.Err? then before
      else if last.day !in rows then Err(MISSING_DATES)
      else Ok(before.value + [rows[last.day].(end := last.end, day := last.day)])
  }

  /** A month after the overlay, and the days it changed; a month with nothing stale stays as it is. */
  datatype Month = Month(bars: seq<Bar>, changed: seq<Date>)

  function InRef(provider: seq<Bar>, ref: MonthRef): seq<Bar> {
    Filter((b: Bar) => b.day.year == ref.year && b.day.month == ref.month, provider)
  }

  ghost function CorrectMonth(ref: MonthRef, bars: seq<Bar>, provider: seq<Bar>): Result<Month, string> {
    if InRef(provider, ref) == [] then Err(PROVIDER_MONTH_EMPTY)
    else
      var r := Overlaid(bars, InRef(provider, ref));
      if r == Err(NO_STALE_DAY) then Ok(Month(bars, []))
      else if r.Err? then Err(r.error)
      else Ok(Month(r.value.0, r.value.1))
  }

  ghost function CorrectMonths(refs: seq<MonthRef>, parts: seq<Part>, provider: seq<Bar>): Result<seq<Month>, string>
    requires |refs| == |parts|
  {
    if refs == [] then Ok([])
    else
      var n := |refs| - 1;
      var before := CorrectMonths(refs[..n], parts[..n], provider);
      if before.Err? then before
      else
        var last := CorrectMonth(refs[n], parts[n].bars, provider);
        if last.Err? then Err(last.error) else Ok(before.value + [last.value])
  }

  function AllBars(months: seq<seq<Bar>>): seq<Bar> {
    if months == [] then [] else AllBars(months[..|months| - 1]) + months[|months| - 1]
  }

  function PartBars(parts: seq<Part>): seq<seq<Bar>> { Map((p: Part) => p.bars, parts) }
  function MonthBars(months: seq<Month>): seq<seq<Bar>> { Map((m: Month) => m.bars, months) }

  function Corrections(month: Month): map<Date, int> {
    map d | d in month.changed && On(month.bars, d).Some? && On(month.bars, d).value.turnover.Some?
      :: On(month.bars, d).value.turnover.value
  }

  /** The fractional digits a fresh turnover prints with; the provider's numbers are cut to eighteen. */
  function TextDigits(digits: map<Date, nat>, d: Date): nat {
    if d !in digits then 0 else if digits[d] > STORED_DIGITS then STORED_DIGITS else digits[d]
  }

  function TextOf(month: Month, digits: map<Date, nat>): map<Date, nat> {
    map d | d in Corrections(month) :: TextDigits(digits, d)
  }

  function MetaOf(ref: MonthRef, part: Part, month: Month, digits: map<Date, nat>): PartMeta {
    PartMeta(ref.year, ref.month, part.name, Sha(part), |part.bars|, Corrections(month), TextOf(month, digits))
  }

  /** The fractional digits of the corrected weekly sum. */
  function WeekDigits(months: seq<Month>, digits: map<Date, nat>, days: set<Date>): nat {
    if months == [] then 0
    else
      var last := months[|months| - 1];
      Most(WeekDigits(months[..|months| - 1], digits, days), Digits(InWeek(last.bars, days), TextOf(last, digits)))
  }

  function MetasOf(refs: seq<MonthRef>, parts: seq<Part>, months: seq<Month>, digits: map<Date, nat>): (r: seq<PartMeta>)
    requires |refs| == |parts| == |months|
    ensures |r| == |refs| && forall i | 0 <= i < |r| :: r[i] == MetaOf(refs[i], parts[i], months[i], digits)
  {
    seq(|refs|, i requires 0 <= i < |refs| => MetaOf(refs[i], parts[i], months[i], digits))
  }

  predicate AnyChanged(months: seq<Month>) {
    exists m :: m in months && m.changed != []
  }

  lemma {:induction false} ReadLength(c: Catalog, contract: string, refs: seq<MonthRef>)
    ensures ReadMonths(c, contract, refs).Ok? ==>
              var parts := ReadMonths(c, contract, refs).value;
              |parts| == |refs| && forall i | 0 <= i < |refs| :: ReadMonth(c, contract, refs[i]) == Ok(parts[i])
  {
    if refs != [] {
      ReadLength(c, contract, refs[..|refs| - 1]);
    }
  }

  lemma {:induction false} CorrectLength(refs: seq<MonthRef>, parts: seq<Part>, provider: seq<Bar>)
    requires |refs| == |parts|
    ensures CorrectMonths(refs, parts, provider).Ok? ==>
              var months := CorrectMonths(refs, parts, provider).value;
              && |months| == |refs|
              && forall i | 0 <= i < |refs| :: CorrectMonth(refs[i], parts[i].bars, provider) == Ok(months[i])
  {
    hide CorrectMonth;
    if refs != [] {
      var n := |refs| - 1;
      var before, last := CorrectMonths(refs[..n], parts[..n], provider), CorrectMonth(refs[n], parts[n].bars, provider);
      CorrectLength(refs[..n], parts[..n], provider);
      if before.Ok? && last.Ok? {
        var months := before.value + [last.value];
        forall i | 0 <= i < |refs| ensures CorrectMonth(refs[i], parts[i].bars, provider) == Ok(months[i]) {
          if i < n { assert refs[..n][i] == refs[i] && parts[..n][i] == parts[i]; }
        }
      }
    }
  }

  /** The second half of planning a week, once everything stored has been read. */
  ghost function PlanRead(week: Week, rows: map<Date, Bar>, digits: map<Date, nat>, parts: seq<Part>, w1: Part): Result<Unit, string>
    requires |parts| == |week.daily|
  {
    var weekly, days := EndingAt(w1.bars, week.end), Elems(week.days);
    var stored := Sort(DayOrder, InWeek(AllBars(PartBars(parts)), days));
    if weekly.None? then Err(W1_BAR_MISSING)
    else if DaysOf(stored) != week.days then Err(WEEK_DATES_MISMATCH)
    else
      var provider := ProviderRows(rows, stored);
      if provider.Err? then Err(provider.error)
      else
        var months := CorrectMonths(week.daily, parts, provider.value);
        if months.Err? then Err(months.error)
        else
          CorrectLength(week.daily, parts, provider.value);
          PlanMonths(week, digits, parts, w1, weekly.value, months.value)
  }

  function PlanMonths(week: Week, digits: map<Date, nat>, parts: seq<Part>, w1: Part, weekly: Bar, months: seq<Month>): Result<Unit, string>
    requires |parts| == |week.daily| == |months|
  {
    var aligned := Realigned(weekly, Sort(DayOrder, InWeek(AllBars(MonthBars(months)), Elems(week.days))));
    if aligned.Err? then Err(aligned.error)
    else
      var rewritten := aligned.value.turnover != weekly.turnover;
      Ok(Unit(week.contract, week.end, week.days, rewritten || AnyChanged(months),
              MetasOf(week.daily, parts, months, digits),
              WeeklyMeta(week.weekly.year, week.weekly.month, w1.name, Sha(w1), |w1.bars|,
                         OrZero(aligned.value.turnover), WeekDigits(months, digits, Elems(week.days)), rewritten)))
  }

  ghost function PlanWeek(c: Catalog, week: Week, rows: map<Date, Bar>, digits: map<Date, nat>): Result<Unit, string> {
    var parts := ReadMonths(c, week.contract, week.daily);
    var w1 := ReadPart(c, Weekly(week.contract, week.weekly.year, week.weekly.month), week.weekly.name,
                       W1_PREIMAGE_MISMATCH, W1_QUALITY);
    if parts.Err? then Err(parts.error)
    else if w1.Err? then Err(w1.error)
    else
      ReadLength(c, week.contract, week.daily);
      PlanRead(week, rows, digits, parts.value, w1.value)
  }

  // ----- the method -----

  method Months(c: Catalog, contract: string, refs: seq<MonthRef>) returns (r: Result<seq<Part>, string>)
    ensures r == ReadMonths(c, contract, refs)
  {
    var parts: seq<Part> := [];
    for i := 0 to |refs|
      invariant ReadMonths(c, contract, refs[..i]) == Ok(parts)
    {
      assert refs[..i + 1][..i] == refs[..i];
      var part := ReadMonth(c, contract, refs[i]);
      if part.Err? {
        ReadStops(c, contract, refs, i + 1);
        return Err(part.error);
      }
      parts := parts + [part.value];
    }
    assert refs[..|refs|] == refs;
    r := Ok(parts);
  }

  lemma {:induction false} ReadStops(c: Catalog, contract: string, refs: seq<MonthRef>, i: nat)
    requires i <= |refs| && ReadMonths(c, contract, refs[..i]).Err?
    ensures ReadMonths(c, contract, refs) == ReadMonths(c, contract, refs[..i])
    decreases |refs|
  {
    if i < |refs| {
      assert refs[..|refs| - 1][..i] == refs[..i];
      ReadStops(c, contract, refs[..|refs| - 1], i);
    } else {
      assert refs[..i] == refs;
    }
  }

  method CorrectedMonths(refs: seq<MonthRef>, parts: seq<Part>, provider: seq<Bar>) returns (r: Result<seq<Month>, string>)
    requires |refs| == |parts|
    ensures r == CorrectMonths(refs, parts, provider)
  {
    hide Overlaid, InRef;
    var months: seq<Month> := [];
    for i := 0 to |refs|
      invariant CorrectMonths(refs[..i], parts[..i], provider) == Ok(months)
    {
      assert refs[..i + 1][..i] == refs[..i] && parts[..i + 1][..i] == parts[..i];
      var here := InRef(provider, refs[i]);
      if here == [] {
        CorrectStops(refs, parts, provider, i + 1);
        return Err(PROVIDER_MONTH_EMPTY);
      }
      var overlaid := OverlayProviderTurnover(parts[i].bars, here);
      var month := Month(parts[i].bars, []);
      if overlaid.Ok? {
        month := Month(overlaid.value.0, overlaid.value.1);
      } else if overlaid.error != NO_STALE_DAY {
        CorrectStops(refs, parts, provider, i + 1);
        return Err(overlaid.error);
      }
      months := months + [month];
    }
    assert refs[..|refs|] == refs && parts[..|parts|] == parts;
    r := Ok(months);
  }

  lemma {:induction false} CorrectStops(refs: seq<MonthRef>, parts: seq<Part>, provider: seq<Bar>, i: nat)
    requires |refs| == |parts| && i <= |refs| && CorrectMonths(refs[..i], parts[..i], provider).Err?
    ensures CorrectMonths(refs, parts, provider) == CorrectMonths(refs[..i], parts[..i], provider)
    decreases |refs|
  {
    var n := |refs| - 1;
    if i <= n {
      assert refs[..n][..i] == refs[..i] && parts[..n][..i] == parts[..i];
      CorrectStops(refs[..n], parts[..n], provider, i);
    } else {
      assert refs[..i] == refs && parts[..i] == parts;
    }
  }

  method Planned(c: Catalog, week: Week, rows: map<Date, Bar>, digits: map<Date, nat>) returns (r: Result<Unit, string>)
    ensures r == PlanWeek(c, week, rows, digits)
  {
    hide ReadMonths, ReadMonth, CorrectMonths, PlanMonths, Sort, InWeek, AllBars, ProviderRows, DaysOf, EndingAt;
    var parts := Months(c, week.contract, week.daily);
    if parts.Err? {
      return Err(parts.error);
    }
    ReadLength(c, week.contract, week.daily);
    var w1 := ReadPart(c, Weekly(week.contract, week.weekly.year, week.weekly.month), week.weekly.name,
                       W1_PREIMAGE_MISMATCH, W1_QUALITY);
    if w1.Err? {
      return Err(w1.error);
    }
    var weekly := EndingAt(w1.value.bars, week.end);
    if weekly.None? {
      return Err(W1_BAR_MISSING);
    }
    var stored := Sort(DayOrder, InWeek(AllBars(PartBars(parts.value)), Elems(week.days)));
    if DaysOf(stored) != week.days {
      return Err(WEEK_DATES_MISMATCH);
    }
    var provider := ProviderRows(rows, stored);
    if provider.Err? {
      return Err(provider.error);
    }
    var months := CorrectedMonths(week.daily, parts.value, provider.value);
    if months.Err? {
      return Err(months.error);
    }
    CorrectLength(week.daily, parts.value, provider.value);
    r := PlanMonths(week, digits, parts.value, w1.value, weekly.value, months.value);
  }

  // ----- a planned week is prepared -----

  lemma CorrectionsOf(month: Month)
    requires forall d | d in month.changed :: On(month.bars, d).Some? && On(month.bars, d).value.turnover.Some?
    ensures Corrections(month).Keys == Elems(month.changed)
    ensures forall d | d in month.changed :: On(month.bars, d).value.turnover == Some(Corrections(month)[d])
    ensures Corrections(month) == map[] <==> month.changed == []
  {
    if month.changed != [] { assert month.changed[0] in Corrections(month); }
  }

  /** A corrected month is the stored one with the recorded corrections, each of which differs from what
      is stored and is what the provider says. */
  ghost predicate MonthRecorded(bars: seq<Bar>, provider: seq<Bar>, month: Month) {
    && NoDup(DaysOf(bars)) && month.bars == WithPrepared(bars, Corrections(month))
    && (Corrections(month) == map[] <==> month.changed == [])
    && forall d | d in Corrections(month) ::
         && d in DaysOf(provider)
         && On(bars, d).Some? && On(bars, d).value.turnover != Some(Corrections(month)[d])
         && On(provider, d).Some? && On(provider, d).value.turnover == Some(Corrections(month)[d])
  }

  /** A month whose bars were replaced only on the changed days, there by a known turnover of the provider. */
  ghost predicate ChangedOnly(bars: seq<Bar>, provider: seq<Bar>, month: Month) {
    && |month.bars| == |bars| && NoDup(DaysOf(bars)) && DaysOf(month.bars) == DaysOf(bars)
    && (forall d | d in month.changed :: d in DaysOf(bars) && d in DaysOf(provider))
    && forall i | 0 <= i < |bars| ::
         && month.bars[i] == bars[i].(turnover := month.bars[i].turnover)
         && (month.bars[i] != bars[i] <==> bars[i].day in month.changed)
         && (bars[i].day in month.changed ==>
               var p := On(provider, bars[i].day);
               p.Some? && p.value.turnover.Some? && month.bars[i].turnover == p.value.turnover)
  }

  lemma ChangedDay(bars: seq<Bar>, provider: seq<Bar>, month: Month, d: Date)
    requires ChangedOnly(bars, provider, month) && d in month.changed
    ensures On(month.bars, d).Some? && On(month.bars, d).value.turnover.Some? && On(bars, d).Some?
    ensures On(bars, d).value.turnover != On(month.bars, d).value.turnover
    ensures On(provider, d).Some? && On(provider, d).value.turnover == On(month.bars, d).value.turnover
  {
    var i :| 0 <= i < |bars| && DaysOf(bars)[i] == d;
    OnDistinct(bars, bars[i]);
    OnDistinct(month.bars, month.bars[i]);
  }

  lemma ChangedIsPrepared(bars: seq<Bar>, provider: seq<Bar>, month: Month)
    requires ChangedOnly(bars, provider, month) && Increasing(bars)
    requires Corrections(month).Keys == Elems(month.changed)
    requires forall d | d in month.changed :: On(month.bars, d).Some? && On(month.bars, d).value.turnover == Some(Corrections(month)[d])
    ensures month.bars == WithPrepared(bars, Corrections(month))
  {
    PreparedInPlace(bars, Corrections(month));
    hide Corrections, WithPrepared;
    forall i | 0 <= i < |bars| ensures month.bars[i] == Prepare(bars[i], Corrections(month)) {
      OnDistinct(month.bars, month.bars[i]);
      assert bars[i].day in month.changed <==> bars[i].day in Corrections(month);
    }
  }

  lemma StaleMonthRecorded(bars: seq<Bar>, provider: seq<Bar>)
    requires Increasing(bars) && Overlaid(bars, provider).Ok?
    ensures var r := Overlaid(bars, provider).value; MonthRecorded(bars, provider, Month(r.0, r.1))
  {
    OverlayTouchesOnlyTurnover(bars, provider);
    var (corrected, changed) := Overlaid(bars, provider).value;
    var month := Month(corrected, changed);
    assert DaysOf(corrected) == DaysOf(bars);
    assert ChangedOnly(bars, provider, month);
    hide Corrected, Changed, FirstError, WithPrepared, Overlaid, ChangedOnly, DaysOf, On, Corrections;
    forall d | d in changed { ChangedDay(bars, provider, month, d); }
    CorrectionsOf(month);
    ChangedIsPrepared(bars, provider, month);
    ChangedInBoth(bars, provider, month);
  }

  lemma ChangedInBoth(bars: seq<Bar>, provider: seq<Bar>, month: Month)
    requires ChangedOnly(bars, provider, month)
    ensures NoDup(DaysOf(bars)) && forall d | d in month.changed :: d in DaysOf(provider)
  {
  }

  lemma MonthIsRecorded(ref: MonthRef, bars: seq<Bar>, provider: seq<Bar>)
    requires Increasing(bars) && CorrectMonth(ref, bars, provider).Ok?
    ensures MonthRecorded(bars, InRef(provider, ref), CorrectMonth(ref, bars, provider).value)
  {
    hide InRef, Corrected, FirstError, Changed;
    if Overlaid(bars, InRef(provider, ref)).Ok? {
      StaleMonthRecorded(bars, InRef(provider, ref));
    } else {
      NothingPrepared(bars);
      assert Corrections(Month(bars, [])) == map[];
    }
  }

  lemma {:induction false} ProviderDays(rows: map<Date, Bar>, stored: seq<Bar>)
    requires ProviderRows(rows, stored).Ok?
    ensures var provider := ProviderRows(rows, stored).value;
            && |provider| == |stored|
            && forall i | 0 <= i < |stored| ::
                 && provider[i].day == stored[i].day && stored[i].day in rows
                 && provider[i].turnover == rows[stored[i].day].turnover
  {
    if stored != [] {
      ProviderDays(rows, stored[..|stored| - 1]);
    }
  }

  lemma {:induction false} DaysOfInWeek(a: seq<Bar>, b: seq<Bar>, days: set<Date>)
    requires DaysOf(a) == DaysOf(b) && |a| == |b|
    ensures DaysOf(InWeek(a, days)) == DaysOf(InWeek(b, days))
  {
    if a != [] {
      assert DaysOf(a)[0] == DaysOf(b)[0];
      assert DaysOf(a[1..]) == DaysOf(a)[1..] && DaysOf(b[1..]) == DaysOf(b)[1..];
      DaysOfInWeek(a[1..], b[1..], days);
      DaysOfStep(a, days);
      DaysOfStep(b, days);
    }
  }

  lemma DaysOfStep(a: seq<Bar>, days: set<Date>)
    requires a != []
    ensures DaysOf(InWeek(a, days)) == (if a[0].day in days then [a[0].day] else []) + DaysOf(InWeek(a[1..], days))
  {
  }

  lemma DaysConcat(a: seq<Bar>, b: seq<Bar>)
    ensures DaysOf(a + b) == DaysOf(a) + DaysOf(b)
  {
  }

  /** The months of a plan, one after another: their bars are those the runs will plan with, and they
      hold the stored days. */
  lemma {:induction false} MonthsArePlanned(c: Catalog, u: Unit, parts: seq<Part>, months: seq<Month>, n: nat)
    requires n <= |u.daily| == |parts| == |months|
    requires forall i | 0 <= i < |parts| :: DailyKey(u, u.daily[i]) in c && c[DailyKey(u, u.daily[i])] == parts[i]
    requires forall i | 0 <= i < |parts| ::
               Increasing(parts[i].bars) && months[i].bars == WithPrepared(parts[i].bars, u.daily[i].corrected)
    ensures forall m | m in u.daily :: DailyKey(u, m) in c
    ensures InWeek(AllBars(MonthBars(months[..n])), Elems(u.days)) == PlannedDays(c, u, u.daily[..n])
    ensures |AllBars(MonthBars(months[..n]))| == |AllBars(PartBars(parts[..n]))|
    ensures DaysOf(AllBars(MonthBars(months[..n]))) == DaysOf(AllBars(PartBars(parts[..n])))
  {
    if n == 0 {
      assert months[..0] == [] && parts[..0] == [] && u.daily[..0] == [];
      assert MonthBars([]) == [] && PartBars([]) == [];
    } else {
      var k := n - 1;
      hide WithPrepared, DaysOf, AllBars, MonthBars, PartBars, InWeek, Increasing, Elems;
      MonthsArePlanned(c, u, parts, months, k);
      PreparedKeepsDays(parts[k].bars, u.daily[k].corrected);
      var corrected := months[k].bars;
      assert u.daily[..n][..k] == u.daily[..k];
      BarsSnoc(parts, months, k);
      InWeekConcat(AllBars(MonthBars(months[..k])), corrected, Elems(u.days));
      DaysConcat(AllBars(MonthBars(months[..k])), corrected);
      DaysConcat(AllBars(PartBars(parts[..k])), parts[k].bars);
    }
  }

  lemma PreparedKeepsDays(bars: seq<Bar>, corrected: map<Date, int>)
    requires Increasing(bars)
    ensures |WithPrepared(bars, corrected)| == |bars| && DaysOf(WithPrepared(bars, corrected)) == DaysOf(bars)
  {
    PreparedInPlace(bars, corrected);
  }

  lemma InWeekConcat(a: seq<Bar>, b: seq<Bar>, days: set<Date>)
    ensures InWeek(a + b, days) == InWeek(a, days) + InWeek(b, days)
  {
    var keep := (b: Bar) => b.day in days;
    FilterConcat(keep, a, b);
    assert InWeek(a + b, days) == Filter(keep, a + b) by { SameFilter(a + b, days, keep); }
    SameFilter(a, days, keep);
    SameFilter(b, days, keep);
  }

  lemma {:induction false} SameFilter(s: seq<Bar>, days: set<Date>, keep: Bar -> bool)
    requires forall b :: keep(b) <==> b.day in days
    ensures InWeek(s, days) == Filter(keep, s)
  {
    if s != [] {
      SameFilter(s[1..], days, keep);
    }
  }

  lemma BarsSnoc(parts: seq<Part>, months: seq<Month>, k: nat)
    requires k < |parts| == |months|
    ensures AllBars(MonthBars(months[..k + 1])) == AllBars(MonthBars(months[..k])) + months[k].bars
    ensures AllBars(PartBars(parts[..k + 1])) == AllBars(PartBars(parts[..k])) + parts[k].bars
  {
    assert MonthBars(months[..k + 1])[..k] == MonthBars(months[..k]);
    assert PartBars(parts[..k + 1])[..k] == PartBars(parts[..k]);
  }

  lemma SortedDays(bars: seq<Bar>)
    ensures Elems(DaysOf(Sort(DayOrder, bars))) == Elems(DaysOf(bars))
  {
    SortSorts(DayOrder, bars);
    var sorted := Sort(DayOrder, bars);
    forall b ensures b in bars <==> b in sorted { assert b in multiset(bars) <==> b in multiset(sorted); }
    forall d ensures d in DaysOf(sorted) <==> d in DaysOf(bars) {
      if d in DaysOf(sorted) {
        var i :| 0 <= i < |sorted| && DaysOf(sorted)[i] == d;
        assert sorted[i] in sorted;
        DayIn(bars, sorted[i]);
      }
      if d in DaysOf(bars) {
        var i :| 0 <= i < |bars| && DaysOf(bars)[i] == d;
        assert bars[i] in bars;
        DayIn(sorted, bars[i]);
      }
    }
  }

  ghost predicate MonthOk(week: Week, rows: map<Date, Bar>, part: Part, month: Month) {
    && Increasing(part.bars) && NoDup(DaysOf(part.bars))
    && month.bars == WithPrepared(part.bars, Corrections(month))
    && (Corrections(month) == map[] <==> month.changed == [])
    && forall d | d in Corrections(month) ::
         && d in week.days && On(part.bars, d).Some?
         && On(part.bars, d).value.turnover != Some(Corrections(month)[d])
         && d in rows && rows[d].turnover == Some(Corrections(month)[d])
  }

  /** What one month of a plan records, and that its days are days of the week with the fresh turnover. */
  lemma PlannedMonth(c: Catalog, week: Week, rows: map<Date, Bar>, parts: seq<Part>, stored: seq<Bar>, provider: seq<Bar>,
                     months: seq<Month>, i: nat)
    requires CatalogOk(c) && |parts| == |week.daily| == |months| && i < |parts|
    requires DaysOf(stored) == week.days && ProviderRows(rows, stored) == Ok(provider)
    requires ReadMonth(c, week.contract, week.daily[i]) == Ok(parts[i])
    requires CorrectMonth(week.daily[i], parts[i].bars, provider) == Ok(months[i])
    ensures MonthOk(week, rows, parts[i], months[i])
  {
    var ref, part, month := week.daily[i], parts[i], months[i];
    assert Publishable(Daily(week.contract, ref.year, ref.month), part.bars);
    MonthIsRecorded(ref, part.bars, provider);
    ProviderDays(rows, stored);
    hide WithPrepared, Corrections, CorrectMonth, ProviderRows;
    var here := InRef(provider, ref);
    forall d | d in Corrections(month)
      ensures d in week.days && d in rows && rows[d].turnover == Some(Corrections(month)[d])
    {
      OnFinds(here, d);
      var p := On(here, d).value;
      assert p in provider;
      var k :| 0 <= k < |provider| && provider[k] == p;
      assert DaysOf(stored)[k] == d;
    }
  }

  lemma UnitIsPrepared(c: Catalog, week: Week, rows: map<Date, Bar>, digits: map<Date, nat>, parts: seq<Part>, w1: Part, weekly: Bar, months: seq<Month>, u: Unit)
    requires |parts| == |week.daily| == |months| && PlanMonths(week, digits, parts, w1, weekly, months) == Ok(u)
    requires forall i, j | 0 <= i < j < |week.daily| ::
               (week.daily[i].year, week.daily[i].month) != (week.daily[j].year, week.daily[j].month)
    requires forall i | 0 <= i < |parts| :: ReadMonth(c, week.contract, week.daily[i]) == Ok(parts[i])
    requires ReadPart(c, Weekly(week.contract, week.weekly.year, week.weekly.month), week.weekly.name,
                      W1_PREIMAGE_MISMATCH, W1_QUALITY) == Ok(w1)
    requires EndingAt(w1.bars, week.end) == Some(weekly)
    requires Elems(DaysOf(Sort(DayOrder, InWeek(AllBars(PartBars(parts)), Elems(week.days))))) == Elems(week.days)
    requires forall i | 0 <= i < |parts| :: MonthOk(week, rows, parts[i], months[i])
    ensures Prepared(c, u)
  {
    hide Sort, InWeek, AllBars, WithPrepared, Corrections, On, DaysOf, Increasing, NoDup, MonthOk, PreparedDaily, PlanMonths,
         ReadMonth, ReadPart, EndingAt, PreparedWeekly, PlannedDays, Elems, PartBars, MonthBars, WeekDigits, StateDigits, TextOf;
    UnitShape(week, digits, parts, w1, weekly, months, u);
    forall i | 0 <= i < |parts|
      ensures DailyKey(u, u.daily[i]) in c && c[DailyKey(u, u.daily[i])] == parts[i]
      ensures PreparedDaily(parts[i], u, u.daily[i]) && Increasing(parts[i].bars)
      ensures u.daily[i].corrected == Corrections(months[i]) && months[i].bars == WithPrepared(parts[i].bars, u.daily[i].corrected)
      ensures u.daily[i].corrected == map[] <==> months[i].changed == []
      ensures u.daily[i].digits == TextOf(months[i], digits)
    {
      PreparedMonth(c, week, rows, digits, week.daily[i], parts[i], months[i], u, u.daily[i]);
    }
    MonthsArePlanned(c, u, parts, months, |parts|);
    assert u.daily[..|parts|] == u.daily && months[..|parts|] == months && parts[..|parts|] == parts;
    ReadsKey(c, WeeklyKey(u), week.weekly.name, w1);
    WeekIsPlanned(c, week, digits, parts, w1, weekly, months, u);
    DigitsArePlanned(c, u, digits, months, |parts|);
    ChangedIsPlanned(u, months);
    forall m | m in u.daily ensures DailyKey(u, m) in c && PreparedDaily(c[DailyKey(u, m)], u, m) {
      var i :| 0 <= i < |u.daily| && u.daily[i] == m;
    }
  }

  /** The digits of a plan are those a run computes before it writes anything. */
  lemma {:induction false} DigitsArePlanned(c: Catalog, u: Unit, digits: map<Date, nat>, months: seq<Month>, n: nat)
    requires n <= |u.daily| == |months|
    requires forall i | 0 <= i < |months| :: DailyKey(u, u.daily[i]) in c && u.daily[i].digits == TextOf(months[i], digits)
    requires forall i | 0 <= i < |months| ::
               months[i].bars == WithPrepared(c[DailyKey(u, u.daily[i])].bars, u.daily[i].corrected)
    ensures forall m | m in u.daily :: DailyKey(u, m) in c
    ensures WeekDigits(months[..n], digits, Elems(u.days)) == StateDigits(c, u, u.daily[..n], {})
  {
    if n == 0 {
      assert months[..0] == [] && u.daily[..0] == [];
    } else {
      DigitsArePlanned(c, u, digits, months, n - 1);
      assert u.daily[..n][..n - 1] == u.daily[..n - 1] && months[..n][..n - 1] == months[..n - 1];
      hide InWeek, WithPrepared, Digits, TextOf;
    }
  }

  lemma ReadsKey(c: Catalog, key: Key, name: FileName, part: Part)
    requires ReadPart(c, key, name, W1_PREIMAGE_MISMATCH, W1_QUALITY) == Ok(part)
    ensures key in c && c[key] == part
  {
  }

  lemma UnitShape(week: Week, digits: map<Date, nat>, parts: seq<Part>, w1: Part, weekly: Bar, months: seq<Month>, u: Unit)
    requires |parts| == |week.daily| == |months| && PlanMonths(week, digits, parts, w1, weekly, months) == Ok(u)
    ensures u.contract == week.contract && u.end == week.end && u.days == week.days && |u.daily| == |parts|
    ensures forall i | 0 <= i < |parts| :: u.daily[i] == MetaOf(week.daily[i], parts[i], months[i], digits)
    ensures WeeklyKey(u) == Weekly(week.contract, week.weekly.year, week.weekly.month)
    ensures u.planned <==> u.weekly.rewritten || AnyChanged(months)
    ensures u.weekly.digits == WeekDigits(months, digits, Elems(week.days))
  {
    hide Sort, InWeek, AllBars, Corrections, MonthBars, WeekDigits, TextOf;
  }

  lemma PreparedMonth(c: Catalog, week: Week, rows: map<Date, Bar>, digits: map<Date, nat>, ref: MonthRef, part: Part, month: Month, u: Unit, m: PartMeta)
    requires ReadMonth(c, week.contract, ref) == Ok(part) && MonthOk(week, rows, part, month)
    requires u.contract == week.contract && u.days == week.days && m == MetaOf(ref, part, month, digits)
    ensures DailyKey(u, m) in c && c[DailyKey(u, m)] == part && PreparedDaily(part, u, m) && Increasing(part.bars)
    ensures m.corrected == Corrections(month) && month.bars == WithPrepared(part.bars, m.corrected)
    ensures m.corrected == map[] <==> month.changed == []
    ensures m.digits == TextOf(month, digits)
  {
    hide WithPrepared, Corrections, On, DaysOf, Increasing, NoDup;
  }

  lemma ChangedIsPlanned(u: Unit, months: seq<Month>)
    requires |months| == |u.daily|
    requires forall i | 0 <= i < |months| :: u.daily[i].corrected == map[] <==> months[i].changed == []
    ensures AnyChanged(months) <==> exists m :: m in u.daily && m.corrected != map[]
  {
    if AnyChanged(months) {
      var m :| m in months && m.changed != [];
      var i :| 0 <= i < |months| && months[i] == m;
      assert u.daily[i] in u.daily;
    }
    if m :| m in u.daily && m.corrected != map[] {
      var i :| 0 <= i < |u.daily| && u.daily[i] == m;
      assert months[i] in months;
    }
  }

  lemma WeekIsPlanned(c: Catalog, week: Week, digits: map<Date, nat>, parts: seq<Part>, w1: Part, weekly: Bar, months: seq<Month>, u: Unit)
    requires |parts| == |week.daily| == |months| && PlanMonths(week, digits, parts, w1, weekly, months) == Ok(u)
    requires forall m | m in u.daily :: DailyKey(u, m) in c
    requires ReadPart(c, WeeklyKey(u), week.weekly.name, W1_PREIMAGE_MISMATCH, W1_QUALITY) == Ok(w1)
    requires EndingAt(w1.bars, week.end) == Some(weekly)
    requires Elems(DaysOf(Sort(DayOrder, InWeek(AllBars(PartBars(parts)), Elems(week.days))))) == Elems(week.days)
    requires InWeek(AllBars(MonthBars(months)), Elems(u.days)) == PlannedDays(c, u, u.daily)
    requires |AllBars(MonthBars(months))| == |AllBars(PartBars(parts))|
    requires DaysOf(AllBars(MonthBars(months))) == DaysOf(AllBars(PartBars(parts)))
    ensures PreparedWeekly(w1, u, PlannedDays(c, u, u.daily))
  {
    hide Sort, InWeek, AllBars, DaysOf, PlannedDays, Elems;
    var days := Elems(week.days);
    SortedDays(InWeek(AllBars(PartBars(parts)), days));
    DaysOfInWeek(AllBars(MonthBars(months)), AllBars(PartBars(parts)), days);
  }

  /** Planning is sound: a planned week is prepared for the catalog it was planned from, and every
      turnover it corrects is the one the fresh snapshot has for that day. */
  lemma PlanIsPrepared(c: Catalog, week: Week, rows: map<Date, Bar>, digits: map<Date, nat>)
    requires CatalogOk(c) && PlanWeek(c, week, rows, digits).Ok?
    requires forall i, j | 0 <= i < j < |week.daily| ::
               (week.daily[i].year, week.daily[i].month) != (week.daily[j].year, week.daily[j].month)
    ensures var u := PlanWeek(c, week, rows, digits).value;
            && Prepared(c, u) && u.contract == week.contract && u.end == week.end && u.days == week.days
            && forall m, d | m in u.daily && d in m.corrected :: d in rows && rows[d].turnover == Some(m.corrected[d])
  {
    var u := PlanWeek(c, week, rows, digits).value;
    var parts, w1, weekly, stored, provider, months := PlanUnfolds(c, week, rows, digits);
    hide PlanWeek, PlanMonths, CatalogOk, CorrectMonth, ReadMonth, ReadPart, MonthOk, Prepared, PartBars, EndingAt, DaysOf, Elems;
    forall i | 0 <= i < |parts| ensures MonthOk(week, rows, parts[i], months[i]) {
      PlannedMonth(c, week, rows, parts, stored, provider, months, i);
    }
    UnitIsPrepared(c, week, rows, digits, parts, w1, weekly, months, u);
    CorrectionsAreFresh(week, rows, digits, parts, w1, weekly, months, u);
  }

  lemma CorrectionsAreFresh(week: Week, rows: map<Date, Bar>, digits: map<Date, nat>, parts: seq<Part>, w1: Part, weekly: Bar, months: seq<Month>, u: Unit)
    requires |parts| == |week.daily| == |months| && PlanMonths(week, digits, parts, w1, weekly, months) == Ok(u)
    requires forall i | 0 <= i < |parts| :: MonthOk(week, rows, parts[i], months[i])
    ensures u.contract == week.contract && u.end == week.end && u.days == week.days
    ensures forall m, d | m in u.daily && d in m.corrected :: d in rows && rows[d].turnover == Some(m.corrected[d])
  {
    hide Corrections, WithPrepared, On;
    forall m, d | m in u.daily && d in m.corrected ensures d in rows && rows[d].turnover == Some(m.corrected[d]) {
      var i :| 0 <= i < |u.daily| && u.daily[i] == m;
      assert MonthOk(week, rows, parts[i], months[i]);
    }
  }

  /** What a successful plan went through. */
  lemma PlanUnfolds(c: Catalog, week: Week, rows: map<Date, Bar>, digits: map<Date, nat>)
    returns (parts: seq<Part>, w1: Part, weekly: Bar, stored: seq<Bar>, provider: seq<Bar>, months: seq<Month>)
    requires PlanWeek(c, week, rows, digits).Ok?
    ensures |parts| == |week.daily| == |months|
    ensures forall i | 0 <= i < |parts| :: ReadMonth(c, week.contract, week.daily[i]) == Ok(parts[i])
    ensures ReadPart(c, Weekly(week.contract, week.weekly.year, week.weekly.month), week.weekly.name,
                     W1_PREIMAGE_MISMATCH, W1_QUALITY) == Ok(w1)
    ensures EndingAt(w1.bars, week.end) == Some(weekly)
    ensures stored == Sort(DayOrder, InWeek(AllBars(PartBars(parts)), Elems(week.days))) && DaysOf(stored) == week.days
    ensures ProviderRows(rows, stored) == Ok(provider)
    ensures forall i | 0 <= i < |parts| :: CorrectMonth(week.daily[i], parts[i].bars, provider) == Ok(months[i])
    ensures PlanMonths(week, digits, parts, w1, weekly, months) == PlanWeek(c, week, rows, digits)
  {
    hide ReadMonths, ReadMonth, CorrectMonths, PlanMonths, Sort, InWeek, AllBars, ProviderRows, DaysOf, EndingAt, CorrectMonth;
    parts := ReadMonths(c, week.contract, week.daily).value;
    w1 := ReadPart(c, Weekly(week.contract, week.weekly.year, week.weekly.month), week.weekly.name,
                   W1_PREIMAGE_MISMATCH, W1_QUALITY).value;
    ReadLength(c, week.contract, week.daily);
    weekly := EndingAt(w1.bars, week.end).value;
    stored := Sort(DayOrder, InWeek(AllBars(PartBars(parts)), Elems(week.days)));
    provider := ProviderRows(rows, stored).value;
    CorrectLength(week.daily, parts, provider);
    months := CorrectMonths(week.daily, parts, provider).value;
  }

  /** Several weeks planned from one catalog, each ending and trading on its own days, make a packet. */
  lemma PlansMakePacket(c: Catalog, weeks: seq<Week>, rows: seq<map<Date, Bar>>, digits: seq<map<Date, nat>>, units: seq<Unit>)
    requires CatalogOk(c) && |digits| == |rows| == |weeks| == |units|
    requires forall i | 0 <= i < |weeks| :: PlanWeek(c, weeks[i], rows[i], digits[i]) == Ok(units[i])
    requires forall w, i, j | w in weeks && 0 <= i < j < |w.daily| ::
               (w.daily[i].year, w.daily[i].month) != (w.daily[j].year, w.daily[j].month)
    requires forall i, j | 0 <= i < j < |weeks| && weeks[i].contract == weeks[j].contract ::
               weeks[i].end != weeks[j].end && Elems(weeks[i].days) !! Elems(weeks[j].days)
    ensures Packet(c, units)
  {
    hide PlanWeek, Prepared, CatalogOk;
    forall i | 0 <= i < |units|
      ensures Prepared(c, units[i])
      ensures units[i].contract == weeks[i].contract && units[i].end == weeks[i].end && units[i].days == weeks[i].days
    {
      PlanIsPrepared(c, weeks[i], rows[i], digits[i]);
    }
  }
}
