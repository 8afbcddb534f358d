/**
 * Which side of a weekly turnover conflict is stale, and the repair of a stale daily side: provider
 * turnover is laid over a stored month only where every other field agrees.
 */
module Overlay {
  import opened Wrappers
  import opened Seqs
  import opened Sorting
  import opened Bars

  const REPAIR_BARS_EMPTY := "REPAIR_BARS_EMPTY"
  const MONTH_DUPLICATE_DAY := "MONTH_BARS_DUPLICATE_DAY"
  const PROVIDER_DUPLICATE_DAY := "PROVIDER_WEEK_DUPLICATE_DAY"
  const DAY_MISSING := "PROVIDER_DAY_MISSING_FROM_MONTH"
  const BAR_END_MISMATCH := "BAR_END_MISMATCH"
  const BEYOND_TURNOVER := "BEYOND_TURNOVER_ASSUMPTION"
  const TURNOVER_MISSING := "PROVIDER_TURNOVER_MISSING"
  const NO_STALE_DAY := "NO_STALE_TURNOVER_DAY"
  const CORRECTED_WEEK_EMPTY := "CORRECTED_WEEK_EMPTY"
  const NON_TURNOVER_MISMATCH := "W1_NON_TURNOVER_MISMATCH"
  const NON_TURNOVER_MISMATCH_AFTER_D1 := "W1_NON_TURNOVER_MISMATCH_AFTER_D1"
  const TURNOVER_MISMATCH := "W1_TURNOVER_MISMATCH_AFTER_D1"
  const TRADING_DAY_MISMATCH := "W1_TRADING_DAY_MISMATCH"

  function DaysOf(bars: seq<Bar>): seq<Date> {
    Map((b: Bar) => b.day, bars)
  }

  /** The bar of one day. */
  function On(bars: seq<Bar>, day: Date): Option<Bar> {
    if bars == [] then None
    else if bars[0].day == day then Some(bars[0])
    else On(bars[1..], day)
  }

  lemma {:induction false} OnFinds(bars: seq<Bar>, day: Date)
    ensures On(bars, day).Some? ==> On(bars, day).value in bars && On(bars, day).value.day == day
    ensures On(bars, day).None? <==> forall b | b in bars :: b.day != day
  {
    if bars != [] {
      OnFinds(bars[1..], day);
      assert bars == [bars[0]] + bars[1..];
    }
  }

  lemma OneBarOnDay(bars: seq<Bar>, a: Bar, b: Bar)
    requires NoDup(DaysOf(bars)) && a in bars && b in bars && a.day == b.day
    ensures a == b
  {
    var i :| 0 <= i < |bars| && bars[i] == a;
    var j :| 0 <= j < |bars| && bars[j] == b;
    assert DaysOf(bars)[i] == DaysOf(bars)[j];
  }

  lemma OnDistinct(bars: seq<Bar>, b: Bar)
    requires NoDup(DaysOf(bars)) && b in bars
    ensures On(bars, b.day) == Some(b)
  {
    hide On, NoDup, DaysOf;
    OnFinds(bars, b.day);
    OneBarOnDay(bars, On(bars, b.day).value, b);
  }

  lemma {:induction false} OnSnoc(bars: seq<Bar>, b: Bar, day: Date)
    ensures On(bars + [b], day) == if On(bars, day).Some? then On(bars, day) else if b.day == day then Some(b) else None
  {
    if bars != [] {
      assert (bars + [b])[1..] == bars[1..] + [b];
      OnSnoc(bars[1..], b, day);
    }
  }

  function EndOf(b: Bar): real { b.end as real }

  ghost predicate Increasing(bars: seq<Bar>) {
    forall i, j | 0 <= i < j < |bars| :: bars[i].end < bars[j].end
  }

  /** A stored bar with the provider's turnover of its day, if the provider has that day. */
  function Replaced(b: Bar, provider: seq<Bar>): Bar {
    var p := On(provider, b.day);
    if p.Some? then b.(turnover := p.value.turnover) else b
  }

  function DayError(month: seq<Bar>, p: Bar): Option<string> {
    var stored := On(month, p.day);
    if stored.None? then Some(DAY_MISSING)
    else if stored.value.end != p.end then Some(BAR_END_MISMATCH)
    else if !SameButTurnover(stored.value, p) then Some(BEYOND_TURNOVER)
    else if stored.value.turnover != p.turnover && p.turnover.None? then Some(TURNOVER_MISSING)
    else None
  }

  function FirstError(month: seq<Bar>, provider: seq<Bar>): Option<string> {
    if provider == [] then None
    else
      var before := FirstError(month, provider[..|provider| - 1]);
      if before.Some? then before else DayError(month, provider[|provider| - 1])
  }

  predicate Stale(month: seq<Bar>, p: Bar) {
    On(month, p.day).Some? && On(month, p.day).value.turnover != p.turnover
  }

  function Changed(month: seq<Bar>, provider: seq<Bar>): seq<Date> {
    if provider == [] then []
    else
      var last := provider[|provider| - 1];
      Changed(month, provider[..|provider| - 1]) + if Stale(month, last) then [last.day] else []
  }

  function Corrected(month: seq<Bar>, provider: seq<Bar>): seq<Bar> {
    Sort(EndOf, Map((b: Bar) => Replaced(b, provider), month))
  }

  ghost function Overlaid(month: seq<Bar>, provider: seq<Bar>): Result<(seq<Bar>, seq<Date>), string> {
    if month == [] || provider == [] then Err(REPAIR_BARS_EMPTY)
    else if !NoDup(DaysOf(month)) then Err(MONTH_DUPLICATE_DAY)
    else if !NoDup(DaysOf(provider)) then Err(PROVIDER_DUPLICATE_DAY)
    else if FirstError(month, provider).Some? then Err(FirstError(month, provider).value)
    else if Changed(month, provider) == [] then Err(NO_STALE_DAY)
    else Ok((Corrected(month, provider), Changed(month, provider)))
  }

  lemma {:induction false} FirstErrorNone(month: seq<Bar>, provider: seq<Bar>)
    ensures FirstError(month, provider) == None <==> forall p | p in provider :: DayError(month, p) == None
    ensures FirstError(month, provider).Some? ==> exists p :: p in provider && DayError(month, p) == FirstError(month, provider)
  {
    if provider != [] {
      var n := |provider| - 1;
      FirstErrorNone(month, provider[..n]);
      assert provider == provider[..n] + [provider[n]];
    }
  }

  lemma {:induction false} FirstErrorPrefix(month: seq<Bar>, provider: seq<Bar>, i: nat)
    requires i < |provider| && FirstError(month, provider[..i]) == None && DayError(month, provider[i]).Some?
    ensures FirstError(month, provider) == DayError(month, provider[i])
    decreases |provider|
  {
    var n := |provider| - 1;
    if i < n {
      assert provider[..n][..i] == provider[..i];
      FirstErrorPrefix(month, provider[..n], i);
    }
  }

  lemma {:induction false} ChangedDays(month: seq<Bar>, provider: seq<Bar>)
    ensures forall d :: d in Changed(month, provider) <==> exists p :: p in provider && p.day == d && Stale(month, p)
    ensures NoDup(DaysOf(provider)) ==> NoDup(Changed(month, provider))
  {
    if provider != [] {
      var n := |provider| - 1;
      var init, last := provider[..n], provider[n];
      ChangedDays(month, init);
      assert provider == init + [last];
      if NoDup(DaysOf(provider)) {
        assert DaysOf(init) == DaysOf(provider)[..n];
        forall p | p in init ensures p.day != last.day {
          var i :| 0 <= i < n && init[i] == p;
          assert DaysOf(provider)[i] != DaysOf(provider)[n];
        }
        NoDupPrefix(DaysOf(provider), DaysOf(init));
        NoDupSnoc(Changed(month, init), last.day);
      }
    }
  }

  /** The dictionary from day to bar; repeated days show as a size mismatch. */
  method ByDay(bars: seq<Bar>) returns (days: map<Date, Bar>)
    ensures |days| == |bars| <==> NoDup(DaysOf(bars))
    ensures days.Keys == Elems(DaysOf(bars))
    ensures NoDup(DaysOf(bars)) ==> forall b | b in bars :: days[b.day] == b
  {
    days := map[];
    for i := 0 to |bars|
      invariant days.Keys == Elems(DaysOf(bars)[..i])
      invariant NoDup(DaysOf(bars)) ==> forall j | 0 <= j < i :: bars[j].day in days && days[bars[j].day] == bars[j]
    {
      assert DaysOf(bars)[..i + 1] == DaysOf(bars)[..i] + [bars[i].day];
      if NoDup(DaysOf(bars)) {
        forall j | 0 <= j < i ensures bars[j].day != bars[i].day { assert DaysOf(bars)[j] != DaysOf(bars)[i]; }
      }
      days := days[bars[i].day := bars[i]];
    }
    assert DaysOf(bars)[..|bars|] == DaysOf(bars);
    NoDupSize(DaysOf(bars));
    assert |days| == |days.Keys|;
  }

  lemma ReplacedNext(b: Bar, provider: seq<Bar>, i: nat)
    requires i < |provider| && NoDup(DaysOf(provider))
    ensures Replaced(b, provider[..i + 1])
         == if b.day == provider[i].day then b.(turnover := provider[i].turnover) else Replaced(b, provider[..i])
    ensures b.day == provider[i].day ==> Replaced(b, provider[..i]) == b
  {
    assert provider[..i + 1] == provider[..i] + [provider[i]];
    OnSnoc(provider[..i], provider[i], b.day);
    OnFinds(provider[..i], b.day);
    forall q | q in provider[..i] ensures q.day != provider[i].day {
      var j :| 0 <= j < i && provider[j] == q;
      assert DaysOf(provider)[j] != DaysOf(provider)[i];
    }
  }

  lemma ChangedNext(month: seq<Bar>, provider: seq<Bar>, i: nat)
    requires i < |provider|
    ensures Changed(month, provider[..i + 1])
         == Changed(month, provider[..i]) + if Stale(month, provider[i]) then [provider[i].day] else []
    ensures FirstError(month, provider[..i]) == None && DayError(month, provider[i]) == None
            ==> FirstError(month, provider[..i + 1]) == None
  {
    assert provider[..i + 1][..i] == provider[..i];
  }

  method OverlayProviderTurnover(month: seq<Bar>, provider: seq<Bar>) returns (r: Result<(seq<Bar>, seq<Date>), string>)
    ensures r == Overlaid(month, provider)
  {
    hide Replaced, FirstError, Changed, Corrected, Tracks, On, Sort, NoDup;
    if month == [] || provider == [] {
      return Err(REPAIR_BARS_EMPTY);
    }
    var byDay := ByDay(month);
    if |byDay| != |month| {
      return Err(MONTH_DUPLICATE_DAY);
    }
    forall b | b in month { DayIn(month, b); }
    NoDupSize(DaysOf(provider));
    if |Elems(DaysOf(provider))| != |provider| {
      return Err(PROVIDER_DUPLICATE_DAY);
    }
    var changed: seq<Date> := [];
    assert provider[..0] == [];
    TracksStart(byDay, month);
    hide DaysOf, Elems;
    for i := 0 to |provider|
      invariant Tracks(byDay, month, provider[..i])
      invariant changed == Changed(month, provider[..i]) && FirstError(month, provider[..i]) == None
    {
      var p := provider[i];
      TracksAt(byDay, month, provider, i);
      if DayError(month, p).Some? { FirstErrorPrefix(month, provider, i); }
      if p.day !in byDay {
        return Err(DAY_MISSING);
      }
      var stored := byDay[p.day];
      if stored.end != p.end {
        return Err(BAR_END_MISMATCH);
      }
      if !SameButTurnover(stored, p) {
        return Err(BEYOND_TURNOVER);
      }
      ChangedNext(month, provider, i);
      TracksNext(byDay, month, provider, i);
      if stored.turnover != p.turnover {
        if p.turnover.None? {
          return Err(TURNOVER_MISSING);
        }
        byDay := byDay[p.day := stored.(turnover := p.turnover)];
        changed := changed + [p.day];
      }
    }
    assert provider[..|provider|] == provider;
    if changed == [] {
      return Err(NO_STALE_DAY);
    }
    var corrected := InOrder(byDay, month, provider);
    r := Ok((corrected, changed));
  }

  /** The bars of the dictionary, sorted by their end. */
  method InOrder(byDay: map<Date, Bar>, month: seq<Bar>, ghost provider: seq<Bar>) returns (r: seq<Bar>)
    requires Tracks(byDay, month, provider)
    ensures r == Corrected(month, provider)
  {
    TracksAll(byDay, month, provider);
    var corrected := seq(|month|, i requires 0 <= i < |month| && month[i].day in byDay => byDay[month[i].day]);
    CorrectedIs(month, provider, corrected);
    r := Sort(EndOf, corrected);
  }

  /** The dictionary holds every stored bar with the turnovers laid over so far. */
  ghost predicate Tracks(byDay: map<Date, Bar>, month: seq<Bar>, provider: seq<Bar>) {
    byDay.Keys == Elems(DaysOf(month)) && forall b | b in month :: b.day in byDay && byDay[b.day] == Replaced(b, provider)
  }

  lemma TracksStart(byDay: map<Date, Bar>, month: seq<Bar>)
    requires byDay.Keys == Elems(DaysOf(month)) && forall b | b in month :: b.day in byDay && byDay[b.day] == b
    ensures Tracks(byDay, month, []) && Changed(month, []) == [] && FirstError(month, []) == None
  {
  }

  lemma TracksAll(byDay: map<Date, Bar>, month: seq<Bar>, provider: seq<Bar>)
    requires Tracks(byDay, month, provider)
    ensures forall i | 0 <= i < |month| :: month[i].day in byDay && byDay[month[i].day] == Replaced(month[i], provider)
  {
  }

  lemma TracksAt(byDay: map<Date, Bar>, month: seq<Bar>, provider: seq<Bar>, i: nat)
    requires i < |provider| && NoDup(DaysOf(provider)) && Tracks(byDay, month, provider[..i])
    ensures provider[i].day in byDay <==> On(month, provider[i].day).Some?
    ensures provider[i].day in byDay ==> byDay[provider[i].day] == On(month, provider[i].day).value
  {
    StoredOn(month, provider[i].day);
    var stored := On(month, provider[i].day);
    if stored.Some? { ReplacedNext(stored.value, provider, i); }
  }

  lemma TracksNext(byDay: map<Date, Bar>, month: seq<Bar>, provider: seq<Bar>, i: nat)
    requires i < |provider| && NoDup(DaysOf(provider)) && NoDup(DaysOf(month)) && Tracks(byDay, month, provider[..i])
    requires provider[i].day in byDay
    ensures Tracks(byDay[provider[i].day := byDay[provider[i].day].(turnover := provider[i].turnover)], month, provider[..i + 1])
    ensures byDay[provider[i].day].turnover == provider[i].turnover ==> Tracks(byDay, month, provider[..i + 1])
  {
    hide DaysOf, Replaced;
    forall b | b in month ensures b.day == provider[i].day ==> byDay[b.day] == b {
      ReplacedNext(b, provider, i);
    }
    forall b | b in month { ReplacedNext(b, provider, i); }
  }

  lemma CorrectedIs(month: seq<Bar>, provider: seq<Bar>, corrected: seq<Bar>)
    requires |corrected| == |month| && forall i | 0 <= i < |month| :: corrected[i] == Replaced(month[i], provider)
    ensures Corrected(month, provider) == Sort(EndOf, corrected)
  {
    assert corrected == Map((b: Bar) => Replaced(b, provider), month);
  }

  lemma DayIn(bars: seq<Bar>, b: Bar)
    requires b in bars
    ensures b.day in Elems(DaysOf(bars))
  {
    var i :| 0 <= i < |bars| && bars[i] == b;
    assert DaysOf(bars)[i] == b.day;
  }

  lemma StoredOn(bars: seq<Bar>, day: Date)
    ensures day in Elems(DaysOf(bars)) <==> On(bars, day).Some?
    ensures On(bars, day).Some? ==> On(bars, day).value in bars && On(bars, day).value.day == day
  {
    OnFinds(bars, day);
    if day in DaysOf(bars) {
      var i :| 0 <= i < |bars| && DaysOf(bars)[i] == day;
      assert bars[i] in bars;
    }
    if On(bars, day).Some? { DayIn(bars, On(bars, day).value); }
  }

  // ----- the weekly side -----

  /** After the daily repair the stored week must already be the new aggregate. */
  function WeeklyError(weekly: Bar, week: seq<Bar>): Option<string> {
    if week == [] then Some(CORRECTED_WEEK_EMPTY)
    else
      var aggregate := Aggregate(week, weekly.end);
      if aggregate.Err? then Some(aggregate.error)
      else if !SameButTurnover(aggregate.value, weekly) then Some(NON_TURNOVER_MISMATCH_AFTER_D1)
      else if aggregate.value.turnover != weekly.turnover then Some(TURNOVER_MISMATCH)
      else None
  }

  /** Set the weekly turnover to the corrected daily sum; every other field must match already. */
  function Realigned(weekly: Bar, week: seq<Bar>): Result<Bar, string> {
    if week == [] then Err(CORRECTED_WEEK_EMPTY)
    else
      var aggregate := Aggregate(week, weekly.end);
      if aggregate.Err? then aggregate
      else if !SameButTurnover(aggregate.value, weekly) then Err(NON_TURNOVER_MISMATCH)
      else if aggregate.value.turnover.None? then Err(TURNOVER_MISSING)
      else if aggregate.value.day != weekly.day then Err(TRADING_DAY_MISMATCH)
      else Ok(weekly.(turnover := aggregate.value.turnover))
  }

  /** A realigned week is the aggregate of its days in every field, and its turnover is known. */
  lemma RealignedIsAggregate(weekly: Bar, week: seq<Bar>)
    requires Realigned(weekly, week).Ok?
    ensures Aggregate(week, weekly.end) == Realigned(weekly, week)
    ensures Realigned(weekly, week).value.turnover.Some?
    ensures Realigned(Realigned(weekly, week).value, week) == Realigned(weekly, week)
  {
  }

  // ----- the classifier -----

  datatype Side = W1Partition | D1ThenW1 | Inconclusive(stopQueue: bool, reason: string) | Raised(code: string)

  const DATE_MISMATCH := "DAILY_DATE_MISMATCH"
  const MATCHES_NEITHER := "PROVIDER_MATCHES_NEITHER"

  predicate FieldsAgree(provider: seq<Bar>, stored: seq<Bar>)
    requires |provider| == |stored|
  {
    forall i | 0 <= i < |provider| :: SameButTurnover(provider[i], stored[i])
  }

  predicate TurnoversAgree(provider: seq<Bar>, stored: seq<Bar>)
    requires |provider| == |stored|
  {
    forall i | 0 <= i < |provider| :: provider[i].turnover == stored[i].turnover
  }

  function Classify(provider: seq<Bar>, stored: seq<Bar>, weekly: Bar): Side {
    if DaysOf(provider) != DaysOf(stored) || provider == [] then Inconclusive(true, DATE_MISMATCH)
    else
      SameLength(provider, stored);
      if !FieldsAgree(provider, stored) then Inconclusive(true, BEYOND_TURNOVER)
      else
        var aggregate := Aggregate(provider, weekly.end);
        if aggregate.Err? then Raised(aggregate.error)
        else if !SameButTurnover(aggregate.value, weekly) then Inconclusive(true, BEYOND_TURNOVER)
        else
          var matchesD1, matchesW1 := TurnoversAgree(provider, stored), aggregate.value.turnover == weekly.turnover;
          if matchesD1 && !matchesW1 then W1Partition
          else if !matchesD1 && matchesW1 then D1ThenW1
          else Inconclusive(false, MATCHES_NEITHER)
  }

  lemma SameLength(provider: seq<Bar>, stored: seq<Bar>)
    requires DaysOf(provider) == DaysOf(stored)
    ensures |provider| == |stored|
    ensures forall i | 0 <= i < |provider| :: provider[i].day == stored[i].day
  {
    assert |DaysOf(provider)| == |DaysOf(stored)|;
    forall i | 0 <= i < |provider| ensures provider[i].day == stored[i].day {
      assert DaysOf(provider)[i] == DaysOf(stored)[i];
    }
  }

  /** The bars of a month that fall on some days. */
  function InWeek(bars: seq<Bar>, days: set<Date>): seq<Bar> {
    Filter((b: Bar) => b.day in days, bars)
  }
}
