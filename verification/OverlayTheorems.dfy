/**
 * The classifier that names the stale side of a weekly conflict and the repair of that side agree;
 * a repair touches turnovers only, exactly where they differed, and leaves nothing to repair.
 */
module OverlayTheorems {
  import opened Wrappers
  import opened Seqs
  import opened Sorting
  import opened Bars
  import opened Overlay

  // ----- what an overlay leaves -----

  /** A stored month keeps its order, so sorting what the overlay made of it changes nothing. */
  lemma CorrectedInPlace(month: seq<Bar>, provider: seq<Bar>)
    requires Increasing(month)
    ensures Corrected(month, provider) == Map((b: Bar) => Replaced(b, provider), month)
  {
    var mapped := Map((b: Bar) => Replaced(b, provider), month);
    forall i, j | 0 <= i < j < |mapped| ensures EndOf(mapped[i]) <= EndOf(mapped[j]) {
      assert month[i].end < month[j].end;
    }
    SortKeepsOrdered(EndOf, mapped);
  }

  lemma ReplacedIf(month: seq<Bar>, provider: seq<Bar>, b: Bar)
    requires NoDup(DaysOf(month)) && NoDup(DaysOf(provider)) && b in month
    ensures Replaced(b, provider) != b <==> b.day in Changed(month, provider)
    ensures b.day in Changed(month, provider) ==> On(provider, b.day).Some?
  {
    OnDistinct(month, b);
    OnFinds(provider, b.day);
    ChangedDays(month, provider);
    var p := On(provider, b.day);
    forall q | q in provider && q.day == b.day ensures p == Some(q) { OnDistinct(provider, q); }
    if p.Some? { assert Stale(month, p.value) <==> b.turnover != p.value.turnover; }
  }

  /** An overlay keeps every bar of the month in place, changes nothing but turnovers, changes them
      exactly on the days it reports, each to the provider's value, and reports no day twice. */
  lemma OverlayTouchesOnlyTurnover(month: seq<Bar>, provider: seq<Bar>)
    requires Increasing(month) && Overlaid(month, provider).Ok?
    ensures var (corrected, changed) := Overlaid(month, provider).value;
            && |corrected| == |month| && changed != [] && NoDup(changed)
            && (forall d | d in changed :: d in DaysOf(month) && d in DaysOf(provider))
            && forall i | 0 <= i < |month| ::
                 && corrected[i] == month[i].(turnover := corrected[i].turnover)
                 && (corrected[i] != month[i] <==> month[i].day in changed)
                 && (month[i].day in changed ==>
                       var p := On(provider, month[i].day);
                       p.Some? && p.value.turnover.Some? && corrected[i].turnover == p.value.turnover)
  {
    CorrectedInPlace(month, provider);
    ChangedDays(month, provider);
    FirstErrorNone(month, provider);
    hide Corrected, Changed, FirstError, DaysOf, NoDup;
    forall d | d in Changed(month, provider) ensures d in DaysOf(month) && d in DaysOf(provider) {
      var p :| p in provider && p.day == d && Stale(month, p);
      OnFinds(month, d);
      DayIn(provider, p);
      DayIn(month, On(month, d).value);
    }
    forall i | 0 <= i < |month|
      ensures Replaced(month[i], provider) != month[i] <==> month[i].day in Changed(month, provider)
      ensures month[i].day in Changed(month, provider) ==>
                On(provider, month[i].day).Some? && On(provider, month[i].day).value.turnover.Some?
    {
      ReplacedIf(month, provider, month[i]);
      OnFinds(provider, month[i].day);
      OnDistinct(month, month[i]);
      if month[i].day in Changed(month, provider) {
        assert DayError(month, On(provider, month[i].day).value) == None;
      }
    }
  }

  lemma CorrectedOn(month: seq<Bar>, provider: seq<Bar>, day: Date)
    requires Increasing(month) && NoDup(DaysOf(month))
    ensures NoDup(DaysOf(Corrected(month, provider)))
    ensures On(Corrected(month, provider), day)
         == if On(month, day).Some? then Some(Replaced(On(month, day).value, provider)) else None
  {
    CorrectedInPlace(month, provider);
    var corrected := Corrected(month, provider);
    assert DaysOf(corrected) == DaysOf(month);
    OnFinds(month, day);
    OnFinds(corrected, day);
    if On(month, day).Some? {
      var i :| 0 <= i < |month| && month[i] == On(month, day).value;
      assert corrected[i] == Replaced(month[i], provider);
      OnDistinct(corrected, corrected[i]);
    } else {
      forall b | b in corrected ensures b.day != day {
        var i :| 0 <= i < |corrected| && corrected[i] == b;
        assert month[i] in month;
      }
    }
  }

  /** The overlay is idempotent: laid over its own result, the same provider week has nothing stale. */
  lemma SecondOverlayFindsNothing(month: seq<Bar>, provider: seq<Bar>)
    requires Increasing(month) && Overlaid(month, provider).Ok?
    ensures Overlaid(Overlaid(month, provider).value.0, provider) == Err(NO_STALE_DAY)
  {
    var corrected := Corrected(month, provider);
    CorrectedInPlace(month, provider);
    FirstErrorNone(month, provider);
    assert corrected != [];
    CorrectedOn(month, provider, month[0].day);
    hide Corrected, DaysOf, Increasing;
    forall p | p in provider ensures DayError(corrected, p) == None && !Stale(corrected, p) {
      CorrectedOn(month, provider, p.day);
      OnFinds(month, p.day);
      OnDistinct(provider, p);
      assert DayError(month, p) == None;
    }
    FirstErrorNone(corrected, provider);
    ChangedDays(corrected, provider);
    if Changed(corrected, provider) != [] { assert Changed(corrected, provider)[0] in Changed(corrected, provider); }
  }

  // ----- classifier and repair agree -----

  lemma {:induction false} InWeekDistinct(bars: seq<Bar>, days: set<Date>)
    requires NoDup(DaysOf(bars))
    ensures NoDup(DaysOf(InWeek(bars, days)))
  {
    if bars != [] {
      var rest := InWeek(bars[1..], days);
      assert DaysOf(bars[1..]) == DaysOf(bars)[1..];
      InWeekDistinct(bars[1..], days);
      forall b | b in rest ensures b.day != bars[0].day {
        var i :| 0 <= i < |bars[1..]| && bars[1..][i] == b;
        assert DaysOf(bars)[i + 1] != DaysOf(bars)[0];
      }
      if bars[0].day in days {
        assert DaysOf([bars[0]] + rest) == [bars[0].day] + DaysOf(rest);
        NoDupConcat([bars[0].day], DaysOf(rest));
      }
    }
  }

  lemma {:induction false} InWeekOfReplaced(bars: seq<Bar>, provider: seq<Bar>, days: set<Date>)
    ensures InWeek(Map((b: Bar) => Replaced(b, provider), bars), days)
         == Map((b: Bar) => Replaced(b, provider), InWeek(bars, days))
  {
    var f := (b: Bar) => Replaced(b, provider);
    if bars == [] {
      assert Map(f, bars) == [];
      assert InWeek(bars, days) == [];
    } else {
      InWeekOfReplaced(bars[1..], provider, days);
      assert Map(f, bars)[1..] == Map(f, bars[1..]);
    }
  }

  /** The provider week is aligned to the month: on common days it ends when the stored bar ends. */
  ghost predicate Aligned(month: seq<Bar>, provider: seq<Bar>) {
    forall p | p in provider && On(month, p.day).Some? :: On(month, p.day).value.end == p.end
  }

  /** The provider dropped the turnover of a day whose stored turnover is known. */
  ghost predicate ProviderLostTurnover(month: seq<Bar>, provider: seq<Bar>) {
    exists p :: p in provider && p.turnover.None? && Stale(month, p)
  }

  /** When the daily rows agree but for turnover, each provider row stands next to its stored bar. */
  lemma RowsCorrespond(month: seq<Bar>, provider: seq<Bar>, days: set<Date>)
    requires NoDup(DaysOf(month)) && Aligned(month, provider)
    requires DaysOf(provider) == DaysOf(InWeek(month, days)) && |provider| == |InWeek(month, days)|
    requires FieldsAgree(provider, InWeek(month, days))
    ensures NoDup(DaysOf(provider))
    ensures forall i | 0 <= i < |provider| ::
              && On(month, provider[i].day) == Some(InWeek(month, days)[i])
              && InWeek(month, days)[i].end == provider[i].end
  {
    InWeekDistinct(month, days);
    SameLength(provider, InWeek(month, days));
    forall i | 0 <= i < |provider| ensures On(month, provider[i].day) == Some(InWeek(month, days)[i]) {
      assert InWeek(month, days)[i] in InWeek(month, days);
      OnDistinct(month, InWeek(month, days)[i]);
    }
  }

  /** What the overlay does once the daily rows agree but for turnover. */
  lemma OverlayOfAgreeingRows(month: seq<Bar>, provider: seq<Bar>, days: set<Date>)
    requires NoDup(DaysOf(month)) && Aligned(month, provider) && provider != []
    requires DaysOf(provider) == DaysOf(InWeek(month, days)) && |provider| == |InWeek(month, days)|
    requires FieldsAgree(provider, InWeek(month, days))
    ensures var r := Overlaid(month, provider);
            if ProviderLostTurnover(month, provider) then r == Err(TURNOVER_MISSING)
            else if TurnoversAgree(provider, InWeek(month, days)) then r == Err(NO_STALE_DAY)
            else r.Ok?
  {
    RowsCorrespond(month, provider, days);
    var stored := InWeek(month, days);
    hide InWeek, DaysOf, Corrected;
    assert stored[0] in month by { OnFinds(month, provider[0].day); }
    forall p | p in provider
      ensures DayError(month, p) == if p.turnover.None? && Stale(month, p) then Some(TURNOVER_MISSING) else None
    {
      var i :| 0 <= i < |provider| && provider[i] == p;
      assert SameButTurnover(provider[i], stored[i]);
    }
    FirstErrorNone(month, provider);
    ChangedDays(month, provider);
    if !ProviderLostTurnover(month, provider) {
      if TurnoversAgree(provider, stored) {
        forall p | p in provider ensures !Stale(month, p) {
          var i :| 0 <= i < |provider| && provider[i] == p;
        }
        if Changed(month, provider) != [] { assert Changed(month, provider)[0] in Changed(month, provider); }
      } else {
        var i :| 0 <= i < |provider| && provider[i].turnover != stored[i].turnover;
        assert provider[i] in provider && Stale(month, provider[i]);
        assert provider[i].day in Changed(month, provider);
      }
    }
  }

  /** After the overlay the days of the week are exactly the provider's rows. */
  lemma CorrectedWeekIsProvider(month: seq<Bar>, provider: seq<Bar>, days: set<Date>)
    requires Increasing(month) && NoDup(DaysOf(month)) && Aligned(month, provider)
    requires DaysOf(provider) == DaysOf(InWeek(month, days)) && |provider| == |InWeek(month, days)|
    requires FieldsAgree(provider, InWeek(month, days))
    ensures InWeek(Corrected(month, provider), days) == provider
  {
    CorrectedInPlace(month, provider);
    InWeekOfReplaced(month, provider, days);
    RowsCorrespond(month, provider, days);
    SameLength(provider, InWeek(month, days));
    var stored := InWeek(month, days);
    hide InWeek, Corrected, DaysOf;
    var replaced := Map((b: Bar) => Replaced(b, provider), stored);
    forall i | 0 <= i < |provider| ensures replaced[i] == provider[i] {
      OnDistinct(provider, provider[i]);
      assert SameButTurnover(provider[i], stored[i]);
    }
  }

  /** Classifier and repair agree, for a week inside one month: told that the daily side is stale, the
      overlay succeeds if and only if the provider knows every turnover it would overwrite, and the
      stored week then matches; told that the weekly side is stale, the overlay finds nothing to do. */
  lemma ClassifierAgreesWithRepair(month: seq<Bar>, provider: seq<Bar>, days: set<Date>, weekly: Bar)
    requires Increasing(month) && NoDup(DaysOf(month)) && Aligned(month, provider)
    ensures var side, r := Classify(provider, InWeek(month, days), weekly), Overlaid(month, provider);
            && (side.D1ThenW1? ==>
                  && (r.Ok? <==> !ProviderLostTurnover(month, provider))
                  && (r.Err? ==> r.error == TURNOVER_MISSING)
                  && (r.Ok? ==> WeeklyError(weekly, InWeek(r.value.0, days)) == None))
            && (side.W1Partition? ==> r == Err(NO_STALE_DAY))
  {
    var side := Classify(provider, InWeek(month, days), weekly);
    hide InWeek, DaysOf, Corrected, FirstError, Changed, Aggregate, Increasing, Aligned;
    if side.D1ThenW1? || side.W1Partition? {
      SameLength(provider, InWeek(month, days));
      OverlayOfAgreeingRows(month, provider, days);
      CorrectedWeekIsProvider(month, provider, days);
      if side.W1Partition? { RowsCorrespond(month, provider, days); AgreeingNotLost(month, provider, days); }
    }
  }

  lemma AgreeingNotLost(month: seq<Bar>, provider: seq<Bar>, days: set<Date>)
    requires |provider| == |InWeek(month, days)| && TurnoversAgree(provider, InWeek(month, days))
    requires forall i | 0 <= i < |provider| :: On(month, provider[i].day) == Some(InWeek(month, days)[i])
    ensures !ProviderLostTurnover(month, provider)
  {
  }
}
