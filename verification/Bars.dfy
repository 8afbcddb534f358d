/** Stored bars and the weekly aggregate of daily rows. Prices, volumes and turnovers are exact
    scaled numbers. */
module Bars {
  import opened Wrappers
  import opened Seqs

  datatype Date = Date(year: int, month: int, day: int)

  datatype Bar = Bar(
    end: int, day: Date, open: int, high: int, low: int, close: int, volume: int,
    turnover: Option<int>, openInterest: Option<int>)

  const SOURCE_EMPTY := "RQDATA_WEEKLY_SOURCE_EMPTY"
  const PRICE_INVALID := "RQDATA_WEEKLY_SOURCE_PRICE_INVALID"

  predicate Nonnegative(value: Option<int>) { value.Some? ==> value.value >= 0 }

  /** The price envelope and signs every stored bar has. */
  predicate ValidBar(b: Bar) {
    b.low <= b.open <= b.high && b.low <= b.close <= b.high && b.volume >= 0
    && Nonnegative(b.turnover) && Nonnegative(b.openInterest)
  }

  predicate SameButTurnover(a: Bar, b: Bar) {
    a.open == b.open && a.high == b.high && a.low == b.low && a.close == b.close
    && a.volume == b.volume && a.openInterest == b.openInterest
  }

  /** A day on which nothing traded at all. */
  predicate NoTrade(b: Bar) {
    b.open == b.high == b.low == b.close == 0 && b.volume == 0 && b.turnover == Some(0)
  }

  predicate Priceless(b: Bar) {
    b.open <= 0 || b.high <= 0 || b.low <= 0 || b.close <= 0
  }

  function Priced(rows: seq<Bar>): seq<Bar> {
    Filter((b: Bar) => !NoTrade(b), rows)
  }

  /** The rows prices are taken from: those that traded, or all of a week without any trade. */
  function PriceSource(rows: seq<Bar>): seq<Bar> {
    if Priced(rows) != [] then Priced(rows) else rows
  }

  function High(rows: seq<Bar>): int
    requires rows != []
  {
    var last := rows[|rows| - 1].high;
    if |rows| == 1 then last
    else
      var before := High(rows[..|rows| - 1]);
      if last > before then last else before
  }

  function Low(rows: seq<Bar>): int
    requires rows != []
  {
    var last := rows[|rows| - 1].low;
    if |rows| == 1 then last
    else
      var before := Low(rows[..|rows| - 1]);
      if last < before then last else before
  }

  function Volume(rows: seq<Bar>): int {
    if rows == [] then 0 else Volume(rows[..|rows| - 1]) + rows[|rows| - 1].volume
  }

  function OrZero(value: Option<int>): int { if value.Some? then value.value else 0 }

  /** The exact sum of the known turnovers; unknown only if every one is. */
  function Turnover(rows: seq<Bar>): Option<int> {
    if rows == [] then None
    else
      var before, last := Turnover(rows[..|rows| - 1]), rows[|rows| - 1].turnover;
      if before.None? && last.None? then None else Some(OrZero(before) + OrZero(last))
  }

  function Aggregate(rows: seq<Bar>, end: int): Result<Bar, string> {
    if rows == [] then Err(SOURCE_EMPTY)
    else if exists b | b in Priced(rows) :: Priceless(b) then Err(PRICE_INVALID)
    else
      var source, last := PriceSource(rows), rows[|rows| - 1];
      Ok(Bar(end, last.day, source[0].open, High(source), Low(source), source[|source| - 1].close,
             Volume(rows), Turnover(rows), last.openInterest))
  }

  lemma {:induction false} EnvelopeOf(rows: seq<Bar>)
    requires rows != []
    ensures forall b | b in rows :: Low(rows) <= b.low && b.high <= High(rows)
    ensures exists b :: b in rows && High(rows) == b.high
    ensures exists b :: b in rows && Low(rows) == b.low
  {
    var n := |rows| - 1;
    assert rows[n] in rows;
    if n > 0 {
      EnvelopeOf(rows[..n]);
      assert rows == rows[..n] + [rows[n]];
    }
  }

  lemma {:induction false} SumsNonnegative(rows: seq<Bar>)
    requires forall b | b in rows :: ValidBar(b)
    ensures Volume(rows) >= 0 && Nonnegative(Turnover(rows))
  {
    if rows != [] {
      assert rows[|rows| - 1] in rows;
      SumsNonnegative(rows[..|rows| - 1]);
    }
  }

  /** The aggregate of valid bars is a valid bar, so building it never fails on the price envelope;
      its range is exactly the range of the days that traded. */
  lemma AggregateIsValid(rows: seq<Bar>, end: int)
    requires Aggregate(rows, end).Ok? && forall b | b in rows :: ValidBar(b)
    ensures ValidBar(Aggregate(rows, end).value)
  {
    var source := PriceSource(rows);
    forall b | b in source ensures b in rows { }
    EnvelopeOf(source);
    SumsNonnegative(rows);
    assert source[0] in source && source[|source| - 1] in source && rows[|rows| - 1] in rows;
  }

  lemma SumsOfOne(b: Bar)
    ensures Volume([b]) == b.volume && Turnover([b]) == b.turnover
  {
    assert [b][..0] == [];
    assert Volume([]) == 0 && Turnover([]) == None;
  }

  /** One traded day is its own week. */
  lemma AggregateOfOne(b: Bar, end: int)
    requires !NoTrade(b) && !Priceless(b)
    ensures Aggregate([b], end) == Ok(b.(end := end))
  {
    SumsOfOne(b);
    assert [b][1..] == [];
    assert Priced([b]) == [b] && High([b]) == b.high && Low([b]) == b.low;
    hide Priced, High, Low, Volume, Turnover;
  }

  lemma {:induction false} SumsConcat(a: seq<Bar>, b: seq<Bar>)
    ensures Volume(a + b) == Volume(a) + Volume(b)
    ensures Turnover(a + b) == if Turnover(a).None? && Turnover(b).None? then None
                               else Some(OrZero(Turnover(a)) + OrZero(Turnover(b)))
    decreases |b|
  {
    if b == [] {
      assert a + b == a;
    } else {
      var n := |b| - 1;
      assert (a + b)[..|a + b| - 1] == a + b[..n];
      SumsConcat(a, b[..n]);
    }
  }

  lemma {:induction false} RangeConcat(a: seq<Bar>, b: seq<Bar>)
    requires a != [] && b != []
    ensures High(a + b) == if High(b) > High(a) then High(b) else High(a)
    ensures Low(a + b) == if Low(b) < Low(a) then Low(b) else Low(a)
    decreases |b|
  {
    var n := |b| - 1;
    assert (a + b)[..|a + b| - 1] == a + b[..n];
    if n == 0 {
      assert a + b[..n] == a;
    } else {
      RangeConcat(a, b[..n]);
    }
  }

  lemma PricedConcat(a: seq<Bar>, b: seq<Bar>)
    ensures Priced(a + b) == Priced(a) + Priced(b)
  {
    var keep := (b: Bar) => !NoTrade(b);
    FilterConcat(keep, a, b);
    SamePriced(a, keep);
    SamePriced(b, keep);
    SamePriced(a + b, keep);
  }

  lemma {:induction false} SamePriced(s: seq<Bar>, keep: Bar -> bool)
    requires forall b :: keep(b) <==> !NoTrade(b)
    ensures Priced(s) == Filter(keep, s)
  {
    if s != [] {
      SamePriced(s[1..], keep);
    }
  }

  /** Two parts of a week make the week: it opens with the first and closes with the second, its range
      spans both, and volume and turnover add up. */
  lemma AggregateOfTwo(a: seq<Bar>, b: seq<Bar>, end: int)
    requires Aggregate(a, end).Ok? && Aggregate(b, end).Ok? && Priced(a) != [] && Priced(b) != []
    ensures var x, y, r := Aggregate(a, end).value, Aggregate(b, end).value, Aggregate(a + b, end);
            r == Ok(Bar(end, y.day, x.open, if y.high > x.high then y.high else x.high, if y.low < x.low then y.low else x.low,
                        y.close, x.volume + y.volume,
                        if x.turnover.None? && y.turnover.None? then None else Some(OrZero(x.turnover) + OrZero(y.turnover)),
                        y.openInterest))
  {
    hide Priced, High, Low, Volume, Turnover;
    PricedConcat(a, b);
    SumsConcat(a, b);
    RangeConcat(Priced(a), Priced(b));
  }

  /** Days without any trade never set a price: they add nothing to a week that traded but its last day
      and open interest. */
  lemma NoTradeSetsNoPrice(a: seq<Bar>, b: seq<Bar>, end: int)
    requires Aggregate(a, end).Ok? && Priced(a) != [] && Priced(b) == [] && b != []
    ensures var x, r := Aggregate(a, end).value, Aggregate(a + b, end);
            && r.Ok? && r.value.open == x.open && r.value.high == x.high && r.value.low == x.low && r.value.close == x.close
            && r.value.volume == x.volume && r.value.turnover == Some(OrZero(x.turnover)) && r.value.day == b[|b| - 1].day
  {
    PricedConcat(a, b);
    SumsConcat(a, b);
    NothingTraded(b);
    assert Priced(a) + [] == Priced(a);
    hide Priced, High, Low, Volume, Turnover;
  }

  lemma {:induction false} NothingTraded(b: seq<Bar>)
    requires Priced(b) == [] && b != []
    ensures Volume(b) == 0 && Turnover(b) == Some(0)
  {
    var n := |b| - 1;
    assert b == b[..n] + [b[n]];
    PricedConcat(b[..n], [b[n]]);
    assert b[n] in b && b[n] !in Priced(b);
    if n > 0 { NothingTraded(b[..n]); }
  }

  lemma {:induction false} UnknownTurnover(rows: seq<Bar>)
    ensures Turnover(rows) == None <==> forall b | b in rows :: b.turnover == None
  {
    if rows != [] {
      UnknownTurnover(rows[..|rows| - 1]);
      assert rows == rows[..|rows| - 1] + [rows[|rows| - 1]];
    }
  }

  lemma PricedSnoc(rows: seq<Bar>, i: nat)
    requires i < |rows|
    ensures Priced(rows[..i + 1]) == Priced(rows[..i]) + if NoTrade(rows[i]) then [] else [rows[i]]
  {
    assert rows[..i + 1] == rows[..i] + [rows[i]];
    PricedConcat(rows[..i], [rows[i]]);
  }

  lemma PricedHas(rows: seq<Bar>, i: nat)
    requires i < |rows| && !NoTrade(rows[i])
    ensures rows[i] in Priced(rows)
  {
  }

  lemma SumsSnoc(rows: seq<Bar>, i: nat)
    requires i < |rows|
    ensures Volume(rows[..i + 1]) == Volume(rows[..i]) + rows[i].volume
    ensures Turnover(rows[..i + 1]) == (if Turnover(rows[..i]).None? && rows[i].turnover.None? then None
                                        else Some(OrZero(Turnover(rows[..i])) + OrZero(rows[i].turnover)))
  {
    assert rows[..i + 1][..i] == rows[..i];
  }

  lemma RangeSnoc(rows: seq<Bar>, i: nat)
    requires 0 < i < |rows|
    ensures High(rows[..i + 1]) == if rows[i].high > High(rows[..i]) then rows[i].high else High(rows[..i])
    ensures Low(rows[..i + 1]) == if rows[i].low < Low(rows[..i]) then rows[i].low else Low(rows[..i])
  {
    assert rows[..i + 1][..i] == rows[..i];
  }

  method RangeOf(rows: seq<Bar>) returns (high: int, low: int)
    requires rows != []
    ensures high == High(rows) && low == Low(rows)
  {
    high, low := rows[0].high, rows[0].low;
    assert rows[..1] == [rows[0]];
    for i := 1 to |rows|
      invariant high == High(rows[..i]) && low == Low(rows[..i])
    {
      RangeSnoc(rows, i);
      if rows[i].high > high { high := rows[i].high; }
      if rows[i].low < low { low := rows[i].low; }
    }
    assert rows[..|rows|] == rows;
  }

  method AggregateDailyRows(rows: seq<Bar>, end: int) returns (r: Result<Bar, string>)
    ensures r == Aggregate(rows, end)
  {
    if rows == [] {
      return Err(SOURCE_EMPTY);
    }
    hide Priced, Turnover, Volume, High, Low;
    var priced: seq<Bar>, volume := [], 0;
    var turnover: Option<int> := None;
    assert Priced(rows[..0]) == [] && Volume(rows[..0]) == 0 && Turnover(rows[..0]) == None;
    for i := 0 to |rows|
      invariant priced == Priced(rows[..i]) && volume == Volume(rows[..i]) && turnover == Turnover(rows[..i])
      invariant forall b | b in priced :: !Priceless(b)
    {
      PricedSnoc(rows, i);
      SumsSnoc(rows, i);
      if !NoTrade(rows[i]) && Priceless(rows[i]) {
        PricedHas(rows, i);
        return Err(PRICE_INVALID);
      }
      priced := priced + if NoTrade(rows[i]) then [] else [rows[i]];
      volume := volume + rows[i].volume;
      turnover := if turnover.None? && rows[i].turnover.None? then None
                  else Some(OrZero(turnover) + OrZero(rows[i].turnover));
    }
    assert rows[..|rows|] == rows;
    var source := if priced != [] then priced else rows;
    var high, low := RangeOf(source);
    r := Ok(Bar(end, rows[|rows| - 1].day, source[0].open, high, low, source[|source| - 1].close,
                volume, turnover, rows[|rows| - 1].openInterest));
  }
}
