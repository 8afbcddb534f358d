/**
 * Applying a prepared turnover realignment: month partitions are published and committed one after
 * another, and a run may stop between any two commits and be repeated with the same prepared packet.
 */
module Realign {
  import opened Wrappers
  import opened Seqs
  import opened Sorting
  import opened Bars
  import opened Overlay

  /** What identifies the content of a partition file: its bars and any other recorded origin. */
  datatype Digest = Digest(origin: nat, bars: seq<Bar>)
  datatype FileName = Legacy | Digested(digest: Digest)
  datatype Part = Part(name: FileName, origin: nat, quality: bool, bars: seq<Bar>)

  datatype Key = Daily(contract: string, year: int, month: int) | Weekly(contract: string, year: int, month: int)
  type Catalog = map<Key, Part>

  function Sha(part: Part): Digest { Digest(part.origin, part.bars) }

  /** What the store installs for a list of bars. */
  function Published(bars: seq<Bar>): Part {
    Part(Digested(Digest(0, bars)), 0, false, bars)
  }

  predicate InMonth(key: Key, b: Bar) { b.day.year == key.year && b.day.month == key.month }

  /** What the store checks before it installs a partition. */
  ghost predicate Publishable(key: Key, bars: seq<Bar>) {
    bars != [] && Increasing(bars) && forall b | b in bars :: InMonth(key, b)
  }

  /** How many fractional digits a turnover read from a stored partition prints with. */
  const STORED_DIGITS: nat := 18

  /** One prepared daily partition: its preimage, the corrected turnovers, and how many fractional digits
      the text of each has. */
  datatype PartMeta = PartMeta(
    year: int, month: int, name: FileName, sha: Digest, rowCount: nat, corrected: map<Date, int>, digits: map<Date, nat>)

  /** The prepared weekly partition: its preimage, and value and digits of the prepared turnover text. */
  datatype WeeklyMeta = WeeklyMeta(
    year: int, month: int, name: FileName, sha: Digest, rowCount: nat, turnover: int, digits: nat, rewritten: bool)

  /** One prepared week of one contract. */
  datatype Unit = Unit(
    contract: string, end: int, days: seq<Date>, planned: bool, daily: seq<PartMeta>, weekly: WeeklyMeta)

  function DailyKey(u: Unit, m: PartMeta): Key { Daily(u.contract, m.year, m.month) }
  function WeeklyKey(u: Unit): Key { Weekly(u.contract, u.weekly.year, u.weekly.month) }

  const PARTITION_MISSING := "PARTITION_MISSING"
  const D1_CHANGED := "D1_PARTITION_CHANGED"
  const D1_PREIMAGE_CHANGED := "D1_PREIMAGE_CHANGED"
  const PREPARED_DAY_MISSING := "PREPARED_DAY_MISSING"
  const WEEK_DATES_MISMATCH := "STORED_WEEK_DATES_MISMATCH"
  const W1_CHANGED := "W1_PARTITION_CHANGED"
  const W1_BAR_MISSING := "STORED_W1_BAR_MISSING"
  const W1_TURNOVER_DRIFT := "W1_TURNOVER_DRIFT"
  const W1_PREIMAGE_CHANGED := "W1_PREIMAGE_CHANGED"
  const STORE_REFUSED := "STORE_REFUSED"
  const READBACK_MISMATCH := "POST_COMMIT_TURNOVER_MISMATCH"

  predicate PreimageMatches(part: Part, name: FileName, sha: Digest) {
    part.name == name && Sha(part) == sha
  }

  function Prepare(b: Bar, corrected: map<Date, int>): Bar {
    if b.day in corrected then b.(turnover := Some(corrected[b.day])) else b
  }

  /** A stored month with the prepared turnovers in place. */
  function WithPrepared(bars: seq<Bar>, corrected: map<Date, int>): seq<Bar> {
    Sort(EndOf, Map((b: Bar) => Prepare(b, corrected), bars))
  }

  /** Every prepared turnover is there already, taking the last bar of each day. */
  ghost predicate PreparedPresent(bars: seq<Bar>, corrected: map<Date, int>) {
    forall d | d in corrected ::
      exists i :: 0 <= i < |bars| && bars[i].day == d && bars[i].turnover == Some(corrected[d])
                  && forall j | i < j < |bars| :: bars[j].day != d
  }

  function Most(a: nat, b: nat): nat { if a >= b then a else b }

  /** The fractional digits a day brings to the exact sum: those of its prepared text if it has one, those
      of a stored number otherwise, and none for a turnover that is unknown or zero. */
  function Printed(b: Bar, text: map<Date, nat>): nat {
    if b.turnover == None || b.turnover == Some(0) then 0
    else if b.day in text then text[b.day]
    else STORED_DIGITS
  }

  /** The fractional digits the exact sum of some days prints with. */
  function Digits(bars: seq<Bar>, text: map<Date, nat>): nat {
    if bars == [] then 0
    else Most(Digits(bars[..|bars| - 1], text), Printed(bars[|bars| - 1], text))
  }

  datatype Job = Job(key: Key, bars: seq<Bar>, expected: map<Date, int>)

  /** The bars one daily partition contributes, the digits their turnovers have, and the job that would
      bring them about. */
  datatype DailyCheck = DailyCheck(bars: seq<Bar>, jobs: seq<Job>, text: map<Date, nat>)

  ghost function CheckDaily(c: Catalog, u: Unit, m: PartMeta): Result<DailyCheck, string> {
    var key := DailyKey(u, m);
    if key !in c then Err(PARTITION_MISSING) else CheckDailyPart(key, c[key], m)
  }

  ghost function CheckDailyPart(key: Key, part: Part, m: PartMeta): Result<DailyCheck, string> {
    if part.quality || |part.bars| != m.rowCount then Err(D1_CHANGED)
    else if PreimageMatches(part, m.name, m.sha) then
      if !NoDup(DaysOf(part.bars)) then Err(MONTH_DUPLICATE_DAY)
      else if exists d :: d in m.corrected && d !in DaysOf(part.bars) then Err(PREPARED_DAY_MISSING)
      else
        var corrected := WithPrepared(part.bars, m.corrected);
        Ok(DailyCheck(corrected, if m.corrected != map[] then [Job(key, corrected, m.corrected)] else [], m.digits))
    else if PreparedPresent(part.bars, m.corrected) then Ok(DailyCheck(part.bars, [], map[]))
    else Err(D1_PREIMAGE_CHANGED)
  }

  datatype WeekCheck = WeekCheck(bars: seq<Bar>, jobs: seq<Job>, digits: nat)

  /** A week with the days of one more partition. */
  function Extended(week: WeekCheck, part: DailyCheck, days: set<Date>): WeekCheck {
    var more := InWeek(part.bars, days);
    WeekCheck(week.bars + more, week.jobs + part.jobs, Most(week.digits, Digits(more, part.text)))
  }

  ghost function CheckDays(c: Catalog, u: Unit, metas: seq<PartMeta>): Result<WeekCheck, string> {
    if metas == [] then Ok(WeekCheck([], [], 0))
    else
      var before := CheckDays(c, u, metas[..|metas| - 1]);
      if before.Err? then before
      else
        var last := CheckDaily(c, u, metas[|metas| - 1]);
        if last.Err? then Err(last.error)
        else
          Ok(Extended(before.value, last.value, Elems(u.days)))
  }

  /** The weekly bar that ends at a given instant. */
  function EndingAt(bars: seq<Bar>, end: int): Option<Bar> {
    if bars == [] then None
    else if bars[0].end == end then Some(bars[0])
    else EndingAt(bars[1..], end)
  }

  function WithWeekly(bars: seq<Bar>, end: int, updated: Bar): seq<Bar> {
    Map((b: Bar) => if b.end == end then updated else b, bars)
  }

  function DayRank(d: Date): real { ((d.year * 12 + d.month) * 31 + d.day) as real }

  function DayOrder(b: Bar): real { DayRank(b.day) }

  ghost function CheckWeekly(c: Catalog, u: Unit, week: WeekCheck): Result<seq<Job>, string> {
    if Elems(DaysOf(week.bars)) != Elems(u.days) then Err(WEEK_DATES_MISMATCH)
    else if WeeklyKey(u) !in c then Err(PARTITION_MISSING)
    else
      var jobs := CheckWeeklyPart(c[WeeklyKey(u)], u, Sort(DayOrder, week.bars), week.digits);
      if jobs.Err? then jobs else Ok(week.jobs + jobs.value)
  }

  ghost function CheckWeeklyPart(part: Part, u: Unit, week: seq<Bar>, digits: nat): Result<seq<Job>, string> {
    var m := u.weekly;
    if part.quality || |part.bars| != m.rowCount then Err(W1_CHANGED)
    else
      var current := EndingAt(part.bars, u.end);
      if current.None? then Err(W1_BAR_MISSING)
      else
        var updated := Realigned(current.value, week);
        if updated.Err? then Err(updated.error)
        else if updated.value.turnover != Some(m.turnover) || digits != m.digits then Err(W1_TURNOVER_DRIFT)
        else
          var matches := current.value.turnover == updated.value.turnover;
          if !matches && !PreimageMatches(part, m.name, m.sha) then Err(W1_PREIMAGE_CHANGED)
          else if m.rewritten && !matches then
            Ok([Job(WeeklyKey(u), WithWeekly(part.bars, u.end, updated.value), map[updated.value.day := m.turnover])])
          else Ok([])
  }

  /** Everything a unit checks before it writes; nothing is written while checking. */
  ghost function Check(c: Catalog, u: Unit): Result<seq<Job>, string> {
    var week := CheckDays(c, u, u.daily);
    if week.Err? then Err(week.error) else CheckWeekly(c, u, week.value)
  }

  datatype Outcome = Going | Crashed | Refused(code: string)
  datatype Progress = Progress(catalog: Catalog, writes: nat, outcome: Outcome)

  /** A committed partition reads back with the expected turnovers. */
  predicate ReadsBack(part: Part, expected: map<Date, int>) {
    !part.quality
    && forall d | d in expected :: On(part.bars, d).Some? && On(part.bars, d).value.turnover == Some(expected[d])
  }

  /** Publish, commit and read back one partition; the run may stop just before. */
  ghost function Commit(p: Progress, job: Job, crash: Option<nat>): Progress {
    if crash == Some(p.writes) then p.(outcome := Crashed)
    else if !Publishable(job.key, job.bars) then p.(outcome := Refused(STORE_REFUSED))
    else
      var part := Published(job.bars);
      Progress(p.catalog[job.key := part], p.writes + 1,
               if ReadsBack(part, job.expected) then Going else Refused(READBACK_MISMATCH))
  }

  ghost function Commits(p: Progress, jobs: seq<Job>, crash: Option<nat>): Progress {
    if jobs == [] then p
    else
      var before := Commits(p, jobs[..|jobs| - 1], crash);
      if before.outcome.Going? then Commit(before, jobs[|jobs| - 1], crash) else before
  }

  ghost function ApplyUnit(p: Progress, u: Unit, crash: Option<nat>): Progress {
    if !u.planned then p
    else
      var jobs := Check(p.catalog, u);
      if jobs.Err? then p.(outcome := Refused(jobs.error)) else Commits(p, jobs.value, crash)
  }

  ghost function Apply(p: Progress, units: seq<Unit>, crash: Option<nat>): Progress {
    if units == [] then p
    else
      var before := Apply(p, units[..|units| - 1], crash);
      if before.outcome.Going? then ApplyUnit(before, units[|units| - 1], crash) else before
  }

  /** A whole run from a catalog; `crash` is the number of commits after which it stops, if it does. */
  ghost function ApplyRun(c: Catalog, units: seq<Unit>, crash: Option<nat>): Progress {
    Apply(Progress(c, 0, Going), units, crash)
  }

  // ----- the methods -----

  /** Among the first n bars the k-th is the last one of its day. */
  ghost predicate LastOf(bars: seq<Bar>, n: nat, k: nat) {
    k < n <= |bars| && forall j | k < j < n :: bars[j].day != bars[k].day
  }

  lemma PresentByDay(bars: seq<Bar>, byDay: map<Date, Bar>, corrected: map<Date, int>)
    requires forall k | 0 <= k < |bars| :: bars[k].day in byDay
    requires forall d | d in byDay :: exists k: nat :: LastOf(bars, |bars|, k) && bars[k] == byDay[d] && bars[k].day == d
    ensures PreparedPresent(bars, corrected) <==> forall d | d in corrected :: d in byDay && byDay[d].turnover == Some(corrected[d])
  {
    forall d | d in corrected
      ensures (d in byDay && byDay[d].turnover == Some(corrected[d]))
         <==> exists i :: 0 <= i < |bars| && bars[i].day == d && bars[i].turnover == Some(corrected[d])
                          && forall j | i < j < |bars| :: bars[j].day != d
    {
      if d in byDay {
        var k: nat :| LastOf(bars, |bars|, k) && bars[k] == byDay[d] && bars[k].day == d;
      }
    }
  }

  method LastPrepared(bars: seq<Bar>, corrected: map<Date, int>) returns (present: bool)
    ensures present <==> PreparedPresent(bars, corrected)
  {
    hide PreparedPresent;
    var byDay: map<Date, Bar> := map[];
    for i := 0 to |bars|
      invariant forall k | 0 <= k < i :: bars[k].day in byDay
      invariant forall d | d in byDay :: exists k: nat :: LastOf(bars, i, k) && bars[k] == byDay[d] && bars[k].day == d
    {
      assert LastOf(bars, i + 1, i);
      forall d | d in byDay && d != bars[i].day
        ensures exists k: nat :: LastOf(bars, i + 1, k) && bars[k] == byDay[d] && bars[k].day == d
      {
        var k: nat :| LastOf(bars, i, k) && bars[k] == byDay[d] && bars[k].day == d;
        assert LastOf(bars, i + 1, k);
      }
      byDay := byDay[bars[i].day := bars[i]];
    }
    PresentByDay(bars, byDay, corrected);
    present := forall d | d in corrected :: d in byDay && byDay[d].turnover == Some(corrected[d]);
  }

  method CheckedDaily(c: Catalog, u: Unit, m: PartMeta) returns (r: Result<DailyCheck, string>)
    ensures r == CheckDaily(c, u, m)
  {
    hide WithPrepared, PreparedPresent;
    var key := DailyKey(u, m);
    if key !in c {
      return Err(PARTITION_MISSING);
    }
    var part := c[key];
    if part.quality || |part.bars| != m.rowCount {
      return Err(D1_CHANGED);
    }
    if PreimageMatches(part, m.name, m.sha) {
      var byDay := ByDay(part.bars);
      if |byDay| != |part.bars| {
        return Err(MONTH_DUPLICATE_DAY);
      }
      if exists d :: d in m.corrected && d !in DaysOf(part.bars) {
        return Err(PREPARED_DAY_MISSING);
      }
      var corrected := WithPrepared(part.bars, m.corrected);
      return Ok(DailyCheck(corrected, if m.corrected != map[] then [Job(key, corrected, m.corrected)] else [], m.digits));
    }
    var present := LastPrepared(part.bars, m.corrected);
    r := if present then Ok(DailyCheck(part.bars, [], map[])) else Err(D1_PREIMAGE_CHANGED);
  }

  lemma {:induction false} CheckDaysPrefix(c: Catalog, u: Unit, metas: seq<PartMeta>, i: nat)
    requires i <= |metas| && CheckDays(c, u, metas[..i]).Err?
    ensures CheckDays(c, u, metas) == CheckDays(c, u, metas[..i])
    decreases |metas|
  {
    if i < |metas| {
      assert metas[..|metas| - 1][..i] == metas[..i];
      CheckDaysPrefix(c, u, metas[..|metas| - 1], i);
    } else {
      assert metas[..i] == metas;
    }
  }

  lemma CheckDaysSnoc(c: Catalog, u: Unit, metas: seq<PartMeta>, i: nat)
    requires i < |metas| && CheckDays(c, u, metas[..i]).Ok?
    ensures var before, last := CheckDays(c, u, metas[..i]).value, CheckDaily(c, u, metas[i]);
            CheckDays(c, u, metas[..i + 1])
            == if last.Err? then Err(last.error)
               else Ok(Extended(before, last.value, Elems(u.days)))
  {
    assert metas[..i + 1][..i] == metas[..i];
  }

  method Checked(c: Catalog, u: Unit) returns (r: Result<seq<Job>, string>)
    ensures r == Check(c, u)
  {
    hide CheckDaily, InWeek, Realigned, Sort, WithWeekly, EndingAt, Extended;
    var week := WeekCheck([], [], 0);
    for i := 0 to |u.daily|
      invariant CheckDays(c, u, u.daily[..i]) == Ok(week)
    {
      CheckDaysSnoc(c, u, u.daily, i);
      var last := CheckedDaily(c, u, u.daily[i]);
      if last.Err? {
        CheckDaysPrefix(c, u, u.daily, i + 1);
        return Err(last.error);
      }
      week := Extended(week, last.value, Elems(u.days));
    }
    assert u.daily[..|u.daily|] == u.daily;
    r := CheckedWeekly(c, u, week);
  }

  method CheckedWeekly(c: Catalog, u: Unit, week: WeekCheck) returns (r: Result<seq<Job>, string>)
    ensures r == CheckWeekly(c, u, week)
  {
    hide Realigned, Sort, WithWeekly, EndingAt;
    var key, m := WeeklyKey(u), u.weekly;
    if Elems(DaysOf(week.bars)) != Elems(u.days) {
      return Err(WEEK_DATES_MISMATCH);
    }
    if key !in c {
      return Err(PARTITION_MISSING);
    }
    var part := c[key];
    if part.quality || |part.bars| != m.rowCount {
      return Err(W1_CHANGED);
    }
    var current := EndingAt(part.bars, u.end);
    if current.None? {
      return Err(W1_BAR_MISSING);
    }
    var updated := Realigned(current.value, Sort(DayOrder, week.bars));
    if updated.Err? {
      return Err(updated.error);
    }
    if updated.value.turnover != Some(m.turnover) || week.digits != m.digits {
      return Err(W1_TURNOVER_DRIFT);
    }
    var matches := current.value.turnover == updated.value.turnover;
    if !matches && !PreimageMatches(part, m.name, m.sha) {
      return Err(W1_PREIMAGE_CHANGED);
    }
    var more := if m.rewritten && !matches
                then [Job(key, WithWeekly(part.bars, u.end, updated.value), map[updated.value.day := m.turnover])]
                else [];
    r := Ok(week.jobs + more);
  }

  lemma CommitsSnoc(p: Progress, jobs: seq<Job>, crash: Option<nat>, i: nat)
    requires i < |jobs| && Commits(p, jobs[..i], crash).outcome.Going?
    ensures Commits(p, jobs[..i + 1], crash) == Commit(Commits(p, jobs[..i], crash), jobs[i], crash)
  {
    assert jobs[..i + 1][..i] == jobs[..i];
  }

  lemma {:induction false} CommitsStop(p: Progress, jobs: seq<Job>, crash: Option<nat>, i: nat)
    requires i <= |jobs| && !Commits(p, jobs[..i], crash).outcome.Going?
    ensures Commits(p, jobs, crash) == Commits(p, jobs[..i], crash)
    decreases |jobs|
  {
    if i < |jobs| {
      assert jobs[..|jobs| - 1][..i] == jobs[..i];
      CommitsStop(p, jobs[..|jobs| - 1], crash, i);
    } else {
      assert jobs[..i] == jobs;
    }
  }

  lemma ApplySnoc(p: Progress, units: seq<Unit>, crash: Option<nat>, i: nat)
    requires i < |units| && Apply(p, units[..i], crash).outcome.Going?
    ensures Apply(p, units[..i + 1], crash) == ApplyUnit(Apply(p, units[..i], crash), units[i], crash)
  {
    assert units[..i + 1][..i] == units[..i];
  }

  lemma {:induction false} ApplyStop(p: Progress, units: seq<Unit>, crash: Option<nat>, i: nat)
    requires i <= |units| && !Apply(p, units[..i], crash).outcome.Going?
    ensures Apply(p, units, crash) == Apply(p, units[..i], crash)
    decreases |units|
  {
    if i < |units| {
      assert units[..|units| - 1][..i] == units[..i];
      ApplyStop(p, units[..|units| - 1], crash, i);
    } else {
      assert units[..i] == units;
    }
  }

  /** The store and its catalog, written by one maintenance run at a time. */
  class Store {
    var catalog: Catalog
    var writes: nat

    /** Install and commit one partition and read it back. */
    method Publish(job: Job, crash: Option<nat>) returns (outcome: Outcome)
      modifies this
      ensures Progress(catalog, writes, outcome) == Commit(old(Progress(catalog, writes, Going)), job, crash)
    {
      if crash == Some(writes) {
        return Crashed;
      }
      var ok := job.bars != [] && forall b | b in job.bars :: InMonth(job.key, b);
      var increasing := CheckIncreasing(job.bars);
      if !ok || !increasing {
        return Refused(STORE_REFUSED);
      }
      catalog := catalog[job.key := Published(job.bars)];
      writes := writes + 1;
      outcome := if ReadsBack(catalog[job.key], job.expected) then Going else Refused(READBACK_MISMATCH);
    }

    method PublishAll(jobs: seq<Job>, crash: Option<nat>) returns (outcome: Outcome)
      modifies this
      ensures Progress(catalog, writes, outcome) == Commits(old(Progress(catalog, writes, Going)), jobs, crash)
    {
      hide Commit;
      ghost var start := Progress(catalog, writes, Going);
      outcome := Going;
      for i := 0 to |jobs|
        invariant outcome.Going? && Progress(catalog, writes, outcome) == Commits(start, jobs[..i], crash)
      {
        CommitsSnoc(start, jobs, crash, i);
        outcome := Publish(jobs[i], crash);
        if !outcome.Going? {
          CommitsStop(start, jobs, crash, i + 1);
          return;
        }
      }
      assert jobs[..|jobs|] == jobs;
    }

    /** Apply every prepared unit in order. */
    method ApplyPrepared(units: seq<Unit>, crash: Option<nat>) returns (outcome: Outcome)
      modifies this
      ensures Progress(catalog, writes, outcome) == ApplyRun(old(catalog), units, crash)
    {
      hide Check, Commits;
      writes := 0;
      ghost var start := Progress(catalog, 0, Going);
      outcome := Going;
      for i := 0 to |units|
        invariant outcome.Going? && Progress(catalog, writes, outcome) == Apply(start, units[..i], crash)
      {
        ApplySnoc(start, units, crash, i);
        if units[i].planned {
          var jobs := Checked(catalog, units[i]);
          if jobs.Err? {
            outcome := Refused(jobs.error);
          } else {
            outcome := PublishAll(jobs.value, crash);
          }
        }
        if !outcome.Going? {
          ApplyStop(start, units, crash, i + 1);
          return;
        }
      }
      assert units[..|units|] == units;
    }
  }

  method CheckIncreasing(bars: seq<Bar>) returns (ok: bool)
    ensures ok <==> Increasing(bars)
  {
    ok := true;
    for i := 0 to |bars|
      invariant ok <==> forall j, k | 0 <= j < k < i :: bars[j].end < bars[k].end
    {
      if i > 0 && bars[i - 1].end >= bars[i].end {
        ok := false;
      }
    }
  }
}
