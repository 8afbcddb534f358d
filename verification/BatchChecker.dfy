/**
 * The independent checker of a batch result: it looks every reported unit up in the frozen
 * batch and re-reads the directory of each one, trusting neither order nor counts.
 */
module BatchChecker {
  import opened Wrappers
  import opened Seqs
  import opened Journal
  import opened JournalReader
  import opened Units
  import opened Isolation
  import opened Batch

  /** How many provider and source requests a completed unit must have made, if it can be completed so. */
  function ExpectedRequests(status: Status, unit: Unit): Option<(nat, nat)> {
    if status.Noop? then
      if unit.sourceRequests != [] then None else Some((0, 0))
    else if unit.frequency == "60m" then
      if unit.sourceRequests != [] then None else Some((unit.providerRequestCount, 0))
    else
      Some((if unit.sourceRequests != [] then unit.targetCount else 0, |unit.sourceRequests|))
  }

  function CompletedOutcome(requests: nat): Outcome {
    Outcome(if requests == 0 then NotStarted else ResponseSaved, false, requests, requests)
  }

  predicate CompletedMatches(entry: Entry, unit: Unit, d: Directory) {
    && entry.unit == unit
    && (entry.status.Passed? || entry.status.Noop?)
    && entry.result.Some? && entry.result.value.status == entry.status
    && var expected := ExpectedRequests(entry.status, unit);
       && expected.Some?
       && entry.result.value.providerRequests == expected.value.0
       && entry.attempt == Some(CompletedOutcome(expected.value.1))
       && ReadAttemptOutcome(d.journal) == CompletedOutcome(expected.value.1)
       && entry.remaining == Some(0)
       && entry.readback == Some(Committed(true, unit.targetCount))
  }

  ghost predicate IsolatedMatches(entry: Entry, unit: Unit, d: Directory, isolating: bool) {
    && isolating && entry.unit == unit && entry.status.Isolated?
    && entry.result.Some? && entry.evidence.Some? && entry.readback.Some?
    && IsolationProven(d.journal, d.files, unit, entry.result.value)
    && entry.evidence.value == EvidenceOf(d.files, SavedCount(d.journal))
    && entry.classification == Some(ZERO_OHL)
    && entry.readback.value == Unchanged(unit.planSha, unit.targetCount, unit.targets)
    && d.unitResult == Some(entry)
  }

  datatype List = CompletedList | IsolatedList

  ghost predicate Matches(list: List, entry: Entry, unit: Unit, d: Directory, isolating: bool) {
    match list
    case CompletedList => CompletedMatches(entry, unit, d)
    case IsolatedList => IsolatedMatches(entry, unit, d, isolating)
  }

  method MatchEntry(list: List, entry: Entry, unit: Unit, d: Directory, isolating: bool) returns (ok: bool)
    ensures ok <==> Matches(list, entry, unit, d, isolating)
  {
    if list.CompletedList? {
      return CompletedMatches(entry, unit, d);
    }
    if !isolating || entry.unit != unit || !entry.status.Isolated?
       || entry.result.None? || entry.evidence.None? || entry.readback.None?
    {
      return false;
    }
    hide IsolationProven;
    var evidence := SourceIsolationEvidence(d.journal, d.files, unit, entry.result.value);
    if evidence.None? {
      return false;
    }
    ok := evidence == entry.evidence && entry.classification == Some(evidence.value.classification)
          && entry.readback.value == Unchanged(unit.planSha, unit.targetCount, unit.targets)
          && d.unitResult == Some(entry);
  }

  type Directories = map<nat, Directory>

  ghost predicate MatchesAt(list: List, entry: Entry, frozen: seq<Unit>, i: nat, dirs: Directories, isolating: bool) {
    i < |frozen| && i in dirs && Matches(list, entry, frozen[i], dirs[i], isolating)
  }

  ghost predicate AllMatch(list: List, entries: seq<Entry>, frozen: seq<Unit>, dirs: Directories, isolating: bool) {
    forall e | e in entries :: exists i: nat :: MatchesAt(list, e, frozen, i, dirs, isolating)
  }

  function UnitsOf(entries: seq<Entry>): seq<Unit> {
    Map((e: Entry) => e.unit, entries)
  }

  function Keys(frozen: seq<Unit>): seq<UnitKey> {
    Map(u => Key(u), frozen)
  }

  /** The positions of the frozen units that a list of units mentions. */
  function Positions(frozen: seq<Unit>, units: seq<Unit>): set<nat> {
    set i | 0 <= i < |frozen| && frozen[i] in units
  }

  /** A batch result is exactly a settled prefix of the frozen units, at most one failed unit
      after it, and the untouched tail; every settled unit is backed by its own directory. */
  ghost predicate TerminalAccepted(result: BatchResult, frozen: seq<Unit>, dirs: Directories, isolating: bool) {
    var settled := UnitsOf(result.completed) + UnitsOf(result.isolated);
    && NoDup(Keys(frozen))
    && AllMatch(CompletedList, result.completed, frozen, dirs, isolating)
    && AllMatch(IsolatedList, result.isolated, frozen, dirs, isolating)
    && NoDup(settled)
    && TailAccepted(result, frozen, Positions(frozen, settled))
  }

  predicate TailAccepted(result: BatchResult, frozen: seq<Unit>, settled: set<nat>) {
    if result.status.Passed? then
      settled == Span(0, |frozen|) && result.isolated == [] && result.failed == None && result.unattempted == []
    else if result.failed == None then
      result.status.Partial? && result.isolated != [] && settled == Span(0, |frozen|) && result.unattempted == []
    else
      var k := |settled|;
      && k < |frozen| && settled == Span(0, k)
      && result.failed.value.unit == frozen[k]
      && result.status == StoppedStatus(|result.completed|, |result.isolated|, result.failed.value)
      && result.unattempted == frozen[k + 1..]
  }

  /** The dictionary from key to position; repeated keys show as a size mismatch. */
  method IndexByKey(frozen: seq<Unit>) returns (index: map<UnitKey, nat>)
    ensures |index| == |frozen| <==> NoDup(Keys(frozen))
    ensures index.Keys == Elems(Keys(frozen))
    ensures forall k | k in index :: index[k] < |frozen| && Key(frozen[index[k]]) == k
  {
    index := map[];
    for i := 0 to |frozen|
      invariant index.Keys == Elems(Keys(frozen)[..i])
      invariant forall k | k in index :: index[k] < |frozen| && Key(frozen[index[k]]) == k
    {
      assert Keys(frozen)[..i + 1] == Keys(frozen)[..i] + [Key(frozen[i])];
      index := index[Key(frozen[i]) := i];
    }
    assert Keys(frozen)[..|frozen|] == Keys(frozen);
    NoDupSize(Keys(frozen));
    assert |index| == |index.Keys|;
  }

  lemma KeyDeterminesPosition(frozen: seq<Unit>, i: nat, j: nat)
    requires NoDup(Keys(frozen)) && i < |frozen| && j < |frozen| && Key(frozen[i]) == Key(frozen[j])
    ensures i == j
  {
    assert Keys(frozen)[i] == Keys(frozen)[j];
  }

  lemma MatchedUnit(list: List, e: Entry, frozen: seq<Unit>, i: nat, dirs: Directories, isolating: bool)
    requires MatchesAt(list, e, frozen, i, dirs, isolating)
    ensures e.unit == frozen[i]
  {
  }

  lemma PositionsNext(frozen: seq<Unit>, units: seq<Unit>, i: nat)
    requires NoDup(Keys(frozen)) && i < |frozen|
    ensures Positions(frozen, units + [frozen[i]]) == Positions(frozen, units) + {i}
    ensures i in Positions(frozen, units) <==> frozen[i] in units
  {
    forall j | 0 <= j < |frozen| && frozen[j] == frozen[i] ensures j == i {
      KeyDeterminesPosition(frozen, i, j);
    }
  }

  lemma AllMatchNext(list: List, entries: seq<Entry>, n: nat, frozen: seq<Unit>, i: nat, dirs: Directories, isolating: bool)
    requires n < |entries| && AllMatch(list, entries[..n], frozen, dirs, isolating)
    requires MatchesAt(list, entries[n], frozen, i, dirs, isolating)
    ensures AllMatch(list, entries[..n + 1], frozen, dirs, isolating)
  {
    assert entries[..n + 1] == entries[..n] + [entries[n]];
    hide MatchesAt;
  }

  lemma NotAllMatch(list: List, entries: seq<Entry>, n: nat, frozen: seq<Unit>, dirs: Directories, isolating: bool)
    requires n < |entries|
    ensures (forall j: nat :: !MatchesAt(list, entries[n], frozen, j, dirs, isolating)) ==> !AllMatch(list, entries, frozen, dirs, isolating)
  {
    hide MatchesAt;
    assert entries[n] in entries;
  }

  lemma NoneMatch(list: List, frozen: seq<Unit>, dirs: Directories, isolating: bool)
    ensures AllMatch(list, [], frozen, dirs, isolating)
  {
  }

  /** Settle the entries of one list: each is found by key, not settled twice, and backed by its
      own directory. */
  method SettleList(list: List, entries: seq<Entry>, frozen: seq<Unit>, index: map<UnitKey, nat>,
                    dirs: Directories, isolating: bool, before: seq<Unit>, start: set<nat>)
    returns (ok: bool, settled: set<nat>)
    requires NoDup(Keys(frozen)) && index.Keys == Elems(Keys(frozen))
    requires forall k | k in index :: index[k] < |frozen| && Key(frozen[index[k]]) == k
    requires start == Positions(frozen, before) && NoDup(before)
    ensures ok <==> AllMatch(list, entries, frozen, dirs, isolating) && NoDup(before + UnitsOf(entries))
    ensures ok ==> settled == Positions(frozen, before + UnitsOf(entries))
  {
    hide MatchesAt, AllMatch, Positions, NoDup;
    ok, settled := false, start;
    ghost var done := before;
    NoneMatch(list, frozen, dirs, isolating);
    for n := 0 to |entries|
      invariant done == before + UnitsOf(entries)[..n]
      invariant AllMatch(list, entries[..n], frozen, dirs, isolating) && NoDup(done)
      invariant settled == Positions(frozen, done)
    {
      var entry := entries[n];
      var key := Key(entry.unit);
      ghost var next := done + [entry.unit];
      assert next == before + UnitsOf(entries)[..n + 1];
      NoDupSnoc(done, entry.unit);
      NoDupPrefix(before + UnitsOf(entries), next);
      NotAllMatch(list, entries, n, frozen, dirs, isolating);
      if key !in index {
        NotFound(list, entry, frozen, dirs, isolating);
        return;
      }
      var i := index[key];
      if i in settled {
        RepeatedOrUnmatched(list, entry, frozen, dirs, isolating, done, i);
        return;
      }
      MatchesIs(list, entry, frozen, i, dirs, isolating);
      if i !in dirs {
        OnlyHere(list, entry, frozen, dirs, isolating, i);
        return;
      }
      var matches := MatchEntry(list, entry, frozen[i], dirs[i], isolating);
      if !matches {
        OnlyHere(list, entry, frozen, dirs, isolating, i);
        return;
      }
      MatchedUnit(list, entry, frozen, i, dirs, isolating);
      PositionsNext(frozen, done, i);
      AllMatchNext(list, entries, n, frozen, i, dirs, isolating);
      settled := settled + {i};
      done := next;
    }
    assert UnitsOf(entries)[..|entries|] == UnitsOf(entries);
    assert entries[..|entries|] == entries;
    ok := true;
  }

  lemma MatchesIs(list: List, e: Entry, frozen: seq<Unit>, i: nat, dirs: Directories, isolating: bool)
    ensures MatchesAt(list, e, frozen, i, dirs, isolating)
       <==> i < |frozen| && i in dirs && Matches(list, e, frozen[i], dirs[i], isolating)
  {
    hide Matches;
  }

  lemma MatchedUnits(list: List, e: Entry, frozen: seq<Unit>, dirs: Directories, isolating: bool)
    ensures forall j: nat | MatchesAt(list, e, frozen, j, dirs, isolating) :: j < |frozen| && Key(frozen[j]) == Key(e.unit)
    ensures forall j: nat | MatchesAt(list, e, frozen, j, dirs, isolating) :: Key(frozen[j]) in Elems(Keys(frozen))
  {
    forall j: nat | MatchesAt(list, e, frozen, j, dirs, isolating)
      ensures j < |frozen| && Key(frozen[j]) == Key(e.unit) && Key(frozen[j]) in Elems(Keys(frozen))
    {
      MatchedUnit(list, e, frozen, j, dirs, isolating);
      assert Keys(frozen)[j] == Key(frozen[j]);
    }
  }

  lemma OnlyHere(list: List, e: Entry, frozen: seq<Unit>, dirs: Directories, isolating: bool, i: nat)
    requires NoDup(Keys(frozen)) && i < |frozen| && Key(frozen[i]) == Key(e.unit)
    requires !MatchesAt(list, e, frozen, i, dirs, isolating)
    ensures forall j: nat :: !MatchesAt(list, e, frozen, j, dirs, isolating)
  {
    hide MatchesAt;
    MatchedUnits(list, e, frozen, dirs, isolating);
    forall j: nat | j < |frozen| && Key(frozen[j]) == Key(e.unit) ensures j == i {
      KeyDeterminesPosition(frozen, i, j);
    }
  }

  lemma NotFound(list: List, e: Entry, frozen: seq<Unit>, dirs: Directories, isolating: bool)
    requires Key(e.unit) !in Elems(Keys(frozen))
    ensures forall j: nat :: !MatchesAt(list, e, frozen, j, dirs, isolating)
  {
    hide MatchesAt;
    MatchedUnits(list, e, frozen, dirs, isolating);
  }

  lemma RepeatedOrUnmatched(list: List, e: Entry, frozen: seq<Unit>, dirs: Directories, isolating: bool,
                            done: seq<Unit>, i: nat)
    requires NoDup(Keys(frozen)) && i < |frozen| && Key(frozen[i]) == Key(e.unit) && i in Positions(frozen, done)
    ensures e.unit in done || forall j: nat :: !MatchesAt(list, e, frozen, j, dirs, isolating)
  {
    if MatchesAt(list, e, frozen, i, dirs, isolating) {
      MatchedUnit(list, e, frozen, i, dirs, isolating);
    } else {
      OnlyHere(list, e, frozen, dirs, isolating, i);
    }
  }

  method ValidatedNativeTerminal(result: BatchResult, frozen: seq<Unit>, dirs: Directories, isolating: bool)
    returns (ok: bool)
    ensures ok <==> TerminalAccepted(result, frozen, dirs, isolating)
  {
    var index := IndexByKey(frozen);
    if |index| != |frozen| {
      return false;
    }
    hide AllMatch, TailAccepted;
    assert [] + UnitsOf(result.completed) == UnitsOf(result.completed);
    var allCompleted, settled := SettleList(CompletedList, result.completed, frozen, index, dirs, isolating, [], {});
    if !allCompleted {
      NoDupPrefix(UnitsOf(result.completed) + UnitsOf(result.isolated), UnitsOf(result.completed));
      return false;
    }
    var allIsolated, all := SettleList(IsolatedList, result.isolated, frozen, index, dirs, isolating,
                                       UnitsOf(result.completed), settled);
    if !allIsolated {
      return false;
    }
    ok := TailAccepted(result, frozen, all);
  }
}
