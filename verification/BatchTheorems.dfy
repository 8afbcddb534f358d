/** What the batch checker accepts is a true partition, and it accepts what the executor writes. */
module BatchTheorems {
  import opened Wrappers
  import opened Seqs
  import opened Journal
  import opened JournalReader
  import opened Units
  import opened Isolation
  import opened Batch
  import opened BatchChecker

  function FailedUnits(result: BatchResult): seq<Unit> {
    if result.failed.Some? then [result.failed.value.unit] else []
  }

  lemma DistinctUnits(frozen: seq<Unit>)
    requires NoDup(Keys(frozen))
    ensures NoDup(frozen)
  {
    forall i, j | 0 <= i < j < |frozen| ensures frozen[i] != frozen[j] {
      assert Keys(frozen)[i] != Keys(frozen)[j];
    }
  }

  lemma MatchedAreFrozen(list: List, entries: seq<Entry>, frozen: seq<Unit>, dirs: Directories, isolating: bool)
    requires AllMatch(list, entries, frozen, dirs, isolating)
    ensures forall u | u in UnitsOf(entries) :: u in frozen
  {
    forall u | u in UnitsOf(entries) ensures u in frozen {
      var n :| 0 <= n < |entries| && entries[n].unit == u;
      assert entries[n] in entries;
      var i: nat :| MatchesAt(list, entries[n], frozen, i, dirs, isolating);
      MatchedUnit(list, entries[n], frozen, i, dirs, isolating);
    }
  }

  lemma PositionsMember(frozen: seq<Unit>, settled: seq<Unit>, k: nat, u: Unit)
    requires k <= |frozen| && Positions(frozen, settled) == Span(0, k) && (u in settled ==> u in frozen)
    ensures u in settled <==> u in frozen[..k]
  {
    if u in settled {
      var i :| 0 <= i < |frozen| && frozen[i] == u;
      assert i in Positions(frozen, settled);
      assert frozen[..k][i] == u;
    }
    if u in frozen[..k] {
      var i :| 0 <= i < k && frozen[i] == u;
      assert i in Positions(frozen, settled);
    }
  }

  lemma PrefixSettled(frozen: seq<Unit>, settled: seq<Unit>, k: nat)
    requires NoDup(frozen) && NoDup(settled) && k <= |frozen|
    requires Positions(frozen, settled) == Span(0, k)
    requires forall u | u in settled :: u in frozen
    ensures multiset(settled) == multiset(frozen[..k]) && |settled| == k
  {
    hide NoDup, Positions, Span;
    NoDupPrefix(frozen, frozen[..k]);
    forall u ensures u in Elems(settled) <==> u in Elems(frozen[..k]) {
      PositionsMember(frozen, settled, k, u);
    }
    SameElements(settled, frozen[..k]);
    assert |multiset(settled)| == |multiset(frozen[..k])|;
  }

  lemma TailShape(result: BatchResult, frozen: seq<Unit>, settled: set<nat>)
    requires TailAccepted(result, frozen, settled)
    ensures var k := |settled|;
            && k <= |frozen| && settled == Span(0, k)
            && frozen == frozen[..k] + FailedUnits(result) + result.unattempted
  {
    var k := |settled|;
    assert k <= |frozen|;
    if result.failed.Some? {
      assert frozen == frozen[..k] + [frozen[k]] + frozen[k + 1..];
    } else {
      assert frozen == frozen[..k] + [] + [];
    }
  }

  /** Soundness: an accepted result loses no unit and counts none twice. The settled units are
      exactly a prefix of the batch; a failed unit, if any, is the one right after it. */
  lemma AcceptedIsPartition(result: BatchResult, frozen: seq<Unit>, dirs: Directories, isolating: bool)
    requires TerminalAccepted(result, frozen, dirs, isolating)
    ensures multiset(UnitsOf(result.completed)) + multiset(UnitsOf(result.isolated))
            + multiset(FailedUnits(result)) + multiset(result.unattempted) == multiset(frozen)
    ensures var k := |result.completed| + |result.isolated|;
            && k <= |frozen|
            && multiset(UnitsOf(result.completed)) + multiset(UnitsOf(result.isolated)) == multiset(frozen[..k])
            && frozen[k..] == FailedUnits(result) + result.unattempted
  {
    hide TerminalAccepted, UnitsOf, FailedUnits;
    var k := SettledPrefix(result, frozen, dirs, isolating);
    UnitsLength(result.completed);
    UnitsLength(result.isolated);
    JoinedParts(UnitsOf(result.completed), UnitsOf(result.isolated), FailedUnits(result), result.unattempted, frozen, k);
  }

  lemma UnitsLength(entries: seq<Entry>)
    ensures |UnitsOf(entries)| == |entries|
  {
  }

  lemma SettledPrefix(result: BatchResult, frozen: seq<Unit>, dirs: Directories, isolating: bool) returns (k: nat)
    requires TerminalAccepted(result, frozen, dirs, isolating)
    ensures k <= |frozen| && multiset(UnitsOf(result.completed) + UnitsOf(result.isolated)) == multiset(frozen[..k])
    ensures frozen == frozen[..k] + FailedUnits(result) + result.unattempted
  {
    hide NoDup, Positions, UnitsOf, TailAccepted, AllMatch, Keys, FailedUnits, Span;
    var settled := UnitsOf(result.completed) + UnitsOf(result.isolated);
    DistinctUnits(frozen);
    MatchedAreFrozen(CompletedList, result.completed, frozen, dirs, isolating);
    MatchedAreFrozen(IsolatedList, result.isolated, frozen, dirs, isolating);
    k := |Positions(frozen, settled)|;
    TailShape(result, frozen, Positions(frozen, settled));
    PrefixSettled(frozen, settled, k);
  }

  /** A prefix in two lists and a rest in two lists are the whole. */
  lemma JoinedParts(a: seq<Unit>, b: seq<Unit>, c: seq<Unit>, d: seq<Unit>, frozen: seq<Unit>, k: nat)
    requires k <= |frozen| && multiset(a + b) == multiset(frozen[..k]) && frozen == frozen[..k] + c + d
    ensures multiset(a) + multiset(b) == multiset(frozen[..k]) && frozen[k..] == c + d && k == |a| + |b|
    ensures multiset(a) + multiset(b) + multiset(c) + multiset(d) == multiset(frozen)
  {
    assert |multiset(a + b)| == |multiset(frozen[..k])|;
    assert frozen == frozen[..k] + (c + d);
    assert multiset(frozen) == multiset(frozen[..k]) + multiset(c + d);
  }

  /** A completed or isolated unit of an accepted result has every started request saved. */
  lemma SettledIsNeverUnknown(list: List, e: Entry, frozen: seq<Unit>, i: nat, dirs: Directories, isolating: bool)
    requires MatchesAt(list, e, frozen, i, dirs, isolating)
    ensures !ReadAttemptOutcome(dirs[i].journal).outcomeUnknown
    ensures StartedSequences(dirs[i].journal) <= SavedSequences(dirs[i].journal)
  {
    if list.IsolatedList? {
      IsolationHasNoUnknown(dirs[i].journal, dirs[i].files, frozen[i], e.result.value);
    }
    assert !ReadAttemptOutcome(dirs[i].journal).outcomeUnknown;
    assert StartedSequences(dirs[i].journal) - SavedSequences(dirs[i].journal) == {};
  }

  // ----- completeness -----

  lemma SettledUnit(unit: Unit, world: World, isolating: bool)
    ensures var (s, d) := Settle(unit, world, isolating);
            !s.Aborted? ==> s.entry.unit == unit && d.unitResult == Some(s.entry)
  {
  }

  lemma SetAsideMatches(unit: Unit, world: World, isolating: bool)
    requires Settle(unit, world, isolating).0.SetAside?
    ensures var (s, d) := Settle(unit, world, isolating);
            IsolatedMatches(s.entry, unit, d, isolating) <==> unit.targetCount == |unit.targets|
  {
  }

  /** A completed unit did what was planned: an hourly or unchanged unit has no source requests and sent
      none, any other sent exactly the frozen ones; the manager counted the provider requests planned for
      it, the journal holds a saved response for each source request, and the committed state was read
      back in full. */
  ghost predicate AsPlanned(unit: Unit, world: World) {
    && world.warmup.Returned? && world.postCommit.ReadbackReturned?
    && var result, sources := world.warmup.result, |unit.sourceRequests|;
       var outcome := ReadAttemptOutcome(Run(Empty(unit.sourceRequests), world.calls).journal);
       && (result.status.Noop? || unit.frequency == "60m" ==> sources == 0)
       && result.providerRequests == (if result.status.Noop? then 0
                                      else if unit.frequency == "60m" then unit.providerRequestCount
                                      else if sources > 0 then unit.targetCount else 0)
       && outcome.requestsStarted == outcome.responsesSaved == sources && !outcome.outcomeUnknown
       && outcome.state == (if sources == 0 then NotStarted else ResponseSaved)
       && world.postCommit.readback == Committed(true, unit.targetCount)
  }

  lemma DoneMatches(unit: Unit, world: World, isolating: bool)
    requires Settle(unit, world, isolating).0.Done?
    ensures var (s, d) := Settle(unit, world, isolating);
            CompletedMatches(s.entry, unit, d) <==> AsPlanned(unit, world)
  {
    hide Run, ReadAttemptOutcome;
  }

  /** The units of the settled entries, completed and isolated together. */
  ghost function HeldBy(settled: seq<Settled>): multiset<Unit> {
    multiset(UnitsOf(Completed(settled))) + multiset(UnitsOf(SetAsides(settled)))
  }

  lemma UnitsSnoc(entries: seq<Entry>, e: Entry)
    ensures UnitsOf(entries + [e]) == UnitsOf(entries) + [e.unit]
  {
  }

  lemma HeldBySnoc(settled: seq<Settled>, k: nat)
    requires k < |settled| && Continues(settled[k])
    ensures HeldBy(settled[..k + 1]) == HeldBy(settled[..k]) + multiset{settled[k].entry.unit}
  {
    hide Completed, SetAsides, UnitsOf;
    SettledSnoc(settled, k);
    var e := settled[k].entry;
    var completed, isolated := Completed(settled[..k]), SetAsides(settled[..k]);
    if settled[k].Done? {
      UnitsSnoc(completed, e);
      assert isolated + [] == isolated;
    } else {
      UnitsSnoc(isolated, e);
      assert completed + [] == completed;
    }
  }

  /** The settled units of a batch, completed and isolated together, are its first k units. */
  lemma {:induction false} SettledUnits(units: seq<Unit>, settled: seq<Settled>, k: nat)
    requires |settled| == |units| && k <= |units|
    requires forall i | 0 <= i < k :: Continues(settled[i]) && settled[i].entry.unit == units[i]
    ensures HeldBy(settled[..k]) == multiset(units[..k])
  {
    if k == 0 {
      assert settled[..0] == [] && units[..0] == [];
    } else {
      hide HeldBy;
      SettledUnits(units, settled, k - 1);
      assert Continues(settled[k - 1]) && settled[k - 1].entry.unit == units[k - 1];
      hide Continues;
      HeldBySnoc(settled, k - 1);
      TakeSnoc(units, k - 1);
    }
  }

  /** One of the first k units settled as given. */
  ghost predicate SettledAs(settled: seq<Settled>, k: nat, x: Settled)
    requires k <= |settled|
  {
    exists i :: 0 <= i < k && settled[i] == x
  }

  lemma SettledAsNext(settled: seq<Settled>, k: nat, x: Settled)
    requires k < |settled|
    ensures SettledAs(settled, k + 1, x) <==> SettledAs(settled, k, x) || settled[k] == x
  {
  }

  lemma {:induction false} EntriesCome(settled: seq<Settled>, k: nat, e: Entry)
    requires k <= |settled|
    ensures e in Completed(settled[..k]) <==> SettledAs(settled, k, Done(e))
    ensures e in SetAsides(settled[..k]) <==> SettledAs(settled, k, SetAside(e))
  {
    if k == 0 {
      assert settled[..0] == [];
    } else {
      hide Completed, SetAsides, SettledAs;
      EntriesCome(settled, k - 1, e);
      SettledSnoc(settled, k - 1);
      SettledAsNext(settled, k - 1, Done(e));
      SettledAsNext(settled, k - 1, SetAside(e));
    }
  }

  /** The directories a checker finds are those the executor left. */
  ghost predicate LeftBy(units: seq<Unit>, worlds: seq<World>, isolating: bool, dirs: Directories)
    requires |worlds| == |units|
  {
    forall i | 0 <= i < |units| && i <= StopIndex(Settlements(units, worlds, isolating)) ::
      i in dirs && dirs[i] == Settle(units[i], worlds[i], isolating).1
  }

  /** What the frozen batch and the manager must have delivered for the checker to agree. */
  ghost predicate Deliverable(units: seq<Unit>, worlds: seq<World>, isolating: bool)
    requires |worlds| == |units|
  {
    var settled := Settlements(units, worlds, isolating);
    && NoDup(Keys(units))
    && forall i | 0 <= i < StopIndex(settled) ::
         if settled[i].Done? then AsPlanned(units[i], worlds[i]) else units[i].targetCount == |units[i].targets|
  }

  lemma ListsMatch(units: seq<Unit>, worlds: seq<World>, isolating: bool, dirs: Directories, k: nat)
    requires |worlds| == |units| && k == StopIndex(Settlements(units, worlds, isolating))
    requires LeftBy(units, worlds, isolating, dirs) && Deliverable(units, worlds, isolating)
    ensures var settled := Settlements(units, worlds, isolating);
            && AllMatch(CompletedList, Completed(settled[..k]), units, dirs, isolating)
            && AllMatch(IsolatedList, SetAsides(settled[..k]), units, dirs, isolating)
  {
    var settled := Settlements(units, worlds, isolating);
    hide Settle, CompletedMatches, IsolatedMatches, AsPlanned;
    forall e | e in Completed(settled[..k])
      ensures exists i: nat :: MatchesAt(CompletedList, e, units, i, dirs, isolating)
    {
      EntriesCome(settled, k, e);
      var i :| 0 <= i < k && settled[i] == Done(e);
      DoneMatches(units[i], worlds[i], isolating);
      assert MatchesAt(CompletedList, e, units, i, dirs, isolating);
    }
    forall e | e in SetAsides(settled[..k])
      ensures exists i: nat :: MatchesAt(IsolatedList, e, units, i, dirs, isolating)
    {
      EntriesCome(settled, k, e);
      var i :| 0 <= i < k && settled[i] == SetAside(e);
      SetAsideMatches(units[i], worlds[i], isolating);
      assert MatchesAt(IsolatedList, e, units, i, dirs, isolating);
    }
  }

  lemma ListsMatchOnly(units: seq<Unit>, worlds: seq<World>, isolating: bool, dirs: Directories, k: nat)
    requires |worlds| == |units| && k == StopIndex(Settlements(units, worlds, isolating))
    requires LeftBy(units, worlds, isolating, dirs) && NoDup(Keys(units))
    requires var settled := Settlements(units, worlds, isolating);
             && AllMatch(CompletedList, Completed(settled[..k]), units, dirs, isolating)
             && AllMatch(IsolatedList, SetAsides(settled[..k]), units, dirs, isolating)
    ensures Deliverable(units, worlds, isolating)
  {
    var settled := Settlements(units, worlds, isolating);
    hide Settle, CompletedMatches, IsolatedMatches, AsPlanned;
    forall i | 0 <= i < k
      ensures if settled[i].Done? then AsPlanned(units[i], worlds[i]) else units[i].targetCount == |units[i].targets|
    {
      var e := settled[i].entry;
      SettledUnit(units[i], worlds[i], isolating);
      EntriesCome(settled, k, e);
      assert Continues(settled[i]);
      var list := if settled[i].Done? then CompletedList else IsolatedList;
      var j: nat :| MatchesAt(list, e, units, j, dirs, isolating);
      MatchedUnit(list, e, units, j, dirs, isolating);
      KeyDeterminesPosition(units, i, j);
      if settled[i].Done? { DoneMatches(units[i], worlds[i], isolating); }
      else { SetAsideMatches(units[i], worlds[i], isolating); }
    }
  }

  lemma PositionsOfPrefix(units: seq<Unit>, settled: seq<Unit>, k: nat)
    requires NoDup(units) && k <= |units| && multiset(settled) == multiset(units[..k])
    ensures NoDup(settled) && Positions(units, settled) == Span(0, k) && |settled| == k
  {
    NoDupPermutation(settled, units[..k]);
    forall i | 0 <= i < |units| ensures units[i] in settled <==> i < k {
      if i < k { assert units[..k][i] == units[i]; }
      assert units[i] in settled <==> units[i] in Elems(settled);
      assert units[i] in units[..k] <==> units[i] in Elems(units[..k]);
    }
    assert |multiset(settled)| == |multiset(units[..k])|;
  }

  lemma TailMatches(units: seq<Unit>, worlds: seq<World>, isolating: bool, k: nat, result: BatchResult)
    requires |worlds| == |units| && k == StopIndex(Settlements(units, worlds, isolating)) && units != []
    requires BatchOutcome(units, Settlements(units, worlds, isolating)) == Some(result)
    requires |result.completed| + |result.isolated| == k
    ensures TailAccepted(result, units, Span(0, k))
  {
    if k < |units| { SettledUnit(units[k], worlds[k], isolating); }
  }

  /** Completeness, exactly: whatever the manager, the provider and the disk do, the checker accepts
      the result the executor wrote if and only if the frozen keys are distinct, every completed unit
      did what was planned for it, and every isolated unit counts its own targets. */
  lemma ExecutorIsAccepted(units: seq<Unit>, worlds: seq<World>, isolating: bool, dirs: Directories, result: BatchResult)
    requires |worlds| == |units| && units != []
    requires BatchOutcome(units, Settlements(units, worlds, isolating)) == Some(result)
    requires LeftBy(units, worlds, isolating, dirs)
    ensures TerminalAccepted(result, units, dirs, isolating) <==> Deliverable(units, worlds, isolating)
  {
    hide Settle, TailAccepted, LeftBy, AllMatch, AsPlanned;
    var settled := Settlements(units, worlds, isolating);
    var k := StopIndex(settled);
    if NoDup(Keys(units)) {
      DistinctUnits(units);
      forall i | 0 <= i < k ensures settled[i].entry.unit == units[i] {
        assert Continues(settled[i]);
        SettledUnit(units[i], worlds[i], isolating);
      }
      SettledUnits(units, settled, k);
      var all := UnitsOf(result.completed) + UnitsOf(result.isolated);
      assert multiset(all) == multiset(units[..k]);
      PositionsOfPrefix(units, all, k);
      TailMatches(units, worlds, isolating, k, result);
      if Deliverable(units, worlds, isolating) {
        ListsMatch(units, worlds, isolating, dirs, k);
      }
      if TerminalAccepted(result, units, dirs, isolating) {
        ListsMatchOnly(units, worlds, isolating, dirs, k);
      }
    }
  }
}
