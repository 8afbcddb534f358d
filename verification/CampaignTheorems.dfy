/** What a campaign result means, whatever its guards, children, batches and disks do. */
module CampaignTheorems {
  import opened Wrappers
  import opened Seqs
  import opened Journal
  import opened JournalReader
  import opened Units
  import opened Isolation
  import opened Batch
  import opened BatchChecker
  import opened BatchTheorems
  import opened Manifest
  import opened Campaign

  /** Every reported count adds up to the frozen denominator. */
  lemma SummaryConserves(m: Manifest, worlds: seq<ChildWorld>, k: nat, recorded: bool)
    requires |worlds| == |m.children| && StopsAt(Verdicts(m, worlds), k) && ValidManifest(m)
    ensures var s := CampaignOutcome(m, Verdicts(m, worlds), k, recorded).summary;
            s.success + s.isolated + s.exceptions + s.failed + s.unattempted + s.unknown == s.denominator
  {
    SettlementAddsUp(m, worlds, k);
  }

  /** What a campaign does with a unit that its manifest lists both as known isolation and as partial
      exception: however it runs, it reports the unit in both lists, and its counts, which add up to the
      denominator, hold it twice. */
  lemma OverlapIsReportedTwice(m: Manifest, worlds: seq<ChildWorld>, k: nat, recorded: bool, known: Known)
    requires |worlds| == |m.children| && StopsAt(Verdicts(m, worlds), k) && ValidManifest(m)
    requires known in Anomalies(m) && ExceptionOfId(known.id) in m.exceptions
    ensures var r := CampaignOutcome(m, Verdicts(m, worlds), k, recorded);
            var s := r.summary;
            && known in r.isolated && ExceptionOfId(known.id) in r.exceptions
            && s.isolated == |r.isolated| && s.exceptions == |r.exceptions|
            && s.success + s.isolated + s.exceptions + s.failed + s.unattempted + s.unknown == s.denominator == |Entries(m)|
            && !CountedOnce(m)
  {
    SummaryConserves(m, worlds, k, recorded);
    CountedOnceExactly(m);
    hide ValidManifest, Verdicts, Judge, Classify;
  }

  lemma {:induction false} IsolatedGrows(results: seq<BatchResult>, i: nat)
    requires i < |results| && results[i].isolated != []
    ensures IsolatedOf(results) != []
  {
    if i < |results| - 1 {
      IsolatedGrows(results[..|results| - 1], i);
    }
  }

  lemma {:induction false} IsolatedFrom(results: seq<BatchResult>)
    requires forall i | 0 <= i < |results| :: results[i].isolated == []
    ensures IsolatedOf(results) == []
  {
    if results != [] {
      IsolatedFrom(results[..|results| - 1]);
    }
  }

  lemma SettledByStatus(child: Child, world: ChildWorld, isolating: bool)
    requires Judge(child, world, isolating).Settles?
    ensures var r := Judge(child, world, isolating).result;
            r.status.Passed? <==> r.isolated == []
  {
  }

  /** A campaign passes exactly when its result was recorded, nothing was known to be broken before,
      and every batch passed outright. */
  lemma PassedExactly(m: Manifest, worlds: seq<ChildWorld>, k: nat, recorded: bool)
    requires |worlds| == |m.children| && StopsAt(Verdicts(m, worlds), k)
    ensures CampaignOutcome(m, Verdicts(m, worlds), k, recorded).status.CampaignPassed?
            <==> && recorded && k == |m.children| && Anomalies(m) == [] && m.exceptions == []
                 && forall i | 0 <= i < k :: Verdicts(m, worlds)[i].result.status.Passed?
  {
    hide Judge;
    var verdicts := Verdicts(m, worlds);
    var results := SettledResults(verdicts, k);
    if k == |m.children| {
      assert Counted(verdicts, k) == results;
      forall i | 0 <= i < k ensures verdicts[i].result.status.Passed? <==> results[i].isolated == [] {
        SettledByStatus(m.children[i], worlds[i], m.isolating);
      }
      if forall i | 0 <= i < k :: verdicts[i].result.status.Passed? {
        IsolatedFrom(results);
      } else {
        var i :| 0 <= i < k && !verdicts[i].result.status.Passed?;
        IsolatedGrows(results, i);
      }
    }
  }

  /** A campaign that passed succeeded in every unit of its denominator and in nothing else. */
  lemma PassedMeansEverySuccess(m: Manifest, worlds: seq<ChildWorld>, k: nat, recorded: bool)
    requires |worlds| == |m.children| && StopsAt(Verdicts(m, worlds), k) && ValidManifest(m)
    requires CampaignOutcome(m, Verdicts(m, worlds), k, recorded).status.CampaignPassed?
    ensures var s := CampaignOutcome(m, Verdicts(m, worlds), k, recorded).summary;
            && s.success == s.denominator
            && s.isolated == s.exceptions == s.failed == s.unattempted == s.unknown == 0
  {
    PassedExactly(m, worlds, k, recorded);
    SummaryConserves(m, worlds, k, recorded);
  }

  /** A batch that was started and whose outcome is in doubt: its reply was not validated or not recorded, or
      it stopped at a unit whose own journal and receipt do not prove a known failure. */
  ghost predicate InDoubt(child: Child, world: ChildWorld, isolating: bool) {
    && world.guardHeld && world.childIntact && world.startRecorded
    && (world.invocation.Replied? && ReplyValidated(world.invocation.reply, child.units, isolating) && world.terminalRecorded ==>
          var result, dirs := world.invocation.reply.result, world.invocation.reply.dirs;
          var j := SettledCount(result);
          result.failed.Some? && !(j < |child.units| && j in dirs && FailureKnown(result.failed.value, child.units[j], dirs[j])))
  }

  lemma DoubtfulVerdict(child: Child, world: ChildWorld, isolating: bool)
    ensures var v := Judge(child, world, isolating);
            v.Vanished? || v.StopsUnknown? <==> InDoubt(child, world, isolating)
  {
    hide FailureKnown, TerminalAccepted;
    if world.invocation.Replied? && ReplyValidated(world.invocation.reply, child.units, isolating) {
      AcceptedShape(world.invocation.reply.result, child.units, world.invocation.reply.dirs, isolating);
    }
  }

  /** A campaign is unknown exactly when its own result was not recorded, or the batch it stopped in was
      started and is in doubt. A batch that was refused before it started never makes it unknown. */
  lemma UnknownExactlyWhen(m: Manifest, worlds: seq<ChildWorld>, k: nat, recorded: bool)
    requires |worlds| == |m.children| && StopsAt(Verdicts(m, worlds), k)
    ensures CampaignOutcome(m, Verdicts(m, worlds), k, recorded).status.CampaignUnknown?
            <==> !recorded || (k < |m.children| && InDoubt(m.children[k], worlds[k], m.isolating))
  {
    hide Judge, InDoubt;
    if k < |m.children| { DoubtfulVerdict(m.children[k], worlds[k], m.isolating); }
  }

  /** The journal a batch left for the unit at one position has every started request saved. */
  ghost predicate Answered(dirs: Directories, i: nat) {
    i in dirs && StartedSequences(dirs[i].journal) <= SavedSequences(dirs[i].journal)
  }

  /** Unknown is never downgraded, settled units: whatever a campaign counts as success or as
      isolated has its own journal, and that journal has no outstanding request. */
  lemma CountedUnitIsAnswered(m: Manifest, worlds: seq<ChildWorld>, i: nat, e: Entry)
    requires |worlds| == |m.children| && i < |m.children| && HasResult(Verdicts(m, worlds)[i])
    requires e in Verdicts(m, worlds)[i].result.completed || e in Verdicts(m, worlds)[i].result.isolated
    ensures exists j :: 0 <= j < |m.children[i].units| && m.children[i].units[j] == e.unit
                        && Answered(worlds[i].invocation.reply.dirs, j)
  {
    var result := Verdicts(m, worlds)[i].result;
    var units, dirs := m.children[i].units, worlds[i].invocation.reply.dirs;
    assert TerminalAccepted(result, units, dirs, m.isolating);
    var list := if e in result.completed then CompletedList else IsolatedList;
    var j: nat :| MatchesAt(list, e, units, j, dirs, m.isolating);
    MatchedUnit(list, e, units, j, dirs, m.isolating);
    SettledIsNeverUnknown(list, e, units, j, dirs, m.isolating);
    assert Answered(dirs, j);
  }

  /** Unknown is never downgraded, the stopping unit: it is counted as a known failure only if its
      journal was replayed against the frozen requests with every response saved, and its error
      does not leave the commit open. */
  lemma KnownFailureIsAnswered(m: Manifest, worlds: seq<ChildWorld>, k: nat)
    requires |worlds| == |m.children| && k < |m.children| && Verdicts(m, worlds)[k].StopsKnown?
    ensures var result := Verdicts(m, worlds)[k].result;
            var j := SettledCount(result);
            var dirs := worlds[k].invocation.reply.dirs;
            && result.failed.Some? && j < |m.children[k].units| && Answered(dirs, j)
            && result.failed.value.unit == m.children[k].units[j]
            && Accepted(dirs[j].journal, dirs[j].files, m.children[k].units[j].sourceRequests)
            && result.failed.value.errorCode != Some(COMMIT_OUTCOME_UNKNOWN)
  {
    var result := Verdicts(m, worlds)[k].result;
    var j, dirs := SettledCount(result), worlds[k].invocation.reply.dirs;
    var unit := m.children[k].units[j];
    assert FailureKnown(result.failed.value, unit, dirs[j]);
    hide Judge, Accepted, ReplyValidated;
    AcceptedAgreesWithReader(dirs[j].journal, dirs[j].files, unit.sourceRequests);
    assert StartedSequences(dirs[j].journal) - SavedSequences(dirs[j].journal) == {};
  }

  /** And the other way round: a campaign whose stopping unit has an outstanding request, an open
      commit, or no accepted journal reports unknown. */
  lemma UnansweredForcesUnknown(m: Manifest, worlds: seq<ChildWorld>, k: nat, recorded: bool)
    requires |worlds| == |m.children| && StopsAt(Verdicts(m, worlds), k) && k < |m.children|
    requires var v := Verdicts(m, worlds)[k];
             && HasResult(v) && v.result.failed.Some?
             && var j := SettledCount(v.result);
                var dirs := worlds[k].invocation.reply.dirs;
                !Answered(dirs, j) || v.result.failed.value.errorCode == Some(COMMIT_OUTCOME_UNKNOWN)
    ensures CampaignOutcome(m, Verdicts(m, worlds), k, recorded).status.CampaignUnknown?
  {
    var v := Verdicts(m, worlds)[k];
    if v.StopsKnown? {
      KnownFailureIsAnswered(m, worlds, k);
    }
    assert v.StopsUnknown?;
  }

  // ----- the executor's own results -----

  /** The batch subprocess ran the executor on the units of the child, and hands on what it wrote. */
  ghost predicate Relays(child: Child, world: ChildWorld, worlds: seq<World>, isolating: bool, result: BatchResult)
    requires |worlds| == |child.units|
  {
    && world.guardHeld && world.childIntact && world.startRecorded && world.terminalRecorded && world.invocation.Replied?
    && var reply := world.invocation.reply;
       && reply.result == result && reply.status == result.status && reply.retries == 0
       && (reply.returnCode == 0 <==> result.status.Passed?)
       && reply.pathOk && reply.receiptOk && reply.persisted == Some(result)
       && LeftBy(child.units, worlds, isolating, reply.dirs)
  }

  /** The unit stopped with a journal that replays against its frozen requests, with nothing outstanding and
      no open commit. */
  ghost predicate FailsKnown(unit: Unit, world: World, isolating: bool) {
    var (s, d) := Settle(unit, world, isolating);
    && s.Stopped? && Accepted(d.journal, d.files, unit.sourceRequests)
    && !ReadAttemptOutcome(d.journal).outcomeUnknown && s.entry.errorCode != Some(COMMIT_OUTCOME_UNKNOWN)
  }

  lemma StoppedEntry(unit: Unit, world: World, isolating: bool)
    ensures var (s, d) := Settle(unit, world, isolating);
            s.Stopped? ==> && s.entry.unit == unit && s.entry.attempt == Some(ReadAttemptOutcome(d.journal))
                           && d.unitResult == Some(s.entry)
  {
    hide Run, ReadAttemptOutcome, IsolationProven, StepFail, ReadbackError, ZeroCommitReadback;
  }

  /** For a stopped unit, what the campaign asks of its failure is that its journal proves it. */
  lemma StoppedIsKnown(unit: Unit, world: World, isolating: bool)
    requires Settle(unit, world, isolating).0.Stopped?
    ensures var (s, d) := Settle(unit, world, isolating);
            FailureKnown(s.entry, unit, d) <==> FailsKnown(unit, world, isolating)
  {
    StoppedEntry(unit, world, isolating);
    var (s, d) := Settle(unit, world, isolating);
    hide Settle, Accepted, ReadAttemptOutcome, StartedCount, SavedCount;
    if Accepted(d.journal, d.files, unit.sourceRequests) {
      AcceptedAgreesWithReader(d.journal, d.files, unit.sourceRequests);
      AcceptedParts(d.journal, d.files, unit.sourceRequests);
    }
  }

  lemma {:induction false} SettledCounts(settled: seq<Settled>, k: nat)
    requires k <= |settled| && forall i | 0 <= i < k :: Continues(settled[i])
    ensures |Completed(settled[..k])| + |SetAsides(settled[..k])| == k
  {
    if k == 0 {
      assert settled[..0] == [];
    } else {
      hide Completed, SetAsides;
      SettledCounts(settled, k - 1);
      SettledSnoc(settled, k - 1);
    }
  }

  /** The shape of what the executor reports. */
  lemma OutcomeShape(units: seq<Unit>, settled: seq<Settled>)
    requires |settled| == |units| && BatchOutcome(units, settled).Some?
    ensures var r, k := BatchOutcome(units, settled).value, StopIndex(settled);
            && SettledCount(r) == k && (r.status.Passed? || r.status.Partial? || r.status.Failing?)
            && if k == |units| then r.failed == None && (r.status.Passed? || SafelyExhausted(r))
               else settled[k].Stopped? && r.failed == Some(settled[k].entry) && !r.status.Passed? && !SafelyExhausted(r)
  {
    SettledCounts(settled, StopIndex(settled));
    hide Completed, SetAsides;
  }

  lemma RelayIsValidated(child: Child, world: ChildWorld, worlds: seq<World>, isolating: bool, result: BatchResult)
    requires |worlds| == |child.units| && child.units != []
    requires BatchOutcome(child.units, Settlements(child.units, worlds, isolating)) == Some(result)
    requires Relays(child, world, worlds, isolating, result)
    ensures ReplyValidated(world.invocation.reply, child.units, isolating) <==> Deliverable(child.units, worlds, isolating)
  {
    ExecutorIsAccepted(child.units, worlds, isolating, world.invocation.reply.dirs, result);
    OutcomeShape(child.units, Settlements(child.units, worlds, isolating));
    hide BatchOutcome, Settlements, TerminalAccepted, Deliverable, LeftBy, SafelyExhausted, StopIndex;
  }

  lemma RelayedDirectory(child: Child, world: ChildWorld, worlds: seq<World>, isolating: bool, result: BatchResult)
    requires |worlds| == |child.units| && Relays(child, world, worlds, isolating, result)
    ensures var k, dirs := StopIndex(Settlements(child.units, worlds, isolating)), world.invocation.reply.dirs;
            k < |child.units| ==> k in dirs && dirs[k] == Settle(child.units[k], worlds[k], isolating).1
  {
    hide Settle;
  }

  /** Executor and campaign composed: a child whose subprocess ran the executor settles if and only if the
      batch is deliverable and no unit stopped; it stops known if and only if the batch is deliverable and
      the journal of the stopping unit proves its failure, and unknown if it does not; and a batch that is
      not deliverable is lost as a whole, its outcome unknown. */
  lemma RelayedExactly(child: Child, world: ChildWorld, worlds: seq<World>, isolating: bool, result: BatchResult)
    requires |worlds| == |child.units| && child.units != []
    requires BatchOutcome(child.units, Settlements(child.units, worlds, isolating)) == Some(result)
    requires Relays(child, world, worlds, isolating, result)
    ensures var v, k := Judge(child, world, isolating), StopIndex(Settlements(child.units, worlds, isolating));
            && (v.Vanished? <==> !Deliverable(child.units, worlds, isolating))
            && (v.Settles? <==> Deliverable(child.units, worlds, isolating) && k == |child.units|)
            && (v.StopsKnown? <==> Deliverable(child.units, worlds, isolating) && k < |child.units|
                                   && FailsKnown(child.units[k], worlds[k], isolating))
            && (v.StopsUnknown? <==> Deliverable(child.units, worlds, isolating) && k < |child.units|
                                     && !FailsKnown(child.units[k], worlds[k], isolating))
  {
    var units, settled := child.units, Settlements(child.units, worlds, isolating);
    var k := StopIndex(settled);
    OutcomeShape(units, settled);
    RelayIsValidated(child, world, worlds, isolating, result);
    RelayedDirectory(child, world, worlds, isolating, result);
    hide BatchOutcome, Settlements, Settle, ReplyValidated, Deliverable, FailureKnown, FailsKnown, LeftBy, StopIndex, SafelyExhausted,
         SettledCount;
    if k < |units| { StoppedIsKnown(units[k], worlds[k], isolating); }
  }

  /** And when the stopping unit's journal is what the driver left, its failure is known if and only if
      exactly one failure was recorded, the response files are those recorded as saved, every started
      request is among them, and the commit is not open. */
  lemma DrivenFailureIsKnown(unit: Unit, world: World, isolating: bool, exchanges: seq<Exchange>, code: string, last: Disk)
    requires NoDup(unit.sourceRequests)
    requires var (s, d) := Settle(unit, world, isolating);
             var left := Run(Empty(unit.sourceRequests), DriverCalls(unit.sourceRequests, exchanges, code, last));
             s.Stopped? && d.journal == left.journal && d.files == left.files
    ensures var (s, d) := Settle(unit, world, isolating);
            FailsKnown(unit, world, isolating)
            <==> && OneFailure(d.journal) && d.files.Keys == SavedSequences(d.journal)
                 && StartedSequences(d.journal) <= SavedSequences(d.journal)
                 && s.entry.errorCode != Some(COMMIT_OUTCOME_UNKNOWN)
  {
    hide Settle, Run, DriverCalls, Accepted, OneFailure, StartedSequences, SavedSequences, ReadAttemptOutcome;
    DriverRoundTrip(unit.sourceRequests, exchanges, code, last);
    KnownExactly(Settle(unit, world, isolating).1.journal);
  }
}
