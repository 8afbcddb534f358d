/**
 * The batch executor: units settle one by one as done, set aside or stopped, and the first
 * that stops leaves the tail untouched. The market data manager, the provider and the disk are
 * an arbitrary world given for each unit.
 */
module Batch {
  import opened Wrappers
  import opened Seqs
  import opened Journal
  import opened JournalReader
  import opened Units
  import opened Isolation

  datatype Warmup = Raised(code: string) | Returned(result: WarmupResult)

  /** The plan asked for after a warm-up. A failure is caught by the isolation branch only when it
      is one of the recovery's own errors. */
  datatype Replan = ReplanRaised(code: string, recoveryError: bool) | Replanned(planSha: string, remaining: seq<Target>)

  datatype PostCommit = ReadbackRaised(code: string) | ReadbackReturned(readback: Readback)

  /** Everything about one unit that the executor does not decide itself. */
  datatype World = World(
    reachable: bool,           // the unit directory and its environment could be opened
    calls: seq<Call>,          // what the manager did to the journal
    warmup: Warmup,
    failureDisk: Disk,         // the append of the failure record
    replan: Replan,
    postCommit: PostCommit,
    receiptsWritten: bool)     // the unit's receipts could be written

  datatype Settled = Done(entry: Entry) | SetAside(entry: Entry) | Stopped(entry: Entry) | Aborted

  function PlainEntry(unit: Unit, status: Status, result: Option<WarmupResult>, code: Option<string>,
                      attempt: Outcome): Entry
  {
    Entry(unit, status, result, code, Some(attempt), None, None, None, None, None)
  }

  /** The error code recorded when the committed state could not be read back, if it could not. */
  function ReadbackError(replan: Replan, post: PostCommit): Option<string> {
    var raw :=
      match replan
      case ReplanRaised(code, _) => Some(SafeCode(code))
      case Replanned(_, remaining) =>
        if remaining != [] then Some(READBACK_REPLAN_REMAINS)
        else if post.ReadbackRaised? then Some(SafeCode(post.code))
        else None;
    if raw == Some(EXECUTION_FAILED) then Some(POST_COMMIT_READBACK_FAILED) else raw
  }

  function ZeroCommitReadback(unit: Unit, replan: Replan): Option<Readback> {
    if replan.Replanned? && replan.planSha == unit.planSha && replan.remaining == unit.targets
    then Some(Unchanged(unit.planSha, |unit.targets|, unit.targets)) else None
  }

  ghost function StopState(s: State, code: string, disk: Disk): Option<State> {
    var (t, error) := StepFail(s, code, None, disk);
    if error.Some? then None else Some(t)
  }

  /** A warm-up that did not pass: isolated when the source fault and the absence of any write are
      both proven, otherwise the batch stops here. */
  ghost function NotPassed(unit: Unit, result: WarmupResult, s: State, replan: Replan, isolating: bool): Settled {
    var failure := PlainEntry(unit, result.status, Some(result), None, ReadAttemptOutcome(s.journal));
    if !isolating then
      Stopped(failure)
    else if !IsolationProven(s.journal, s.files, unit, result) then
      Stopped(failure.(isolationReason := Some(EVIDENCE_FAILED)))
    else if replan.ReplanRaised? && !replan.recoveryError then
      Aborted
    else if ZeroCommitReadback(unit, replan).None? then
      Stopped(failure.(isolationReason := Some(READBACK_FAILED)))
    else
      SetAside(failure.(status := Isolated, classification := Some(ZERO_OHL),
                        evidence := Some(EvidenceOf(s.files, SavedCount(s.journal))),
                        readback := ZeroCommitReadback(unit, replan)))
  }

  ghost function SettleIn(unit: Unit, world: World, isolating: bool, s: State): (Settled, State) {
    match world.warmup
    case Raised(code) =>
      var t := StopState(s, SafeCode(code), world.failureDisk);
      if t.None? then (Aborted, s)
      else (Stopped(PlainEntry(unit, Failing, None, Some(SafeCode(code)), ReadAttemptOutcome(t.value.journal))), t.value)
    case Returned(result) =>
      if !result.status.Passed? && !result.status.Noop? then
        var t := StopState(s, RESULT_NOT_PASSED, world.failureDisk);
        if t.None? then (Aborted, s)
        else (NotPassed(unit, result, t.value, world.replan, isolating), t.value)
      else
        var code := ReadbackError(world.replan, world.postCommit);
        if code.Some? then
          var t := StopState(s, code.value, world.failureDisk);
          if t.None? then (Aborted, s)
          else (Stopped(PlainEntry(unit, if result.applied > 0 then Partial else Failing, Some(result), code,
                                   ReadAttemptOutcome(t.value.journal))), t.value)
        else
          (Done(PlainEntry(unit, result.status, Some(result), None, ReadAttemptOutcome(s.journal))
                .(remaining := Some(0), readback := Some(world.postCommit.readback))), s)
  }

  /** How one unit settles, and the directory it leaves. */
  ghost function Settle(unit: Unit, world: World, isolating: bool): (Settled, Directory) {
    if !world.reachable || !NoDup(unit.sourceRequests) then
      (Aborted, Directory([], map[], None))
    else
      var (settled, s) := SettleIn(unit, world, isolating, Run(Empty(unit.sourceRequests), world.calls));
      if settled.Aborted? || !world.receiptsWritten then (Aborted, Directory(s.journal, s.files, None))
      else (settled, Directory(s.journal, s.files, Some(settled.entry)))
  }

  method SettleNotPassed(unit: Unit, result: WarmupResult, journal: AttemptJournal, replan: Replan, isolating: bool)
    returns (settled: Settled)
    ensures settled == NotPassed(unit, result, journal.Abstract(), replan, isolating)
  {
    var failure := PlainEntry(unit, result.status, Some(result), None, ReadAttemptOutcome(journal.journal));
    if !isolating {
      return Stopped(failure);
    }
    hide IsolationProven;
    var evidence := SourceIsolationEvidence(journal.journal, journal.files, unit, result);
    if evidence.None? {
      return Stopped(failure.(isolationReason := Some(EVIDENCE_FAILED)));
    }
    if replan.ReplanRaised? && !replan.recoveryError {
      return Aborted;
    }
    var readback := ZeroCommitReadback(unit, replan);
    if readback.None? {
      return Stopped(failure.(isolationReason := Some(READBACK_FAILED)));
    }
    settled := SetAside(failure.(status := Isolated, classification := Some(evidence.value.classification),
                                 evidence := evidence, readback := readback));
  }

  method SettleOpened(unit: Unit, world: World, isolating: bool, journal: AttemptJournal) returns (settled: Settled)
    modifies journal
    ensures settled == SettleIn(unit, world, isolating, old(journal.Abstract())).0
    ensures journal.Abstract() == SettleIn(unit, world, isolating, old(journal.Abstract())).1 || settled.Aborted?
  {
    hide NotPassed;
    match world.warmup {
      case Raised(raw) =>
        var code := SafeCode(raw);
        var error := journal.MarkFailed(code, None, world.failureDisk);
        if error.Some? {
          return Aborted;
        }
        settled := Stopped(PlainEntry(unit, Failing, None, Some(code), ReadAttemptOutcome(journal.journal)));
      case Returned(result) =>
        if !result.status.Passed? && !result.status.Noop? {
          var error := journal.MarkFailed(RESULT_NOT_PASSED, None, world.failureDisk);
          if error.Some? {
            return Aborted;
          }
          settled := SettleNotPassed(unit, result, journal, world.replan, isolating);
          return;
        }
        var code := ReadbackError(world.replan, world.postCommit);
        if code.Some? {
          var error := journal.MarkFailed(code.value, None, world.failureDisk);
          if error.Some? {
            return Aborted;
          }
          settled := Stopped(PlainEntry(unit, if result.applied > 0 then Partial else Failing, Some(result), code,
                                        ReadAttemptOutcome(journal.journal)));
          return;
        }
        settled := Done(PlainEntry(unit, result.status, Some(result), None, ReadAttemptOutcome(journal.journal))
                        .(remaining := Some(0), readback := Some(world.postCommit.readback)));
    }
  }

  method SettleUnit(unit: Unit, world: World, isolating: bool) returns (settled: Settled, directory: Directory)
    ensures settled == Settle(unit, world, isolating).0
    ensures !settled.Aborted? ==> directory == Settle(unit, world, isolating).1
  {
    settled, directory := Aborted, Directory([], map[], None);
    if !world.reachable {
      return;
    }
    var journal := AttemptJournal.Open(unit.sourceRequests);
    if journal == null {
      return;
    }
    Drive(journal, world.calls);
    hide SettleIn;
    settled := SettleOpened(unit, world, isolating, journal);
    if settled.Aborted? || !world.receiptsWritten {
      settled := Aborted;
      return;
    }
    directory := Directory(journal.journal, journal.files, Some(settled.entry));
  }

  // ----- the whole batch -----

  predicate Continues(s: Settled) { s.Done? || s.SetAside? }

  ghost function Settlements(units: seq<Unit>, worlds: seq<World>, isolating: bool): (r: seq<Settled>)
    requires |worlds| == |units|
    ensures |r| == |units|
    ensures forall i | 0 <= i < |units| :: r[i] == Settle(units[i], worlds[i], isolating).0
  {
    seq(|units|, i requires 0 <= i < |units| => Settle(units[i], worlds[i], isolating).0)
  }

  /** The first unit that does not let the batch continue, or the number of units. */
  function StopIndex(settled: seq<Settled>): (k: nat)
    ensures k <= |settled|
    ensures forall i | 0 <= i < k :: Continues(settled[i])
    ensures k < |settled| ==> !Continues(settled[k])
  {
    if settled == [] || !Continues(settled[0]) then 0 else 1 + StopIndex(settled[1..])
  }

  function Completed(settled: seq<Settled>): seq<Entry> {
    if settled == [] then []
    else
      var last := settled[|settled| - 1];
      Completed(settled[..|settled| - 1]) + if last.Done? then [last.entry] else []
  }

  function SetAsides(settled: seq<Settled>): seq<Entry> {
    if settled == [] then []
    else
      var last := settled[|settled| - 1];
      SetAsides(settled[..|settled| - 1]) + if last.SetAside? then [last.entry] else []
  }

  /** A batch that stopped is partial as soon as anything was settled or applied before. */
  function StoppedStatus(completed: nat, isolated: nat, failure: Entry): Status {
    if completed > 0 || isolated > 0 || failure.status.Partial?
       || (failure.result.Some? && failure.result.value.applied > 0) then Partial else Failing
  }

  ghost function BatchOutcome(units: seq<Unit>, settled: seq<Settled>): Option<BatchResult>
    requires |settled| == |units|
  {
    var k := StopIndex(settled);
    var completed, isolated := Completed(settled[..k]), SetAsides(settled[..k]);
    if k == |units| then
      Some(BatchResult(if isolated != [] then Partial else Passed, completed, isolated, None, []))
    else if settled[k].Aborted? then
      None
    else
      var failure := settled[k].entry;
      Some(BatchResult(StoppedStatus(|completed|, |isolated|, failure), completed, isolated, Some(failure), units[k + 1..]))
  }

  lemma SettledSnoc(settled: seq<Settled>, k: nat)
    requires k < |settled|
    ensures Completed(settled[..k + 1])
         == Completed(settled[..k]) + if settled[k].Done? then [settled[k].entry] else []
    ensures SetAsides(settled[..k + 1])
         == SetAsides(settled[..k]) + if settled[k].SetAside? then [settled[k].entry] else []
  {
    assert settled[..k + 1][..k] == settled[..k];
  }

  lemma {:induction false} StopIndexAt(settled: seq<Settled>, k: nat)
    requires k <= |settled| && forall i | 0 <= i < k :: Continues(settled[i])
    requires k < |settled| ==> !Continues(settled[k])
    ensures StopIndex(settled) == k
  {
    if settled != [] && Continues(settled[0]) {
      assert forall i | 0 <= i < k - 1 :: settled[1..][i] == settled[i + 1];
      StopIndexAt(settled[1..], k - 1);
    }
  }

  lemma OutcomeAt(units: seq<Unit>, settled: seq<Settled>, k: nat, completed: seq<Entry>, isolated: seq<Entry>)
    requires |settled| == |units| && Books(settled, k, completed, isolated)
    requires k < |settled| ==> !Continues(settled[k])
    ensures StopIndex(settled) == k <= |units|
    ensures BatchOutcome(units, settled)
            == if k == |units| then
                 Some(BatchResult(if isolated != [] then Partial else Passed, completed, isolated, None, []))
               else if settled[k].Aborted? then None
               else Some(BatchResult(StoppedStatus(|completed|, |isolated|, settled[k].entry), completed, isolated,
                                     Some(settled[k].entry), units[k + 1..]))
  {
    StopIndexAt(settled, k);
  }

  /** Settle units in order until one does not let the batch continue. */
  method SettleUntilStop(units: seq<Unit>, worlds: seq<World>, isolating: bool)
    returns (index: nat, stop: Settled, completed: seq<Entry>, isolated: seq<Entry>, directories: seq<Directory>)
    requires |worlds| == |units|
    ensures var settled := Settlements(units, worlds, isolating);
            && Books(settled, index, completed, isolated)
            && (index < |units| ==> stop == settled[index] && !Continues(stop))
    ensures if index < |units| && !stop.Aborted? then LeftBehind(units, worlds, isolating, directories, index + 1)
            else LeftBehind(units, worlds, isolating, directories, index)
  {
    hide Settle, Settlements, Completed, SetAsides, Books, LeftBehind, Continues, WithEntry;
    ghost var settled := Settlements(units, worlds, isolating);
    completed, isolated, directories, index, stop := [], [], [], 0, Aborted;
    NothingSettled(settled);
    NothingLeft(units, worlds, isolating);
    while index < |units|
      invariant index <= |units| && Books(settled, index, completed, isolated)
      invariant LeftBehind(units, worlds, isolating, directories, index)
    {
      var directory;
      stop, directory := SettleUnit(units[index], worlds[index], isolating);
      Stopping(stop);
      if stop.Aborted? {
        return;
      }
      LeftBehindNext(units, worlds, isolating, directories, index);
      directories := directories + [directory];
      if stop.Stopped? {
        return;
      }
      BooksNext(settled, index, completed, isolated);
      completed := WithEntry(completed, stop.Done?, stop.entry);
      isolated := WithEntry(isolated, stop.SetAside?, stop.entry);
      index := index + 1;
    }
  }

  function WithEntry(entries: seq<Entry>, add: bool, e: Entry): seq<Entry> {
    entries + if add then [e] else []
  }

  lemma NothingLeft(units: seq<Unit>, worlds: seq<World>, isolating: bool)
    requires |worlds| == |units|
    ensures LeftBehind(units, worlds, isolating, [], 0)
  {
  }

  /** Settle every unit in order; None stands for an error that leaves no batch result. The last
      value holds the directories of the units that were opened. */
  method ExecutePreparedBatch(units: seq<Unit>, worlds: seq<World>, isolating: bool)
    returns (r: Option<BatchResult>, directories: seq<Directory>)
    requires |worlds| == |units|
    ensures !(1 <= |units| <= 20) ==> r == None
    ensures 1 <= |units| <= 20 ==> r == BatchOutcome(units, Settlements(units, worlds, isolating))
    ensures r.Some? ==>
              forall i | 0 <= i < |units| && i <= StopIndex(Settlements(units, worlds, isolating)) ::
                i < |directories| && directories[i] == Settle(units[i], worlds[i], isolating).1
  {
    directories := [];
    if !(1 <= |units| <= 20) {
      return None, directories;
    }
    hide Settle, BatchOutcome, StopIndex, Completed, SetAsides, StoppedStatus, Books;
    var index, stop, completed, isolated;
    index, stop, completed, isolated, directories := SettleUntilStop(units, worlds, isolating);
    OutcomeAt(units, Settlements(units, worlds, isolating), index, completed, isolated);
    if index == |units| {
      r := Some(BatchResult(if isolated != [] then Partial else Passed, completed, isolated, None, []));
    } else if stop.Aborted? {
      r := None;
    } else {
      r := Some(BatchResult(StoppedStatus(|completed|, |isolated|, stop.entry), completed, isolated,
                            Some(stop.entry), units[index + 1..]));
    }
  }

  /** The lists kept while the first k units settled. */
  ghost predicate Books(settled: seq<Settled>, k: nat, completed: seq<Entry>, isolated: seq<Entry>) {
    && k <= |settled| && (forall i | 0 <= i < k :: Continues(settled[i]))
    && completed == Completed(settled[..k]) && isolated == SetAsides(settled[..k])
  }

  ghost predicate LeftBehind(units: seq<Unit>, worlds: seq<World>, isolating: bool, directories: seq<Directory>, k: nat)
    requires |worlds| == |units|
  {
    k <= |units| && |directories| == k && forall i | 0 <= i < k :: directories[i] == Settle(units[i], worlds[i], isolating).1
  }

  lemma LeftBehindNext(units: seq<Unit>, worlds: seq<World>, isolating: bool, directories: seq<Directory>, k: nat)
    requires |worlds| == |units| && k < |units| && LeftBehind(units, worlds, isolating, directories, k)
    ensures LeftBehind(units, worlds, isolating, directories + [Settle(units[k], worlds[k], isolating).1], k + 1)
  {
    hide Settle;
  }

  lemma Stopping(s: Settled)
    ensures Continues(s) <==> s.Done? || s.SetAside?
    ensures s.Aborted? || s.Stopped? ==> !Continues(s)
  {
  }

  lemma BooksNext(settled: seq<Settled>, k: nat, completed: seq<Entry>, isolated: seq<Entry>)
    requires k < |settled| && Books(settled, k, completed, isolated) && (settled[k].Done? || settled[k].SetAside?)
    ensures Books(settled, k + 1, WithEntry(completed, settled[k].Done?, settled[k].entry),
                  WithEntry(isolated, settled[k].SetAside?, settled[k].entry))
  {
    SettledSnoc(settled, k);
  }

  lemma NothingSettled(settled: seq<Settled>)
    ensures Books(settled, 0, [], [])
  {
  }
}
