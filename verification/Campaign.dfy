/**
 * The campaign executor: frozen batches run serially, each once, and the first doubt stops the
 * campaign. The writer guard, the revalidation of each child, the batch invocation and every
 * receipt are an arbitrary world.
 */
module Campaign {
  import opened Wrappers
  import opened Seqs
  import opened Journal
  import opened JournalReader
  import opened Units
  import opened Batch
  import opened BatchChecker
  import opened BatchTheorems
  import opened Manifest

  /** What the batch subprocess returned and what a reader then finds on disk. */
  datatype Reply = Reply(
    returnCode: int, status: Status, retries: int, pathOk: bool, receiptOk: bool,
    result: BatchResult, persisted: Option<BatchResult>, dirs: Directories)

  datatype Invocation = NoReply | Replied(reply: Reply)

  datatype ChildWorld = ChildWorld(
    guardHeld: bool, childIntact: bool, startRecorded: bool, invocation: Invocation, terminalRecorded: bool)

  const GUARD_CHANGED := "CAMPAIGN_GUARD_CHANGED"
  const CHILD_DRIFT := "CAMPAIGN_CHILD_DRIFT"
  const STARTED_UNAVAILABLE := "CAMPAIGN_BATCH_STARTED_UNAVAILABLE"
  const BATCH_UNKNOWN := "CAMPAIGN_BATCH_OUTCOME_UNKNOWN"
  const UNIT_UNKNOWN := "CAMPAIGN_UNIT_OUTCOME_UNKNOWN"
  const SETTLEMENT_UNKNOWN := "CAMPAIGN_SETTLEMENT_UNKNOWN"
  const SETTLEMENT_INVALID := "CAMPAIGN_SETTLEMENT_INVALID"
  const MANIFEST_INVALID := "CAMPAIGN_MANIFEST_INVALID"

  /** A reply is taken only if code, status, receipt and the persisted result agree and the
      independent checker accepts the result. */
  ghost predicate ReplyValidated(reply: Reply, units: seq<Unit>, isolating: bool) {
    && (reply.status.Passed? || reply.status.Partial? || reply.status.Failing?)
    && reply.result.status == reply.status && reply.retries == 0
    && (reply.returnCode == 0 <==> reply.status.Passed?)
    && reply.pathOk && reply.receiptOk && reply.persisted == Some(reply.result)
    && TerminalAccepted(reply.result, units, reply.dirs, isolating)
  }

  method ValidatedBatchInvocation(invocation: Invocation, units: seq<Unit>, isolating: bool) returns (ok: bool)
    ensures ok <==> invocation.Replied? && ReplyValidated(invocation.reply, units, isolating)
  {
    if invocation.NoReply? {
      return false;
    }
    var reply := invocation.reply;
    if !(reply.status.Passed? || reply.status.Partial? || reply.status.Failing?)
       || reply.result.status != reply.status || reply.retries != 0
       || ((reply.returnCode == 0) != reply.status.Passed?)
       || !reply.pathOk || !reply.receiptOk || reply.persisted != Some(reply.result)
    {
      return false;
    }
    ok := ValidatedNativeTerminal(reply.result, units, reply.dirs, isolating);
  }

  /** The failed unit's own journal and receipt prove what happened to it. */
  ghost predicate FailureProven(failed: Entry, unit: Unit, d: Directory) {
    && failed.unit == unit && failed.attempt.Some?
    && failed.attempt.value.responsesSaved <= failed.attempt.value.requestsStarted
    && d.unitResult == Some(failed)
    && Accepted(d.journal, d.files, unit.sourceRequests)
    && failed.attempt == Some(FailedOutcome(StartedCount(d.journal), SavedCount(d.journal)))
  }

  /** Known only when proven, with no outstanding request and no unknown commit. */
  ghost predicate FailureKnown(failed: Entry, unit: Unit, d: Directory) {
    && FailureProven(failed, unit, d)
    && !failed.attempt.value.outcomeUnknown
    && failed.errorCode != Some(COMMIT_OUTCOME_UNKNOWN)
  }

  method FailedUnitIsKnown(failed: Entry, unit: Unit, d: Directory) returns (known: bool)
    ensures known <==> FailureKnown(failed, unit, d)
  {
    if failed.unit != unit || failed.attempt.None?
       || failed.attempt.value.responsesSaved > failed.attempt.value.requestsStarted
    {
      return false;
    }
    var actual := ValidatedSourceAttemptOutcome(d.journal, d.files, unit.sourceRequests);
    if actual.None? || d.unitResult != Some(failed) || actual != failed.attempt {
      return false;
    }
    known := !(failed.attempt.value.outcomeUnknown || failed.errorCode == Some(COMMIT_OUTCOME_UNKNOWN));
  }

  predicate SafelyExhausted(r: BatchResult) {
    r.status.Partial? && r.failed == None && r.unattempted == [] && r.isolated != []
  }

  function SettledCount(r: BatchResult): nat { |r.completed| + |r.isolated| }

  ghost predicate StoppedKnown(r: BatchResult, units: seq<Unit>, dirs: Directories) {
    && r.failed.Some? && SettledCount(r) < |units| && SettledCount(r) in dirs
    && FailureKnown(r.failed.value, units[SettledCount(r)], dirs[SettledCount(r)])
  }

  /** How one child ends: settled, refused before anything ran, lost, or stopped at a unit. */
  datatype Verdict =
    | Settles(result: BatchResult)
    | Refused(code: string)
    | Vanished(code: string)
    | StopsKnown(result: BatchResult)
    | StopsUnknown(result: BatchResult)

  ghost function Judge(child: Child, world: ChildWorld, isolating: bool): Verdict {
    if !world.guardHeld then Refused(GUARD_CHANGED)
    else if !world.childIntact then Refused(CHILD_DRIFT)
    else if !world.startRecorded then Refused(STARTED_UNAVAILABLE)
    else if !(world.invocation.Replied? && ReplyValidated(world.invocation.reply, child.units, isolating)) then
      Vanished(BATCH_UNKNOWN)
    else if !world.terminalRecorded then Vanished(BATCH_UNKNOWN)
    else
      var result := world.invocation.reply.result;
      if result.status.Passed? || SafelyExhausted(result) then Settles(result)
      else if StoppedKnown(result, child.units, world.invocation.reply.dirs) then StopsKnown(result)
      else StopsUnknown(result)
  }

  method JudgeChild(child: Child, world: ChildWorld, isolating: bool) returns (v: Verdict)
    ensures v == Judge(child, world, isolating)
  {
    hide ReplyValidated, FailureKnown;
    if !world.guardHeld { return Refused(GUARD_CHANGED); }
    if !world.childIntact { return Refused(CHILD_DRIFT); }
    if !world.startRecorded { return Refused(STARTED_UNAVAILABLE); }
    var validated := ValidatedBatchInvocation(world.invocation, child.units, isolating);
    if !validated || !world.terminalRecorded { return Vanished(BATCH_UNKNOWN); }
    var result, dirs := world.invocation.reply.result, world.invocation.reply.dirs;
    if result.status.Passed? || SafelyExhausted(result) { return Settles(result); }
    var index := SettledCount(result);
    if result.failed.None? || index >= |child.units| || index !in dirs { return StopsUnknown(result); }
    var known := FailedUnitIsKnown(result.failed.value, child.units[index], dirs[index]);
    v := if known then StopsKnown(result) else StopsUnknown(result);
  }

  // ----- the settlement of a whole campaign -----

  datatype BatchEntry = BatchEntry(batchId: nat, terminal: Option<BatchResult>, errorCode: Option<string>)

  datatype Summary = Summary(
    denominator: nat, success: nat, isolated: nat, exceptions: nat, failed: nat, unattempted: nat, unknown: nat)

  datatype CampaignStatus = CampaignPassed | CampaignPartial | CampaignFailed | CampaignUnknown | NotRequired

  datatype CampaignResult = CampaignResult(
    status: CampaignStatus, completedIds: seq<nat>, completed: seq<BatchEntry>,
    failedBatch: Option<BatchEntry>, unknownBatch: Option<BatchEntry>, unattemptedIds: seq<nat>,
    isolated: seq<Known>, exceptions: seq<Exception>, summary: Summary)

  function KnownOf(e: Entry): Known {
    Known(Identity(e.unit), if e.classification.Some? then e.classification.value else "")
  }

  function CompletedOf(results: seq<BatchResult>): seq<Unit> {
    if results == [] then []
    else CompletedOf(results[..|results| - 1]) + UnitsOf(results[|results| - 1].completed)
  }

  function IsolatedOf(results: seq<BatchResult>): seq<Entry> {
    if results == [] then []
    else IsolatedOf(results[..|results| - 1]) + results[|results| - 1].isolated
  }

  ghost function Verdicts(m: Manifest, worlds: seq<ChildWorld>): (r: seq<Verdict>)
    requires |worlds| == |m.children|
    ensures |r| == |m.children|
    ensures forall i | 0 <= i < |r| :: r[i] == Judge(m.children[i], worlds[i], m.isolating)
  {
    seq(|worlds|, i requires 0 <= i < |worlds| => Judge(m.children[i], worlds[i], m.isolating))
  }

  predicate HasResult(v: Verdict) { v.Settles? || v.StopsKnown? || v.StopsUnknown? }

  /** The first child that does not settle, or the number of children. */
  predicate StopsAt(verdicts: seq<Verdict>, k: nat) {
    && k <= |verdicts| && (forall i | 0 <= i < k :: verdicts[i].Settles?)
    && (k < |verdicts| ==> !verdicts[k].Settles?)
  }

  /** The batch results a campaign counts: every settled one, and the one it stopped in. */
  function Counted(verdicts: seq<Verdict>, k: nat): seq<BatchResult>
    requires StopsAt(verdicts, k)
  {
    SettledResults(verdicts, k) + if k < |verdicts| && HasResult(verdicts[k]) then [verdicts[k].result] else []
  }

  function SettledResults(verdicts: seq<Verdict>, k: nat): (r: seq<BatchResult>)
    requires k <= |verdicts| && forall i | 0 <= i < k :: verdicts[i].Settles?
    ensures |r| == k && forall i | 0 <= i < k :: r[i] == verdicts[i].result
  {
    seq(k, i requires 0 <= i < k => verdicts[i].result)
  }

  /** The frozen units of a campaign by what became of them. */
  datatype Classes = Classes(
    success: seq<Unit>, isolated: seq<Entry>, failed: seq<Unit>, unattempted: seq<Unit>, unknown: seq<Unit>)

  function Classify(m: Manifest, verdicts: seq<Verdict>, k: nat): Classes
    requires |verdicts| == |m.children| && StopsAt(verdicts, k)
  {
    var counted := Counted(verdicts, k);
    var base := Classes(CompletedOf(counted), IsolatedOf(counted), [], [], []);
    if k == |verdicts| then base
    else
      var later := Frozen(m.children[k + 1..]);
      match verdicts[k]
      case Settles(_) => base
      case Refused(_) => base.(unattempted := m.children[k].units + later)
      case Vanished(_) => base.(unknown := m.children[k].units, unattempted := later)
      case StopsKnown(result) => base.(failed := FailedUnits(result), unattempted := result.unattempted + later)
      case StopsUnknown(result) => base.(unknown := FailedUnits(result), unattempted := result.unattempted + later)
  }

  function FailedEntry(m: Manifest, verdicts: seq<Verdict>, k: nat): Option<BatchEntry>
    requires k <= |verdicts| == |m.children|
  {
    if k == |verdicts| then None
    else if verdicts[k].Refused? then Some(BatchEntry(m.children[k].batchId, None, Some(verdicts[k].code)))
    else if verdicts[k].StopsKnown? then Some(BatchEntry(m.children[k].batchId, Some(verdicts[k].result), None))
    else None
  }

  function UnknownEntry(m: Manifest, verdicts: seq<Verdict>, k: nat): Option<BatchEntry>
    requires k <= |verdicts| == |m.children|
  {
    if k == |verdicts| then None
    else if verdicts[k].Vanished? then Some(BatchEntry(m.children[k].batchId, None, Some(verdicts[k].code)))
    else if verdicts[k].StopsUnknown? then
      Some(BatchEntry(m.children[k].batchId, Some(verdicts[k].result), Some(UNIT_UNKNOWN)))
    else None
  }

  function Ids(children: seq<Child>): seq<nat> {
    Map((c: Child) => c.batchId, children)
  }

  function Later(children: seq<Child>, k: nat): seq<Child> {
    if k < |children| then children[k + 1..] else []
  }

  function SettledEntries(m: Manifest, verdicts: seq<Verdict>, k: nat): (r: seq<BatchEntry>)
    requires k <= |verdicts| == |m.children| && forall i | 0 <= i < k :: verdicts[i].Settles?
    ensures |r| == k
    ensures forall i | 0 <= i < k :: r[i] == BatchEntry(m.children[i].batchId, Some(verdicts[i].result), None)
  {
    seq(k, i requires 0 <= i < k => BatchEntry(m.children[i].batchId, Some(verdicts[i].result), None))
  }

  function NativePartial(entry: Option<BatchEntry>): bool {
    entry.Some? && entry.value.terminal.Some? && entry.value.terminal.value.status.Partial?
  }

  /** Everything a campaign reports, stated from the verdicts of its children. */
  function CampaignOutcome(m: Manifest, verdicts: seq<Verdict>, k: nat, recorded: bool): CampaignResult
    requires |verdicts| == |m.children| && StopsAt(verdicts, k)
  {
    var c := Classify(m, verdicts, k);
    var failed, unknown := FailedEntry(m, verdicts, k), UnknownEntry(m, verdicts, k);
    var isolated := Anomalies(m) + Map(KnownOf, c.isolated);
    var partial := isolated != [] || m.exceptions != [];
    var status :=
      if unknown.Some? || !recorded then CampaignUnknown
      else if failed.Some? then
        if k > 0 || partial || NativePartial(failed) then CampaignPartial else CampaignFailed
      else if partial then CampaignPartial else CampaignPassed;
    CampaignResult(
      status, Ids(m.children[..k]), SettledEntries(m, verdicts, k), failed, unknown, Ids(Later(m.children, k)),
      isolated, m.exceptions,
      Summary(m.denominator, |c.success|, |isolated|, |m.exceptions|, |c.failed|, |c.unattempted|, |c.unknown|))
  }

  // ----- conservation -----

  /** A settled child gives back exactly its units; a stopped one its settled units, the unit it
      stopped in and its untouched tail. */
  lemma VerdictConserves(child: Child, world: ChildWorld, isolating: bool)
    ensures var v := Judge(child, world, isolating);
            && (v.Settles? ==>
                  (multiset(UnitsOf(v.result.completed)) + multiset(UnitsOf(v.result.isolated)) == multiset(child.units)))
            && (v.StopsKnown? || v.StopsUnknown? ==>
                  v.result.failed.Some? &&
                  (multiset(UnitsOf(v.result.completed)) + multiset(UnitsOf(v.result.isolated))
                   + multiset(FailedUnits(v.result)) + multiset(v.result.unattempted) == multiset(child.units)))
  {
    var v := Judge(child, world, isolating);
    if HasResult(v) {
      var reply := world.invocation.reply;
      hide TerminalAccepted, FailureKnown;
      AcceptedIsPartition(v.result, child.units, reply.dirs, isolating);
      AcceptedShape(v.result, child.units, reply.dirs, isolating);
    }
  }

  lemma AcceptedShape(r: BatchResult, units: seq<Unit>, dirs: Directories, isolating: bool)
    requires TerminalAccepted(r, units, dirs, isolating)
    ensures r.status.Passed? || SafelyExhausted(r) <==> r.failed == None
    ensures r.failed == None ==> r.unattempted == []
  {
  }

  lemma {:induction false} FrozenConcat(s: seq<Child>, t: seq<Child>)
    ensures Frozen(s + t) == Frozen(s) + Frozen(t)
    decreases |t|
  {
    if t == [] {
      assert s + t == s;
    } else {
      assert (s + t)[..|s + t| - 1] == s + t[..|t| - 1];
      FrozenConcat(s, t[..|t| - 1]);
    }
  }

  lemma FrozenSplit(children: seq<Child>, k: nat)
    requires k < |children|
    ensures Frozen(children) == Frozen(children[..k]) + children[k].units + Frozen(children[k + 1..])
  {
    assert children == children[..k + 1] + children[k + 1..];
    FrozenConcat(children[..k + 1], children[k + 1..]);
    FrozenSnoc(children, k);
  }

  lemma CountedSnoc(results: seq<BatchResult>, r: BatchResult)
    ensures CompletedOf(results + [r]) == CompletedOf(results) + UnitsOf(r.completed)
    ensures IsolatedOf(results + [r]) == IsolatedOf(results) + r.isolated
    ensures UnitsOf(IsolatedOf(results + [r])) == UnitsOf(IsolatedOf(results)) + UnitsOf(r.isolated)
  {
    assert (results + [r])[..|results|] == results;
    MapConcat((e: Entry) => e.unit, IsolatedOf(results), r.isolated);
  }

  lemma SettledSnocs(verdicts: seq<Verdict>, k: nat)
    requires k < |verdicts| && forall i | 0 <= i <= k :: verdicts[i].Settles?
    ensures SettledResults(verdicts, k + 1) == SettledResults(verdicts, k) + [verdicts[k].result]
  {
  }

  ghost function Held(results: seq<BatchResult>): multiset<Unit> {
    multiset(CompletedOf(results)) + multiset(UnitsOf(IsolatedOf(results)))
  }

  lemma HeldSnoc(results: seq<BatchResult>, r: BatchResult)
    ensures Held(results + [r]) == Held(results) + multiset(UnitsOf(r.completed)) + multiset(UnitsOf(r.isolated))
  {
    CountedSnoc(results, r);
  }

  lemma SettledOneMore(m: Manifest, worlds: seq<ChildWorld>, k: nat)
    requires |worlds| == |m.children| && k < |m.children| && forall i | 0 <= i <= k :: Verdicts(m, worlds)[i].Settles?
    ensures var verdicts := Verdicts(m, worlds);
            Held(SettledResults(verdicts, k + 1)) == Held(SettledResults(verdicts, k)) + multiset(m.children[k].units)
  {
    var verdicts := Verdicts(m, worlds);
    hide Judge, Held, UnitsOf;
    SettledSnocs(verdicts, k);
    HeldSnoc(SettledResults(verdicts, k), verdicts[k].result);
    VerdictConserves(m.children[k], worlds[k], m.isolating);
  }

  lemma {:induction false} SettledConserves(m: Manifest, worlds: seq<ChildWorld>, k: nat)
    requires |worlds| == |m.children| && k <= |m.children|
    requires forall i | 0 <= i < k :: Verdicts(m, worlds)[i].Settles?
    ensures Held(SettledResults(Verdicts(m, worlds), k)) == multiset(Frozen(m.children[..k]))
  {
    if k == 0 {
      NothingHeld();
    } else {
      hide Judge, Held, Frozen, UnitsOf, SettledResults, Verdicts;
      SettledConserves(m, worlds, k - 1);
      SettledOneMore(m, worlds, k - 1);
      FrozenSnoc(m.children, k - 1);
    }
  }

  lemma NothingHeld()
    ensures Held([]) == multiset{} && Frozen([]) == []
  {
  }

  ghost function AllUnits(c: Classes): multiset<Unit> {
    multiset(c.success) + multiset(UnitsOf(c.isolated)) + multiset(c.failed) + multiset(c.unattempted) + multiset(c.unknown)
  }

  /** The units of the child a campaign stopped in, apart from those it settled. */
  function StoppedRest(child: Child, v: Verdict): multiset<Unit> {
    if HasResult(v) then multiset(FailedUnits(v.result)) + multiset(v.result.unattempted) else multiset(child.units)
  }

  lemma RestOfClasses(m: Manifest, verdicts: seq<Verdict>, k: nat)
    requires |verdicts| == |m.children| && StopsAt(verdicts, k) && k < |verdicts|
    ensures var c := Classify(m, verdicts, k);
            && c.success == CompletedOf(Counted(verdicts, k)) && c.isolated == IsolatedOf(Counted(verdicts, k))
            && multiset(c.failed) + multiset(c.unattempted) + multiset(c.unknown)
               == StoppedRest(m.children[k], verdicts[k]) + multiset(Frozen(m.children[k + 1..]))
  {
    hide Frozen, CompletedOf, IsolatedOf, Counted, FailedUnits, UnitsOf;
  }

  lemma FiveParts(a: multiset<Unit>, b: multiset<Unit>, c: multiset<Unit>, d: multiset<Unit>, e: multiset<Unit>,
                  held: multiset<Unit>, rest: multiset<Unit>, later: multiset<Unit>)
    requires held == a + b && c + d + e == rest + later
    ensures a + b + c + d + e == held + rest + later
  {
    assert a + b + c + d + e == (a + b) + (c + d + e);
  }

  lemma StoppedClasses(m: Manifest, verdicts: seq<Verdict>, k: nat)
    requires |verdicts| == |m.children| && StopsAt(verdicts, k) && k < |verdicts|
    ensures AllUnits(Classify(m, verdicts, k))
         == Held(Counted(verdicts, k)) + StoppedRest(m.children[k], verdicts[k]) + multiset(Frozen(m.children[k + 1..]))
  {
    hide Frozen, CompletedOf, IsolatedOf, Counted, UnitsOf, FailedUnits, Held, Classify, StoppedRest;
    var c := Classify(m, verdicts, k);
    RestOfClasses(m, verdicts, k);
    HeldIs(Counted(verdicts, k));
    FiveParts(multiset(c.success), multiset(UnitsOf(c.isolated)), multiset(c.failed), multiset(c.unattempted), multiset(c.unknown),
              Held(Counted(verdicts, k)), StoppedRest(m.children[k], verdicts[k]), multiset(Frozen(m.children[k + 1..])));
  }

  lemma StoppedConserves(m: Manifest, worlds: seq<ChildWorld>, k: nat)
    requires |worlds| == |m.children| && StopsAt(Verdicts(m, worlds), k) && k < |m.children|
    ensures var c := Classify(m, Verdicts(m, worlds), k);
            AllUnits(c) == multiset(Frozen(m.children[..k])) + multiset(m.children[k].units)
                           + multiset(Frozen(m.children[k + 1..]))
  {
    hide Judge, Held, Frozen, Counted, UnitsOf, FailedUnits, SettledResults, Classify, AllUnits, Verdicts;
    var verdicts := Verdicts(m, worlds);
    StoppedClasses(m, verdicts, k);
    SettledConserves(m, worlds, k);
    VerdictConserves(m.children[k], worlds[k], m.isolating);
    CountedAt(verdicts, k);
    if HasResult(verdicts[k]) {
      HeldSnoc(SettledResults(verdicts, k), verdicts[k].result);
    }
  }

  lemma HeldIs(results: seq<BatchResult>)
    ensures Held(results) == multiset(CompletedOf(results)) + multiset(UnitsOf(IsolatedOf(results)))
  {
  }

  /** Conservation: on every path out of the loop each frozen unit is in exactly one class. */
  lemma Conservation(m: Manifest, worlds: seq<ChildWorld>, k: nat)
    requires |worlds| == |m.children| && StopsAt(Verdicts(m, worlds), k)
    ensures AllUnits(Classify(m, Verdicts(m, worlds), k)) == multiset(Frozen(m.children))
  {
    hide Judge, Frozen, CompletedOf, IsolatedOf;
    if k < |m.children| {
      StoppedConserves(m, worlds, k);
      FrozenSplit(m.children, k);
    } else {
      SettledConserves(m, worlds, k);
      assert m.children[..k] == m.children;
      var base := SettledResults(Verdicts(m, worlds), k);
      assert base + [] == base;
    }
  }

  lemma ClassSizes(c: Classes, units: seq<Unit>)
    requires AllUnits(c) == multiset(units)
    ensures |c.success| + |c.isolated| + |c.failed| + |c.unattempted| + |c.unknown| == |units|
  {
    assert |AllUnits(c)| == |multiset(units)|;
    assert |multiset(UnitsOf(c.isolated))| == |c.isolated|;
  }

  // ----- the executor -----

  /** Sum the unit counts of the children whose batch is listed as unattempted. */
  method LaterUnitCount(children: seq<Child>, unattemptedIds: seq<nat>, ghost k: nat) returns (count: nat)
    requires forall i | 0 <= i < |children| :: ValidChild(children[i], i)
    requires k <= |children| && unattemptedIds == Ids(Later(children, k))
    ensures count == if k < |children| then |Frozen(children[k + 1..])| else 0
  {
    count := 0;
    hide Frozen, ValidChild, Ids;
    LaterFrom(children, k, 0);
    for i := 0 to |children|
      invariant count == |LaterUnits(children, k, i)|
    {
      LaterMember(children, k, i);
      LaterFrom(children, k, i);
      if children[i].batchId in unattemptedIds {
        count := count + |children[i].units|;
      }
    }
    LaterAll(children, k);
  }

  /** The units of the children after the k-th, up to the i-th. */
  function LaterUnits(children: seq<Child>, k: nat, i: nat): seq<Unit>
    requires k <= |children| && i <= |children|
  {
    if i > k + 1 then Frozen(children[k + 1..i]) else []
  }

  lemma LaterFrom(children: seq<Child>, k: nat, i: nat)
    requires k <= |children| && i <= |children|
    ensures LaterUnits(children, k, 0) == []
    ensures i < |children| ==>
              LaterUnits(children, k, i + 1) == if i > k then LaterUnits(children, k, i) + children[i].units else LaterUnits(children, k, i)
  {
    if k < i < |children| {
      assert children[k + 1..i + 1][..i - k - 1] == children[k + 1..i];
      assert i == k + 1 ==> children[k + 1..i] == [] && Frozen([]) == [] && [] + children[i].units == children[i].units;
    }
  }

  lemma LaterAll(children: seq<Child>, k: nat)
    requires k <= |children|
    ensures LaterUnits(children, k, |children|) == if k < |children| then Frozen(children[k + 1..]) else []
  {
    assert k < |children| ==> children[k + 1..|children|] == children[k + 1..];
  }

  lemma LaterMember(children: seq<Child>, k: nat, i: nat)
    requires forall j | 0 <= j < |children| :: ValidChild(children[j], j)
    requires k <= |children| && i < |children|
    ensures children[i].batchId in Ids(Later(children, k)) <==> i > k
  {
    var ids := Ids(Later(children, k));
    if i > k {
      assert ids[i - k - 1] == children[i].batchId;
    }
    if n :| 0 <= n < |ids| && ids[n] == children[i].batchId {
      assert ValidChild(children[k + 1 + n], k + 1 + n) && ValidChild(children[i], i);
    }
  }

  lemma IsolatedSnoc(anomalies: seq<Known>, before: seq<Entry>, more: seq<Entry>)
    ensures anomalies + Map(KnownOf, before + more) == anomalies + Map(KnownOf, before) + Map(KnownOf, more)
  {
    MapConcat(KnownOf, before, more);
  }

  /** Run the frozen batches serially. The first child that does not settle ends the campaign. */
  method RunBatches(m: Manifest, worlds: seq<ChildWorld>)
    returns (k: nat, stop: Option<Verdict>, completed: seq<BatchEntry>, successful: seq<Unit>, isolated: seq<Known>)
    requires |worlds| == |m.children|
    ensures StopsAt(Verdicts(m, worlds), k)
    ensures stop == if k < |m.children| then Some(Verdicts(m, worlds)[k]) else None
    ensures completed == SettledEntries(m, Verdicts(m, worlds), k)
    ensures successful == CompletedOf(Counted(Verdicts(m, worlds), k))
    ensures isolated == Anomalies(m) + Map(KnownOf, IsolatedOf(Counted(Verdicts(m, worlds), k)))
  {
    ghost var verdicts := Verdicts(m, worlds);
    hide Judge, Verdicts, CompletedOf, IsolatedOf, SettledResults, SettledEntries, Counted, Map, UnitsOf, Anomalies;
    k, stop, completed, successful, isolated := 0, None, [], [], Anomalies(m);
    NothingCounted();
    ghost var results: seq<BatchResult> := [];
    while k < |m.children|
      invariant k <= |m.children| && stop == None
      invariant forall i | 0 <= i < k :: verdicts[i].Settles?
      invariant results == SettledResults(verdicts, k)
      invariant completed == SettledEntries(m, verdicts, k)
      invariant successful == CompletedOf(results)
      invariant isolated == Anomalies(m) + Map(KnownOf, IsolatedOf(results))
    {
      var v := JudgeChild(m.children[k], worlds[k], m.isolating);
      if !HasResult(v) {
        stop := Some(v);
        CountedAt(verdicts, k);
        return;
      }
      CountedSnoc(results, v.result);
      IsolatedSnoc(Anomalies(m), IsolatedOf(results), v.result.isolated);
      successful := successful + UnitsOf(v.result.completed);
      isolated := isolated + Map(KnownOf, v.result.isolated);
      results := results + [v.result];
      if !v.Settles? {
        stop := Some(v);
        CountedAt(verdicts, k);
        return;
      }
      SettledSnocs(verdicts, k);
      EntriesSnoc(m, verdicts, k);
      completed := completed + [BatchEntry(m.children[k].batchId, Some(v.result), None)];
      k := k + 1;
    }
    CountedAt(verdicts, k);
  }

  lemma EntriesSnoc(m: Manifest, verdicts: seq<Verdict>, k: nat)
    requires k < |verdicts| == |m.children| && forall i | 0 <= i <= k :: verdicts[i].Settles?
    ensures SettledEntries(m, verdicts, k + 1)
         == SettledEntries(m, verdicts, k) + [BatchEntry(m.children[k].batchId, Some(verdicts[k].result), None)]
  {
  }

  lemma CountedAt(verdicts: seq<Verdict>, k: nat)
    requires StopsAt(verdicts, k)
    ensures Counted(verdicts, k) == SettledResults(verdicts, k)
                                    + if k < |verdicts| && HasResult(verdicts[k]) then [verdicts[k].result] else []
    ensures k == |verdicts| || !HasResult(verdicts[k]) ==> Counted(verdicts, k) == SettledResults(verdicts, k)
  {
  }

  lemma NothingCounted()
    ensures CompletedOf([]) == [] && IsolatedOf([]) == [] && Map(KnownOf, []) == []
  {
  }

  /** The campaign, with its settlement counted the way the source counts it. The repair of a
      settlement that does not add up is there, and never fires. */
  method ExecuteCampaign(m: Manifest, worlds: seq<ChildWorld>, recorded: bool)
    returns (r: Result<CampaignResult, string>)
    requires |worlds| == |m.children|
    ensures !ValidManifest(m) ==> r == Err(MANIFEST_INVALID)
    ensures ValidManifest(m) ==> exists k ::
              StopsAt(Verdicts(m, worlds), k) && r == Ok(CampaignOutcome(m, Verdicts(m, worlds), k, recorded))
  {
    hide Judge, Verdicts, ValidManifest;
    var valid := ValidateCampaignManifest(m);
    if !valid {
      return Err(MANIFEST_INVALID);
    }
    var k, stop, completed, successful, isolated := RunBatches(m, worlds);
    r := SettleCampaign(m, worlds, recorded, k, stop, completed, successful, isolated);
  }

  /** What a stop leaves in the failed, unattempted and unknown classes. */
  method CountStop(m: Manifest, ghost worlds: seq<ChildWorld>, k: nat, stop: Option<Verdict>)
    returns (failed: Option<BatchEntry>, unknown: Option<BatchEntry>,
             stoppingFailure: nat, unattempted: nat, unknownUnits: nat)
    requires |worlds| == |m.children| && (forall i | 0 <= i < |m.children| :: ValidChild(m.children[i], i))
    requires StopsAt(Verdicts(m, worlds), k)
    requires stop == if k < |m.children| then Some(Verdicts(m, worlds)[k]) else None
    ensures failed == FailedEntry(m, Verdicts(m, worlds), k)
    ensures unknown == UnknownEntry(m, Verdicts(m, worlds), k)
    ensures var c := Classify(m, Verdicts(m, worlds), k);
            stoppingFailure == |c.failed| && unattempted == |c.unattempted| && unknownUnits == |c.unknown|
  {
    hide Judge, Verdicts, CompletedOf, IsolatedOf, Counted, Frozen;
    failed, unknown := None, None;
    stoppingFailure, unattempted, unknownUnits := 0, 0, 0;
    if stop.Some? {
      var id := m.children[k].batchId;
      match stop.value {
        case Settles(_) =>
        case Refused(code) =>
          failed := Some(BatchEntry(id, None, Some(code)));
        case Vanished(code) =>
          unknown := Some(BatchEntry(id, None, Some(code)));
        case StopsKnown(result) =>
          failed := Some(BatchEntry(id, Some(result), None));
          stoppingFailure, unattempted := 1, |result.unattempted|;
        case StopsUnknown(result) =>
          unknown := Some(BatchEntry(id, Some(result), Some(UNIT_UNKNOWN)));
          unknownUnits, unattempted := 1, |result.unattempted|;
      }
      VerdictConserves(m.children[k], worlds[k], m.isolating);
    }
    var later := LaterUnitCount(m.children, Ids(Later(m.children, k)), k);
    unattempted := unattempted + later;
    if unknown.Some? && unknownUnits == 0 {
      unknownUnits := |m.children[k].units|;
    } else if failed.Some? && failed.value.terminal.None? {
      unattempted := unattempted + |m.children[k].units|;
    }
  }

  lemma SettlementAddsUp(m: Manifest, worlds: seq<ChildWorld>, k: nat)
    requires |worlds| == |m.children| && StopsAt(Verdicts(m, worlds), k) && ValidManifest(m)
    ensures var c := Classify(m, Verdicts(m, worlds), k);
            |c.success| + (|Anomalies(m)| + |c.isolated|) + |m.exceptions|
            + |c.failed| + |c.unattempted| + |c.unknown| == m.denominator
  {
    hide Judge, Verdicts, Classify, AllUnits, Frozen;
    Conservation(m, worlds, k);
    ClassSizes(Classify(m, Verdicts(m, worlds), k), Frozen(m.children));
  }

  /** A settlement that misses units counts them as unknown; one that counts too many is refused. */
  method RepairSettlement(denominator: nat, classified: nat, unknownUnits: nat, unknown: Option<BatchEntry>)
    returns (ok: bool, units: nat, entry: Option<BatchEntry>)
    ensures ok <==> classified <= denominator
    ensures ok ==> classified - unknownUnits + units == denominator && entry.Some?
    ensures unknown.Some? ==> entry == unknown
  {
    ok, units := classified <= denominator, unknownUnits;
    entry := if unknown.Some? then unknown else Some(BatchEntry(0, None, Some(SETTLEMENT_UNKNOWN)));
    if ok {
      units := unknownUnits + (denominator - classified);
    }
  }

  method SettleCampaign(m: Manifest, ghost worlds: seq<ChildWorld>, recorded: bool, k: nat, stop: Option<Verdict>,
                        completed: seq<BatchEntry>, successful: seq<Unit>, isolated: seq<Known>)
    returns (r: Result<CampaignResult, string>)
    requires |worlds| == |m.children| && ValidManifest(m)
    requires StopsAt(Verdicts(m, worlds), k)
    requires stop == if k < |m.children| then Some(Verdicts(m, worlds)[k]) else None
    requires completed == SettledEntries(m, Verdicts(m, worlds), k)
    requires successful == CompletedOf(Counted(Verdicts(m, worlds), k))
    requires isolated == Anomalies(m) + Map(KnownOf, IsolatedOf(Counted(Verdicts(m, worlds), k)))
    ensures r == Ok(CampaignOutcome(m, Verdicts(m, worlds), k, recorded))
  {
    SettlementAddsUp(m, worlds, k);
    var failed, unknown, stoppingFailure, unattempted, unknownUnits := CountStop(m, worlds, k, stop);
    hide Judge, Verdicts, CompletedOf, IsolatedOf, Counted, ValidManifest, StopsAt, SettledEntries, FailedEntry, UnknownEntry;
    var partial := isolated != [] || m.exceptions != [];
    var status := if unknown.Some? then CampaignUnknown
                  else if failed.Some? then
                    if completed != [] || partial || NativePartial(failed) then CampaignPartial else CampaignFailed
                  else if partial then CampaignPartial else CampaignPassed;
    ClassesCounted(m, Verdicts(m, worlds), k);
    var classified: nat := |successful| + |isolated| + |m.exceptions| + stoppingFailure + unattempted + unknownUnits;
    if classified != m.denominator {
      var repaired;
      repaired, unknownUnits, unknown := RepairSettlement(m.denominator, classified, unknownUnits, unknown);
      if !repaired {
        return Err(SETTLEMENT_INVALID);
      }
      status := CampaignUnknown;
    }
    if !recorded {
      status := CampaignUnknown;
    }
    var completedIds := Map((e: BatchEntry) => e.batchId, completed);
    assert completedIds == Ids(m.children[..k]);
    r := Ok(CampaignResult(
      status, completedIds, completed, failed, unknown, Ids(Later(m.children, k)), isolated, m.exceptions,
      Summary(m.denominator, |successful|, |isolated|, |m.exceptions|, stoppingFailure, unattempted, unknownUnits)));
  }

  lemma ClassesCounted(m: Manifest, verdicts: seq<Verdict>, k: nat)
    requires |verdicts| == |m.children| && StopsAt(verdicts, k)
    ensures Classify(m, verdicts, k).success == CompletedOf(Counted(verdicts, k))
    ensures Classify(m, verdicts, k).isolated == IsolatedOf(Counted(verdicts, k))
  {
  }
}
