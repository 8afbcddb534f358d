/** Re-proving, from the saved raw responses alone, that a unit failed on a known source fault. */
module Isolation {
  import opened Wrappers
  import opened Seqs
  import opened Journal
  import opened JournalReader
  import opened Units

  /** The rows of every saved response name the right days and replay either cleanly or with
      the one known fault. */
  ghost predicate ResponsesReplay(files: map<nat, Payload>, requests: seq<Request>, k: nat)
    requires k <= |requests|
  {
    forall i | 0 <= i < k :: ResponseReplays(files, requests[i], i + 1)
  }

  ghost predicate ResponseReplays(files: map<nat, Payload>, request: Request, n: nat) {
    n in files && ResponseIdentity(request, files[n].rows) && RowsReplay(files[n].rows)
  }

  predicate RowsReplay(rows: seq<Row>) {
    forall j | 0 <= j < |rows| :: rows[j].replayError == None || rows[j].replayError == Some(ZERO_OHL)
  }

  predicate HasFault(rows: seq<Row>) {
    exists j :: 0 <= j < |rows| && rows[j].replayError == Some(ZERO_OHL)
  }

  ghost predicate SomeFault(files: map<nat, Payload>, k: nat) {
    exists i :: 1 <= i <= k && i in files && HasFault(files[i].rows)
  }

  predicate FailuresNamed(failures: seq<Failure>, targets: seq<Target>) {
    forall f | f in failures :: f.reason == ZERO_OHL && exists t :: t in targets && t.id == f.target
  }

  predicate NothingApplied(result: WarmupResult) {
    && result.status == Failing && result.applied == 0 && result.blocked == 0
    && result.failed > 0 && result.failed == |result.failures| && result.providerRequests > 0
  }

  ghost predicate IsolationProven(journal: seq<Record>, files: map<nat, Payload>, unit: Unit, result: WarmupResult) {
    && unit.sourceRequests != [] && unit.targets != [] && NothingApplied(result)
    && |journal| >= 3 && journal[|journal| - 1] == Failed(None, RESULT_NOT_PASSED)
    && (|journal| - 1) % 2 == 0
    && var k := (|journal| - 1) / 2;
       && k <= |unit.sourceRequests|
       && Pairs(journal, files, unit.sourceRequests, k)
       && ResponsesReplay(files, unit.sourceRequests, k)
       && files.Keys == Span(1, k + 1) && SomeFault(files, k)
       && FailuresNamed(result.failures, unit.targets)
  }

  ghost function EvidenceOf(files: map<nat, Payload>, k: nat): Evidence
    requires forall i | 1 <= i <= k :: i in files
  {
    Evidence(ZERO_OHL, k, k, seq(k, i requires 0 <= i < k => Sha256(files[i + 1])))
  }

  lemma ResultCodeIsValid()
    ensures ValidCode(RESULT_NOT_PASSED)
  {
  }

  lemma ProvenIsBody(journal: seq<Record>, files: map<nat, Payload>, unit: Unit, k: nat)
    requires |journal| == 2 * k + 1 && journal[2 * k] == Failed(None, RESULT_NOT_PASSED)
    requires k <= |unit.sourceRequests| && Pairs(journal, files, unit.sourceRequests, k)
    requires files.Keys == Span(1, k + 1)
    ensures Accepted(journal, files, unit.sourceRequests)
    ensures StartedCount(journal) == k && SavedCount(journal) == k
    ensures ReadAttemptOutcome(journal) == FailedOutcome(k, k)
  {
    hide Pairs, Body, Span, ValidCode, StartedCount, SavedCount;
    BodyComplete(journal, files, unit.sourceRequests, k, k);
    ResultCodeIsValid();
    hide ReadAttemptOutcome;
    AcceptedAgreesWithReader(journal, files, unit.sourceRequests);
  }

  /** What is proven to be a source fault has no outstanding request, and the checker of failed
      attempts accepts its journal too. */
  lemma IsolationHasNoUnknown(journal: seq<Record>, files: map<nat, Payload>, unit: Unit, result: WarmupResult)
    requires IsolationProven(journal, files, unit, result)
    ensures Accepted(journal, files, unit.sourceRequests)
    ensures ReadAttemptOutcome(journal) == FailedOutcome(SavedCount(journal), SavedCount(journal))
    ensures SavedCount(journal) >= 1
  {
    ProvenIsBody(journal, files, unit, (|journal| - 1) / 2);
  }

  lemma NoFaultYet(files: map<nat, Payload>)
    ensures !SomeFault(files, 0)
  {
  }

  lemma NotPairs(journal: seq<Record>, files: map<nat, Payload>, frozen: seq<Request>, i: nat, k: nat)
    requires i < k && 2 * k <= |journal| && k <= |frozen| && !PairAt(journal, files, frozen, i)
    ensures !Pairs(journal, files, frozen, k)
  {
  }

  lemma ReplayNext(files: map<nat, Payload>, k: nat)
    requires forall i | 1 <= i <= k + 1 :: i in files
    ensures EvidenceOf(files, k + 1).shas == EvidenceOf(files, k).shas + [Sha256(files[k + 1])]
    ensures SomeFault(files, k + 1) <==> SomeFault(files, k) || HasFault(files[k + 1].rows)
  {
    if SomeFault(files, k) {
      var i :| 1 <= i <= k && i in files && HasFault(files[i].rows);
    }
    if HasFault(files[k + 1].rows) {
      assert k + 1 in files && HasFault(files[k + 1].rows);
    }
  }

  lemma ResponsesNext(files: map<nat, Payload>, requests: seq<Request>, i: nat)
    requires i < |requests|
    ensures ResponsesReplay(files, requests, i + 1)
       <==> ResponsesReplay(files, requests, i) && ResponseReplays(files, requests[i], i + 1)
  {
    hide ResponseReplays;
  }

  lemma ResponsesPrefix(files: map<nat, Payload>, requests: seq<Request>, i: nat, k: nat)
    requires i <= k <= |requests| && ResponsesReplay(files, requests, k)
    ensures ResponsesReplay(files, requests, i)
  {
    hide ResponseReplays;
  }

  lemma NoResponses(files: map<nat, Payload>, requests: seq<Request>)
    ensures ResponsesReplay(files, requests, 0) && EvidenceOf(files, 0).shas == []
  {
  }

  lemma PairHasFile(journal: seq<Record>, files: map<nat, Payload>, frozen: seq<Request>, i: nat)
    requires 2 * i + 1 < |journal| && i < |frozen| && PairAt(journal, files, frozen, i)
    ensures i + 1 in files && journal[2 * i + 1].Saved? && journal[2 * i + 1].sha == Sha256(files[i + 1])
  {
  }

  /** Replays the rows of the saved responses one pair of records at a time. */
  method ReplayResponses(journal: seq<Record>, files: map<nat, Payload>, requests: seq<Request>, k: nat)
    returns (ok: bool, shas: seq<Digest>, fault: bool)
    requires 2 * k <= |journal| && k <= |requests|
    ensures ok <==> Pairs(journal, files, requests, k) && ResponsesReplay(files, requests, k)
    ensures ok ==> forall i | 1 <= i <= k :: i in files
    ensures ok ==> shas == EvidenceOf(files, k).shas && (fault <==> SomeFault(files, k))
  {
    ok, shas, fault := false, [], false;
    NoResponses(files, requests);
    NoFaultYet(files);
    PairsEmpty(journal, files, requests);
    hide Pairs, PairAt, SomeFault, RowsReplay, HasFault, ResponseIdentity, ResponsesReplay, SavedMatches, EvidenceOf, Sha256;
    for i := 0 to k
      invariant Pairs(journal, files, requests, i) && ResponsesReplay(files, requests, i)
      invariant forall j | 1 <= j <= i :: j in files
      invariant shas == EvidenceOf(files, i).shas
      invariant fault <==> SomeFault(files, i)
    {
      PairIs(journal, files, requests, i);
      if journal[2 * i] != Started(i + 1, requests[i])
         || !SavedMatches(journal[2 * i + 1], files, requests[i], i + 1)
      {
        NotPairs(journal, files, requests, i, k);
        return;
      }
      PairHasFile(journal, files, requests, i);
      PairsGrow(journal, files, requests, i);
      ResponsesNext(files, requests, i);
      if ResponsesReplay(files, requests, k) { ResponsesPrefix(files, requests, i + 1, k); }
      var rows := files[i + 1].rows;
      var identical := ValidateResponseIdentity(requests[i], rows);
      if !identical || !RowsReplay(rows) {
        return;
      }
      ReplayNext(files, i);
      fault := fault || HasFault(rows);
      shas := shas + [journal[2 * i + 1].sha];
    }
    ok := true;
  }

  lemma EvidenceIs(files: map<nat, Payload>, k: nat)
    requires forall i | 1 <= i <= k :: i in files
    ensures EvidenceOf(files, k) == Evidence(ZERO_OHL, k, k, EvidenceOf(files, k).shas)
  {
  }

  method SourceIsolationEvidence(journal: seq<Record>, files: map<nat, Payload>, unit: Unit, result: WarmupResult)
    returns (r: Option<Evidence>)
    ensures r.Some? <==> IsolationProven(journal, files, unit, result)
    ensures r.Some? ==> r == Some(EvidenceOf(files, SavedCount(journal)))
  {
    hide Pairs, ResponsesReplay, SomeFault, NothingApplied, FailuresNamed, Accepted, ReadAttemptOutcome, SavedCount, EvidenceOf, Span;
    if unit.sourceRequests == [] || unit.targets == [] || !NothingApplied(result) {
      return None;
    }
    if |journal| < 3 || journal[|journal| - 1] != Failed(None, RESULT_NOT_PASSED) || (|journal| - 1) % 2 != 0 {
      return None;
    }
    var k := (|journal| - 1) / 2;
    if k > |unit.sourceRequests| {
      return None;
    }
    var ok, shas, fault := ReplayResponses(journal, files, unit.sourceRequests, k);
    if !ok || files.Keys != Span(1, k + 1) || !fault {
      return None;
    }
    if !FailuresNamed(result.failures, unit.targets) {
      return None;
    }
    // The source rereads the whole outcome here; what was checked above already decides it.
    ProvenIsBody(journal, files, unit, k);
    if ReadAttemptOutcome(journal) != FailedOutcome(k, k) {
      return None;
    }
    r := Some(Evidence(ZERO_OHL, k, k, shas));
    EvidenceIs(files, k);
  }
}
