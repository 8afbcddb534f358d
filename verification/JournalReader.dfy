/**
 * The two readers of an attempt journal: the plain reader of its outcome, and the independent
 * checker that replays it against the frozen requests. They are proved to agree, and the
 * checker is proved to accept every failed attempt the provider's driver can leave.
 */
module JournalReader {
  import opened Wrappers
  import opened Seqs
  import opened Journal

  datatype AttemptState = NotStarted | ResponseSaved | RequestStarted | FailedState | OutcomeUnknown

  datatype Outcome = Outcome(state: AttemptState, outcomeUnknown: bool, requestsStarted: nat, responsesSaved: nat)

  function StartedSequences(journal: seq<Record>): set<nat> {
    set i | 0 <= i < |journal| && journal[i].Started? :: journal[i].sequence
  }

  function SavedSequences(journal: seq<Record>): set<nat> {
    set i | 0 <= i < |journal| && journal[i].Saved? :: journal[i].sequence
  }

  function RecordState(rec: Record): AttemptState {
    match rec
    case Started(_, _) => RequestStarted
    case Saved(_, _, _, _) => ResponseSaved
    case Failed(_, _) => FailedState
  }

  function ReadAttemptOutcome(journal: seq<Record>): Outcome {
    var started, saved := StartedSequences(journal), SavedSequences(journal);
    var unknown := started - saved != {};
    var state := if unknown then OutcomeUnknown
                 else if journal == [] then NotStarted
                 else RecordState(journal[|journal| - 1]);
    Outcome(state, unknown, |started|, |saved|)
  }

  lemma KnownExactly(journal: seq<Record>)
    ensures !ReadAttemptOutcome(journal).outcomeUnknown <==> StartedSequences(journal) <= SavedSequences(journal)
  {
    var started, saved := StartedSequences(journal), SavedSequences(journal);
    hide StartedSequences, SavedSequences;
    if started <= saved { assert started - saved == {}; }
    forall n | n in started && n !in saved ensures n in started - saved { }
  }

  lemma KnownMeansSavedInState(s: State, r: Request)
    requires StartsRecorded(s.allowed, s.journal, s.started) && FilesAnswer(s.files, s.started)
    requires SavesDescribe(s.journal, s.files)
    requires r in s.started && !ReadAttemptOutcome(s.journal).outcomeUnknown
    ensures var n := s.started[r];
            && n in s.files && s.files[n].request == r
            && Saved(n, n, Sha256(s.files[n]), |s.files[n].rows|) in s.journal
  {
    var n := s.started[r];
    var i :| 0 <= i < |s.journal| && s.journal[i] == Started(n, r);
    assert s.journal[i].sequence in StartedSequences(s.journal);
    assert n !in StartedSequences(s.journal) - SavedSequences(s.journal);
    var j :| 0 <= j < |s.journal| && s.journal[j].Saved? && s.journal[j].sequence == n;
    assert SavedDescribes(s.journal, s.files, j);
    assert s.started[s.files[n].request] == n;
  }

  /** A known outcome is never read while a request that was sent lacks its saved response:
      after any calls on any disk, each request the journal let through has a response
      file of its own, described by a saved record. */
  lemma KnownMeansEveryResponseSaved(allowed: seq<Request>, calls: seq<Call>, r: Request)
    requires var s := Run(Empty(allowed), calls);
             r in s.started && !ReadAttemptOutcome(s.journal).outcomeUnknown
    ensures var s := Run(Empty(allowed), calls);
            var n := s.started[r];
            && n in s.files && s.files[n].request == r
            && Saved(n, n, Sha256(s.files[n]), |s.files[n].rows|) in s.journal
  {
    RunKeepsInv(Empty(allowed), calls);
    KnownMeansSavedInState(Run(Empty(allowed), calls), r);
  }

  /** Some request that was let through has no saved record. */
  ghost predicate Unsaved(s: State) {
    exists r :: r in s.started && s.started[r] !in SavedSequences(s.journal)
  }

  lemma UnsavedIsUnknown(s: State)
    requires StartsRecorded(s.allowed, s.journal, s.started) && Unsaved(s)
    ensures ReadAttemptOutcome(s.journal).outcomeUnknown
  {
    var r :| r in s.started && s.started[r] !in SavedSequences(s.journal);
    var i :| 0 <= i < |s.journal| && s.journal[i] == Started(s.started[r], r);
    assert s.journal[i].sequence in StartedSequences(s.journal) - SavedSequences(s.journal);
  }

  lemma DanglingIsUnknown(s: State)
    requires StartsRecorded(s.allowed, s.journal, s.started) && FilesAnswer(s.files, s.started)
    requires SavesDescribe(s.journal, s.files) && |s.started| + 1 in StartedSequences(s.journal)
    ensures ReadAttemptOutcome(s.journal).outcomeUnknown
  {
    var next := |s.started| + 1;
    forall i | 0 <= i < |s.journal| && s.journal[i].Saved? ensures s.journal[i].sequence != next {
      assert SavedDescribes(s.journal, s.files, i);
    }
    assert next in StartedSequences(s.journal) - SavedSequences(s.journal);
  }

  lemma UnknownIsEither(s: State)
    requires StartsAllowed(s.allowed, s.journal, |s.started| + 1) && Numbered(s.started)
    requires ReadAttemptOutcome(s.journal).outcomeUnknown
    ensures Unsaved(s) || |s.started| + 1 in StartedSequences(s.journal)
  {
    var n :| n in StartedSequences(s.journal) - SavedSequences(s.journal);
    var i :| 0 <= i < |s.journal| && s.journal[i].Started? && s.journal[i].sequence == n;
    assert Started(n, s.journal[i].request) in s.journal;
    if n <= |s.started| { assert GivenOut(s.started, n); }
  }

  /** When an outcome is unknown, after any calls on any disk: some request that was let through has no
      saved record, or the last started record is one whose append reported an error, so that its number
      was not given out. */
  lemma UnknownExactly(allowed: seq<Request>, calls: seq<Call>)
    ensures var s := Run(Empty(allowed), calls);
            ReadAttemptOutcome(s.journal).outcomeUnknown
            <==> Unsaved(s) || |s.started| + 1 in StartedSequences(s.journal)
  {
    RunKeepsInv(Empty(allowed), calls);
    RunNumbers(Empty(allowed), calls);
    var s := Run(Empty(allowed), calls);
    hide Run, ReadAttemptOutcome, StartedSequences, SavedSequences, Unsaved, Numbered;
    if Unsaved(s) { UnsavedIsUnknown(s); }
    if |s.started| + 1 in StartedSequences(s.journal) { DanglingIsUnknown(s); }
    if ReadAttemptOutcome(s.journal).outcomeUnknown { UnknownIsEither(s); }
  }

  /** The numbering of a fresh journal is strict exactly as long as no append errs. */
  lemma JournalIsExact(allowed: seq<Request>, calls: seq<Call>)
    ensures Exact(Run(Empty(allowed), calls)) <==> NoneErrs(Empty(allowed), calls)
  {
    RunIsExact(Empty(allowed), calls);
  }

  lemma TwoCalls(s: State, a: Call, b: Call)
    ensures Run(s, [a, b]) == Step(Step(s, a), b)
  {
    assert Run(Step(Step(s, a), b), []) == Step(Step(s, a), b);
    assert [a, b][1..] == [b];
    assert Run(Step(s, a), [b]) == Step(Step(s, a), b);
  }

  /** An instance: an append reports an error after its bytes reached the disk, and the next request
      reuses its sequence number. */
  lemma DuplicateSequenceWitness(q: Request, r: Request)
    requires q != r
    ensures var s := Run(Empty([q, r]), [Before(q, WrittenThenError), Before(r, Written)]);
            s.journal == [Started(1, q), Started(1, r)] && r in s.started && q !in s.started
  {
    TwoCalls(Empty([q, r]), Before(q, WrittenThenError), Before(r, Written));
  }

  /** And one for the failure: the record of the first one reached the disk, and a second is added. */
  lemma TwoFailuresWitness(allowed: seq<Request>, code: string, again: string)
    ensures Run(Empty(allowed), [Fail(code, None, WrittenThenError), Fail(again, None, Written)]).journal
            == [Failed(None, SafeCode(code)), Failed(None, SafeCode(again))]
  {
    TwoCalls(Empty(allowed), Fail(code, None, WrittenThenError), Fail(again, None, Written));
    hide SafeCode;
  }

  // ----- the independent checker of a failed attempt -----

  predicate SavedMatches(rec: Record, files: map<nat, Payload>, request: Request, sequence: nat) {
    && rec.Saved? && rec.sequence == sequence && rec.file == sequence
    && sequence in files && rec.sha == Sha256(files[sequence])
    && files[sequence].request == request && |files[sequence].rows| == rec.rowCount
  }

  ghost predicate PairAt(journal: seq<Record>, files: map<nat, Payload>, frozen: seq<Request>, i: nat)
    requires 2 * i + 1 < |journal| && i < |frozen|
  {
    && journal[2 * i] == Started(i + 1, frozen[i])
    && SavedMatches(journal[2 * i + 1], files, frozen[i], i + 1)
  }

  /** How many requests a journal ending in one failure record must have saved and started. */
  function SavedCount(journal: seq<Record>): nat
    requires journal != []
  {
    (|journal| - 1) / 2
  }

  function StartedCount(journal: seq<Record>): nat
    requires journal != []
  {
    |journal| - 1 - SavedCount(journal)
  }

  ghost predicate Pairs(journal: seq<Record>, files: map<nat, Payload>, frozen: seq<Request>, m: nat) {
    2 * m <= |journal| && m <= |frozen| && forall i | 0 <= i < m :: PairAt(journal, files, frozen, i)
  }

  /** n requests started in frozen order, each saved before the next, m of them saved. */
  ghost predicate Body(journal: seq<Record>, files: map<nat, Payload>, frozen: seq<Request>, n: nat, m: nat) {
    && |journal| == n + m + 1 && m <= n <= m + 1 && n <= |frozen|
    && Pairs(journal, files, frozen, m)
    && (m < n ==> journal[2 * m] == Started(n, frozen[m]))
  }

  ghost predicate Terminal(rec: Record, n: nat, m: nat) {
    && rec.Failed? && ValidCode(rec.errorCode)
    && (rec.failedSequence.Some? ==> rec.failedSequence.value == n && m == n)
  }

  /** The journal is a prefix of the frozen requests, each saved before the next is started, the
      last response possibly missing, then one failure; and the files are exactly those saved. */
  ghost predicate Accepted(journal: seq<Record>, files: map<nat, Payload>, frozen: seq<Request>) {
    && journal != []
    && Body(journal, files, frozen, StartedCount(journal), SavedCount(journal))
    && Terminal(journal[|journal| - 1], StartedCount(journal), SavedCount(journal))
    && files.Keys == Span(1, SavedCount(journal) + 1)
  }

  function FailedOutcome(n: nat, m: nat): Outcome {
    Outcome(if n != m then OutcomeUnknown else FailedState, n != m, n, m)
  }

  lemma NextRecords(journal: seq<Record>, files: map<nat, Payload>, frozen: seq<Request>, k: nat)
    requires journal != [] && Body(journal, files, frozen, StartedCount(journal), SavedCount(journal))
    requires 2 * k < |journal| - 1
    ensures k < |frozen| && journal[2 * k] == Started(k + 1, frozen[k])
    ensures 2 * k + 1 < |journal| - 1 ==> PairAt(journal, files, frozen, k)
  {
    if k < SavedCount(journal) { assert PairAt(journal, files, frozen, k); }
  }

  lemma CountsOfBody(journal: seq<Record>, n: nat, m: nat)
    requires |journal| == n + m + 1 && m <= n <= m + 1
    ensures SavedCount(journal) == m && StartedCount(journal) == n
  {
  }

  lemma PairsEmpty(journal: seq<Record>, files: map<nat, Payload>, frozen: seq<Request>)
    ensures Pairs(journal, files, frozen, 0)
  {
  }

  lemma PairsGrow(journal: seq<Record>, files: map<nat, Payload>, frozen: seq<Request>, m: nat)
    requires Pairs(journal, files, frozen, m) && m < |frozen| && 2 * m + 1 < |journal|
    requires PairAt(journal, files, frozen, m)
    ensures Pairs(journal, files, frozen, m + 1)
  {
  }

  lemma BodyComplete(journal: seq<Record>, files: map<nat, Payload>, frozen: seq<Request>, n: nat, m: nat)
    requires |journal| == n + m + 1 && m <= n <= m + 1 && n <= |frozen|
    requires Pairs(journal, files, frozen, m)
    requires m < n ==> journal[2 * m] == Started(n, frozen[m])
    ensures journal != [] && Body(journal, files, frozen, StartedCount(journal), SavedCount(journal))
    ensures StartedCount(journal) == n && SavedCount(journal) == m
  {
    CountsOfBody(journal, n, m);
  }

  lemma PairIs(journal: seq<Record>, files: map<nat, Payload>, frozen: seq<Request>, i: nat)
    ensures 2 * i + 1 < |journal| && i < |frozen| ==>
              (PairAt(journal, files, frozen, i)
               <==> journal[2 * i] == Started(i + 1, frozen[i]) && SavedMatches(journal[2 * i + 1], files, frozen[i], i + 1))
  {
  }

  /** Reads started and saved records in step with the frozen requests. */
  method ReadBody(journal: seq<Record>, files: map<nat, Payload>, frozen: seq<Request>)
    returns (ok: bool, started: nat, saved: nat, expected: set<nat>)
    requires journal != []
    ensures ok <==> Body(journal, files, frozen, StartedCount(journal), SavedCount(journal))
    ensures ok ==> started == StartedCount(journal) && saved == SavedCount(journal)
    ensures ok ==> expected == Span(1, saved + 1)
  {
    hide Body, Pairs, StartedCount, SavedCount, SavedMatches;
    ghost var good := Body(journal, files, frozen, StartedCount(journal), SavedCount(journal));
    var length := |journal| - 1;
    var offset := 0;
    ok, started, saved, expected := false, 0, 0, {};
    PairsEmpty(journal, files, frozen);
    while offset < length
      invariant 0 <= offset <= length && offset == started + saved && started <= |frozen|
      invariant started == saved || (started == saved + 1 && offset == length)
      invariant Pairs(journal, files, frozen, saved)
      invariant started > saved ==> journal[2 * saved] == Started(started, frozen[saved])
      invariant expected == Span(1, saved + 1)
    {
      if good { NextRecords(journal, files, frozen, saved); }
      PairIs(journal, files, frozen, saved);
      var sequence := started + 1;
      if sequence > |frozen| || journal[offset] != Started(sequence, frozen[started]) {
        return;
      }
      started := started + 1;
      offset := offset + 1;
      if offset == length {
        break;
      }
      if !SavedMatches(journal[offset], files, frozen[saved], sequence) {
        return;
      }
      PairsGrow(journal, files, frozen, saved);
      expected := expected + {sequence};
      saved := saved + 1;
      offset := offset + 1;
    }
    ok := true;
    BodyComplete(journal, files, frozen, started, saved);
  }

  /** Replays the journal and trusts no count of its own. */
  method ValidatedSourceAttemptOutcome(journal: seq<Record>, files: map<nat, Payload>, frozen: seq<Request>)
    returns (r: Option<Outcome>)
    ensures r == if Accepted(journal, files, frozen)
                 then Some(FailedOutcome(StartedCount(journal), SavedCount(journal))) else None
  {
    if journal == [] {
      return None;
    }
    var terminal := journal[|journal| - 1];
    if !terminal.Failed? || !ValidCode(terminal.errorCode) {
      return None;
    }
    var ok, started, saved, expected := ReadBody(journal, files, frozen);
    if !ok {
      return None;
    }
    if terminal.failedSequence.Some? && (terminal.failedSequence.value != started || saved != started) {
      return None;
    }
    if files.Keys != expected {
      return None;
    }
    r := Some(FailedOutcome(started, saved));
  }

  /** Started and saved records alternate from the beginning, numbered pair by pair. */
  predicate PairKind(journal: seq<Record>, j: nat)
    requires j < |journal|
  {
    if j % 2 == 0 then journal[j].Started? && journal[j].sequence == j / 2 + 1
    else journal[j].Saved? && journal[j].sequence == j / 2 + 1
  }

  predicate Kinds(journal: seq<Record>, length: nat) {
    && length <= |journal| && (forall j | 0 <= j < length :: PairKind(journal, j))
    && (forall j | length <= j < |journal| :: journal[j].Failed?)
  }

  lemma PairKinds(journal: seq<Record>, files: map<nat, Payload>, frozen: seq<Request>, m: nat)
    requires Pairs(journal, files, frozen, m)
    ensures forall j | 0 <= j < 2 * m :: PairKind(journal, j)
  {
    forall j | 0 <= j < 2 * m ensures PairKind(journal, j) {
      assert PairAt(journal, files, frozen, j / 2);
    }
  }

  lemma KindsOfBody(journal: seq<Record>, files: map<nat, Payload>, frozen: seq<Request>, n: nat, m: nat)
    requires Body(journal, files, frozen, n, m) && journal[n + m].Failed?
    ensures Kinds(journal, n + m)
  {
    PairKinds(journal, files, frozen, m);
    hide Pairs;
  }

  lemma StartedOfKinds(journal: seq<Record>, length: nat)
    requires Kinds(journal, length)
    ensures StartedSequences(journal) == Span(1, (length + 1) / 2 + 1)
  {
    var n := (length + 1) / 2;
    forall k: nat | 1 <= k <= n ensures k in StartedSequences(journal) {
      assert PairKind(journal, 2 * (k - 1));
      assert journal[2 * (k - 1)].Started?;
    }
    forall k | k in StartedSequences(journal) ensures 1 <= k <= n {
      var j :| 0 <= j < |journal| && journal[j].Started? && journal[j].sequence == k;
      assert PairKind(journal, j);
    }
  }

  lemma SavedOfKinds(journal: seq<Record>, length: nat)
    requires Kinds(journal, length)
    ensures SavedSequences(journal) == Span(1, length / 2 + 1)
  {
    forall k: nat | 1 <= k <= length / 2 ensures k in SavedSequences(journal) {
      assert PairKind(journal, 2 * k - 1);
      assert journal[2 * k - 1].Saved?;
    }
    forall k | k in SavedSequences(journal) ensures 1 <= k <= length / 2 {
      var j :| 0 <= j < |journal| && journal[j].Saved? && journal[j].sequence == k;
      assert PairKind(journal, j);
    }
  }

  lemma OutcomeOfSpans(journal: seq<Record>, n: nat, m: nat)
    requires m <= n <= m + 1 && journal != [] && journal[|journal| - 1].Failed?
    requires StartedSequences(journal) == Span(1, n + 1) && SavedSequences(journal) == Span(1, m + 1)
    ensures ReadAttemptOutcome(journal) == FailedOutcome(n, m)
  {
    hide StartedSequences, SavedSequences;
    if m < n { assert n in Span(1, n + 1) - Span(1, m + 1); } else { assert Span(1, n + 1) - Span(1, m + 1) == {}; }
  }

  /** The record kinds, counts and files of an accepted journal. */
  lemma AcceptedParts(journal: seq<Record>, files: map<nat, Payload>, frozen: seq<Request>)
    requires Accepted(journal, files, frozen)
    ensures var m, n := SavedCount(journal), StartedCount(journal);
            && |journal| == n + m + 1 && m <= n <= m + 1 && m == (n + m) / 2 && n == (n + m + 1) / 2
            && journal[n + m].Failed? && Kinds(journal, n + m) && files.Keys == Span(1, m + 1)
  {
    hide Span, Pairs, Kinds, ValidCode;
    KindsOfBody(journal, files, frozen, StartedCount(journal), SavedCount(journal));
  }

  /** Checker and reader agree on every journal the checker accepts. */
  lemma AcceptedAgreesWithReader(journal: seq<Record>, files: map<nat, Payload>, frozen: seq<Request>)
    requires Accepted(journal, files, frozen)
    ensures ReadAttemptOutcome(journal) == FailedOutcome(StartedCount(journal), SavedCount(journal))
  {
    AcceptedParts(journal, files, frozen);
    hide Accepted, Kinds, Span;
    var m, n := SavedCount(journal), StartedCount(journal);
    StartedOfKinds(journal, n + m);
    SavedOfKinds(journal, n + m);
    OutcomeOfSpans(journal, n, m);
  }

  // ----- the provider's own driver: frozen order, save before the next, fail at the end -----

  predicate Storable(rows: seq<Row>) { forall i | 0 <= i < |rows| :: rows[i].storable }

  /** One request of an attempt: the provider's reply, if any, and what each durable write about it did. */
  datatype Exchange = Exchange(reply: Option<seq<Row>>, start: Disk, file: Disk, record: Disk, failure: Disk)

  /** The request was recorded, answered with the right days, and its response saved. */
  ghost predicate Delivered(request: Request, x: Exchange) {
    && x.start.Written? && x.reply.Some? && Storable(x.reply.value) && x.file.Written? && x.record.Written?
    && ResponseIdentity(request, x.reply.value)
  }

  /** The calls of an attempt that ends in failure: requests in order; a write that reports an error, a
      missing reply, a row that cannot be stored or a wrong set of days stops it; the batch then records
      the failure. */
  ghost function DriverCalls(frozen: seq<Request>, exchanges: seq<Exchange>, code: string, last: Disk): seq<Call>
    decreases |frozen|
  {
    if frozen == [] || exchanges == [] then
      [Fail(code, None, last)]
    else
      var x := exchanges[0];
      if !x.start.Written? || x.reply.None? then
        [Before(frozen[0], x.start), Fail(code, None, last)]
      else
        [Before(frozen[0], x.start), After(frozen[0], x.reply.value, x.file, x.record, x.failure)]
        + if Delivered(frozen[0], x)
          then DriverCalls(frozen[1..], exchanges[1..], code, last)
          else [Fail(code, None, last)]
  }

  /** After i complete request and response pairs, nothing else has happened. */
  ghost predicate AfterPairs(s: State, frozen: seq<Request>, i: nat) {
    && i <= |frozen| && s.allowed == frozen && !s.failureRecorded
    && |s.journal| == 2 * i && Pairs(s.journal, s.files, frozen, i)
    && s.files.Keys == Span(1, i + 1)
    && StartedAre(s.started, frozen, i)
  }

  ghost predicate StartedAre(started: map<Request, nat>, frozen: seq<Request>, i: nat)
    requires i <= |frozen|
  {
    && |started| == i && (forall r :: r in started <==> r in frozen[..i])
    && (forall k | 0 <= k < i :: started[frozen[k]] == k + 1)
  }

  lemma StartedAreNext(started: map<Request, nat>, frozen: seq<Request>, i: nat)
    requires NoDup(frozen) && i < |frozen| && StartedAre(started, frozen, i)
    ensures frozen[i] !in started
    ensures StartedAre(started[frozen[i] := i + 1], frozen, i + 1)
  {
    assert frozen[..i + 1] == frozen[..i] + [frozen[i]];
  }

  lemma RunTwo(s: State, a: Call, b: Call, rest: seq<Call>)
    ensures Run(s, [a] + rest) == Run(Step(s, a), rest)
    ensures Run(s, [a, b] + rest) == Run(Step(Step(s, a), b), rest)
  {
    assert ([a, b] + rest)[1..] == [b] + rest;
    assert ([b] + rest)[1..] == rest;
    assert ([a] + rest)[1..] == rest;
  }

  lemma RunLast(s: State, a: Call, b: Call, c: Call)
    ensures Run(s, [a]) == Step(s, a)
    ensures Run(s, [a, b]) == Step(Step(s, a), b)
    ensures Run(s, [a, b] + [c]) == Step(Step(Step(s, a), b), c)
  {
    RunTwo(s, a, b, []);
    RunTwo(s, a, b, [c]);
    RunTwo(Step(Step(s, a), b), c, c, []);
    assert [a] + [] == [a];
    assert [a, b] + [] == [a, b];
    assert [c] + [] == [c];
  }

  lemma PairsSurvive(journal: seq<Record>, files: map<nat, Payload>, more: seq<Record>, files': map<nat, Payload>,
                     frozen: seq<Request>, m: nat)
    requires Pairs(journal, files, frozen, m)
    requires forall k | k in files :: k in files' && files'[k] == files[k]
    ensures Pairs(journal + more, files', frozen, m)
  {
    forall k | 0 <= k < m ensures PairAt(journal + more, files', frozen, k) {
      assert PairAt(journal, files, frozen, k);
    }
  }

  lemma NotYetStarted(s: State, frozen: seq<Request>, i: nat)
    requires NoDup(frozen) && AfterPairs(s, frozen, i) && i < |frozen|
    ensures frozen[i] !in s.started && frozen[i] in s.allowed && i + 1 !in s.files
  {
  }

  lemma StartNext(s: State, frozen: seq<Request>, i: nat)
    requires NoDup(frozen) && AfterPairs(s, frozen, i) && i < |frozen|
    ensures Step(s, Before(frozen[i], Written))
            == s.(journal := s.journal + [Started(i + 1, frozen[i])], started := s.started[frozen[i] := i + 1])
  {
    NotYetStarted(s, frozen, i);
  }

  lemma PairsNext(journal: seq<Record>, files: map<nat, Payload>, frozen: seq<Request>, i: nat, rows: seq<Row>)
    requires |journal| == 2 * i && i < |frozen| && Pairs(journal, files, frozen, i)
    requires files.Keys == Span(1, i + 1)
    ensures var payload := Payload(frozen[i], rows);
            var more := [Started(i + 1, frozen[i]), Saved(i + 1, i + 1, Sha256(payload), |rows|)];
            var files' := files[i + 1 := payload];
            Pairs(journal + more, files', frozen, i + 1) && files'.Keys == Span(1, i + 2)
  {
    var payload := Payload(frozen[i], rows);
    var more := [Started(i + 1, frozen[i]), Saved(i + 1, i + 1, Sha256(payload), |rows|)];
    var files' := files[i + 1 := payload];
    PairsSurvive(journal, files, more, files', frozen, i);
    assert PairAt(journal + more, files', frozen, i);
    assert files'.Keys == files.Keys + {i + 1};
  }

  lemma SaveNextPairs(s: State, frozen: seq<Request>, i: nat, rows: seq<Row>)
    requires NoDup(frozen) && AfterPairs(s, frozen, i) && i < |frozen|
    ensures frozen[i] in Step(s, Before(frozen[i], Written)).started
    ensures AfterPairs(WithSave(Step(s, Before(frozen[i], Written)), frozen[i], rows), frozen, i + 1)
  {
    hide Pairs, StartedAre, Step, Sha256, NoDup, Span;
    StartNext(s, frozen, i);
    StartedAreNext(s.started, frozen, i);
    PairsNext(s.journal, s.files, frozen, i, rows);
    SavedShape(s, frozen, i, rows);
  }

  lemma SavedShape(s: State, frozen: seq<Request>, i: nat, rows: seq<Row>)
    requires i < |frozen| && Step(s, Before(frozen[i], Written))
                             == s.(journal := s.journal + [Started(i + 1, frozen[i])], started := s.started[frozen[i] := i + 1])
    ensures WithSave(Step(s, Before(frozen[i], Written)), frozen[i], rows)
            == s.(journal := s.journal + [Started(i + 1, frozen[i]), Saved(i + 1, i + 1, Sha256(Payload(frozen[i], rows)), |rows|)],
                  started := s.started[frozen[i] := i + 1], files := s.files[i + 1 := Payload(frozen[i], rows)])
  {
    hide Step, Sha256;
    var t := WithSave(Step(s, Before(frozen[i], Written)), frozen[i], rows);
    assert t.journal == s.journal + [Started(i + 1, frozen[i]), Saved(i + 1, i + 1, Sha256(Payload(frozen[i], rows)), |rows|)];
  }

  lemma SaveNext(s: State, frozen: seq<Request>, i: nat, rows: seq<Row>, failure: Disk)
    requires NoDup(frozen) && AfterPairs(s, frozen, i) && i < |frozen| && Storable(rows)
    requires frozen[i] in Step(s, Before(frozen[i], Written)).started
    ensures var started := Step(s, Before(frozen[i], Written));
            var t := WithSave(started, frozen[i], rows);
            Step(started, After(frozen[i], rows, Written, Written, failure))
            == if ResponseIdentity(frozen[i], rows) then t
               else StepFail(t, IDENTITY_INVALID, Some(i + 1), failure).0
  {
    StartNext(s, frozen, i);
    NotYetStarted(s, frozen, i);
  }

  // ----- what the driver leaves, on any disk -----

  /** Complete pairs, possibly one more started request whose response may have left a file without a
      record, and then failure records. */
  ghost predicate Left(t: State, frozen: seq<Request>, i: nat, begun: bool, failures: seq<Record>) {
    && i <= |frozen| && Tail(t.journal, frozen, i, begun, failures)
    && Pairs(t.journal, t.files, frozen, i)
    && (t.files.Keys == Span(1, i + 1) || (begun && t.files.Keys == Span(1, i + 2)))
    && (forall f | f in failures :: FailureOf(f, i, begun))
    && (t.failureRecorded ==> failures != [])
  }

  /** What comes after the complete pairs. */
  ghost predicate Tail(journal: seq<Record>, frozen: seq<Request>, i: nat, begun: bool, failures: seq<Record>) {
    var head := 2 * i + if begun then 1 else 0;
    && |journal| == head + |failures| && journal[head..] == failures
    && (begun ==> i < |frozen| && journal[2 * i] == Started(i + 1, frozen[i]))
  }

  predicate FailureOf(f: Record, i: nat, begun: bool) {
    f.Failed? && ValidCode(f.errorCode) && (f.failedSequence.Some? ==> f.failedSequence.value == i && !begun)
  }

  lemma SafeCodeIsValid(code: string)
    ensures ValidCode(SafeCode(code))
  {
  }

  lemma TailNext(journal: seq<Record>, frozen: seq<Request>, i: nat, begun: bool, failures: seq<Record>, f: Record)
    requires Tail(journal, frozen, i, begun, failures)
    ensures Tail(journal + [f], frozen, i, begun, failures + [f])
  {
  }

  lemma FailLeaves(s: State, frozen: seq<Request>, i: nat, begun: bool, failures: seq<Record>, code: string,
                   sequence: Option<nat>, disk: Disk) returns (more: seq<Record>)
    requires Left(s, frozen, i, begun, failures) && (sequence.Some? ==> sequence.value == i && !begun)
    ensures Left(StepFail(s, code, sequence, disk).0, frozen, i, begun, more)
    ensures |more| == |failures| + if s.failureRecorded || disk.Lost? then 0 else 1
    ensures StepFail(s, code, sequence, disk).0.files == s.files
    ensures disk.Written? ==> StepFail(s, code, sequence, disk).0.failureRecorded
  {
    SafeCodeIsValid(code);
    hide SafeCode, ValidCode, Pairs, Span, Tail;
    more := failures;
    if !s.failureRecorded && !disk.Lost? {
      var f := Failed(sequence, SafeCode(code));
      more := failures + [f];
      PairsSurvive(s.journal, s.files, [f], s.files, frozen, i);
      TailNext(s.journal, frozen, i, begun, failures, f);
    }
  }

  lemma PairsLeft(s: State, frozen: seq<Request>, i: nat)
    requires AfterPairs(s, frozen, i)
    ensures Left(s, frozen, i, false, []) && s.files.Keys == Span(1, i + 1) && !s.failureRecorded
  {
    hide Pairs;
  }

  lemma TailBegins(journal: seq<Record>, frozen: seq<Request>, i: nat)
    requires |journal| == 2 * i && i < |frozen|
    ensures Tail(journal + [Started(i + 1, frozen[i])], frozen, i, true, [])
  {
  }

  lemma BeginLeaves(s: State, frozen: seq<Request>, i: nat, disk: Disk)
    requires NoDup(frozen) && AfterPairs(s, frozen, i) && i < |frozen|
    ensures var t := Step(s, Before(frozen[i], disk));
            Left(t, frozen, i, !disk.Lost?, []) && t.files == s.files && !t.failureRecorded
  {
    NotYetStarted(s, frozen, i);
    assert |s.started| == i;
    hide Pairs, StartedAre, Span, NoDup, Tail, FailureOf;
    PairsLeft(s, frozen, i);
    if !disk.Lost? {
      PairsSurvive(s.journal, s.files, [Started(i + 1, frozen[i])], s.files, frozen, i);
      TailBegins(s.journal, frozen, i);
    }
  }

  lemma FileLeaves(s: State, frozen: seq<Request>, i: nat, rows: seq<Row>)
    requires NoDup(frozen) && AfterPairs(s, frozen, i) && i < |frozen|
    ensures var started := Step(s, Before(frozen[i], Written));
            frozen[i] in started.started && Left(WithFile(started, frozen[i], rows), frozen, i, true, [])
  {
    StartNext(s, frozen, i);
    BeginLeaves(s, frozen, i, Written);
    var started := Step(s, Before(frozen[i], Written));
    hide Step, Pairs;
    PairsSurvive(started.journal, started.files, [], WithFile(started, frozen[i], rows).files, frozen, i);
    assert started.journal + [] == started.journal;
  }

  lemma WrittenShape(s: State, r: Request, rows: seq<Row>, failure: Disk)
    ensures var t := StepAfter(s, r, rows, Written, Written, failure).0;
            || t == s
            || (r in s.started && (t == WithSave(s, r, rows)
                                   || t == StepFail(WithSave(s, r, rows), IDENTITY_INVALID, Some(s.started[r]), failure).0))
  {
  }

  /** Whatever the disk does with a response, the journal keeps its shape. */
  lemma ResponseLeaves(s: State, frozen: seq<Request>, i: nat, rows: seq<Row>, x: Exchange)
    returns (k: nat, begun: bool, failures: seq<Record>)
    requires NoDup(frozen) && AfterPairs(s, frozen, i) && i < |frozen|
    ensures var t := Step(Step(s, Before(frozen[i], Written)), After(frozen[i], rows, x.file, x.record, x.failure));
            && Left(t, frozen, k, begun, failures)
            && (x.file.Written? && x.record.Written? && x.failure.Written? ==>
                  && t.files.Keys == Span(1, k + 1)
                  && if t.failureRecorded then |failures| == 1 else failures == [])
  {
    hide Pairs, StartedAre, Span, NoDup, Tail, SafeCode, ResponseIdentity, StepBefore, StepFail;
    var r, started := frozen[i], Step(s, Before(frozen[i], Written));
    var t := Step(started, After(r, rows, x.file, x.record, x.failure));
    SaveNextPairs(s, frozen, i, rows);
    BeginLeaves(s, frozen, i, Written);
    FileLeaves(s, frozen, i, rows);
    StartNext(s, frozen, i);
    AfterShape(started, r, rows, x.file, x.record, x.failure);
    if x.file.Written? && x.record.Written? { WrittenShape(started, r, rows, x.failure); }
    var saved := WithSave(started, r, rows);
    PairsLeft(saved, frozen, i + 1);
    assert started.files.Keys == Span(1, i + 1);
    assert started.started[r] == i + 1;
    hide StepAfter, StepBefore, StepFail, Left, AfterPairs, Span, WithSave;
    var more := FailLeaves(saved, frozen, i + 1, false, [], IDENTITY_INVALID, Some(i + 1), x.failure);
    hide WithFile;
    if t == started || (t != saved && t == WithFile(started, r, rows)) {
      k, begun, failures := i, true, [];
    } else if t == saved {
      k, begun, failures := i + 1, false, [];
    } else {
      k, begun, failures := i + 1, false, more;
    }
  }

  lemma AnswerSaved(s: State, frozen: seq<Request>, i: nat, x: Exchange, rest: seq<Call>)
    requires NoDup(frozen) && AfterPairs(s, frozen, i) && i < |frozen| && Delivered(frozen[i], x)
    ensures frozen[i] in Step(s, Before(frozen[i], Written)).started
    ensures x.reply.Some?
    ensures var rows := x.reply.value;
            var t := WithSave(Step(s, Before(frozen[i], Written)), frozen[i], rows);
            && AfterPairs(t, frozen, i + 1)
            && Run(s, [Before(frozen[i], Written), After(frozen[i], rows, x.file, x.record, x.failure)] + rest) == Run(t, rest)
  {
    var rows := x.reply.value;
    var before, after := Before(frozen[i], Written), After(frozen[i], rows, x.file, x.record, x.failure);
    SaveNextPairs(s, frozen, i, rows);
    SaveNext(s, frozen, i, rows, x.failure);
    RunTwo(s, before, after, rest);
  }

  predicate Kept(x: Exchange) {
    x.start.Written? && x.file.Written? && x.record.Written? && x.failure.Written?
  }

  predicate Durable(exchanges: seq<Exchange>) {
    forall x | x in exchanges :: Kept(x)
  }

  lemma FailCall(s: State, frozen: seq<Request>, i: nat, begun: bool, failures: seq<Record>, code: string, last: Disk)
    returns (more: seq<Record>)
    requires Left(s, frozen, i, begun, failures)
    ensures var t := Step(s, Fail(code, None, last));
            && Left(t, frozen, i, begun, more) && t.files == s.files
            && |more| == |failures| + if s.failureRecorded || last.Lost? then 0 else 1
  {
    more := FailLeaves(s, frozen, i, begun, failures, code, None, last);
  }

  /** The calls of a request the attempt ends with. */
  function EndingCalls(r: Request, x: Exchange, fail: Call): seq<Call> {
    if !x.start.Written? || x.reply.None? then [Before(r, x.start), fail]
    else [Before(r, x.start), After(r, x.reply.value, x.file, x.record, x.failure)] + [fail]
  }

  lemma EndLeaves(s: State, frozen: seq<Request>, i: nat, x: Exchange, code: string, last: Disk)
    returns (k: nat, begun: bool, failures: seq<Record>)
    requires NoDup(frozen) && AfterPairs(s, frozen, i) && i < |frozen|
    ensures var t := Run(s, EndingCalls(frozen[i], x, Fail(code, None, last)));
            && Left(t, frozen, k, begun, failures)
            && (Kept(x) && last.Written? ==> |failures| == 1 && t.files.Keys == Span(1, k + 1))
  {
    var fail, before := Fail(code, None, last), Before(frozen[i], x.start);
    PairsLeft(s, frozen, i);
    hide Left, AfterPairs, Run, Step, Span, NoDup, WithSave, WithFile, Storable, ResponseIdentity, Sha256;
    if !x.start.Written? || x.reply.None? {
      k, begun := i, !x.start.Lost?;
      BeginLeaves(s, frozen, i, x.start);
      RunLast(s, before, fail, fail);
      failures := FailCall(Step(s, before), frozen, i, begun, [], code, last);
    } else {
      var after := After(frozen[i], x.reply.value, x.file, x.record, x.failure);
      k, begun, failures := ResponseLeaves(s, frozen, i, x.reply.value, x);
      RunLast(s, before, after, fail);
      failures := FailCall(Step(Step(s, before), after), frozen, k, begun, failures, code, last);
    }
  }

  lemma NoneLeft(s: State, frozen: seq<Request>, i: nat, code: string, last: Disk) returns (failures: seq<Record>)
    requires AfterPairs(s, frozen, i)
    ensures var t := Run(s, [Fail(code, None, last)]);
            && Left(t, frozen, i, false, failures) && t.files.Keys == Span(1, i + 1)
            && (last.Written? ==> |failures| == 1)
  {
    PairsLeft(s, frozen, i);
    hide Left, AfterPairs, Run, Step, Span;
    var fail := Fail(code, None, last);
    RunLast(s, fail, fail, fail);
    failures := FailCall(s, frozen, i, false, [], code, last);
  }

  lemma CallsAt(frozen: seq<Request>, i: nat, exchanges: seq<Exchange>, code: string, last: Disk)
    requires i <= |frozen|
    ensures var calls, fail := DriverCalls(frozen[i..], exchanges, code, last), Fail(code, None, last);
            if i == |frozen| || exchanges == [] then calls == [fail]
            else
              var x := exchanges[0];
              && (Durable(exchanges) ==> Durable(exchanges[1..]) && Kept(x))
              && (Delivered(frozen[i], x) ==> x.reply.Some?)
              && calls == if Delivered(frozen[i], x)
                          then [Before(frozen[i], Written), After(frozen[i], x.reply.value, x.file, x.record, x.failure)]
                               + DriverCalls(frozen[i + 1..], exchanges[1..], code, last)
                          else EndingCalls(frozen[i], x, fail)
  {
    hide Storable, ResponseIdentity, Kept;
    if i < |frozen| && exchanges != [] {
      assert frozen[i..][1..] == frozen[i + 1..];
      assert exchanges[0] in exchanges;
    }
  }

  lemma {:induction false} DriverLeaves(s: State, frozen: seq<Request>, i: nat, exchanges: seq<Exchange>, code: string, last: Disk)
    returns (k: nat, begun: bool, failures: seq<Record>)
    requires NoDup(frozen) && AfterPairs(s, frozen, i) && i <= |frozen|
    ensures var t := Run(s, DriverCalls(frozen[i..], exchanges, code, last));
            && Left(t, frozen, k, begun, failures)
            && (Durable(exchanges) && last.Written? ==> |failures| == 1 && t.files.Keys == Span(1, k + 1))
    decreases |frozen| - i
  {
    hide Left, AfterPairs, Run, Step, DriverCalls, Span, Delivered, Durable, Kept, NoDup, WithSave, EndingCalls;
    CallsAt(frozen, i, exchanges, code, last);
    if i == |frozen| || exchanges == [] {
      k, begun := i, false;
      failures := NoneLeft(s, frozen, i, code, last);
    } else if Delivered(frozen[i], exchanges[0]) {
      AnswerSaved(s, frozen, i, exchanges[0], DriverCalls(frozen[i + 1..], exchanges[1..], code, last));
      var next := WithSave(Step(s, Before(frozen[i], Written)), frozen[i], exchanges[0].reply.value);
      k, begun, failures := DriverLeaves(next, frozen, i + 1, exchanges[1..], code, last);
    } else {
      k, begun, failures := EndLeaves(s, frozen, i, exchanges[0], code, last);
    }
  }

  /** Exactly one failure was recorded. */
  ghost predicate OneFailure(journal: seq<Record>) {
    exists i :: 0 <= i < |journal| && journal[i].Failed? && forall j | 0 <= j < |journal| && journal[j].Failed? :: j == i
  }

  lemma FailuresOfKinds(journal: seq<Record>, length: nat)
    requires Kinds(journal, length)
    ensures OneFailure(journal) <==> |journal| == length + 1
  {
    forall j | 0 <= j < length ensures !journal[j].Failed? {
      assert PairKind(journal, j);
    }
    if length + 1 < |journal| { assert journal[length].Failed? && journal[length + 1].Failed?; }
    if |journal| == length + 1 { assert journal[length].Failed?; }
  }

  lemma AcceptedHasOneFailure(journal: seq<Record>, files: map<nat, Payload>, frozen: seq<Request>)
    requires Accepted(journal, files, frozen)
    ensures OneFailure(journal) && files.Keys == SavedSequences(journal)
  {
    AcceptedParts(journal, files, frozen);
    hide Accepted, Kinds, OneFailure, Span;
    var length := StartedCount(journal) + SavedCount(journal);
    FailuresOfKinds(journal, length);
    SavedOfKinds(journal, length);
  }

  lemma LeftIsAccepted(t: State, frozen: seq<Request>, i: nat, begun: bool, failures: seq<Record>)
    requires Left(t, frozen, i, begun, failures) && |failures| == 1 && t.files.Keys == Span(1, i + 1)
    ensures Accepted(t.journal, t.files, frozen)
  {
    var n := if begun then i + 1 else i;
    assert t.journal[n + i] == failures[0] && failures[0] in failures;
    CountsOfBody(t.journal, n, i);
    hide Pairs, ValidCode;
  }

  lemma FailuresFollow(journal: seq<Record>, head: nat, failures: seq<Record>)
    requires |journal| == head + |failures| && journal[head..] == failures && forall f | f in failures :: f.Failed?
    ensures forall j | head <= j < |journal| :: journal[j].Failed?
  {
    forall j | head <= j < |journal| ensures journal[j].Failed? {
      assert journal[head..][j - head] == journal[j] && failures[j - head] in failures;
    }
  }

  lemma KindsOfLeft(t: State, frozen: seq<Request>, i: nat, begun: bool, failures: seq<Record>)
    requires Left(t, frozen, i, begun, failures)
    ensures var head := 2 * i + if begun then 1 else 0;
            Kinds(t.journal, head) && |t.journal| == head + |failures|
  {
    hide Pairs, Span, ValidCode;
    var head := 2 * i + if begun then 1 else 0;
    PairKinds(t.journal, t.files, frozen, i);
    FailuresFollow(t.journal, head, failures);
    assert begun ==> PairKind(t.journal, 2 * i);
    hide Left, PairKind;
  }

  lemma LeftHas(t: State, frozen: seq<Request>, i: nat, begun: bool, failures: seq<Record>)
    requires Left(t, frozen, i, begun, failures)
    ensures OneFailure(t.journal) ==> |failures| == 1
    ensures SavedSequences(t.journal) == Span(1, i + 1)
  {
    hide Left, OneFailure, Kinds, SavedSequences, Span;
    var head := 2 * i + if begun then 1 else 0;
    KindsOfLeft(t, frozen, i, begun, failures);
    SavedOfKinds(t.journal, head);
    FailuresOfKinds(t.journal, head);
  }

  /** Round trip, exactly: however the provider replies, however many requests it answers and whatever the
      disk does with each write, the checker accepts what the driver left if and only if exactly one
      failure was recorded and every response file has its saved record; and then the reader reports what
      the checker reports. */
  lemma DriverRoundTrip(frozen: seq<Request>, exchanges: seq<Exchange>, code: string, last: Disk)
    requires NoDup(frozen)
    ensures var t := Run(Empty(frozen), DriverCalls(frozen, exchanges, code, last));
            && (Accepted(t.journal, t.files, frozen)
                <==> OneFailure(t.journal) && t.files.Keys == SavedSequences(t.journal))
            && (Accepted(t.journal, t.files, frozen) ==>
                  ReadAttemptOutcome(t.journal) == FailedOutcome(StartedCount(t.journal), SavedCount(t.journal)))
  {
    assert frozen[0..] == frozen;
    var t := Run(Empty(frozen), DriverCalls(frozen, exchanges, code, last));
    var i, begun, failures := DriverLeaves(Empty(frozen), frozen, 0, exchanges, code, last);
    LeftHas(t, frozen, i, begun, failures);
    hide Accepted, OneFailure, Left, Run;
    if Accepted(t.journal, t.files, frozen) {
      AcceptedHasOneFailure(t.journal, t.files, frozen);
      AcceptedAgreesWithReader(t.journal, t.files, frozen);
    }
    if OneFailure(t.journal) && t.files.Keys == SavedSequences(t.journal) { LeftIsAccepted(t, frozen, i, begun, failures); }
  }

  /** On a disk that keeps every write, the checker accepts whatever the driver leaves. */
  lemma DurableRoundTrip(frozen: seq<Request>, exchanges: seq<Exchange>, code: string)
    requires NoDup(frozen) && Durable(exchanges)
    ensures var t := Run(Empty(frozen), DriverCalls(frozen, exchanges, code, Written));
            Accepted(t.journal, t.files, frozen)
  {
    assert frozen[0..] == frozen;
    var i, begun, failures := DriverLeaves(Empty(frozen), frozen, 0, exchanges, code, Written);
    LeftIsAccepted(Run(Empty(frozen), DriverCalls(frozen, exchanges, code, Written)), frozen, i, begun, failures);
  }
}
