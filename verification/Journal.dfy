/**
 * The append-only record of one source attempt: which requests were started,
 * which responses were saved, and the one known failure. The writer, the reader
 * and the independent checker are modelled separately and proved to agree.
 *
 * SHA-256 is an injective wrapper of the payload; a response file is named by
 * its sequence number.
 */
module Journal {
  import opened Wrappers
  import opened Seqs

  type Day = int

  datatype Request = Request(contract: string, start: Day, end: Day, expectedDates: seq<Day>)

  /** One provider row: its trading day if it has a readable one, whether every field can be
      persisted, and the error code that normalising it raises, if any. */
  datatype Row = Row(day: Option<Day>, storable: bool, replayError: Option<string>, body: string)

  datatype Payload = Payload(request: Request, rows: seq<Row>)
  datatype Digest = Digest(content: Payload)

  function Sha256(p: Payload): Digest { Digest(p) }

  datatype Record =
    | Started(sequence: nat, request: Request)
    | Saved(sequence: nat, file: nat, sha: Digest, rowCount: nat)
    | Failed(failedSequence: Option<nat>, errorCode: string)

  /** What one durable write did. The last case is a write whose bytes reached the disk
      although the call then reported an error, as a failing fsync does. */
  datatype Disk = Written | Lost | WrittenThenError

  datatype Error = OutOfScope | JournalUnavailable | ResponseWithoutStart | ValueInvalid
                 | PersistFailed | IdentityInvalid

  predicate CodeChar(c: char) { 'A' <= c <= 'Z' || '0' <= c <= '9' || c == '_' }

  predicate ValidCode(code: string) {
    1 <= |code| <= 64 && forall i | 0 <= i < |code| :: CodeChar(code[i])
  }

  const EXECUTION_FAILED := "RECOVERY_EXECUTION_FAILED"
  const RESULT_NOT_PASSED := "RECOVERY_RESULT_NOT_PASSED"

  function SafeCode(code: string): string {
    if ValidCode(code) then code else EXECUTION_FAILED
  }

  /** Every expected day is present; no row lacks a day, repeats one or leaves the window. */
  ghost predicate ResponseIdentity(request: Request, rows: seq<Row>) {
    && request.expectedDates != []
    && (forall i | 0 <= i < |rows| :: rows[i].day.Some? && request.start <= rows[i].day.value <= request.end)
    && (forall i, j | 0 <= i < j < |rows| :: rows[i].day != rows[j].day)
    && (forall d | d in request.expectedDates :: exists i :: 0 <= i < |rows| && rows[i].day == Some(d))
  }

  method ValidateResponseIdentity(request: Request, rows: seq<Row>) returns (ok: bool)
    ensures ok <==> ResponseIdentity(request, rows)
  {
    if request.expectedDates == [] {
      return false;
    }
    var seen: set<Day> := {};
    for i := 0 to |rows|
      invariant forall k | 0 <= k < i :: rows[k].day.Some? && request.start <= rows[k].day.value <= request.end
      invariant forall k, l | 0 <= k < l < i :: rows[k].day != rows[l].day
      invariant forall d :: d in seen <==> exists k :: 0 <= k < i && rows[k].day == Some(d)
    {
      if rows[i].day.None? || rows[i].day.value in seen {
        return false;
      }
      var day := rows[i].day.value;
      if !(request.start <= day <= request.end) {
        return false;
      }
      seen := seen + {day};
      assert rows[i].day == Some(day);
    }
    ok := forall d | d in request.expectedDates :: d in seen;
  }

  // ----- the writer, one step at a time -----

  datatype State = State(
    allowed: seq<Request>,
    journal: seq<Record>,
    files: map<nat, Payload>,
    started: map<Request, nat>,
    failureRecorded: bool)

  function Empty(allowed: seq<Request>): State {
    State(allowed, [], map[], map[], false)
  }

  function StepBefore(s: State, r: Request, disk: Disk): (State, Option<Error>) {
    if r !in s.allowed || r in s.started then
      (s, Some(OutOfScope))
    else
      var sequence := |s.started| + 1;
      var appended := s.(journal := s.journal + [Started(sequence, r)]);
      match disk
      case Written => (appended.(started := s.started[r := sequence]), None)
      case Lost => (s, Some(JournalUnavailable))
      case WrittenThenError => (appended, Some(JournalUnavailable))
  }

  function StepFail(s: State, code: string, sequence: Option<nat>, disk: Disk): (State, Option<Error>) {
    if s.failureRecorded then
      (s, None)
    else
      var appended := s.(journal := s.journal + [Failed(sequence, SafeCode(code))]);
      match disk
      case Written => (appended.(failureRecorded := true), None)
      case Lost => (s, Some(JournalUnavailable))
      case WrittenThenError => (appended, Some(JournalUnavailable))
  }

  const IDENTITY_INVALID := "SOURCE_RESPONSE_IDENTITY_INVALID"

  ghost function StepAfter(s: State, r: Request, rows: seq<Row>, file: Disk, record: Disk, failure: Disk)
    : (State, Option<Error>)
  {
    if r !in s.started then
      (s, Some(ResponseWithoutStart))
    else
      var n := s.started[r];
      if exists i :: 0 <= i < |rows| && !rows[i].storable then
        (s, Some(ValueInvalid))
      else if n in s.files || file.Lost? then
        (s, Some(PersistFailed))
      else
        var payload := Payload(r, rows);
        var written := s.(files := s.files[n := payload]);
        var saved := written.(journal := s.journal + [Saved(n, n, Sha256(payload), |rows|)]);
        if file.WrittenThenError? || record.Lost? then
          (written, Some(PersistFailed))
        else if record.WrittenThenError? then
          (saved, Some(PersistFailed))
        else if ResponseIdentity(r, rows) then
          (saved, None)
        else
          var (failed, error) := StepFail(saved, IDENTITY_INVALID, Some(n), failure);
          (failed, Some(if error.Some? then JournalUnavailable else IdentityInvalid))
  }

  /** The journal object: the fields change in place, the journal only grows. */
  class AttemptJournal {
    const allowed: seq<Request>
    var journal: seq<Record>
    var files: map<nat, Payload>
    var started: map<Request, nat>
    var failureRecorded: bool

    ghost function Abstract(): State
      reads this
    {
      State(allowed, journal, files, started, failureRecorded)
    }

    constructor (requests: seq<Request>)
      ensures Abstract() == Empty(requests)
    {
      allowed, journal, files := requests, [], map[];
      started, failureRecorded := map[], false;
    }

    /** Opening refuses a scope that lists a request twice. */
    static method Open(requests: seq<Request>) returns (j: AttemptJournal?)
      ensures j == null <==> !NoDup(requests)
      ensures j != null ==> fresh(j) && j.Abstract() == Empty(requests)
    {
      NoDupSize(requests);
      if |Elems(requests)| != |requests| {
        return null;
      }
      j := new AttemptJournal(requests);
    }

    method BeforeRequest(r: Request, disk: Disk) returns (error: Option<Error>)
      modifies this
      ensures (Abstract(), error) == StepBefore(old(Abstract()), r, disk)
    {
      if r !in allowed || r in started {
        return Some(OutOfScope);
      }
      var sequence := |started| + 1;
      if disk.Lost? {
        return Some(JournalUnavailable);
      }
      journal := journal + [Started(sequence, r)];
      if disk.WrittenThenError? {
        return Some(JournalUnavailable);
      }
      started := started[r := sequence];
      error := None;
    }

    method AfterResponse(r: Request, rows: seq<Row>, file: Disk, record: Disk, failure: Disk)
      returns (error: Option<Error>)
      modifies this
      ensures (Abstract(), error) == StepAfter(old(Abstract()), r, rows, file, record, failure)
    {
      if r !in started {
        return Some(ResponseWithoutStart);
      }
      var n := started[r];
      if exists i :: 0 <= i < |rows| && !rows[i].storable {
        return Some(ValueInvalid);
      }
      if n in files || file.Lost? {
        return Some(PersistFailed);
      }
      files := files[n := Payload(r, rows)];
      if file.WrittenThenError? || record.Lost? {
        return Some(PersistFailed);
      }
      journal := journal + [Saved(n, n, Sha256(Payload(r, rows)), |rows|)];
      if record.WrittenThenError? {
        return Some(PersistFailed);
      }
      var identical := ValidateResponseIdentity(r, rows);
      if identical {
        return None;
      }
      var unrecorded := MarkFailed(IDENTITY_INVALID, Some(n), failure);
      error := Some(if unrecorded.Some? then JournalUnavailable else IdentityInvalid);
    }

    method MarkFailed(code: string, sequence: Option<nat>, disk: Disk) returns (error: Option<Error>)
      modifies this
      ensures (Abstract(), error) == StepFail(old(Abstract()), code, sequence, disk)
    {
      if failureRecorded {
        return None;
      }
      if disk.Lost? {
        return Some(JournalUnavailable);
      }
      journal := journal + [Failed(sequence, SafeCode(code))];
      if disk.WrittenThenError? {
        return Some(JournalUnavailable);
      }
      failureRecorded := true;
      error := None;
    }
  }

  // ----- arbitrary runs -----

  datatype Call =
    | Before(request: Request, disk: Disk)
    | After(request: Request, rows: seq<Row>, file: Disk, record: Disk, failure: Disk)
    | Fail(code: string, sequence: Option<nat>, disk: Disk)

  ghost function Step(s: State, call: Call): State {
    match call
    case Before(r, disk) => StepBefore(s, r, disk).0
    case After(r, rows, file, record, failure) => StepAfter(s, r, rows, file, record, failure).0
    case Fail(code, sequence, disk) => StepFail(s, code, sequence, disk).0
  }

  ghost function Run(s: State, calls: seq<Call>): State
    decreases |calls|
  {
    if calls == [] then s else Run(Step(s, calls[0]), calls[1..])
  }

  /** The driver of a journal object: any list of calls, errors ignored. */
  method Drive(j: AttemptJournal, calls: seq<Call>)
    modifies j
    ensures j.Abstract() == Run(old(j.Abstract()), calls)
    decreases |calls|
  {
    if calls == [] {
      return;
    }
    match calls[0] {
      case Before(r, disk) =>
        var _ := j.BeforeRequest(r, disk);
      case After(r, rows, file, record, failure) =>
        var _ := j.AfterResponse(r, rows, file, record, failure);
      case Fail(code, sequence, disk) =>
        var _ := j.MarkFailed(code, sequence, disk);
    }
    assert j.Abstract() == Step(old(j.Abstract()), calls[0]);
    Drive(j, calls[1..]);
  }

  /** The call appends a started or failed record and that append reports an error although its bytes
      reached the disk. A call that is refused before it appends asks no disk. */
  ghost predicate Errs(s: State, call: Call) {
    match call
    case Before(r, disk) => disk.WrittenThenError? && r in s.allowed && r !in s.started
    case Fail(_, _, disk) => disk.WrittenThenError? && !s.failureRecorded
    case After(r, rows, file, record, failure) =>
      && failure.WrittenThenError? && !s.failureRecorded
      && r in s.started && (forall i | 0 <= i < |rows| :: rows[i].storable) && s.started[r] !in s.files
      && file.Written? && record.Written? && !ResponseIdentity(r, rows)
  }

  /** No call errs in the state it is made in. */
  ghost predicate NoneErrs(s: State, calls: seq<Call>)
    decreases |calls|
  {
    calls != [] ==> !Errs(s, calls[0]) && NoneErrs(Step(s, calls[0]), calls[1..])
  }

  /** Every request reported as started is allowed, numbered within 1..n without repetition,
      and has its own started record. */
  ghost predicate StartsRecorded(allowed: seq<Request>, journal: seq<Record>, started: map<Request, nat>) {
    && (forall r | r in started :: r in allowed && 1 <= started[r] <= |started|)
    && (forall r | r in started :: Started(started[r], r) in journal)
    && (forall r, q | r in started && q in started && r != q :: started[r] != started[q])
  }

  /** Only allowed requests were ever recorded as started. */
  ghost predicate StartsAllowed(allowed: seq<Request>, journal: seq<Record>, bound: nat) {
    forall n: nat, r | Started(n, r) in journal :: r in allowed && 1 <= n <= bound
  }

  /** Every response file answers the started request of its number. */
  ghost predicate FilesAnswer(files: map<nat, Payload>, started: map<Request, nat>) {
    forall n | n in files :: files[n].request in started && started[files[n].request] == n
  }

  /** A saved record describes its file exactly and follows its own started record. */
  ghost predicate SavedDescribes(journal: seq<Record>, files: map<nat, Payload>, i: nat)
    requires i < |journal| && journal[i].Saved?
  {
    var rec := journal[i];
    && rec.file == rec.sequence && rec.sequence in files
    && rec.sha == Sha256(files[rec.sequence]) && rec.rowCount == |files[rec.sequence].rows|
    && Started(rec.sequence, files[rec.sequence].request) in journal[..i]
  }

  ghost predicate SavesDescribe(journal: seq<Record>, files: map<nat, Payload>) {
    forall i | 0 <= i < |journal| && journal[i].Saved? :: SavedDescribes(journal, files, i)
  }

  ghost predicate SavedOnce(journal: seq<Record>) {
    forall i, j | 0 <= i < j < |journal| && journal[i].Saved? && journal[j].Saved? ::
      journal[i].sequence != journal[j].sequence
  }

  /** Kept by every call whatever the disk does. */
  ghost predicate Inv(s: State) {
    && StartsRecorded(s.allowed, s.journal, s.started)
    && StartsAllowed(s.allowed, s.journal, |s.started| + 1)
    && FilesAnswer(s.files, s.started)
    && SavesDescribe(s.journal, s.files) && SavedOnce(s.journal)
  }

  ghost predicate StartsExact(journal: seq<Record>, started: map<Request, nat>) {
    && (forall n: nat, r | Started(n, r) in journal :: r in started && started[r] == n)
    && (forall i, j | 0 <= i < j < |journal| && journal[i].Started? && journal[j].Started? ::
          journal[i].sequence < journal[j].sequence)
  }

  ghost predicate FailureExact(journal: seq<Record>, failureRecorded: bool) {
    && (forall i, j | 0 <= i < j < |journal| && journal[i].Failed? :: !journal[j].Failed?)
    && (failureRecorded <==> exists i :: 0 <= i < |journal| && journal[i].Failed?)
  }

  /** Kept exactly as long as no append reports an error after its bytes reached the disk: started
      records are exactly the started requests in increasing order, and at most one failure. */
  ghost predicate Exact(s: State) {
    StartsExact(s.journal, s.started) && FailureExact(s.journal, s.failureRecorded)
  }

  lemma AppendKeepsDescriptions(journal: seq<Record>, files: map<nat, Payload>, rec: Record)
    requires SavesDescribe(journal, files)
    ensures forall i | 0 <= i < |journal| && journal[i].Saved? :: SavedDescribes(journal + [rec], files, i)
  {
    forall i | 0 <= i < |journal| && journal[i].Saved? ensures SavedDescribes(journal + [rec], files, i) {
      assert SavedDescribes(journal, files, i);
      assert (journal + [rec])[..i] == journal[..i];
    }
  }

  lemma AppendUnsaved(journal: seq<Record>, files: map<nat, Payload>, rec: Record)
    requires SavesDescribe(journal, files) && SavedOnce(journal) && !rec.Saved?
    ensures SavesDescribe(journal + [rec], files) && SavedOnce(journal + [rec])
  {
    AppendKeepsDescriptions(journal, files, rec);
  }

  lemma StartKeepsRecorded(allowed: seq<Request>, journal: seq<Record>, started: map<Request, nat>, r: Request)
    requires StartsRecorded(allowed, journal, started) && r in allowed && r !in started
    ensures var n := |started| + 1;
            StartsRecorded(allowed, journal + [Started(n, r)], started[r := n])
  {
  }

  lemma AppendKeepsRecorded(allowed: seq<Request>, journal: seq<Record>, started: map<Request, nat>, rec: Record)
    requires StartsRecorded(allowed, journal, started)
    ensures StartsRecorded(allowed, journal + [rec], started)
  {
  }

  lemma AppendKeepsAllowed(allowed: seq<Request>, journal: seq<Record>, bound: nat, rec: Record)
    requires StartsAllowed(allowed, journal, bound)
    requires rec.Started? ==> rec.request in allowed && 1 <= rec.sequence <= bound
    ensures StartsAllowed(allowed, journal + [rec], bound) && StartsAllowed(allowed, journal + [rec], bound + 1)
  {
  }

  lemma StartKeepsFiles(files: map<nat, Payload>, started: map<Request, nat>, r: Request, n: nat)
    requires FilesAnswer(files, started) && r !in started
    ensures FilesAnswer(files, started[r := n])
  {
  }

  /** The append of a started record alone keeps the invariant, and so does the request counted with it. */
  lemma StartKeepsInv(s: State, r: Request)
    requires Inv(s) && r in s.allowed && r !in s.started
    ensures var n := |s.started| + 1;
            var appended := s.(journal := s.journal + [Started(n, r)]);
            Inv(appended) && Inv(appended.(started := s.started[r := n]))
  {
    hide StartsRecorded, StartsAllowed, FilesAnswer, SavesDescribe, SavedOnce;
    var n := |s.started| + 1;
    var rec := Started(n, r);
    AppendUnsaved(s.journal, s.files, rec);
    AppendKeepsAllowed(s.allowed, s.journal, n, rec);
    StartKeepsRecorded(s.allowed, s.journal, s.started, r);
    AppendKeepsRecorded(s.allowed, s.journal, s.started, rec);
    StartKeepsFiles(s.files, s.started, r, n);
  }

  lemma BeforeKeepsInv(s: State, r: Request, disk: Disk)
    requires Inv(s)
    ensures Inv(StepBefore(s, r, disk).0)
  {
    hide Inv;
    if r in s.allowed && r !in s.started { StartKeepsInv(s, r); }
  }

  lemma FailKeepsInv(s: State, code: string, sequence: Option<nat>, disk: Disk)
    requires Inv(s)
    ensures Inv(StepFail(s, code, sequence, disk).0)
  {
    hide StartsRecorded, StartsAllowed, SavesDescribe, SavedOnce;
    var rec := Failed(sequence, SafeCode(code));
    AppendUnsaved(s.journal, s.files, rec);
    AppendKeepsAllowed(s.allowed, s.journal, |s.started| + 1, rec);
    AppendKeepsRecorded(s.allowed, s.journal, s.started, rec);
  }

  lemma FileKeepsInv(s: State, r: Request, payload: Payload)
    requires Inv(s) && r in s.started && s.started[r] !in s.files && payload.request == r
    ensures Inv(s.(files := s.files[s.started[r] := payload]))
  {
    hide StartsRecorded, StartsAllowed, SavedOnce;
    var files := s.files[s.started[r] := payload];
    forall i | 0 <= i < |s.journal| && s.journal[i].Saved? ensures SavedDescribes(s.journal, files, i) {
      assert SavedDescribes(s.journal, s.files, i);
    }
  }

  lemma AppendSaved(journal: seq<Record>, files: map<nat, Payload>, n: nat)
    requires SavesDescribe(journal, files) && SavedOnce(journal) && n in files
    requires Started(n, files[n].request) in journal
    requires forall i | 0 <= i < |journal| && journal[i].Saved? :: journal[i].sequence != n
    ensures var t := journal + [Saved(n, n, Sha256(files[n]), |files[n].rows|)];
            SavesDescribe(t, files) && SavedOnce(t)
  {
    var rec := Saved(n, n, Sha256(files[n]), |files[n].rows|);
    var t := journal + [rec];
    AppendKeepsDescriptions(journal, files, rec);
    assert t[..|journal|] == journal;
    assert SavedDescribes(t, files, |journal|);
  }

  lemma SaveKeepsInv(s: State, n: nat)
    requires Inv(s) && n in s.files
    requires forall i | 0 <= i < |s.journal| && s.journal[i].Saved? :: s.journal[i].sequence != n
    ensures Inv(s.(journal := s.journal + [Saved(n, n, Sha256(s.files[n]), |s.files[n].rows|)]))
  {
    var rec := Saved(n, n, Sha256(s.files[n]), |s.files[n].rows|);
    AppendSaved(s.journal, s.files, n);
    AppendKeepsAllowed(s.allowed, s.journal, |s.started| + 1, rec);
    AppendKeepsRecorded(s.allowed, s.journal, s.started, rec);
  }

  function WithFile(s: State, r: Request, rows: seq<Row>): State
    requires r in s.started
  {
    s.(files := s.files[s.started[r] := Payload(r, rows)])
  }

  function WithSave(s: State, r: Request, rows: seq<Row>): State
    requires r in s.started
  {
    var n := s.started[r];
    WithFile(s, r, rows).(journal := s.journal + [Saved(n, n, Sha256(Payload(r, rows)), |rows|)])
  }

  /** The four states a response can leave behind. */
  lemma AfterShape(s: State, r: Request, rows: seq<Row>, file: Disk, record: Disk, failure: Disk)
    ensures var t := StepAfter(s, r, rows, file, record, failure).0;
            || t == s
            || (r in s.started && s.started[r] !in s.files
                && (t == WithFile(s, r, rows) || t == WithSave(s, r, rows)
                    || t == StepFail(WithSave(s, r, rows), IDENTITY_INVALID, Some(s.started[r]), failure).0))
  {
  }

  lemma WithSaveKeepsInv(s: State, r: Request, rows: seq<Row>)
    requires Inv(s) && r in s.started && s.started[r] !in s.files
    ensures Inv(WithFile(s, r, rows)) && Inv(WithSave(s, r, rows))
  {
    var n := s.started[r];
    FileKeepsInv(s, r, Payload(r, rows));
    forall i | 0 <= i < |s.journal| && s.journal[i].Saved? ensures s.journal[i].sequence != n {
      assert SavedDescribes(s.journal, s.files, i);
    }
    SaveKeepsInv(WithFile(s, r, rows), n);
  }

  lemma AfterKeepsInv(s: State, r: Request, rows: seq<Row>, file: Disk, record: Disk, failure: Disk)
    requires Inv(s)
    ensures Inv(StepAfter(s, r, rows, file, record, failure).0)
  {
    AfterShape(s, r, rows, file, record, failure);
    if r in s.started && s.started[r] !in s.files {
      WithSaveKeepsInv(s, r, rows);
      FailKeepsInv(WithSave(s, r, rows), IDENTITY_INVALID, Some(s.started[r]), failure);
    }
  }

  lemma StepKeepsInv(s: State, call: Call)
    requires Inv(s)
    ensures Inv(Step(s, call))
  {
    match call
    case Before(r, disk) => BeforeKeepsInv(s, r, disk);
    case After(r, rows, file, record, failure) => AfterKeepsInv(s, r, rows, file, record, failure);
    case Fail(code, sequence, disk) => FailKeepsInv(s, code, sequence, disk);
  }

  lemma StartKeepsExactStarts(s: State, r: Request)
    requires Inv(s) && StartsExact(s.journal, s.started) && r !in s.started
    ensures var n := |s.started| + 1;
            StartsExact(s.journal + [Started(n, r)], s.started[r := n])
  {
    forall i | 0 <= i < |s.journal| && s.journal[i].Started?
      ensures s.journal[i].sequence <= |s.started|
    {
      assert Started(s.journal[i].sequence, s.journal[i].request) in s.journal;
    }
  }

  lemma AppendKeepsExactStarts(journal: seq<Record>, started: map<Request, nat>, rec: Record)
    requires StartsExact(journal, started) && !rec.Started?
    ensures StartsExact(journal + [rec], started)
  {
  }

  lemma AppendKeepsFailure(journal: seq<Record>, failureRecorded: bool, rec: Record)
    requires FailureExact(journal, failureRecorded) && !(failureRecorded && rec.Failed?)
    ensures FailureExact(journal + [rec], failureRecorded || rec.Failed?)
  {
    assert (journal + [rec])[|journal|] == rec;
    assert forall i | 0 <= i < |journal| :: (journal + [rec])[i] == journal[i];
  }

  lemma BeforeKeepsExact(s: State, r: Request, disk: Disk)
    requires Inv(s) && Exact(s) && !Errs(s, Before(r, disk))
    ensures Exact(StepBefore(s, r, disk).0)
  {
    hide StartsExact, FailureExact, Inv;
    AppendKeepsFailure(s.journal, s.failureRecorded, Started(|s.started| + 1, r));
    if r !in s.started { StartKeepsExactStarts(s, r); }
  }

  lemma FailKeepsExact(s: State, code: string, sequence: Option<nat>, disk: Disk)
    requires Exact(s) && !Errs(s, Fail(code, sequence, disk))
    ensures Exact(StepFail(s, code, sequence, disk).0)
  {
    hide StartsExact, FailureExact;
    if !s.failureRecorded {
      AppendKeepsFailure(s.journal, false, Failed(sequence, SafeCode(code)));
      AppendKeepsExactStarts(s.journal, s.started, Failed(sequence, SafeCode(code)));
    }
  }

  lemma AfterKeepsExact(s: State, r: Request, rows: seq<Row>, file: Disk, record: Disk, failure: Disk)
    requires Exact(s) && !Errs(s, After(r, rows, file, record, failure))
    ensures Exact(StepAfter(s, r, rows, file, record, failure).0)
  {
    hide StartsExact, FailureExact;
    AfterShape(s, r, rows, file, record, failure);
    if r in s.started && s.started[r] !in s.files {
      var n := s.started[r];
      var rec := Saved(n, n, Sha256(Payload(r, rows)), |rows|);
      AppendKeepsExactStarts(s.journal, s.started, rec);
      AppendKeepsFailure(s.journal, s.failureRecorded, rec);
      if !Errs(WithSave(s, r, rows), Fail(IDENTITY_INVALID, Some(n), failure)) {
        FailKeepsExact(WithSave(s, r, rows), IDENTITY_INVALID, Some(n), failure);
      }
    }
  }

  lemma StepKeepsExact(s: State, call: Call)
    requires Inv(s) && Exact(s) && !Errs(s, call)
    ensures Exact(Step(s, call))
  {
    match call
    case Before(r, disk) => BeforeKeepsExact(s, r, disk);
    case After(r, rows, file, record, failure) => AfterKeepsExact(s, r, rows, file, record, failure);
    case Fail(code, sequence, disk) => FailKeepsExact(s, code, sequence, disk);
  }

  /** Whatever calls are made and whatever the disk does, the journal stays consistent. */
  lemma {:induction false} RunKeepsInv(s: State, calls: seq<Call>)
    requires Inv(s)
    ensures Inv(Run(s, calls))
    decreases |calls|
  {
    if calls != [] {
      StepKeepsInv(s, calls[0]);
      RunKeepsInv(Step(s, calls[0]), calls[1..]);
    }
  }

  // ----- what breaks the numbering, and that it stays broken -----

  /** Two started records out of order, or one with the number the next request will get. */
  ghost predicate StartsBroken(journal: seq<Record>, next: nat) {
    || (exists i, j :: 0 <= i < j < |journal| && journal[i].Started? && journal[j].Started?
                       && journal[i].sequence >= journal[j].sequence)
    || exists i :: 0 <= i < |journal| && journal[i].Started? && journal[i].sequence == next
  }

  /** Two failures, or one that the journal does not know it recorded. */
  ghost predicate FailureBroken(journal: seq<Record>, failureRecorded: bool) {
    || (exists i, j :: 0 <= i < j < |journal| && journal[i].Failed? && journal[j].Failed?)
    || (!failureRecorded && exists i :: 0 <= i < |journal| && journal[i].Failed?)
  }

  ghost predicate Broken(s: State) {
    StartsBroken(s.journal, |s.started| + 1) || FailureBroken(s.journal, s.failureRecorded)
  }

  lemma BrokenIsNotExact(s: State)
    requires Inv(s) && Broken(s)
    ensures !Exact(s)
  {
    if i :| 0 <= i < |s.journal| && s.journal[i].Started? && s.journal[i].sequence == |s.started| + 1 {
      assert Started(s.journal[i].sequence, s.journal[i].request) in s.journal;
    }
  }

  lemma AppendKeepsStartsBroken(journal: seq<Record>, next: nat, rec: Record)
    requires StartsBroken(journal, next)
    ensures StartsBroken(journal + [rec], next)
    ensures rec.Started? && rec.sequence == next ==> StartsBroken(journal + [rec], next + 1)
  {
    var t := journal + [rec];
    assert t[|journal|] == rec;
    if i, j :| 0 <= i < j < |journal| && journal[i].Started? && journal[j].Started? && journal[i].sequence >= journal[j].sequence {
      assert t[i] == journal[i] && t[j] == journal[j];
    } else {
      var i :| 0 <= i < |journal| && journal[i].Started? && journal[i].sequence == next;
      assert t[i] == journal[i];
    }
  }

  lemma AppendKeepsFailureBroken(journal: seq<Record>, failureRecorded: bool, rec: Record)
    requires FailureBroken(journal, failureRecorded)
    ensures FailureBroken(journal + [rec], failureRecorded)
    ensures rec.Failed? ==> FailureBroken(journal + [rec], true)
  {
    var t := journal + [rec];
    assert t[|journal|] == rec;
    if i, j :| 0 <= i < j < |journal| && journal[i].Failed? && journal[j].Failed? {
      assert t[i] == journal[i] && t[j] == journal[j];
    } else {
      var i :| 0 <= i < |journal| && journal[i].Failed?;
      assert t[i] == journal[i];
    }
  }

  lemma FailKeepsBroken(s: State, code: string, sequence: Option<nat>, disk: Disk)
    requires Broken(s)
    ensures Broken(StepFail(s, code, sequence, disk).0)
  {
    hide StartsBroken, FailureBroken;
    var rec := Failed(sequence, SafeCode(code));
    if StartsBroken(s.journal, |s.started| + 1) { AppendKeepsStartsBroken(s.journal, |s.started| + 1, rec); }
    else { AppendKeepsFailureBroken(s.journal, s.failureRecorded, rec); }
  }

  lemma BeforeKeepsBroken(s: State, r: Request, disk: Disk)
    requires Broken(s)
    ensures Broken(StepBefore(s, r, disk).0)
  {
    hide StartsBroken, FailureBroken;
    var n := |s.started| + 1;
    var rec := Started(n, r);
    if StartsBroken(s.journal, n) { AppendKeepsStartsBroken(s.journal, n, rec); }
    else { AppendKeepsFailureBroken(s.journal, s.failureRecorded, rec); }
    assert r !in s.started ==> |s.started[r := n]| == n;
  }

  lemma SaveKeepsBroken(s: State, r: Request, rows: seq<Row>)
    requires Broken(s) && r in s.started
    ensures Broken(WithFile(s, r, rows)) && Broken(WithSave(s, r, rows))
  {
    hide StartsBroken, FailureBroken;
    var n := s.started[r];
    var rec := Saved(n, n, Sha256(Payload(r, rows)), |rows|);
    if StartsBroken(s.journal, |s.started| + 1) { AppendKeepsStartsBroken(s.journal, |s.started| + 1, rec); }
    else { AppendKeepsFailureBroken(s.journal, s.failureRecorded, rec); }
  }

  lemma StepKeepsBroken(s: State, call: Call)
    requires Broken(s)
    ensures Broken(Step(s, call))
  {
    hide Broken, StepBefore, StepFail, StepAfter, WithFile, WithSave;
    match call
    case Before(r, disk) => BeforeKeepsBroken(s, r, disk);
    case Fail(code, sequence, disk) => FailKeepsBroken(s, code, sequence, disk);
    case After(r, rows, file, record, failure) =>
      AfterShape(s, r, rows, file, record, failure);
      if r in s.started {
        SaveKeepsBroken(s, r, rows);
        FailKeepsBroken(WithSave(s, r, rows), IDENTITY_INVALID, Some(s.started[r]), failure);
      }
  }

  lemma ErrsBreaks(s: State, call: Call)
    requires Errs(s, call)
    ensures Broken(Step(s, call))
  {
    var t := Step(s, call);
    var last := t.journal[|t.journal| - 1];
    assert if call.Before? then last == Started(|s.started| + 1, call.request) && t.started == s.started
           else last.Failed? && !t.failureRecorded;
  }

  lemma {:induction false} StaysBroken(s: State, calls: seq<Call>)
    requires Inv(s) && Broken(s)
    ensures !Exact(Run(s, calls))
    decreases |calls|
  {
    if calls == [] {
      BrokenIsNotExact(s);
    } else {
      StepKeepsInv(s, calls[0]);
      StepKeepsBroken(s, calls[0]);
      hide Step, Broken, Exact;
      StaysBroken(Step(s, calls[0]), calls[1..]);
    }
  }

  /** The strict numbering, exactly: after any calls on any disk the started records are the started
      requests in increasing sequence and at most one failure is recorded, if and only if no append
      reported an error after its bytes reached the disk. */
  lemma {:induction false} RunIsExact(s: State, calls: seq<Call>)
    requires Inv(s) && Exact(s)
    ensures Exact(Run(s, calls)) <==> NoneErrs(s, calls)
    decreases |calls|
  {
    if calls != [] {
      hide Step, Exact, Errs, Inv, Broken;
      StepKeepsInv(s, calls[0]);
      if Errs(s, calls[0]) {
        ErrsBreaks(s, calls[0]);
        StaysBroken(Step(s, calls[0]), calls[1..]);
      } else {
        StepKeepsExact(s, calls[0]);
        RunIsExact(Step(s, calls[0]), calls[1..]);
      }
    }
  }

  // ----- the numbers in use -----

  ghost predicate GivenOut(started: map<Request, nat>, n: nat) {
    exists r :: r in started && started[r] == n
  }

  /** The numbers given out are exactly 1 .. n. */
  ghost predicate Numbered(started: map<Request, nat>) {
    forall n: nat | 1 <= n <= |started| :: GivenOut(started, n)
  }

  lemma NumberedNext(started: map<Request, nat>, r: Request)
    requires Numbered(started) && r !in started
    ensures Numbered(started[r := |started| + 1])
  {
    var t := started[r := |started| + 1];
    assert r in t && t[r] == |started| + 1;
    forall n: nat | 1 <= n <= |started| ensures GivenOut(t, n) {
      assert GivenOut(started, n);
      var q :| q in started && started[q] == n;
      assert q in t && t[q] == n;
    }
  }

  lemma {:induction false} RunNumbers(s: State, calls: seq<Call>)
    requires Numbered(s.started)
    ensures Numbered(Run(s, calls).started)
    decreases |calls|
  {
    if calls != [] {
      hide Numbered;
      if calls[0].Before? && calls[0].request !in s.started { NumberedNext(s.started, calls[0].request); }
      if calls[0].After? {
        AfterShape(s, calls[0].request, calls[0].rows, calls[0].file, calls[0].record, calls[0].failure);
      }
      assert Numbered(Step(s, calls[0]).started);
      hide Step;
      RunNumbers(Step(s, calls[0]), calls[1..]);
    }
  }
}
