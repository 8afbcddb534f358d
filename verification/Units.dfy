/** Frozen recovery units, what one warm-up of a unit reports, and the receipts written about it. */
module Units {
  import opened Wrappers
  import opened Journal
  import opened JournalReader

  datatype TargetId = TargetId(dataset: string, year: int, month: int)
  datatype Target = Target(id: TargetId, window: string)

  /** One frozen unit of a prepared batch. */
  datatype Unit = Unit(
    symbol: string, contract: string, frequency: string, through: string, planSha: string,
    targetCount: nat, providerRequestCount: nat, targets: seq<Target>, sourceRequests: seq<Request>)

  /** The key by which a batch looks up its units. */
  datatype UnitKey = UnitKey(symbol: string, contract: string, frequency: string)

  function Key(u: Unit): UnitKey { UnitKey(u.symbol, u.contract, u.frequency) }

  /** The identity by which a campaign settles its units. */
  datatype UnitId = UnitId(symbol: string, contract: string, frequency: string, through: string, planSha: string)

  function Identity(u: Unit): UnitId { UnitId(u.symbol, u.contract, u.frequency, u.through, u.planSha) }

  datatype Status = Passed | Noop | Failing | Partial | Blocked | Isolated

  datatype Failure = Failure(target: TargetId, reason: string)

  datatype WarmupResult = WarmupResult(
    status: Status, applied: nat, blocked: nat, failed: nat, providerRequests: nat, failures: seq<Failure>)

  /** The proof that a unit failed only because of a known fault in its source. */
  datatype Evidence = Evidence(classification: string, requestsStarted: nat, responsesSaved: nat, shas: seq<Digest>)

  /** What was read back: committed targets, or the unchanged plan of a unit that wrote nothing. */
  datatype Readback =
    | Committed(passed: bool, targetCount: nat)
    | Unchanged(planSha: string, remaining: nat, targets: seq<Target>)

  /** One unit result. A field the result does not carry is None. */
  datatype Entry = Entry(
    unit: Unit, status: Status,
    result: Option<WarmupResult>, errorCode: Option<string>, attempt: Option<Outcome>,
    classification: Option<string>, evidence: Option<Evidence>, readback: Option<Readback>,
    remaining: Option<nat>, isolationReason: Option<string>)

  /** The directory of one unit as a later reader finds it. */
  datatype Directory = Directory(journal: seq<Record>, files: map<nat, Payload>, unitResult: Option<Entry>)

  datatype BatchResult = BatchResult(
    status: Status, completed: seq<Entry>, isolated: seq<Entry>, failed: Option<Entry>, unattempted: seq<Unit>)

  const ZERO_OHL := "RQDATA_ZERO_OHL_INVALID"
  const COMMIT_OUTCOME_UNKNOWN := "COMMIT_OUTCOME_UNKNOWN"
  const READBACK_REPLAN_REMAINS := "READBACK_REPLAN_REMAINS"
  const POST_COMMIT_READBACK_FAILED := "POST_COMMIT_READBACK_FAILED"
  const EVIDENCE_FAILED := "SOURCE_ISOLATION_EVIDENCE_FAILED"
  const READBACK_FAILED := "SOURCE_ISOLATION_READBACK_FAILED"
}
