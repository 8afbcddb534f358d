/** The frozen campaign manifest: which units it runs, which it already knows, and that every
    one of them is counted exactly once. */
module Manifest {
  import opened Wrappers
  import opened Seqs
  import opened Units
  import opened BatchChecker

  /** Batch names are numbered from one in order. */
  datatype Child = Child(batchId: nat, units: seq<Unit>)

  /** A unit whose source fault was proven earlier. */
  datatype Known = Known(id: UnitId, classification: string)

  /** A unit with a partial source exception, identified without its plan. */
  datatype Exception = Exception(symbol: string, contract: string, frequency: string, through: string)

  datatype Manifest = Manifest(
    children: seq<Child>, isolating: bool,
    prior: seq<Known>, sourceOnly: seq<Known>, exceptions: seq<Exception>,
    denominator: nat)

  function Frozen(children: seq<Child>): seq<Unit> {
    if children == [] then []
    else Frozen(children[..|children| - 1]) + children[|children| - 1].units
  }

  function Identities(units: seq<Unit>): seq<UnitId> {
    Map(u => Identity(u), units)
  }

  function KnownIds(known: seq<Known>): seq<UnitId> {
    Map((k: Known) => k.id, known)
  }

  function ExceptionOf(u: Unit): Exception {
    Exception(u.symbol, u.contract, u.frequency, u.through)
  }

  function Anomalies(m: Manifest): seq<Known> { m.prior + m.sourceOnly }

  predicate ValidChild(child: Child, i: nat) {
    child.batchId == i + 1 && 1 <= |child.units| <= 20
  }

  ghost predicate ValidManifest(m: Manifest) {
    && (forall i | 0 <= i < |m.children| :: ValidChild(m.children[i], i))
    && (Anomalies(m) != [] ==> m.isolating)
    && NoDup(Keys(Frozen(m.children)))
    && NoDup(Identities(Frozen(m.children)) + KnownIds(Anomalies(m)))
    && NoDup(m.exceptions) && (forall e | e in m.exceptions :: e.frequency == "1w")
    && (forall u | u in Frozen(m.children) :: ExceptionOf(u) !in m.exceptions)
    && m.denominator == |Frozen(m.children)| + |Anomalies(m)| + |m.exceptions|
  }

  lemma FrozenSnoc(children: seq<Child>, i: nat)
    requires i < |children|
    ensures Frozen(children[..i + 1]) == Frozen(children[..i]) + children[i].units
  {
    assert children[..i + 1][..i] == children[..i];
  }

  lemma {:induction false} FrozenPrefix(children: seq<Child>, i: nat)
    requires i <= |children|
    ensures Frozen(children[..i]) <= Frozen(children)
    decreases |children| - i
  {
    if i == |children| {
      assert children[..i] == children;
    } else {
      FrozenPrefix(children, i + 1);
      FrozenSnoc(children, i);
    }
  }

  method ValidateChildren(children: seq<Child>) returns (ok: bool, units: seq<Unit>)
    ensures ok <==> (forall i | 0 <= i < |children| :: ValidChild(children[i], i)) && NoDup(Keys(Frozen(children)))
    ensures ok ==> units == Frozen(children)
  {
    ok, units := false, [];
    var seen: set<UnitKey> := {};
    for i := 0 to |children|
      invariant forall j | 0 <= j < i :: ValidChild(children[j], j)
      invariant units == Frozen(children[..i]) && NoDup(Keys(units)) && seen == Elems(Keys(units))
    {
      if !ValidChild(children[i], i) {
        return;
      }
      FrozenSnoc(children, i);
      FrozenPrefix(children, i + 1);
      KeysConcat(units, children[i].units);
      KeysPrefix(Frozen(children), units + children[i].units);
      var distinct;
      distinct, seen := AddDistinct(Keys(children[i].units), Keys(units), seen);
      if !distinct {
        return;
      }
      units := units + children[i].units;
    }
    assert children[..|children|] == children;
    ok := true;
  }

  lemma KeysConcat(s: seq<Unit>, t: seq<Unit>)
    ensures Keys(s + t) == Keys(s) + Keys(t)
    ensures Identities(s + t) == Identities(s) + Identities(t)
  {
  }

  lemma KeysPrefix(s: seq<Unit>, prefix: seq<Unit>)
    requires prefix <= s
    ensures NoDup(Keys(s)) ==> NoDup(Keys(prefix))
  {
    assert Keys(prefix) <= Keys(s);
    NoDupPrefix(Keys(s), Keys(prefix));
  }

  /** Distinct keys make distinct identities. */
  lemma DistinctIdentities(units: seq<Unit>)
    requires NoDup(Keys(units))
    ensures NoDup(Identities(units))
  {
    forall i, j | 0 <= i < j < |units| ensures Identities(units)[i] != Identities(units)[j] {
      assert Keys(units)[i] != Keys(units)[j];
    }
  }

  method ValidateCampaignManifest(m: Manifest) returns (ok: bool)
    ensures ok <==> ValidManifest(m)
  {
    if Anomalies(m) != [] && !m.isolating {
      return false;
    }
    var children, units := ValidateChildren(m.children);
    if !children {
      return false;
    }
    DistinctIdentities(units);
    var ids := Identities(units);
    var known, _ := AddDistinct(KnownIds(Anomalies(m)), ids, Elems(ids));
    if !known {
      return false;
    }
    var exceptions := Distinct(m.exceptions);
    if !exceptions || exists e :: e in m.exceptions && e.frequency != "1w" {
      return false;
    }
    if exists u :: u in units && ExceptionOf(u) in m.exceptions {
      return false;
    }
    ok := m.denominator == |units| + |Anomalies(m)| + |m.exceptions|;
  }

  // ----- each unit in one place -----

  /** One entry the denominator counts, as a campaign identifies it: a partial exception carries no plan. */
  datatype Listed = Whole(id: UnitId) | Partly(exception: Exception)

  function ExceptionOfId(id: UnitId): Exception {
    Exception(id.symbol, id.contract, id.frequency, id.through)
  }

  /** Two entries speak of one unit. */
  predicate SameUnit(a: Listed, b: Listed) {
    if a.Whole? && b.Whole? then a == b
    else (if a.Whole? then ExceptionOfId(a.id) else a.exception) == (if b.Whole? then ExceptionOfId(b.id) else b.exception)
  }

  function Listing(ids: seq<UnitId>, exceptions: seq<Exception>): (r: seq<Listed>)
    ensures |r| == |ids| + |exceptions|
    ensures forall i | 0 <= i < |ids| :: r[i] == Whole(ids[i])
    ensures forall j | 0 <= j < |exceptions| :: r[|ids| + j] == Partly(exceptions[j])
  {
    Map((id: UnitId) => Whole(id), ids) + Map((e: Exception) => Partly(e), exceptions)
  }

  /** Everything the denominator counts: frozen units, known isolations and partial exceptions. */
  function Entries(m: Manifest): seq<Listed> {
    Listing(Identities(Frozen(m.children)) + KnownIds(Anomalies(m)), m.exceptions)
  }

  /** No unit is counted twice. */
  ghost predicate CountedOnce(m: Manifest) {
    Apart(Entries(m))
  }

  ghost predicate Apart(entries: seq<Listed>) {
    forall i, j | 0 <= i < j < |entries| :: !SameUnit(entries[i], entries[j])
  }

  /** Some unit is both a known isolation and a partial exception. */
  predicate Overlaps(m: Manifest) {
    exists k :: k in Anomalies(m) && ExceptionOfId(k.id) in m.exceptions
  }

  lemma CrossedIsNotApart(ids: seq<UnitId>, exceptions: seq<Exception>, id: UnitId)
    requires id in ids && ExceptionOfId(id) in exceptions
    ensures !Apart(Listing(ids, exceptions))
  {
    var entries := Listing(ids, exceptions);
    var i :| 0 <= i < |ids| && ids[i] == id;
    var j :| 0 <= j < |exceptions| && exceptions[j] == ExceptionOfId(id);
    assert entries[i] == Whole(id) && entries[|ids| + j] == Partly(exceptions[j]);
    assert SameUnit(entries[i], entries[|ids| + j]);
  }

  lemma UncrossedIsApart(ids: seq<UnitId>, exceptions: seq<Exception>)
    requires NoDup(ids) && NoDup(exceptions) && forall id | id in ids :: ExceptionOfId(id) !in exceptions
    ensures Apart(Listing(ids, exceptions))
  {
    var entries := Listing(ids, exceptions);
    hide Listing;
    forall i, j | 0 <= i < j < |entries| ensures !SameUnit(entries[i], entries[j]) {
      if j < |ids| {
        assert entries[i] == Whole(ids[i]) && entries[j] == Whole(ids[j]);
      } else {
        var e := exceptions[j - |ids|];
        assert entries[|ids| + (j - |ids|)] == Partly(e) && e in exceptions;
        if i < |ids| {
          assert entries[i] == Whole(ids[i]);
        } else {
          assert entries[|ids| + (i - |ids|)] == Partly(exceptions[i - |ids|]);
        }
      }
    }
  }

  lemma FrozenUncrossed(m: Manifest)
    requires ValidManifest(m)
    ensures forall id | id in Identities(Frozen(m.children)) :: ExceptionOfId(id) !in m.exceptions
  {
    forall id | id in Identities(Frozen(m.children)) ensures ExceptionOfId(id) !in m.exceptions {
      var i :| 0 <= i < |Frozen(m.children)| && Identities(Frozen(m.children))[i] == id;
      assert Frozen(m.children)[i] in Frozen(m.children);
    }
  }

  lemma KnownIdsHave(known: seq<Known>, id: UnitId)
    ensures id in KnownIds(known) <==> exists k :: k in known && k.id == id
  {
    if k :| k in known && k.id == id {
      var i :| 0 <= i < |known| && known[i] == k;
      assert KnownIds(known)[i] == id;
    }
  }

  /** The denominator of a valid manifest counts every unit once, exactly when no known isolation is a
      partial exception too: the validation compares every other pair of lists, but not these two. */
  lemma CountedOnceExactly(m: Manifest)
    requires ValidManifest(m)
    ensures |Entries(m)| == m.denominator
    ensures CountedOnce(m) <==> !Overlaps(m)
  {
    FrozenUncrossed(m);
    var frozen, known := Identities(Frozen(m.children)), KnownIds(Anomalies(m));
    hide ValidChild, Frozen, Identities, KnownIds, Apart, Anomalies, NoDup;
    if Overlaps(m) {
      var k :| k in Anomalies(m) && ExceptionOfId(k.id) in m.exceptions;
      KnownIdsHave(Anomalies(m), k.id);
      CrossedIsNotApart(frozen + known, m.exceptions, k.id);
    } else {
      forall id | id in frozen + known ensures ExceptionOfId(id) !in m.exceptions {
        if id !in frozen { KnownIdsHave(Anomalies(m), id); }
      }
      UncrossedIsApart(frozen + known, m.exceptions);
    }
  }

  /** An instance of the gap: the validation accepts a manifest that counts one unit twice. */
  lemma CountedTwiceWitness(id: UnitId, classification: string)
    requires id.frequency == "1w"
    ensures var m := Manifest([], true, [Known(id, classification)], [], [ExceptionOfId(id)], 2);
            ValidManifest(m) && !CountedOnce(m)
  {
    var m := Manifest([], true, [Known(id, classification)], [], [ExceptionOfId(id)], 2);
    assert Identities(Frozen(m.children)) + KnownIds(Anomalies(m)) == [id];
    assert Keys(Frozen(m.children)) == [];
    assert Anomalies(m) == [Known(id, classification)];
    assert ValidManifest(m);
    hide ValidManifest;
    assert Overlaps(m) by { assert Known(id, classification) in Anomalies(m); }
    CountedOnceExactly(m);
  }

  // ----- preparing a campaign, which does compare them -----

  const PRIOR_INVALID := "PRIOR_ISOLATION_INVALID"
  const SOURCE_ONLY_INVALID := "SOURCE_ONLY_ISOLATION_INVALID"
  const DAILY_EXCEPTION := "D1_PARTIAL_SOURCE_EXCEPTION_UNSUPPORTED"
  const EXCEPTION_INVALID := "PARTIAL_SOURCE_EXCEPTION_INVALID"
  const MANIFEST_REFUSED := "CAMPAIGN_MANIFEST_INVALID"

  /** What a campaign is prepared from: the proposed units of the report, and what is known of them. */
  datatype Scope = Scope(
    proposed: seq<Unit>, daily: bool, isolating: bool,
    prior: seq<Known>, sourceOnly: seq<Known>, exceptions: seq<Exception>)

  function Isolations(s: Scope): set<UnitId> { Elems(KnownIds(s.prior)) + Elems(KnownIds(s.sourceOnly)) }

  /** The proposed units that are neither isolated nor excepted. */
  function Executable(s: Scope): seq<Unit> {
    Filter((u: Unit) => Identity(u) !in Isolations(s) && ExceptionOf(u) !in s.exceptions, s.proposed)
  }

  function EndOfBatch(units: seq<Unit>, i: nat): (r: nat)
    requires 20 * i <= |units|
    ensures 20 * i <= r <= |units|
  {
    if 20 * i + 20 <= |units| then 20 * i + 20 else |units|
  }

  /** The units in batches of twenty, the last one as long as is left. */
  function Batches(units: seq<Unit>): (r: seq<Child>)
    ensures |r| == (|units| + 19) / 20
    ensures forall i | 0 <= i < |r| :: 20 * i <= |units| && r[i] == Child(i + 1, units[20 * i..EndOfBatch(units, i)])
  {
    seq((|units| + 19) / 20, i requires 0 <= i < (|units| + 19) / 20 => Child(i + 1, units[20 * i..EndOfBatch(units, i)]))
  }

  lemma {:induction false} BatchesFreeze(units: seq<Unit>, k: nat)
    requires 20 * k <= |units| + 19
    ensures var n := if 20 * k <= |units| then 20 * k else |units|;
            k <= |Batches(units)| && Frozen(Batches(units)[..k]) == units[..n]
  {
    if k == 0 {
      assert Batches(units)[..0] == [] && units[..0] == [];
    } else {
      BatchesFreeze(units, k - 1);
      FrozenSnoc(Batches(units), k - 1);
      assert units[..20 * (k - 1)] + units[20 * (k - 1)..EndOfBatch(units, k - 1)] == units[..EndOfBatch(units, k - 1)];
    }
  }

  ghost predicate PriorOk(s: Scope) {
    Elems(KnownIds(s.prior)) <= Elems(Identities(s.proposed)) && NoDup(KnownIds(s.prior))
  }

  ghost predicate SourceOnlyOk(s: Scope) {
    && Elems(KnownIds(s.sourceOnly)) <= Elems(Identities(s.proposed)) && NoDup(KnownIds(s.sourceOnly))
    && Elems(KnownIds(s.prior)) !! Elems(KnownIds(s.sourceOnly))
  }

  /** The comparison that the validation of a manifest lacks: an isolation is excepted too. */
  predicate Crossed(s: Scope) {
    exists id :: id in Isolations(s) && ExceptionOfId(id) in s.exceptions
  }

  /** The manifest of a scope, or why there is none. It is validated before it is written. */
  ghost function Prepare(s: Scope): Result<Manifest, string> {
    if !PriorOk(s) then Err(PRIOR_INVALID)
    else if !SourceOnlyOk(s) then Err(SOURCE_ONLY_INVALID)
    else if s.daily && s.exceptions != [] then Err(DAILY_EXCEPTION)
    else if !NoDup(s.exceptions) || Crossed(s) then Err(EXCEPTION_INVALID)
    else
      var m := Manifest(Batches(Executable(s)), s.isolating, s.prior, s.sourceOnly, s.exceptions, |s.proposed|);
      if ValidManifest(m) then Ok(m) else Err(MANIFEST_REFUSED)
  }

  method PrepareCampaign(s: Scope) returns (r: Result<Manifest, string>)
    ensures r == Prepare(s)
  {
    hide NoDup, Elems, ValidManifest, Identities, KnownIds, Executable, Crossed;
    var prior := Distinct(KnownIds(s.prior));
    if !(Elems(KnownIds(s.prior)) <= Elems(Identities(s.proposed))) || !prior {
      return Err(PRIOR_INVALID);
    }
    var sourceOnly := Distinct(KnownIds(s.sourceOnly));
    if !(Elems(KnownIds(s.sourceOnly)) <= Elems(Identities(s.proposed))) || !sourceOnly
       || !(Elems(KnownIds(s.prior)) !! Elems(KnownIds(s.sourceOnly)))
    {
      return Err(SOURCE_ONLY_INVALID);
    }
    if s.daily && s.exceptions != [] {
      return Err(DAILY_EXCEPTION);
    }
    var exceptions := Distinct(s.exceptions);
    if !exceptions || Crossed(s) {
      return Err(EXCEPTION_INVALID);
    }
    var m := Manifest(Batches(Executable(s)), s.isolating, s.prior, s.sourceOnly, s.exceptions, |s.proposed|);
    var valid := ValidateCampaignManifest(m);
    r := if valid then Ok(m) else Err(MANIFEST_REFUSED);
  }

  /** A prepared manifest counts every unit once, and runs exactly the proposed units that are neither
      isolated nor excepted, in order. */
  lemma PreparedCountsOnce(s: Scope)
    requires Prepare(s).Ok?
    ensures var m := Prepare(s).value;
            && ValidManifest(m) && CountedOnce(m) && |Entries(m)| == |s.proposed|
            && Frozen(m.children) == Executable(s)
  {
    var m := Prepare(s).value;
    BatchesFreeze(Executable(s), |m.children|);
    assert m.children[..|m.children|] == m.children;
    forall k | k in Anomalies(m) ensures k.id in Isolations(s) {
      KnownIdsHave(s.prior, k.id);
      KnownIdsHave(s.sourceOnly, k.id);
    }
    hide ValidManifest, Executable, CountedOnce;
    CountedOnceExactly(m);
  }
}
