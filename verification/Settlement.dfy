/**
 * The independent settlement of a finished campaign: it rebuilds the class of every unit from the
 * frozen campaign and the reported batches, and only then compares the reported counters.
 */
module Settlement {
  import opened Wrappers
  import opened Seqs
  import opened Units
  import opened BatchChecker
  import opened Manifest
  import opened Campaign

  datatype Category = Success | Isolating | FailedUnit | Unattempted | Unknown

  datatype Claim = Claim(category: Category, id: UnitId)

  function ClaimIds(claims: seq<Claim>): seq<UnitId> {
    Map((c: Claim) => c.id, claims)
  }

  function Tag(category: Category, ids: seq<UnitId>): seq<Claim> {
    Map(id => Claim(category, id), ids)
  }

  /** The units a list of claims puts in one category. */
  function Of(claims: seq<Claim>, category: Category): set<UnitId> {
    set c | c in claims && c.category == category :: c.id
  }

  function Processed(claims: seq<Claim>): seq<Claim> {
    if claims == [] then []
    else
      var last := claims[|claims| - 1];
      Processed(claims[..|claims| - 1]) + if last.category.Unattempted? then [] else [last]
  }

  /** The frozen unit identities of each batch. */
  function Orders(children: seq<Child>): map<nat, seq<UnitId>> {
    if children == [] then map[]
    else
      var last := children[|children| - 1];
      Orders(children[..|children| - 1])[last.batchId := Identities(last.units)]
  }

  /** One reported batch and the class its stopping unit would take, if it may have one. */
  datatype Step = Step(entry: BatchEntry, stopping: Option<Category>)

  function Steps(x: CampaignResult): seq<Step> {
    Map((e: BatchEntry) => Step(e, None), x.completed)
    + (if x.failedBatch.Some? then [Step(x.failedBatch.value, Some(FailedUnit))] else [])
    + (if x.unknownBatch.Some? then [Step(x.unknownBatch.value, Some(Unknown))] else [])
    + Map((id: nat) => Step(BatchEntry(id, None, None), None), x.unattemptedIds)
  }

  function StepIds(steps: seq<Step>): seq<nat> {
    Map((s: Step) => s.entry.batchId, steps)
  }

  /** What one reported batch claims about its units. */
  function StepClaims(orders: map<nat, seq<UnitId>>, step: Step): Option<seq<Claim>> {
    if step.entry.batchId !in orders then None
    else if step.entry.terminal.None? then
      Some(Tag(if step.stopping == Some(Unknown) then Unknown else Unattempted, orders[step.entry.batchId]))
    else
      var r := step.entry.terminal.value;
      if r.failed.Some? && step.stopping.None? then None
      else
        Some(Tag(Success, Identities(UnitsOf(r.completed))) + Tag(Isolating, Identities(UnitsOf(r.isolated)))
             + (if r.failed.Some? then [Claim(step.stopping.value, Identity(r.failed.value.unit))] else [])
             + Tag(Unattempted, Identities(r.unattempted)))
  }

  function Claims(orders: map<nat, seq<UnitId>>, steps: seq<Step>): Option<seq<Claim>> {
    if steps == [] then Some([])
    else
      var before := Claims(orders, steps[..|steps| - 1]);
      var last := StepClaims(orders, steps[|steps| - 1]);
      if before.None? || last.None? then None else Some(before.value + last.value)
  }

  /** No unit is claimed twice and only known units are claimed. */
  ghost predicate Admissible(claims: seq<Claim>, universe: set<UnitId>) {
    NoDup(ClaimIds(claims)) && Elems(ClaimIds(claims)) <= universe
  }

  function Count(s: Summary, category: Category): nat {
    match category
    case Success => s.success
    case Isolating => s.isolated
    case FailedUnit => s.failed
    case Unattempted => s.unattempted
    case Unknown => s.unknown
  }

  function Universe(m: Manifest): seq<UnitId> {
    Identities(Frozen(m.children)) + KnownIds(Anomalies(m))
  }

  /** The campaign and the reported totals are fit to be settled at all. */
  ghost predicate HeaderAccepted(m: Manifest, x: CampaignResult, bound: bool) {
    var s := x.summary;
    && bound && s.denominator == m.denominator && s.exceptions == 0
    && s.success + s.isolated + s.failed + s.unattempted + s.unknown == s.denominator
    && (forall u | u in Frozen(m.children) :: u.frequency == "1d")
    && NoDup(Ids(m.children)) && NoDup(Universe(m)) && |Universe(m)| == m.denominator
    && x.exceptions == []
  }

  ghost predicate CountsMatch(all: seq<Claim>, s: Summary) {
    forall c: Category :: |Of(all, c)| == Count(s, c)
  }

  /** The rebuilt claims are an exact partition that agrees with every reported counter. */
  ghost predicate ExecutionAccepted(m: Manifest, x: CampaignResult, bound: bool) {
    && HeaderAccepted(m, x, bound)
    && x.completedIds == Map((e: BatchEntry) => e.batchId, x.completed)
    && NoDup(StepIds(Steps(x)))
    && var claims := Claims(Orders(m.children), Steps(x));
       && claims.Some?
       && NoDup(KnownIds(x.isolated))
       && Elems(KnownIds(x.isolated)) == Of(claims.value, Isolating) + Elems(KnownIds(Anomalies(m)))
       && var all := claims.value + Tag(Isolating, KnownIds(Anomalies(m)));
          && Admissible(all, Elems(Universe(m))) && Elems(ClaimIds(all)) == Elems(Universe(m))
          && CountsMatch(all, x.summary)
  }

  ghost function AllClaims(m: Manifest, x: CampaignResult): seq<Claim>
    requires ExecutionAccepted(m, x, true)
  {
    Claims(Orders(m.children), Steps(x)).value + Tag(Isolating, KnownIds(Anomalies(m)))
  }

  predicate Complete(x: CampaignResult) {
    || (x.status.CampaignPassed? && x.summary.success == x.summary.denominator && x.summary.isolated == 0
        && x.summary.failed == 0 && x.summary.unattempted == 0 && x.summary.unknown == 0)
    || (x.status.NotRequired? && x.summary.denominator == 0)
  }

  lemma AdmissiblePrefix(s: seq<Claim>, t: seq<Claim>, universe: set<UnitId>)
    requires s <= t && Admissible(t, universe)
    ensures Admissible(s, universe)
  {
    assert ClaimIds(s) <= ClaimIds(t);
    NoDupPrefix(ClaimIds(t), ClaimIds(s));
  }

  lemma AdmissibleSnoc(s: seq<Claim>, c: Claim, universe: set<UnitId>)
    requires Admissible(s, universe)
    ensures Admissible(s + [c], universe) <==> c.id in universe && c.id !in ClaimIds(s)
  {
    assert ClaimIds(s + [c]) == ClaimIds(s) + [c.id];
    NoDupSnoc(ClaimIds(s), c.id);
  }

  lemma OfSnoc(s: seq<Claim>, c: Claim)
    ensures forall k: Category :: Of(s + [c], k) == Of(s, k) + if c.category == k then {c.id} else {}
    ensures Processed(s + [c]) == Processed(s) + if c.category.Unattempted? then [] else [c]
  {
    assert (s + [c])[..|s|] == s;
    forall k: Category ensures Of(s + [c], k) == Of(s, k) + if c.category == k then {c.id} else {} {
      assert forall x :: x in s + [c] <==> x in s || x == c;
    }
  }

  lemma ClaimedSomewhere(s: seq<Claim>, id: UnitId)
    ensures id in ClaimIds(s) <==> exists k: Category :: id in Of(s, k)
  {
    if id in ClaimIds(s) {
      var i :| 0 <= i < |s| && s[i].id == id;
      assert s[i] in s && id in Of(s, s[i].category);
    }
    if k: Category :| id in Of(s, k) {
      var i :| 0 <= i < |s| && s[i].id == id;
      assert ClaimIds(s)[i] == id;
    }
  }

  /** The running books of a settlement: five disjoint sets and the order of what was processed. */
  class Ledger {
    const universe: set<UnitId>
    const orders: map<nat, seq<UnitId>>
    var classified: map<Category, set<UnitId>>
    var processed: seq<Claim>
    var seenBatches: set<nat>
    ghost var claims: seq<Claim>

    ghost predicate Valid()
      reads this
    {
      && (forall c: Category :: c in classified && classified[c] == Of(claims, c))
      && Admissible(claims, universe)
      && processed == Processed(claims)
    }

    constructor (universe: set<UnitId>, orders: map<nat, seq<UnitId>>)
      ensures Valid() && claims == [] && seenBatches == {}
      ensures this.universe == universe && this.orders == orders
    {
      this.universe, this.orders := universe, orders;
      classified := map[Success := {}, Isolating := {}, FailedUnit := {}, Unattempted := {}, Unknown := {}];
      processed, seenBatches, claims := [], {}, [];
      new;
      forall c: Category ensures c in classified && classified[c] == Of([], c) {
        match c { case Success => case Isolating => case FailedUnit => case Unattempted => case Unknown => }
        assert Of([], c) == {};
      }
    }

    method AddUnit(category: Category, id: UnitId) returns (ok: bool)
      requires Valid()
      modifies this
      ensures Valid() && seenBatches == old(seenBatches)
      ensures ok <==> Admissible(old(claims) + [Claim(category, id)], universe)
      ensures claims == if ok then old(claims) + [Claim(category, id)] else old(claims)
    {
      AdmissibleSnoc(claims, Claim(category, id), universe);
      ClaimedSomewhere(claims, id);
      OfSnoc(claims, Claim(category, id));
      hide Admissible, Of, Processed;
      if id !in universe || exists c: Category :: id in classified[c] {
        return false;
      }
      classified := classified[category := classified[category] + {id}];
      processed := processed + if category.Unattempted? then [] else [Claim(category, id)];
      claims := claims + [Claim(category, id)];
      ok := true;
    }

    method AddAll(category: Category, ids: seq<UnitId>) returns (ok: bool)
      requires Valid()
      modifies this
      ensures Valid() && seenBatches == old(seenBatches)
      ensures ok <==> Admissible(old(claims) + Tag(category, ids), universe)
      ensures ok ==> claims == old(claims) + Tag(category, ids)
    {
      hide Admissible, Of, Processed;
      ghost var before := claims;
      ok := true;
      assert Tag(category, ids[..0]) == [];
      for i := 0 to |ids|
        invariant ok && Valid() && seenBatches == old(seenBatches)
        invariant claims == before + Tag(category, ids)[..i]
      {
        ghost var next := claims + [Claim(category, ids[i])];
        assert next == before + Tag(category, ids)[..i + 1];
        if Admissible(before + Tag(category, ids), universe) {
          AdmissiblePrefix(next, before + Tag(category, ids), universe);
        }
        ok := AddUnit(category, ids[i]);
        if !ok {
          return;
        }
      }
      assert Tag(category, ids)[..|ids|] == Tag(category, ids);
    }

    method AddTerminal(step: Step) returns (ok: bool)
      requires Valid() && step.entry.terminal.Some? && step.entry.batchId in orders
      modifies this
      ensures Valid() && seenBatches == old(seenBatches)
      ensures var c := StepClaims(orders, step);
              && (ok <==> c.Some? && Admissible(old(claims) + c.value, universe))
              && (ok ==> claims == old(claims) + c.value)
    {
      hide Admissible, Of, Processed, Tag;
      var r := step.entry.terminal.value;
      ghost var c := StepClaims(orders, step);
      ghost var before := claims;
      var completed, isolated := Identities(UnitsOf(r.completed)), Identities(UnitsOf(r.isolated));
      ghost var first := before + Tag(Success, completed);
      ghost var second := first + Tag(Isolating, isolated);
      ghost var stopped := if r.failed.Some? && step.stopping.Some?
                           then [Claim(step.stopping.value, Identity(r.failed.value.unit))] else [];
      ghost var third := second + stopped;
      ghost var fourth := third + Tag(Unattempted, Identities(r.unattempted));
      assert c.Some? ==> fourth == before + c.value;
      if Admissible(fourth, universe) {
        AdmissiblePrefix(first, fourth, universe);
        AdmissiblePrefix(second, fourth, universe);
        AdmissiblePrefix(third, fourth, universe);
      }
      ok := AddAll(Success, completed);
      if !ok { return; }
      ok := AddAll(Isolating, isolated);
      if !ok { return; }
      if r.failed.Some? {
        if step.stopping.None? { return false; }
        ok := AddUnit(step.stopping.value, Identity(r.failed.value.unit));
        if !ok { return; }
      }
      assert claims == third;
      ok := AddAll(Unattempted, Identities(r.unattempted));
    }

    method ClassifyTerminal(step: Step) returns (ok: bool)
      requires Valid()
      modifies this
      ensures Valid()
      ensures var c := StepClaims(orders, step);
              && (ok <==> && step.entry.batchId !in old(seenBatches) && c.Some?
                          && Admissible(old(claims) + c.value, universe))
              && (ok ==> claims == old(claims) + c.value && seenBatches == old(seenBatches) + {step.entry.batchId})
    {
      hide Admissible, Of, Processed, Tag;
      if step.entry.batchId !in orders || step.entry.batchId in seenBatches {
        return false;
      }
      seenBatches := seenBatches + {step.entry.batchId};
      if step.entry.terminal.None? {
        ok := AddAll(if step.stopping == Some(Unknown) then Unknown else Unattempted, orders[step.entry.batchId]);
      } else {
        ok := AddTerminal(step);
      }
    }
  }

  lemma {:induction false} ClaimsPrefix(orders: map<nat, seq<UnitId>>, steps: seq<Step>, i: nat)
    requires i <= |steps| && Claims(orders, steps).Some?
    ensures Claims(orders, steps[..i]).Some?
    ensures Claims(orders, steps[..i]).value <= Claims(orders, steps).value
    decreases |steps|
  {
    if i < |steps| {
      var n := |steps| - 1;
      ClaimsPrefix(orders, steps[..n], i);
      assert steps[..n][..i] == steps[..i];
    } else {
      assert steps[..i] == steps;
    }
  }

  lemma ClaimsSnoc(orders: map<nat, seq<UnitId>>, steps: seq<Step>, i: nat)
    requires i < |steps| && Claims(orders, steps[..i]).Some?
    ensures var before, last := Claims(orders, steps[..i]).value, StepClaims(orders, steps[i]);
            Claims(orders, steps[..i + 1]) == if last.None? then None else Some(before + last.value)
  {
    assert steps[..i + 1][..i] == steps[..i];
  }

  ghost predicate StepsAccepted(orders: map<nat, seq<UnitId>>, universe: set<UnitId>, steps: seq<Step>) {
    && NoDup(StepIds(steps)) && Claims(orders, steps).Some? && Admissible(Claims(orders, steps).value, universe)
  }

  lemma StepsAcceptedNext(orders: map<nat, seq<UnitId>>, universe: set<UnitId>, steps: seq<Step>, i: nat)
    requires i < |steps| && StepsAccepted(orders, universe, steps[..i])
    ensures var c := StepClaims(orders, steps[i]);
            StepsAccepted(orders, universe, steps[..i + 1])
            <==> && steps[i].entry.batchId !in StepIds(steps[..i]) && c.Some?
                 && Admissible(Claims(orders, steps[..i]).value + c.value, universe)
  {
    ClaimsSnoc(orders, steps, i);
    assert StepIds(steps[..i + 1]) == StepIds(steps[..i]) + [steps[i].entry.batchId];
    NoDupSnoc(StepIds(steps[..i]), steps[i].entry.batchId);
  }

  lemma StepsAcceptedPrefix(orders: map<nat, seq<UnitId>>, universe: set<UnitId>, steps: seq<Step>, i: nat)
    requires i <= |steps| && StepsAccepted(orders, universe, steps)
    ensures StepsAccepted(orders, universe, steps[..i])
  {
    ClaimsPrefix(orders, steps, i);
    AdmissiblePrefix(Claims(orders, steps[..i]).value, Claims(orders, steps).value, universe);
    assert StepIds(steps[..i]) <= StepIds(steps);
    NoDupPrefix(StepIds(steps), StepIds(steps[..i]));
  }

  method ClassifySteps(ledger: Ledger, steps: seq<Step>) returns (ok: bool)
    requires ledger.Valid() && ledger.claims == [] && ledger.seenBatches == {}
    modifies ledger
    ensures ledger.Valid()
    ensures ok <==> StepsAccepted(ledger.orders, ledger.universe, steps)
    ensures ok ==> ledger.claims == Claims(ledger.orders, steps).value
  {
    assert steps[..0] == [];
    assert StepsAccepted(ledger.orders, ledger.universe, steps[..0]);
    assert Claims(ledger.orders, steps[..0]) == Some([]) && Elems(StepIds(steps[..0])) == {};
    hide Admissible, StepsAccepted, StepClaims, StepIds, Elems, Claims, Of, Processed;
    ok := true;
    ghost var orders, universe := ledger.orders, ledger.universe;
    for i := 0 to |steps|
      invariant ok && ledger.Valid() && StepsAccepted(orders, universe, steps[..i])
      invariant Claims(orders, steps[..i]).Some? && ledger.claims == Claims(orders, steps[..i]).value
      invariant ledger.seenBatches == Elems(StepIds(steps[..i]))
    {
      StepsAcceptedNext(orders, universe, steps, i);
      ClaimsSnoc(orders, steps, i);
      StepIdsSnoc(steps, i);
      if StepsAccepted(orders, universe, steps) { StepsAcceptedPrefix(orders, universe, steps, i + 1); }
      ok := ledger.ClassifyTerminal(steps[i]);
      if !ok {
        return;
      }
    }
    assert steps[..|steps|] == steps;
  }

  lemma StepIdsSnoc(steps: seq<Step>, i: nat)
    requires i < |steps|
    ensures Elems(StepIds(steps[..i + 1])) == Elems(StepIds(steps[..i])) + {steps[i].entry.batchId}
    ensures steps[i].entry.batchId in Elems(StepIds(steps[..i])) <==> steps[i].entry.batchId in StepIds(steps[..i])
  {
    assert StepIds(steps[..i + 1]) == StepIds(steps[..i]) + [steps[i].entry.batchId];
  }

  method CheckHeader(m: Manifest, x: CampaignResult, bound: bool) returns (ok: bool)
    ensures ok <==> HeaderAccepted(m, x, bound)
  {
    var s := x.summary;
    if !bound || s.denominator != m.denominator || s.exceptions != 0
       || s.success + s.isolated + s.failed + s.unattempted + s.unknown != s.denominator
    {
      return false;
    }
    if exists u :: u in Frozen(m.children) && u.frequency != "1d" {
      return false;
    }
    var ids, universe := Ids(m.children), Universe(m);
    NoDupSize(ids);
    NoDupSize(universe);
    ok := |Elems(ids)| == |ids| && |Elems(universe)| == |universe| && |universe| == m.denominator && x.exceptions == [];
  }

  method CompareCounts(ledger: Ledger, s: Summary) returns (ok: bool)
    requires ledger.Valid()
    ensures ok <==> CountsMatch(ledger.claims, s)
  {
    hide Of, Admissible;
    ok := |ledger.classified[Success]| == s.success && |ledger.classified[Isolating]| == s.isolated
          && |ledger.classified[FailedUnit]| == s.failed && |ledger.classified[Unattempted]| == s.unattempted
          && |ledger.classified[Unknown]| == s.unknown;
  }

  lemma UnionIsClaimed(claims: seq<Claim>)
    ensures Of(claims, Success) + Of(claims, Isolating) + Of(claims, FailedUnit) + Of(claims, Unattempted)
            + Of(claims, Unknown) == Elems(ClaimIds(claims))
  {
    forall id: UnitId
      ensures id in Elems(ClaimIds(claims))
         <==> id in Of(claims, Success) + Of(claims, Isolating) + Of(claims, FailedUnit) + Of(claims, Unattempted)
                    + Of(claims, Unknown)
    {
      ClaimedSomewhere(claims, id);
    }
  }

  datatype Settled = Settled(counts: Summary, complete: bool, processed: seq<Claim>)

  /** The whole settlement. Nothing is returned unless the rebuilt classes are a partition of the
      frozen units and the known isolations and agree with every reported counter. */
  method ValidatedExecution(m: Manifest, x: CampaignResult, bound: bool) returns (r: Option<Settled>)
    ensures r.Some? <==> ExecutionAccepted(m, x, bound)
    ensures r.Some? ==> r.value == Settled(x.summary, Complete(x), Processed(AllClaims(m, x)))
  {
    var header := CheckHeader(m, x, bound);
    if !header {
      return None;
    }
    if x.completedIds != Map((e: BatchEntry) => e.batchId, x.completed) {
      return None;
    }
    hide Admissible, HeaderAccepted, Of, Processed, Complete, CountsMatch, Steps, Orders, Claims;
    var ledger := new Ledger(Elems(Universe(m)), Orders(m.children));
    var steps := Steps(x);
    var classified := ClassifySteps(ledger, steps);
    if ExecutionAccepted(m, x, bound) { AcceptedSteps(m, x, bound); }
    if !classified {
      return None;
    }
    var isolatedIds := KnownIds(x.isolated);
    NoDupSize(isolatedIds);
    if |Elems(isolatedIds)| != |isolatedIds|
       || Elems(isolatedIds) != ledger.classified[Isolating] + Elems(KnownIds(Anomalies(m)))
    {
      return None;
    }
    var known := ledger.AddAll(Isolating, KnownIds(Anomalies(m)));
    if !known {
      return None;
    }
    UnionIsClaimed(ledger.claims);
    var counted := CompareCounts(ledger, x.summary);
    if !counted {
      return None;
    }
    var union := ledger.classified[Success] + ledger.classified[Isolating] + ledger.classified[FailedUnit]
                 + ledger.classified[Unattempted] + ledger.classified[Unknown];
    if union != Elems(Universe(m)) {
      return None;
    }
    r := Some(Settled(x.summary, Complete(x), ledger.processed));
  }

  lemma AcceptedSteps(m: Manifest, x: CampaignResult, bound: bool)
    requires ExecutionAccepted(m, x, bound)
    ensures StepsAccepted(Orders(m.children), Elems(Universe(m)), Steps(x))
  {
    var claims := Claims(Orders(m.children), Steps(x)).value;
    AdmissiblePrefix(claims, claims + Tag(Isolating, KnownIds(Anomalies(m))), Elems(Universe(m)));
  }
}
