/**
 * The settlement is sound for any report, and it accepts the report of every daily campaign
 * without partial exceptions, whatever the guards, children, batches and disks did.
 */
module SettlementTheorems {
  import opened Wrappers
  import opened Seqs
  import opened Units
  import opened BatchChecker
  import opened BatchTheorems
  import opened Manifest
  import opened Campaign
  import opened CampaignTheorems
  import opened Settlement

  // ----- soundness -----

  lemma {:induction false} ProcessedClaims(claims: seq<Claim>)
    ensures forall c :: c in Processed(claims) <==> c in claims && !c.category.Unattempted?
    ensures NoDup(ClaimIds(claims)) ==> NoDup(ClaimIds(Processed(claims)))
  {
    if claims != [] {
      var n := |claims| - 1;
      var init, last := claims[..n], claims[n];
      ProcessedClaims(init);
      assert claims == init + [last];
      assert ClaimIds(claims) == ClaimIds(init) + [last.id];
      NoDupSnoc(ClaimIds(init), last.id);
      if NoDup(ClaimIds(claims)) && !last.category.Unattempted? {
        forall i | 0 <= i < |Processed(init)| ensures Processed(init)[i].id != last.id {
          assert Processed(init)[i] in init;
          var j :| 0 <= j < |init| && init[j] == Processed(init)[i];
          assert ClaimIds(init)[j] == Processed(init)[i].id;
        }
        NoDupSnoc(ClaimIds(Processed(init)), last.id);
        assert ClaimIds(Processed(claims)) == ClaimIds(Processed(init)) + [last.id];
      }
    }
  }

  lemma CategoriesDisjoint(claims: seq<Claim>, a: Category, b: Category)
    requires NoDup(ClaimIds(claims)) && a != b
    ensures Of(claims, a) !! Of(claims, b)
  {
    forall id | id in Of(claims, a) ensures id !in Of(claims, b) {
      var i :| 0 <= i < |claims| && claims[i].category == a && claims[i].id == id;
      forall j | 0 <= j < |claims| && claims[j].category == b ensures claims[j].id != id {
        assert ClaimIds(claims)[i] != ClaimIds(claims)[j];
      }
    }
  }

  lemma ProcessedUnits(claims: seq<Claim>, id: UnitId)
    requires NoDup(ClaimIds(claims))
    ensures id in ClaimIds(Processed(claims)) <==> id in ClaimIds(claims) && id !in Of(claims, Unattempted)
  {
    ProcessedClaims(claims);
    if id in ClaimIds(Processed(claims)) {
      var i :| 0 <= i < |Processed(claims)| && Processed(claims)[i].id == id;
      var c := Processed(claims)[i];
      assert c in Processed(claims);
      var j :| 0 <= j < |claims| && claims[j] == c;
      assert ClaimIds(claims)[j] == id;
      assert id in Of(claims, c.category);
      CategoriesDisjoint(claims, c.category, Unattempted);
    }
    if id in ClaimIds(claims) && id !in Of(claims, Unattempted) {
      var j :| 0 <= j < |claims| && claims[j].id == id;
      assert claims[j] in claims;
      assert claims[j] in Processed(claims);
      var i :| 0 <= i < |Processed(claims)| && Processed(claims)[i] == claims[j];
      assert ClaimIds(Processed(claims))[i] == id;
    }
  }

  lemma BooksArePartition(all: seq<Claim>)
    requires NoDup(ClaimIds(all))
    ensures forall a: Category, b: Category | a != b :: Of(all, a) !! Of(all, b)
    ensures NoDup(ClaimIds(Processed(all)))
    ensures Elems(ClaimIds(Processed(all))) == Elems(ClaimIds(all)) - Of(all, Unattempted)
  {
    hide Of, Processed, NoDup, ClaimIds;
    forall a: Category, b: Category | a != b ensures Of(all, a) !! Of(all, b) { CategoriesDisjoint(all, a, b); }
    ProcessedClaims(all);
    forall id ensures id in ClaimIds(Processed(all)) <==> id in ClaimIds(all) && id !in Of(all, Unattempted) {
      ProcessedUnits(all, id);
    }
  }

  /** Soundness, for any campaign and any report: the five classes are pairwise disjoint, cover
      exactly the frozen units and the known isolations, have the reported sizes, and every unit that
      is not unattempted is handed on for replanning exactly once. */
  lemma SettlementIsPartition(m: Manifest, x: CampaignResult)
    requires ExecutionAccepted(m, x, true)
    ensures var all := AllClaims(m, x);
            && (forall a: Category, b: Category | a != b :: Of(all, a) !! Of(all, b))
            && Of(all, Success) + Of(all, Isolating) + Of(all, FailedUnit) + Of(all, Unattempted) + Of(all, Unknown)
               == Elems(Universe(m))
            && (forall c: Category :: |Of(all, c)| == Count(x.summary, c))
            && NoDup(ClaimIds(Processed(all)))
            && Elems(ClaimIds(Processed(all))) == Elems(Universe(m)) - Of(all, Unattempted)
  {
    hide Of, Processed, Universe, HeaderAccepted, NoDup, ClaimIds, Claims, Orders, Steps, Tag, KnownIds, Elems;
    var all := AllClaims(m, x);
    BooksArePartition(all);
    UnionIsClaimed(all);
  }

  /** Only a report that says passed and counts nothing but successes is complete. */
  lemma CompleteMeansAllSuccess(m: Manifest, x: CampaignResult)
    requires ExecutionAccepted(m, x, true) && Complete(x)
    ensures Of(AllClaims(m, x), Success) == Elems(Universe(m))
  {
    SettlementIsPartition(m, x);
    var all := AllClaims(m, x);
    forall c: Category | c != Success ensures Of(all, c) == {} {
      assert |Of(all, c)| == Count(x.summary, c) == 0;
    }
  }

  // ----- completeness -----

  lemma ClaimsLast(orders: map<nat, seq<UnitId>>, s: seq<Step>, step: Step)
    requires Claims(orders, s).Some? && StepClaims(orders, step).Some?
    ensures Claims(orders, s + [step]) == Some(Claims(orders, s).value + StepClaims(orders, step).value)
  {
    hide StepClaims;
    assert (s + [step])[..|s|] == s;
  }

  lemma ClaimsSplit(orders: map<nat, seq<UnitId>>, t: seq<Step>)
    requires t != [] && Claims(orders, t).Some?
    ensures var n := |t| - 1;
            && Claims(orders, t[..n]).Some? && StepClaims(orders, t[n]).Some?
            && Claims(orders, t).value == Claims(orders, t[..n]).value + StepClaims(orders, t[n]).value
  {
    hide StepClaims;
  }

  lemma {:induction false} ClaimsAppend(orders: map<nat, seq<UnitId>>, s: seq<Step>, t: seq<Step>)
    requires Claims(orders, s).Some? && Claims(orders, t).Some?
    ensures Claims(orders, s + t) == Some(Claims(orders, s).value + Claims(orders, t).value)
    decreases |t|
  {
    if t == [] {
      assert s + t == s;
      assert Claims(orders, s).value + [] == Claims(orders, s).value;
    } else {
      var n := |t| - 1;
      ClaimsSplit(orders, t);
      hide Claims, StepClaims;
      ClaimsAppend(orders, s, t[..n]);
      ClaimsLast(orders, s + t[..n], t[n]);
      assert s + t == s + t[..n] + [t[n]];
      Associative(Claims(orders, s).value, Claims(orders, t[..n]).value, StepClaims(orders, t[n]).value);
    }
  }

  lemma Associative(a: seq<Claim>, b: seq<Claim>, c: seq<Claim>)
    ensures (a + b) + c == a + (b + c)
  {
  }

  lemma ClaimsOne(orders: map<nat, seq<UnitId>>, step: Step)
    requires StepClaims(orders, step).Some?
    ensures Claims(orders, [step]) == StepClaims(orders, step)
  {
    assert [step][..0] == [];
    assert Claims(orders, []) == Some([]);
    assert [] + StepClaims(orders, step).value == StepClaims(orders, step).value;
  }

  lemma {:induction false} OrdersAt(children: seq<Child>, i: nat)
    requires forall j | 0 <= j < |children| :: ValidChild(children[j], j)
    requires i < |children|
    ensures children[i].batchId in Orders(children)
    ensures Orders(children)[children[i].batchId] == Identities(children[i].units)
  {
    var n := |children| - 1;
    if i < n {
      OrdersAt(children[..n], i);
      assert ValidChild(children[i], i) && ValidChild(children[n], n);
    }
  }

  lemma TagConcat(category: Category, s: seq<UnitId>, t: seq<UnitId>)
    ensures Tag(category, s + t) == Tag(category, s) + Tag(category, t)
  {
  }

  ghost function Tagged(category: Category, units: seq<Unit>): multiset<Claim> {
    multiset(Tag(category, Identities(units)))
  }

  lemma TaggedConcat(category: Category, s: seq<Unit>, t: seq<Unit>)
    ensures Tagged(category, s + t) == Tagged(category, s) + Tagged(category, t)
    ensures Tagged(category, []) == multiset{}
  {
    KeysConcat(s, t);
    TagConcat(category, Identities(s), Identities(t));
  }

  function SettledSteps(m: Manifest, verdicts: seq<Verdict>, k: nat): seq<Step>
    requires k <= |verdicts| == |m.children| && forall i | 0 <= i < k :: verdicts[i].Settles?
  {
    Map((e: BatchEntry) => Step(e, None), SettledEntries(m, verdicts, k))
  }

  lemma SettledStepsSnoc(m: Manifest, verdicts: seq<Verdict>, k: nat)
    requires k < |verdicts| == |m.children| && forall i | 0 <= i <= k :: verdicts[i].Settles?
    ensures SettledSteps(m, verdicts, k + 1)
         == SettledSteps(m, verdicts, k) + [Step(BatchEntry(m.children[k].batchId, Some(verdicts[k].result), None), None)]
  {
    EntriesSnoc(m, verdicts, k);
  }

  lemma NoClaimsYet(m: Manifest, verdicts: seq<Verdict>)
    requires |verdicts| == |m.children|
    ensures var c := Claims(Orders(m.children), SettledSteps(m, verdicts, 0));
            c.Some? && multiset(c.value) == Tagged(Success, CompletedOf(SettledResults(verdicts, 0)))
                                            + Tagged(Isolating, UnitsOf(IsolatedOf(SettledResults(verdicts, 0))))
  {
    hide Orders;
    assert SettledSteps(m, verdicts, 0) == [];
    assert SettledResults(verdicts, 0) == [];
  }

  /** What the settled batches of a campaign claim. */
  lemma {:induction false} SettledClaims(m: Manifest, worlds: seq<ChildWorld>, k: nat)
    requires |worlds| == |m.children| && k <= |m.children|
    requires forall j | 0 <= j < |m.children| :: ValidChild(m.children[j], j)
    requires forall i | 0 <= i < k :: Verdicts(m, worlds)[i].Settles?
    ensures var verdicts, orders := Verdicts(m, worlds), Orders(m.children);
            var results, c := SettledResults(verdicts, k), Claims(orders, SettledSteps(m, verdicts, k));
            && c.Some?
            && multiset(c.value) == Tagged(Success, CompletedOf(results)) + Tagged(Isolating, UnitsOf(IsolatedOf(results)))
  {
    hide Judge, Orders, CompletedOf, IsolatedOf, Tagged, SettledEntries, SettledResults, SettledSteps, StepClaims, Claims,
         UnitsOf, ValidChild, Identities, Tag, Verdicts;
    if k == 0 {
      NoClaimsYet(m, Verdicts(m, worlds));
    } else {
      SettledClaims(m, worlds, k - 1);
      SettledOneClaim(m, worlds, k - 1);
    }
  }

  /** What one more settled batch adds to the claims. */
  lemma SettledOneClaim(m: Manifest, worlds: seq<ChildWorld>, k: nat)
    requires |worlds| == |m.children| && k < |m.children|
    requires forall j | 0 <= j < |m.children| :: ValidChild(m.children[j], j)
    requires forall i | 0 <= i <= k :: Verdicts(m, worlds)[i].Settles?
    requires Claims(Orders(m.children), SettledSteps(m, Verdicts(m, worlds), k)).Some?
    ensures var verdicts, orders := Verdicts(m, worlds), Orders(m.children);
            var before, after := SettledResults(verdicts, k), SettledResults(verdicts, k + 1);
            var c, d := Claims(orders, SettledSteps(m, verdicts, k)), Claims(orders, SettledSteps(m, verdicts, k + 1));
            var completed, isolated := UnitsOf(verdicts[k].result.completed), UnitsOf(verdicts[k].result.isolated);
            && d.Some? && multiset(d.value) == multiset(c.value) + (Tagged(Success, completed) + Tagged(Isolating, isolated))
            && Tagged(Success, CompletedOf(after)) == Tagged(Success, CompletedOf(before)) + Tagged(Success, completed)
            && Tagged(Isolating, UnitsOf(IsolatedOf(after))) == Tagged(Isolating, UnitsOf(IsolatedOf(before))) + Tagged(Isolating, isolated)
  {
    var verdicts, orders := Verdicts(m, worlds), Orders(m.children);
    hide Judge, Orders, CompletedOf, IsolatedOf, Tagged, SettledEntries, SettledResults, SettledSteps, StepClaims, Claims,
         UnitsOf, ValidChild, Identities, Tag, Verdicts;
    var v := verdicts[k];
    var step := Step(BatchEntry(m.children[k].batchId, Some(v.result), None), None);
    SettledStepClaims(m, worlds, k, step);
    SettledStepsSnoc(m, verdicts, k);
    ClaimsOne(orders, step);
    ClaimsAppend(orders, SettledSteps(m, verdicts, k), [step]);
    SettledSnocs(verdicts, k);
    var before := SettledResults(verdicts, k);
    CountedSnoc(before, v.result);
    TaggedConcat(Success, CompletedOf(before), UnitsOf(v.result.completed));
    TaggedConcat(Isolating, UnitsOf(IsolatedOf(before)), UnitsOf(v.result.isolated));
  }

  lemma SettledHasNoRest(child: Child, world: ChildWorld, isolating: bool)
    requires Judge(child, world, isolating).Settles?
    ensures var r := Judge(child, world, isolating).result;
            r.failed == None && r.unattempted == []
  {
    var r := Judge(child, world, isolating).result;
    AcceptedShape(r, child.units, world.invocation.reply.dirs, isolating);
  }

  lemma SettledStepClaims(m: Manifest, worlds: seq<ChildWorld>, i: nat, step: Step)
    requires |worlds| == |m.children| && i < |m.children| && Verdicts(m, worlds)[i].Settles?
    requires forall j | 0 <= j < |m.children| :: ValidChild(m.children[j], j)
    requires step == Step(BatchEntry(m.children[i].batchId, Some(Verdicts(m, worlds)[i].result), None), None)
    ensures var r, c := Verdicts(m, worlds)[i].result, StepClaims(Orders(m.children), step);
            c.Some? && multiset(c.value) == Tagged(Success, UnitsOf(r.completed)) + Tagged(Isolating, UnitsOf(r.isolated))
  {
    hide Judge;
    OrdersAt(m.children, i);
    SettledHasNoRest(m.children[i], worlds[i], m.isolating);
    var r, c := Verdicts(m, worlds)[i].result, StepClaims(Orders(m.children), step);
    assert c.value == Tag(Success, Identities(UnitsOf(r.completed))) + Tag(Isolating, Identities(UnitsOf(r.isolated))) + [] + [];
  }

  function LaterSteps(children: seq<Child>): seq<Step> {
    Map((id: nat) => Step(BatchEntry(id, None, None), None), Ids(children))
  }

  lemma LaterSnoc(children: seq<Child>, lo: nat, hi: nat)
    requires lo < hi <= |children|
    ensures LaterSteps(children[lo..hi])
         == LaterSteps(children[lo..hi - 1]) + [Step(BatchEntry(children[hi - 1].batchId, None, None), None)]
    ensures Frozen(children[lo..hi]) == Frozen(children[lo..hi - 1]) + children[hi - 1].units
  {
    assert children[lo..hi][..hi - 1 - lo] == children[lo..hi - 1];
  }

  /** What the batches that were never started claim. */
  lemma NothingLater(children: seq<Child>, lo: nat)
    requires lo <= |children|
    ensures var c := Claims(Orders(children), LaterSteps(children[lo..lo]));
            c.Some? && multiset(c.value) == Tagged(Unattempted, Frozen(children[lo..lo]))
  {
    hide Orders;
    assert children[lo..lo] == [];
    assert LaterSteps([]) == [];
  }

  lemma LaterNext(children: seq<Child>, lo: nat, hi: nat)
    requires forall j | 0 <= j < |children| :: ValidChild(children[j], j)
    requires lo < hi <= |children|
    requires var c := Claims(Orders(children), LaterSteps(children[lo..hi - 1]));
             c.Some? && multiset(c.value) == Tagged(Unattempted, Frozen(children[lo..hi - 1]))
    ensures var c := Claims(Orders(children), LaterSteps(children[lo..hi]));
            c.Some? && multiset(c.value) == Tagged(Unattempted, Frozen(children[lo..hi]))
  {
    hide Orders, Tagged, Frozen, LaterSteps, Claims, ValidChild, Identities, Tag, StepClaims;
    var orders, before, step := Orders(children), LaterSteps(children[lo..hi - 1]), Step(BatchEntry(children[hi - 1].batchId, None, None), None);
    LaterOneClaim(children, hi - 1);
    LaterSnoc(children, lo, hi);
    ClaimsOne(orders, step);
    ClaimsAppend(orders, before, [step]);
    TaggedConcat(Unattempted, Frozen(children[lo..hi - 1]), children[hi - 1].units);
    var a, b := Claims(orders, before).value, Claims(orders, [step]).value;
    assert multiset(a + b) == multiset(a) + multiset(b);
  }

  lemma {:induction false} LaterClaims(children: seq<Child>, lo: nat, hi: nat)
    requires forall j | 0 <= j < |children| :: ValidChild(children[j], j)
    requires lo <= hi <= |children|
    ensures var c := Claims(Orders(children), LaterSteps(children[lo..hi]));
            c.Some? && multiset(c.value) == Tagged(Unattempted, Frozen(children[lo..hi]))
    decreases hi
  {
    hide Orders, Tagged, Frozen, LaterSteps, Claims, ValidChild;
    if lo == hi {
      NothingLater(children, lo);
    } else {
      LaterClaims(children, lo, hi - 1);
      LaterNext(children, lo, hi);
    }
  }

  lemma LaterOneClaim(children: seq<Child>, i: nat)
    requires (forall j | 0 <= j < |children| :: ValidChild(children[j], j)) && i < |children|
    ensures var c := StepClaims(Orders(children), Step(BatchEntry(children[i].batchId, None, None), None));
            c.Some? && multiset(c.value) == Tagged(Unattempted, children[i].units)
  {
    hide Orders, ValidChild, Identities;
    OrdersAt(children, i);
  }

  function StopStep(m: Manifest, verdicts: seq<Verdict>, k: nat): Step
    requires |verdicts| == |m.children| && k < |verdicts| && StopsAt(verdicts, k)
  {
    var id := m.children[k].batchId;
    match verdicts[k]
    case Refused(code) => Step(BatchEntry(id, None, Some(code)), Some(FailedUnit))
    case Vanished(code) => Step(BatchEntry(id, None, Some(code)), Some(Unknown))
    case StopsUnknown(result) => Step(BatchEntry(id, Some(result), Some(UNIT_UNKNOWN)), Some(Unknown))
    case StopsKnown(result) => Step(BatchEntry(id, Some(result), None), Some(FailedUnit))
    case Settles(result) => Step(BatchEntry(id, Some(result), None), Some(FailedUnit))
  }

  ghost function ResultTagged(r: BatchResult, category: Category): multiset<Claim> {
    Tagged(Success, UnitsOf(r.completed)) + Tagged(Isolating, UnitsOf(r.isolated))
    + Tagged(category, FailedUnits(r)) + Tagged(Unattempted, r.unattempted)
  }

  ghost function VerdictTagged(v: Verdict, units: seq<Unit>): multiset<Claim> {
    match v
    case Refused(_) => Tagged(Unattempted, units)
    case Vanished(_) => Tagged(Unknown, units)
    case StopsUnknown(r) => ResultTagged(r, Unknown)
    case StopsKnown(r) => ResultTagged(r, FailedUnit)
    case Settles(_) => multiset{}
  }

  /** What the batch in which a campaign stopped claims. */
  lemma StopClaims(m: Manifest, worlds: seq<ChildWorld>, k: nat)
    requires |worlds| == |m.children| && k < |m.children| && StopsAt(Verdicts(m, worlds), k)
    requires forall j | 0 <= j < |m.children| :: ValidChild(m.children[j], j)
    ensures var v, c := Verdicts(m, worlds)[k], StepClaims(Orders(m.children), StopStep(m, Verdicts(m, worlds), k));
            c.Some? && multiset(c.value) == VerdictTagged(v, m.children[k].units)
  {
    hide Judge, ValidChild, Orders, Identities;
    var v := Verdicts(m, worlds)[k];
    OrdersAt(m.children, k);
    VerdictConserves(m.children[k], worlds[k], m.isolating);
    if v.StopsKnown? {
      StopResultClaims(Orders(m.children), BatchEntry(m.children[k].batchId, Some(v.result), None), FailedUnit);
    } else if v.StopsUnknown? {
      StopResultClaims(Orders(m.children), BatchEntry(m.children[k].batchId, Some(v.result), Some(UNIT_UNKNOWN)), Unknown);
    }
  }

  lemma StopResultClaims(orders: map<nat, seq<UnitId>>, entry: BatchEntry, category: Category)
    requires entry.batchId in orders && entry.terminal.Some? && entry.terminal.value.failed.Some?
    ensures var c := StepClaims(orders, Step(entry, Some(category)));
            c.Some? && multiset(c.value) == ResultTagged(entry.terminal.value, category)
  {
    var r := entry.terminal.value;
    var u := r.failed.value.unit;
    assert Identities(FailedUnits(r)) == [Identity(u)];
    assert Tag(category, [Identity(u)]) == [Claim(category, Identity(u))];
  }

  ghost function ClassesTagged(c: Classes): multiset<Claim> {
    Tagged(Success, c.success) + Tagged(Isolating, UnitsOf(c.isolated)) + Tagged(FailedUnit, c.failed)
    + Tagged(Unattempted, c.unattempted) + Tagged(Unknown, c.unknown)
  }

  lemma OutcomeSteps(m: Manifest, worlds: seq<ChildWorld>, k: nat, recorded: bool)
    requires |worlds| == |m.children| && StopsAt(Verdicts(m, worlds), k)
    ensures var verdicts := Verdicts(m, worlds);
            Steps(CampaignOutcome(m, verdicts, k, recorded))
            == if k == |m.children| then SettledSteps(m, verdicts, k)
               else SettledSteps(m, verdicts, k) + ([StopStep(m, verdicts, k)] + LaterSteps(m.children[k + 1..]))
  {
    hide Judge, Classify, SettledEntries;
    var verdicts := Verdicts(m, worlds);
    var x := CampaignOutcome(m, verdicts, k, recorded);
    if k == |m.children| {
      assert Steps(x) == SettledSteps(m, verdicts, k) + [] + [] + [];
    } else {
      assert Steps(x) == SettledSteps(m, verdicts, k)
                         + (if x.failedBatch.Some? then [Step(x.failedBatch.value, Some(FailedUnit))] else [])
                         + (if x.unknownBatch.Some? then [Step(x.unknownBatch.value, Some(Unknown))] else [])
                         + LaterSteps(m.children[k + 1..]);
    }
  }

  lemma FinishedTagged(m: Manifest, verdicts: seq<Verdict>)
    requires |verdicts| == |m.children| && StopsAt(verdicts, |verdicts|)
    ensures var results := SettledResults(verdicts, |verdicts|);
            ClassesTagged(Classify(m, verdicts, |verdicts|))
            == Tagged(Success, CompletedOf(results)) + Tagged(Isolating, UnitsOf(IsolatedOf(results)))
  {
    var results := SettledResults(verdicts, |verdicts|);
    assert results + [] == results;
  }

  /** Three runs of claims, one after the other. */
  lemma ClaimsOfThree(orders: map<nat, seq<UnitId>>, settled: seq<Step>, stop: Step, later: seq<Step>)
    requires Claims(orders, settled).Some? && StepClaims(orders, stop).Some? && Claims(orders, later).Some?
    ensures var c := Claims(orders, settled + ([stop] + later));
            c.Some? && multiset(c.value) == multiset(Claims(orders, settled).value) + multiset(StepClaims(orders, stop).value)
                                            + multiset(Claims(orders, later).value)
  {
    hide Claims, StepClaims;
    ClaimsOne(orders, stop);
    ClaimsAppend(orders, [stop], later);
    ClaimsAppend(orders, settled, [stop] + later);
  }

  lemma StoppedClaims(m: Manifest, worlds: seq<ChildWorld>, k: nat)
    requires |worlds| == |m.children| && StopsAt(Verdicts(m, worlds), k) && k < |m.children|
    requires forall j | 0 <= j < |m.children| :: ValidChild(m.children[j], j)
    ensures var verdicts := Verdicts(m, worlds);
            var steps := SettledSteps(m, verdicts, k) + ([StopStep(m, verdicts, k)] + LaterSteps(m.children[k + 1..]));
            var c := Claims(Orders(m.children), steps);
            c.Some? && multiset(c.value) == ClassesTagged(Classify(m, verdicts, k))
  {
    hide Judge, Orders, Tagged, CompletedOf, IsolatedOf, Frozen, SettledSteps, StepClaims, Claims, StopStep, LaterSteps,
         ResultTagged, VerdictTagged, ClassesTagged, Classify, SettledResults, Identities, UnitsOf, ValidChild, Verdicts;
    assert m.children[k + 1..|m.children|] == m.children[k + 1..];
    SettledClaims(m, worlds, k);
    StopClaims(m, worlds, k);
    LaterClaims(m.children, k + 1, |m.children|);
    ClaimsOfThree(Orders(m.children), SettledSteps(m, Verdicts(m, worlds), k), StopStep(m, Verdicts(m, worlds), k),
                  LaterSteps(m.children[k + 1..]));
    StopTagged(m, worlds, k);
  }

  /** The claims rebuilt from a campaign's report are exactly its classes. */
  lemma OutcomeClaims(m: Manifest, worlds: seq<ChildWorld>, k: nat, recorded: bool)
    requires |worlds| == |m.children| && StopsAt(Verdicts(m, worlds), k)
    requires forall j | 0 <= j < |m.children| :: ValidChild(m.children[j], j)
    ensures var x := CampaignOutcome(m, Verdicts(m, worlds), k, recorded);
            var c := Claims(Orders(m.children), Steps(x));
            c.Some? && multiset(c.value) == ClassesTagged(Classify(m, Verdicts(m, worlds), k))
  {
    hide Judge, Orders, Tagged, CompletedOf, IsolatedOf, Frozen, SettledSteps, CampaignOutcome, Steps, StepClaims, Claims,
         StopStep, LaterSteps, ResultTagged, ClassesTagged, Classify, SettledResults, ValidChild;
    OutcomeSteps(m, worlds, k, recorded);
    if k == |m.children| {
      SettledClaims(m, worlds, k);
      FinishedTagged(m, Verdicts(m, worlds));
    } else {
      StoppedClaims(m, worlds, k);
    }
  }

  /** Adding the stopped batch and the untouched tail to the settled batches gives the classes. */
  lemma StopTagged(m: Manifest, worlds: seq<ChildWorld>, k: nat)
    requires |worlds| == |m.children| && StopsAt(Verdicts(m, worlds), k) && k < |m.children|
    ensures var v, results := Verdicts(m, worlds)[k], SettledResults(Verdicts(m, worlds), k);
            ClassesTagged(Classify(m, Verdicts(m, worlds), k))
            == Tagged(Success, CompletedOf(results)) + Tagged(Isolating, UnitsOf(IsolatedOf(results)))
               + VerdictTagged(v, m.children[k].units) + Tagged(Unattempted, Frozen(m.children[k + 1..]))
  {
    hide Judge, Tagged, CompletedOf, IsolatedOf, Frozen;
    var v, results := Verdicts(m, worlds)[k], SettledResults(Verdicts(m, worlds), k);
    var later := Frozen(m.children[k + 1..]);
    TaggedConcat(FailedUnit, [], []);
    TaggedConcat(Unattempted, m.children[k].units, later);
    TaggedConcat(Unknown, [], []);
    assert results + [] == results;
    if HasResult(v) {
      CountedSnoc(results, v.result);
      TaggedConcat(Success, CompletedOf(results), UnitsOf(v.result.completed));
      TaggedConcat(Isolating, UnitsOf(IsolatedOf(results)), UnitsOf(v.result.isolated));
      TaggedConcat(Unattempted, v.result.unattempted, later);
    }
  }

  lemma StepIdsConcat(s: seq<Step>, t: seq<Step>)
    ensures StepIds(s + t) == StepIds(s) + StepIds(t)
  {
  }

  lemma IdsOfSteps(m: Manifest, verdicts: seq<Verdict>, k: nat)
    requires k <= |verdicts| == |m.children| && StopsAt(verdicts, k)
    ensures StepIds(SettledSteps(m, verdicts, k)) == Ids(m.children[..k])
    ensures k < |m.children| ==> StepIds([StopStep(m, verdicts, k)]) == [m.children[k].batchId]
  {
  }

  lemma IdsOfLater(children: seq<Child>)
    ensures StepIds(LaterSteps(children)) == Ids(children)
  {
  }

  lemma IdsSplit(children: seq<Child>, k: nat)
    requires k <= |children|
    ensures k == |children| ==> Ids(children[..k]) == Ids(children)
    ensures k < |children| ==> Ids(children) == Ids(children[..k]) + ([children[k].batchId] + Ids(children[k + 1..]))
  {
  }

  lemma OutcomeIds(m: Manifest, worlds: seq<ChildWorld>, k: nat, recorded: bool)
    requires |worlds| == |m.children| && StopsAt(Verdicts(m, worlds), k)
    ensures var x := CampaignOutcome(m, Verdicts(m, worlds), k, recorded);
            && StepIds(Steps(x)) == Ids(m.children)
            && x.completedIds == Map((e: BatchEntry) => e.batchId, x.completed)
  {
    hide Judge, Verdicts, Classify, CampaignOutcome, Steps, StepIds, Ids, SettledSteps, StopStep, LaterSteps;
    var verdicts := Verdicts(m, worlds);
    OutcomeSteps(m, worlds, k, recorded);
    OutcomeCompleted(m, verdicts, k, recorded);
    IdsOfSteps(m, verdicts, k);
    IdsSplit(m.children, k);
    if k < |m.children| {
      IdsOfLater(m.children[k + 1..]);
      StepIdsConcat([StopStep(m, verdicts, k)], LaterSteps(m.children[k + 1..]));
      StepIdsConcat(SettledSteps(m, verdicts, k), [StopStep(m, verdicts, k)] + LaterSteps(m.children[k + 1..]));
    }
  }

  lemma OutcomeCompleted(m: Manifest, verdicts: seq<Verdict>, k: nat, recorded: bool)
    requires |verdicts| == |m.children| && StopsAt(verdicts, k)
    ensures var x := CampaignOutcome(m, verdicts, k, recorded);
            x.completedIds == Map((e: BatchEntry) => e.batchId, x.completed)
  {
    hide Classify;
  }

  lemma DistinctBatches(children: seq<Child>)
    requires forall j | 0 <= j < |children| :: ValidChild(children[j], j)
    ensures NoDup(Ids(children))
  {
    forall i, j | 0 <= i < j < |children| ensures Ids(children)[i] != Ids(children)[j] {
      assert ValidChild(children[i], i) && ValidChild(children[j], j);
    }
  }

  ghost function ClassIds(m: Manifest, c: Classes): seq<UnitId> {
    Identities(c.success) + Identities(UnitsOf(c.isolated)) + Identities(c.failed) + Identities(c.unattempted)
    + Identities(c.unknown) + KnownIds(Anomalies(m))
  }

  lemma IdentitiesPermuted(s: seq<Unit>, t: seq<Unit>)
    requires multiset(s) == multiset(t)
    ensures multiset(Identities(s)) == multiset(Identities(t))
  {
    var f := (u: Unit) => Identity(u);
    assert Identities(s) == Map(f, s) && Identities(t) == Map(f, t);
    MapPermuted(f, s, t);
  }

  /** The ids of all classes and the known isolations are a permutation of the universe. */
  lemma ClassIdsCover(m: Manifest, worlds: seq<ChildWorld>, k: nat)
    requires |worlds| == |m.children| && StopsAt(Verdicts(m, worlds), k)
    ensures multiset(ClassIds(m, Classify(m, Verdicts(m, worlds), k))) == multiset(Universe(m))
  {
    var c := Classify(m, Verdicts(m, worlds), k);
    Conservation(m, worlds, k);
    hide Judge, Frozen, Classify;
    var all := c.success + UnitsOf(c.isolated) + c.failed + c.unattempted + c.unknown;
    assert multiset(all) == AllUnits(c);
    IdentitiesPermuted(all, Frozen(m.children));
    KeysConcat(c.success, UnitsOf(c.isolated));
    KeysConcat(c.success + UnitsOf(c.isolated), c.failed);
    KeysConcat(c.success + UnitsOf(c.isolated) + c.failed, c.unattempted);
    KeysConcat(c.success + UnitsOf(c.isolated) + c.failed + c.unattempted, c.unknown);
  }

  function ClaimsOf(m: Manifest, c: Classes): seq<Claim> {
    Tag(Success, Identities(c.success)) + Tag(Isolating, Identities(UnitsOf(c.isolated)))
    + Tag(FailedUnit, Identities(c.failed)) + Tag(Unattempted, Identities(c.unattempted))
    + Tag(Unknown, Identities(c.unknown)) + Tag(Isolating, KnownIds(Anomalies(m)))
  }

  lemma ClaimsOfIds(m: Manifest, c: Classes)
    ensures ClaimIds(ClaimsOf(m, c)) == ClassIds(m, c)
  {
  }

  function IdsIn(m: Manifest, c: Classes, category: Category): seq<UnitId> {
    match category
    case Success => Identities(c.success)
    case Isolating => Identities(UnitsOf(c.isolated)) + KnownIds(Anomalies(m))
    case FailedUnit => Identities(c.failed)
    case Unattempted => Identities(c.unattempted)
    case Unknown => Identities(c.unknown)
  }

  lemma TagMembers(category: Category, ids: seq<UnitId>, k: Category)
    ensures Of(Tag(category, ids), k) == if k == category then Elems(ids) else {}
  {
    forall id | id in ids ensures Claim(category, id) in Tag(category, ids) {
      var i :| 0 <= i < |ids| && ids[i] == id;
      assert Tag(category, ids)[i] == Claim(category, id);
    }
  }

  lemma OfConcat(s: seq<Claim>, t: seq<Claim>, k: Category)
    ensures Of(s + t, k) == Of(s, k) + Of(t, k)
  {
    assert forall c :: c in s + t <==> c in s || c in t;
  }

  lemma OfPermuted(s: seq<Claim>, t: seq<Claim>, k: Category)
    requires multiset(s) == multiset(t)
    ensures Of(s, k) == Of(t, k)
  {
    forall c ensures c in s <==> c in t { assert c in multiset(s) <==> c in multiset(t); }
  }

  lemma OfClaims(m: Manifest, c: Classes, k: Category)
    ensures Of(ClaimsOf(m, c), k) == Elems(IdsIn(m, c, k))
  {
    var a, b, d := Tag(Success, Identities(c.success)), Tag(Isolating, Identities(UnitsOf(c.isolated))), Tag(FailedUnit, Identities(c.failed));
    var e, f, g := Tag(Unattempted, Identities(c.unattempted)), Tag(Unknown, Identities(c.unknown)), Tag(Isolating, KnownIds(Anomalies(m)));
    TagMembers(Success, Identities(c.success), k);
    TagMembers(Isolating, Identities(UnitsOf(c.isolated)), k);
    TagMembers(FailedUnit, Identities(c.failed), k);
    TagMembers(Unattempted, Identities(c.unattempted), k);
    TagMembers(Unknown, Identities(c.unknown), k);
    TagMembers(Isolating, KnownIds(Anomalies(m)), k);
    hide Of, Tag, Identities, KnownIds, UnitsOf, Anomalies;
    OfConcat(a, b, k);
    OfConcat(a + b, d, k);
    OfConcat(a + b + d, e, k);
    OfConcat(a + b + d + e, f, k);
    OfConcat(a + b + d + e + f, g, k);
  }

  lemma SubsequenceDistinct(s: seq<UnitId>, t: seq<UnitId>)
    requires multiset(s) <= multiset(t) && NoDup(t)
    ensures NoDup(s)
  {
    NoDupMultiset(s);
    NoDupMultiset(t);
    forall x ensures multiset(s)[x] <= 1 { assert multiset(s)[x] <= multiset(t)[x]; }
  }

  lemma ClassDistinct(m: Manifest, c: Classes, k: Category)
    requires NoDup(ClassIds(m, c))
    ensures NoDup(IdsIn(m, c, k))
  {
    hide Identities, KnownIds, UnitsOf, Anomalies;
    SubsequenceDistinct(IdsIn(m, c, k), ClassIds(m, c));
  }

  lemma ClaimIdsPermuted(s: seq<Claim>, t: seq<Claim>)
    requires multiset(s) == multiset(t)
    ensures multiset(ClaimIds(s)) == multiset(ClaimIds(t))
  {
    var f := (c: Claim) => c.id;
    assert ClaimIds(s) == Map(f, s) && ClaimIds(t) == Map(f, t);
    MapPermuted(f, s, t);
  }

  lemma ClaimsOfTagged(m: Manifest, c: Classes)
    ensures multiset(ClaimsOf(m, c)) == ClassesTagged(c) + multiset(Tag(Isolating, KnownIds(Anomalies(m))))
  {
    hide Tag, Identities, KnownIds, UnitsOf, Anomalies;
  }

  /** Whatever claims are rebuilt from a report, if they are its classes then, together with the known
      isolations, they are admissible, cover the universe, and put the right ids in each category. */
  lemma ClassesAdmissible(m: Manifest, c: Classes, claims: seq<Claim>)
    requires NoDup(Universe(m)) && multiset(ClassIds(m, c)) == multiset(Universe(m))
    requires multiset(claims) == ClassesTagged(c)
    ensures var all := claims + Tag(Isolating, KnownIds(Anomalies(m)));
            && Admissible(all, Elems(Universe(m))) && Elems(ClaimIds(all)) == Elems(Universe(m))
            && (forall k: Category :: Of(all, k) == Elems(IdsIn(m, c, k)) && |Of(all, k)| == |IdsIn(m, c, k)|)
    ensures Of(claims, Isolating) + Elems(KnownIds(Anomalies(m))) == Elems(IdsIn(m, c, Isolating))
  {
    hide Universe, ClaimsOf, ClassesTagged, ClassIds, IdsIn, Of, KnownIds, Anomalies, ClaimIds, Tag;
    var known := Tag(Isolating, KnownIds(Anomalies(m)));
    var all := claims + known;
    ClaimsOfTagged(m, c);
    assert multiset(all) == multiset(ClaimsOf(m, c));
    ClaimIdsPermuted(all, ClaimsOf(m, c));
    ClaimsOfIds(m, c);
    NoDupPermutation(ClaimIds(all), Universe(m));
    NoDupPermutation(ClassIds(m, c), Universe(m));
    forall k: Category ensures Of(all, k) == Elems(IdsIn(m, c, k)) && |Of(all, k)| == |IdsIn(m, c, k)| {
      OfPermuted(all, ClaimsOf(m, c), k);
      OfClaims(m, c, k);
      ClassDistinct(m, c, k);
      NoDupSize(IdsIn(m, c, k));
    }
    OfConcat(claims, known, Isolating);
    TagMembers(Isolating, KnownIds(Anomalies(m)), Isolating);
  }

  /** The reported isolations are the known ones and then the new ones. */
  lemma ReportedIsolations(m: Manifest, c: Classes, isolated: seq<Known>)
    requires isolated == Anomalies(m) + Map(KnownOf, c.isolated)
    ensures KnownIds(isolated) == KnownIds(Anomalies(m)) + Identities(UnitsOf(c.isolated))
    ensures Elems(KnownIds(isolated)) == Elems(IdsIn(m, c, Isolating))
    ensures NoDup(IdsIn(m, c, Isolating)) ==> NoDup(KnownIds(isolated))
    ensures |IdsIn(m, c, Isolating)| == |isolated|
  {
    var a, b := KnownIds(Anomalies(m)), Identities(UnitsOf(c.isolated));
    assert KnownIds(isolated) == a + b;
    assert IdsIn(m, c, Isolating) == b + a;
    NoDupPermutation(a + b, b + a);
  }

  /** A campaign can be settled by the daily verification exactly when it has no partial source
      exception and recovers daily units only. */
  ghost predicate Settleable(m: Manifest) {
    m.exceptions == [] && forall u | u in Frozen(m.children) :: u.frequency == "1d"
  }

  lemma HeaderIsAccepted(m: Manifest, worlds: seq<ChildWorld>, k: nat, recorded: bool)
    requires |worlds| == |m.children| && StopsAt(Verdicts(m, worlds), k) && ValidManifest(m)
    ensures HeaderAccepted(m, CampaignOutcome(m, Verdicts(m, worlds), k, recorded), true) <==> Settleable(m)
  {
    SummaryConserves(m, worlds, k, recorded);
    DistinctBatches(m.children);
    hide Verdicts, Classify, FailedEntry, UnknownEntry, SettledEntries, Frozen, Anomalies, StopsAt, Elems, Later;
  }

  lemma OutcomeCounts(m: Manifest, verdicts: seq<Verdict>, k: nat, recorded: bool)
    requires |verdicts| == |m.children| && StopsAt(verdicts, k)
    ensures var x, c := CampaignOutcome(m, verdicts, k, recorded), Classify(m, verdicts, k);
            && x.isolated == Anomalies(m) + Map(KnownOf, c.isolated)
            && forall category: Category :: |IdsIn(m, c, category)| == Count(x.summary, category)
  {
    hide Classify, FailedEntry, UnknownEntry, SettledEntries, Anomalies, Later, StopsAt;
    var x, c := CampaignOutcome(m, verdicts, k, recorded), Classify(m, verdicts, k);
    ReportedIsolations(m, c, x.isolated);
  }

  /** End to end: for every valid campaign and every behaviour of guards, children, batches and disks,
      the independent settlement accepts the campaign's own report if and only if the campaign is one
      it can settle at all; it then calls the campaign complete exactly when the campaign passed. */
  lemma EndToEnd(m: Manifest, worlds: seq<ChildWorld>, k: nat, recorded: bool)
    requires |worlds| == |m.children| && StopsAt(Verdicts(m, worlds), k) && ValidManifest(m)
    ensures var x := CampaignOutcome(m, Verdicts(m, worlds), k, recorded);
            && (ExecutionAccepted(m, x, true) <==> Settleable(m))
            && (Settleable(m) ==> (Complete(x) <==> x.status.CampaignPassed?))
  {
    var x, c := CampaignOutcome(m, Verdicts(m, worlds), k, recorded), Classify(m, Verdicts(m, worlds), k);
    assert NoDup(Universe(m)) && forall j | 0 <= j < |m.children| :: ValidChild(m.children[j], j);
    assert !x.status.NotRequired? by { hide Classify, FailedEntry, UnknownEntry, Anomalies; }
    HeaderIsAccepted(m, worlds, k, recorded);
    DistinctBatches(m.children);
    if x.status.CampaignPassed? { PassedMeansEverySuccess(m, worlds, k, recorded); }
    hide Classify, CampaignOutcome, ValidManifest, Verdicts, ValidChild, Steps, Orders, Claims, HeaderAccepted, Settleable,
         ClassIds, ClassesTagged, IdsIn, Universe, KnownIds, Of, Admissible, Anomalies, Tag, Count, StopsAt, ClaimIds, Elems;
    OutcomeIds(m, worlds, k, recorded);
    OutcomeClaims(m, worlds, k, recorded);
    OutcomeCounts(m, Verdicts(m, worlds), k, recorded);
    ClassIdsCover(m, worlds, k);
    NoDupPermutation(ClassIds(m, c), Universe(m));
    ClassesAdmissible(m, c, Claims(Orders(m.children), Steps(x)).value);
    ClassDistinct(m, c, Isolating);
    ReportedIsolations(m, c, x.isolated);
  }
}
