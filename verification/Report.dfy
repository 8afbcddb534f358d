/**
 * The native readiness report a campaign starts from: every owner interval of an enumerated product
 * and section must be covered by exactly one dependency, and the repair targets must be exactly what
 * the downloadable dependencies ask for.
 */
module Report {
  import opened Wrappers
  import opened Seqs

  datatype Section = Chart | Auxiliary | Reference

  /** A contract interval that needs data. */
  datatype Owner = Owner(contract: string, since: int, through: int)

  datatype Consumer = Consumer(strategy: string, section: Section)

  datatype Dependency = Dependency(
    symbol: string, contract: string, through: int, asOf: int,
    consumers: seq<Consumer>, owners: seq<Owner>, downloadable: bool)

  datatype Repair = Repair(symbol: string, contract: string, through: int, consumers: seq<Consumer>)

  /** A product section whose owners were enumerated. */
  datatype Enumeration = Enumeration(symbol: string, section: Section)

  datatype Asset = Asset(symbol: string, contract: string)

  function SectionsOf(consumers: seq<Consumer>): set<Section> {
    set c | c in consumers :: c.section
  }

  /** Every strategy consumes every section that any does, and no consumer is listed twice. */
  ghost predicate ConsumersOk(consumers: seq<Consumer>, strategies: set<string>) {
    && consumers != [] && NoDup(consumers)
    && forall c :: c in consumers <==> c.strategy in strategies && c.section in SectionsOf(consumers)
  }

  /** Owner intervals of a dependency belong to its contract, end with it, and are distinct. */
  ghost predicate OwnersOk(d: Dependency) {
    && d.owners != [] && NoDup(d.owners)
    && forall o | o in d.owners :: o.contract == d.contract && o.since <= o.through == d.through
  }

  ghost predicate DependencyOk(d: Dependency, products: set<string>, strategies: set<string>, asOf: int) {
    && d.symbol in products && d.through <= asOf && d.asOf <= asOf
    && ConsumersOk(d.consumers, strategies) && OwnersOk(d)
  }

  /** What makes two dependencies the same entry. */
  datatype Identity = Identity(symbol: string, contract: string, through: int, asOf: int)

  function Identities(dependencies: seq<Dependency>): seq<Identity> {
    Map((d: Dependency) => Identity(d.symbol, d.contract, d.through, d.asOf), dependencies)
  }

  predicate Covers(d: Dependency, e: Enumeration) {
    d.symbol == e.symbol && e.section in SectionsOf(d.consumers)
  }

  /** All owner intervals the dependencies give one product section, in order. */
  function OwnersFor(dependencies: seq<Dependency>, e: Enumeration): seq<Owner> {
    if dependencies == [] then []
    else
      var last := dependencies[|dependencies| - 1];
      OwnersFor(dependencies[..|dependencies| - 1], e) + if Covers(last, e) then last.owners else []
  }

  function AssetOf(d: Dependency): Asset { Asset(d.symbol, d.contract) }

  /** The latest through of the downloadable dependencies of one asset. */
  function Latest(dependencies: seq<Dependency>, a: Asset): Option<int> {
    if dependencies == [] then None
    else
      var before, last := Latest(dependencies[..|dependencies| - 1], a), dependencies[|dependencies| - 1];
      if last.downloadable && AssetOf(last) == a && (before.None? || last.through > before.value)
      then Some(last.through) else before
  }

  /** Everyone a downloadable dependency of the asset serves. */
  function Served(dependencies: seq<Dependency>, a: Asset): set<Consumer> {
    if dependencies == [] then {}
    else
      var last := dependencies[|dependencies| - 1];
      Served(dependencies[..|dependencies| - 1], a)
      + if last.downloadable && AssetOf(last) == a then Elems(last.consumers) else {}
  }

  function RepairAsset(r: Repair): Asset { Asset(r.symbol, r.contract) }

  function RepairAssets(repairs: seq<Repair>): seq<Asset> {
    Map((r: Repair) => RepairAsset(r), repairs)
  }

  ghost predicate RepairOk(r: Repair, dependencies: seq<Dependency>) {
    && Latest(dependencies, RepairAsset(r)) == Some(r.through)
    && NoDup(r.consumers) && Elems(r.consumers) == Served(dependencies, RepairAsset(r))
  }

  ghost predicate DependenciesOk(dependencies: seq<Dependency>, products: set<string>, strategies: set<string>, asOf: int) {
    forall d | d in dependencies :: DependencyOk(d, products, strategies, asOf)
  }

  datatype Sections = Sections(
    products: set<string>, strategies: set<string>, asOf: int, enumerated: map<Enumeration, nat>,
    dependencies: seq<Dependency>, repairs: seq<Repair>, workUsed: int)

  /** What the section check accepts. */
  ghost predicate SectionsAccepted(s: Sections) {
    && DependenciesOk(s.dependencies, s.products, s.strategies, s.asOf)
    && NoDup(Identities(s.dependencies))
    && (forall e | e in s.enumerated ::
          NoDup(OwnersFor(s.dependencies, e)) && |OwnersFor(s.dependencies, e)| == s.enumerated[e])
    && (forall r | r in s.repairs :: RepairOk(r, s.dependencies))
    && (forall a: Asset :: a in Elems(RepairAssets(s.repairs)) <==> Latest(s.dependencies, a).Some?)
    && s.workUsed == |s.enumerated| + |s.dependencies| + |s.repairs|
  }

  // ----- what the running totals mean -----

  lemma OwnersNext(dependencies: seq<Dependency>, i: nat, e: Enumeration)
    requires i < |dependencies|
    ensures OwnersFor(dependencies[..i + 1], e)
         == OwnersFor(dependencies[..i], e) + if Covers(dependencies[i], e) then dependencies[i].owners else []
  {
    assert dependencies[..i + 1][..i] == dependencies[..i];
  }

  lemma DownloadsNext(dependencies: seq<Dependency>, i: nat, a: Asset)
    requires i < |dependencies|
    ensures var d, before := dependencies[i], Latest(dependencies[..i], a);
            && Latest(dependencies[..i + 1], a)
               == (if d.downloadable && AssetOf(d) == a && (before.None? || d.through > before.value) then Some(d.through) else before)
            && Served(dependencies[..i + 1], a)
               == Served(dependencies[..i], a) + if d.downloadable && AssetOf(d) == a then Elems(d.consumers) else {}
  {
    assert dependencies[..i + 1][..i] == dependencies[..i];
  }

  /** The latest through of an asset is reached by one of its downloadable dependencies and by none
      exceeded. */
  lemma {:induction false} LatestIsLatest(dependencies: seq<Dependency>, a: Asset)
    ensures Latest(dependencies, a).Some? <==> exists d :: d in dependencies && d.downloadable && AssetOf(d) == a
    ensures Latest(dependencies, a).Some? ==>
              && (exists d :: d in dependencies && d.downloadable && AssetOf(d) == a && d.through == Latest(dependencies, a).value)
              && forall d | d in dependencies && d.downloadable && AssetOf(d) == a :: d.through <= Latest(dependencies, a).value
    ensures forall c :: c in Served(dependencies, a)
                   <==> exists d :: d in dependencies && d.downloadable && AssetOf(d) == a && c in d.consumers
  {
    if dependencies != [] {
      var n := |dependencies| - 1;
      LatestIsLatest(dependencies[..n], a);
      var last := dependencies[n];
      assert dependencies == dependencies[..n] + [last];
      assert last in dependencies;
    }
  }

  /** The two totals the source keeps, a set of owners and a count of them, agree exactly when no owner
      interval is given twice. */
  lemma CountsAgree(owners: seq<Owner>, count: nat)
    ensures |Elems(owners)| == count && |owners| == count <==> NoDup(owners) && |owners| == count
  {
    NoDupSize(owners);
  }

  // ----- the methods -----

  method CheckConsumers(consumers: seq<Consumer>, strategies: set<string>) returns (ok: bool)
    ensures ok <==> ConsumersOk(consumers, strategies)
  {
    var distinct, seen := AddDistinct(consumers, [], {});
    assert [] + consumers == consumers;
    var sections := SectionsOf(consumers);
    var expected := set strategy, section | strategy in strategies && section in sections :: Consumer(strategy, section);
    ok := consumers != [] && distinct && seen == expected;
    if distinct {
      assert forall c :: c in expected <==> c.strategy in strategies && c.section in sections;
      assert forall c :: c in seen <==> c in consumers;
    }
  }

  method CheckOwners(d: Dependency) returns (ok: bool)
    ensures ok <==> OwnersOk(d)
  {
    var distinct := Distinct(d.owners);
    ok := d.owners != [] && distinct && forall o | o in d.owners :: o.contract == d.contract && o.since <= o.through == d.through;
  }

  function Get<K, V>(m: map<K, V>, k: K, default: V): V {
    if k in m then m[k] else default
  }

  /** The running totals of the dependency loop. */
  datatype Totals = Totals(
    covered: map<Enumeration, set<Owner>>, counts: map<Enumeration, nat>,
    through: map<Asset, int>, served: map<Asset, set<Consumer>>)

  ghost predicate CoverageIs(t: Totals, dependencies: seq<Dependency>) {
    forall e :: Get(t.covered, e, {}) == Elems(OwnersFor(dependencies, e)) && Get(t.counts, e, 0) == |OwnersFor(dependencies, e)|
  }

  ghost predicate DownloadsAre(t: Totals, dependencies: seq<Dependency>) {
    forall a :: (a in t.through <==> Latest(dependencies, a).Some?)
             && (a in t.through ==> Some(t.through[a]) == Latest(dependencies, a))
             && Get(t.served, a, {}) == Served(dependencies, a)
  }

  /** What a dependency adds to one enumerated section. */
  function Added(d: Dependency, e: Enumeration): (set<Owner>, nat) {
    if Covers(d, e) then (Elems(d.owners), |d.owners|) else ({}, 0)
  }

  method CoverSection(t: Totals, d: Dependency, section: Section) returns (t': Totals)
    ensures t'.through == t.through && t'.served == t.served
    ensures forall e :: var own := e == Enumeration(d.symbol, section);
              && Get(t'.covered, e, {}) == Get(t.covered, e, {}) + (if own then Added(d, e).0 else {})
              && Get(t'.counts, e, 0) == Get(t.counts, e, 0) + if own then Added(d, e).1 else 0
  {
    var e := Enumeration(d.symbol, section);
    t' := t;
    if section in SectionsOf(d.consumers) {
      t' := t.(covered := t.covered[e := Get(t.covered, e, {}) + Elems(d.owners)],
               counts := t.counts[e := Get(t.counts, e, 0) + |d.owners|]);
    }
  }

  method CoverSections(t: Totals, d: Dependency) returns (t': Totals)
    ensures t'.through == t.through && t'.served == t.served
    ensures forall e :: && Get(t'.covered, e, {}) == Get(t.covered, e, {}) + Added(d, e).0
                        && Get(t'.counts, e, 0) == Get(t.counts, e, 0) + Added(d, e).1
  {
    hide Added;
    var t1 := CoverSection(t, d, Chart);
    var t2 := CoverSection(t1, d, Auxiliary);
    t' := CoverSection(t2, d, Reference);
    forall e
      ensures Get(t'.covered, e, {}) == Get(t.covered, e, {}) + Added(d, e).0
      ensures Get(t'.counts, e, 0) == Get(t.counts, e, 0) + Added(d, e).1
    {
      if e.symbol != d.symbol { NotCovered(d, e); }
      match e.section { case Chart => case Auxiliary => case Reference => }
    }
  }

  lemma NotCovered(d: Dependency, e: Enumeration)
    requires e.symbol != d.symbol
    ensures Added(d, e) == ({}, 0)
  {
  }

  method AddDependency(t: Totals, ghost dependencies: seq<Dependency>, ghost i: nat, d: Dependency) returns (t': Totals)
    requires i < |dependencies| && d == dependencies[i]
    requires CoverageIs(t, dependencies[..i]) && DownloadsAre(t, dependencies[..i])
    ensures CoverageIs(t', dependencies[..i + 1]) && DownloadsAre(t', dependencies[..i + 1])
  {
    hide CoverageIs, DownloadsAre, Added;
    var covered := CoverSections(t, d);
    Covered(t, covered, dependencies, i);
    var a := AssetOf(d);
    t' := covered;
    if d.downloadable {
      if a !in t.through || d.through > t.through[a] {
        t' := t'.(through := t'.through[a := d.through]);
      }
      t' := t'.(served := t'.served[a := Get(t'.served, a, {}) + Elems(d.consumers)]);
    }
    CoverageOnly(covered, t', dependencies[..i + 1]);
    Downloaded(t, t', dependencies, i);
  }

  lemma CoverageOnly(t: Totals, t': Totals, dependencies: seq<Dependency>)
    requires CoverageIs(t, dependencies) && t'.covered == t.covered && t'.counts == t.counts
    ensures CoverageIs(t', dependencies)
  {
  }

  lemma Covered(t: Totals, t': Totals, dependencies: seq<Dependency>, i: nat)
    requires i < |dependencies| && CoverageIs(t, dependencies[..i])
    requires forall e :: && Get(t'.covered, e, {}) == Get(t.covered, e, {}) + Added(dependencies[i], e).0
                         && Get(t'.counts, e, 0) == Get(t.counts, e, 0) + Added(dependencies[i], e).1
    ensures CoverageIs(t', dependencies[..i + 1])
  {
    forall e ensures Get(t'.covered, e, {}) == Elems(OwnersFor(dependencies[..i + 1], e))
                  && Get(t'.counts, e, 0) == |OwnersFor(dependencies[..i + 1], e)|
    {
      OwnersNext(dependencies, i, e);
    }
  }

  lemma Downloaded(t: Totals, t': Totals, dependencies: seq<Dependency>, i: nat)
    requires i < |dependencies| && DownloadsAre(t, dependencies[..i])
    requires var d, a := dependencies[i], AssetOf(dependencies[i]);
             if d.downloadable
             then && t'.through == (if a !in t.through || d.through > t.through[a] then t.through[a := d.through] else t.through)
                  && t'.served == t.served[a := Get(t.served, a, {}) + Elems(d.consumers)]
             else t'.through == t.through && t'.served == t.served
    ensures DownloadsAre(t', dependencies[..i + 1])
  {
    forall a
      ensures (a in t'.through <==> Latest(dependencies[..i + 1], a).Some?)
           && (a in t'.through ==> Some(t'.through[a]) == Latest(dependencies[..i + 1], a))
           && Get(t'.served, a, {}) == Served(dependencies[..i + 1], a)
    {
      DownloadsNext(dependencies, i, a);
    }
  }

  method CheckDependency(d: Dependency, products: set<string>, strategies: set<string>, asOf: int) returns (ok: bool)
    ensures ok <==> DependencyOk(d, products, strategies, asOf)
  {
    hide ConsumersOk, OwnersOk;
    if d.symbol !in products || d.through > asOf || d.asOf > asOf {
      return false;
    }
    ok := CheckConsumers(d.consumers, strategies);
    if ok {
      ok := CheckOwners(d);
    }
  }

  method ReadDependencies(s: Sections) returns (ok: bool, t: Totals)
    ensures ok <==> DependenciesOk(s.dependencies, s.products, s.strategies, s.asOf) && NoDup(Identities(s.dependencies))
    ensures ok ==> CoverageIs(t, s.dependencies) && DownloadsAre(t, s.dependencies)
  {
    hide CoverageIs, DownloadsAre, DependencyOk, DependenciesOk, Identities, NoDup, Elems;
    ok, t := false, Totals(map[], map[], map[], map[]);
    NothingRead();
    var distinct := Distinct(Identities(s.dependencies));
    if !distinct {
      return;
    }
    assert s.dependencies[..0] == [];
    for i := 0 to |s.dependencies|
      invariant DependenciesOk(s.dependencies[..i], s.products, s.strategies, s.asOf)
      invariant CoverageIs(t, s.dependencies[..i]) && DownloadsAre(t, s.dependencies[..i])
    {
      var d := s.dependencies[i];
      DependenciesNext(s.dependencies, i, s.products, s.strategies, s.asOf);
      var accepted := CheckDependency(d, s.products, s.strategies, s.asOf);
      if !accepted {
        return;
      }
      t := AddDependency(t, s.dependencies, i, d);
    }
    assert s.dependencies[..|s.dependencies|] == s.dependencies;
    ok := true;
  }

  lemma DependenciesNext(dependencies: seq<Dependency>, i: nat, products: set<string>, strategies: set<string>, asOf: int)
    requires i < |dependencies|
    ensures DependenciesOk(dependencies[..i + 1], products, strategies, asOf)
       <==> DependenciesOk(dependencies[..i], products, strategies, asOf) && DependencyOk(dependencies[i], products, strategies, asOf)
    ensures DependenciesOk(dependencies, products, strategies, asOf) ==> DependencyOk(dependencies[i], products, strategies, asOf)
  {
    assert dependencies[..i + 1] == dependencies[..i] + [dependencies[i]];
    assert dependencies[i] in dependencies;
  }

  lemma NothingRead()
    ensures forall products, strategies, asOf :: DependenciesOk([], products, strategies, asOf)
    ensures CoverageIs(Totals(map[], map[], map[], map[]), []) && DownloadsAre(Totals(map[], map[], map[], map[]), [])
  {
  }

  method CheckRepairs(s: Sections, t: Totals) returns (ok: bool)
    requires DownloadsAre(t, s.dependencies)
    ensures ok <==> && (forall r | r in s.repairs :: RepairOk(r, s.dependencies))
                    && (forall a: Asset :: a in Elems(RepairAssets(s.repairs)) <==> Latest(s.dependencies, a).Some?)
  {
    hide Latest, Served;
    ok := false;
    for i := 0 to |s.repairs|
      invariant forall j | 0 <= j < i :: RepairOk(s.repairs[j], s.dependencies)
    {
      var r := s.repairs[i];
      assert r in s.repairs;
      var a := RepairAsset(r);
      NoDupSize(r.consumers);
      if a !in t.through || r.through != t.through[a] || |Elems(r.consumers)| != |r.consumers|
         || Elems(r.consumers) != Get(t.served, a, {})
      {
        return;
      }
    }
    ok := Elems(RepairAssets(s.repairs)) == t.through.Keys;
  }

  method ValidateSections(s: Sections) returns (ok: bool)
    ensures ok <==> SectionsAccepted(s)
  {
    hide DependencyOk, DependenciesOk, RepairOk, OwnersFor, Latest, CoverageIs, DownloadsAre;
    var read, t := ReadDependencies(s);
    if !read {
      return false;
    }
    CoverageMeans(t, s.dependencies);
    forall e | e in s.enumerated { CountsAgree(OwnersFor(s.dependencies, e), s.enumerated[e]); }
    if exists e :: e in s.enumerated && (|Get(t.covered, e, {})| != s.enumerated[e] || Get(t.counts, e, 0) != s.enumerated[e]) {
      return false;
    }
    var repairs := CheckRepairs(s, t);
    ok := repairs && s.workUsed == |s.enumerated| + |s.dependencies| + |s.repairs|;
  }

  lemma CoverageMeans(t: Totals, dependencies: seq<Dependency>)
    requires CoverageIs(t, dependencies)
    ensures forall e :: Get(t.covered, e, {}) == Elems(OwnersFor(dependencies, e)) && Get(t.counts, e, 0) == |OwnersFor(dependencies, e)|
  {
  }

  // ----- what acceptance means -----

  /** A dependency gives the section of an enumeration one of its owner intervals. */
  predicate Gives(d: Dependency, e: Enumeration, o: Owner) {
    Covers(d, e) && o in d.owners
  }

  /** Exact coverage: in an accepted report every owner interval of an enumerated product section comes from
      one dependency only, and the intervals number exactly its owner count, however many dependencies
      serve the section. */
  lemma AcceptedCoversExactly(s: Sections, e: Enumeration)
    requires SectionsAccepted(s) && e in s.enumerated
    ensures forall i, j, o | 0 <= i < j < |s.dependencies| && Gives(s.dependencies[i], e, o) :: !Gives(s.dependencies[j], e, o)
    ensures var given := Elems(OwnersFor(s.dependencies, e));
            && |given| == s.enumerated[e]
            && forall o :: o in given <==> exists i :: 0 <= i < |s.dependencies| && Gives(s.dependencies[i], e, o)
  {
    NoDupSize(OwnersFor(s.dependencies, e));
    forall i, j, o | 0 <= i < j < |s.dependencies| && Gives(s.dependencies[i], e, o) ensures !Gives(s.dependencies[j], e, o) {
      if Gives(s.dependencies[j], e, o) { CoveredOnce(s.dependencies, e, i, j, o); }
    }
    forall o
      ensures o in OwnersFor(s.dependencies, e) <==> exists i :: 0 <= i < |s.dependencies| && Gives(s.dependencies[i], e, o)
    {
      GivenBy(s.dependencies, e, o);
    }
  }

  lemma {:induction false} GivenBy(dependencies: seq<Dependency>, e: Enumeration, o: Owner)
    ensures o in OwnersFor(dependencies, e) <==> exists i :: 0 <= i < |dependencies| && Gives(dependencies[i], e, o)
  {
    if dependencies != [] {
      var n := |dependencies| - 1;
      GivenBy(dependencies[..n], e, o);
      assert forall i | 0 <= i < n :: dependencies[..n][i] == dependencies[i];
    }
  }

  lemma {:induction false} CoveredMember(dependencies: seq<Dependency>, e: Enumeration, i: nat, o: Owner)
    requires i < |dependencies| && Covers(dependencies[i], e) && o in dependencies[i].owners
    ensures o in OwnersFor(dependencies, e)
  {
    var n := |dependencies| - 1;
    if i < n { CoveredMember(dependencies[..n], e, i, o); }
  }

  lemma {:induction false} CoveredOnce(dependencies: seq<Dependency>, e: Enumeration, i: nat, j: nat, o: Owner)
    requires i < j < |dependencies| && Covers(dependencies[i], e) && Covers(dependencies[j], e)
    requires o in dependencies[i].owners && o in dependencies[j].owners
    ensures !NoDup(OwnersFor(dependencies, e))
  {
    var n := |dependencies| - 1;
    var before, last := OwnersFor(dependencies[..n], e), if Covers(dependencies[n], e) then dependencies[n].owners else [];
    NoDupConcat(before, last);
    if j < n {
      CoveredOnce(dependencies[..n], e, i, j, o);
    } else {
      CoveredMember(dependencies[..n], e, i, o);
      assert o in Elems(before) && o in Elems(last);
    }
  }

  /** A downloadable dependency of an asset. */
  predicate Downloads(d: Dependency, a: Asset) {
    d.downloadable && AssetOf(d) == a
  }

  /** A repair of an asset asks exactly for what its downloadable dependencies ask for: it reaches as far as
      the one that reaches farthest, and serves, each once, all their consumers and no others. */
  ghost predicate Meets(r: Repair, dependencies: seq<Dependency>) {
    var a := RepairAsset(r);
    && (exists d :: d in dependencies && Downloads(d, a) && d.through == r.through)
    && (forall d | d in dependencies && Downloads(d, a) :: d.through <= r.through)
    && NoDup(r.consumers)
    && (forall c :: c in r.consumers <==> exists d :: d in dependencies && Downloads(d, a) && c in d.consumers)
  }

  lemma OkMeets(r: Repair, dependencies: seq<Dependency>)
    requires RepairOk(r, dependencies)
    ensures Meets(r, dependencies)
  {
    var a := RepairAsset(r);
    LatestIsLatest(dependencies, a);
    forall c ensures c in r.consumers <==> exists d :: d in dependencies && Downloads(d, a) && c in d.consumers {
      assert c in r.consumers <==> c in Elems(r.consumers);
    }
    assert exists d :: d in dependencies && Downloads(d, a) && d.through == r.through;
  }

  /** Accepted repairs ask for exactly what is downloadable: an asset is repaired if and only if it has a
      downloadable dependency, and every repair meets its asset's dependencies. */
  lemma RepairsAreWhatIsMissing(s: Sections)
    requires SectionsAccepted(s)
    ensures forall a :: a in RepairAssets(s.repairs) <==> exists d :: d in s.dependencies && Downloads(d, a)
    ensures forall r | r in s.repairs :: Meets(r, s.dependencies)
  {
    forall a ensures a in RepairAssets(s.repairs) <==> exists d :: d in s.dependencies && Downloads(d, a) {
      LatestIsLatest(s.dependencies, a);
      assert a in RepairAssets(s.repairs) <==> a in Elems(RepairAssets(s.repairs));
      assert (exists d :: d in s.dependencies && d.downloadable && AssetOf(d) == a)
        <==> exists d :: d in s.dependencies && Downloads(d, a);
    }
    forall r | r in s.repairs ensures Meets(r, s.dependencies) { OkMeets(r, s.dependencies); }
  }

  /** The section check alone does not make repairs one-to-one: it accepts any accepted report with one
      of its repairs listed once more and the work counted accordingly. */
  lemma RepeatedRepairAccepted(s: Sections, r: Repair)
    requires SectionsAccepted(s) && r in s.repairs
    ensures SectionsAccepted(s.(repairs := s.repairs + [r], workUsed := s.workUsed + 1))
  {
    var t := s.(repairs := s.repairs + [r], workUsed := s.workUsed + 1);
    assert RepairAssets(t.repairs) == RepairAssets(s.repairs) + [RepairAsset(r)];
    var i :| 0 <= i < |s.repairs| && s.repairs[i] == r;
    assert RepairAssets(s.repairs)[i] == RepairAsset(r);
    hide DependencyOk, DependenciesOk, OwnersFor, Latest, RepairOk;
    assert Elems(RepairAssets(t.repairs)) == Elems(RepairAssets(s.repairs));
  }

  /** With the caller's own check the repairs and the downloadable assets correspond one to one. */
  method ValidatedReportTargets(s: Sections) returns (ok: bool)
    ensures ok <==> SectionsAccepted(s) && NoDup(RepairAssets(s.repairs))
  {
    var distinct := Distinct(RepairAssets(s.repairs));
    if !distinct {
      return false;
    }
    ok := ValidateSections(s);
  }

  /** The position is the only repair of the asset. */
  ghost predicate OnlyRepair(repairs: seq<Repair>, i: nat, a: Asset) {
    i < |repairs| && RepairAsset(repairs[i]) == a
    && forall j | 0 <= j < |repairs| && RepairAsset(repairs[j]) == a :: j == i
  }

  /** In what the caller accepts, repairs and downloadable assets correspond one to one: an asset has a
      downloadable dependency if and only if exactly one repair is its own, and that repair asks for the
      latest through and the union of the consumers. */
  lemma RepairsOneToOne(s: Sections, a: Asset)
    requires SectionsAccepted(s) && NoDup(RepairAssets(s.repairs))
    ensures (exists d :: d in s.dependencies && Downloads(d, a)) <==> exists i: nat :: OnlyRepair(s.repairs, i, a)
    ensures forall i: nat | OnlyRepair(s.repairs, i, a) :: Meets(s.repairs[i], s.dependencies)
  {
    RepairsAreWhatIsMissing(s);
    hide SectionsAccepted, Meets, Downloads;
    var assets := RepairAssets(s.repairs);
    if a in assets {
      var i :| 0 <= i < |assets| && assets[i] == a;
      forall j | 0 <= j < |s.repairs| && RepairAsset(s.repairs[j]) == a ensures j == i { assert assets[j] == a; }
      assert OnlyRepair(s.repairs, i, a);
    }
    forall i: nat | OnlyRepair(s.repairs, i, a) ensures a in assets && Meets(s.repairs[i], s.dependencies) {
      assert assets[i] == a;
      assert s.repairs[i] in s.repairs;
    }
  }
}
