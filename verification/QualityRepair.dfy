/**
 * The weekly quality repair: prepare drops proven bad weeks from stored months, apply switches the
 * catalog to the candidates in one transaction, inspect says where the catalog stands, and restore
 * puts the exact old pointers back.
 */
module QualityRepair {
  import opened Wrappers
  import opened Seqs
  import opened Bars
  import opened Overlay
  import opened Realign

  const WEEK := 7

  datatype Coverage = Coverage(start: int, end: int, sourceStart: int, sourceEnd: int)

  /** A catalog row, and the file it points to on disk. */
  datatype Pointer = Pointer(name: FileName, rows: nat, coverage: Coverage, quality: Option<nat>)
  datatype File = File(key: Key, name: FileName)
  type Pointers = map<Key, Pointer>
  type Disk = map<File, Digest>

  datatype Store = Store(pointers: Pointers, disk: Disk)

  /** A partition as it was seen: its row and the content of its file. */
  datatype Image = Image(pointer: Pointer, sha: Digest)

  datatype Record = Record(
    key: Key, was: Image, removed: seq<Date>, retained: seq<Date>, oldCount: nat, newCount: nat, candidate: Option<Image>)

  datatype Packet = Packet(sources: map<Key, Image>, months: seq<Record>)

  /** What a repair is about: the weeks to drop per month, the expected week ends, the daily
      partitions that prove it, and whether they do. */
  datatype Target = Target(key: Key, removed: seq<Date>)
  datatype Scope = Scope(targets: seq<Target>, ends: map<Date, int>, sources: set<Key>, proven: bool)

  const FILE_MISSING := "FILE_MISSING"
  const PROOF_INVALID := "W1_INTERRUPTION_PROOF_INVALID"
  const D1_MISSING := "D1_PARTITION_MISSING"
  const IDENTITY_INVALID := "W1_PARTITION_IDENTITY_INVALID"
  const UNREADABLE := "PARTITION_CATALOG_MISMATCH"
  const ROWS_MOVED := "W1_TARGET_ROWS_MOVED"
  const ENDPOINT_MOVED := "W1_TARGET_ENDPOINT_MOVED"
  const DIFF_INVALID := "W1_MONTH_DIFF_INVALID"
  const PREPARE_MOVED := "PREPARE_IDENTITY_MOVED"
  const D1_MOVED := "D1_PREIMAGE_MOVED"
  const RESTORE_MOVED := "RESTORE_POINTERS_MOVED"
  const OLD_MOVED := "OLD_PREIMAGE_MOVED"
  const RESTORE_INVALID := "RESTORE_READBACK_INVALID"
  const COMMIT_UNKNOWN := "COMMIT_OUTCOME_UNKNOWN"

  /** The image of a partition; reading a row whose file is gone fails. */
  function ImageOf(s: Store, key: Key): Result<Option<Image>, string> {
    if key !in s.pointers then Ok(None)
    else if File(key, s.pointers[key].name) !in s.disk then Err(FILE_MISSING)
    else Ok(Some(Image(s.pointers[key], s.disk[File(key, s.pointers[key].name)])))
  }

  /** The row and the file a list of bars is published as. */
  function CandidateOf(bars: seq<Bar>): Image
    requires bars != []
  {
    var digest := Digest(0, bars);
    var first, last := bars[0].end - WEEK, bars[|bars| - 1].end;
    Image(Pointer(Digested(digest), |bars|, Coverage(first, last, first, last), None), digest)
  }

  function Retained(bars: seq<Bar>, removed: set<Date>): seq<Bar> {
    Filter((b: Bar) => b.day !in removed, bars)
  }

  ghost function PrepareMonth(s: Store, t: Target, ends: map<Date, int>): Result<Record, string> {
    var image := ImageOf(s, t.key);
    if image.Err? then Err(image.error)
    else if image.value.None? then Err(IDENTITY_INVALID)
    else
      var was := image.value.value;
      var bars := was.sha.bars;
      if was.pointer.quality.Some? || was.pointer.rows != |bars| then Err(UNREADABLE)
      else if exists d :: d in t.removed && d !in DaysOf(bars) then Err(ROWS_MOVED)
      else if exists b :: b in bars && b.day in t.removed && (b.day !in ends || b.end != ends[b.day]) then Err(ENDPOINT_MOVED)
      else
        var candidate := Retained(bars, Elems(t.removed));
        if |candidate| + |t.removed| != |bars| then Err(DIFF_INVALID)
        else if candidate != [] && !Publishable(t.key, candidate) then Err(STORE_REFUSED)
        else
          Ok(Record(t.key, was, t.removed, DaysOf(candidate), |bars|, |candidate|,
                    if candidate == [] then None else Some(CandidateOf(candidate))))
  }

  ghost function PrepareMonths(s: Store, targets: seq<Target>, ends: map<Date, int>): Result<seq<Record>, string> {
    if targets == [] then Ok([])
    else
      var before := PrepareMonths(s, targets[..|targets| - 1], ends);
      if before.Err? then before
      else
        var last := PrepareMonth(s, targets[|targets| - 1], ends);
        if last.Err? then Err(last.error) else Ok(before.value + [last.value])
  }

  ghost function PacketFor(s: Store, scope: Scope): Result<Packet, string> {
    if exists key :: key in scope.sources && (ImageOf(s, key).Err? || ImageOf(s, key).value.None?) then Err(D1_MISSING)
    else if !scope.proven then Err(PROOF_INVALID)
    else
      var months := PrepareMonths(s, scope.targets, scope.ends);
      if months.Err? then Err(months.error)
      else
        Ok(Packet(map key | key in scope.sources && ImageOf(s, key).Ok? && ImageOf(s, key).value.Some?
                    :: ImageOf(s, key).value.value, months.value))
  }

  // ----- inspect -----

  datatype MonthState = OldMonth | CandidateMonth | OtherMonth
  datatype Standing = AllOld | AllCandidate | MixedOrUnknown

  /** Where one month stands. A candidate file is its own digest, so its days are the retained ones. */
  function StateOf(r: Record, current: Option<Image>): MonthState {
    if current == Some(r.was) then OldMonth
    else if current == r.candidate && (current.Some? ==> DaysOf(current.value.sha.bars) == r.retained) then CandidateMonth
    else OtherMonth
  }

  ghost predicate AllImaged(s: Store, p: Packet) {
    (forall key | key in p.sources :: ImageOf(s, key) == Ok(Some(p.sources[key])))
  }

  ghost predicate AllStand(s: Store, p: Packet, state: MonthState) {
    forall r | r in p.months :: ImageOf(s, r.key).Ok? && StateOf(r, ImageOf(s, r.key).value) == state
  }

  ghost function Inspect(s: Store, p: Packet): Result<Standing, string> {
    if !AllImaged(s, p) then Err(D1_MOVED)
    else if exists r :: r in p.months && ImageOf(s, r.key).Err? then Err(FILE_MISSING)
    else if AllStand(s, p, CandidateMonth) then Ok(AllCandidate)
    else if AllStand(s, p, OldMonth) then Ok(AllOld)
    else Ok(MixedOrUnknown)
  }

  // ----- apply and restore, as what a whole transaction does -----

  function Switch(s: Store, r: Record): Store {
    if r.candidate.None? then s.(pointers := s.pointers - {r.key})
    else
      var image := r.candidate.value;
      Store(s.pointers[r.key := image.pointer], s.disk[File(r.key, image.pointer.name) := image.sha])
  }

  function SwitchAll(s: Store, months: seq<Record>): Store {
    if months == [] then s else Switch(SwitchAll(s, months[..|months| - 1]), months[|months| - 1])
  }

  /** The files a repair publishes are on disk even if its transaction is lost. */
  function WithFiles(s: Store, months: seq<Record>): Store {
    s.(disk := SwitchAll(s, months).disk)
  }

  datatype Commit = Done | Lost(applied: bool)

  ghost function Applied(s: Store, scope: Scope, p: Packet, commit: Commit): (Store, Result<(), string>) {
    if PacketFor(s, scope) != Ok(p) then (s, Err(PREPARE_MOVED))
    else
      match commit
      case Done => (SwitchAll(s, p.months), Ok(()))
      case Lost(applied) => (if applied then SwitchAll(s, p.months) else WithFiles(s, p.months), Err(COMMIT_UNKNOWN))
  }

  function Revert(s: Store, months: seq<Record>): Store {
    if months == [] then s
    else
      var before, r := Revert(s, months[..|months| - 1]), months[|months| - 1];
      before.(pointers := before.pointers[r.key := r.was.pointer])
  }

  /** The old file of every month is still there, unchanged, and carries no quality facts. */
  ghost predicate OldIntact(s: Store, p: Packet) {
    forall r | r in p.months ::
      var file := File(r.key, r.was.pointer.name);
      file in s.disk && s.disk[file] == r.was.sha && r.was.pointer.quality == None
  }

  ghost function Restored(s: Store, p: Packet, commit: Commit): (Store, Result<(), string>) {
    if Inspect(s, p) != Ok(AllCandidate) then (s, Err(RESTORE_MOVED))
    else if !OldIntact(s, p) then (s, Err(OLD_MOVED))
    else
      var t := Revert(s, p.months);
      if Inspect(t, p) != Ok(AllOld) then (s, Err(RESTORE_INVALID))
      else
        match commit
        case Done => (t, Ok(()))
        case Lost(applied) => (if applied then t else s, Err(COMMIT_UNKNOWN))
  }

  // ----- the methods -----

  method PreparedMonth(s: Store, t: Target, ends: map<Date, int>) returns (r: Result<Record, string>)
    ensures r == PrepareMonth(s, t, ends)
  {
    var image := ImageOf(s, t.key);
    if image.Err? {
      return Err(image.error);
    }
    if image.value.None? {
      return Err(IDENTITY_INVALID);
    }
    var was := image.value.value;
    var bars := was.sha.bars;
    if was.pointer.quality.Some? || was.pointer.rows != |bars| {
      return Err(UNREADABLE);
    }
    if exists d :: d in t.removed && d !in DaysOf(bars) {
      return Err(ROWS_MOVED);
    }
    if exists b :: b in bars && b.day in t.removed && (b.day !in ends || b.end != ends[b.day]) {
      return Err(ENDPOINT_MOVED);
    }
    var candidate := Retained(bars, Elems(t.removed));
    if |candidate| + |t.removed| != |bars| {
      return Err(DIFF_INVALID);
    }
    var increasing := CheckIncreasing(candidate);
    if candidate != [] && (!increasing || exists b :: b in candidate && !InMonth(t.key, b)) {
      return Err(STORE_REFUSED);
    }
    r := Ok(Record(t.key, was, t.removed, DaysOf(candidate), |bars|, |candidate|,
                   if candidate == [] then None else Some(CandidateOf(candidate))));
  }

  lemma {:induction false} MonthsStop(s: Store, targets: seq<Target>, ends: map<Date, int>, i: nat)
    requires i <= |targets| && PrepareMonths(s, targets[..i], ends).Err?
    ensures PrepareMonths(s, targets, ends) == PrepareMonths(s, targets[..i], ends)
    decreases |targets|
  {
    if i < |targets| {
      assert targets[..|targets| - 1][..i] == targets[..i];
      MonthsStop(s, targets[..|targets| - 1], ends, i);
    } else {
      assert targets[..i] == targets;
    }
  }

  method Prepared(s: Store, scope: Scope) returns (r: Result<Packet, string>)
    ensures r == PacketFor(s, scope)
  {
    hide PrepareMonth;
    if exists key :: key in scope.sources && (ImageOf(s, key).Err? || ImageOf(s, key).value.None?) {
      return Err(D1_MISSING);
    }
    if !scope.proven {
      return Err(PROOF_INVALID);
    }
    var months: seq<Record> := [];
    for i := 0 to |scope.targets|
      invariant PrepareMonths(s, scope.targets[..i], scope.ends) == Ok(months)
    {
      assert scope.targets[..i + 1][..i] == scope.targets[..i];
      var month := PreparedMonth(s, scope.targets[i], scope.ends);
      if month.Err? {
        MonthsStop(s, scope.targets, scope.ends, i + 1);
        return Err(month.error);
      }
      months := months + [month.value];
    }
    assert scope.targets[..|scope.targets|] == scope.targets;
    r := Ok(Packet(map key | key in scope.sources && ImageOf(s, key).Ok? && ImageOf(s, key).value.Some?
                     :: ImageOf(s, key).value.value, months));
  }

  method Inspected(s: Store, p: Packet) returns (r: Result<Standing, string>)
    ensures r == Inspect(s, p)
  {
    if exists key :: key in p.sources && ImageOf(s, key) != Ok(Some(p.sources[key])) {
      return Err(D1_MOVED);
    }
    if exists m :: m in p.months && ImageOf(s, m.key).Err? {
      return Err(FILE_MISSING);
    }
    var asBefore, candidate := true, true;
    for i := 0 to |p.months|
      invariant candidate <==> forall m | m in p.months[..i] :: ImageOf(s, m.key).Ok? && StateOf(m, ImageOf(s, m.key).value) == CandidateMonth
      invariant asBefore <==> forall m | m in p.months[..i] :: ImageOf(s, m.key).Ok? && StateOf(m, ImageOf(s, m.key).value) == OldMonth
    {
      assert p.months[..i + 1] == p.months[..i] + [p.months[i]];
      assert p.months[i] in p.months;
      var state := StateOf(p.months[i], ImageOf(s, p.months[i].key).value);
      asBefore, candidate := asBefore && state.OldMonth?, candidate && state.CandidateMonth?;
    }
    assert p.months[..|p.months|] == p.months;
    r := Ok(if candidate then AllCandidate else if asBefore then AllOld else MixedOrUnknown);
  }

  /** The catalog and its disk. A transaction works on a copy of the rows; files are published at once. */
  class Repository {
    var store: Store

    method ApplyPacket(scope: Scope, p: Packet, commit: Commit) returns (r: Result<(), string>)
      modifies this
      ensures (store, r) == Applied(old(store), scope, p, commit)
    {
      hide PacketFor, Switch;
      ghost var start := store;
      var current := Prepared(store, scope);
      if current != Ok(p) {
        return Err(PREPARE_MOVED);
      }
      var working := store;
      for i := 0 to |p.months|
        invariant working == SwitchAll(start, p.months[..i])
        invariant store == start.(disk := working.disk)
      {
        assert p.months[..i + 1][..i] == p.months[..i];
        working := Switch(working, p.months[i]);
        store := store.(disk := working.disk);
      }
      assert p.months[..|p.months|] == p.months;
      match commit {
        case Done =>
          store, r := working, Ok(());
        case Lost(applied) =>
          store, r := if applied then working else store, Err(COMMIT_UNKNOWN);
      }
    }

    method RestorePacket(p: Packet, commit: Commit) returns (r: Result<(), string>)
      modifies this
      ensures (store, r) == Restored(old(store), p, commit)
    {
      hide Inspect;
      var before := Inspected(store, p);
      if before != Ok(AllCandidate) {
        return Err(RESTORE_MOVED);
      }
      var working := store;
      for i := 0 to |p.months|
        invariant working == Revert(store, p.months[..i]) && working.disk == store.disk
        invariant forall m | m in p.months[..i] ::
                    var file := File(m.key, m.was.pointer.name);
                    file in store.disk && store.disk[file] == m.was.sha && m.was.pointer.quality == None
      {
        assert p.months[..i + 1] == p.months[..i] + [p.months[i]];
        assert p.months[..i + 1][..i] == p.months[..i] && p.months[i] in p.months;
        var m := p.months[i];
        var file := File(m.key, m.was.pointer.name);
        if file !in store.disk || store.disk[file] != m.was.sha || m.was.pointer.quality.Some? {
          return Err(OLD_MOVED);
        }
        working := working.(pointers := working.pointers[m.key := m.was.pointer]);
      }
      assert p.months[..|p.months|] == p.months;
      var after := Inspected(working, p);
      if after != Ok(AllOld) {
        return Err(RESTORE_INVALID);
      }
      match commit {
        case Done =>
          store, r := working, Ok(());
        case Lost(applied) =>
          store, r := if applied then working else store, Err(COMMIT_UNKNOWN);
      }
    }
  }

  // ----- what prepare records -----

  /** Months are listed once, each with at least one week to drop, none listed twice. */
  ghost predicate ScopeOk(scope: Scope) {
    && (forall i, j | 0 <= i < j < |scope.targets| :: scope.targets[i].key != scope.targets[j].key)
    && (forall t | t in scope.targets :: t.key.Weekly? && t.removed != [])
    && (forall key | key in scope.sources :: key.Daily?)
  }

  lemma {:induction false} MonthsPrepared(s: Store, targets: seq<Target>, ends: map<Date, int>)
    requires PrepareMonths(s, targets, ends).Ok?
    ensures var months := PrepareMonths(s, targets, ends).value;
            && |months| == |targets|
            && forall i | 0 <= i < |targets| :: PrepareMonth(s, targets[i], ends) == Ok(months[i])
  {
    hide PrepareMonth;
    if targets != [] {
      var n := |targets| - 1;
      MonthsPrepared(s, targets[..n], ends);
    }
  }

  lemma {:induction false} Split(bars: seq<Bar>, removed: set<Date>)
    ensures multiset(bars) == multiset(Retained(bars, removed)) + multiset(InWeek(bars, removed))
  {
    if bars != [] {
      Split(bars[1..], removed);
      assert bars == [bars[0]] + bars[1..];
    }
  }

  /** No row is lost: the retained rows and the rows of the removed weeks together are exactly the rows
      the month had; the retained ones keep their order, and every removed week was there. */
  lemma RowsAreConserved(s: Store, t: Target, ends: map<Date, int>)
    requires PrepareMonth(s, t, ends).Ok?
    ensures var r := PrepareMonth(s, t, ends).value;
            var bars, days := r.was.sha.bars, Elems(t.removed);
            && multiset(bars) == multiset(Retained(bars, days)) + multiset(InWeek(bars, days))
            && |InWeek(bars, days)| == |t.removed| && r.oldCount == r.newCount + |t.removed|
            && r.retained == DaysOf(Retained(bars, days))
            && (forall d | d in t.removed :: d in DaysOf(InWeek(bars, days)))
            && (r.candidate.Some? ==> r.candidate.value.sha.bars == Retained(bars, days))
  {
    var r := PrepareMonth(s, t, ends).value;
    var bars, days := r.was.sha.bars, Elems(t.removed);
    Split(bars, days);
    assert |multiset(bars)| == |Retained(bars, days)| + |InWeek(bars, days)|;
    forall d | d in t.removed ensures d in DaysOf(InWeek(bars, days)) {
      var i :| 0 <= i < |bars| && DaysOf(bars)[i] == d;
      assert bars[i] in bars;
      assert bars[i] in InWeek(bars, days);
      DayIn(InWeek(bars, days), bars[i]);
    }
  }

  /** Old and candidate exclude each other: a prepared month cannot be both. */
  lemma OldIsNotCandidate(s: Store, t: Target, ends: map<Date, int>)
    requires PrepareMonth(s, t, ends).Ok? && t.removed != []
    ensures var r := PrepareMonth(s, t, ends).value;
            && Some(r.was) != r.candidate && StateOf(r, Some(r.was)) == OldMonth && StateOf(r, r.candidate) == CandidateMonth
            && ImageOf(s, t.key) == Ok(Some(r.was)) && r.key == t.key && r.was.pointer.quality == None
  {
    var r := PrepareMonth(s, t, ends).value;
    assert |r.was.sha.bars| == |t.removed| + |Retained(r.was.sha.bars, Elems(t.removed))|;
  }

  // ----- apply, inspect, restore -----

  /** What a packet says about the store it was prepared from. */
  ghost predicate PacketOf(s: Store, p: Packet) {
    && (forall i, j | 0 <= i < j < |p.months| :: p.months[i].key != p.months[j].key)
    && (forall r | r in p.months ::
          && ImageOf(s, r.key) == Ok(Some(r.was)) && Some(r.was) != r.candidate && r.was.pointer.quality == None
          && StateOf(r, r.candidate) == CandidateMonth && r.key.Weekly?
          && (r.candidate.Some? ==> r.candidate.value.pointer.name == Digested(r.candidate.value.sha)))
    && (forall key | key in p.sources :: key.Daily? && ImageOf(s, key) == Ok(Some(p.sources[key])))
  }

  /** Published files are named by their own content, so a file name fixes what the file holds. */
  ghost predicate NamesOk(s: Store) {
    forall f | f in s.disk && f.name.Digested? :: s.disk[f] == f.name.digest
  }

  lemma CandidateNamed(s: Store, t: Target, ends: map<Date, int>)
    requires PrepareMonth(s, t, ends).Ok?
    ensures var c := PrepareMonth(s, t, ends).value.candidate; c.Some? ==> c.value.pointer.name == Digested(c.value.sha)
  {
  }

  lemma PreparedPacket(s: Store, scope: Scope)
    requires ScopeOk(scope) && PacketFor(s, scope).Ok?
    ensures PacketOf(s, PacketFor(s, scope).value)
  {
    hide PrepareMonth, StateOf;
    var p := PacketFor(s, scope).value;
    MonthsPrepared(s, scope.targets, scope.ends);
    forall r | r in p.months
      ensures ImageOf(s, r.key) == Ok(Some(r.was)) && Some(r.was) != r.candidate && r.was.pointer.quality == None
      ensures StateOf(r, r.candidate) == CandidateMonth && r.key.Weekly?
      ensures r.candidate.Some? ==> r.candidate.value.pointer.name == Digested(r.candidate.value.sha)
    {
      var i :| 0 <= i < |p.months| && p.months[i] == r;
      assert scope.targets[i] in scope.targets;
      OldIsNotCandidate(s, scope.targets[i], scope.ends);
      CandidateNamed(s, scope.targets[i], scope.ends);
    }
    forall i, j | 0 <= i < j < |p.months| ensures p.months[i].key != p.months[j].key {
      OldIsNotCandidate(s, scope.targets[i], scope.ends);
      OldIsNotCandidate(s, scope.targets[j], scope.ends);
    }
  }

  /** Nothing on disk is lost or changed by publishing candidates. */
  ghost predicate DiskGrows(before: Disk, after: Disk) {
    forall f | f in before :: f in after && after[f] == before[f]
  }

  ghost predicate SameAt(t: Store, s: Store, key: Key) {
    (key in t.pointers <==> key in s.pointers) && (key in s.pointers ==> t.pointers[key] == s.pointers[key])
  }

  /** No partition but those of the listed months moves. */
  ghost predicate SameElsewhere(t: Store, s: Store, months: seq<Record>) {
    forall key | (forall m | m in months :: m.key != key) :: SameAt(t, s, key)
  }

  lemma ElsewhereSnoc(t: Store, mid: Store, s: Store, months: seq<Record>, n: nat)
    requires n < |months| && SameElsewhere(mid, s, months[..n])
    requires forall key | key != months[n].key :: SameAt(t, mid, key)
    ensures SameElsewhere(t, s, months[..n + 1])
  {
    assert months[..n + 1] == months[..n] + [months[n]];
    forall key | forall m | m in months[..n + 1] :: m.key != key ensures SameAt(t, s, key) {
      assert months[n] in months[..n + 1] && forall m | m in months[..n] :: m in months[..n + 1];
      assert SameAt(mid, s, key) && SameAt(t, mid, key);
    }
  }

  lemma {:induction false} SwitchedMonths(s: Store, p: Packet, n: nat)
    requires PacketOf(s, p) && NamesOk(s) && n <= |p.months|
    ensures var t := SwitchAll(s, p.months[..n]);
            && NamesOk(t) && DiskGrows(s.disk, t.disk)
            && (forall i | 0 <= i < n :: ImageOf(t, p.months[i].key) == Ok(p.months[i].candidate))
            && SameElsewhere(t, s, p.months[..n])
  {
    if n == 0 {
      assert p.months[..0] == [];
    } else {
      SwitchedMonths(s, p, n - 1);
      assert p.months[..n][..n - 1] == p.months[..n - 1];
      assert p.months[n - 1] in p.months;
      var mid := SwitchAll(s, p.months[..n - 1]);
      SwitchOne(mid, p.months[n - 1]);
      ElsewhereSnoc(Switch(mid, p.months[n - 1]), mid, s, p.months, n - 1);
      hide SameElsewhere, StateOf;
    }
  }

  lemma SwitchOne(s: Store, r: Record)
    requires NamesOk(s) && (r.candidate.Some? ==> r.candidate.value.pointer.name == Digested(r.candidate.value.sha))
    ensures var t := Switch(s, r);
            && NamesOk(t) && DiskGrows(s.disk, t.disk) && ImageOf(t, r.key) == Ok(r.candidate)
            && (forall key | key != r.key ::
                  SameAt(t, s, key) && (ImageOf(s, key).Ok? ==> ImageOf(t, key) == ImageOf(s, key)))
  {
  }

  lemma ImageStays(s: Store, t: Store, key: Key)
    requires DiskGrows(s.disk, t.disk) && ImageOf(s, key).Ok?
    requires SameAt(t, s, key)
    ensures ImageOf(t, key) == ImageOf(s, key)
  {
  }

  /** Before it is applied a prepared packet is inspected as old; applied, as candidate; and no partition
      it does not list moves. */
  lemma ApplyMakesCandidate(s: Store, scope: Scope, p: Packet)
    requires ScopeOk(scope) && NamesOk(s) && PacketFor(s, scope) == Ok(p) && p.months != []
    ensures Inspect(s, p) == Ok(AllOld)
    ensures var (t, r) := Applied(s, scope, p, Done);
            && r.Ok? && Inspect(t, p) == Ok(AllCandidate)
            && SameElsewhere(t, s, p.months)
  {
    PreparedPacket(s, scope);
    SwitchedMonths(s, p, |p.months|);
    assert p.months[..|p.months|] == p.months;
    var t := SwitchAll(s, p.months);
    hide PacketFor, SwitchAll, ImageOf, NamesOk, StateOf, SameElsewhere, Inspect, ScopeOk;
    SourcesStay(s, p, t);
    forall m | m in p.months ensures ImageOf(t, m.key) == Ok(m.candidate) {
      var i :| 0 <= i < |p.months| && p.months[i] == m;
    }
    InspectedAs(s, p, s, AllOld);
    InspectedAs(s, p, t, AllCandidate);
  }

  lemma SourcesStay(s: Store, p: Packet, t: Store)
    requires PacketOf(s, p) && SameElsewhere(t, s, p.months) && DiskGrows(s.disk, t.disk)
    ensures AllImaged(t, p)
  {
    hide ImageOf, StateOf;
    forall key | key in p.sources ensures ImageOf(t, key) == Ok(Some(p.sources[key])) {
      assert forall m | m in p.months :: m.key != key;
      ImageStays(s, t, key);
    }
  }

  /** What a store is inspected as once every month is old, or every month its candidate. */
  lemma InspectedAs(origin: Store, p: Packet, t: Store, standing: Standing)
    requires PacketOf(origin, p) && p.months != [] && AllImaged(t, p) && !standing.MixedOrUnknown?
    requires forall m | m in p.months :: ImageOf(t, m.key) == Ok(if standing.AllOld? then Some(m.was) else m.candidate)
    ensures Inspect(t, p) == Ok(standing)
  {
    hide ImageOf;
    var first := p.months[0];
    assert first in p.months && StateOf(first, Some(first.was)) == OldMonth;
  }

  /** An apply whose commit was lost leaves all of it or nothing: the packet is inspected as candidate or as
      old, never as mixed, and no partition it does not list moves. */
  lemma LostApplyIsWhole(s: Store, scope: Scope, p: Packet, applied: bool)
    requires ScopeOk(scope) && NamesOk(s) && PacketFor(s, scope) == Ok(p) && p.months != []
    ensures var (t, r) := Applied(s, scope, p, Lost(applied));
            && r == Err(COMMIT_UNKNOWN) && Inspect(t, p) == Ok(if applied then AllCandidate else AllOld)
            && SameElsewhere(t, s, p.months)
  {
    ApplyMakesCandidate(s, scope, p);
    if !applied {
      PreparedPacket(s, scope);
      SwitchedMonths(s, p, |p.months|);
      assert p.months[..|p.months|] == p.months;
      var t := WithFiles(s, p.months);
      hide PacketFor, SwitchAll, NamesOk, StateOf, Inspect, ScopeOk;
      SourcesStay(s, p, t);
      hide ImageOf, DiskGrows;
      forall m | m in p.months ensures ImageOf(t, m.key) == Ok(Some(m.was)) { ImageStays(s, t, m.key); }
      InspectedAs(s, p, t, AllOld);
    }
  }

  lemma {:induction false} RevertedMonths(s: Store, months: seq<Record>, n: nat)
    requires n <= |months| && forall i, j | 0 <= i < j < |months| :: months[i].key != months[j].key
    ensures var t := Revert(s, months[..n]);
            && t.disk == s.disk
            && (forall i | 0 <= i < n :: months[i].key in t.pointers && t.pointers[months[i].key] == months[i].was.pointer)
            && SameElsewhere(t, s, months[..n])
  {
    if n == 0 {
      assert months[..0] == [];
    } else {
      RevertedMonths(s, months, n - 1);
      assert months[..n][..n - 1] == months[..n - 1];
      ElsewhereSnoc(Revert(s, months[..n]), Revert(s, months[..n - 1]), s, months, n - 1);
    }
  }

  /** Restoring works from every store that is inspected as candidate and still has the old files: the
      packet is then inspected as old, its months point where they did, and nothing else moves. */
  lemma RestoreMakesOld(origin: Store, s: Store, p: Packet)
    requires PacketOf(origin, p) && Inspect(s, p) == Ok(AllCandidate) && OldIntact(s, p) && p.months != []
    ensures var (t, r) := Restored(s, p, Done);
            && r.Ok? && Inspect(t, p) == Ok(AllOld)
            && (forall m | m in p.months :: m.key in t.pointers && t.pointers[m.key] == m.was.pointer)
            && SameElsewhere(t, s, p.months)
  {
    RevertedMonths(s, p.months, |p.months|);
    assert p.months[..|p.months|] == p.months;
    var t := Revert(s, p.months);
    hide Revert, StateOf, SameElsewhere, PacketOf;
    CandidateSources(s, p);
    RevertedImages(origin, s, p, t);
    InspectedAs(origin, p, t, AllOld);
    hide Inspect, OldIntact;
  }

  /** A restore whose commit was lost leaves the packet inspected as old or still as candidate. */
  lemma LostRestoreIsWhole(origin: Store, s: Store, p: Packet, applied: bool)
    requires PacketOf(origin, p) && Inspect(s, p) == Ok(AllCandidate) && OldIntact(s, p) && p.months != []
    ensures var (t, r) := Restored(s, p, Lost(applied));
            r == Err(COMMIT_UNKNOWN) && Inspect(t, p) == Ok(if applied then AllOld else AllCandidate)
  {
    RestoreMakesOld(origin, s, p);
  }

  lemma CandidateSources(s: Store, p: Packet)
    requires Inspect(s, p) == Ok(AllCandidate)
    ensures AllImaged(s, p)
  {
  }

  lemma RevertedImages(origin: Store, s: Store, p: Packet, t: Store)
    requires PacketOf(origin, p) && AllImaged(s, p) && OldIntact(s, p) && t.disk == s.disk && SameElsewhere(t, s, p.months)
    requires forall i | 0 <= i < |p.months| :: p.months[i].key in t.pointers && t.pointers[p.months[i].key] == p.months[i].was.pointer
    ensures AllImaged(t, p)
    ensures forall m | m in p.months :: ImageOf(t, m.key) == Ok(Some(m.was)) && m.key in t.pointers && t.pointers[m.key] == m.was.pointer
  {
    hide StateOf;
    forall m | m in p.months
      ensures ImageOf(t, m.key) == Ok(Some(m.was)) && m.key in t.pointers && t.pointers[m.key] == m.was.pointer
    {
      var i :| 0 <= i < |p.months| && p.months[i] == m;
    }
    hide ImageOf;
    forall key | key in p.sources ensures ImageOf(t, key) == Ok(Some(p.sources[key])) {
      assert forall m | m in p.months :: m.key != key;
      ImageStays(s, t, key);
    }
  }

  /** Apply and then restore is the identity on the catalog, removed months included. */
  lemma ApplyThenRestore(s: Store, scope: Scope, p: Packet)
    requires ScopeOk(scope) && NamesOk(s) && PacketFor(s, scope) == Ok(p) && p.months != []
    ensures var applied := Applied(s, scope, p, Done).0;
            var (t, r) := Restored(applied, p, Done);
            r.Ok? && t.pointers == s.pointers && DiskGrows(s.disk, t.disk)
  {
    PreparedPacket(s, scope);
    ApplyMakesCandidate(s, scope, p);
    SwitchedMonths(s, p, |p.months|);
    assert p.months[..|p.months|] == p.months;
    var applied := SwitchAll(s, p.months);
    OldFilesStay(s, p, applied);
    hide PacketFor, SwitchAll, Revert, NamesOk, Inspect, SameElsewhere, PacketOf, OldIntact, ScopeOk, DiskGrows;
    RestoreMakesOld(s, applied, p);
    RevertedMonths(applied, p.months, |p.months|) by { MonthKeysDistinct(s, p); }
    SamePointers(s, p, applied, Revert(applied, p.months));
  }

  lemma MonthKeysDistinct(s: Store, p: Packet)
    requires PacketOf(s, p)
    ensures forall i, j | 0 <= i < j < |p.months| :: p.months[i].key != p.months[j].key
  {
  }

  lemma OldFilesStay(s: Store, p: Packet, t: Store)
    requires PacketOf(s, p) && DiskGrows(s.disk, t.disk)
    ensures OldIntact(t, p)
  {
  }

  lemma SamePointers(s: Store, p: Packet, applied: Store, t: Store)
    requires PacketOf(s, p) && SameElsewhere(applied, s, p.months) && SameElsewhere(t, applied, p.months)
    requires forall m | m in p.months :: m.key in t.pointers && t.pointers[m.key] == m.was.pointer
    ensures t.pointers == s.pointers
  {
    forall key ensures SameAt(t, s, key) {
      if m :| m in p.months && m.key == key {
        assert ImageOf(s, key) == Ok(Some(m.was));
      } else {
        assert SameAt(applied, s, key) && SameAt(t, applied, key);
      }
    }
    forall key | key in s.pointers || key in t.pointers
      ensures key in t.pointers && key in s.pointers && t.pointers[key] == s.pointers[key]
    {
      assert SameAt(t, s, key);
    }
    assert t.pointers.Keys == s.pointers.Keys;
  }
}
