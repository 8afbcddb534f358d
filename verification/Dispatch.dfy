/**
 * Serial dispatch of frozen stages by any number of dispatchers, concurrent or restarted after a
 * crash. Markers, logs and receipts are created exclusively; everything else may fail at any step.
 */
module Dispatch {
  import opened Seqs

  // ----- the order of the commands -----

  datatype Strategy = Trend | Oscillation | DualFusion
  datatype Frequency = FiveMinutes | QuarterHour | HalfHour | Hour
  datatype Stage = Stage(product: string, frequency: Frequency, strategy: Strategy)
  datatype Command = Plan | Build | Readback

  function PerStrategy(product: string, strategy: Strategy): (r: seq<Stage>)
    ensures |r| == 4
  {
    [Stage(product, FiveMinutes, strategy), Stage(product, QuarterHour, strategy),
     Stage(product, HalfHour, strategy), Stage(product, Hour, strategy)]
  }

  function PerProduct(product: string): (r: seq<Stage>)
    ensures |r| == 12
    ensures forall i | 0 <= i < 12 :: r[i].product == product && (r[i].strategy.DualFusion? <==> i >= 8)
  {
    PerStrategy(product, Trend) + PerStrategy(product, Oscillation) + PerStrategy(product, DualFusion)
  }

  function StageOrder(products: seq<string>): (r: seq<Stage>)
    ensures |r| == 12 * |products|
    ensures forall i | 0 <= i < |r| :: r[i] == PerProduct(products[i / 12])[i % 12]
  {
    if products == [] then []
    else StageOrder(products[..|products| - 1]) + PerProduct(products[|products| - 1])
  }

  /** The stage of one of the positions all dispatchers walk through: three commands for each stage. */
  function StageAt(products: seq<string>, pos: nat): Stage
    requires pos < 36 * |products|
  {
    StageOrder(products)[pos / 3]
  }

  function CommandAt(pos: nat): Command {
    if pos % 3 == 0 then Plan else if pos % 3 == 1 then Build else Readback
  }

  lemma SameOfProduct(product: string, i: nat, j: nat)
    requires i < 12 && j < 12 && PerProduct(product)[i] == PerProduct(product)[j]
    ensures i == j
  {
  }

  /** Distinct products make distinct stages, so no two positions share their files. */
  lemma StagesDistinct(products: seq<string>)
    requires NoDup(products)
    ensures NoDup(StageOrder(products))
  {
    var order := StageOrder(products);
    forall i, j | 0 <= i < j < |order| ensures order[i] != order[j] {
      if order[i] == order[j] {
        assert products[i / 12] == order[i].product == order[j].product == products[j / 12];
        assert i / 12 == j / 12;
        SameOfProduct(products[i / 12], i % 12, j % 12);
      }
    }
  }

  // ----- the protocol -----

  datatype Phase = AtCompleted | AtMarker | AtCreate | AtLog | AtLaunch | Running | AtReceipt

  /** One dispatcher: the position it works on and its next step there. */
  datatype Run = Run(pos: nat, phase: Phase)

  /** The files of every position, the live dispatchers, and every command ever launched. */
  datatype State = State(
    total: nat, runs: map<nat, Run>,
    markers: set<nat>, logs: set<nat>, artifacts: set<nat>, attempts: set<nat>, completed: set<nat>,
    launched: seq<nat>, succeeded: set<nat>)

  datatype Action =
    | Start(id: nat)
    | Crash(id: nat)
    | Next(id: nat, ok: bool)
    | ChildWrites(pos: nat, attempt: bool)

  function Initial(total: nat): State {
    State(total, map[], {}, {}, {}, {}, {}, [], {})
  }

  function Stop(s: State, id: nat): State { s.(runs := s.runs - {id}) }

  function Go(s: State, id: nat, run: Run): State { s.(runs := s.runs[id := run]) }

  /** The next step of one dispatcher. `ok` says how the world answers: whether a file could be
      written, a receipt still matches its artifact, or the command exits with zero. */
  function StepRun(s: State, id: nat, ok: bool): State
    requires id in s.runs
  {
    var Run(pos, phase) := s.runs[id];
    match phase
    case AtCompleted =>
      if pos >= s.total then Stop(s, id)
      else if pos !in s.completed then Go(s, id, Run(pos, AtMarker))
      else if ok then Go(s, id, Run(pos + 1, AtCompleted))
      else Stop(s, id)
    case AtMarker =>
      if pos in s.markers || pos in s.artifacts || (CommandAt(pos).Build? && pos in s.attempts) then Stop(s, id)
      else Go(s, id, Run(pos, AtCreate))
    case AtCreate =>
      if pos in s.markers || !ok then Stop(s, id) else Go(s, id, Run(pos, AtLog)).(markers := s.markers + {pos})
    case AtLog =>
      if pos in s.logs || !ok then Stop(s, id) else Go(s, id, Run(pos, AtLaunch)).(logs := s.logs + {pos})
    case AtLaunch =>
      if !ok then Stop(s, id) else Go(s, id, Run(pos, Running)).(launched := s.launched + [pos])
    case Running =>
      if !ok then Stop(s, id) else Go(s, id, Run(pos, AtReceipt)).(succeeded := s.succeeded + {pos})
    case AtReceipt =>
      if pos !in s.artifacts || pos in s.completed || !ok then Stop(s, id)
      else Go(s, id, Run(pos + 1, AtCompleted)).(completed := s.completed + {pos})
  }

  function Step(s: State, a: Action): State {
    match a
    case Start(id) => if id in s.runs then s else Go(s, id, Run(0, AtCompleted))
    case Crash(id) => Stop(s, id)
    case Next(id, ok) => if id in s.runs then StepRun(s, id, ok) else s
    case ChildWrites(pos, attempt) =>
      if pos !in s.launched then s
      else if attempt then s.(attempts := s.attempts + {pos})
      else s.(artifacts := s.artifacts + {pos})
  }

  function After(s: State, actions: seq<Action>): State {
    if actions == [] then s else Step(After(s, actions[..|actions| - 1]), actions[|actions| - 1])
  }

  // ----- what every step keeps -----

  /** The dispatcher has created the marker of its position and not yet its receipt. */
  predicate Owns(run: Run) {
    run.phase.AtLog? || run.phase.AtLaunch? || run.phase.Running? || run.phase.AtReceipt?
  }

  /** Owned positions are marked, not completed, and owned by one dispatcher only. */
  ghost predicate OwnersOk(s: State) {
    && (forall id | id in s.runs && Owns(s.runs[id]) :: s.runs[id].pos in s.markers && s.runs[id].pos !in s.completed)
    && (forall i, j | i in s.runs && j in s.runs && Owns(s.runs[i]) && Owns(s.runs[j]) && s.runs[i].pos == s.runs[j].pos :: i == j)
  }

  /** Before its launch an owned position has not been launched, and after it, it has. */
  ghost predicate PhasesOk(s: State) {
    && (forall id | id in s.runs && (s.runs[id].phase.AtLog? || s.runs[id].phase.AtLaunch?) :: s.runs[id].pos !in s.launched)
    && (forall id | id in s.runs && s.runs[id].phase.AtReceipt? :: s.runs[id].pos in s.succeeded)
    && (forall id | id in s.runs && s.runs[id].phase.Running? :: s.runs[id].pos in s.launched)
  }

  /** A receipt follows a success, a success a launch, and a launch a marker. */
  ghost predicate FilesOk(s: State) {
    && (forall p | p in s.launched :: p in s.markers)
    && (forall p | p in s.succeeded :: p in s.launched)
    && (forall p | p in s.completed :: p in s.succeeded)
  }

  ghost predicate LaunchesOk(s: State) {
    PhasesOk(s) && FilesOk(s)
  }

  /** Whoever is at a position, and whatever was marked there, has everything before it completed. */
  ghost predicate OrderOk(s: State) {
    && (forall id, q | id in s.runs && 0 <= q < s.runs[id].pos :: q in s.completed)
    && (forall id | id in s.runs && !s.runs[id].phase.AtCompleted? :: s.runs[id].pos < s.total)
    && (forall p, q | p in s.markers && 0 <= q < p :: q in s.completed)
    && (forall p | p in s.markers :: p < s.total)
  }

  /** The launched commands are exactly the first ones, each once, in order. */
  ghost predicate PrefixLaunched(s: State) {
    forall i | 0 <= i < |s.launched| :: s.launched[i] == i
  }

  ghost predicate Inv(s: State) {
    OwnersOk(s) && LaunchesOk(s) && OrderOk(s) && PrefixLaunched(s)
  }

  lemma LaunchedIs(s: State, p: nat)
    requires PrefixLaunched(s)
    ensures p in s.launched <==> p < |s.launched|
  {
    if p < |s.launched| { assert s.launched[p] == p; }
  }

  lemma StepKeepsOwners(s: State, id: nat, ok: bool)
    requires OwnersOk(s) && (forall p | p in s.completed :: p in s.markers) && id in s.runs
    ensures OwnersOk(StepRun(s, id, ok))
  {
    var t := StepRun(s, id, ok);
    var run := s.runs[id];
    hide CommandAt;
    forall i | i in t.runs && Owns(t.runs[i]) ensures t.runs[i].pos in t.markers && t.runs[i].pos !in t.completed {
      if i != id { assert i in s.runs && t.runs[i] == s.runs[i]; }
    }
    forall i, j | i in t.runs && j in t.runs && Owns(t.runs[i]) && Owns(t.runs[j]) && t.runs[i].pos == t.runs[j].pos
      ensures i == j
    {
      assert i != id ==> i in s.runs && t.runs[i] == s.runs[i];
      assert j != id ==> j in s.runs && t.runs[j] == s.runs[j];
    }
  }

  /** The other dispatchers stand where they stood. */
  lemma OthersStay(s: State, id: nat, ok: bool)
    requires id in s.runs
    ensures var t := StepRun(s, id, ok);
            && (forall i | i in t.runs && i != id :: i in s.runs && t.runs[i] == s.runs[i])
            && (id in t.runs && t.runs[id].phase.AtLaunch? ==> s.runs[id].phase.AtLog? && t.runs[id].pos == s.runs[id].pos)
            && (id in t.runs && t.runs[id].phase.AtLog? ==> s.runs[id].phase.AtCreate? && t.runs[id].pos == s.runs[id].pos && s.runs[id].pos !in s.markers)
            && (id in t.runs && t.runs[id].phase.Running? ==> t.runs[id].pos in t.launched)
            && (id in t.runs && t.runs[id].phase.AtReceipt? ==> t.runs[id].pos in t.succeeded)
            && (t.launched == s.launched || (s.runs[id].phase.AtLaunch? && t.launched == s.launched + [s.runs[id].pos]))
            && (id in t.runs && (t.runs[id].phase.AtLog? || t.runs[id].phase.AtLaunch?) ==> t.launched == s.launched)
            && s.succeeded <= t.succeeded
  {
    hide CommandAt;
  }

  lemma StepKeepsPhases(s: State, id: nat, ok: bool)
    requires OwnersOk(s) && PhasesOk(s) && (forall p | p in s.launched :: p in s.markers) && id in s.runs
    ensures PhasesOk(StepRun(s, id, ok))
  {
    hide StepRun;
    OthersStay(s, id, ok);
  }

  lemma StepKeepsFiles(s: State, id: nat, ok: bool)
    requires OwnersOk(s) && PhasesOk(s) && FilesOk(s) && id in s.runs
    ensures FilesOk(StepRun(s, id, ok))
  {
    hide CommandAt;
  }

  lemma PositionAfter(s: State, id: nat, ok: bool)
    requires id in s.runs && (!s.runs[id].phase.AtCompleted? ==> s.runs[id].pos < s.total)
    ensures var t, run := StepRun(s, id, ok), s.runs[id];
            && s.completed <= t.completed && t.total == s.total
            && (t.markers == s.markers || t.markers == s.markers + {run.pos})
            && (t.markers != s.markers ==> run.phase.AtCreate?)
            && (id in t.runs ==> t.runs[id].pos == run.pos || (t.runs[id] == Run(run.pos + 1, AtCompleted) && run.pos in t.completed))
            && (id in t.runs && !t.runs[id].phase.AtCompleted? ==> t.runs[id].pos < t.total)
  {
    hide CommandAt;
  }

  lemma StepKeepsOrder(s: State, id: nat, ok: bool)
    requires Inv(s) && id in s.runs
    ensures OrderOk(StepRun(s, id, ok))
  {
    hide StepRun, OwnersOk, LaunchesOk, PrefixLaunched;
    OthersStay(s, id, ok);
    PositionAfter(s, id, ok);
  }

  lemma StepKeepsPrefix(s: State, id: nat, ok: bool)
    requires Inv(s) && id in s.runs
    ensures PrefixLaunched(StepRun(s, id, ok))
  {
    var p := s.runs[id].pos;
    if s.runs[id].phase.AtLaunch? && ok {
      LaunchedIs(s, p);
      if p > |s.launched| {
        assert |s.launched| in s.completed;
        LaunchedIs(s, |s.launched|);
      }
      assert p == |s.launched|;
    }
  }

  lemma RunStepKeepsInv(s: State, id: nat, ok: bool)
    requires Inv(s) && id in s.runs
    ensures Inv(StepRun(s, id, ok)) && StepRun(s, id, ok).total == s.total
  {
    StepKeepsOwners(s, id, ok);
    StepKeepsPhases(s, id, ok);
    StepKeepsFiles(s, id, ok);
    StepKeepsOrder(s, id, ok);
    StepKeepsPrefix(s, id, ok);
    hide OwnersOk, PhasesOk, FilesOk, OrderOk, PrefixLaunched;
  }

  /** Starting, losing a dispatcher, and what an orphaned command still writes. */
  lemma WorldKeepsRuns(s: State, a: Action)
    requires OwnersOk(s) && PhasesOk(s) && !a.Next?
    ensures OwnersOk(Step(s, a)) && PhasesOk(Step(s, a))
  {
    var t := Step(s, a);
    assert forall id | id in t.runs && t.runs[id] != Run(0, AtCompleted) :: id in s.runs && t.runs[id] == s.runs[id];
  }

  lemma WorldKeepsFiles(s: State, a: Action)
    requires FilesOk(s) && OrderOk(s) && PrefixLaunched(s) && !a.Next?
    ensures FilesOk(Step(s, a)) && OrderOk(Step(s, a)) && PrefixLaunched(Step(s, a)) && Step(s, a).total == s.total
  {
  }

  lemma StepKeepsInv(s: State, a: Action)
    requires Inv(s)
    ensures Inv(Step(s, a)) && Step(s, a).total == s.total
  {
    hide OwnersOk, PhasesOk, FilesOk, OrderOk, PrefixLaunched, StepRun;
    if !a.Next? {
      WorldKeepsRuns(s, a);
      WorldKeepsFiles(s, a);
    } else if a.id in s.runs {
      RunStepKeepsInv(s, a.id, a.ok);
    }
  }

  lemma {:induction false} AlwaysInv(total: nat, actions: seq<Action>)
    ensures var s := After(Initial(total), actions); Inv(s) && s.total == total
  {
    if actions != [] {
      AlwaysInv(total, actions[..|actions| - 1]);
      StepKeepsInv(After(Initial(total), actions[..|actions| - 1]), actions[|actions| - 1]);
    }
  }

  /** At most once, and in order: over any interleaving of dispatchers and crashes the launched commands
      are a prefix of the frozen order, and each was launched once; every one but the last succeeded
      and has its durable receipt. */
  lemma LaunchedIsPrefix(total: nat, actions: seq<Action>)
    ensures var s := After(Initial(total), actions);
            && s.launched == Range(|s.launched|) && |s.launched| <= total
            && forall p: nat | p + 1 < |s.launched| :: p in s.completed && p in s.succeeded
  {
    AlwaysInv(total, actions);
    var s := After(Initial(total), actions);
    if s.launched != [] {
      var n := |s.launched| - 1;
      LaunchedIs(s, n);
      assert n in s.markers;
    }
  }

  /** No command of a product's fusion stage starts before every base stage of that product has
      completed all its commands. */
  lemma FusionWaitsForBase(products: seq<string>, actions: seq<Action>, p: nat, q: nat)
    requires NoDup(products) && p < 36 * |products| && q < 36 * |products|
    requires var fusion, base := StageAt(products, p), StageAt(products, q);
             fusion.strategy.DualFusion? && !base.strategy.DualFusion? && fusion.product == base.product
    ensures var s := After(Initial(36 * |products|), actions);
            p in s.launched ==> q in s.completed && q in s.succeeded
  {
    AlwaysInv(36 * |products|, actions);
    var a, b := p / 3, q / 3;
    assert products[a / 12] == products[b / 12];
    assert a / 12 == b / 12;
    assert a % 12 >= 8 && b % 12 < 8;
    assert q < p;
  }

  // ----- an unknown dispatch is never retried -----

  /** A marker whose dispatcher is gone and whose receipt was never written. */
  ghost predicate Abandoned(s: State, p: nat) {
    p in s.markers && p !in s.completed && forall id | id in s.runs && Owns(s.runs[id]) :: s.runs[id].pos != p
  }

  lemma StepKeepsAbandoned(s: State, a: Action, p: nat)
    requires Inv(s) && Abandoned(s, p)
    ensures Abandoned(Step(s, a), p) && Step(s, a).launched == s.launched
  {
  }

  /** Once a dispatch is unknown nothing is ever launched again, however often dispatchers restart. */
  lemma {:induction false} AbandonedForever(s: State, actions: seq<Action>, p: nat)
    requires Inv(s) && Abandoned(s, p)
    ensures Abandoned(After(s, actions), p) && After(s, actions).launched == s.launched && Inv(After(s, actions))
  {
    if actions != [] {
      var init := actions[..|actions| - 1];
      AbandonedForever(s, init, p);
      StepKeepsAbandoned(After(s, init), actions[|actions| - 1], p);
      StepKeepsInv(After(s, init), actions[|actions| - 1]);
    }
  }
}
