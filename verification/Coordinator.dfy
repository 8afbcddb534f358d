/**
 * One recovery attempt directory shared by any number of plan, apply and status processes, each of
 * which may die at any step. The files of the attempt are created exclusively; the database decides
 * on its own whether and when an invoked recovery commits.
 */
module Coordinator {
  import opened Wrappers

  type Path = nat

  /** What a process acts as: code, configuration and bindings. */
  type Identity = nat

  /** A plan is its own digest: two plans with the same hash are the same plan. */
  datatype Plan = Plan(identity: Identity, directory: nat, body: nat)

  datatype Binding = Binding(plan: Plan, path: Path)

  datatype PlanStep = EnsureAttempt | PutIdentity | CheckIdentity | PutBinding | PutPlan
  datatype ApplyStep = Load | PutClaim | Invoke | ProveCommit | PutReceipt
  datatype StatusStep = LoadHistorical | CheckClaim | ReadBack(claimed: bool, invokedThen: nat)

  /** One process and what it does next. */
  datatype Run =
    | Planning(who: Identity, planStep: PlanStep, plan: Plan, path: Path)
    | Applying(who: Identity, applyStep: ApplyStep, plan: Plan, path: Path)
    | Asking(statusStep: StatusStep, plan: Plan, path: Path)

  datatype Verdict = Committed | UnknownNoCommitProven | NotApplied

  /** A status answer, and how often recovery had been invoked when its claim was looked for. */
  datatype Answer = Answer(verdict: Verdict, plan: Plan, invokedThen: nat)

  /** The durable files of the attempt, what recovery was invoked with, what the database committed,
      and the answers given. */
  datatype Attempt = Attempt(
    directory: nat, created: bool, identity: Option<Identity>, binding: Option<Binding>, plans: map<Path, Plan>,
    claim: Option<Plan>, receipt: Option<Plan>,
    invoked: seq<Plan>, committed: set<Plan>, answers: seq<Answer>, claimDrifts: nat)

  datatype State = State(attempt: Attempt, runs: map<nat, Run>)

  datatype Action =
    | Start(id: nat, run: Run)
    | Crash(id: nat)
    | Next(id: nat, ok: bool)
    | DatabaseCommits(plan: Plan)
    | SomeoneWrites(path: Path, plan: Plan)

  function Initial(directory: nat): State {
    State(Attempt(directory, false, None, None, map[], None, None, [], {}, [], 0), map[])
  }

  /** The checks of a loaded plan: its content, its directory, the attempt and the binding. A status
      process does not ask for every part of the current identity. */
  predicate Loadable(a: Attempt, path: Path, plan: Plan) {
    && path in a.plans && a.plans[path] == plan && plan.directory == a.directory
    && a.identity == Some(plan.identity) && a.binding == Some(Binding(plan, path))
  }

  /** One step of one process: what it leaves, and what it does next, if anything. `ok` says how the
      world answers: a window or lease that holds, a file that could be written, an invocation that
      returns. */
  function StepPlan(a: Attempt, run: Run, ok: bool): (Attempt, Option<Run>)
    requires run.Planning?
  {
    match run.planStep
    case EnsureAttempt =>
      if a.created then (a, Some(run.(planStep := CheckIdentity)))
      else if !ok then (a, None)
      else (a.(created := true), Some(run.(planStep := PutIdentity)))
    case PutIdentity =>
      if a.identity.Some? || !ok then (a, None)
      else (a.(identity := Some(run.who)), Some(run.(planStep := CheckIdentity)))
    case CheckIdentity =>
      (a, if a.identity == Some(run.who) then Some(run.(planStep := PutBinding)) else None)
    case PutBinding =>
      if a.binding.Some? || !ok then (a, None)
      else (a.(binding := Some(Binding(run.plan, run.path))), Some(run.(planStep := PutPlan)))
    case PutPlan =>
      (if run.path in a.plans || !ok then a else a.(plans := a.plans[run.path := run.plan]), None)
  }

  function StepApply(a: Attempt, run: Run, ok: bool): (Attempt, Option<Run>)
    requires run.Applying?
  {
    match run.applyStep
    case Load =>
      (a, if Loadable(a, run.path, run.plan) && run.plan.identity == run.who && ok
          then Some(run.(applyStep := PutClaim)) else None)
    case PutClaim =>
      if a.claim.Some? || !ok then (a, None) else (a.(claim := Some(run.plan)), Some(run.(applyStep := Invoke)))
    case Invoke =>
      if !ok then (a, None) else (a.(invoked := a.invoked + [run.plan]), Some(run.(applyStep := ProveCommit)))
    case ProveCommit =>
      (a, if run.plan in a.committed && ok then Some(run.(applyStep := PutReceipt)) else None)
    case PutReceipt =>
      (if a.receipt.Some? || !ok then a else a.(receipt := Some(run.plan)), None)
  }

  function VerdictOf(a: Attempt, plan: Plan, claimed: bool): Verdict {
    if plan in a.committed then Committed else if claimed then UnknownNoCommitProven else NotApplied
  }

  function StepStatus(a: Attempt, run: Run, ok: bool): (Attempt, Option<Run>)
    requires run.Asking?
  {
    match run.statusStep
    case LoadHistorical =>
      (a, if Loadable(a, run.path, run.plan) && ok then Some(run.(statusStep := CheckClaim)) else None)
    case CheckClaim =>
      if a.claim.Some? && a.claim.value != run.plan then (a.(claimDrifts := a.claimDrifts + 1), None)
      else (a, Some(run.(statusStep := ReadBack(a.claim.Some?, |a.invoked|))))
    case ReadBack(claimed, invokedThen) =>
      (a.(answers := a.answers + [Answer(VerdictOf(a, run.plan, claimed), run.plan, invokedThen)]), None)
  }

  function StepOf(a: Attempt, run: Run, ok: bool): (Attempt, Option<Run>) {
    if run.Planning? then StepPlan(a, run, ok) else if run.Applying? then StepApply(a, run, ok) else StepStatus(a, run, ok)
  }

  /** Processes begin at their first step, and a plan is made under the planner's own identity. */
  predicate Begins(a: Attempt, run: Run) {
    match run
    case Planning(who, step, plan, _) => step.EnsureAttempt? && plan.identity == who && plan.directory == a.directory
    case Applying(_, step, _, _) => step.Load?
    case Asking(step, _, _) => step.LoadHistorical?
  }

  function Step(s: State, a: Action): State {
    match a
    case Start(id, run) => if id in s.runs || !Begins(s.attempt, run) then s else s.(runs := s.runs[id := run])
    case Crash(id) => s.(runs := s.runs - {id})
    case Next(id, ok) =>
      if id !in s.runs then s
      else
        var (attempt, next) := StepOf(s.attempt, s.runs[id], ok);
        State(attempt, if next.Some? then s.runs[id := next.value] else s.runs - {id})
    case DatabaseCommits(plan) =>
      if plan in s.attempt.invoked then s.(attempt := s.attempt.(committed := s.attempt.committed + {plan})) else s
    case SomeoneWrites(path, plan) =>
      if path in s.attempt.plans then s else s.(attempt := s.attempt.(plans := s.attempt.plans[path := plan]))
  }

  function After(s: State, actions: seq<Action>): State {
    if actions == [] then s else Step(After(s, actions[..|actions| - 1]), actions[|actions| - 1])
  }

  // ----- what every step keeps -----

  /** The plan of the attempt: the one it is bound to, made under its identity. */
  ghost predicate OnePlan(a: Attempt, plan: Plan) {
    a.binding.Some? && a.binding.value.plan == plan && a.identity == Some(plan.identity)
  }

  /** What a status answer proves. */
  ghost predicate Truthful(a: Attempt, answer: Answer) {
    match answer.verdict
    case Committed => answer.plan in a.committed
    case NotApplied => answer.invokedThen == 0
    case UnknownNoCommitProven => a.claim == Some(answer.plan)
  }

  ghost predicate AttemptOk(a: Attempt) {
    && (a.binding.Some? ==> a.identity == Some(a.binding.value.plan.identity))
    && (a.claim.Some? ==> OnePlan(a, a.claim.value))
    && (a.claim.None? ==> a.invoked == [])
    && |a.invoked| <= 1 && (a.invoked != [] ==> a.claim == Some(a.invoked[0]))
    && (forall plan | plan in a.committed :: plan in a.invoked)
    && (a.receipt.Some? ==> a.receipt.value in a.committed)
    && (forall answer | answer in a.answers :: Truthful(a, answer))
    && a.claimDrifts == 0
  }

  /** What a process relies on, given how far it has come. */
  ghost predicate RunOk(a: Attempt, run: Run) {
    match run
    case Planning(who, step, plan, _) =>
      plan.identity == who && (step.PutBinding? || step.PutPlan? ==> a.identity == Some(who))
    case Applying(_, step, plan, _) =>
      && (!step.Load? ==> OnePlan(a, plan)) && (step.PutReceipt? ==> plan in a.committed)
      && (step.Invoke? ==> a.claim == Some(plan))
    case Asking(step, plan, _) =>
      && (!step.LoadHistorical? ==> OnePlan(a, plan))
      && (step.ReadBack? ==> if step.claimed then a.claim == Some(plan) else step.invokedThen == 0)
  }

  predicate Invoking(run: Run) { run.Applying? && run.applyStep.Invoke? }

  /** Nothing an attempt has made durable ever changes. */
  ghost predicate Extends(t: Attempt, a: Attempt) {
    && (a.identity.Some? ==> t.identity == a.identity) && (a.binding.Some? ==> t.binding == a.binding)
    && (a.claim.Some? ==> t.claim == a.claim) && (a.receipt.Some? ==> t.receipt == a.receipt)
    && a.invoked <= t.invoked && a.committed <= t.committed && a.answers <= t.answers
    && t.directory == a.directory && forall path | path in a.plans :: path in t.plans && t.plans[path] == a.plans[path]
  }

  lemma RunOkStays(t: Attempt, a: Attempt, run: Run)
    requires Extends(t, a) && RunOk(a, run)
    ensures RunOk(t, run)
  {
  }

  lemma AnswersStay(t: Attempt, a: Attempt)
    requires Extends(t, a) && t.answers == a.answers && forall answer | answer in a.answers :: Truthful(a, answer)
    ensures forall answer | answer in t.answers :: Truthful(t, answer)
  {
    forall answer | answer in t.answers ensures Truthful(t, answer) { assert Truthful(a, answer); }
  }

  lemma PlanStepOk(a: Attempt, run: Run, ok: bool)
    requires AttemptOk(a) && RunOk(a, run) && run.Planning?
    ensures var (t, next) := StepPlan(a, run, ok);
            && AttemptOk(t) && Extends(t, a) && (next.Some? ==> next.value.Planning? && RunOk(t, next.value))
            && t.invoked == a.invoked && t.claim == a.claim
  {
    var t := StepPlan(a, run, ok).0;
    assert Extends(t, a);
    AnswersStay(t, a);
    hide Truthful, Extends;
  }

  lemma ApplyStepOk(a: Attempt, run: Run, ok: bool)
    requires AttemptOk(a) && RunOk(a, run) && run.Applying? && (Invoking(run) ==> a.invoked == [])
    ensures var (t, next) := StepApply(a, run, ok);
            && AttemptOk(t) && Extends(t, a) && (next.Some? ==> next.value.Applying? && RunOk(t, next.value))
            && (next.Some? && Invoking(next.value) ==> a.claim.None? && t.invoked == [])
            && (!Invoking(run) ==> t.invoked == a.invoked)
  {
    var t := StepApply(a, run, ok).0;
    forall answer | answer in t.answers ensures Truthful(t, answer) { assert Truthful(a, answer); }
  }

  lemma StatusStepOk(a: Attempt, run: Run, ok: bool)
    requires AttemptOk(a) && RunOk(a, run) && run.Asking?
    ensures var (t, next) := StepStatus(a, run, ok);
            && AttemptOk(t) && Extends(t, a) && (next.Some? ==> next.value.Asking? && RunOk(t, next.value))
            && t.invoked == a.invoked && t.claim == a.claim
  {
    var t := StepStatus(a, run, ok).0;
    forall answer | answer in t.answers ensures Truthful(t, answer) { assert answer in a.answers ==> Truthful(a, answer); }
  }

  ghost predicate Inv(s: State) {
    && AttemptOk(s.attempt)
    && (forall id | id in s.runs :: RunOk(s.attempt, s.runs[id]))
    && (forall id | id in s.runs && Invoking(s.runs[id]) :: s.attempt.claim.Some? && s.attempt.invoked == [])
    && (forall i, j | i in s.runs && j in s.runs && Invoking(s.runs[i]) && Invoking(s.runs[j]) :: i == j)
  }

  lemma RunStepOk(a: Attempt, run: Run, ok: bool)
    requires AttemptOk(a) && RunOk(a, run) && (Invoking(run) ==> a.invoked == [])
    ensures var (t, next) := StepOf(a, run, ok);
            && AttemptOk(t) && Extends(t, a) && (next.Some? ==> RunOk(t, next.value))
            && (next.Some? && Invoking(next.value) ==> a.claim.None? && t.claim.Some? && t.invoked == [])
            && (!Invoking(run) ==> t.invoked == a.invoked)
  {
    hide AttemptOk, Extends, StepPlan, StepApply, StepStatus, OnePlan;
    if run.Planning? { PlanStepOk(a, run, ok); }
    else if run.Applying? { ApplyStepOk(a, run, ok); }
    else { StatusStepOk(a, run, ok); }
  }

  lemma NextKeepsInv(s: State, id: nat, ok: bool)
    requires Inv(s) && id in s.runs
    ensures Inv(Step(s, Next(id, ok))) && Extends(Step(s, Next(id, ok)).attempt, s.attempt)
  {
    var t := Step(s, Next(id, ok));
    RunStepOk(s.attempt, s.runs[id], ok);
    hide AttemptOk, Extends, StepOf, RunOk;
    forall i | i in t.runs ensures RunOk(t.attempt, t.runs[i]) {
      if i != id { RunOkStays(t.attempt, s.attempt, s.runs[i]); }
    }
    ClaimStays(t.attempt, s.attempt);
  }

  lemma ClaimStays(t: Attempt, a: Attempt)
    requires Extends(t, a)
    ensures a.claim.Some? ==> t.claim == a.claim
  {
  }

  /** A commit of what was invoked, or a plan file that somebody writes, changes no promise of the attempt. */
  lemma WorldKeepsAttempt(s: State, a: Action)
    requires AttemptOk(s.attempt) && !a.Next?
    ensures AttemptOk(Step(s, a).attempt) && Extends(Step(s, a).attempt, s.attempt)
    ensures Step(s, a).attempt.claim == s.attempt.claim && Step(s, a).attempt.invoked == s.attempt.invoked
  {
    var t := Step(s, a);
    forall answer | answer in t.attempt.answers ensures Truthful(t.attempt, answer) { assert Truthful(s.attempt, answer); }
    hide Begins, OnePlan;
  }

  lemma WorldRuns(s: State, a: Action, id: nat)
    requires !a.Next? && id in Step(s, a).runs
    ensures if id in s.runs then Step(s, a).runs[id] == s.runs[id]
            else Begins(s.attempt, Step(s, a).runs[id])
  {
    hide Begins;
  }

  lemma BeginsOk(t: Attempt, a: Attempt, run: Run)
    requires Begins(a, run)
    ensures RunOk(t, run) && !Invoking(run)
  {
  }

  lemma WorldKeepsInv(s: State, a: Action)
    requires Inv(s) && !a.Next?
    ensures Inv(Step(s, a)) && Extends(Step(s, a).attempt, s.attempt)
  {
    hide AttemptOk, Extends, RunOk, Step, Begins, Invoking;
    var t := Step(s, a);
    WorldKeepsAttempt(s, a);
    forall i | i in t.runs
      ensures RunOk(t.attempt, t.runs[i]) && (Invoking(t.runs[i]) ==> i in s.runs && t.runs[i] == s.runs[i])
    {
      WorldRuns(s, a, i);
      if i in s.runs { RunOkStays(t.attempt, s.attempt, s.runs[i]); } else { BeginsOk(t.attempt, s.attempt, t.runs[i]); }
    }
  }

  lemma {:induction false} AlwaysInv(s: State, actions: seq<Action>)
    requires Inv(s)
    ensures Inv(After(s, actions)) && Extends(After(s, actions).attempt, s.attempt)
  {
    if actions != [] {
      var init, a := actions[..|actions| - 1], actions[|actions| - 1];
      AlwaysInv(s, init);
      var before := After(s, init);
      hide Inv, Step;
      if a.Next? {
        if a.id in RunsOf(before) { NextKeepsInv(before, a.id, a.ok); } else { NothingHappens(before, a); }
      } else {
        WorldKeepsInv(before, a);
      }
      ExtendsTransitive(Step(before, a).attempt, before.attempt, s.attempt);
    }
  }

  function RunsOf(s: State): map<nat, Run> { s.runs }

  lemma NothingHappens(s: State, a: Action)
    requires a.Next? && a.id !in s.runs
    ensures Step(s, a) == s && Extends(s.attempt, s.attempt)
  {
  }

  lemma ExtendsTransitive(c: Attempt, b: Attempt, a: Attempt)
    requires Extends(c, b) && Extends(b, a)
    ensures Extends(c, a)
  {
  }

  // ----- the guarantees of an attempt -----

  lemma InitialInv(directory: nat)
    ensures Inv(Initial(directory))
  {
  }

  /** One plan and one apply: over every interleaving of crashed and repeated processes an attempt binds
      one plan at most, claims only that plan, invokes recovery at most once and only with the claimed
      plan; and no status process ever finds a claim that differs from the plan it loaded. */
  lemma OneAttemptOneApply(directory: nat, actions: seq<Action>)
    ensures var a := After(Initial(directory), actions).attempt;
            && |a.invoked| <= 1 && (a.invoked != [] ==> a.claim == Some(a.invoked[0]))
            && (a.claim.Some? ==> a.binding.Some? && a.binding.value.plan == a.claim.value && a.identity == Some(a.claim.value.identity))
            && (a.receipt.Some? ==> a.receipt.value in a.committed && a.receipt == a.claim)
            && a.claimDrifts == 0
  {
    InitialInv(directory);
    AlwaysInv(Initial(directory), actions);
    var a := After(Initial(directory), actions).attempt;
    hide After, Initial, RunOk, Truthful, Extends;
    if a.receipt.Some? { assert a.receipt.value in a.invoked; }
  }

  /** What is bound, claimed or received once stays so, whatever runs afterwards. */
  lemma BoundForever(directory: nat, before: seq<Action>, more: seq<Action>)
    ensures var a, t := After(Initial(directory), before).attempt, After(After(Initial(directory), before), more).attempt;
            && (a.binding.Some? ==> t.binding == a.binding) && (a.claim.Some? ==> t.claim == a.claim)
            && (a.receipt.Some? ==> t.receipt == a.receipt) && a.invoked <= t.invoked
  {
    AlwaysInv(Initial(directory), before);
    AlwaysInv(After(Initial(directory), before), more);
  }

  /** Every answer is true of the moment it rests on: committed means the database has committed the
      plan, not applied means recovery had not been invoked when the claim was looked for, and unknown
      means the plan is claimed. */
  lemma AnswersAreTrue(directory: nat, actions: seq<Action>, answer: Answer)
    requires answer in After(Initial(directory), actions).attempt.answers
    ensures var a := After(Initial(directory), actions).attempt;
            && (answer.verdict.Committed? ==> answer.plan in a.committed && a.invoked == [answer.plan])
            && (answer.verdict.NotApplied? ==> answer.invokedThen == 0)
            && (answer.verdict.UnknownNoCommitProven? ==> a.claim == Some(answer.plan))
  {
    AlwaysInv(Initial(directory), actions);
    var a := After(Initial(directory), actions).attempt;
    assert Truthful(a, answer);
    if answer.verdict.Committed? { assert answer.plan in a.invoked && a.invoked == [a.invoked[0]]; }
  }

  /** The action is a process invoking recovery. */
  predicate Invokes(s: State, a: Action) {
    a.Next? && a.ok && a.id in s.runs && Invoking(s.runs[a.id])
  }

  /** Recovery is invoked somewhere along the actions. */
  ghost predicate InvokesDuring(s: State, actions: seq<Action>) {
    exists k :: 0 <= k < |actions| && Invokes(After(s, actions[..k]), actions[k])
  }

  lemma InvokedStep(s: State, a: Action)
    requires Inv(s)
    ensures Step(s, a).attempt.invoked == s.attempt.invoked + if Invokes(s, a) then [s.runs[a.id].plan] else []
  {
    if a.Next? && a.id in s.runs && !Invoking(s.runs[a.id]) { RunStepOk(s.attempt, s.runs[a.id], a.ok); }
    assert s.attempt.invoked + [] == s.attempt.invoked;
  }

  lemma {:induction false} InvokedDuring(s: State, actions: seq<Action>)
    requires Inv(s) && s.attempt.invoked == []
    ensures After(s, actions).attempt.invoked == [] <==> !InvokesDuring(s, actions)
  {
    if actions != [] {
      var n := |actions| - 1;
      InvokedDuring(s, actions[..n]);
      AlwaysInv(s, actions[..n]);
      InvokedStep(After(s, actions[..n]), actions[n]);
      hide Inv, Step;
      DuringSnoc(s, actions);
    }
  }

  lemma DuringSnoc(s: State, actions: seq<Action>)
    requires actions != []
    ensures var n := |actions| - 1;
            InvokesDuring(s, actions) <==> InvokesDuring(s, actions[..n]) || Invokes(After(s, actions[..n]), actions[n])
  {
    var n := |actions| - 1;
    hide After, Invokes;
    forall k | 0 <= k < n ensures actions[..n][..k] == actions[..k] && actions[..n][k] == actions[k] {
    }
    if InvokesDuring(s, actions[..n]) {
      var k :| 0 <= k < n && Invokes(After(s, actions[..n][..k]), actions[..n][k]);
      assert Invokes(After(s, actions[..k]), actions[k]);
    }
    if InvokesDuring(s, actions) {
      var k :| 0 <= k < |actions| && Invokes(After(s, actions[..k]), actions[k]);
      if k < n { assert Invokes(After(s, actions[..n][..k]), actions[..n][k]); }
    }
  }

  /** Exactly what an answer says about the moment it is given, whatever other processes did since the
      claim was looked for: committed and unknown are true of it; not applied is, if and only if no process
      invoked recovery in between, and in particular as long as nobody has claimed. */
  lemma AnswerExactly(s: State, i: nat, actions: seq<Action>)
    requires Inv(s) && i in s.runs && s.runs[i].Asking? && s.runs[i].statusStep.CheckClaim?
    requires var looked := Step(s, Next(i, true));
             i in looked.runs && i in After(looked, actions).runs && After(looked, actions).runs[i] == looked.runs[i]
    ensures var looked, plan := Step(s, Next(i, true)), s.runs[i].plan;
            var before := After(looked, actions).attempt;
            var t := Step(After(looked, actions), Next(i, true)).attempt;
            && |t.answers| == |before.answers| + 1
            && var verdict := t.answers[|before.answers|].verdict;
               && (verdict.Committed? <==> plan in t.committed)
               && (verdict.NotApplied? <==> s.attempt.claim.None? && plan !in t.committed)
               && (verdict.UnknownNoCommitProven? <==> s.attempt.claim == Some(plan) && plan !in t.committed)
               && (verdict.UnknownNoCommitProven? ==> t.claim == Some(plan))
               && (verdict.NotApplied? ==> (t.invoked == [] <==> !InvokesDuring(looked, actions)))
               && (t.claim.None? ==> t.invoked == [])
  {
    var looked := Step(s, Next(i, true));
    assert RunOk(s.attempt, s.runs[i]);
    NextKeepsInv(s, i, true);
    AlwaysInv(looked, actions);
    ClaimStays(After(looked, actions).attempt, looked.attempt);
    if s.attempt.claim.None? { InvokedDuring(looked, actions); }
    hide After, InvokesDuring;
  }

  /** One plan, the process that made it, one that applies it and one that asks. */
  function Race(who: Identity, plan: Plan, path: Path): seq<Action> {
    [Start(0, Planning(who, EnsureAttempt, plan, path)), Next(0, true), Next(0, true), Next(0, true), Next(0, true), Next(0, true),
     Start(1, Applying(who, Load, plan, path)), Next(1, true),
     Start(2, Asking(LoadHistorical, plan, path)), Next(2, true)]
  }

  lemma AfterOne(s: State, actions: seq<Action>, a: Action)
    ensures After(s, actions + [a]) == Step(After(s, actions), a)
  {
    assert (actions + [a])[..|actions|] == actions;
  }

  lemma {:induction false} AfterAll(s: State, actions: seq<Action>, more: seq<Action>)
    ensures After(s, actions + more) == After(After(s, actions), more)
    decreases |more|
  {
    if more == [] {
      assert actions + more == actions;
    } else {
      var n := |more| - 1;
      assert actions + more == (actions + more[..n]) + [more[n]];
      AfterOne(s, actions + more[..n], more[n]);
      AfterAll(s, actions, more[..n]);
    }
  }

  lemma AfterTwo(s: State, a: Action, b: Action)
    ensures After(s, [a, b]) == Step(Step(s, a), b)
  {
    assert After(s, []) == s;
    AfterOne(s, [], a);
    AfterOne(s, [a], b);
    assert [] + [a] == [a] && [a] + [b] == [a, b];
  }

  /** Planning from nothing leaves a bound plan. */
  lemma PlannedRace(directory: nat, who: Identity, body: nat, path: Path)
    ensures var plan := Plan(who, directory, body);
            After(Initial(directory), Race(who, plan, path)[..6]) == Planned(plan, path)
  {
    var plan := Plan(who, directory, body);
    var race := Race(who, plan, path);
    var s0 := Initial(directory);
    hide After;
    AfterTwo(s0, race[0], race[1]);
    var s2 := Step(Step(s0, race[0]), race[1]);
    AfterTwo(s2, race[2], race[3]);
    var s4 := Step(Step(s2, race[2]), race[3]);
    AfterTwo(s4, race[4], race[5]);
    var s5 := Step(s4, race[4]);
    assert Step(s5, race[5]).runs == map[];
    assert Step(s5, race[5]) == Planned(plan, path);
    hide Step;
    assert race[..6] == [race[0], race[1]] + ([race[2], race[3]] + [race[4], race[5]]);
    AfterAll(s0, [race[0], race[1]], [race[2], race[3]] + [race[4], race[5]]);
    AfterAll(s2, [race[2], race[3]], [race[4], race[5]]);
  }

  /** An attempt that has bound its plan and done nothing else. */
  function Planned(plan: Plan, path: Path): State {
    State(Attempt(plan.directory, true, Some(plan.identity), Some(Binding(plan, path)), map[path := plan], None, None, [], {}, [], 0), map[])
  }

  /** Then one process is about to claim and one about to look for the claim. */
  function Poised(plan: Plan, path: Path): State {
    Planned(plan, path).(runs := map[1 := Applying(plan.identity, PutClaim, plan, path), 2 := Asking(CheckClaim, plan, path)])
  }

  lemma PoisedRace(plan: Plan, path: Path)
    ensures var race := Race(plan.identity, plan, path);
            After(Planned(plan, path), [race[6], race[7]] + [race[8], race[9]]) == Poised(plan, path)
  {
    hide After;
    var race := Race(plan.identity, plan, path);
    var s6 := Planned(plan, path);
    AfterTwo(s6, race[6], race[7]);
    var s8 := Step(Step(s6, race[6]), race[7]);
    AfterTwo(s8, race[8], race[9]);
    assert Step(Step(s8, race[8]), race[9]) == Poised(plan, path);
    AfterAll(s6, [race[6], race[7]], [race[8], race[9]]);
  }

  lemma LateAnswer(plan: Plan, path: Path)
    ensures var t := After(Poised(plan, path), [Next(2, true), Next(1, true)] + [Next(1, true), Next(2, true)]).attempt;
            t.answers == [Answer(NotApplied, plan, 0)] && t.invoked == [plan]
  {
    hide After;
    var s := Poised(plan, path);
    AfterTwo(s, Next(2, true), Next(1, true));
    var claimed := Step(Step(s, Next(2, true)), Next(1, true));
    AfterTwo(claimed, Next(1, true), Next(2, true));
    AfterAll(s, [Next(2, true), Next(1, true)], [Next(1, true), Next(2, true)]);
  }

  /** Not applied is not a statement about the moment the answer is given: a run from nothing in which the
      status process looks for the claim, recovery is then invoked, and the answer is not applied. */
  lemma NotAppliedCanBeLate(directory: nat, who: Identity, body: nat, path: Path)
    ensures var plan := Plan(who, directory, body);
            var s := After(Initial(directory), Race(who, plan, path));
            var t := After(s, [Next(2, true), Next(1, true)] + [Next(1, true), Next(2, true)]).attempt;
            t.answers == [Answer(NotApplied, plan, 0)] && t.invoked == [plan]
  {
    hide After, Planned, Poised, Step, Race;
    var plan := Plan(who, directory, body);
    var race := Race(who, plan, path);
    PlannedRace(directory, who, body, path);
    PoisedRace(plan, path);
    LateAnswer(plan, path);
    RaceSplit(who, plan, path);
    AfterAll(Initial(directory), race[..6], [race[6], race[7]] + [race[8], race[9]]);
  }

  lemma RaceSplit(who: Identity, plan: Plan, path: Path)
    ensures var race := Race(who, plan, path);
            |race| == 10 && race == race[..6] + ([race[6], race[7]] + [race[8], race[9]])
  {
  }

  /** A claim whose process is gone before it invoked is final: recovery is never invoked there. */
  lemma {:induction false} LostClaimNeverInvokes(s: State, actions: seq<Action>)
    requires Inv(s) && s.attempt.claim.Some? && s.attempt.invoked == []
    requires forall id | id in s.runs :: !Invoking(s.runs[id])
    ensures var t := After(s, actions);
            Inv(t) && t.attempt.invoked == [] && t.attempt.claim.Some? && forall id | id in t.runs :: !Invoking(t.runs[id])
  {
    if actions != [] {
      var init, a := actions[..|actions| - 1], actions[|actions| - 1];
      LostClaimNeverInvokes(s, init);
      AlwaysInv(s, actions);
      var before := After(s, init);
      if a.Next? && a.id in before.runs {
        RunStepOk(before.attempt, before.runs[a.id], a.ok);
      }
      hide StepOf, AttemptOk, RunOk;
    }
  }
}
