/**
 * The maintenance window: permission rests on a wall clock, which may step either way, and on a
 * monotonic clock. Refreshing the session can only shrink it. Under it a bounded catch-up borrows the
 * native runner's hooks and gives them back on every exit.
 */
module Maintenance {
  import opened Wrappers
  import opened Seqs

  // ----- the guard -----

  /** The wall instant and the monotonic span after which permission ends. */
  datatype Window = Window(boundary: int, start: int, limit: int)

  datatype Permission = Permitted | PreimageChanged | WindowEnded | SessionBlocked

  /** One reading of the world by `check`: whether the parked owner is unchanged, and both clocks. */
  datatype Reading = Reading(intact: bool, wall: int, mono: int)

  datatype Event =
    | Check(reading: Reading)
    | Refresh(session: Option<int>, mono: int, wall: int, reading: Reading)

  function Min(a: int, b: int): int { if a <= b then a else b }

  function Judge(w: Window, r: Reading): Permission {
    if !r.intact then PreimageChanged
    else if r.wall >= w.boundary || r.mono - w.start >= w.limit then WindowEnded
    else Permitted
  }

  /** The window after a refresh that read a session boundary and then both clocks. */
  function Shrunk(w: Window, session: int, mono: int, wall: int): Window {
    var boundary := Min(w.boundary, session);
    Window(boundary, w.start, Min(w.limit, mono - w.start + (boundary - wall)))
  }

  function StepGuard(w: Window, e: Event): (Window, Permission) {
    match e
    case Check(reading) => (w, Judge(w, reading))
    case Refresh(session, mono, wall, reading) =>
      if session.None? then (w, SessionBlocked)
      else var t := Shrunk(w, session.value, mono, wall); (t, Judge(t, reading))
  }

  function WindowAfter(w: Window, events: seq<Event>): Window {
    if events == [] then w else StepGuard(WindowAfter(w, events[..|events| - 1]), events[|events| - 1]).0
  }

  const DEADLINE_INVALID := "REFERENCE_MAINTENANCE_DEADLINE_INVALID"
  const OWNER_INVALID := "REFERENCE_MAINTENANCE_OWNER_INVALID"
  const OWNER_BUSY := "REFERENCE_MAINTENANCE_OWNER_BUSY"
  const SESSION_BLOCKED := "REFERENCE_MAINTENANCE_SESSION_BLOCKED"
  const PREIMAGE_CHANGED := "REFERENCE_MAINTENANCE_PREIMAGE_CHANGED"
  const WINDOW_ENDED := "REFERENCE_MAINTENANCE_WINDOW_ENDED"

  /** The error a failed permission is raised as. */
  function CodeOf(p: Permission): string {
    match p
    case PreimageChanged => PREIMAGE_CHANGED
    case SessionBlocked => SESSION_BLOCKED
    case _ => WINDOW_ENDED
  }

  /** What a maintenance run meets when it asks for its window: the clock, the owner file and its lock, the
      session boundary, both clocks after it, and the first check. */
  datatype Admission = Admission(
    deadline: int, now: int, ownerValid: bool, ownerFree: bool, session: Option<int>, mono: int, wall: int, first: Reading)

  function FirstWindow(a: Admission): Window
    requires a.session.Some?
  {
    var boundary := Min(a.deadline, a.session.value);
    Window(boundary, a.mono, boundary - a.wall)
  }

  /** Why a run gets no window, if it gets none. */
  function Admitted(a: Admission): (r: Option<string>)
    ensures r == None ==> a.session.Some?
  {
    if a.deadline <= a.now then Some(DEADLINE_INVALID)
    else if !a.ownerValid then Some(OWNER_INVALID)
    else if !a.ownerFree then Some(OWNER_BUSY)
    else if a.session.None? then Some(SESSION_BLOCKED)
    else
      var p := Judge(FirstWindow(a), a.first);
      if p.Permitted? then None else Some(CodeOf(p))
  }

  class Guard {
    var boundary: int
    var limit: int
    const start: int

    ghost function State(): Window
      reads this
    {
      Window(boundary, start, limit)
    }

    /** Take the window: a deadline that has passed, an owner file that is not the runner's own, an owner
        that is still busy, a blocked session and a first check that fails all refuse it. */
    static method Open(a: Admission) returns (g: Guard?, code: Option<string>)
      ensures code == Admitted(a) && (g == null <==> code.Some?)
      ensures g != null ==> fresh(g) && g.State() == FirstWindow(a)
    {
      g := null;
      if a.deadline <= a.now {
        return null, Some(DEADLINE_INVALID);
      }
      if !a.ownerValid {
        return null, Some(OWNER_INVALID);
      }
      if !a.ownerFree {
        return null, Some(OWNER_BUSY);
      }
      if a.session.None? {
        return null, Some(SESSION_BLOCKED);
      }
      var guard := new Guard(a.deadline, a.session.value, a.mono, a.wall);
      var p := guard.CheckNow(a.first);
      if !p.Permitted? {
        return null, Some(CodeOf(p));
      }
      g, code := guard, None;
    }

    constructor (deadline: int, session: int, mono: int, wall: int)
      ensures State() == Window(Min(deadline, session), mono, Min(deadline, session) - wall)
    {
      boundary := Min(deadline, session);
      limit := Min(deadline, session) - wall;
      start := mono;
    }

    method CheckNow(r: Reading) returns (p: Permission)
      ensures p == Judge(State(), r)
    {
      if !r.intact {
        return PreimageChanged;
      }
      if r.wall >= boundary || r.mono - start >= limit {
        return WindowEnded;
      }
      p := Permitted;
    }

    method RefreshSession(session: Option<int>, mono: int, wall: int, r: Reading) returns (p: Permission)
      modifies this
      ensures (State(), p) == StepGuard(old(State()), Refresh(session, mono, wall, r))
      ensures boundary <= old(boundary) && limit <= old(limit)
    {
      if session.None? {
        return SessionBlocked;
      }
      boundary := Min(boundary, session.value);
      limit := Min(limit, mono - start + (boundary - wall));
      p := CheckNow(r);
    }
  }

  /** Over any sequence of checks and refreshes, whatever the clocks read, the window only shrinks. */
  lemma {:induction false} WindowOnlyShrinks(w: Window, events: seq<Event>)
    ensures var t := WindowAfter(w, events); t.boundary <= w.boundary && t.limit <= w.limit && t.start == w.start
  {
    if events != [] {
      WindowOnlyShrinks(w, events[..|events| - 1]);
    }
  }

  function LastMono(e: Event): int { e.reading.mono }

  /** The monotonic clock never steps back across the events. */
  ghost predicate MonotonicFrom(t: int, events: seq<Event>) {
    forall i | 0 <= i < |events| :: t <= LastMono(events[i])
  }

  /** Running out of elapsed time is permanent: once the monotonic span is used up no later check or
      refresh permits anything, wherever the wall clock is set. */
  lemma ElapsedIsPermanent(w: Window, t: int, events: seq<Event>, e: Event)
    requires t - w.start >= w.limit && MonotonicFrom(t, events + [e])
    ensures !StepGuard(WindowAfter(w, events), e).1.Permitted?
  {
    WindowOnlyShrinks(w, events);
    assert (events + [e])[|events|] == e;
    var now := StepGuard(WindowAfter(w, events), e).0;
    assert (events + [e])[..|events|] == events;
    WindowOnlyShrinks(w, events + [e]);
    assert WindowAfter(w, events + [e]) == now;
  }

  /** So no sequence of wall-clock steps buys more than the first window: whatever is permitted is
      permitted within the monotonic span granted at the start. */
  lemma PermittedWithinFirstSpan(w: Window, events: seq<Event>, e: Event)
    requires StepGuard(WindowAfter(w, events), e).1.Permitted?
    ensures LastMono(e) - w.start < w.limit
  {
    assert (events + [e])[..|events|] == events;
    assert WindowAfter(w, events + [e]) == StepGuard(WindowAfter(w, events), e).0;
    WindowOnlyShrinks(w, events);
    WindowOnlyShrinks(w, events + [e]);
  }

  /** What admission is worth: whatever checks and refreshes follow and however the wall clock is set, nothing
      is permitted once the monotonic clock has moved from its first reading by the time that was left then
      to the deadline or to the session boundary, whichever came first; and the first check lay within it. */
  lemma AdmittedUntil(a: Admission, events: seq<Event>, e: Event)
    requires Admitted(a) == None
    ensures a.deadline > a.now && a.first.mono - a.mono < Min(a.deadline, a.session.value) - a.wall
    ensures StepGuard(WindowAfter(FirstWindow(a), events), e).1.Permitted? ==>
              LastMono(e) < a.mono + (Min(a.deadline, a.session.value) - a.wall)
  {
    if StepGuard(WindowAfter(FirstWindow(a), events), e).1.Permitted? {
      PermittedWithinFirstSpan(FirstWindow(a), events, e);
    }
  }

  /** After a refresh nothing is permitted beyond the session boundary it read: not by more monotonic time
      than was left to the boundary on the wall clock at that moment. */
  lemma RefreshBindsElapsed(w: Window, session: int, mono: int, wall: int, events: seq<Event>, e: Event)
    requires StepGuard(WindowAfter(Shrunk(w, session, mono, wall), events), e).1.Permitted?
    ensures LastMono(e) - mono < session - wall && LastMono(e) - mono < w.boundary - wall
  {
    PermittedWithinFirstSpan(Shrunk(w, session, mono, wall), events, e);
  }

  /** A failure that only the wall clock causes is not permanent: a clock set back permits again. */
  lemma WallFailureCanPass(w: Window, wall: int, mono: int)
    requires wall >= w.boundary && mono - w.start < w.limit
    ensures Judge(w, Reading(true, wall, mono)) == WindowEnded
    ensures exists earlier :: Judge(w, Reading(true, earlier, mono)) == Permitted
  {
    assert Judge(w, Reading(true, w.boundary - 1, mono)) == Permitted;
  }

  // ----- the bounded catch-up -----

  datatype FrozenRoute = FrozenRoute(id: string, identity: nat, since: int, endpoint: int)

  datatype Route = Route(identity: nat, since: int, reason: Option<string>, through: Option<int>)

  datatype Plan = Plan(maxTicks: nat, routes: seq<FrozenRoute>)

  datatype Hook = Native(id: nat) | Maintaining | Foreign(id: nat)
  datatype Hooks = Hooks(routes: Hook, endpoint: Hook, components: Hook)

  /** What one round of the catch-up meets: the reading of its check, the routes there are, the pending
      intents with whether each is blocked, the checks and refreshes made during its tick, the hooks that
      the tick leaves in place, and how the tick ends. */
  datatype Round = Round(
    reading: Reading, observed: map<string, Route>, pending: map<string, bool>,
    during: seq<Event>, hooks: Hooks, tickFails: Option<string>, busy: bool)

  datatype Catchup =
    | Completed(ticks: nat)
    | Blocked(ids: seq<string>, ticks: nat)
    | Partial(reason: string, ticks: nat)
    | Raised(code: string)

  const PLAN_INVALID := "REFERENCE_MAINTENANCE_PLAN_INVALID"
  const SCOPE_INVALID := "REFERENCE_MAINTENANCE_SCOPE_INVALID"
  const ASSET_MISSING := "REFERENCE_MAINTENANCE_ASSET_MISSING"
  const SCOPE_CHANGED := "REFERENCE_MAINTENANCE_SCOPE_CHANGED"
  const SOURCE_BUSY := "SOURCE_BUSY"
  const BUDGET_REACHED := "TICK_BUDGET_REACHED"

  function IdsOf(routes: seq<FrozenRoute>): seq<string> {
    Map((r: FrozenRoute) => r.id, routes)
  }

  /** Every frozen route still exists, unchanged. */
  function ScopeError(routes: seq<FrozenRoute>, observed: map<string, Route>): Option<string> {
    if exists r :: r in routes && r.id !in observed then Some(ASSET_MISSING)
    else if exists r :: r in routes && (r.id !in observed || observed[r.id].identity != r.identity || observed[r.id].since != r.since)
    then Some(SCOPE_CHANGED)
    else None
  }

  /** A route has reached its frozen endpoint and nothing about it is pending. */
  predicate Reached(r: FrozenRoute, round: Round) {
    && r.id in round.observed && r.id !in round.pending
    && round.observed[r.id].reason.None? && round.observed[r.id].through.Some?
    && round.observed[r.id].through.value >= r.endpoint
  }

  function Unfinished(routes: seq<FrozenRoute>, round: Round): seq<FrozenRoute> {
    Filter((r: FrozenRoute) => !Reached(r, round), routes)
  }

  predicate IsBlocked(r: FrozenRoute, round: Round) { r.id in round.pending && round.pending[r.id] }

  /** How one round ends the catch-up, if it does, under the window it finds. */
  function RoundEnds(w: Window, routes: seq<FrozenRoute>, round: Round, index: nat): Option<Catchup> {
    var unfinished := Unfinished(routes, round);
    if !Judge(w, round.reading).Permitted? then Some(Raised(CodeOf(Judge(w, round.reading))))
    else if ScopeError(routes, round.observed).Some? then Some(Raised(ScopeError(routes, round.observed).value))
    else if unfinished == [] then Some(Completed(index))
    else if forall r | r in unfinished :: IsBlocked(r, round) then Some(Blocked(IdsOf(unfinished), index))
    else if round.tickFails.Some? then Some(Raised(round.tickFails.value))
    else if round.busy then Some(Partial(SOURCE_BUSY, index + 1))
    else None
  }

  /** The window a round finds: the one the ticks before it have left. */
  function WindowAt(w: Window, rounds: seq<Round>, i: nat): Window
    requires i <= |rounds|
  {
    if i == 0 then w else WindowAfter(WindowAt(w, rounds, i - 1), rounds[i - 1].during)
  }

  /** No round before the k-th ends the catch-up. */
  ghost predicate Reaches(w: Window, routes: seq<FrozenRoute>, rounds: seq<Round>, k: nat)
    requires k <= |rounds|
  {
    forall i | 0 <= i < k :: RoundEnds(WindowAt(w, rounds, i), routes, rounds[i], i) == None
  }

  class Runner {
    var hooks: Hooks
    var ticks: nat

    constructor (routes: nat, endpoint: nat, components: nat)
      ensures hooks == Hooks(Native(routes), Native(endpoint), Native(components)) && ticks == 0
    {
      hooks, ticks := Hooks(Native(routes), Native(endpoint), Native(components)), 0;
    }

    /** One native tick: it checks and refreshes the window as it goes, and may leave any hooks. */
    method Tick(guard: Guard, round: Round)
      modifies this, guard
      ensures ticks == old(ticks) + 1 && hooks == round.hooks
      ensures guard.State() == WindowAfter(old(guard.State()), round.during)
    {
      for i := 0 to |round.during|
        invariant guard.State() == WindowAfter(old(guard.State()), round.during[..i])
        invariant ticks == old(ticks)
      {
        assert round.during[..i + 1][..i] == round.during[..i];
        match round.during[i] {
          case Check(reading) =>
            var _ := guard.CheckNow(reading);
          case Refresh(session, mono, wall, reading) =>
            var _ := guard.RefreshSession(session, mono, wall, reading);
        }
      }
      assert round.during[..|round.during|] == round.during;
      ticks, hooks := ticks + 1, round.hooks;
    }

    /** One round: check, look at the routes, and tick unless that is the end. */
    method OneRound(guard: Guard, plan: Plan, round: Round, index: nat) returns (end: Option<Catchup>)
      modifies this, guard
      ensures end == RoundEnds(old(guard.State()), plan.routes, round, index)
      ensures old(ticks) <= ticks <= old(ticks) + 1
      ensures end == None ==> ticks == old(ticks) + 1 && guard.State() == WindowAfter(old(guard.State()), round.during)
      ensures end.Some? && end.value.Completed? ==> ticks == old(ticks)
    {
      hide ScopeError, Unfinished, Judge, WindowAfter;
      var permission := guard.CheckNow(round.reading);
      if !permission.Permitted? {
        return Some(Raised(CodeOf(permission)));
      }
      var scope := ScopeError(plan.routes, round.observed);
      if scope.Some? {
        return Some(Raised(scope.value));
      }
      var unfinished := Unfinished(plan.routes, round);
      if unfinished == [] {
        return Some(Completed(index));
      }
      if forall r | r in unfinished :: IsBlocked(r, round) {
        return Some(Blocked(IdsOf(unfinished), index));
      }
      Tick(guard, round);
      if round.tickFails.Some? {
        return Some(Raised(round.tickFails.value));
      }
      end := if round.busy then Some(Partial(SOURCE_BUSY, index + 1)) else None;
    }

    method Rounds(guard: Guard, plan: Plan, rounds: seq<Round>) returns (r: Catchup, ghost k: nat)
      requires |rounds| == plan.maxTicks
      modifies this, guard
      ensures var w := old(guard.State());
              && k <= |rounds| && Reaches(w, plan.routes, rounds, k)
              && if k == |rounds| then r == Partial(BUDGET_REACHED, plan.maxTicks)
                 else RoundEnds(WindowAt(w, rounds, k), plan.routes, rounds[k], k) == Some(r)
      ensures old(ticks) + k <= ticks <= old(ticks) + plan.maxTicks
      ensures r.Completed? ==> k < |rounds| && ticks == old(ticks) + k
    {
      hide RoundEnds, WindowAfter;
      ghost var w := guard.State();
      k := 0;
      for index := 0 to plan.maxTicks
        invariant k == index && ticks == old(ticks) + index
        invariant Reaches(w, plan.routes, rounds, index) && guard.State() == WindowAt(w, rounds, index)
      {
        var end := OneRound(guard, plan, rounds[index], index);
        if end.Some? {
          return end.value, k;
        }
        k := k + 1;
      }
      r := Partial(BUDGET_REACHED, plan.maxTicks);
    }

    /** Borrow the hooks, run the rounds, and give the hooks back whatever the ticks did to them. */
    method BoundedCatchup(guard: Guard, plan: Plan, current: map<string, Route>, rounds: seq<Round>) returns (r: Catchup)
      requires |rounds| == plan.maxTicks
      modifies this, guard
      ensures hooks == old(hooks)
      ensures ticks <= old(ticks) + plan.maxTicks
      ensures r.Completed? ==>
                var w := old(guard.State());
                && r.ticks < |rounds| && ticks == old(ticks) + r.ticks && Reaches(w, plan.routes, rounds, r.ticks)
                && AllReached(WindowAt(w, rounds, r.ticks), plan, rounds[r.ticks])
    {
      if !(1 <= plan.maxTicks <= 10000) || plan.routes == [] {
        return Raised(PLAN_INVALID);
      }
      NoDupSize(IdsOf(plan.routes));
      if |Elems(IdsOf(plan.routes))| != |plan.routes| {
        return Raised(SCOPE_INVALID);
      }
      var scope := ScopeError(plan.routes, current);
      if scope.Some? {
        return Raised(scope.value);
      }
      ghost var w, k := guard.State(), 0;
      var native := hooks;
      hooks := Hooks(Maintaining, Maintaining, Maintaining);
      r, k := Rounds(guard, plan, rounds);
      hooks := native;
      if r.Completed? {
        CompletedAt(WindowAt(w, rounds, k), plan, rounds[k], k, r);
      }
    }
  }

  ghost predicate AllReached(w: Window, plan: Plan, round: Round) {
    && Judge(w, round.reading).Permitted? && ScopeError(plan.routes, round.observed) == None
    && forall r | r in plan.routes :: Reached(r, round)
  }

  /** A round completes the catch-up exactly when permission holds, the scope is unchanged, and every
      frozen route has reached its endpoint with nothing pending. */
  lemma CompletedExactly(w: Window, plan: Plan, round: Round, index: nat)
    ensures RoundEnds(w, plan.routes, round, index) == Some(Completed(index)) <==> AllReached(w, plan, round)
  {
    hide Reached, ScopeError, Judge;
    if Unfinished(plan.routes, round) != [] {
      var r := Unfinished(plan.routes, round)[0];
      assert r in Unfinished(plan.routes, round);
    }
  }

  lemma CompletedAt(w: Window, plan: Plan, round: Round, index: nat, r: Catchup)
    requires RoundEnds(w, plan.routes, round, index) == Some(r) && r.Completed?
    ensures r == Completed(index) && AllReached(w, plan, round)
  {
    hide Reached, ScopeError, Judge, Unfinished;
    assert r == Completed(index);
    CompletedExactly(w, plan, round, index);
  }

  /** Whatever the ticks do to the window, every round that ticks or completes the catch-up was checked
      within the monotonic span of the window it started under. */
  lemma {:induction false} RoundsWithinSpan(w: Window, routes: seq<FrozenRoute>, rounds: seq<Round>, k: nat)
    requires k < |rounds|
    requires var end := RoundEnds(WindowAt(w, rounds, k), routes, rounds[k], k); end == None || end.value.Completed?
    ensures rounds[k].reading.mono - w.start < w.limit && rounds[k].reading.wall < w.boundary
  {
    WindowShrinksTo(w, rounds, k);
    hide ScopeError, Unfinished;
  }

  lemma {:induction false} WindowShrinksTo(w: Window, rounds: seq<Round>, k: nat)
    requires k <= |rounds|
    ensures var t := WindowAt(w, rounds, k); t.boundary <= w.boundary && t.limit <= w.limit && t.start == w.start
  {
    if k > 0 {
      WindowShrinksTo(w, rounds, k - 1);
      WindowOnlyShrinks(WindowAt(w, rounds, k - 1), rounds[k - 1].during);
    }
  }
}
