/** What becomes of a hint: exactly when a wake flag is stuck, and that every handled hint is followed by a reconcile. */
module Hints {
  import opened Text
  import opened Config
  import opened UnitState
  import opened Topics
  import opened PublishCache
  import opened EventLoop
  import Commands

  // ----- Exactly when a wake flag is stuck

  /** The flag is up, so no further wake is queued, and none is left that would lower it. */
  ghost predicate Wedged(l: Loop, scope: string) {
    scope in l.wakePending && Wake(scope) !in l.events
  }

  predicate DropsWake(l: Loop, t: Step, scope: string) {
    t == WakeHint(scope) && scope !in l.wakePending && |l.events| >= QUEUE
  }

  ghost predicate WakeDroppedAt(p: Plan, l: Loop, steps: seq<Step>, n: nat, scope: string)
    requires n < |steps|
  {
    Run(p, l, steps[..n]).Some? && DropsWake(Run(p, l, steps[..n]).value, steps[n], scope)
  }

  /** Some step of the run dropped the wake of this scope. */
  ghost predicate WakeDropped(p: Plan, l: Loop, steps: seq<Step>, scope: string) {
    exists n :: 0 <= n < |steps| && WakeDroppedAt(p, l, steps, n, scope)
  }

  lemma SamePrefix(p: Plan, l: Loop, steps: seq<Step>, before: seq<Step>, n: nat, scope: string)
    requires before <= steps && n < |before|
    ensures WakeDroppedAt(p, l, steps, n, scope) <==> WakeDroppedAt(p, l, before, n, scope)
  {
    hide Run, DropsWake;
    assert steps[..n] == before[..n];
  }

  lemma WakeDroppedSnoc(p: Plan, l: Loop, steps: seq<Step>, scope: string)
    requires steps != []
    ensures WakeDropped(p, l, steps, scope) <==>
      WakeDropped(p, l, steps[..|steps| - 1], scope) || WakeDroppedAt(p, l, steps, |steps| - 1, scope)
  {
    hide WakeDroppedAt;
    var before := steps[..|steps| - 1];
    forall n | 0 <= n < |before| ensures WakeDroppedAt(p, l, steps, n, scope) <==> WakeDroppedAt(p, l, before, n, scope) {
      SamePrefix(p, l, steps, before, n, scope);
    }
    if WakeDropped(p, l, before, scope) {
      var n :| 0 <= n < |before| && WakeDroppedAt(p, l, before, n, scope);
      assert WakeDroppedAt(p, l, steps, n, scope);
    }
  }

  lemma PopWedges(p: Plan, l: Loop, inp: Inputs, scope: string)
    requires PlanOK(p) && Inv(p, l) && Enabled(l, Pop(inp))
    ensures Wedged(Do(p, l, Pop(inp)), scope) <==> Wedged(l, scope)
  {
    hide PlanOK, CacheOK, Handle, Scopes, WakesOK, TimerOK;
    var ev, l0 := l.events[0], l.(events := l.events[1..]);
    assert l.events == [ev] + l0.events;
    TimerFrame(l, l0);
    HandleFrame(p, l0, ev, inp);
    FlagHeld(l, scope);
  }

  /** A queued wake has its flag up, and is the only one. */
  lemma FlagHeld(l: Loop, scope: string)
    requires WakesOK(l)
    ensures Wake(scope) in l.events ==> scope in l.wakePending
    ensures l.events != [] && l.events[0] == Wake(scope) ==> Wake(scope) !in l.events[1..]
  {
    assert multiset(l.events)[Wake(scope)] <= if scope in l.wakePending then 1 else 0;
    if l.events != [] {
      assert l.events == [l.events[0]] + l.events[1..];
    }
  }

  lemma OutsideWedges(p: Plan, l: Loop, t: Step, scope: string)
    requires Enabled(l, t) && !t.Pop? && !t.Finish? && !t.Tick? && WakesOK(l)
    ensures Wedged(Do(p, l, t), scope) <==> Wedged(l, scope) || DropsWake(l, t, scope)
  {
    hide Supervisor.Notified;
    FlagHeld(l, scope);
  }

  lemma StepWedges(p: Plan, l: Loop, t: Step, scope: string)
    requires PlanOK(p) && Inv(p, l) && Enabled(l, t)
    ensures Wedged(Do(p, l, t), scope) <==> Wedged(l, scope) || DropsWake(l, t, scope)
  {
    hide PlanOK, CacheOK, Handle, PollTick, FinishRepublish, Scopes, WakesOK, TimerOK;
    match t
    case Pop(inp) => PopWedges(p, l, inp, scope);
    case Finish(reconnects) => FinishFrame(p, l, reconnects);
    case Tick(inp) => TickKeeps(p, l, inp);
    case _ => OutsideWedges(p, l, t, scope);
  }

  /** In every run: the wake flag of a scope is up with no wake queued exactly when a wake of that scope was dropped. */
  lemma {:induction false} WedgedIffDropped(p: Plan, steps: seq<Step>, scope: string)
    requires PlanOK(p) && Run(p, Initial(p), steps).Some?
    ensures Wedged(Run(p, Initial(p), steps).value, scope) <==> WakeDropped(p, Initial(p), steps, scope)
  {
    hide PlanOK, Inv, Do, Enabled, DropsWake, WakeDropped;
    if steps == [] {
      assert !WakeDropped(p, Initial(p), [], scope) by { NoStepNoDrop(p, scope); }
    } else {
      var before := steps[..|steps| - 1];
      InitialOK(p);
      hide Initial, Wedged;
      WedgedIffDropped(p, before, scope);
      RunKeeps(p, Initial(p), before);
      StepWedges(p, Run(p, Initial(p), before).value, steps[|steps| - 1], scope);
      WakeDroppedSnoc(p, Initial(p), steps, scope);
    }
  }

  lemma NoStepNoDrop(p: Plan, scope: string)
    ensures !WakeDropped(p, Initial(p), [], scope)
  {
  }

  /** A dropped wake is never made up for: from then on no wake of the scope is queued in any run, and its flag stays
      up. What keeps the scope fresh is the poll tick. */
  lemma {:induction false} DroppedWakeWedges(p: Plan, l: Loop, steps: seq<Step>, scope: string)
    requires PlanOK(p) && Inv(p, l) && |l.events| == QUEUE
    requires scope !in l.wakePending && Enabled(l, WakeHint(scope))
    requires Run(p, Do(p, l, WakeHint(scope)), steps).Some?
    ensures Wedged(Run(p, Do(p, l, WakeHint(scope)), steps).value, scope)
  {
    hide PlanOK, Inv, Do, Enabled, Wedged;
    StepWedges(p, l, WakeHint(scope), scope);
    StepKeeps(p, l, WakeHint(scope));
    if steps != [] {
      var l1 := Do(p, l, WakeHint(scope));
      DroppedWakeWedges(p, l, steps[..|steps| - 1], scope);
      RunKeeps(p, l1, steps[..|steps| - 1]);
      StepWedges(p, Run(p, l1, steps[..|steps| - 1]).value, steps[|steps| - 1], scope);
    }
  }

  // ----- A hint that was handled is followed by a reconcile

  /** A timer of the scope runs, or what it enqueued waits. */
  predicate OnItsWay(l: Loop, scope: string) {
    l.env.timers[scope] > 0 || ReconcileDue(scope) in l.events
  }

  predicate Covered(l: Loop, scope: string) {
    scope in l.pending ==> OnItsWay(l, scope)
  }

  /** No step of the run drops the event of a reconcile timer of this scope. */
  ghost predicate TimersKept(p: Plan, l: Loop, steps: seq<Step>, scope: string) {
    forall n :: 0 <= n < |steps| && Run(p, l, steps[..n]).Some? && steps[n] == ReconcileTimer(scope) ==>
      |Run(p, l, steps[..n]).value.events| < QUEUE
  }

  lemma TimersKeptSnoc(p: Plan, l: Loop, steps: seq<Step>, scope: string)
    requires steps != [] && TimersKept(p, l, steps, scope) && Run(p, l, steps).Some?
    ensures var before, t := steps[..|steps| - 1], steps[|steps| - 1];
      TimersKept(p, l, before, scope) && (t == ReconcileTimer(scope) ==> |Run(p, l, before).value.events| < QUEUE)
  {
    hide Run;
    var before := steps[..|steps| - 1];
    forall n | 0 <= n < |before| ensures steps[..n] == before[..n] && steps[n] == before[n] {
    }
    assert Run(p, l, before).Some? by { RunPrefix(p, l, steps); }
  }

  lemma RunPrefix(p: Plan, l: Loop, steps: seq<Step>)
    requires steps != [] && Run(p, l, steps).Some?
    ensures Run(p, l, steps[..|steps| - 1]).Some?
  {
  }

  /** How handling an event changes what is on its way for a scope. */
  lemma HandleOnItsWay(p: Plan, l: Loop, ev: Event, inp: Inputs, scope: string)
    requires PlanOK(p) && CacheOK(p, l.core) && (ev.BusState? ==> ev.scope in Scopes(p.c.all))
    ensures var l' := Handle(p, l, ev, inp);
      && l'.events == l.events
      && l'.env.timers[scope] >= l.env.timers[scope]
      && (scope in l'.pending ==> scope in l.pending || l'.env.timers[scope] > 0)
      && Times(l'.env, scope) >= Times(l.env, scope)
      && (ev == ReconcileDue(scope) ==> Times(l'.env, scope) > Times(l.env, scope) && scope !in l'.pending)
  {
    hide PlanOK, CacheOK, Apply, Scopes, ReconcileScope, HandleBus, AsksRepublish, ScopeOf, SelectOf;
    match ev
    case ReconcileDue(s) =>
      ReconcileScopeKeeps(p, l, s, inp);
      ReconcilePending(p, l, s, inp);
    case BusState(s, online) =>
      HandleBusKeeps(p, l, s, online, inp);
      BusPending(p, l, s, online, inp);
    case _ =>
  }

  lemma ReconcilePending(p: Plan, l: Loop, scope: string, inp: Inputs)
    ensures ReconcileScope(p, l, scope, inp).pending <= l.pending
  {
    hide Reconciled;
  }

  lemma BusPending(p: Plan, l: Loop, scope: string, online: bool, inp: Inputs)
    ensures HandleBus(p, l, scope, online, inp).pending <= l.pending
  {
    hide Apply, Reconciled;
  }

  lemma {:induction false} PollPending(p: Plan, l: Loop, scopes: seq<string>, inp: Inputs)
    ensures PollScopes(p, l, scopes, inp).pending <= l.pending
  {
    hide HandleBus, Reconciled;
    if scopes != [] {
      var n := |scopes| - 1;
      PollPending(p, l, scopes[..n], inp);
      var m := PollScopes(p, l, scopes[..n], inp);
      if scopes[n] in m.env.buses {
        BusPending(p, m, scopes[n], m.env.buses[scopes[n]].online, inp);
      }
    }
  }

  lemma {:induction false} ScheduleAllCovers(l: Loop, scopes: seq<string>, scope: string)
    ensures var l' := ScheduleAll(l, scopes);
      && l'.env.timers[scope] >= l.env.timers[scope]
      && (scope in l'.pending ==> scope in l.pending || l'.env.timers[scope] > 0)
  {
    if scopes != [] {
      ScheduleAllCovers(l, scopes[..|scopes| - 1], scope);
    }
  }

  /** What one step that drops no timer event does for one scope. */
  ghost predicate Follows(l: Loop, l': Loop, scope: string) {
    && (Covered(l, scope) ==> Covered(l', scope))
    && Times(l'.env, scope) >= Times(l.env, scope)
    && (OnItsWay(l, scope) ==> OnItsWay(l', scope) || Times(l'.env, scope) > Times(l.env, scope))
  }

  lemma PopFollows(p: Plan, l: Loop, inp: Inputs, scope: string)
    requires PlanOK(p) && Inv(p, l) && Enabled(l, Pop(inp))
    ensures Follows(l, Do(p, l, Pop(inp)), scope)
  {
    hide PlanOK, CacheOK, Handle, Scopes, WakesOK, TimerOK;
    var ev, l0 := l.events[0], l.(events := l.events[1..]);
    assert l.events == [ev] + l0.events;
    HandleOnItsWay(p, l0, ev, inp, scope);
  }

  lemma FinishFollows(p: Plan, l: Loop, reconnects: nat, scope: string)
    ensures Follows(l, FinishRepublish(p, l, reconnects), scope)
  {
    hide Apply, Scopes, ScheduleAll;
    var l1 := l.(core := Apply(p, l.core, Republish(reconnects)), env := l.env.(busy := false));
    ScheduleAllFrame(l1, Scopes(p.c.all));
    ScheduleAllCovers(l1, Scopes(p.c.all), scope);
  }

  lemma TickFollows(p: Plan, l: Loop, inp: Inputs, scope: string)
    requires PlanOK(p) && Inv(p, l)
    ensures Follows(l, PollTick(p, l, inp), scope)
  {
    hide PlanOK, CacheOK, PollScopes, Scopes;
    TickKeeps(p, l, inp);
    PollPending(p, PollArm(l), Scopes(p.c.all), inp);
  }

  lemma OutsideFollows(p: Plan, l: Loop, t: Step, scope: string)
    requires Enabled(l, t) && !t.Pop? && !t.Finish? && !t.Tick?
    requires t == ReconcileTimer(scope) ==> |l.events| < QUEUE
    ensures Follows(l, Do(p, l, t), scope)
  {
    hide Supervisor.Notified;
  }

  lemma StepFollows(p: Plan, l: Loop, t: Step, scope: string)
    requires PlanOK(p) && Inv(p, l) && Enabled(l, t)
    requires t == ReconcileTimer(scope) ==> |l.events| < QUEUE
    ensures Follows(l, Do(p, l, t), scope)
  {
    hide PlanOK, Inv, Handle, PollTick, FinishRepublish, Follows;
    match t
    case Pop(inp) => PopFollows(p, l, inp, scope);
    case Finish(reconnects) => FinishFollows(p, l, reconnects, scope);
    case Tick(inp) => TickFollows(p, l, inp, scope);
    case _ => OutsideFollows(p, l, t, scope);
  }

  lemma {:induction false} RunFollows(p: Plan, l: Loop, steps: seq<Step>, scope: string)
    requires PlanOK(p) && Inv(p, l) && Run(p, l, steps).Some? && TimersKept(p, l, steps, scope)
    ensures Follows(l, Run(p, l, steps).value, scope)
  {
    hide PlanOK, Inv, Do, Enabled, TimersKept, OnItsWay, Times;
    if steps != [] {
      var before := steps[..|steps| - 1];
      TimersKeptSnoc(p, l, steps, scope);
      RunFollows(p, l, before, scope);
      RunKeeps(p, l, before);
      StepFollows(p, Run(p, l, before).value, steps[|steps| - 1], scope);
    }
  }

  /** In every run that drops no timer event of a scope, its debounce flag is only up while a reconcile is on its way. */
  lemma CoveredAlways(p: Plan, steps: seq<Step>, scope: string)
    requires PlanOK(p) && Run(p, Initial(p), steps).Some? && TimersKept(p, Initial(p), steps, scope)
    ensures Covered(Run(p, Initial(p), steps).value, scope)
  {
    hide PlanOK, Inv, Run, TimersKept, OnItsWay;
    InitialOK(p);
    RunFollows(p, Initial(p), steps, scope);
  }

  /** The events that call for a fresh look at a scope: a wake, and the end of a job or of a select command. */
  predicate HintsAt(p: Plan, ev: Event, scope: string) {
    || ev == Wake(scope)
    || (ev.JobDone? && UnitByID(p.c.all, ev.id).Some? && UnitByID(p.c.all, ev.id).value.scope == scope)
    || (ev.TemplateDone? && SelectOf(p.c.selects, ev.id).Some? && SelectOf(p.c.selects, ev.id).value.scope == scope)
  }

  /** Every handled hint is followed by a reconcile of its scope: once neither a timer nor its event is left, at least
      one reconcile came after the hint. */
  lemma HintIsFollowed(p: Plan, l: Loop, inp: Inputs, steps: seq<Step>, scope: string)
    requires PlanOK(p) && Inv(p, l) && Enabled(l, Pop(inp)) && HintsAt(p, l.events[0], scope) && Covered(l, scope)
    requires Run(p, Do(p, l, Pop(inp)), steps).Some? && TimersKept(p, Do(p, l, Pop(inp)), steps, scope)
    ensures var l' := Run(p, Do(p, l, Pop(inp)), steps).value;
      OnItsWay(l', scope) || Times(l'.env, scope) > Times(l.env, scope)
  {
    hide PlanOK, Inv, Run, TimersKept, Follows;
    var l1 := Do(p, l, Pop(inp));
    HintPends(p, l, inp, scope);
    hide Do, Enabled;
    RunFollows(p, l1, steps, scope);
    hide OnItsWay, Times;
    Chain(l1, Run(p, l1, steps).value, scope);
  }

  lemma Chain(l: Loop, l': Loop, scope: string)
    requires Follows(l, l', scope) && OnItsWay(l, scope)
    ensures OnItsWay(l', scope) || Times(l'.env, scope) > Times(l.env, scope)
  {
  }

  lemma HintPends(p: Plan, l: Loop, inp: Inputs, scope: string)
    requires PlanOK(p) && Inv(p, l) && Enabled(l, Pop(inp)) && HintsAt(p, l.events[0], scope) && Covered(l, scope)
    ensures OnItsWay(Do(p, l, Pop(inp)), scope) && Times(Do(p, l, Pop(inp)).env, scope) >= Times(l.env, scope)
    ensures Inv(p, Do(p, l, Pop(inp)))
  {
    hide PlanOK, CacheOK, Apply, Scopes, ReconcileScope, HandleBus, AsksRepublish, UnitByID, SelectOf, WakesOK, TimerOK, BusesOK;
    HandleKeeps(p, l, inp);
    assert l.events == [l.events[0]] + l.events[1..];
  }

  // ----- A republish that was asked for begins

  /** The republish timer runs, or what it enqueued waits. */
  predicate PublishOnItsWay(l: Loop) {
    l.due.Some? || FullPublish in l.events
  }

  /** No step of the run drops the event of the republish timer. */
  ghost predicate PublishKept(p: Plan, l: Loop, steps: seq<Step>) {
    forall n :: 0 <= n < |steps| && Run(p, l, steps[..n]).Some? && steps[n] == TimerFires ==>
      |Run(p, l, steps[..n]).value.events| < QUEUE
  }

  lemma PublishKeptSnoc(p: Plan, l: Loop, steps: seq<Step>)
    requires steps != [] && PublishKept(p, l, steps) && Run(p, l, steps).Some?
    ensures var before, t := steps[..|steps| - 1], steps[|steps| - 1];
      PublishKept(p, l, before) && (t == TimerFires ==> |Run(p, l, before).value.events| < QUEUE)
  {
    hide Run;
    var before := steps[..|steps| - 1];
    forall n | 0 <= n < |before| ensures steps[..n] == before[..n] && steps[n] == before[n] {
    }
    assert Run(p, l, before).Some? by { RunPrefix(p, l, steps); }
  }

  ghost predicate Republishes(l: Loop, l': Loop) {
    && l'.env.begun >= l.env.begun
    && (PublishOnItsWay(l) ==> PublishOnItsWay(l') || l'.env.begun > l.env.begun)
  }

  lemma HandlePublish(p: Plan, l: Loop, ev: Event, inp: Inputs)
    requires PlanOK(p) && CacheOK(p, l.core) && (ev.BusState? ==> ev.scope in Scopes(p.c.all))
    ensures var l' := Handle(p, l, ev, inp);
      && l'.events == l.events && l'.env.begun >= l.env.begun && (l.due.Some? ==> l'.due.Some?)
      && (ev == FullPublish ==> l'.env.begun > l.env.begun)
      && (ev == Connected || (ev.Inbound? && AsksRepublish(p, ev.topic, ev.payload)) ==> l'.due.Some?)
  {
    hide PlanOK, CacheOK, Apply, Scopes, ReconcileScope, HandleBus, AsksRepublish, ScopeOf, SelectOf;
    match ev
    case ReconcileDue(s) => ReconcileScopeKeeps(p, l, s, inp);
    case BusState(s, online) => HandleBusKeeps(p, l, s, online, inp);
    case _ =>
  }

  lemma PopRepublishes(p: Plan, l: Loop, inp: Inputs)
    requires PlanOK(p) && Inv(p, l) && Enabled(l, Pop(inp))
    ensures Republishes(l, Do(p, l, Pop(inp)))
  {
    hide PlanOK, CacheOK, Handle, Scopes, WakesOK, TimerOK;
    var ev, l0 := l.events[0], l.(events := l.events[1..]);
    assert l.events == [ev] + l0.events;
    HandlePublish(p, l0, ev, inp);
  }

  lemma OutsideRepublishes(p: Plan, l: Loop, t: Step)
    requires Enabled(l, t) && !t.Pop? && !t.Finish? && !t.Tick?
    requires t == TimerFires ==> |l.events| < QUEUE
    ensures Republishes(l, Do(p, l, t))
  {
    hide Supervisor.Notified;
  }

  lemma FinishRepublishes(p: Plan, l: Loop, reconnects: nat)
    ensures Republishes(l, FinishRepublish(p, l, reconnects))
  {
    hide Apply, Scopes;
    ScheduleAllFrame(l.(core := Apply(p, l.core, Republish(reconnects)), env := l.env.(busy := false)), Scopes(p.c.all));
    hide ScheduleAll;
  }

  lemma StepRepublishes(p: Plan, l: Loop, t: Step)
    requires PlanOK(p) && Inv(p, l) && Enabled(l, t)
    requires t == TimerFires ==> |l.events| < QUEUE
    ensures Republishes(l, Do(p, l, t))
  {
    hide PlanOK, CacheOK, Handle, PollTick, FinishRepublish, WakesOK, TimerOK;
    match t
    case Pop(inp) => PopRepublishes(p, l, inp);
    case Finish(reconnects) => FinishRepublishes(p, l, reconnects);
    case Tick(inp) => TickKeeps(p, l, inp);
    case _ => OutsideRepublishes(p, l, t);
  }

  lemma {:induction false} RunRepublishes(p: Plan, l: Loop, steps: seq<Step>)
    requires PlanOK(p) && Inv(p, l) && Run(p, l, steps).Some? && PublishKept(p, l, steps)
    ensures Republishes(l, Run(p, l, steps).value)
  {
    hide PlanOK, Inv, Do, Enabled, PublishKept, PublishOnItsWay;
    if steps != [] {
      var before := steps[..|steps| - 1];
      PublishKeptSnoc(p, l, steps);
      RunRepublishes(p, l, before);
      RunKeeps(p, l, before);
      StepRepublishes(p, Run(p, l, before).value, steps[|steps| - 1]);
    }
  }

  /** Every handled connect and birth message is followed by a republish: once neither the timer nor its event is left,
      a republish began after the event. */
  lemma RequestIsFollowed(p: Plan, l: Loop, inp: Inputs, steps: seq<Step>)
    requires PlanOK(p) && Inv(p, l) && Enabled(l, Pop(inp))
    requires var ev := l.events[0];
      ev == Connected || (ev.Inbound? && ev.topic == p.c.statusTopic && Commands.TrimSpace(ev.payload) == "online")
    requires Run(p, Do(p, l, Pop(inp)), steps).Some? && PublishKept(p, Do(p, l, Pop(inp)), steps)
    ensures var l' := Run(p, Do(p, l, Pop(inp)), steps).value;
      PublishOnItsWay(l') || l'.env.begun > l.env.begun
  {
    hide PlanOK, CacheOK, BusesOK, WakesOK, TimerOK, Run, PublishKept, Handle;
    assert l.events[0] in l.events;
    if l.events[0].Inbound? {
      StatusParsed(p.c, l.events[0].topic);
    }
    HandlePublish(p, l.(events := l.events[1..]), l.events[0], inp) by {
      hide AsksRepublish;
      BusKnown(p, l);
    }
    HandleKeeps(p, l, inp);
    RunRepublishes(p, Do(p, l, Pop(inp)), steps);
  }

  lemma BusKnown(p: Plan, l: Loop)
    requires BusesOK(p, l) && l.events != []
    ensures l.events[0].BusState? ==> l.events[0].scope in Scopes(p.c.all)
  {
    hide Scopes;
    assert l.events[0] in l.events;
  }
}
