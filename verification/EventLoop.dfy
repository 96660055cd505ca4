/** The event loop as a transition system: a bounded queue that drops, debounce flags, a coalescing timer and the poll
    tick that repairs what was lost. Supervisors, the MQTT callbacks, timers and workers run beside it. */
module EventLoop {
  import opened Text
  import opened Config
  import opened StatusMapping
  import opened UnitState
  import opened Topics
  import opened PublishCache
  import Commands
  import Supervisor

  datatype Event = Wake(scope: string) | ReconcileDue(scope: string) | BusState(scope: string, online: bool)
    | DisplayMode(mode: int) | DisplayError | Connected | Lost | Inbound(topic: string, payload: string, retained: bool)
    | JobDone(id: string, verb: string, result: string, error: string) | TemplateDone(id: string) | FullPublish

  /** One supervisor and the goroutine that forwards its state changes: a change that is set but not yet sent, the
      state channel, and a change that the forwarder holds. */
  datatype Bus = Bus(online: bool, owed: Option<bool>, ch: seq<bool>, hand: Option<bool>)

  /** What surrounds the loop, with two histories: how many republishes began, and how often each scope was reconciled.
      `timers` are the running reconcile timers, and `busy` says that a republish is under way. */
  datatype Env = Env(now: nat, buses: map<string, Bus>, timers: multiset<string>, busy: bool, begun: nat,
    reconciles: map<string, nat>)

  datatype Loop = Loop(core: Core, pending: set<string>, events: seq<Event>, wakePending: set<string>, wanted: bool,
    armedAt: Option<nat>, due: Option<nat>, env: Env)

  /** What the foreign calls of one step return: the reconnect count, and the answers of the scopes whose query works. */
  datatype Inputs = Inputs(reconnects: nat, answers: map<string, seq<Status>>)

  const QUEUE: nat := 256
  const DELAY: nat := 2000 // milliseconds, fullPublishDelay

  function Enqueue(l: Loop, ev: Event): Loop {
    if |l.events| < QUEUE then l.(events := l.events + [ev]) else l
  }

  function Arm(l: Loop): Loop { l.(armedAt := Some(l.env.now), due := Some(l.env.now + DELAY)) }

  /** The first hint starts a timer, later ones are folded into it. */
  function Schedule(l: Loop, scope: string): Loop {
    if scope in l.pending then l
    else l.(pending := l.pending + {scope}, env := l.env.(timers := l.env.timers + multiset{scope}))
  }

  function ScheduleAll(l: Loop, scopes: seq<string>): Loop {
    if scopes == [] then l else Schedule(ScheduleAll(l, scopes[..|scopes| - 1]), scopes[|scopes| - 1])
  }

  function Times(e: Env, scope: string): nat { if scope in e.reconciles then e.reconciles[scope] else 0 }

  /** The debounce flag falls first, whether or not the query works. */
  function ReconcileScope(p: Plan, l: Loop, scope: string, inp: Inputs): Loop {
    var l1 := l.(pending := l.pending - {scope},
      env := l.env.(reconciles := l.env.reconciles[scope := Times(l.env, scope) + 1]));
    if scope in l.env.buses && scope in inp.answers
    then l1.(core := Reconciled(p, l.core, scope, inp.answers[scope], l.env.now))
    else l1
  }

  function HandleBus(p: Plan, l: Loop, scope: string, online: bool, inp: Inputs): Loop {
    var l1 := l.(core := Apply(p, l.core, BusChange(scope, online, inp.reconnects)));
    if online then ReconcileScope(p, l1, scope, inp) else l1
  }

  predicate AsksRepublish(p: Plan, topic: string, payload: string) {
    Commands.IsBirth(p.c, topic, payload)
  }

  function ScopeOf(us: seq<UnitConfig>, id: string): Option<string> {
    var u := UnitByID(us, id);
    if u.Some? then Some(u.value.scope) else None
  }

  /** One event. A republish begins here: the flag falls before anything is published. */
  function Handle(p: Plan, l: Loop, ev: Event, inp: Inputs): Loop {
    match ev
    case Wake(scope) => Schedule(l.(wakePending := l.wakePending - {scope}), scope)
    case ReconcileDue(scope) => ReconcileScope(p, l, scope, inp)
    case BusState(scope, online) => HandleBus(p, l, scope, online, inp)
    case DisplayMode(mode) => l.(core := Apply(p, l.core, DisplayIs(mode, inp.reconnects)))
    case DisplayError => l.(core := Apply(p, l.core, DisplayGone(inp.reconnects)))
    case Connected => Arm(l)
    case Lost => l
    case Inbound(topic, payload, _) => if AsksRepublish(p, topic, payload) then Arm(l) else l
    case JobDone(id, verb, result, error) =>
      var scope := ScopeOf(p.c.all, id);
      if scope.None? then l
      else Schedule(l.(core := Apply(p, l.core, JobFinished(id, verb, result, error, l.env.now))), scope.value)
    case TemplateDone(id) =>
      var s := SelectOf(p.c.selects, id);
      if s.None? then l else Schedule(l, s.value.scope)
    case FullPublish =>
      l.(armedAt := None, wanted := false, env := l.env.(busy := true, begun := l.env.begun + 1))
  }

  /** The publishing part of a republish, and the reconciles it schedules. */
  function FinishRepublish(p: Plan, l: Loop, reconnects: nat): Loop {
    ScheduleAll(l.(core := Apply(p, l.core, Republish(reconnects)), env := l.env.(busy := false)), Scopes(p.c.all))
  }

  function PollArm(l: Loop): Loop {
    if l.wanted && (l.armedAt.None? || l.env.now - l.armedAt.value > 2 * DELAY) then Arm(l) else l
  }

  function PollScope(p: Plan, l: Loop, scope: string, inp: Inputs): Loop {
    if scope in l.env.buses && l.env.buses[scope].online != BusOn(l.core, scope)
    then HandleBus(p, l, scope, l.env.buses[scope].online, inp)
    else ReconcileScope(p, l, scope, inp)
  }

  function PollScopes(p: Plan, l: Loop, scopes: seq<string>, inp: Inputs): Loop {
    if scopes == [] then l
    else PollScope(p, PollScopes(p, l, scopes[..|scopes| - 1], inp), scopes[|scopes| - 1], inp)
  }

  function PollTick(p: Plan, l: Loop, inp: Inputs): Loop {
    PollScopes(p, PollArm(l), Scopes(p.c.all), inp)
  }

  // ----- The steps

  /** Post is any other goroutine enqueueing an event: a display or job outcome, an MQTT callback. */
  datatype Step = Pop(inp: Inputs) | Finish(reconnects: nat) | Tick(inp: Inputs) | Post(ev: Event) | ConnectCallback
    | TimerFires | ReconcileTimer(scope: string) | Pass(ms: nat) | SetOnline(scope: string, online: bool)
    | Send(scope: string) | Forward(scope: string) | Deliver(scope: string) | WakeHint(scope: string)

  predicate Enabled(l: Loop, t: Step) {
    match t
    case Pop(_) => !l.env.busy && l.events != []
    case Finish(_) => l.env.busy
    case Tick(_) => !l.env.busy
    case Post(ev) => !ev.Wake? && !ev.BusState? && !ev.ReconcileDue?
    case ConnectCallback => true
    case TimerFires => l.due.Some? && l.due.value <= l.env.now
    case ReconcileTimer(scope) => l.env.timers[scope] > 0
    case Pass(_) => true
    case SetOnline(scope, online) => scope in l.env.buses && l.env.buses[scope].owed.None? && l.env.buses[scope].online != online
    case Send(scope) => scope in l.env.buses && l.env.buses[scope].owed.Some?
    case Forward(scope) => scope in l.env.buses && l.env.buses[scope].hand.None? && l.env.buses[scope].ch != []
    case Deliver(scope) => scope in l.env.buses && l.env.buses[scope].hand.Some?
    case WakeHint(scope) => scope in l.env.buses
  }

  function WithBus(l: Loop, scope: string, b: Bus): Loop {
    l.(env := l.env.(buses := l.env.buses[scope := b]))
  }

  function Do(p: Plan, l: Loop, t: Step): Loop
    requires Enabled(l, t)
  {
    match t
    case Pop(inp) => Handle(p, l.(events := l.events[1..]), l.events[0], inp)
    case Finish(reconnects) => FinishRepublish(p, l, reconnects)
    case Tick(inp) => PollTick(p, l, inp)
    case Post(ev) => Enqueue(l, ev)
    case ConnectCallback => l.(wanted := true)
    case TimerFires => Enqueue(l.(due := None), FullPublish)
    case ReconcileTimer(scope) => Enqueue(l.(env := l.env.(timers := l.env.timers - multiset{scope})), ReconcileDue(scope))
    case Pass(ms) => l.(env := l.env.(now := l.env.now + ms))
    case SetOnline(scope, online) =>
      WithBus(l, scope, l.env.buses[scope].(online := online, owed := Some(online)))
    case Send(scope) =>
      var b := l.env.buses[scope];
      WithBus(l, scope, b.(owed := None, ch := Supervisor.Notified(b.ch, b.owed.value)))
    case Forward(scope) =>
      var b := l.env.buses[scope];
      WithBus(l, scope, b.(ch := b.ch[1..], hand := Some(b.ch[0])))
    case Deliver(scope) =>
      var b := l.env.buses[scope];
      Enqueue(WithBus(l, scope, b.(hand := None)), BusState(scope, b.hand.value))
    case WakeHint(scope) =>
      if scope in l.wakePending then l
      else Enqueue(l.(wakePending := l.wakePending + {scope}), Wake(scope))
  }

  function Run(p: Plan, l: Loop, steps: seq<Step>): Option<Loop> {
    if steps == [] then Some(l)
    else
      var before := Run(p, l, steps[..|steps| - 1]);
      if before.Some? && Enabled(before.value, steps[|steps| - 1]) then Some(Do(p, before.value, steps[|steps| - 1])) else None
  }

  function Initial(p: Plan): Loop {
    Loop(Start(p), {}, [], {}, false, None, None,
      Env(0, map s | s in Scopes(p.c.all) :: Bus(false, None, [], None), multiset{}, false, 0, map[]))
  }

  // ----- What every step keeps

  /** The cache is right; every bus is a configured one; a scope has at most one wake queued, and only while its flag is
      up; a connect since the last republish began is remembered; and a running timer is the one last armed. */
  ghost predicate Inv(p: Plan, l: Loop) {
    && CacheOK(p, l.core)
    && BusesOK(p, l)
    && WakesOK(l)
    && TimerOK(l)
  }

  ghost predicate BusesOK(p: Plan, l: Loop) {
    && (forall s :: s in l.env.buses <==> s in Scopes(p.c.all))
    && (forall ev :: ev in l.events && ev.BusState? ==> ev.scope in l.env.buses)
  }

  ghost predicate WakesOK(l: Loop) {
    && |l.events| <= QUEUE
    && forall s :: multiset(l.events)[Wake(s)] <= if s in l.wakePending then 1 else 0
  }

  predicate TimerOK(l: Loop) {
    && (l.armedAt.Some? ==> l.armedAt.value <= l.env.now)
    && (l.armedAt.Some? && l.due.Some? ==> l.due.value == l.armedAt.value + DELAY)
  }

  /** What the reconciling part of a step can change. */
  ghost predicate SameButCore(l: Loop, l': Loop) {
    && l' == l.(core := l'.core, pending := l'.pending, env := l'.env)
    && l'.env == l.env.(reconciles := l'.env.reconciles)
    && forall s :: Times(l.env, s) <= Times(l'.env, s)
  }

  lemma ReconcileScopeKeeps(p: Plan, l: Loop, scope: string, inp: Inputs)
    requires PlanOK(p) && CacheOK(p, l.core)
    ensures var l' := ReconcileScope(p, l, scope, inp);
      CacheOK(p, l'.core) && SameButCore(l, l') && Times(l'.env, scope) > Times(l.env, scope) && scope !in l'.pending
    ensures ReconcileScope(p, l, scope, inp).core.bus == l.core.bus
  {
    hide PlanOK, CacheOK, Reconciled;
    if scope in l.env.buses && scope in inp.answers {
      ReconciledKeeps(p, l.core, scope, inp.answers[scope], l.env.now);
      ReconciledBus(p, l.core, scope, inp.answers[scope], l.env.now);
    }
  }

  lemma {:induction false} StatusesBus(p: Plan, k: Core, scope: string, sts: seq<Status>, now: nat)
    ensures ApplyStatuses(p, k, scope, sts, now).bus == k.bus
  {
    hide Put, UnitMsgs;
    if sts != [] {
      StatusesBus(p, k, scope, sts[..|sts| - 1], now);
      var b, st := ApplyStatuses(p, k, scope, sts[..|sts| - 1], now), sts[|sts| - 1];
      var key := Key(scope, st.name);
      if key in p.byName && p.byName[key] in b.units {
        var b1 := b.(units := ApplyOne(b.units, p.byName, scope, st, now));
        PutUnits(b1, UnitMsgs(p, b1.units[p.byName[key]]), false);
      }
    }
  }

  lemma ReconciledBus(p: Plan, k: Core, scope: string, sts: seq<Status>, now: nat)
    ensures Reconciled(p, k, scope, sts, now).bus == k.bus
  {
    hide Put, SelectsMsgs;
    StatusesBus(p, k, scope, sts, now);
    var k1 := ApplyStatuses(p, k, scope, sts, now);
    PutUnits(k1, SelectsMsgs(k1.units, p.c.selects, Some(scope)), false);
  }

  lemma HandleBusKeeps(p: Plan, l: Loop, scope: string, online: bool, inp: Inputs)
    requires PlanOK(p) && CacheOK(p, l.core) && scope in Scopes(p.c.all)
    ensures var l' := HandleBus(p, l, scope, online, inp);
      && CacheOK(p, l'.core) && SameButCore(l, l')
      && (online ==> Times(l'.env, scope) > Times(l.env, scope))
      && l'.core.bus == l.core.bus[scope := online]
  {
    hide PlanOK, CacheOK, Put, BusMsgs, DaemonMsgs, Scopes, Reconciled;
    BusChangeKeeps(p, l.core, BusChange(scope, online, inp.reconnects));
    var k1 := l.core.(bus := l.core.bus[scope := online], told := inp.reconnects);
    PutUnits(k1, BusMsgs(k1.bus, scope) + DaemonMsgs(p, k1), false);
    if online {
      var l1 := l.(core := Apply(p, l.core, BusChange(scope, online, inp.reconnects)));
      hide Apply;
      ReconcileScopeKeeps(p, l1, scope, inp);
    }
  }

  /** Either the scope was reconciled, or the loop's view of its bus fell from online to offline. */
  predicate ReconciledOrOff(l: Loop, l': Loop, scope: string) {
    Times(l'.env, scope) > Times(l.env, scope) || (BusOn(l.core, scope) && !BusOn(l'.core, scope))
  }

  /** One scope in a tick: the loop's view of the bus becomes the supervisor's, and the scope is reconciled unless the
      tick only learned that it is offline. */
  lemma PollScopeKeeps(p: Plan, l: Loop, scope: string, inp: Inputs)
    requires PlanOK(p) && CacheOK(p, l.core) && scope in Scopes(p.c.all) && scope in l.env.buses
    ensures var l' := PollScope(p, l, scope, inp);
      && CacheOK(p, l'.core) && SameButCore(l, l')
      && BusOn(l'.core, scope) == l.env.buses[scope].online
      && (forall s :: s != scope ==> BusOn(l'.core, s) == BusOn(l.core, s))
      && ReconciledOrOff(l, l', scope)
  {
    hide PlanOK, CacheOK, Scopes, ReconcileScope, HandleBus;
    if l.env.buses[scope].online != BusOn(l.core, scope) {
      HandleBusKeeps(p, l, scope, l.env.buses[scope].online, inp);
    } else {
      ReconcileScopeKeeps(p, l, scope, inp);
    }
  }

  lemma {:induction false} PollScopesKeeps(p: Plan, l: Loop, scopes: seq<string>, inp: Inputs)
    requires PlanOK(p) && CacheOK(p, l.core) && forall s :: s in scopes ==> s in Scopes(p.c.all) && s in l.env.buses
    requires forall i, j :: 0 <= i < j < |scopes| ==> scopes[i] != scopes[j]
    ensures var l' := PollScopes(p, l, scopes, inp);
      && CacheOK(p, l'.core) && SameButCore(l, l')
      && (forall s :: s in scopes ==> BusOn(l'.core, s) == l.env.buses[s].online && ReconciledOrOff(l, l', s))
      && (forall s :: s !in scopes ==> BusOn(l'.core, s) == BusOn(l.core, s))
  {
    hide PlanOK, CacheOK, Scopes, PollScope, BusOn;
    if scopes != [] {
      var n := |scopes| - 1;
      PollScopesKeeps(p, l, scopes[..n], inp);
      var m := PollScopes(p, l, scopes[..n], inp);
      assert scopes == scopes[..n] + [scopes[n]];
      PollScopeKeeps(p, m, scopes[n], inp);
    }
  }

  lemma TickKeeps(p: Plan, l: Loop, inp: Inputs)
    requires PlanOK(p) && CacheOK(p, l.core) && BusesOK(p, l)
    ensures var l1, l' := PollArm(l), PollTick(p, l, inp);
      && CacheOK(p, l'.core) && SameButCore(l1, l')
      && (forall s :: s in Scopes(p.c.all) ==> BusOn(l'.core, s) == l.env.buses[s].online && ReconciledOrOff(l, l', s))
  {
    hide PlanOK, CacheOK, PollScopes;
    PollScopesKeeps(p, PollArm(l), Scopes(p.c.all), inp);
  }

  lemma ScheduleFrame(l: Loop, scope: string)
    ensures var l' := Schedule(l, scope);
      && l' == l.(pending := l'.pending, env := l.env.(timers := l'.env.timers))
      && l'.pending == l.pending + {scope}
  {
  }

  lemma {:induction false} ScheduleAllFrame(l: Loop, scopes: seq<string>)
    ensures var l' := ScheduleAll(l, scopes);
      && l' == l.(pending := l'.pending, env := l.env.(timers := l'.env.timers))
      && forall s :: s in l'.pending <==> s in l.pending || s in scopes
  {
    if scopes != [] {
      ScheduleAllFrame(l, scopes[..|scopes| - 1]);
      assert scopes == scopes[..|scopes| - 1] + [scopes[|scopes| - 1]];
    }
  }

  lemma EnqueueKeeps(p: Plan, l: Loop, ev: Event)
    requires BusesOK(p, l) && WakesOK(l) && !ev.Wake? && (ev.BusState? ==> ev.scope in l.env.buses)
    ensures BusesOK(p, Enqueue(l, ev)) && WakesOK(Enqueue(l, ev))
  {
    hide Scopes;
  }

  lemma EnqueueWake(p: Plan, l: Loop, scope: string)
    requires BusesOK(p, l) && WakesOK(l) && scope !in l.wakePending
    ensures var l' := Enqueue(l.(wakePending := l.wakePending + {scope}), Wake(scope)); BusesOK(p, l') && WakesOK(l')
  {
    hide Scopes;
  }

  lemma SameQueue(p: Plan, l: Loop, l': Loop)
    requires BusesOK(p, l) && WakesOK(l)
    requires l'.events == l.events && l'.wakePending == l.wakePending && l'.env.buses.Keys == l.env.buses.Keys
    ensures BusesOK(p, l') && WakesOK(l')
  {
    hide Scopes;
  }

  lemma PopWakes(l: Loop)
    requires WakesOK(l) && l.events != []
    ensures |l.events[1..]| <= QUEUE
    ensures forall s :: multiset(l.events[1..])[Wake(s)] <= if s in l.wakePending && l.events[0] != Wake(s) then 1 else 0
  {
    assert l.events == [l.events[0]] + l.events[1..];
  }

  /** What handling an event leaves to the queue, the flags and the timer. */
  lemma HandleFrame(p: Plan, l: Loop, ev: Event, inp: Inputs)
    requires PlanOK(p) && CacheOK(p, l.core) && (ev.BusState? ==> ev.scope in Scopes(p.c.all))
    requires TimerOK(l)
    ensures var l' := Handle(p, l, ev, inp);
      && CacheOK(p, l'.core) && l'.events == l.events && l'.env.buses == l.env.buses
      && l'.wakePending == (if ev.Wake? then l.wakePending - {ev.scope} else l.wakePending)
      && TimerOK(l')
  {
    hide PlanOK, CacheOK, Apply, Scopes, ReconcileScope, HandleBus, AsksRepublish, ScopeOf, SelectOf, Schedule;
    match ev
    case Wake(scope) => ScheduleFrame(l.(wakePending := l.wakePending - {scope}), scope);
    case ReconcileDue(scope) => ReconcileScopeKeeps(p, l, scope, inp);
    case BusState(scope, online) => HandleBusKeeps(p, l, scope, online, inp);
    case DisplayMode(mode) => DisplayKeeps(p, l.core, DisplayIs(mode, inp.reconnects));
    case DisplayError => DisplayKeeps(p, l.core, DisplayGone(inp.reconnects));
    case JobDone(id, verb, result, error) =>
      var op := JobFinished(id, verb, result, error, l.env.now);
      JobKeeps(p, l.core, op);
      var scope := ScopeOf(p.c.all, id);
      if scope.Some? {
        ScheduleFrame(l.(core := Apply(p, l.core, op)), scope.value);
      }
    case TemplateDone(id) =>
      var sel := SelectOf(p.c.selects, id);
      if sel.Some? {
        ScheduleFrame(l, sel.value.scope);
      }
    case _ =>
  }

  lemma HandleKeeps(p: Plan, l: Loop, inp: Inputs)
    requires PlanOK(p) && Inv(p, l) && Enabled(l, Pop(inp))
    ensures Inv(p, Do(p, l, Pop(inp)))
  {
    hide PlanOK, CacheOK, Scopes, Handle, TimerOK;
    var ev, l0 := l.events[0], l.(events := l.events[1..]);
    PopWakes(l);
    assert ev in l.events && forall e :: e in l0.events ==> e in l.events;
    TimerFrame(l, l0);
    HandleFrame(p, l0, ev, inp);
  }

  lemma TimerFrame(l: Loop, l': Loop)
    requires TimerOK(l) && l'.armedAt == l.armedAt && l'.due == l.due && l'.env.now >= l.env.now
    ensures TimerOK(l')
  {
  }

  lemma OutsideKeeps(p: Plan, l: Loop, t: Step)
    requires Inv(p, l) && Enabled(l, t) && !t.Pop? && !t.Finish? && !t.Tick?
    ensures Inv(p, Do(p, l, t))
  {
    OutsideTimer(p, l, t);
    OutsideQueue(p, l, t);
    OutsideFrame(p, l, t);
    hide CacheOK, BusesOK, WakesOK, TimerOK, Do, Enabled;
  }

  lemma OutsideTimer(p: Plan, l: Loop, t: Step)
    requires Enabled(l, t) && !t.Pop? && !t.Finish? && !t.Tick?
    requires TimerOK(l)
    ensures TimerOK(Do(p, l, t))
  {
    hide Supervisor.Notified;
  }

  lemma OutsideQueue(p: Plan, l: Loop, t: Step)
    requires Enabled(l, t) && !t.Pop? && !t.Finish? && !t.Tick?
    requires BusesOK(p, l) && WakesOK(l)
    ensures BusesOK(p, Do(p, l, t)) && WakesOK(Do(p, l, t))
  {
    hide Enqueue, Supervisor.Notified, BusesOK, WakesOK;
    match t
    case Post(ev) => EnqueueKeeps(p, l, ev);
    case TimerFires =>
      SameQueue(p, l, l.(due := None));
      EnqueueKeeps(p, l.(due := None), FullPublish);
    case ReconcileTimer(scope) =>
      var l1 := l.(env := l.env.(timers := l.env.timers - multiset{scope}));
      SameQueue(p, l, l1);
      EnqueueKeeps(p, l1, ReconcileDue(scope));
    case Deliver(scope) =>
      var l1 := WithBus(l, scope, l.env.buses[scope].(hand := None));
      SameQueue(p, l, l1);
      EnqueueKeeps(p, l1, BusState(scope, l.env.buses[scope].hand.value));
    case WakeHint(scope) =>
      if scope !in l.wakePending {
        EnqueueWake(p, l, scope);
      }
    case ConnectCallback => SameQueue(p, l, Do(p, l, t));
    case Pass(_) => SameQueue(p, l, Do(p, l, t));
    case SetOnline(_, _) => SameQueue(p, l, Do(p, l, t));
    case Send(_) => SameQueue(p, l, Do(p, l, t));
    case Forward(_) => SameQueue(p, l, Do(p, l, t));
    case _ =>
  }

  lemma FinishKeeps(p: Plan, l: Loop, reconnects: nat)
    requires PlanOK(p) && Inv(p, l) && l.env.busy
    ensures Inv(p, FinishRepublish(p, l, reconnects))
  {
    hide PlanOK, CacheOK, Apply, Scopes;
    RepublishKeeps(p, l.core, Republish(reconnects));
    ScheduleAllFrame(l.(core := Apply(p, l.core, Republish(reconnects)), env := l.env.(busy := false)), Scopes(p.c.all));
    hide ScheduleAll;
  }

  lemma TickInv(p: Plan, l: Loop, inp: Inputs)
    requires PlanOK(p) && Inv(p, l)
    ensures Inv(p, PollTick(p, l, inp))
  {
    hide PlanOK, CacheOK, PollTick, Scopes;
    TickKeeps(p, l, inp);
  }

  lemma StepKeeps(p: Plan, l: Loop, t: Step)
    requires PlanOK(p) && Inv(p, l) && Enabled(l, t)
    ensures Inv(p, Do(p, l, t))
  {
    hide PlanOK, Inv, PollTick, FinishRepublish, Handle;
    match t
    case Pop(inp) => HandleKeeps(p, l, inp);
    case Finish(reconnects) => FinishKeeps(p, l, reconnects);
    case Tick(inp) => TickInv(p, l, inp);
    case _ => OutsideKeeps(p, l, t);
  }

  lemma {:induction false} RunKeeps(p: Plan, l: Loop, steps: seq<Step>)
    requires PlanOK(p) && Inv(p, l) && Run(p, l, steps).Some?
    ensures Inv(p, Run(p, l, steps).value)
  {
    hide PlanOK, Inv, Do, Enabled;
    if steps != [] {
      RunKeeps(p, l, steps[..|steps| - 1]);
      StepKeeps(p, Run(p, l, steps[..|steps| - 1]).value, steps[|steps| - 1]);
    }
  }

  lemma InitialOK(p: Plan)
    requires PlanOK(p)
    ensures Inv(p, Initial(p))
  {
    hide PlanOK, CacheOK, Scopes, Start;
    StartOK(p);
  }

  /** In every reachable state: the cache holds exactly what rendering gives, and at most one wake of a scope is queued
      and only while its flag is up. */
  lemma LoopAlways(p: Plan, steps: seq<Step>)
    requires PlanOK(p) && Run(p, Initial(p), steps).Some?
    ensures var l := Run(p, Initial(p), steps).value;
      CacheOK(p, l.core) && forall s :: multiset(l.events)[Wake(s)] <= if s in l.wakePending then 1 else 0
  {
    hide PlanOK, CacheOK;
    InitialOK(p);
    RunKeeps(p, Initial(p), steps);
  }

  // ----- Every scope is reconciled, whatever is dropped

  lemma OutsideFrame(p: Plan, l: Loop, t: Step)
    requires Enabled(l, t) && !t.Pop? && !t.Finish? && !t.Tick?
    ensures var l' := Do(p, l, t);
      l'.core == l.core && l'.env.reconciles == l.env.reconciles && l'.env.now >= l.env.now
  {
    hide Supervisor.Notified, Enqueue;
    match t
    case Post(ev) => EnqueueOnly(l, ev);
    case TimerFires => EnqueueOnly(l.(due := None), FullPublish);
    case ReconcileTimer(scope) => EnqueueOnly(l.(env := l.env.(timers := l.env.timers - multiset{scope})), ReconcileDue(scope));
    case Deliver(scope) =>
      var b := l.env.buses[scope];
      EnqueueOnly(WithBus(l, scope, b.(hand := None)), BusState(scope, b.hand.value));
    case WakeHint(scope) => EnqueueOnly(l.(wakePending := l.wakePending + {scope}), Wake(scope));
    case _ =>
  }

  lemma EnqueueOnly(l: Loop, ev: Event)
    ensures Enqueue(l, ev) == l.(events := Enqueue(l, ev).events)
  {
  }

  lemma FinishFrame(p: Plan, l: Loop, reconnects: nat)
    ensures var l' := FinishRepublish(p, l, reconnects);
      && l'.core.bus == l.core.bus && l'.events == l.events && l'.wakePending == l.wakePending
      && l'.env == l.env.(busy := false, timers := l'.env.timers)
  {
    hide Put, RepublishMsgs, Scopes;
    var k1 := Republishing(l.core, reconnects);
    PutUnits(k1, RepublishMsgs(p, k1), true);
    ScheduleAllFrame(l.(core := Apply(p, l.core, Republish(reconnects)), env := l.env.(busy := false)), Scopes(p.c.all));
    hide ScheduleAll;
  }

  lemma {:induction false} AllScheduled(l: Loop, scopes: seq<string>)
    ensures var l' := ScheduleAll(l, scopes);
      && l'.pending == l.pending + (set s | s in scopes)
      && forall s :: l'.env.timers[s] == l.env.timers[s] + if s in scopes && s !in l.pending then 1 else 0
  {
    if scopes != [] {
      var n := |scopes| - 1;
      assert scopes == scopes[..n] + [scopes[n]];
      AllScheduled(l, scopes[..n]);
    }
  }

  /** A republish leaves every configured scope waiting for a reconcile, with one timer started for each that was not
      waiting before. */
  lemma RepublishSchedules(p: Plan, l: Loop, reconnects: nat)
    ensures var l' := FinishRepublish(p, l, reconnects);
      && !l'.env.busy && (forall s :: s in l'.pending <==> s in l.pending || s in Scopes(p.c.all))
      && (forall s :: l'.env.timers[s] == l.env.timers[s] + if s in Scopes(p.c.all) && s !in l.pending then 1 else 0)
      && l'.core == Apply(p, l.core, Republish(reconnects)) && l'.armedAt == l.armedAt && l'.wanted == l.wanted
  {
    hide Apply, Scopes;
    var l1 := l.(core := Apply(p, l.core, Republish(reconnects)), env := l.env.(busy := false));
    AllScheduled(l1, Scopes(p.c.all));
    ScheduleAllFrame(l1, Scopes(p.c.all));
  }

  /** How one step changes the loop's view of a bus and the number of reconciles of its scope. */
  lemma StepScope(p: Plan, l: Loop, t: Step, scope: string)
    requires PlanOK(p) && Inv(p, l) && Enabled(l, t)
    ensures var l' := Do(p, l, t);
      && Times(l'.env, scope) >= Times(l.env, scope)
      && (BusOn(l'.core, scope) && !BusOn(l.core, scope) ==> Times(l'.env, scope) > Times(l.env, scope))
      && l'.env.now >= l.env.now
  {
    hide PlanOK, CacheOK, Handle, PollTick, FinishRepublish, Scopes, WakesOK, TimerOK;
    match t
    case Pop(inp) => HandleScope(p, l.(events := l.events[1..]), l.events[0], inp, scope);
    case Finish(reconnects) => FinishFrame(p, l, reconnects);
    case Tick(inp) => TickScope(p, l, inp, scope);
    case _ => OutsideFrame(p, l, t);
  }

  lemma HandleScope(p: Plan, l: Loop, ev: Event, inp: Inputs, scope: string)
    requires PlanOK(p) && CacheOK(p, l.core) && (ev.BusState? ==> ev.scope in Scopes(p.c.all))
    ensures var l' := Handle(p, l, ev, inp);
      && Times(l'.env, scope) >= Times(l.env, scope) && l'.env.now == l.env.now
      && (BusOn(l'.core, scope) && !BusOn(l.core, scope) ==> Times(l'.env, scope) > Times(l.env, scope))
  {
    hide PlanOK, CacheOK, Scopes, ReconcileScope, HandleBus, AsksRepublish, ScopeOf, SelectOf, Apply;
    match ev
    case ReconcileDue(s) => ReconcileScopeKeeps(p, l, s, inp);
    case BusState(s, online) => HandleBusKeeps(p, l, s, online, inp);
    case DisplayMode(mode) => SameBus(p, l.core, DisplayIs(mode, inp.reconnects));
    case DisplayError => SameBus(p, l.core, DisplayGone(inp.reconnects));
    case JobDone(id, verb, result, error) => SameBus(p, l.core, JobFinished(id, verb, result, error, l.env.now));
    case _ =>
  }

  lemma SameBus(p: Plan, k: Core, op: Op)
    requires op.DisplayIs? || op.DisplayGone? || op.JobFinished?
    ensures Apply(p, k, op).bus == k.bus
  {
    hide Put, DisplayMsgs, DaemonMsgs, UnitMsgs;
    match op
    case DisplayIs(mode, reconnects) =>
      var k1 := k.(dispOnline := true, dispMode := mode, told := reconnects, heard := true,
        shown := if p.c.displayEnabled && mode != UNKNOWN then mode else k.shown);
      PutUnits(k1, DisplayMsgs(p, k1) + DaemonMsgs(p, k1), false);
    case DisplayGone(reconnects) =>
      var k1 := k.(dispOnline := false, told := reconnects, heard := true);
      PutUnits(k1, DisplayMsgs(p, k1) + DaemonMsgs(p, k1), false);
    case JobFinished(id, verb, result, error, now) =>
      if id in k.units {
        var k1 := k.(units := k.units[id := WithJob(k.units[id], verb, result, error, now)]);
        PutUnits(k1, UnitMsgs(p, k1.units[id]), false);
      }
  }

  lemma TickScope(p: Plan, l: Loop, inp: Inputs, scope: string)
    requires PlanOK(p) && Inv(p, l)
    ensures var l' := PollTick(p, l, inp);
      && Times(l'.env, scope) >= Times(l.env, scope) && l'.env.now == l.env.now
      && (BusOn(l'.core, scope) && !BusOn(l.core, scope) ==> Times(l'.env, scope) > Times(l.env, scope))
      && (scope in Scopes(p.c.all) ==> BusOn(l'.core, scope) == l.env.buses[scope].online && ReconciledOrOff(l, l', scope))
  {
    hide PlanOK, CacheOK, PollScopes, BusOn, Scopes;
    PollScopesKeeps(p, PollArm(l), Scopes(p.c.all), inp);
  }

  lemma {:induction false} RunScope(p: Plan, l: Loop, steps: seq<Step>, scope: string)
    requires PlanOK(p) && Inv(p, l) && Run(p, l, steps).Some?
    ensures var l' := Run(p, l, steps).value;
      && Times(l'.env, scope) >= Times(l.env, scope) && l'.env.now >= l.env.now
      && (BusOn(l'.core, scope) && !BusOn(l.core, scope) ==> Times(l'.env, scope) > Times(l.env, scope))
  {
    hide PlanOK, Inv, Do, Enabled, BusOn, Times;
    if steps != [] {
      RunScope(p, l, steps[..|steps| - 1], scope);
      RunKeeps(p, l, steps[..|steps| - 1]);
      StepScope(p, Run(p, l, steps[..|steps| - 1]).value, steps[|steps| - 1], scope);
    }
  }

  /** Whatever is dropped and whatever happens between them, two poll ticks reconcile every configured scope at least
      once. A tick that only learns that a bus is offline does not, but then the second one does, unless the bus came
      back in between, which reconciles as well. */
  lemma TwoTicksReconcile(p: Plan, l: Loop, first: Inputs, between: seq<Step>, second: Inputs, scope: string)
    requires PlanOK(p) && Inv(p, l) && !l.env.busy && scope in Scopes(p.c.all)
    requires Run(p, PollTick(p, l, first), between).Some? && !Run(p, PollTick(p, l, first), between).value.env.busy
    ensures var l' := PollTick(p, Run(p, PollTick(p, l, first), between).value, second);
      Times(l'.env, scope) > Times(l.env, scope)
  {
    hide PlanOK, Inv, PollTick, Run, BusOn, Times, Scopes;
    var l1 := PollTick(p, l, first);
    TickInv(p, l, first);
    TickScope(p, l, first, scope);
    var l2 := Run(p, l1, between).value;
    RunKeeps(p, l1, between);
    RunScope(p, l1, between, scope);
    TickScope(p, l2, second, scope);
  }

  // ----- A republish that was asked for

  /** A tick never postpones a republish whose timer runs and was the last one armed. */
  lemma TickKeepsTimer(p: Plan, l: Loop, inp: Inputs)
    requires PlanOK(p) && Inv(p, l) && l.armedAt.Some? && l.due.Some? && l.due.value > l.env.now
    ensures PollTick(p, l, inp).due == l.due && PollTick(p, l, inp).armedAt == l.armedAt
  {
    hide PlanOK, CacheOK, PollTick, Scopes;
    TickKeeps(p, l, inp);
  }

  /** When ticks are at least the smallest accepted poll interval apart and the flag is up at the second one, the timer
      was armed after the first tick and not later than the second. */
  lemma ArmedEveryPeriod(p: Plan, l: Loop, first: Inputs, between: seq<Step>, second: Inputs)
    requires PlanOK(p) && Inv(p, l) && !l.env.busy
    requires Run(p, PollTick(p, l, first), between).Some? && !Run(p, PollTick(p, l, first), between).value.env.busy
    requires Run(p, PollTick(p, l, first), between).value.env.now >= l.env.now + p.c.pollInterval
    requires Run(p, PollTick(p, l, first), between).value.wanted
    ensures var l2 := Run(p, PollTick(p, l, first), between).value;
      var l' := PollTick(p, l2, second);
      l'.armedAt.Some? && l.env.now < l'.armedAt.value <= l2.env.now
  {
    hide PlanOK, Inv, PollTick, Run;
    PollsApart(p);
    TickInv(p, l, first);
    RunKeeps(p, PollTick(p, l, first), between);
    TickArms(p, Run(p, PollTick(p, l, first), between).value, second);
  }

  lemma PollsApart(p: Plan)
    requires PlanOK(p)
    ensures p.c.pollInterval > 2 * DELAY
  {
    hide UnitsOK, Inverse, SelectPlaced, DistinctSelects, IsNodeID, BaseTopicOK;
  }

  /** After a tick with the flag up, the timer was armed at most two delays before. */
  lemma TickArms(p: Plan, l: Loop, inp: Inputs)
    requires PlanOK(p) && Inv(p, l) && l.wanted
    ensures PollTick(p, l, inp).armedAt.Some?
    ensures l.env.now - 2 * DELAY <= PollTick(p, l, inp).armedAt.value <= l.env.now
  {
    hide PlanOK, CacheOK, PollTick, Scopes, WakesOK;
    TickKeeps(p, l, inp);
  }

  // ----- Bus availability

  /** No change of this bus is on its way to the loop any more. */
  ghost predicate Quiet(l: Loop, scope: string) {
    && scope in l.env.buses
    && l.env.buses[scope].owed.None? && l.env.buses[scope].ch == [] && l.env.buses[scope].hand.None?
    && forall ev :: ev in l.events && ev.BusState? ==> ev.scope != scope
  }

  ghost predicate Settled(l: Loop, scope: string) {
    Quiet(l, scope) && BusOn(l.core, scope) == l.env.buses[scope].online
  }

  /** The cached availability of a bus is this. A bus that is offline and that nothing was ever told about is absent. */
  predicate Shown(k: Core, scope: string, online: bool) {
    if online || scope in k.bus || k.republished
    then BusAvailability(scope) in k.last && k.last[BusAvailability(scope)] == OnlineText(online)
    else BusAvailability(scope) !in k.last
  }

  lemma BusShown(p: Plan, k: Core, scope: string)
    requires CacheOK(p, k) && scope in Scopes(p.c.all)
    ensures Shown(k, scope, BusOn(k, scope))
  {
    NoLag(p);
    hide HasUnits, Scopes;
    assert Due(p, k, BusAvailability(scope)) <==> scope in k.bus || k.republished;
  }

  /** One tick makes the loop's view, and with it the cached availability, agree with the supervisor, however many changes
      were lost and whatever is still on its way; and once nothing is on its way, the agreement is settled. */
  lemma TickSettlesBus(p: Plan, l: Loop, inp: Inputs, scope: string)
    requires PlanOK(p) && Inv(p, l) && scope in l.env.buses
    ensures BusOn(PollTick(p, l, inp).core, scope) == l.env.buses[scope].online
    ensures Shown(PollTick(p, l, inp).core, scope, l.env.buses[scope].online)
    ensures Quiet(l, scope) ==> Settled(PollTick(p, l, inp), scope)
  {
    TickInv(p, l, inp);
    hide PlanOK, CacheOK, PollTick, Scopes;
    TickKeeps(p, l, inp);
    BusShown(p, PollTick(p, l, inp).core, scope);
  }

  lemma OutsideStaysSettled(p: Plan, l: Loop, t: Step, scope: string)
    requires Enabled(l, t) && Settled(l, scope) && !t.Pop? && !t.Finish? && !t.Tick?
    requires t.SetOnline? ==> t.scope != scope
    ensures Settled(Do(p, l, t), scope) && Do(p, l, t).env.buses[scope].online == l.env.buses[scope].online
  {
    hide Supervisor.Notified, BusOn;
    OutsideFrame(p, l, t);
    if t.Deliver? {
      var b := l.env.buses[t.scope];
      EnqueueOnly(WithBus(l, t.scope, b.(hand := None)), BusState(t.scope, b.hand.value));
    }
  }

  lemma StepStaysSettled(p: Plan, l: Loop, t: Step, scope: string)
    requires PlanOK(p) && Inv(p, l) && Enabled(l, t) && Settled(l, scope)
    requires t.SetOnline? ==> t.scope != scope
    ensures Settled(Do(p, l, t), scope) && Do(p, l, t).env.buses[scope].online == l.env.buses[scope].online
  {
    hide PlanOK, CacheOK, Handle, PollTick, FinishRepublish, Scopes, WakesOK, TimerOK;
    match t
    case Pop(inp) => PopStaysSettled(p, l, inp, scope);
    case Finish(reconnects) => FinishFrame(p, l, reconnects);
    case Tick(inp) => TickKeeps(p, l, inp);
    case _ => OutsideStaysSettled(p, l, t, scope);
  }

  /** Handling an event of anything but this bus leaves the loop's view of the bus alone. */
  lemma HandleBusView(p: Plan, l: Loop, ev: Event, inp: Inputs, scope: string)
    requires PlanOK(p) && CacheOK(p, l.core) && (ev.BusState? ==> ev.scope in Scopes(p.c.all) && ev.scope != scope)
    ensures var l' := Handle(p, l, ev, inp);
      BusOn(l'.core, scope) == BusOn(l.core, scope) && l'.events == l.events && l'.env.buses == l.env.buses
  {
    hide PlanOK, CacheOK, Scopes, ReconcileScope, HandleBus, AsksRepublish, ScopeOf, SelectOf, Apply;
    match ev
    case ReconcileDue(s) => ReconcileScopeKeeps(p, l, s, inp);
    case BusState(s, online) => HandleBusKeeps(p, l, s, online, inp);
    case DisplayMode(mode) => SameBus(p, l.core, DisplayIs(mode, inp.reconnects));
    case DisplayError => SameBus(p, l.core, DisplayGone(inp.reconnects));
    case JobDone(id, verb, result, error) => SameBus(p, l.core, JobFinished(id, verb, result, error, l.env.now));
    case _ =>
  }

  lemma PopStaysSettled(p: Plan, l: Loop, inp: Inputs, scope: string)
    requires PlanOK(p) && Inv(p, l) && l.events != [] && Settled(l, scope)
    ensures var l' := Handle(p, l.(events := l.events[1..]), l.events[0], inp);
      Settled(l', scope) && l'.env.buses[scope].online == l.env.buses[scope].online
  {
    hide PlanOK, CacheOK, Handle, Scopes, WakesOK, TimerOK, BusOn;
    var ev, l0 := l.events[0], l.(events := l.events[1..]);
    assert ev in l.events && forall e :: e in l0.events ==> e in l.events;
    HandleBusView(p, l0, ev, inp, scope);
  }

  /** And they stay in agreement in every run until the supervisor changes again. */
  lemma {:induction false} StaysSettled(p: Plan, l: Loop, steps: seq<Step>, scope: string)
    requires PlanOK(p) && Inv(p, l) && Run(p, l, steps).Some? && Settled(l, scope)
    requires forall t :: t in steps && t.SetOnline? ==> t.scope != scope
    ensures var l' := Run(p, l, steps).value;
      && Settled(l', scope) && l'.env.buses[scope].online == l.env.buses[scope].online
      && Shown(l'.core, scope, l.env.buses[scope].online)
  {
    hide PlanOK, CacheOK, Do, Enabled;
    RunKeeps(p, l, steps);
    if steps != [] {
      var n := |steps| - 1;
      assert steps == steps[..n] + [steps[n]];
      StaysSettled(p, l, steps[..n], scope);
      RunKeeps(p, l, steps[..n]);
      StepStaysSettled(p, Run(p, l, steps[..n]).value, steps[n], scope);
    }
    hide Run;
    BusShown(p, Run(p, l, steps).value.core, scope);
  }
}
