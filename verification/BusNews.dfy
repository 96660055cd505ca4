/** What the loop ends up believing about a bus, when state changes are dropped on their way to it. */
module BusNews {
  import opened Text
  import opened Config
  import opened UnitState
  import opened Topics
  import opened PublishCache
  import opened EventLoop
  import S = Supervisor

  /** The states of one bus that wait in the loop's queue, oldest first. */
  function Values(events: seq<Event>, scope: string): seq<bool> {
    if events == [] then []
    else
      var ev := events[0];
      (if ev.BusState? && ev.scope == scope then [ev.online] else []) + Values(events[1..], scope)
  }

  function Listed(o: Option<bool>): seq<bool> { if o.Some? then [o.value] else [] }

  /** The loop's view of a bus, and after it every state that is still on its way, oldest first: in the loop's queue, with
      the forwarder, in the supervisor's channel, and not yet sent. */
  function News(l: Loop, scope: string): seq<bool>
    requires scope in l.env.buses
  {
    var b := l.env.buses[scope];
    [BusOn(l.core, scope)] + Values(l.events, scope) + Listed(b.hand) + b.ch + Listed(b.owed)
  }

  /** The state that the loop will believe in when all of it has arrived. */
  function Newest(l: Loop, scope: string): bool
    requires scope in l.env.buses
  {
    var news := News(l, scope);
    news[|news| - 1]
  }

  /** The step drops the newest state: notify finds its channel full, or the loop's queue is full and nothing newer is
      behind the state that the forwarder holds. */
  predicate DropsNewest(l: Loop, t: Step, scope: string)
    requires scope in l.env.buses
  {
    var b := l.env.buses[scope];
    || (t == Send(scope) && b.owed.Some? && |b.ch| >= S.STATE_BUFFER)
    || (t == EventLoop.Step.Deliver(scope) && b.hand.Some? && |l.events| >= QUEUE && b.ch == [] && b.owed.None?)
  }

  /** The step decides whether the newest state is right: the supervisor changes, the newest state is dropped, or a tick
      looks while nothing is on its way. */
  predicate Decides(l: Loop, t: Step, scope: string)
    requires scope in l.env.buses
  {
    || (t.SetOnline? && t.scope == scope)
    || DropsNewest(l, t, scope)
    || (t.Tick? && |News(l, scope)| == 1)
  }

  /** The state that is then left as the newest is not the supervisor's. */
  predicate Loses(l: Loop, t: Step, scope: string)
    requires scope in l.env.buses
  {
    var news := News(l, scope);
    DropsNewest(l, t, scope) && |news| > 1 && news[|news| - 2] != l.env.buses[scope].online
  }

  lemma {:induction false} ValuesSnoc(events: seq<Event>, ev: Event, scope: string)
    ensures Values(events + [ev], scope) == Values(events, scope) + Values([ev], scope)
  {
    if events == [] {
      assert [] + [ev] == [ev];
    } else {
      ValuesSnoc(events[1..], ev, scope);
      assert (events + [ev])[1..] == events[1..] + [ev];
    }
  }

  lemma ValuesOne(ev: Event, scope: string)
    ensures Values([ev], scope) == if ev.BusState? && ev.scope == scope then [ev.online] else []
  {
  }

  lemma ValuesPop(events: seq<Event>, scope: string)
    requires events != []
    ensures Values(events, scope) == Values([events[0]], scope) + Values(events[1..], scope)
  {
    ValuesOne(events[0], scope);
  }

  lemma EnqueueValues(l: Loop, ev: Event, scope: string)
    ensures Values(Enqueue(l, ev).events, scope)
      == Values(l.events, scope) + if |l.events| < QUEUE && ev.BusState? && ev.scope == scope then [ev.online] else []
  {
    ValuesSnoc(l.events, ev, scope);
    ValuesOne(ev, scope);
  }

  /** The newest state is the supervisor's. */
  predicate Right(l: Loop, scope: string)
    requires scope in l.env.buses
  {
    Newest(l, scope) == l.env.buses[scope].online
  }

  /** What a step leaves of the news, by what it does to their parts. */
  lemma SameNews(l: Loop, l': Loop, scope: string)
    requires scope in l.env.buses && scope in l'.env.buses
    requires BusOn(l'.core, scope) == BusOn(l.core, scope) && l'.env.buses[scope] == l.env.buses[scope]
    requires Values(l'.events, scope) == Values(l.events, scope)
    ensures News(l', scope) == News(l, scope)
  {
  }

  /** When the loop takes over the oldest state that is on its way, the news lose their first element only. */
  lemma NewsPop(l: Loop, l': Loop, scope: string, online: bool)
    requires scope in l.env.buses && l'.env.buses == l.env.buses && BusOn(l'.core, scope) == online
    requires Values(l.events, scope) == [online] + Values(l'.events, scope)
    ensures Right(l', scope) <==> Right(l, scope)
  {
    hide Values, BusOn;
    assert News(l, scope)[1..] == News(l', scope);
  }

  lemma PopNews(p: Plan, l: Loop, inp: Inputs, scope: string)
    requires PlanOK(p) && Inv(p, l) && Enabled(l, Pop(inp)) && scope in l.env.buses
    ensures var l' := Do(p, l, Pop(inp));
      scope in l'.env.buses && l'.env.buses == l.env.buses && (Right(l', scope) <==> Right(l, scope))
  {
    hide PlanOK, CacheOK, Handle, Scopes, WakesOK, TimerOK, Values, BusOn, Right;
    var ev, l0 := l.events[0], l.(events := l.events[1..]);
    assert ev in l.events;
    ValuesPop(l.events, scope);
    ValuesOne(ev, scope);
    if ev.BusState? && ev.scope == scope {
      BusPop(p, l0, ev.online, inp, scope);
      NewsPop(l, Handle(p, l0, ev, inp), scope, ev.online);
    } else {
      HandleBusView(p, l0, ev, inp, scope);
      SameRight(l, Handle(p, l0, ev, inp), scope);
    }
  }

  lemma SameRight(l: Loop, l': Loop, scope: string)
    requires scope in l.env.buses && l'.env.buses == l.env.buses && BusOn(l'.core, scope) == BusOn(l.core, scope)
    requires Values(l.events, scope) == [] + Values(l'.events, scope)
    ensures Right(l', scope) <==> Right(l, scope)
  {
    hide Values, BusOn;
    SameNews(l, l', scope);
  }

  lemma BusPop(p: Plan, l: Loop, online: bool, inp: Inputs, scope: string)
    requires PlanOK(p) && CacheOK(p, l.core) && scope in Scopes(p.c.all)
    ensures var l' := Handle(p, l, BusState(scope, online), inp);
      BusOn(l'.core, scope) == online && l'.events == l.events && l'.env.buses == l.env.buses
  {
    hide PlanOK, CacheOK, HandleBus, Scopes;
    HandleBusKeeps(p, l, scope, online, inp);
  }

  lemma TickNews(p: Plan, l: Loop, inp: Inputs, scope: string)
    requires PlanOK(p) && Inv(p, l) && scope in l.env.buses
    ensures var l' := PollTick(p, l, inp);
      && scope in l'.env.buses && l'.env.buses == l.env.buses
      && (Right(l', scope) <==> |News(l, scope)| == 1 || Right(l, scope))
  {
    hide PlanOK, CacheOK, PollTick, Scopes, Values;
    TickKeeps(p, l, inp);
  }

  lemma FinishNews(p: Plan, l: Loop, reconnects: nat, scope: string)
    requires scope in l.env.buses
    ensures var l' := FinishRepublish(p, l, reconnects); l'.env.buses == l.env.buses && (Right(l', scope) <==> Right(l, scope))
  {
    hide FinishRepublish, Values;
    FinishFrame(p, l, reconnects);
    assert BusOn(FinishRepublish(p, l, reconnects).core, scope) == BusOn(l.core, scope);
    SameNews(l, FinishRepublish(p, l, reconnects), scope);
  }

  /** How a step beside the loop decides. */
  ghost predicate Judged(l: Loop, t: Step, l': Loop, scope: string)
    requires scope in l.env.buses
  {
    && scope in l'.env.buses
    && (Right(l', scope) <==> if Decides(l, t, scope) then !Loses(l, t, scope) else Right(l, scope))
  }

  lemma SendNews(p: Plan, l: Loop, scope: string)
    requires scope in l.env.buses && Enabled(l, Send(scope))
    ensures Judged(l, Send(scope), Do(p, l, Send(scope)), scope)
  {
    hide Values, BusOn;
  }

  lemma ForwardNews(p: Plan, l: Loop, scope: string)
    requires scope in l.env.buses && Enabled(l, Forward(scope))
    ensures Judged(l, Forward(scope), Do(p, l, Forward(scope)), scope)
  {
    hide Values, BusOn, S.Notified;
    var b := l.env.buses[scope];
    assert [b.ch[0]] + b.ch[1..] == b.ch;
  }

  lemma DeliverNews(p: Plan, l: Loop, scope: string)
    requires scope in l.env.buses && Enabled(l, EventLoop.Step.Deliver(scope))
    ensures Judged(l, EventLoop.Step.Deliver(scope), Do(p, l, EventLoop.Step.Deliver(scope)), scope)
  {
    hide Values, BusOn, S.Notified, Enqueue;
    var b := l.env.buses[scope];
    EnqueueOnly(WithBus(l, scope, b.(hand := None)), BusState(scope, b.hand.value));
    EnqueueValues(WithBus(l, scope, b.(hand := None)), BusState(scope, b.hand.value), scope);
  }

  lemma SetOnlineNews(p: Plan, l: Loop, scope: string, online: bool)
    requires scope in l.env.buses && Enabled(l, SetOnline(scope, online))
    ensures Judged(l, SetOnline(scope, online), Do(p, l, SetOnline(scope, online)), scope)
  {
    hide Values, BusOn, S.Notified;
  }

  /** A step beside the loop that is not about this bus leaves its news as they are. */
  lemma OtherNews(p: Plan, l: Loop, t: Step, scope: string)
    requires scope in l.env.buses && Enabled(l, t) && !t.Pop? && !t.Finish? && !t.Tick?
    requires (t.Send? || t.Forward? || t.Deliver? || t.SetOnline?) ==> t.scope != scope
    ensures var l' := Do(p, l, t);
      scope in l'.env.buses && l'.env.buses[scope] == l.env.buses[scope] && News(l', scope) == News(l, scope)
  {
    hide Values, BusOn, S.Notified, News, Enqueue;
    match t {
    case Post(ev) => EnqueueOther(l, ev, scope);
    case TimerFires => EnqueueOther(l.(due := None), FullPublish, scope);
    case ReconcileTimer(s) =>
      EnqueueOther(l.(env := l.env.(timers := l.env.timers - multiset{s})), ReconcileDue(s), scope);
    case Deliver(s) =>
      var b := l.env.buses[s];
      EnqueueOther(WithBus(l, s, b.(hand := None)), BusState(s, b.hand.value), scope);
    case WakeHint(s) => EnqueueOther(l.(wakePending := l.wakePending + {s}), Wake(s), scope);
    case _ =>
    }
    SameNews(l, Do(p, l, t), scope);
  }

  lemma OtherJudged(p: Plan, l: Loop, t: Step, scope: string)
    requires scope in l.env.buses && Enabled(l, t) && !t.Pop? && !t.Finish? && !t.Tick?
    requires (t.Send? || t.Forward? || t.Deliver? || t.SetOnline?) ==> t.scope != scope
    ensures Judged(l, t, Do(p, l, t), scope)
  {
    hide News, Do, Enabled;
    OtherNews(p, l, t, scope);
  }

  lemma EnqueueOther(l: Loop, ev: Event, scope: string)
    requires ev.BusState? ==> ev.scope != scope
    ensures Enqueue(l, ev) == l.(events := Enqueue(l, ev).events) && Values(Enqueue(l, ev).events, scope) == Values(l.events, scope)
  {
    hide Values;
    EnqueueValues(l, ev, scope);
  }

  lemma StepNews(p: Plan, l: Loop, t: Step, scope: string)
    requires PlanOK(p) && Inv(p, l) && Enabled(l, t) && scope in l.env.buses
    ensures Judged(l, t, Do(p, l, t), scope)
  {
    hide PlanOK, CacheOK, Handle, PollTick, FinishRepublish, WakesOK, TimerOK, BusesOK, News, Enqueue, S.Notified;
    match t
    case Pop(inp) => PopNews(p, l, inp, scope);
    case Finish(reconnects) => FinishNews(p, l, reconnects, scope);
    case Tick(inp) => TickNews(p, l, inp, scope);
    case _ => OutsideNews(p, l, t, scope);
  }

  lemma OutsideNews(p: Plan, l: Loop, t: Step, scope: string)
    requires scope in l.env.buses && Enabled(l, t) && !t.Pop? && !t.Finish? && !t.Tick?
    ensures Judged(l, t, Do(p, l, t), scope)
  {
    hide Judged, Do, Enabled;
    if (t.Send? || t.Forward? || t.Deliver? || t.SetOnline?) && t.scope == scope {
      match t
      case Send(_) => SendNews(p, l, scope);
      case Forward(_) => ForwardNews(p, l, scope);
      case Deliver(_) => DeliverNews(p, l, scope);
      case SetOnline(_, online) => SetOnlineNews(p, l, scope, online);
    } else {
      OtherJudged(p, l, t, scope);
    }
  }

  /** The last step of a run that decided about this bus lost the right state. */
  ghost predicate LastLost(p: Plan, l: Loop, steps: seq<Step>, scope: string) {
    && steps != []
    && var before, t := Run(p, l, steps[..|steps| - 1]), steps[|steps| - 1];
       && before.Some? && scope in before.value.env.buses
       && if Decides(before.value, t, scope) then Loses(before.value, t, scope) else LastLost(p, l, steps[..|steps| - 1], scope)
  }

  lemma {:induction false} RightIffNotLost(p: Plan, steps: seq<Step>, scope: string)
    requires PlanOK(p) && Run(p, Initial(p), steps).Some? && scope in Scopes(p.c.all)
    ensures var l := Run(p, Initial(p), steps).value;
      scope in l.env.buses && (Right(l, scope) <==> !LastLost(p, Initial(p), steps, scope))
  {
    hide PlanOK, CacheOK, WakesOK, TimerOK, Do, Enabled, Right, Decides, Loses, Scopes, Start;
    InitialOK(p);
    RunKeeps(p, Initial(p), steps);
    if steps == [] {
      StartsRight(p, scope);
    } else {
      hide Initial;
      var before := steps[..|steps| - 1];
      RightIffNotLost(p, before, scope);
      RunKeeps(p, Initial(p), before);
      StepNews(p, Run(p, Initial(p), before).value, steps[|steps| - 1], scope);
    }
  }

  lemma StartsRight(p: Plan, scope: string)
    requires scope in Scopes(p.c.all)
    ensures scope in Initial(p).env.buses && Right(Initial(p), scope)
  {
    hide Scopes;
  }

  /** What a reader of the state channel ends with: when nothing about a bus is on its way any more, the loop's view and
      the cached availability are the supervisor's state exactly when the last deciding step of the run did not lose it. */
  lemma QuietViewIff(p: Plan, steps: seq<Step>, scope: string)
    requires PlanOK(p) && Run(p, Initial(p), steps).Some? && Quiet(Run(p, Initial(p), steps).value, scope)
    ensures var l := Run(p, Initial(p), steps).value;
      && (BusOn(l.core, scope) == l.env.buses[scope].online <==> !LastLost(p, Initial(p), steps, scope))
      && Shown(l.core, scope, BusOn(l.core, scope))
  {
    hide PlanOK, CacheOK, WakesOK, TimerOK, Run, BusOn, Values, Scopes, LastLost, Initial;
    InitialOK(p);
    RunKeeps(p, Initial(p), steps);
    var l := Run(p, Initial(p), steps).value;
    RightIffNotLost(p, steps, scope);
    QuietValues(l.events, scope);
    BusShown(p, l.core, scope);
  }

  lemma {:induction false} QuietValues(events: seq<Event>, scope: string)
    requires forall ev :: ev in events && ev.BusState? ==> ev.scope != scope
    ensures Values(events, scope) == []
  {
    if events != [] {
      assert events[0] in events;
      QuietValues(events[1..], scope);
    }
  }
}
