/** The daemon's loop object: its fields, and its handlers proved against the transition system of EventLoop. */
module App {
  import opened Text
  import opened Config
  import opened StatusMapping
  import opened UnitState
  import opened Topics
  import opened PublishCache
  import opened EventLoop
  import Commands
  import TS = TemplateSelect

  lemma PutSnoc(k: Core, msgs: seq<Msg>, m: Msg, force: bool)
    ensures Put(k, msgs + [m], force) == Put1(Put(k, msgs, force), m, force)
  {
    assert (msgs + [m])[..|msgs|] == msgs;
  }

  lemma PutNothing(k: Core)
    ensures Put(k, [], false) == k && Put(k, [], true) == k
  {
  }

  lemma PutOne(k: Core, a: Msg, force: bool)
    ensures Put(k, [a], force) == Put1(k, a, force)
  {
    hide Put1;
    PutNothing(k);
    assert [a][..0] == [];
  }

  lemma PutTwo(k: Core, a: Msg, b: Msg, force: bool)
    ensures Put(k, [a, b], force) == Put1(Put1(k, a, force), b, force)
  {
    hide Put, Put1;
    PutOne(k, a, force);
    PutSnoc(k, [a], b, force);
    assert [a] + [b] == [a, b];
  }

  /** Publishing a list of four, message by message. */
  lemma PutFour(k: Core, a: Msg, b: Msg, c: Msg, d: Msg, force: bool)
    ensures Put(k, [a, b, c, d], force) == Put1(Put1(Put1(Put1(k, a, force), b, force), c, force), d, force)
  {
    hide Put, Put1;
    PutTwo(k, a, b, force);
    PutSnoc(k, [a, b], c, force);
    assert [a, b] + [c] == [a, b, c];
    PutSnoc(k, [a, b, c], d, force);
    assert [a, b, c] + [d] == [a, b, c, d];
  }

  lemma HasUnit(us: seq<UnitConfig>, units: Snapshots, i: nat)
    requires HasUnits(us, units) && i < |us|
    ensures ObjectID(us[i]) in units
  {
    hide ObjectID;
  }

  lemma UnitsMsgsNone(p: Plan, units: Snapshots)
    ensures UnitsMsgs(p, units, []) == []
  {
  }

  lemma UnitsMsgsNext(p: Plan, units: Snapshots, us: seq<UnitConfig>, i: nat)
    requires i < |us| && ObjectID(us[i]) in units
    ensures UnitsMsgs(p, units, us[..i + 1]) == UnitsMsgs(p, units, us[..i]) + UnitMsgs(p, units[ObjectID(us[i])])
  {
    hide ObjectID, UnitMsgs;
    assert us[..i + 1][..i] == us[..i];
  }

  class App {
    const p: Plan
    const offMode: string
    const st: State
    var bus: map<string, bool>
    var dispOnline: bool
    var dispMode: int
    var last: map<Topic, string>
    var force: bool
    var mq: seq<Msg>
    var pending: set<string>
    var events: seq<Event>
    var wakePending: set<string>
    var wanted: bool
    var armedAt: Option<nat>
    var due: Option<nat>
    /** What surrounds the loop: the clock and the supervisors' online flags are read from it. */
    var env: Env
    /** How often the display was asked for its mode. The answers come back as events. */
    var displayReads: nat
    ghost var shown: int
    ghost var told: nat
    ghost var heard: bool
    ghost var republished: bool

    ghost function CoreView(): Core
      reads this, st
    {
      Core(st.units, bus, dispOnline, dispMode, shown, told, heard, republished, last, mq)
    }

    ghost function View(): Loop
      reads this, st
    {
      Loop(CoreView(), pending, events, wakePending, wanted, armedAt, due, env)
    }

    ghost predicate Valid()
      reads this, st
    {
      st.Valid(p.c.all) && st.byName == p.byName && !force
    }

    constructor (p: Plan, offMode: string)
      requires PlanOK(p)
      ensures this.p == p && this.offMode == offMode && fresh(st) && Valid() && View() == EventLoop.Initial(p)
      ensures bus == map[] && !dispOnline && dispMode == -1 && last == map[] && mq == [] && !force
      ensures pending == {} && events == [] && wakePending == {} && !wanted && armedAt == None && due == None
    {
      hide HasUnits, Inverse, UnitsOK, Scopes, StartUnits, IsNodeID, SelectPlaced, NodeOK;
      var s := new State(p.c.all);
      this.p, this.offMode, st, displayReads := p, offMode, s, 0;
      bus, dispOnline, dispMode, last, force, mq := map[], false, UNKNOWN, map[], false, [];
      pending, events, wakePending, wanted, armedAt, due := {}, [], {}, false, None, None;
      env := EventLoop.Initial(p).env;
      shown, told, heard, republished := UNKNOWN, 0, false, false;
      new;
      InverseUnique(p.c.all, st.byName, p.byName);
    }

    // ----- Publishing

    method Publish(topic: Topic, payload: string)
      modifies this`last, this`mq
      ensures CoreView() == Put1(old(CoreView()), Msg(topic, payload), force)
      ensures last == old(last)[topic := payload]
      ensures mq == old(mq)
        + if force || topic !in old(last) || old(last)[topic] != payload then [Msg(topic, payload)] else []
    {
      if !force && topic in last && last[topic] == payload {
        return;
      }
      last := last[topic := payload];
      mq := mq + [Msg(topic, payload)];
    }

    method PublishUnit(snap: Snapshot)
      modifies this`last, this`mq
      ensures CoreView() == Put(old(CoreView()), UnitMsgs(p, snap), force)
      ensures !snap.known ==> last == old(last) && mq == old(mq)
      ensures snap.known ==>
        var active := snap.triple.active;
        last == old(last)[
          UnitState(snap.id) := if active == "active" || active == "activating" || active == "reloading" then "ON" else "OFF"][
          UnitAttributes(snap.id) := p.texts.attributes(snap)]
    {
      var state, attributes := Msg(UnitState(snap.id), SwitchText(IsOn(snap))), Msg(UnitAttributes(snap.id), p.texts.attributes(snap));
      PutNothing(CoreView());
      PutTwo(CoreView(), state, attributes, force);
      hide Put, Put1;
      if !snap.known {
        return;
      }
      Publish(state.topic, state.payload);
      Publish(attributes.topic, attributes.payload);
    }

    method PublishBus(scope: string)
      modifies this`last, this`mq
      ensures CoreView() == Put(old(CoreView()), BusMsgs(bus, scope), force)
      ensures last == old(last)[BusAvailability(scope) := if scope in bus && bus[scope] then "online" else "offline"]
    {
      var m := Msg(BusAvailability(scope), OnlineText(scope in bus && bus[scope]));
      PutOne(CoreView(), m, force);
      hide Put, Put1;
      Publish(m.topic, m.payload);
    }

    method PublishTemplate(sel: TemplateSelect)
      modifies this`last, this`mq
      ensures CoreView() == Put(old(CoreView()), SelectMsgs(st.units, sel), force)
    {
      hide Put1, ActiveCaptions, SelectCaption, AnyKnown;
      var caption, active, known := st.TemplateState(sel.options);
      PutNothing(CoreView());
      var m := Msg(TemplateState(sel.id), caption);
      PutOne(CoreView(), m, force);
      hide Put;
      if known {
        Publish(m.topic, m.payload);
      }
    }

    method PublishDisplay()
      modifies this`last, this`mq
      ensures CoreView() == Put(old(CoreView()), DisplayMsgs(p, old(CoreView())), force)
      ensures !p.c.displayEnabled ==> last == old(last) && mq == old(mq)
      ensures p.c.displayEnabled && !(dispOnline && dispMode != -1) ==> last == old(last)[DisplayAvailability := "offline"]
      ensures p.c.displayEnabled && dispOnline && dispMode != -1 ==>
        last == old(last)[DisplayState := if dispMode == 0 then "ON" else "OFF"][DisplayModeState := ModeName(dispMode)][
          DisplayAttributes := p.texts.display(dispMode)][DisplayAvailability := "online"]
    {
      var available := dispOnline && dispMode != UNKNOWN;
      var a, b := Msg(DisplayState, SwitchText(dispMode == MODE_ON)), Msg(DisplayModeState, ModeName(dispMode));
      var c, d := Msg(DisplayAttributes, p.texts.display(dispMode)), Msg(DisplayAvailability, OnlineText(available));
      PutNothing(CoreView());
      PutOne(CoreView(), d, force);
      PutFour(CoreView(), a, b, c, d, force);
      hide Put, Put1;
      if !p.c.displayEnabled {
        return;
      }
      if !available {
        Publish(d.topic, d.payload);
        return;
      }
      Publish(a.topic, a.payload);
      Publish(b.topic, b.payload);
      Publish(c.topic, c.payload);
      Publish(d.topic, d.payload);
    }

    method PublishDaemonState(reconnects: nat)
      requires told == reconnects
      modifies this`last, this`mq
      ensures CoreView() == Put(old(CoreView()), DaemonMsgs(p, old(CoreView())), force)
      ensures last == old(last)[DaemonState := p.texts.daemon("user" in bus && bus["user"], "system" in bus && bus["system"],
        dispOnline && dispMode != -1, reconnects)]
    {
      var user, system := USER in bus && bus[USER], SYSTEM in bus && bus[SYSTEM];
      var m := Msg(DaemonState, p.texts.daemon(user, system, dispOnline && dispMode != UNKNOWN, reconnects));
      PutOne(CoreView(), m, force);
      hide Put, Put1;
      Publish(m.topic, m.payload);
    }

    /** Everything that a republish sends. */
    method SendStates(ghost k1: Core, reconnects: nat)
      requires st.Valid(p.c.all) && force && k1 == CoreView() && told == reconnects
      modifies this`last, this`mq
      ensures CoreView() == Put(k1, RepublishMsgs(p, k1), true)
    {
      hide Put, Put1, Scopes, ObjectID, UnitMsgs, BusMsgs, SelectMsgs, DisplayMsgs, DaemonMsgs;
      var first := if p.c.haEnabled then [Msg(Discovery, p.texts.discovery)] else [];
      PutNothing(k1);
      PutOne(k1, Msg(Discovery, p.texts.discovery), true);
      if p.c.haEnabled {
        Publish(Discovery, p.texts.discovery);
      }
      SendBuses(k1, first);
      ghost var sent := first + BusesMsgs(bus, Scopes(p.c.all));
      SendUnits(k1, sent);
      sent := sent + UnitsMsgs(p, st.units, p.c.all);
      SendSelects(k1, sent);
      sent := sent + SelectsMsgs(st.units, p.c.selects, None);
      FinishSends(reconnects, k1, sent);
    }

    method SendBuses(ghost k1: Core, ghost before: seq<Msg>)
      requires force && CoreView() == Put(k1, before, true)
      modifies this`last, this`mq
      ensures CoreView() == Put(k1, before + BusesMsgs(bus, Scopes(p.c.all)), true)
    {
      hide Put, Scopes, BusMsgs;
      ghost var sent := before;
      var scopes := Scopes(p.c.all);
      for i := 0 to |scopes|
        invariant sent == before + BusesMsgs(bus, scopes[..i]) && CoreView() == Put(k1, sent, true)
      {
        PutConcat(k1, sent, BusMsgs(bus, scopes[i]), true);
        PublishBus(scopes[i]);
        sent := sent + BusMsgs(bus, scopes[i]);
        assert scopes[..i + 1][..i] == scopes[..i];
      }
      assert scopes[..|scopes|] == scopes;
    }

    method SendUnits(ghost k1: Core, ghost before: seq<Msg>)
      requires force && CoreView() == Put(k1, before, true) && st.Valid(p.c.all)
      modifies this`last, this`mq
      ensures CoreView() == Put(k1, before + UnitsMsgs(p, st.units, p.c.all), true)
    {
      hide Put, ObjectID, UnitMsgs, Inverse, HasUnits, UnitsMsgs;
      ghost var sent := before;
      assert UnitsMsgs(p, st.units, p.c.all[..0]) == [] by { UnitsMsgsNone(p, st.units); }
      for i := 0 to |st.order|
        invariant sent == before + UnitsMsgs(p, st.units, p.c.all[..i]) && CoreView() == Put(k1, sent, true)
      {
        HasUnit(p.c.all, st.units, i);
        var snap := st.units[st.order[i]];
        PutConcat(k1, sent, UnitMsgs(p, snap), true);
        PublishUnit(snap);
        UnitsMsgsNext(p, st.units, p.c.all, i);
        sent := sent + UnitMsgs(p, snap);
      }
      assert p.c.all[..|st.order|] == p.c.all;
    }

    method SendSelects(ghost k1: Core, ghost before: seq<Msg>)
      requires force && CoreView() == Put(k1, before, true)
      modifies this`last, this`mq
      ensures CoreView() == Put(k1, before + SelectsMsgs(st.units, p.c.selects, None), true)
    {
      hide Put, SelectMsgs;
      ghost var sent := before;
      for i := 0 to |p.c.selects|
        invariant sent == before + SelectsMsgs(st.units, p.c.selects[..i], None) && CoreView() == Put(k1, sent, true)
      {
        PutConcat(k1, sent, SelectMsgs(st.units, p.c.selects[i]), true);
        PublishTemplate(p.c.selects[i]);
        sent := sent + SelectMsgs(st.units, p.c.selects[i]);
        assert p.c.selects[..i + 1][..i] == p.c.selects[..i];
      }
      assert p.c.selects[..|p.c.selects|] == p.c.selects;
    }

    /** What a republish sends after the selects. */
    method FinishSends(reconnects: nat, ghost k1: Core, ghost sent: seq<Msg>)
      requires CoreView() == Put(k1, sent, true) && force && k1.told == reconnects
      modifies this`last, this`mq
      ensures CoreView() == Put(k1, sent + DisplayMsgs(p, k1) + DaemonMsgs(p, k1) + [Msg(Availability, "online")], true)
    {
      hide Put1;
      PutUnits(k1, sent, true);
      ghost var k2 := CoreView();
      ghost var a, b := DisplayMsgs(p, k1), DaemonMsgs(p, k1);
      assert DisplayMsgs(p, k2) == a;
      PutUnits(k2, a, true);
      assert DaemonMsgs(p, Put(k2, a, true)) == b;
      PutConcat(k1, sent, a, true);
      PutConcat(k1, sent + a, b, true);
      PutSnoc(k1, sent + a + b, Msg(Availability, "online"), true);
      hide Put, DisplayMsgs, DaemonMsgs;
      PublishDisplay();
      PublishDaemonState(reconnects);
      Publish(Availability, "online");
    }

    /** Discovery, every state, and availability last, all forced out; then every scope is due for a reconcile. */
    method RepublishAll(reconnects: nat)
      requires Valid()
      modifies this
      ensures Valid() && View() == FinishRepublish(p, old(View()), reconnects) && displayReads == old(displayReads) + 1
      ensures forall s :: s in pending <==> s in old(pending) || s in Scopes(p.c.all)
      ensures armedAt == old(armedAt) && wanted == old(wanted)
    {
      RepublishSchedules(p, View(), reconnects);
      hide Apply, Scopes, HasUnits, Inverse;
      ForceOut(reconnects);
      env := env.(busy := false);
      ScheduleAll();
      RefreshDisplay();
    }

    method RefreshDisplay()
      modifies this`displayReads
      ensures displayReads == old(displayReads) + 1
    {
      displayReads := displayReads + 1;
    }

    method ForceOut(reconnects: nat)
      requires Valid()
      modifies this`told, this`republished, this`force, this`last, this`mq
      ensures Valid() && CoreView() == Apply(p, old(CoreView()), Republish(reconnects))
    {
      hide Put, RepublishMsgs, HasUnits, Inverse;
      told, republished := reconnects, true;
      force := true;
      SendStates(CoreView(), reconnects);
      force := false;
    }

    method ScheduleAll()
      modifies this`pending, this`env
      ensures View() == EventLoop.ScheduleAll(old(View()), Scopes(p.c.all))
    {
      hide Scopes, Schedule;
      var scopes := Scopes(p.c.all);
      for i := 0 to |scopes|
        invariant View() == EventLoop.ScheduleAll(old(View()), scopes[..i])
      {
        ScheduleReconcile(scopes[i]);
        assert scopes[..i + 1][..i] == scopes[..i];
      }
      assert scopes[..|scopes|] == scopes;
    }

    // ----- Reconciling

    method ScheduleReconcile(scope: string)
      modifies this`pending, this`env
      ensures View() == Schedule(old(View()), scope)
    {
      if scope in pending {
        return;
      }
      pending := pending + {scope};
      env := env.(timers := env.timers + multiset{scope});
    }

    method ReconcileScope(scope: string, inp: Inputs)
      requires Valid()
      modifies this`last, this`mq, this`pending, this`env, st`units
      ensures Valid() && View() == EventLoop.ReconcileScope(p, old(View()), scope, inp)
    {
      hide Put, UnitMsgs, HasUnits, Inverse, ObjectID;
      pending := pending - {scope};
      env := env.(reconciles := env.reconciles[scope := Times(env, scope) + 1]);
      if scope !in env.buses || scope !in inp.answers {
        return;
      }
      ghost var k := CoreView();
      TakeAnswer(scope, inp.answers[scope]);
      PublishSelects(scope);
      hide ApplyStatuses, SelectsMsgs;
    }

    /** Each status of the answer is recorded and published. */
    method TakeAnswer(scope: string, sts: seq<Status>)
      requires Valid()
      modifies this`last, this`mq, st`units
      ensures Valid() && CoreView() == ApplyStatuses(p, old(CoreView()), scope, sts, env.now)
    {
      hide Put, UnitMsgs, HasUnits, Inverse, ObjectID, ApplyOne, Advances;
      for i := 0 to |sts|
        invariant Valid() && CoreView() == ApplyStatuses(p, old(CoreView()), scope, sts[..i], env.now)
      {
        ghost var before := CoreView();
        assert sts[..i + 1][..i] == sts[..i];
        ApplyOneAdvances(p.c.all, st.units, st.byName, scope, sts[i], env.now);
        HasUnitsKept(p.c.all, st.units, ApplyOne(st.units, st.byName, scope, sts[i], env.now), scope);
        OneStatus(scope, sts[i]);
      }
      assert sts[..|sts|] == sts;
    }

    method OneStatus(scope: string, status: Status)
      requires st.byName == p.byName && !force
      modifies this`last, this`mq, st`units
      ensures CoreView() == ApplyStatus(p, old(CoreView()), scope, status, env.now)
      ensures st.units == ApplyOne(old(st.units), st.byName, scope, status, env.now)
    {
      hide UnitMsgs, Record;
      var snap, changed := st.ApplyUnit(scope, status, env.now);
      if snap.Some? {
        ghost var k1 := CoreView();
        PutUnits(k1, UnitMsgs(p, snap.value), false);
        hide Put;
        PublishUnit(snap.value);
      }
    }

    method PublishSelects(scope: string)
      requires !force
      modifies this`last, this`mq
      ensures CoreView() == Put(old(CoreView()), SelectsMsgs(st.units, p.c.selects, Some(scope)), false)
    {
      ghost var k := CoreView();
      ghost var sent: seq<Msg> := [];
      PutNothing(k);
      hide Put, SelectMsgs;
      for i := 0 to |p.c.selects|
        invariant sent == SelectsMsgs(st.units, p.c.selects[..i], Some(scope)) && CoreView() == Put(k, sent, false)
      {
        assert p.c.selects[..i + 1][..i] == p.c.selects[..i];
        var sel := p.c.selects[i];
        if sel.scope == scope {
          PutConcat(k, sent, SelectMsgs(st.units, sel), false);
          PublishTemplate(sel);
          sent := sent + SelectMsgs(st.units, sel);
        }
      }
      assert p.c.selects[..|p.c.selects|] == p.c.selects;
    }

    // ----- The events

    method HandleBus(scope: string, online: bool, inp: Inputs)
      requires Valid()
      modifies this`bus, this`last, this`mq, this`pending, this`env, this`told, st`units
      ensures Valid() && View() == EventLoop.HandleBus(p, old(View()), scope, online, inp)
    {
      hide HasUnits, Inverse, EventLoop.ReconcileScope, Put, BusMsgs, DaemonMsgs;
      ShowBus(scope, online, inp.reconnects);
      if online {
        ReconcileScope(scope, inp);
      }
    }

    method ShowBus(scope: string, online: bool, reconnects: nat)
      requires !force
      modifies this`bus, this`last, this`mq, this`told
      ensures CoreView() == Apply(p, old(CoreView()), BusChange(scope, online, reconnects))
    {
      bus := bus[scope := online];
      told := reconnects;
      ghost var k1 := CoreView();
      PutUnits(k1, BusMsgs(bus, scope), false);
      PutConcat(k1, BusMsgs(bus, scope), DaemonMsgs(p, k1), false);
      assert DaemonMsgs(p, Put(k1, BusMsgs(bus, scope), false)) == DaemonMsgs(p, k1);
      hide Put, BusMsgs, DaemonMsgs;
      PublishBus(scope);
      PublishDaemonState(reconnects);
    }

    /** The display answered with a mode. */
    method ApplyDisplay(mode: int, inp: Inputs)
      requires !force
      modifies this`dispOnline, this`dispMode, this`shown, this`told, this`heard, this`last, this`mq
      ensures CoreView() == Apply(p, old(CoreView()), DisplayIs(mode, inp.reconnects))
    {
      hide Put, DisplayMsgs, DaemonMsgs;
      dispOnline, dispMode, told, heard := true, mode, inp.reconnects, true;
      if p.c.displayEnabled && mode != UNKNOWN {
        shown := mode;
      }
      PublishDisplayAndDaemon(inp.reconnects);
    }

    method DisplayLost(inp: Inputs)
      requires !force
      modifies this`dispOnline, this`told, this`heard, this`last, this`mq
      ensures CoreView() == Apply(p, old(CoreView()), DisplayGone(inp.reconnects))
    {
      hide Put, DisplayMsgs, DaemonMsgs;
      dispOnline, told, heard := false, inp.reconnects, true;
      PublishDisplayAndDaemon(inp.reconnects);
    }

    method PublishDisplayAndDaemon(reconnects: nat)
      requires !force && told == reconnects
      modifies this`last, this`mq
      ensures var k := old(CoreView()); CoreView() == Put(k, DisplayMsgs(p, k) + DaemonMsgs(p, k), false)
    {
      ghost var k := CoreView();
      PutUnits(k, DisplayMsgs(p, k), false);
      PutConcat(k, DisplayMsgs(p, k), DaemonMsgs(p, k), false);
      assert DaemonMsgs(p, Put(k, DisplayMsgs(p, k), false)) == DaemonMsgs(p, k);
      hide Put, DisplayMsgs, DaemonMsgs;
      PublishDisplay();
      PublishDaemonState(reconnects);
    }

    /** The attributes change, the ON or OFF of the switch does not; the query that decides it is scheduled. */
    method HandleJobDone(id: string, verb: string, result: string, error: string)
      requires Valid()
      modifies this`last, this`mq, this`pending, this`env, st`units
      ensures Valid() && View() == EventLoop.Handle(p, old(View()), JobDone(id, verb, result, error), Inputs(0, map[]))
    {
      hide HasUnits, Inverse, ScopeOf, Apply;
      var scope := UnitScope(id);
      if scope.None? {
        return;
      }
      RecordJob(id, verb, result, error);
      ScheduleReconcile(scope.value);
    }

    method RecordJob(id: string, verb: string, result: string, error: string)
      requires Valid()
      modifies this`last, this`mq, st`units
      ensures Valid() && CoreView() == Apply(p, old(CoreView()), JobFinished(id, verb, result, error, env.now))
    {
      hide HasUnits, Inverse, Put, WithJob;
      if id in st.units {
        JobKeepsUnits(p.c.all, st.units, id, verb, result, error, env.now);
      }
      ghost var k := CoreView();
      var snap := st.SetJobResult(id, verb, result, error, env.now);
      PutNothing(CoreView());
      if snap.Some? && snap.value.known {
        PublishUnit(snap.value);
      }
    }

    method UnitScope(id: string) returns (r: Option<string>)
      ensures r == ScopeOf(p.c.all, id)
    {
      hide ObjectID;
      for i := 0 to |p.c.all|
        invariant UnitByID(p.c.all[i..], id) == UnitByID(p.c.all, id)
      {
        assert p.c.all[i..][1..] == p.c.all[i + 1..];
        if ObjectID(p.c.all[i]) == id {
          return Some(p.c.all[i].scope);
        }
      }
      return None;
    }

    method SelectByID(id: string) returns (r: Option<TemplateSelect>)
      ensures r == SelectOf(p.c.selects, id)
    {
      for i := 0 to |p.c.selects|
        invariant SelectOf(p.c.selects[i..], id) == SelectOf(p.c.selects, id)
      {
        assert p.c.selects[i..][1..] == p.c.selects[i + 1..];
        if p.c.selects[i].id == id {
          return Some(p.c.selects[i]);
        }
      }
      return None;
    }

    /** (Re)arms the coalescing timer. */
    method RequestFullPublish()
      modifies this`armedAt, this`due
      ensures View() == Arm(old(View()))
      ensures armedAt == Some(env.now) && due == Some(env.now + 2000)
    {
      armedAt := Some(env.now);
      due := Some(env.now + DELAY);
    }

    /** Never blocks: a full queue drops the event. */
    method Enqueue(ev: Event)
      modifies this`events
      ensures View() == EventLoop.Enqueue(old(View()), ev)
      ensures events == old(events) + if |old(events)| < 256 then [ev] else []
    {
      if |events| < QUEUE {
        events := events + [ev];
      }
    }

    /** What an action hands to the worker of a select, with the snapshots of this moment. */
    function HandedOn(action: Commands.Action): Option<TS.Command>
      reads this, st
    {
      if action.Pick?
      then TS.CommandFor(action.sel.options, action.caption, TS.NotFound(action.sel.options, st.units))
      else None
    }

    /** One event taken from the queue. A republish is begun and finished. What an inbound message commands goes to the
        workers, the display or the end of the daemon. */
    method Handle(ev: Event, inp: Inputs) returns (action: Commands.Action, cmd: Option<TS.Command>)
      requires Valid()
      modifies this, st`units
      ensures Valid()
      ensures var l := EventLoop.Handle(p, old(View()), ev, inp);
        View() == if ev.FullPublish? then FinishRepublish(p, l, inp.reconnects) else l
      ensures action ==
        if ev.Inbound? then Commands.ActionFor(p.c, offMode, ev.topic, ev.payload, ev.retained) else Commands.Nothing
      ensures cmd == old(HandedOn(action))
      ensures if action.Pick? then TS.Commanded(action.sel.options, action.caption, old(st.units), cmd) else cmd == None
      ensures displayReads == old(displayReads) + if ev.FullPublish? then 1 else 0
    {
      hide HasUnits, Inverse, EventLoop.Handle, FinishRepublish, Commands.ActionFor, TS.CommandFor, TS.NotFound, TS.Commanded;
      action, cmd := Commands.Nothing, None;
      if ev.FullPublish? {
        HandleFullPublish(inp);
      } else if ev.Inbound? {
        action, cmd := HandleInbound(ev.topic, ev.payload, ev.retained, inp);
      } else if ev.BusState? || ev.DisplayMode? || ev.DisplayError? {
        HandleState(ev, inp);
      } else if ev.JobDone? || ev.TemplateDone? {
        HandleOutcome(ev, inp);
      } else {
        HandleOther(ev, inp);
      }
    }

    /** A change of a bus or of the display. */
    method HandleState(ev: Event, inp: Inputs)
      requires Valid() && (ev.BusState? || ev.DisplayMode? || ev.DisplayError?)
      modifies this, st`units
      ensures Valid() && View() == EventLoop.Handle(p, old(View()), ev, inp) && displayReads == old(displayReads)
    {
      hide HasUnits, Inverse, EventLoop.HandleBus, Apply;
      match ev
      case BusState(scope, online) => HandleBus(scope, online, inp);
      case DisplayMode(mode) => ApplyDisplay(mode, inp);
      case DisplayError => DisplayLost(inp);
    }

    /** The end of a job or of a select command. */
    method HandleOutcome(ev: Event, inp: Inputs)
      requires Valid() && (ev.JobDone? || ev.TemplateDone?)
      modifies this, st`units
      ensures Valid() && View() == EventLoop.Handle(p, old(View()), ev, inp) && displayReads == old(displayReads)
    {
      hide HasUnits, Inverse, SelectOf, ScopeOf, Apply, Schedule;
      match ev
      case JobDone(id, verb, result, error) =>
        HandleJobDone(id, verb, result, error);
      case TemplateDone(id) =>
        var sel := SelectByID(id);
        if sel.Some? {
          ScheduleReconcile(sel.value.scope);
        }
    }

    /** Wakes, reconcile timers, and the MQTT connection. */
    method HandleOther(ev: Event, inp: Inputs)
      requires Valid() && (ev.Wake? || ev.ReconcileDue? || ev.Connected? || ev.Lost?)
      modifies this, st`units
      ensures Valid() && View() == EventLoop.Handle(p, old(View()), ev, inp) && displayReads == old(displayReads)
    {
      hide HasUnits, Inverse, EventLoop.ReconcileScope, Schedule;
      match ev
      case Wake(scope) =>
        wakePending := wakePending - {scope};
        ScheduleReconcile(scope);
      case ReconcileDue(scope) => ReconcileScope(scope, inp);
      case Connected => RequestFullPublish();
      case Lost =>
    }

    /** A pick is turned into a command for the select's worker. */
    method HandleInbound(topic: string, payload: string, retained: bool, inp: Inputs)
      returns (action: Commands.Action, cmd: Option<TS.Command>)
      modifies this`armedAt, this`due
      ensures action == Commands.ActionFor(p.c, offMode, topic, payload, retained)
      ensures cmd == old(HandedOn(action))
      ensures if action.Pick? then TS.Commanded(action.sel.options, action.caption, old(st.units), cmd) else cmd == None
      ensures View() == EventLoop.Handle(p, old(View()), Inbound(topic, payload, retained), inp)
    {
      hide Commands.ActionFor, Commands.IsBirth, TS.CommandFor, TS.NotFound, TS.Commanded;
      action, cmd := Commands.ActionFor(p.c, offMode, topic, payload, retained), None;
      Commands.OnlyBirthRepublishes(p.c, offMode, topic, payload, retained);
      if action == Commands.FullPublish {
        RequestFullPublish();
      } else if action.Pick? {
        cmd := TS.DispatchTemplate(action.sel.options, action.caption, st.units);
      }
    }

    method HandleFullPublish(inp: Inputs)
      requires Valid()
      modifies this
      ensures Valid() && displayReads == old(displayReads) + 1
      ensures View() == FinishRepublish(p, EventLoop.Handle(p, old(View()), FullPublish, inp), inp.reconnects)
      ensures armedAt == None && !wanted && forall s :: s in Scopes(p.c.all) ==> s in pending
    {
      hide HasUnits, Inverse, FinishRepublish, AsksRepublish, ScopeOf, SelectOf, Apply, Schedule;
      hide EventLoop.ReconcileScope, EventLoop.HandleBus;
      armedAt, wanted := None, false;
      env := env.(busy := true, begun := env.begun + 1);
      RepublishAll(inp.reconnects);
    }

    /** A bus state that was lost is made up for; otherwise the scope is queried. */
    method PollScope(scope: string, inp: Inputs)
      requires Valid()
      modifies this`bus, this`last, this`mq, this`pending, this`env, this`told, st`units
      ensures Valid() && View() == EventLoop.PollScope(p, old(View()), scope, inp)
    {
      hide HasUnits, Inverse, EventLoop.ReconcileScope, EventLoop.HandleBus;
      if scope in env.buses && env.buses[scope].online != (scope in bus && bus[scope]) {
        HandleBus(scope, env.buses[scope].online, inp);
      } else {
        ReconcileScope(scope, inp);
      }
    }

    /** A republish that was asked for but never came is requested again. */
    method AskAgain()
      modifies this`armedAt, this`due
      ensures View() == PollArm(old(View()))
      ensures if wanted && (old(armedAt).None? || env.now - old(armedAt).value > 4000)
        then armedAt == Some(env.now) && due == Some(env.now + 2000)
        else armedAt == old(armedAt) && due == old(due)
    {
      if wanted && (armedAt.None? || env.now - armedAt.value > 2 * DELAY) {
        RequestFullPublish();
      }
    }

    /** The periodic truth check. */
    method PollTick(inp: Inputs)
      requires Valid()
      modifies this`bus, this`last, this`mq, this`pending, this`env, this`told, this`armedAt, this`due,
        this`displayReads, st`units
      ensures Valid() && View() == EventLoop.PollTick(p, old(View()), inp) && displayReads == old(displayReads) + 1
    {
      hide HasUnits, Inverse, EventLoop.PollScope, Scopes, PollArm;
      AskAgain();
      ghost var l := View();
      var scopes := Scopes(p.c.all);
      for i := 0 to |scopes|
        invariant Valid() && View() == PollScopes(p, l, scopes[..i], inp) && displayReads == old(displayReads)
      {
        assert scopes[..i + 1][..i] == scopes[..i];
        PollScope(scopes[i], inp);
      }
      assert scopes[..|scopes|] == scopes;
      RefreshDisplay();
    }
  }

  /** Recording a job outcome keeps one snapshot per id. */
  lemma JobKeepsUnits(us: seq<UnitConfig>, units: Snapshots, id: string, verb: string, result: string, error: string, now: nat)
    requires HasUnits(us, units) && id in units
    ensures HasUnits(us, units[id := WithJob(units[id], verb, result, error, now)])
  {
    hide ObjectID;
    var units' := units[id := WithJob(units[id], verb, result, error, now)];
    forall j ensures j in units' <==> exists i :: 0 <= i < |us| && ObjectID(us[i]) == j {
      assert j in units' <==> j in units;
    }
  }
}
