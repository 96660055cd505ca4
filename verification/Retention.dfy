/** What any run of the event loop sends, against the cache and against the topics that are cleared on removal. */
module Retention {
  import opened Text
  import opened Config
  import opened StatusMapping
  import opened UnitState
  import opened Topics
  import opened PublishCache
  import opened EventLoop

  // ----- The loop's state is always the outcome of its operations

  ghost predicate AllPossible(p: Plan, ops: seq<Op>) {
    forall op :: op in ops ==> Possible(p, op)
  }

  ghost predicate Leads(p: Plan, k0: Core, k: Core) {
    exists ops :: RunOps(p, k0, ops) == k && AllPossible(p, ops)
  }

  lemma LeadsToItself(p: Plan, k: Core)
    ensures Leads(p, k, k)
  {
    assert RunOps(p, k, []) == k && AllPossible(p, []);
  }

  lemma OpLeads(p: Plan, k0: Core, k: Core, op: Op)
    requires Leads(p, k0, k) && Possible(p, op)
    ensures Leads(p, k0, Apply(p, k, op))
  {
    hide Apply;
    var ops :| RunOps(p, k0, ops) == k && AllPossible(p, ops);
    assert (ops + [op])[..|ops|] == ops;
    assert RunOps(p, k0, ops + [op]) == Apply(p, k, op) && AllPossible(p, ops + [op]);
  }

  lemma ReconcileLeads(p: Plan, k0: Core, l: Loop, scope: string, inp: Inputs)
    requires Leads(p, k0, l.core)
    ensures Leads(p, k0, ReconcileScope(p, l, scope, inp).core)
  {
    hide Leads, Reconciled;
    if scope in l.env.buses && scope in inp.answers {
      OpLeads(p, k0, l.core, Reconcile(scope, inp.answers[scope], l.env.now));
    }
  }

  lemma BusLeads(p: Plan, k0: Core, l: Loop, scope: string, online: bool, inp: Inputs)
    requires Leads(p, k0, l.core) && scope in Scopes(p.c.all)
    ensures Leads(p, k0, HandleBus(p, l, scope, online, inp).core)
  {
    hide Leads, Apply, Scopes, ReconcileScope;
    var op := BusChange(scope, online, inp.reconnects);
    OpLeads(p, k0, l.core, op);
    ReconcileLeads(p, k0, l.(core := Apply(p, l.core, op)), scope, inp);
  }

  lemma {:induction false} PollLeads(p: Plan, k0: Core, l: Loop, scopes: seq<string>, inp: Inputs)
    requires Leads(p, k0, l.core) && forall s :: s in scopes ==> s in Scopes(p.c.all)
    ensures Leads(p, k0, PollScopes(p, l, scopes, inp).core)
  {
    hide Leads, Scopes, ReconcileScope, HandleBus;
    if scopes != [] {
      var n := |scopes| - 1;
      assert scopes == scopes[..n] + [scopes[n]];
      PollLeads(p, k0, l, scopes[..n], inp);
      var m := PollScopes(p, l, scopes[..n], inp);
      ReconcileLeads(p, k0, m, scopes[n], inp);
      if scopes[n] in m.env.buses {
        BusLeads(p, k0, m, scopes[n], m.env.buses[scopes[n]].online, inp);
      }
    }
  }

  lemma HandleLeads(p: Plan, k0: Core, l: Loop, ev: Event, inp: Inputs)
    requires Leads(p, k0, l.core) && (ev.BusState? ==> ev.scope in Scopes(p.c.all))
    ensures Leads(p, k0, Handle(p, l, ev, inp).core)
  {
    hide Leads, Apply, Scopes, ReconcileScope, HandleBus, AsksRepublish, ScopeOf, SelectOf;
    match ev
    case ReconcileDue(scope) => ReconcileLeads(p, k0, l, scope, inp);
    case BusState(scope, online) => BusLeads(p, k0, l, scope, online, inp);
    case DisplayMode(mode) => OpLeads(p, k0, l.core, DisplayIs(mode, inp.reconnects));
    case DisplayError => OpLeads(p, k0, l.core, DisplayGone(inp.reconnects));
    case JobDone(id, verb, result, error) =>
      OpLeads(p, k0, l.core, JobFinished(id, verb, result, error, l.env.now));
    case _ =>
  }

  lemma StepLeads(p: Plan, k0: Core, l: Loop, t: Step)
    requires BusesOK(p, l) && Leads(p, k0, l.core) && Enabled(l, t)
    ensures Leads(p, k0, Do(p, l, t).core)
  {
    hide Leads, Handle, PollScopes, Apply, Scopes;
    match t
    case Pop(inp) =>
      assert l.events[0] in l.events;
      HandleLeads(p, k0, l.(events := l.events[1..]), l.events[0], inp);
    case Finish(reconnects) =>
      var l1 := l.(core := Apply(p, l.core, Republish(reconnects)), env := l.env.(busy := false));
      OpLeads(p, k0, l.core, Republish(reconnects));
      ScheduleAllFrame(l1, Scopes(p.c.all));
    case Tick(inp) => PollLeads(p, k0, PollArm(l), Scopes(p.c.all), inp);
    case _ => OutsideFrame(p, l, t);
  }

  lemma {:induction false} RunLeads(p: Plan, l: Loop, steps: seq<Step>)
    requires PlanOK(p) && Inv(p, l) && Run(p, l, steps).Some?
    ensures Inv(p, Run(p, l, steps).value) && Leads(p, l.core, Run(p, l, steps).value.core)
  {
    hide PlanOK, CacheOK, Do, Enabled, BusesOK, WakesOK, TimerOK, Leads;
    RunKeeps(p, l, steps);
    if steps == [] {
      LeadsToItself(p, l.core);
    } else {
      RunLeads(p, l, steps[..|steps| - 1]);
      StepLeads(p, l.core, Run(p, l, steps[..|steps| - 1]).value, steps[|steps| - 1]);
    }
  }

  /** Every state of the loop is the outcome of a sequence of its publishing operations. */
  lemma LoopReached(p: Plan, steps: seq<Step>)
    requires PlanOK(p) && Run(p, Initial(p), steps).Some?
    ensures Inv(p, Run(p, Initial(p), steps).value) && Leads(p, Start(p), Run(p, Initial(p), steps).value.core)
  {
    hide PlanOK, Inv, Leads, Run, Start, Scopes;
    InitialOK(p);
    RunLeads(p, Initial(p), steps);
  }

  // ----- What was sent stays sent

  lemma {:induction false} PutGrows(k: Core, msgs: seq<Msg>, force: bool)
    ensures k.out <= Put(k, msgs, force).out
  {
    if msgs != [] {
      PutGrows(k, msgs[..|msgs| - 1], force);
    }
  }

  lemma {:induction false} StatusesGrow(p: Plan, k: Core, scope: string, sts: seq<Status>, now: nat)
    ensures k.out <= ApplyStatuses(p, k, scope, sts, now).out
  {
    hide Put, UnitMsgs, Record;
    if sts != [] {
      StatusesGrow(p, k, scope, sts[..|sts| - 1], now);
      var b, st := ApplyStatuses(p, k, scope, sts[..|sts| - 1], now), sts[|sts| - 1];
      var key := Key(scope, st.name);
      if key in p.byName && p.byName[key] in b.units {
        var b1 := b.(units := ApplyOne(b.units, p.byName, scope, st, now));
        PutGrows(b1, UnitMsgs(p, b1.units[p.byName[key]]), false);
      }
    }
  }

  lemma OpGrows(p: Plan, k: Core, op: Op)
    ensures k.out <= Apply(p, k, op).out
  {
    hide Put, UnitMsgs, BusMsgs, DisplayMsgs, DaemonMsgs, RepublishMsgs, SelectsMsgs, ApplyStatuses, WithJob;
    match op
    case BusChange(scope, online, reconnects) =>
      var k1 := k.(bus := k.bus[scope := online], told := reconnects);
      PutGrows(k1, BusMsgs(k1.bus, scope) + DaemonMsgs(p, k1), false);
    case DisplayIs(mode, reconnects) =>
      var k1 := k.(dispOnline := true, dispMode := mode, told := reconnects, heard := true,
        shown := if p.c.displayEnabled && mode != UNKNOWN then mode else k.shown);
      PutGrows(k1, DisplayMsgs(p, k1) + DaemonMsgs(p, k1), false);
    case DisplayGone(reconnects) =>
      var k1 := k.(dispOnline := false, told := reconnects, heard := true);
      PutGrows(k1, DisplayMsgs(p, k1) + DaemonMsgs(p, k1), false);
    case JobFinished(id, verb, result, error, now) =>
      if id in k.units {
        var k1 := k.(units := k.units[id := WithJob(k.units[id], verb, result, error, now)]);
        PutGrows(k1, UnitMsgs(p, k1.units[id]), false);
      }
    case Reconcile(scope, sts, now) =>
      StatusesGrow(p, k, scope, sts, now);
      var k1 := ApplyStatuses(p, k, scope, sts, now);
      PutGrows(k1, SelectsMsgs(k1.units, p.c.selects, Some(scope)), false);
    case Republish(reconnects) =>
      PutGrows(Republishing(k, reconnects), RepublishMsgs(p, Republishing(k, reconnects)), true);
  }

  lemma {:induction false} OpsGrow(p: Plan, k: Core, ops: seq<Op>)
    ensures k.out <= RunOps(p, k, ops).out
  {
    hide Apply;
    if ops != [] {
      OpsGrow(p, k, ops[..|ops| - 1]);
      OpGrows(p, RunOps(p, k, ops[..|ops| - 1]), ops[|ops| - 1]);
    }
  }

  lemma LeadsGrows(p: Plan, k0: Core, k: Core)
    requires Leads(p, k0, k)
    ensures k0.out <= k.out
  {
    var ops :| RunOps(p, k0, ops) == k && AllPossible(p, ops);
    OpsGrow(p, k0, ops);
  }

  // ----- The broker

  /** Whatever was dropped on the way to the loop: a broker that got everything the loop sent shows every topic that is
      due, and no other, exactly as rendering the loop's state from scratch gives it. */
  lemma BrokerIsRendered(p: Plan, steps: seq<Step>, t: Topic)
    requires PlanOK(p) && Run(p, Initial(p), steps).Some?
    ensures var k := Run(p, Initial(p), steps).value.core; var broker := PublishCache.Deliver(map[], k.out);
      && (Due(p, k, t) <==> t in k.last) && (t in broker <==> t in k.last)
      && (t in broker ==> broker[t] == k.last[t] == Render(p, k, t))
  {
    LoopReached(p, steps);
    var k := Run(p, Initial(p), steps).value.core;
    hide Run, Initial, Due, Render, PlanOK;
    var ops :| RunOps(p, Start(p), ops) == k && AllPossible(p, ops);
    hide RunOps, Start;
    IncrementalMirrors(p, ops);
    assert Mirrors(PublishCache.Deliver(map[], k.out), k.last, t);
    if t in PublishCache.Deliver(map[], k.out) {
      DeliveredWasSent(k.out, t);
    }
    hide PublishCache.Deliver, HasUnits;
    NoLag(p);
  }

  lemma {:induction false} DeliveredWasSent(msgs: seq<Msg>, t: Topic)
    requires t in PublishCache.Deliver(map[], msgs)
    ensures exists m :: m in msgs && m.topic == t
  {
    var n := |msgs| - 1;
    if msgs[n].topic != t {
      DeliveredWasSent(msgs[..n], t);
    } else {
      assert msgs[n] in msgs;
    }
  }

  // ----- Removal

  lemma UnitRetained(p: Plan, k: Core, id: string)
    requires HasUnits(p.c.all, k.units) && id in k.units
    ensures UnitState(id) in UnitTopics(p.c.all) && UnitAttributes(id) in UnitTopics(p.c.all)
  {
    hide ObjectID, UnitTopics;
    var i :| 0 <= i < |p.c.all| && ObjectID(p.c.all[i]) == id;
    hide HasUnits;
    UnitTopicsAt(p.c.all, i);
  }

  lemma SelectRetained(p: Plan, id: string)
    requires SelectOf(p.c.selects, id).Some?
    ensures TemplateState(id) in SelectTopics(p.c.selects)
  {
    var s := SelectOf(p.c.selects, id).value;
    hide SelectOf;
    var i :| 0 <= i < |p.c.selects| && p.c.selects[i] == s;
    assert SelectTopics(p.c.selects)[i] == TemplateState(id);
  }

  /** Every topic that the cache can hold is one of the retained topics of the configuration. */
  lemma CachedIsRetained(p: Plan, k: Core, t: Topic)
    requires HasUnits(p.c.all, k.units) && Due(p, k, t)
    ensures t in Retained(p.c)
  {
    hide Retained, HasUnits, Scopes, SelectOf, AnyKnown, UnitTopics, SelectTopics, BusTopics;
    RetainedMember(p.c);
    match t
    case UnitState(id) => UnitRetained(p, k, id);
    case UnitAttributes(id) => UnitRetained(p, k, id);
    case TemplateState(id) => SelectRetained(p, id);
    case BusAvailability(scope) => ScopeRetained(p.c.all, scope);
    case _ =>
  }

  /** No run of the loop ever sends to a topic that is not in the list cleared on removal, and none of those topics
      would come back as a command. */
  lemma SentIsRetained(p: Plan, steps: seq<Step>, m: Msg)
    requires PlanOK(p) && Run(p, Initial(p), steps).Some? && m in Run(p, Initial(p), steps).value.core.out
    ensures m.topic in Retained(p.c)
    ensures Parse(p.c, Path(p.c, m.topic)) == None || Path(p.c, m.topic) == p.c.statusTopic
  {
    LoopReached(p, steps);
    var k := Run(p, Initial(p), steps).value.core;
    hide Run, Initial, Due, Render, Path, Parse, Accepted, Retained;
    assert m.topic in Retained(p.c) by {
      var ops :| RunOps(p, Start(p), ops) == k && AllPossible(p, ops);
      hide RunOps, Start;
      IncrementalMirrors(p, ops);
      hide PublishCache.Deliver, HasUnits;
      CachedIsRetained(p, k, m.topic);
    }
    RetainedTopicsDistinct(p.c);
    var i :| 0 <= i < |Retained(p.c)| && Retained(p.c)[i] == m.topic;
    assert Paths(p.c, Retained(p.c))[i] == Path(p.c, m.topic);
  }
}
