/** From the queried states, and from a picked caption, to what is published: the select dispatcher, its worker, the
    query, the poll tick and the cache together. */
module Outcome {
  import opened Text
  import opened Config
  import opened StatusMapping
  import opened UnitState
  import opened Topics
  import opened PublishCache
  import opened EventLoop
  import TS = TemplateSelect

  /** A unit in one of these states runs or is about to. */
  const RUNNING := ["active", "activating", "reloading"]

  /** An answer for a scope that tells, for each of its units, whether it is live. */
  ghost predicate Truthful(us: seq<UnitConfig>, scope: string, sts: seq<Status>, live: set<string>) {
    var asked := UnitsForScope(us, scope);
    && AnswersScope(us, scope, sts)
    && forall j :: 0 <= j < |asked| ==> (sts[j].triple.active in RUNNING <==> ObjectID(asked[j]) in live)
  }

  /** No two options of a select are the same unit. */
  lemma OptionsApart(p: Plan, s: TemplateSelect, i: nat, j: nat)
    requires PlanOK(p) && s in p.c.selects && i < j < |s.options|
    ensures s.options[i].unitID != s.options[j].unitID
  {
    hide ObjectID, UnitOK, IsNodeID, Inverse, Components;
    var n :| 0 <= n < |p.c.selects| && p.c.selects[n] == s;
    assert SelectPlaced(p.c.all, s);
    var off: nat :| Placed(p.c.all, s, off);
    assert Apart(p.c.all[off + i], p.c.all[off + j]);
  }

  /** The configured unit of an option. */
  lemma OptionUnit(p: Plan, s: TemplateSelect, i: nat) returns (u: UnitConfig)
    requires PlanOK(p) && s in p.c.selects && i < |s.options|
    ensures u in p.c.all && ObjectID(u) == s.options[i].unitID && u.scope == s.scope
  {
    hide ObjectID, UnitsOK, IsNodeID, Inverse;
    var n :| 0 <= n < |p.c.selects| && p.c.selects[n] == s;
    assert SelectPlaced(p.c.all, s);
    var off: nat :| Placed(p.c.all, s, off);
    u := p.c.all[off + i];
  }

  lemma Running(active: string)
    ensures IsOnState(active) <==> active in RUNNING
  {
  }

  lemma AskedAt(us: seq<UnitConfig>, scope: string, sts: seq<Status>, u: UnitConfig, j: nat)
    requires UnitsOK(us) && AnswersScope(us, scope, sts) && u in us && u.scope == scope
    requires j < |sts| && sts[j].name == u.name
    ensures j < |UnitsForScope(us, scope)| && UnitsForScope(us, scope)[j] == u
  {
    hide UnitsOK;
    AskedDistinct(us, scope);
    var asked := UnitsForScope(us, scope);
    assert u in asked;
    var n :| 0 <= n < |asked| && asked[n] == u;
    assert asked[j].name == asked[n].name;
  }

  lemma SameName(us: seq<UnitConfig>, scope: string, sts: seq<Status>, live: set<string>, u: UnitConfig, j: nat)
    requires UnitsOK(us) && Truthful(us, scope, sts, live) && u in us && u.scope == scope
    requires j < |sts| && sts[j].name == u.name
    ensures IsOnState(sts[j].triple.active) <==> ObjectID(u) in live
  {
    hide ObjectID, UnitsOK, IsOnState, UnitsForScope;
    AskedAt(us, scope, sts, u, j);
    Running(sts[j].triple.active);
  }

  /** After a truthful answer an option shows on exactly when its unit is live. */
  lemma OptionAfter(p: Plan, units: Snapshots, s: TemplateSelect, i: nat, sts: seq<Status>, now: nat, live: set<string>)
    requires PlanOK(p) && HasUnits(p.c.all, units) && s in p.c.selects && i < |s.options|
    requires Truthful(p.c.all, s.scope, sts, live)
    ensures var units' := ApplyAll(units, p.byName, s.scope, sts, now);
      && (ShowsOn(units', s.options[i]) <==> s.options[i].unitID in live)
      && s.options[i].unitID in units' && units'[s.options[i].unitID].known
  {
    var u := OptionUnit(p, s, i);
    hide ObjectID, UnitsOK, HasUnits, Inverse, SelectPlaced, ApplyAll, IsOnState;
    ReconcileExact(p.c.all, units, p.byName, s.scope, sts, now, u);
    var id := ObjectID(u);
    var j :| 0 <= j < |sts| && Shows(sts[j], u.name, units[id], ApplyAll(units, p.byName, s.scope, sts, now)[id], now);
    SameName(p.c.all, s.scope, sts, live, u, j);
  }

  /** Exactly the picked option's unit is live after a command that succeeded. */
  lemma CarriedMeans(p: Plan, s: TemplateSelect, caption: string, missing: set<string>, live: set<string>, i: nat)
    requires PlanOK(p) && s in p.c.selects && i < |s.options|
    requires TS.CommandFor(s.options, caption, missing).Some? && TS.Carried(TS.CommandFor(s.options, caption, missing).value, live)
    requires missing !! live
    ensures s.options[i].unitID in live <==> TS.CommandFor(s.options, caption, missing).value.start == Some(s.options[i].unitID)
  {
    hide PlanOK, TS.Choose;
    var cmd := TS.CommandFor(s.options, caption, missing).value;
    var u := s.options[i].unitID;
    if cmd.start != Some(u) && u !in missing {
      assert u in cmd.stop;
    }
  }

  /** The instances of which the snapshots know that systemd cannot find them are indeed not live. */
  ghost predicate MissingDown(units: Snapshots, live: set<string>) {
    forall u :: u in units && units[u].known && units[u].triple.load == "not-found" ==> u !in live
  }

  lemma SkippedDown(options: seq<SelectOption>, units: Snapshots, live: set<string>)
    requires MissingDown(units, live)
    ensures TS.NotFound(options, units) !! live
  {
    forall u | u in TS.NotFound(options, units) ensures u !in live {
      TS.NotFoundExact(options, units, u);
    }
  }

  /** The whole answer for a scope as the mapping gives it. */
  function AnswerFor(names: seq<string>, aliases: map<string, string>, raw: seq<Status>): (sts: seq<Status>)
    ensures |sts| == |names|
    ensures forall i :: 0 <= i < |names| ==> sts[i] == Mapped(names, aliases, raw, i) && sts[i].name == names[i]
  {
    seq(|names|, i requires 0 <= i < |names| => Mapped(names, aliases, raw, i))
  }

  /** A unit that nothing answers for, neither by name nor by its recorded primary name nor by position, is recorded as not
      found by the next reconcile, and a select command then does not stop it. */
  lemma UnansweredIsSkipped(us: seq<UnitConfig>, units: Snapshots, byName: Index, scope: string, names: seq<string>,
      aliases: map<string, string>, raw: seq<Status>, now: nat, u: UnitConfig, options: seq<SelectOption>, caption: string)
    requires UnitsOK(us) && HasUnits(us, units) && Inverse(us, byName) && u in us && u.scope == scope
    requires var asked := UnitsForScope(us, scope); |names| == |asked| && forall i :: 0 <= i < |names| ==> names[i] == asked[i].name
    requires !Lists(raw, u.name) && (u.name in aliases ==> !Lists(raw, aliases[u.name]))
    requires |raw| == |names| ==> forall i :: 0 <= i < |names| && names[i] == u.name ==> raw[i].name in names
    ensures var units' := ApplyAll(units, byName, scope, AnswerFor(names, aliases, raw), now);
      && ObjectID(u) in units' && units'[ObjectID(u)].known
      && units'[ObjectID(u)].triple == Triple("inactive", "dead", "not-found")
      && var cmd := TS.CommandFor(options, caption, TS.NotFound(options, units')); cmd.Some? ==> ObjectID(u) !in cmd.value.stop
  {
    hide ObjectID, UnitsOK, HasUnits, Inverse, Mapped, ApplyAll, AnswerFor, Lists, LastOf;
    var sts := AnswerFor(names, aliases, raw);
    ReconcileExact(us, units, byName, scope, sts, now, u);
    var id := ObjectID(u);
    var units' := ApplyAll(units, byName, scope, sts, now);
    var j :| 0 <= j < |sts| && Shows(sts[j], u.name, units[id], units'[id], now);
    MappedAnswers(names, aliases, raw, j);
    NotStopped(options, caption, units', id);
  }

  lemma NotStopped(options: seq<SelectOption>, caption: string, units: Snapshots, id: string)
    requires id in units && units[id].known && units[id].triple.load == "not-found"
    ensures var cmd := TS.CommandFor(options, caption, TS.NotFound(options, units)); cmd.Some? ==> id !in cmd.value.stop
  {
    TS.CommandExact(options, caption, units);
    hide TS.CommandFor, TS.NotFound;
  }

  /** What a pick hands to the worker, given the snapshots of its moment. */
  function Picked(s: TemplateSelect, caption: string, units: Snapshots): Option<TS.Command> {
    TS.CommandFor(s.options, caption, TS.NotFound(s.options, units))
  }

  /** The end of a pick: the worker carried the command out, instances skipped as not found were really not live, and
      the next query tells the truth. Then the cached payload of the select is the picked caption. */
  lemma PickIsShown(p: Plan, k: Core, s: TemplateSelect, caption: string, units: Snapshots, live: set<string>,
      sts: seq<Status>, now: nat)
    requires PlanOK(p) && CacheOK(p, k) && s in p.c.selects
    requires Picked(s, caption, units).Some? && TS.Carried(Picked(s, caption, units).value, live)
    requires MissingDown(units, live) && Truthful(p.c.all, s.scope, sts, live)
    ensures var last := Reconciled(p, k, s.scope, sts, now).last;
      TemplateState(s.id) in last && last[TemplateState(s.id)] == caption
  {
    SkippedDown(s.options, units, live);
    hide TS.NotFound, MissingDown;
    var missing := TS.NotFound(s.options, units);
    var units' := ApplyAll(k.units, p.byName, s.scope, sts, now);
    hide PlanOK, Truthful, TS.Carried, ApplyAll, Agrees, Reconciled, HasUnits;
    var k' := Reconciled(p, k, s.scope, sts, now);
    ReconciledKeeps(p, k, s.scope, sts, now);
    forall i | 0 <= i < |s.options|
      ensures ShowsOn(units', s.options[i]) <==> TS.CommandFor(s.options, caption, missing).value.start == Some(s.options[i].unitID)
      ensures s.options[i].unitID in units' && units'[s.options[i].unitID].known
    {
      OptionAfter(p, k.units, s, i, sts, now, live);
      CarriedMeans(p, s, caption, missing, live, i);
    }
    CaptionAfter(p, units', s, caption, missing);
    SelectShown(p, k', s);
  }

  /** A pick from the mailbox to the broker: the worker takes the command, all its jobs return done, and the next query
      tells the truth about what then runs. */
  lemma PickEndToEnd(p: Plan, k: Core, s: TemplateSelect, caption: string, units: Snapshots, w: TS.World, before: TS.State,
      steps: seq<TS.Step>, sts: seq<Status>, now: nat)
    requires PlanOK(p) && CacheOK(p, k) && s in p.c.selects
    requires Picked(s, caption, units).Some?
    requires before.box == Picked(s, caption, units) && before.running.None?
    requires TS.CleanRun(before.box.value, steps) && TS.Run(w, before, steps).Some?
    requires MissingDown(units, TS.Run(w, before, steps).value.live)
    requires Truthful(p.c.all, s.scope, sts, TS.Run(w, before, steps).value.live)
    ensures var last := Reconciled(p, k, s.scope, sts, now).last;
      TemplateState(s.id) in last && last[TemplateState(s.id)] == caption
  {
    hide PlanOK, CacheOK, Truthful, MissingDown, TS.CommandFor, TS.NotFound, TS.CleanRun, TS.Run, TS.Carried, Reconciled;
    TS.CleanRunCarries(w, before, before.box.value, steps);
    PickIsShown(p, k, s, caption, units, TS.Run(w, before, steps).value.live, sts, now);
  }

  lemma CaptionAfter(p: Plan, units: Snapshots, s: TemplateSelect, caption: string, missing: set<string>)
    requires PlanOK(p) && s in p.c.selects && TS.CommandFor(s.options, caption, missing).Some?
    requires forall i :: 0 <= i < |s.options| ==>
      (ShowsOn(units, s.options[i]) <==> TS.CommandFor(s.options, caption, missing).value.start == Some(s.options[i].unitID))
    ensures SelectCaption(units, s.options) == caption
  {
    CaptionOfFirst(units, s.options);
    hide ShowsOn, PlanOK, SelectCaption, TS.StopList, TS.Choose;
    var cmd := TS.CommandFor(s.options, caption, missing).value;
    if caption != TS.OFF {
      var i :| 0 <= i < |s.options| && TS.FirstWith(s.options, caption, i) && s.options[i].unitID == cmd.start.value;
      forall j | 0 <= j < i ensures !ShowsOn(units, s.options[j]) {
        OptionsApart(p, s, j, i);
      }
      assert FirstOn(units, s.options, i);
    }
  }

  lemma SelectShown(p: Plan, k: Core, s: TemplateSelect)
    requires PlanOK(p) && CacheOK(p, k) && s in p.c.selects
    requires forall i :: 0 <= i < |s.options| ==> s.options[i].unitID in k.units && k.units[s.options[i].unitID].known
    ensures TemplateState(s.id) in k.last && k.last[TemplateState(s.id)] == SelectCaption(k.units, s.options)
  {
    hide PlanOK, CacheOK, SelectCaption, SelectOf;
    SelectFound(p, s);
    assert AnyKnown(k.units, s.options) by {
      assert s.options[0].unitID in k.units && k.units[s.options[0].unitID].known;
    }
    hide AnyKnown;
    CacheFact(p, k, TemplateState(s.id));
  }

  lemma SelectFound(p: Plan, s: TemplateSelect)
    requires PlanOK(p) && s in p.c.selects
    ensures SelectOf(p.c.selects, s.id) == Some(s) && s.options != []
  {
    hide Inverse, UnitsOK, SelectPlaced, IsNodeID;
    var n :| 0 <= n < |p.c.selects| && p.c.selects[n] == s;
    SelectOfMember(p.c.selects, s);
  }

  lemma CacheFact(p: Plan, k: Core, t: Topic)
    requires CacheOK(p, k) && Due(p, k, t)
    ensures t in k.last && k.last[t] == Render(p, k, t)
  {
    NoLag(p);
    hide HasUnits, Due, Render;
  }

  // ----- A poll tick

  /** The snapshot of a unit took over the state that an answer gives for its name. */
  ghost predicate Answered(sts: seq<Status>, u: UnitConfig, before: Snapshots, after: Snapshots, now: nat) {
    var id := ObjectID(u);
    id in before && id in after && exists j :: 0 <= j < |sts| && Shows(sts[j], u.name, before[id], after[id], now)
  }

  /** The snapshot of a unit is the same. */
  predicate Untouched(u: UnitConfig, before: Snapshots, after: Snapshots) {
    ObjectID(u) in before && ObjectID(u) in after && after[ObjectID(u)] == before[ObjectID(u)]
  }

  /** The query of a scope works in a tick: its bus is online, and the answer has one entry for each unit asked for. */
  ghost predicate Works(p: Plan, l: Loop, scope: string, inp: Inputs) {
    && scope in l.env.buses && l.env.buses[scope].online
    && scope in inp.answers && AnswersScope(p.c.all, scope, inp.answers[scope])
  }

  lemma ReconcileUnit(p: Plan, l: Loop, scope: string, inp: Inputs, u: UnitConfig)
    requires PlanOK(p) && CacheOK(p, l.core) && u in p.c.all
    ensures var units, units' := l.core.units, EventLoop.ReconcileScope(p, l, scope, inp).core.units;
      && (u.scope != scope || scope !in inp.answers ==> Untouched(u, units, units'))
      && (u.scope == scope && Works(p, l, scope, inp) ==> Answered(inp.answers[scope], u, units, units', l.env.now))
  {
    hide ObjectID, HasUnits, Inverse, UnitsOK, Agrees, Reconciled, Shows;
    UnitKey(p.c.all, l.core.units, p.byName, u);
    if scope in l.env.buses && scope in inp.answers {
      var sts := inp.answers[scope];
      ReconciledKeeps(p, l.core, scope, sts, l.env.now);
      ApplyAllAdvances(p.c.all, l.core.units, p.byName, scope, sts, l.env.now);
      if AnswersScope(p.c.all, scope, sts) {
        ReconcileExact(p.c.all, l.core.units, p.byName, scope, sts, l.env.now, u);
      }
    }
  }

  lemma UnitThere(p: Plan, k: Core, u: UnitConfig)
    requires PlanOK(p) && CacheOK(p, k) && u in p.c.all
    ensures Untouched(u, k.units, k.units)
  {
    hide ObjectID, HasUnits, Inverse, Accepted, Agrees;
    UnitKey(p.c.all, k.units, p.byName, u);
  }

  lemma PollUnit(p: Plan, l: Loop, scope: string, inp: Inputs, u: UnitConfig)
    requires PlanOK(p) && CacheOK(p, l.core) && u in p.c.all && scope in Scopes(p.c.all) && scope in l.env.buses
    ensures var units, units' := l.core.units, PollScope(p, l, scope, inp).core.units;
      && (u.scope != scope || scope !in inp.answers ==> Untouched(u, units, units'))
      && (u.scope == scope && Works(p, l, scope, inp) ==> Answered(inp.answers[scope], u, units, units', l.env.now))
  {
    hide PlanOK, CacheOK, EventLoop.ReconcileScope, Answered, Untouched, Scopes, Apply;
    var online := l.env.buses[scope].online;
    if online != BusOn(l.core, scope) {
      BusChangeKeeps(p, l.core, BusChange(scope, online, inp.reconnects));
      BusChangeUnits(p, l.core, scope, online, inp.reconnects);
      var l1 := l.(core := Apply(p, l.core, BusChange(scope, online, inp.reconnects)));
      if online {
        ReconcileUnit(p, l1, scope, inp, u);
      } else {
        UnitThere(p, l.core, u);
      }
    } else {
      ReconcileUnit(p, l, scope, inp, u);
    }
  }

  lemma {:induction false} PollUnits(p: Plan, l: Loop, scopes: seq<string>, inp: Inputs, u: UnitConfig)
    requires PlanOK(p) && CacheOK(p, l.core) && u in p.c.all
    requires forall s :: s in scopes ==> s in Scopes(p.c.all) && s in l.env.buses
    requires forall i, j :: 0 <= i < j < |scopes| ==> scopes[i] != scopes[j]
    ensures var units, units' := l.core.units, PollScopes(p, l, scopes, inp).core.units;
      && (u.scope !in scopes || u.scope !in inp.answers ==> Untouched(u, units, units'))
      && (u.scope in scopes && Works(p, l, u.scope, inp) ==> Answered(inp.answers[u.scope], u, units, units', l.env.now))
  {
    hide PlanOK, CacheOK, Scopes, PollScope, AnswersScope, Shows, ObjectID, BusOn, Times;
    if scopes == [] {
      UnitThere(p, l.core, u);
    } else {
      var n := |scopes| - 1;
      var m := PollScopes(p, l, scopes[..n], inp);
      assert scopes == scopes[..n] + [scopes[n]];
      PollScopesKeeps(p, l, scopes[..n], inp);
      PollUnits(p, l, scopes[..n], inp, u);
      PollUnit(p, m, scopes[n], inp, u);
    }
  }

  /** What is published for a unit is the state that the loop last heard. */
  predicate SwitchShown(k: Core, id: string) {
    && id in k.units && k.units[id].known
    && Topic.UnitState(id) in k.last
    && k.last[Topic.UnitState(id)] == if k.units[id].triple.active in RUNNING then "ON" else "OFF"
  }

  lemma TickUnit(p: Plan, l: Loop, inp: Inputs, u: UnitConfig)
    requires PlanOK(p) && Inv(p, l) && u in p.c.all
    ensures var units, units' := l.core.units, PollTick(p, l, inp).core.units;
      && (Works(p, l, u.scope, inp) ==> Answered(inp.answers[u.scope], u, units, units', l.env.now))
      && (u.scope !in inp.answers ==> Untouched(u, units, units'))
  {
    hide PlanOK, CacheOK, PollScopes, Answered, Untouched, AnswersScope, WakesOK, TimerOK, Scopes;
    PollUnits(p, PollArm(l), Scopes(p.c.all), inp, u);
  }

  lemma TickCache(p: Plan, l: Loop, inp: Inputs)
    requires PlanOK(p) && Inv(p, l)
    ensures CacheOK(p, PollTick(p, l, inp).core)
  {
    hide PlanOK, CacheOK, PollTick, WakesOK, TimerOK;
    TickKeeps(p, l, inp);
  }

  /** A poll tick whose query of a scope works: every unit of the scope is then known with the state that the answer gives
      for its name, and what is published for it is that state, whatever was lost before. A unit whose query fails keeps
      its snapshot. */
  lemma TickShowsAnswers(p: Plan, l: Loop, inp: Inputs, u: UnitConfig)
    requires PlanOK(p) && Inv(p, l) && u in p.c.all
    ensures var k := PollTick(p, l, inp).core;
      && (Works(p, l, u.scope, inp) ==>
           Answered(inp.answers[u.scope], u, l.core.units, k.units, l.env.now) && SwitchShown(k, ObjectID(u)))
      && (u.scope !in inp.answers ==> Untouched(u, l.core.units, k.units))
  {
    hide PlanOK, CacheOK, Inv, PollTick, Works, ObjectID;
    TickUnit(p, l, inp, u);
    TickCache(p, l, inp);
    if Works(p, l, u.scope, inp) {
      CacheFact(p, PollTick(p, l, inp).core, Topic.UnitState(ObjectID(u)));
    }
  }

  /** The answer of a scope that works is truthful about which of its units are live. */
  ghost predicate WorksTruly(p: Plan, l: Loop, scope: string, inp: Inputs, live: set<string>) {
    Works(p, l, scope, inp) && Truthful(p.c.all, scope, inp.answers[scope], live)
  }

  lemma TickOption(p: Plan, l: Loop, inp: Inputs, s: TemplateSelect, i: nat, live: set<string>)
    requires PlanOK(p) && Inv(p, l) && s in p.c.selects && i < |s.options| && WorksTruly(p, l, s.scope, inp, live)
    ensures var units := PollTick(p, l, inp).core.units;
      && (ShowsOn(units, s.options[i]) <==> s.options[i].unitID in live)
      && s.options[i].unitID in units && units[s.options[i].unitID].known
  {
    var u := OptionUnit(p, s, i);
    hide ObjectID, Accepted, Inverse, Inv, PollTick, IsOnState, Truthful;
    TickUnit(p, l, inp, u);
    var sts, units' := inp.answers[s.scope], PollTick(p, l, inp).core.units;
    var id := ObjectID(u);
    var j :| 0 <= j < |sts| && Shows(sts[j], u.name, l.core.units[id], units'[id], l.env.now);
    PlanUnits(p);
    SameName(p.c.all, s.scope, sts, live, u, j);
  }

  lemma PlanUnits(p: Plan)
    requires PlanOK(p)
    ensures UnitsOK(p.c.all)
  {
    hide UnitsOK, Inverse, SelectPlaced, DistinctSelects;
  }

  /** After a select command that succeeded, one poll tick whose query tells the truth publishes the picked caption,
      whatever state the loop is in: no hint of the change has to reach it. */
  lemma PickShownByTick(p: Plan, l: Loop, inp: Inputs, s: TemplateSelect, caption: string, units: Snapshots, live: set<string>)
    requires PlanOK(p) && Inv(p, l) && s in p.c.selects
    requires Picked(s, caption, units).Some? && TS.Carried(Picked(s, caption, units).value, live)
    requires MissingDown(units, live) && WorksTruly(p, l, s.scope, inp, live)
    ensures var last := PollTick(p, l, inp).core.last;
      TemplateState(s.id) in last && last[TemplateState(s.id)] == caption
  {
    SkippedDown(s.options, units, live);
    hide PlanOK, CacheOK, Inv, PollTick, WorksTruly, MissingDown, TS.NotFound, TS.Carried;
    var k, missing := PollTick(p, l, inp).core, TS.NotFound(s.options, units);
    forall i | 0 <= i < |s.options|
      ensures ShowsOn(k.units, s.options[i]) <==> TS.CommandFor(s.options, caption, missing).value.start == Some(s.options[i].unitID)
      ensures s.options[i].unitID in k.units && k.units[s.options[i].unitID].known
    {
      TickOption(p, l, inp, s, i, live);
      CarriedMeans(p, s, caption, missing, live, i);
    }
    CaptionAfter(p, k.units, s, caption, missing);
    TickCache(p, l, inp);
    SelectShown(p, k, s);
  }

  // ----- Picking what is shown

  /** The unit of option i is the only one that is on. */
  ghost predicate OnlyOn(units: Snapshots, options: seq<SelectOption>, i: nat) {
    forall j :: 0 <= j < |options| ==> (ShowsOn(units, options[j]) <==> j == i)
  }

  predicate Starts(options: seq<SelectOption>, caption: string, missing: set<string>, u: string) {
    var cmd := TS.CommandFor(options, caption, missing);
    cmd.Some? && cmd.value.start == Some(u)
  }

  lemma ChooseFirst(options: seq<SelectOption>, caption: string, i: nat)
    requires i < |options| && TS.FirstWith(options, caption, i)
    ensures TS.Choose(options, caption) == Some(options[i].unitID)
  {
    var r := TS.Choose(options, caption);
    hide TS.Choose;
    assert r.Some?;
    var j :| 0 <= j < |options| && TS.FirstWith(options, caption, j) && options[j].unitID == r.value;
    assert i == j;
  }

  lemma StartsIffFirst(p: Plan, s: TemplateSelect, caption: string, missing: set<string>, i: nat)
    requires PlanOK(p) && s in p.c.selects && i < |s.options|
    ensures Starts(s.options, caption, missing, s.options[i].unitID) <==> caption != TS.OFF && TS.FirstWith(s.options, caption, i)
  {
    hide PlanOK;
    if caption != TS.OFF && TS.FirstWith(s.options, caption, i) {
      ChooseFirst(s.options, caption, i);
    }
    if Starts(s.options, caption, missing, s.options[i].unitID) {
      var j :| 0 <= j < |s.options| && TS.FirstWith(s.options, caption, j) && s.options[j].unitID == s.options[i].unitID;
      if i < j {
        OptionsApart(p, s, i, j);
      } else if j < i {
        OptionsApart(p, s, j, i);
      }
    }
  }

  /** Picking the caption that is shown while option i runs alone is a pick of option i exactly when that caption is
      not "off" and belongs to no earlier option. */
  lemma EchoIffFirst(p: Plan, units: Snapshots, s: TemplateSelect, i: nat, missing: set<string>)
    requires PlanOK(p) && s in p.c.selects && i < |s.options| && OnlyOn(units, s.options, i)
    ensures Starts(s.options, SelectCaption(units, s.options), missing, s.options[i].unitID) <==>
      s.options[i].caption != TS.OFF && TS.FirstWith(s.options, s.options[i].caption, i)
  {
    CaptionOfFirst(units, s.options);
    assert FirstOn(units, s.options, i);
    hide PlanOK, SelectCaption, Starts;
    StartsIffFirst(p, s, s.options[i].caption, missing, i);
  }

  ghost predicate GoodCaptions(options: seq<SelectOption>) {
    && (forall i :: 0 <= i < |options| ==> options[i].caption != TS.OFF)
    && forall i, j :: 0 <= i < j < |options| ==> options[i].caption != options[j].caption
  }

  ghost predicate Reachable(options: seq<SelectOption>, i: nat)
    requires i < |options|
  {
    exists caption :: Starts(options, caption, {}, options[i].unitID)
  }

  /** Every option of a select can be picked exactly when the captions are distinct and none is "off". Neither is
      checked when a configuration is accepted. */
  lemma AllReachableIffGood(p: Plan, s: TemplateSelect)
    requires PlanOK(p) && s in p.c.selects
    ensures (forall i :: 0 <= i < |s.options| ==> Reachable(s.options, i)) <==> GoodCaptions(s.options)
  {
    hide PlanOK, Starts;
    forall i, caption | 0 <= i < |s.options|
      ensures Starts(s.options, caption, {}, s.options[i].unitID) <==> caption != TS.OFF && TS.FirstWith(s.options, caption, i)
    {
      StartsIffFirst(p, s, caption, {}, i);
    }
    forall i | 0 <= i < |s.options|
      ensures Reachable(s.options, i) <==> s.options[i].caption != TS.OFF && TS.FirstWith(s.options, s.options[i].caption, i)
    {
      assert TS.FirstWith(s.options, s.options[i].caption, i) ==>
        (Starts(s.options, s.options[i].caption, {}, s.options[i].unitID) <==> s.options[i].caption != TS.OFF);
    }
  }
}
