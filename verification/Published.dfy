/** What the broker is told, in the words of the documentation: the literal payloads, and the events that decide them. */
module Published {
  import opened Text
  import opened Config
  import opened StatusMapping
  import opened UnitState
  import opened Topics
  import opened PublishCache
  import Commands
  import E = EventLoop

  // ----- The payloads

  /** A known unit has a switch, which is "ON" while systemd runs it or is about to, and its attributes; an unknown unit
      has neither. */
  ghost predicate TellsUnits(p: Plan, k: Core) {
    forall id ::
      && (Topic.UnitState(id) in k.last <==> id in k.units && k.units[id].known)
      && (UnitAttributes(id) in k.last <==> id in k.units && k.units[id].known)
      && (id in k.units && k.units[id].known ==>
           var active := k.units[id].triple.active;
           && k.last[Topic.UnitState(id)]
             == (if active == "active" || active == "activating" || active == "reloading" then "ON" else "OFF")
           && k.last[UnitAttributes(id)] == p.texts.attributes(k.units[id]))
  }

  /** The unit of this option is known and runs or is about to. */
  predicate Runs(k: Core, o: SelectOption) {
    && o.unitID in k.units && k.units[o.unitID].known
    && k.units[o.unitID].triple.active in ["active", "activating", "reloading"]
  }

  /** A select shows the caption of its first option that runs, and "off" when none does, once some option is known. */
  ghost predicate TellsSelects(p: Plan, k: Core) {
    forall s :: s in p.c.selects ==>
      && (TemplateState(s.id) in k.last <==>
           exists i :: 0 <= i < |s.options| && s.options[i].unitID in k.units && k.units[s.options[i].unitID].known)
      && (TemplateState(s.id) in k.last ==>
           && ((forall i :: 0 <= i < |s.options| ==> !Runs(k, s.options[i])) ==> k.last[TemplateState(s.id)] == "off")
           && forall i :: 0 <= i < |s.options| && Runs(k, s.options[i]) && (forall j :: 0 <= j < i ==> !Runs(k, s.options[j])) ==>
                k.last[TemplateState(s.id)] == s.options[i].caption)
  }

  /** A bus shows "online" exactly when the loop was last told that it is. */
  ghost predicate TellsBuses(p: Plan, k: Core) {
    forall s ::
      && (BusAvailability(s) in k.last <==> s in Scopes(p.c.all) && (s in k.bus || k.republished))
      && (BusAvailability(s) in k.last ==>
           k.last[BusAvailability(s)] == if s in k.bus && k.bus[s] then "online" else "offline")
  }

  /** The display's switch is "ON" in mode 0 only, and its three values are those of the last mode while it was there. */
  ghost predicate TellsDisplay(p: Plan, k: Core) {
    && (DisplayState in k.last <==> p.c.displayEnabled && k.shown != -1)
    && (DisplayModeState in k.last <==> p.c.displayEnabled && k.shown != -1)
    && (DisplayAttributes in k.last <==> p.c.displayEnabled && k.shown != -1)
    && (DisplayAvailability in k.last <==> p.c.displayEnabled && (k.heard || k.republished))
    && (DisplayState in k.last ==>
         && k.last[DisplayState] == (if k.shown == 0 then "ON" else "OFF")
         && (k.shown == 0 ==> k.last[DisplayModeState] == "on") && (k.shown == 1 ==> k.last[DisplayModeState] == "standby")
         && (k.shown == 2 ==> k.last[DisplayModeState] == "suspend") && (k.shown == 3 ==> k.last[DisplayModeState] == "off")
         && (k.shown !in [0, 1, 2, 3] ==> k.last[DisplayModeState] == "unknown")
         && k.last[DisplayAttributes] == p.texts.display(k.shown))
    && (DisplayAvailability in k.last ==>
         k.last[DisplayAvailability] == if k.dispOnline && k.dispMode != -1 then "online" else "offline")
  }

  /** The daemon is "online" from the first republish on; its diagnostics tell both buses, the display and the reconnects. */
  ghost predicate TellsDaemon(p: Plan, k: Core) {
    && (Availability in k.last <==> k.republished) && (Availability in k.last ==> k.last[Availability] == "online")
    && (Discovery in k.last <==> p.c.haEnabled && k.republished)
    && (Discovery in k.last ==> k.last[Discovery] == p.texts.discovery)
    && (DaemonState in k.last <==> k.bus != map[] || k.heard || k.republished)
    && (DaemonState in k.last ==> k.last[DaemonState] == p.texts.daemon("user" in k.bus && k.bus["user"],
         "system" in k.bus && k.bus["system"], k.dispOnline && k.dispMode != -1, k.told))
  }

  lemma CacheIs(p: Plan, k: Core, t: Topic)
    requires CacheOK(p, k)
    ensures t in k.last <==> Due(p, k, t)
    ensures t in k.last ==> k.last[t] == Render(p, k, t)
  {
    NoLag(p);
    hide HasUnits, Due, Render;
  }

  lemma UnitsTold(p: Plan, k: Core)
    requires CacheOK(p, k)
    ensures TellsUnits(p, k)
  {
    hide CacheOK;
    forall id
      ensures Topic.UnitState(id) in k.last <==> id in k.units && k.units[id].known
      ensures UnitAttributes(id) in k.last <==> id in k.units && k.units[id].known
      ensures id in k.units && k.units[id].known ==>
        var active := k.units[id].triple.active;
        && k.last[Topic.UnitState(id)]
          == (if active == "active" || active == "activating" || active == "reloading" then "ON" else "OFF")
        && k.last[UnitAttributes(id)] == p.texts.attributes(k.units[id])
    {
      CacheIs(p, k, Topic.UnitState(id));
      CacheIs(p, k, UnitAttributes(id));
    }
  }

  lemma SelectTold(p: Plan, k: Core, s: TemplateSelect)
    requires PlanOK(p) && CacheOK(p, k) && s in p.c.selects
    ensures TemplateState(s.id) in k.last <==>
      exists i :: 0 <= i < |s.options| && s.options[i].unitID in k.units && k.units[s.options[i].unitID].known
    ensures TemplateState(s.id) in k.last ==>
      && ((forall i :: 0 <= i < |s.options| ==> !Runs(k, s.options[i])) ==> k.last[TemplateState(s.id)] == "off")
      && forall i :: 0 <= i < |s.options| && Runs(k, s.options[i]) && (forall j :: 0 <= j < i ==> !Runs(k, s.options[j])) ==>
           k.last[TemplateState(s.id)] == s.options[i].caption
  {
    hide CacheOK, Accepted, Inverse, SelectOf, SelectCaption, ActiveCaptions, ModeName;
    CacheIs(p, k, TemplateState(s.id));
    SelectKnown(p, s);
    CaptionOfFirst(k.units, s.options);
    hide Render, Due, PlanOK, ShowsOn, Runs;
    forall i | 0 <= i < |s.options| ensures ShowsOn(k.units, s.options[i]) <==> Runs(k, s.options[i]) {
      RunsShown(k, s.options[i]);
    }
  }

  lemma RunsShown(k: Core, o: SelectOption)
    ensures ShowsOn(k.units, o) <==> Runs(k, o)
  {
  }

  lemma SelectKnown(p: Plan, s: TemplateSelect)
    requires PlanOK(p) && s in p.c.selects
    ensures SelectOf(p.c.selects, s.id) == Some(s)
  {
    hide Inverse, UnitsOK, SelectPlaced, IsNodeID;
    SelectOfMember(p.c.selects, s);
  }

  lemma BusesTold(p: Plan, k: Core)
    requires CacheOK(p, k)
    ensures TellsBuses(p, k)
  {
    hide CacheOK, Scopes;
    forall s
      ensures BusAvailability(s) in k.last <==> s in Scopes(p.c.all) && (s in k.bus || k.republished)
      ensures BusAvailability(s) in k.last ==>
        k.last[BusAvailability(s)] == if s in k.bus && k.bus[s] then "online" else "offline"
    {
      CacheIs(p, k, BusAvailability(s));
    }
  }

  lemma DisplayTold(p: Plan, k: Core)
    requires CacheOK(p, k)
    ensures TellsDisplay(p, k)
  {
    hide CacheOK;
    CacheIs(p, k, DisplayState);
    CacheIs(p, k, DisplayModeState);
    CacheIs(p, k, DisplayAttributes);
    CacheIs(p, k, DisplayAvailability);
  }

  lemma DaemonTold(p: Plan, k: Core)
    requires CacheOK(p, k)
    ensures TellsDaemon(p, k)
  {
    hide CacheOK;
    CacheIs(p, k, Availability);
    CacheIs(p, k, Discovery);
    CacheIs(p, k, DaemonState);
  }

  ghost predicate Tells(p: Plan, k: Core) {
    TellsUnits(p, k) && TellsSelects(p, k) && TellsBuses(p, k) && TellsDisplay(p, k) && TellsDaemon(p, k)
  }

  lemma CacheTells(p: Plan, k: Core)
    requires PlanOK(p) && CacheOK(p, k)
    ensures Tells(p, k)
  {
    hide PlanOK, CacheOK, TellsUnits, TellsBuses, TellsDisplay, TellsDaemon, Runs;
    UnitsTold(p, k);
    BusesTold(p, k);
    DisplayTold(p, k);
    DaemonTold(p, k);
    forall s | s in p.c.selects
      ensures TemplateState(s.id) in k.last <==>
        exists i :: 0 <= i < |s.options| && s.options[i].unitID in k.units && k.units[s.options[i].unitID].known
      ensures TemplateState(s.id) in k.last ==>
        && ((forall i :: 0 <= i < |s.options| ==> !Runs(k, s.options[i])) ==> k.last[TemplateState(s.id)] == "off")
        && forall i :: 0 <= i < |s.options| && Runs(k, s.options[i]) && (forall j :: 0 <= j < i ==> !Runs(k, s.options[j])) ==>
             k.last[TemplateState(s.id)] == s.options[i].caption
    {
      SelectTold(p, k, s);
    }
  }

  /** After any run of the loop's operations, and so in every state that the loop can reach, the cache tells just this. */
  lemma RunTells(p: Plan, ops: seq<Op>)
    requires PlanOK(p) && forall op :: op in ops ==> Possible(p, op)
    ensures Tells(p, RunOps(p, Start(p), ops))
  {
    hide PlanOK, CacheOK, Tells, RunOps, Start;
    CacheAlwaysRendered(p, ops);
    CacheTells(p, RunOps(p, Start(p), ops));
  }

  lemma LoopTells(p: Plan, steps: seq<E.Step>)
    requires PlanOK(p) && E.Run(p, E.Initial(p), steps).Some?
    ensures Tells(p, E.Run(p, E.Initial(p), steps).value.core)
  {
    hide PlanOK, CacheOK, Tells, E.Run, E.Initial;
    E.LoopAlways(p, steps);
    CacheTells(p, E.Run(p, E.Initial(p), steps).value.core);
  }

  // ----- The events behind them

  /** The last of the operations that is of some kind. */
  function LastOf(ops: seq<Op>, kind: Op -> bool): (r: Option<Op>)
    ensures r.None? <==> forall i :: 0 <= i < |ops| ==> !kind(ops[i])
    ensures r.Some? ==> exists i :: 0 <= i < |ops| && IsLast(ops, kind, i) && ops[i] == r.value
  {
    if ops == [] then None
    else if kind(ops[|ops| - 1]) then Some(ops[|ops| - 1])
    else
      var r := LastOf(ops[..|ops| - 1], kind);
      assert forall i :: 0 <= i < |ops| - 1 ==> ops[i] == ops[..|ops| - 1][i];
      assert forall i :: 0 <= i < |ops| - 1 && IsLast(ops[..|ops| - 1], kind, i) ==> IsLast(ops, kind, i);
      r
  }

  predicate IsLast(ops: seq<Op>, kind: Op -> bool, i: nat)
    requires i < |ops|
  {
    kind(ops[i]) && forall j :: i < j < |ops| ==> !kind(ops[j])
  }

  function OfBus(scope: string): Op -> bool { (op: Op) => op.BusChange? && op.scope == scope }
  function OfDisplay(): Op -> bool { (op: Op) => op.DisplayIs? || op.DisplayGone? }
  function OfMode(): Op -> bool { (op: Op) => op.DisplayIs? }
  function OfRealMode(): Op -> bool { (op: Op) => op.DisplayIs? && op.mode != -1 }
  function OfRepublish(): Op -> bool { (op: Op) => op.Republish? }
  function OfJob(id: string): Op -> bool { (op: Op) => op.JobFinished? && op.id == id }
  function WithCount(): Op -> bool { (op: Op) => op.BusChange? || op.DisplayIs? || op.DisplayGone? || op.Republish? }

  /** A bus is as its last change said, and unknown before the first. */
  ghost predicate HeardBuses(k: Core, ops: seq<Op>) {
    forall s ::
      var o := LastOf(ops, OfBus(s));
      (s in k.bus <==> o.Some?) && (o.Some? ==> k.bus[s] == o.value.online)
  }

  /** The display is there exactly when the last news of it was a mode. */
  predicate HeardDisplay(p: Plan, k: Core, ops: seq<Op>) {
    var news, mode, seen := LastOf(ops, OfDisplay()), LastOf(ops, OfMode()), LastOf(ops, OfRealMode());
    && (k.heard <==> news.Some?)
    && (k.dispOnline <==> news.Some? && news.value.DisplayIs?)
    && k.dispMode == (if mode.Some? then mode.value.mode else -1)
    && k.shown == (if p.c.displayEnabled && seen.Some? then seen.value.mode else -1)
  }

  /** The reconnect count is the one read last, and a republish is not forgotten. */
  predicate HeardRest(k: Core, ops: seq<Op>) {
    var count := LastOf(ops, WithCount());
    && (k.republished <==> LastOf(ops, OfRepublish()).Some?)
    && k.told == (if count.Some? then count.value.reconnects else 0)
  }

  /** A unit's job fields are those of the last job of it that finished. */
  ghost predicate HeardJobs(k: Core, ops: seq<Op>) {
    forall id :: id in k.units ==>
      var o, s := LastOf(ops, OfJob(id)), k.units[id];
      && s.lastJob == (if o.Some? then o.value.verb else "")
      && s.lastResult == (if o.Some? then o.value.result else "")
      && s.lastError == (if o.Some? then o.value.error else "")
      && s.lastJobAt == (if o.Some? then o.value.now else 0)
  }

  /** What one operation does to everything but the cache and the queried states. */
  lemma Effect(p: Plan, k: Core, op: Op)
    ensures var k' := Apply(p, k, op);
      && k'.bus == (if op.BusChange? then k.bus[op.scope := op.online] else k.bus)
      && k'.dispOnline == (if op.DisplayIs? then true else if op.DisplayGone? then false else k.dispOnline)
      && k'.dispMode == (if op.DisplayIs? then op.mode else k.dispMode)
      && k'.shown == (if op.DisplayIs? && op.mode != -1 && p.c.displayEnabled then op.mode else k.shown)
      && k'.heard == (k.heard || op.DisplayIs? || op.DisplayGone?)
      && k'.republished == (k.republished || op.Republish?)
      && k'.told == (if op.JobFinished? || op.Reconcile? then k.told else op.reconnects)
      && if op.JobFinished? && op.id in k.units
         then k'.units == k.units[op.id := k.units[op.id].(
           lastJob := op.verb, lastResult := op.result, lastError := op.error, lastJobAt := op.now)]
         else SameJobs(k.units, k'.units)
  {
    hide Put, BusMsgs, DaemonMsgs, DisplayMsgs, UnitMsgs, RepublishMsgs, SelectsMsgs, ApplyStatuses;
    match op
    case BusChange(scope, online, reconnects) =>
      var k1 := k.(bus := k.bus[scope := online], told := reconnects);
      PutUnits(k1, BusMsgs(k1.bus, scope) + DaemonMsgs(p, k1), false);
    case DisplayIs(mode, reconnects) =>
      var k1 := k.(dispOnline := true, dispMode := mode, told := reconnects, heard := true,
        shown := if p.c.displayEnabled && mode != UNKNOWN then mode else k.shown);
      PutUnits(k1, DisplayMsgs(p, k1) + DaemonMsgs(p, k1), false);
    case DisplayGone(reconnects) =>
      var k1 := k.(dispOnline := false, told := reconnects, heard := true);
      PutUnits(k1, DisplayMsgs(p, k1) + DaemonMsgs(p, k1), false);
    case JobFinished(id, verb, result, error, now) =>
      if id in k.units {
        var k1 := k.(units := k.units[id := WithJob(k.units[id], verb, result, error, now)]);
        PutUnits(k1, UnitMsgs(p, k1.units[id]), false);
      }
    case Reconcile(scope, sts, now) =>
      StatusesOnly(p, k, scope, sts, now);
      var k1 := ApplyStatuses(p, k, scope, sts, now);
      PutUnits(k1, SelectsMsgs(k1.units, p.c.selects, Some(scope)), false);
    case Republish(reconnects) =>
      var k1 := Republishing(k, reconnects);
      PutUnits(k1, RepublishMsgs(p, k1), true);
  }

  /** An answer changes the snapshots and the cache only, and of a snapshot only what it says. */
  lemma {:induction false} StatusesOnly(p: Plan, k: Core, scope: string, sts: seq<Status>, now: nat)
    ensures var k' := ApplyStatuses(p, k, scope, sts, now);
      && k' == k.(units := k'.units, last := k'.last, out := k'.out)
      && SameJobs(k.units, k'.units)
  {
    hide Put, UnitMsgs;
    if sts != [] {
      var before, st := ApplyStatuses(p, k, scope, sts[..|sts| - 1], now), sts[|sts| - 1];
      StatusesOnly(p, k, scope, sts[..|sts| - 1], now);
      var key := Key(scope, st.name);
      OneStatus(before.units, p.byName, scope, st, now);
      hide ApplyOne;
      if key in p.byName && p.byName[key] in before.units {
        var k1 := before.(units := ApplyOne(before.units, p.byName, scope, st, now));
        PutUnits(k1, UnitMsgs(p, k1.units[p.byName[key]]), false);
      }
    }
  }

  lemma OneStatus(units: Snapshots, byName: Index, scope: string, st: Status, now: nat)
    ensures SameJobs(units, ApplyOne(units, byName, scope, st, now))
  {
  }

  ghost predicate SameJobs(units: Snapshots, units': Snapshots) {
    && units'.Keys == units.Keys
    && forall id :: id in units ==>
         var s, s' := units[id], units'[id];
         (s'.lastJob, s'.lastResult, s'.lastError, s'.lastJobAt) == (s.lastJob, s.lastResult, s.lastError, s.lastJobAt)
  }

  lemma LastSnoc(ops: seq<Op>, op: Op, kind: Op -> bool)
    ensures LastOf(ops + [op], kind) == if kind(op) then Some(op) else LastOf(ops, kind)
  {
    assert (ops + [op])[..|ops|] == ops;
  }

  /** In any run of the loop's operations the loop knows the last of what it was told, and nothing else. */
  lemma {:induction false} RunHears(p: Plan, ops: seq<Op>)
    ensures var k := RunOps(p, Start(p), ops); HeardBuses(k, ops) && HeardDisplay(p, k, ops) && HeardRest(k, ops) && HeardJobs(k, ops)
  {
    hide Apply, StartUnits;
    if ops == [] {
      StartJobs(p.c.all);
    } else {
      var before, op := ops[..|ops| - 1], ops[|ops| - 1];
      assert ops == before + [op];
      RunHears(p, before);
      var k := RunOps(p, Start(p), before);
      hide RunOps;
      BusesHeard(p, k, before, op);
      DisplayHeard(p, k, before, op);
      JobsHeard(p, k, before, op);
    }
  }

  lemma BusesHeard(p: Plan, k: Core, ops: seq<Op>, op: Op)
    requires HeardBuses(k, ops)
    ensures HeardBuses(Apply(p, k, op), ops + [op])
  {
    Effect(p, k, op);
    hide Apply, LastOf;
    forall s
      ensures var o := LastOf(ops + [op], OfBus(s));
        var k' := Apply(p, k, op);
        (s in k'.bus <==> o.Some?) && (o.Some? ==> k'.bus[s] == o.value.online)
    {
      LastSnoc(ops, op, OfBus(s));
      assert s in k.bus <==> LastOf(ops, OfBus(s)).Some?;
    }
  }

  lemma DisplayHeard(p: Plan, k: Core, ops: seq<Op>, op: Op)
    requires HeardDisplay(p, k, ops) && HeardRest(k, ops)
    ensures HeardDisplay(p, Apply(p, k, op), ops + [op]) && HeardRest(Apply(p, k, op), ops + [op])
  {
    Effect(p, k, op);
    hide Apply;
    LastSnoc(ops, op, OfDisplay());
    LastSnoc(ops, op, OfMode());
    LastSnoc(ops, op, OfRealMode());
    LastSnoc(ops, op, WithCount());
    LastSnoc(ops, op, OfRepublish());
  }

  lemma JobsHeard(p: Plan, k: Core, ops: seq<Op>, op: Op)
    requires HeardJobs(k, ops)
    ensures HeardJobs(Apply(p, k, op), ops + [op])
  {
    Effect(p, k, op);
    hide Apply, LastOf;
    forall id ensures LastOf(ops + [op], OfJob(id)) == if OfJob(id)(op) then Some(op) else LastOf(ops, OfJob(id)) {
      LastSnoc(ops, op, OfJob(id));
    }
  }

  lemma {:induction false} StartJobs(us: seq<UnitConfig>)
    ensures forall id :: id in StartUnits(us) ==>
      var s := StartUnits(us)[id];
      !s.known && s.lastJob == "" && s.lastResult == "" && s.lastError == "" && s.lastJobAt == 0
  {
    hide ObjectID;
    if us != [] {
      StartJobs(us[..|us| - 1]);
    }
  }

  // ----- The events of the loop

  /** Exactly these events ask for a republish. */
  predicate Asks(p: Plan, ev: E.Event) {
    ev.Connected? || (ev.Inbound? && ev.topic == p.c.statusTopic && Commands.TrimSpace(ev.payload) == "online")
  }

  /** What one event of the loop changes of what it knows, besides the queried states: a bus state the bus, a mode and an
      error the display, a job's end the job fields, and nothing else anything. */
  lemma EventTold(p: Plan, l: E.Loop, ev: E.Event, inp: E.Inputs)
    ensures var k, k' := l.core, E.Handle(p, l, ev, inp).core;
      && k'.bus == (if ev.BusState? then k.bus[ev.scope := ev.online] else k.bus)
      && k'.dispOnline == (if ev.DisplayMode? then true else if ev.DisplayError? then false else k.dispOnline)
      && k'.dispMode == (if ev.DisplayMode? then ev.mode else k.dispMode)
      && k'.told == (if ev.BusState? || ev.DisplayMode? || ev.DisplayError? then inp.reconnects else k.told)
      && k'.republished == k.republished
      && if ev.JobDone? && ev.id in k.units && UnitByID(p.c.all, ev.id).Some?
         then k'.units == k.units[ev.id := k.units[ev.id].(
           lastJob := ev.verb, lastResult := ev.result, lastError := ev.error, lastJobAt := l.env.now)]
         else SameJobs(k.units, k'.units)
  {
    hide Apply, E.AsksRepublish, UnitByID, SelectOf, E.Schedule, Reconciled;
    match ev
    case ReconcileDue(scope) => QueryTold(p, l, scope, inp);
    case BusState(scope, online) =>
      Effect(p, l.core, BusChange(scope, online, inp.reconnects));
      QueryTold(p, l.(core := Apply(p, l.core, BusChange(scope, online, inp.reconnects))), scope, inp);
    case DisplayMode(mode) => Effect(p, l.core, DisplayIs(mode, inp.reconnects));
    case DisplayError => Effect(p, l.core, DisplayGone(inp.reconnects));
    case JobDone(id, verb, result, error) =>
      Effect(p, l.core, JobFinished(id, verb, result, error, l.env.now));
      Unscheduled(l.(core := Apply(p, l.core, JobFinished(id, verb, result, error, l.env.now))));
    case TemplateDone(id) => Unscheduled(l);
    case Wake(scope) => Unscheduled(l.(wakePending := l.wakePending - {scope}));
    case _ =>
  }

  lemma Unscheduled(l: E.Loop)
    ensures forall s :: E.Schedule(l, s).core == l.core && E.Schedule(l, s).due == l.due && E.Schedule(l, s).armedAt == l.armedAt
  {
  }

  lemma QueryTold(p: Plan, l: E.Loop, scope: string, inp: E.Inputs)
    ensures var k, k' := l.core, E.ReconcileScope(p, l, scope, inp).core;
      && k' == k.(units := k'.units, last := k'.last, out := k'.out) && SameJobs(k.units, k'.units)
  {
    hide Put, ApplyStatuses, SelectsMsgs;
    if scope in l.env.buses && scope in inp.answers {
      var sts := inp.answers[scope];
      StatusesOnly(p, l.core, scope, sts, l.env.now);
      var k1 := ApplyStatuses(p, l.core, scope, sts, l.env.now);
      PutUnits(k1, SelectsMsgs(k1.units, p.c.selects, Some(scope)), false);
    }
  }

  /** The republish timer is armed, for two seconds from now, by the events that ask for it and by no other, and a republish
      that begins forgets when it was armed. */
  lemma EventArms(p: Plan, l: E.Loop, ev: E.Event, inp: E.Inputs)
    ensures var l' := E.Handle(p, l, ev, inp);
      && l'.due == (if Asks(p, ev) then Some(l.env.now + 2000) else l.due)
      && l'.armedAt == (if Asks(p, ev) then Some(l.env.now) else if ev.FullPublish? then None else l.armedAt)
      && l'.wanted == (l.wanted && !ev.FullPublish?)
  {
    hide Apply, UnitByID, SelectOf, Reconciled, Parse, Commands.TrimSpace;
    if ev.Inbound? {
      StatusParsed(p.c, ev.topic);
    }
  }

  /** The event makes the loop query a scope, and the query works. */
  predicate Queries(l: E.Loop, ev: E.Event, inp: E.Inputs) {
    (ev.ReconcileDue? || (ev.BusState? && ev.online)) && ev.scope in l.env.buses && ev.scope in inp.answers
  }

  /** Exactly a reconcile that is due and a bus that comes online take over queried states, all that the answer gives; no
      other event touches what is known of a unit's state. */
  lemma EventQueries(p: Plan, l: E.Loop, ev: E.Event, inp: E.Inputs, id: string)
    requires PlanOK(p) && CacheOK(p, l.core) && id in l.core.units && (ev.BusState? ==> ev.scope in Scopes(p.c.all))
    ensures var units, units' := l.core.units, E.Handle(p, l, ev, inp).core.units;
      && id in units'
      && (Queries(l, ev, inp) ==> units' == ApplyAll(units, p.byName, ev.scope, inp.answers[ev.scope], l.env.now))
      && (!Queries(l, ev, inp) ==>
           && units'[id].known == units[id].known && units'[id].triple == units[id].triple
           && units'[id].changedAt == units[id].changedAt)
  {
    hide PlanOK, CacheOK, Apply, E.AsksRepublish, UnitByID, SelectOf, E.Schedule, E.ReconcileScope, ApplyAll, Scopes;
    match ev
    case ReconcileDue(scope) => Queried(p, l, scope, inp);
    case BusState(scope, online) =>
      var l1 := l.(core := Apply(p, l.core, BusChange(scope, online, inp.reconnects)));
      BusChangeKeeps(p, l.core, BusChange(scope, online, inp.reconnects));
      BusChangeUnits(p, l.core, scope, online, inp.reconnects);
      Queried(p, l1, scope, inp);
    case DisplayMode(mode) => DisplayUnits(p, l.core, DisplayIs(mode, inp.reconnects));
    case DisplayError => DisplayUnits(p, l.core, DisplayGone(inp.reconnects));
    case JobDone(jid, verb, result, error) =>
      JobUnits(p, l.core, jid, verb, result, error, l.env.now);
      Unscheduled(l.(core := Apply(p, l.core, JobFinished(jid, verb, result, error, l.env.now))));
    case TemplateDone(_) => Unscheduled(l);
    case Wake(scope) => Unscheduled(l.(wakePending := l.wakePending - {scope}));
    case _ =>
  }

  lemma Queried(p: Plan, l: E.Loop, scope: string, inp: E.Inputs)
    requires PlanOK(p) && CacheOK(p, l.core)
    ensures E.ReconcileScope(p, l, scope, inp).core.units ==
      if scope in l.env.buses && scope in inp.answers
      then ApplyAll(l.core.units, p.byName, scope, inp.answers[scope], l.env.now) else l.core.units
    ensures E.ReconcileScope(p, l, scope, inp).core.units.Keys == l.core.units.Keys
  {
    QueryTold(p, l, scope, inp);
    hide PlanOK, CacheOK, Reconciled, ApplyAll;
    if scope in l.env.buses && scope in inp.answers {
      ReconciledKeeps(p, l.core, scope, inp.answers[scope], l.env.now);
    }
  }

  lemma DisplayUnits(p: Plan, k: Core, op: Op)
    requires CacheOK(p, k) && (op.DisplayIs? || op.DisplayGone?)
    ensures Apply(p, k, op).units == k.units
  {
    hide CacheOK, Apply;
    DisplayKeeps(p, k, op);
  }

  lemma JobUnits(p: Plan, k: Core, id: string, verb: string, result: string, error: string, now: nat)
    ensures var units' := Apply(p, k, JobFinished(id, verb, result, error, now)).units;
      units'.Keys == k.units.Keys && forall i :: i in k.units ==> SameButJob(k.units[i], units'[i]) && units'[i].changedAt == k.units[i].changedAt
  {
    hide Put, UnitMsgs;
    if id in k.units {
      var k1 := k.(units := k.units[id := WithJob(k.units[id], verb, result, error, now)]);
      PutUnits(k1, UnitMsgs(p, k1.units[id]), false);
    }
  }
}
