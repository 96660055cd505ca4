/** The last-payload cache of the publisher, against rendering everything from the current state. */
module PublishCache {
  import opened Text
  import opened Config
  import opened StatusMapping
  import opened UnitState
  import opened Topics

  datatype Msg = Msg(topic: Topic, payload: string)

  /** The JSON encoders and the other payload texts that do not depend on the loop's branches. */
  datatype Texts = Texts(attributes: Snapshot -> string, display: int -> string,
    daemon: (bool, bool, bool, nat) -> string, discovery: string)

  /** What never changes while the loop runs. */
  datatype Plan = Plan(c: Settings, byName: Index, texts: Texts)

  ghost predicate PlanOK(p: Plan) {
    Accepted(p.c) && Inverse(p.c.all, p.byName)
  }

  /** Every accepted configuration has a plan, the one that NewState makes. */
  lemma AcceptedHasPlan(c: Settings, texts: Texts)
    requires Accepted(c)
    ensures PlanOK(Plan(c, StartIndex(c.all), texts))
  {
    hide UnitsOK, Inverse, SelectPlaced, IsNodeID;
    StartIndexInverse(c.all);
  }

  const UNKNOWN: int := -1
  const MODE_ON: int := 0

  /** Everything the loop publishes from, the cache, and what went to the MQTT client. Four histories: `shown` is the mode
      last published while the display was available, `told` the reconnect count in the last diagnostics, `heard` whether
      the display ever answered or failed, and `republished` whether there ever was a full republish. */
  datatype Core = Core(units: Snapshots, bus: map<string, bool>, dispOnline: bool, dispMode: int, shown: int, told: nat,
    heard: bool, republished: bool, last: map<Topic, string>, out: seq<Msg>)

  predicate BusOn(k: Core, scope: string) { scope in k.bus && k.bus[scope] }

  predicate DisplayUp(k: Core) { k.dispOnline && k.dispMode != UNKNOWN }

  function OnlineText(on: bool): string { if on then "online" else "offline" }

  function SwitchText(on: bool): string { if on then "ON" else "OFF" }

  /** The names of Mutter's power save modes. */
  function ModeName(mode: int): string {
    match mode
    case 0 => "on"
    case 1 => "standby"
    case 2 => "suspend"
    case 3 => "off"
    case _ => "unknown"
  }

  // ----- Rendering from scratch

  /** The payload that a topic should have, from the state alone. */
  function Render(p: Plan, k: Core, t: Topic): string {
    match t
    case UnitState(id) => if id in k.units then SwitchText(IsOn(k.units[id])) else ""
    case UnitAttributes(id) => if id in k.units then p.texts.attributes(k.units[id]) else ""
    case TemplateState(id) =>
      var s := SelectOf(p.c.selects, id);
      if s.Some? then SelectCaption(k.units, s.value.options) else ""
    case BusAvailability(scope) => OnlineText(BusOn(k, scope))
    case DisplayState => SwitchText(k.shown == MODE_ON)
    case DisplayModeState => ModeName(k.shown)
    case DisplayAttributes => p.texts.display(k.shown)
    case DisplayAvailability => OnlineText(DisplayUp(k))
    case DaemonState => p.texts.daemon(BusOn(k, USER), BusOn(k, SYSTEM), DisplayUp(k), k.told)
    case Availability => "online"
    case Discovery => p.texts.discovery
    case _ => ""
  }

  predicate KnownUnit(k: Core, id: string) { id in k.units && k.units[id].known }

  predicate KnownSelect(p: Plan, k: Core, id: string) {
    var s := SelectOf(p.c.selects, id);
    s.Some? && AnyKnown(k.units, s.value.options)
  }

  predicate IsDisplayValue(t: Topic) { t.DisplayState? || t.DisplayModeState? || t.DisplayAttributes? }

  /** The topics that the cache must hold, and the only ones that it may hold: what was ever told about. */
  predicate Due(p: Plan, k: Core, t: Topic) {
    match t
    case UnitState(id) => KnownUnit(k, id)
    case UnitAttributes(id) => KnownUnit(k, id)
    case TemplateState(id) => KnownSelect(p, k, id)
    case BusAvailability(scope) => scope in Scopes(p.c.all) && (scope in k.bus || k.republished)
    case DisplayAvailability => p.c.displayEnabled && (k.heard || k.republished)
    case DaemonState => k.bus != map[] || k.heard || k.republished
    case Availability => k.republished
    case Discovery => p.c.haEnabled && k.republished
    case _ => IsDisplayValue(t) && p.c.displayEnabled && k.shown != UNKNOWN
  }

  /** While a reconcile of a scope is under way, the selects of that scope may lag behind. */
  predicate Lags(p: Plan, scope: Option<string>, t: Topic) {
    scope.Some? && t.TemplateState? &&
    var s := SelectOf(p.c.selects, t.id);
    s.Some? && s.value.scope == scope.value
  }

  /** The cache holds exactly what rendering from scratch gives, but for the selects of a lagging scope. */
  ghost predicate Agrees(p: Plan, k: Core, lag: Option<string>) {
    && (forall t :: t in k.last ==> Due(p, k, t) && (Lags(p, lag, t) || k.last[t] == Render(p, k, t)))
    && (forall t :: Due(p, k, t) && !Lags(p, lag, t) ==> t in k.last)
    && (p.c.displayEnabled && DisplayUp(k) ==> k.shown == k.dispMode)
  }

  ghost predicate CacheOK(p: Plan, k: Core) {
    HasUnits(p.c.all, k.units) && Agrees(p, k, None)
  }

  // ----- Publishing

  /** publish: a payload that the cache already holds is not sent again, unless everything is being forced out. */
  function Put1(k: Core, m: Msg, force: bool): Core {
    if !force && m.topic in k.last && k.last[m.topic] == m.payload then k
    else k.(last := k.last[m.topic := m.payload], out := k.out + [m])
  }

  function Put(k: Core, msgs: seq<Msg>, force: bool): Core {
    if msgs == [] then k else Put1(Put(k, msgs[..|msgs| - 1], force), msgs[|msgs| - 1], force)
  }

  lemma {:induction false} PutConcat(k: Core, a: seq<Msg>, b: seq<Msg>, force: bool)
    ensures Put(k, a + b, force) == Put(Put(k, a, force), b, force)
  {
    if b == [] {
      assert a + b == a;
    } else {
      PutConcat(k, a, b[..|b| - 1], force);
      assert (a + b)[..|a + b| - 1] == a + b[..|b| - 1];
    }
  }

  predicate Carries(msgs: seq<Msg>, t: Topic) { exists i :: 0 <= i < |msgs| && msgs[i].topic == t }

  ghost predicate Renders(p: Plan, k: Core, msgs: seq<Msg>) {
    forall m :: m in msgs ==> m.payload == Render(p, k, m.topic)
  }

  /** Whether or not repeated payloads are skipped, afterwards the cache holds the rendering of what was published, and
      is unchanged elsewhere. */
  lemma {:induction false} PutLast(p: Plan, k: Core, msgs: seq<Msg>, force: bool)
    requires Renders(p, k, msgs)
    ensures var k' := Put(k, msgs, force); k' == k.(last := k'.last, out := k'.out)
    ensures forall t :: t in Put(k, msgs, force).last <==> t in k.last || Carries(msgs, t)
    ensures forall t :: t in Put(k, msgs, force).last ==>
      Put(k, msgs, force).last[t] == if Carries(msgs, t) then Render(p, k, t) else k.last[t]
  {
    hide Render;
    if msgs != [] {
      var n := |msgs| - 1;
      assert msgs == msgs[..n] + [msgs[n]] && msgs[n] in msgs;
      PutLast(p, k, msgs[..n], force);
      Put1Last(Put(k, msgs[..n], force), msgs[n], force);
      assert Put(k, msgs, force) == Put1(Put(k, msgs[..n], force), msgs[n], force);
      hide Renders, Put, Put1, Carries;
      CarriesSnoc(msgs[..n], msgs[n]);
    }
  }

  lemma Put1Last(k: Core, m: Msg, force: bool)
    ensures var k' := Put1(k, m, force); k' == k.(last := k'.last, out := k'.out) && k'.last == k.last[m.topic := m.payload]
  {
  }

  lemma CarriesSnoc(msgs: seq<Msg>, m: Msg)
    ensures forall t :: Carries(msgs + [m], t) <==> Carries(msgs, t) || m.topic == t
  {
    forall t ensures Carries(msgs + [m], t) <==> Carries(msgs, t) || m.topic == t {
      var all := msgs + [m];
      assert all[|msgs|] == m && forall i :: 0 <= i < |msgs| ==> all[i] == msgs[i];
      if Carries(msgs, t) {
        var i :| 0 <= i < |msgs| && msgs[i].topic == t;
        assert all[i].topic == t;
      }
    }
  }

  lemma CarriesConcat(a: seq<Msg>, b: seq<Msg>)
    ensures forall t :: Carries(a + b, t) <==> Carries(a, t) || Carries(b, t)
  {
    forall t ensures Carries(a + b, t) <==> Carries(a, t) || Carries(b, t) {
      var all := a + b;
      assert forall i :: 0 <= i < |a| ==> all[i] == a[i];
      assert forall i :: 0 <= i < |b| ==> all[|a| + i] == b[i];
      if Carries(b, t) {
        var i :| 0 <= i < |b| && b[i].topic == t;
        assert all[|a| + i].topic == t;
      }
    }
  }

  lemma SameState(p: Plan, k: Core, k': Core)
    requires k' == k.(last := k'.last, out := k'.out)
    ensures forall t :: Render(p, k', t) == Render(p, k, t) && Due(p, k', t) == Due(p, k, t)
  {
  }

  /** A state change followed by publishing keeps the cache right, if what it publishes is rendered from the new state
      and covers every topic whose rendering changed or became due. */
  lemma PutKeeps(p: Plan, k: Core, k1: Core, msgs: seq<Msg>, force: bool, lag: Option<string>, lag': Option<string>)
    requires Agrees(p, k, lag) && k1.last == k.last
    requires Renders(p, k1, msgs) && forall t :: Carries(msgs, t) ==> Due(p, k1, t)
    requires forall t :: t in k.last ==> Due(p, k1, t)
    requires forall t :: t in k.last && !Carries(msgs, t) && !Lags(p, lag', t) ==> !Lags(p, lag, t) && Render(p, k1, t) == Render(p, k, t)
    requires forall t :: Due(p, k1, t) && !Carries(msgs, t) && !Lags(p, lag', t) ==> !Lags(p, lag, t) && Due(p, k, t)
    requires p.c.displayEnabled && DisplayUp(k1) ==> k1.shown == k1.dispMode
    ensures Agrees(p, Put(k1, msgs, force), lag')
    ensures Put(k1, msgs, force).units == k1.units
  {
    hide Render, Due, Lags;
    PutLast(p, k1, msgs, force);
    SameState(p, k1, Put(k1, msgs, force));
  }

  // ----- What each part of the loop publishes

  function UnitMsgs(p: Plan, s: Snapshot): seq<Msg> {
    if !s.known then []
    else [Msg(UnitState(s.id), SwitchText(IsOn(s))), Msg(UnitAttributes(s.id), p.texts.attributes(s))]
  }

  function SelectMsgs(units: Snapshots, s: TemplateSelect): seq<Msg> {
    if AnyKnown(units, s.options) then [Msg(TemplateState(s.id), SelectCaption(units, s.options))] else []
  }

  function BusMsgs(bus: map<string, bool>, scope: string): seq<Msg> {
    [Msg(BusAvailability(scope), OnlineText(scope in bus && bus[scope]))]
  }

  function DaemonMsgs(p: Plan, k: Core): seq<Msg> {
    [Msg(DaemonState, p.texts.daemon(BusOn(k, USER), BusOn(k, SYSTEM), DisplayUp(k), k.told))]
  }

  function DisplayMsgs(p: Plan, k: Core): seq<Msg> {
    if !p.c.displayEnabled then []
    else if !DisplayUp(k) then [Msg(DisplayAvailability, "offline")]
    else [Msg(DisplayState, SwitchText(k.dispMode == MODE_ON)), Msg(DisplayModeState, ModeName(k.dispMode)),
          Msg(DisplayAttributes, p.texts.display(k.dispMode)), Msg(DisplayAvailability, "online")]
  }

  function BusesMsgs(bus: map<string, bool>, scopes: seq<string>): seq<Msg> {
    if scopes == [] then [] else BusesMsgs(bus, scopes[..|scopes| - 1]) + BusMsgs(bus, scopes[|scopes| - 1])
  }

  function UnitsMsgs(p: Plan, units: Snapshots, us: seq<UnitConfig>): seq<Msg> {
    if us == [] then []
    else
      var id := ObjectID(us[|us| - 1]);
      UnitsMsgs(p, units, us[..|us| - 1]) + if id in units then UnitMsgs(p, units[id]) else []
  }

  /** The selects of one scope, or of all. */
  function SelectsMsgs(units: Snapshots, selects: seq<TemplateSelect>, scope: Option<string>): seq<Msg> {
    if selects == [] then []
    else
      var s := selects[|selects| - 1];
      SelectsMsgs(units, selects[..|selects| - 1], scope) + if scope.None? || s.scope == scope.value then SelectMsgs(units, s) else []
  }

  /** What a republish publishes from. */
  function Republishing(k: Core, reconnects: nat): Core { k.(told := reconnects, republished := true) }

  /** The republish before its last message. */
  function BeforeAvailability(p: Plan, k: Core): seq<Msg> {
    (if p.c.haEnabled then [Msg(Discovery, p.texts.discovery)] else [])
    + BusesMsgs(k.bus, Scopes(p.c.all)) + UnitsMsgs(p, k.units, p.c.all) + SelectsMsgs(k.units, p.c.selects, None)
    + DisplayMsgs(p, k) + DaemonMsgs(p, k)
  }

  /** Availability comes last. */
  function RepublishMsgs(p: Plan, k: Core): seq<Msg> { BeforeAvailability(p, k) + [Msg(Availability, "online")] }

  /** Discovery goes out first, when Home Assistant is enabled, and the availability of the daemon last. */
  lemma RepublishOrder(p: Plan, k: Core)
    ensures var msgs := RepublishMsgs(p, k);
      && msgs != [] && msgs[|msgs| - 1] == Msg(Availability, "online")
      && (p.c.haEnabled ==> msgs[0] == Msg(Discovery, p.texts.discovery))
  {
    hide Scopes, BusesMsgs, UnitsMsgs, SelectsMsgs, DisplayMsgs, DaemonMsgs;
  }

  /** A payload is sent exactly when it is forced out or differs from the cached one. */
  lemma SentIffNew(k: Core, m: Msg, force: bool)
    ensures Put1(k, m, force).out == k.out + if force || m.topic !in k.last || k.last[m.topic] != m.payload then [m] else []
    ensures m.topic in Put1(k, m, force).last && Put1(k, m, force).last[m.topic] == m.payload
  {
  }

  // ----- The operations of the loop on its state

  datatype Op = BusChange(scope: string, online: bool, reconnects: nat) | DisplayIs(mode: int, reconnects: nat)
    | DisplayGone(reconnects: nat) | JobFinished(id: string, verb: string, result: string, error: string, now: nat)
    | Reconcile(scope: string, answer: seq<Status>, now: nat) | Republish(reconnects: nat)

  function ApplyStatus(p: Plan, k: Core, scope: string, st: Status, now: nat): Core {
    var key := Key(scope, st.name);
    if key in p.byName && p.byName[key] in k.units then
      var k1 := k.(units := ApplyOne(k.units, p.byName, scope, st, now));
      Put(k1, UnitMsgs(p, k1.units[p.byName[key]]), false)
    else k
  }

  function ApplyStatuses(p: Plan, k: Core, scope: string, sts: seq<Status>, now: nat): Core {
    if sts == [] then k
    else ApplyStatus(p, ApplyStatuses(p, k, scope, sts[..|sts| - 1], now), scope, sts[|sts| - 1], now)
  }

  function Reconciled(p: Plan, k: Core, scope: string, sts: seq<Status>, now: nat): Core {
    var k1 := ApplyStatuses(p, k, scope, sts, now);
    Put(k1, SelectsMsgs(k1.units, p.c.selects, Some(scope)), false)
  }

  function Apply(p: Plan, k: Core, op: Op): Core {
    match op
    case BusChange(scope, online, reconnects) =>
      var k1 := k.(bus := k.bus[scope := online], told := reconnects);
      Put(k1, BusMsgs(k1.bus, scope) + DaemonMsgs(p, k1), false)
    case DisplayIs(mode, reconnects) =>
      var k1 := k.(dispOnline := true, dispMode := mode, told := reconnects, heard := true,
        shown := if p.c.displayEnabled && mode != UNKNOWN then mode else k.shown);
      Put(k1, DisplayMsgs(p, k1) + DaemonMsgs(p, k1), false)
    case DisplayGone(reconnects) =>
      var k1 := k.(dispOnline := false, told := reconnects, heard := true);
      Put(k1, DisplayMsgs(p, k1) + DaemonMsgs(p, k1), false)
    case JobFinished(id, verb, result, error, now) =>
      if id !in k.units then k
      else
        var k1 := k.(units := k.units[id := WithJob(k.units[id], verb, result, error, now)]);
        Put(k1, UnitMsgs(p, k1.units[id]), false)
    case Reconcile(scope, sts, now) => Reconciled(p, k, scope, sts, now)
    case Republish(reconnects) =>
      var k1 := Republishing(k, reconnects);
      Put(k1, RepublishMsgs(p, k1), true)
  }

  /** A supervisor exists for each scope of the configuration only. */
  predicate Possible(p: Plan, op: Op) {
    op.BusChange? ==> op.scope in Scopes(p.c.all)
  }

  // ----- The operations keep the cache right

  /** Two versions of the snapshots that agree on the state of a select's units show the same select. */
  lemma {:induction false} CaptionSame(units: Snapshots, units': Snapshots, options: seq<SelectOption>)
    requires forall i :: 0 <= i < |options| ==>
      var id := options[i].unitID;
      (id in units <==> id in units') && (id in units ==> units[id].known == units'[id].known && units[id].triple == units'[id].triple)
    ensures AnyKnown(units, options) == AnyKnown(units', options)
    ensures ActiveCaptions(units, options) == ActiveCaptions(units', options)
  {
    if options != [] {
      var n := |options| - 1;
      CaptionSame(units, units', options[..n]);
    }
  }

  /** The units of a select's options are in the select's own scope. */
  lemma OptionScope(p: Plan, units: Snapshots, s: TemplateSelect, i: nat)
    requires PlanOK(p) && HasUnits(p.c.all, units) && s in p.c.selects && i < |s.options|
    ensures s.options[i].unitID in units && units[s.options[i].unitID].scope == s.scope
  {
    hide ObjectID, UnitsOK, IsNodeID, Inverse;
    var j :| 0 <= j < |p.c.selects| && p.c.selects[j] == s;
    assert SelectPlaced(p.c.all, s);
    var off: nat :| Placed(p.c.all, s, off);
    var u := p.c.all[off + i];
    assert ObjectID(u) == s.options[i].unitID && u.scope == s.scope;
    assert Key(units[ObjectID(u)].scope, units[ObjectID(u)].name) == KeyOf(u);
  }

  /** An answer for one scope leaves the selects of the other scope as they were. */
  lemma OtherSelects(p: Plan, k: Core, units': Snapshots, scope: string, id: string)
    requires PlanOK(p) && HasUnits(p.c.all, k.units) && Advances(k.units, units', scope)
    requires SelectOf(p.c.selects, id).Some? && SelectOf(p.c.selects, id).value.scope != scope
    ensures var s := SelectOf(p.c.selects, id).value;
      && AnyKnown(k.units, s.options) == AnyKnown(units', s.options)
      && SelectCaption(k.units, s.options) == SelectCaption(units', s.options)
  {
    var s := SelectOf(p.c.selects, id).value;
    hide PlanOK, HasUnits, SelectOf;
    forall i | 0 <= i < |s.options|
      ensures s.options[i].unitID in k.units && k.units[s.options[i].unitID] == units'[s.options[i].unitID]
    {
      OptionScope(p, k.units, s, i);
    }
    CaptionSame(k.units, units', s.options);
  }

  lemma KnownSelectGrows(units: Snapshots, units': Snapshots, options: seq<SelectOption>, scope: string)
    requires Advances(units, units', scope) && AnyKnown(units, options)
    ensures AnyKnown(units', options)
  {
    var i :| 0 <= i < |options| && options[i].unitID in units && units[options[i].unitID].known;
    assert units'[options[i].unitID].known;
  }

  lemma UnitMsgsCarry(p: Plan, s: Snapshot, t: Topic)
    ensures Carries(UnitMsgs(p, s), t) <==> s.known && (t == UnitState(s.id) || t == UnitAttributes(s.id))
  {
    if s.known {
      assert UnitMsgs(p, s)[0].topic == UnitState(s.id) && UnitMsgs(p, s)[1].topic == UnitAttributes(s.id);
    }
  }

  predicate OfUnit(t: Topic, id: string) { t == UnitState(id) || t == UnitAttributes(id) }

  /** An answer about one unit changes the rendering of that unit's topics only, apart from the lagging selects. */
  lemma AnswerEffect(p: Plan, k: Core, k1: Core, scope: string, id: string, t: Topic)
    requires PlanOK(p) && HasUnits(p.c.all, k.units) && Advances(k.units, k1.units, scope) && k1 == k.(units := k1.units)
    requires forall u :: u in k.units && u != id ==> k1.units[u] == k.units[u]
    ensures Due(p, k, t) ==> Due(p, k1, t)
    ensures !OfUnit(t, id) && !Lags(p, Some(scope), t) ==> Render(p, k1, t) == Render(p, k, t) && Due(p, k1, t) == Due(p, k, t)
  {
    hide PlanOK, HasUnits, SelectOf, SelectCaption, AnyKnown, Scopes, Advances;
    if t.TemplateState? {
      SelectEffect(p, k, k1, scope, t.id);
    } else if t.UnitState? || t.UnitAttributes? {
      UnitEffect(k, k1, scope, t.id);
    }
  }

  lemma UnitEffect(k: Core, k1: Core, scope: string, id: string)
    requires Advances(k.units, k1.units, scope)
    ensures KnownUnit(k, id) ==> KnownUnit(k1, id)
    ensures id in k1.units <==> id in k.units
  {
    assert k1.units.Keys == k.units.Keys;
  }

  lemma SelectEffect(p: Plan, k: Core, k1: Core, scope: string, id: string)
    requires PlanOK(p) && HasUnits(p.c.all, k.units) && Advances(k.units, k1.units, scope)
    ensures KnownSelect(p, k, id) ==> KnownSelect(p, k1, id)
    ensures !Lags(p, Some(scope), TemplateState(id)) ==> KnownSelect(p, k1, id) == KnownSelect(p, k, id)
    ensures !Lags(p, Some(scope), TemplateState(id)) ==> Render(p, k1, TemplateState(id)) == Render(p, k, TemplateState(id))
  {
    hide PlanOK, HasUnits, SelectOf, SelectCaption, AnyKnown, Advances;
    if SelectOf(p.c.selects, id).Some? {
      if KnownSelect(p, k, id) {
        KnownSelectGrows(k.units, k1.units, SelectOf(p.c.selects, id).value.options, scope);
      }
      if !Lags(p, Some(scope), TemplateState(id)) {
        OtherSelects(p, k, k1.units, scope, id);
      }
    }
  }

  lemma UnitMsgsRender(p: Plan, k: Core, id: string)
    requires KnownUnit(k, id) && k.units[id].id == id
    ensures Renders(p, k, UnitMsgs(p, k.units[id]))
    ensures forall t :: Carries(UnitMsgs(p, k.units[id]), t) <==> OfUnit(t, id)
    ensures Due(p, k, UnitState(id)) && Due(p, k, UnitAttributes(id))
  {
    forall t ensures Carries(UnitMsgs(p, k.units[id]), t) <==> OfUnit(t, id) {
      UnitMsgsCarry(p, k.units[id], t);
    }
  }

  lemma AnswerKeeps(p: Plan, k: Core, k1: Core, scope: string, id: string)
    requires PlanOK(p) && HasUnits(p.c.all, k.units) && Advances(k.units, k1.units, scope) && k1 == k.(units := k1.units)
    requires forall u :: u in k.units && u != id ==> k1.units[u] == k.units[u]
    requires KnownUnit(k1, id) && k1.units[id].id == id
    requires Agrees(p, k, Some(scope))
    ensures Agrees(p, Put(k1, UnitMsgs(p, k1.units[id]), false), Some(scope))
  {
    hide PlanOK, HasUnits, Advances, Render, Due, Lags, Carries, UnitMsgs, Renders;
    UnitMsgsRender(p, k1, id);
    forall t
      ensures Due(p, k, t) ==> Due(p, k1, t)
      ensures !OfUnit(t, id) && !Lags(p, Some(scope), t) ==> Render(p, k1, t) == Render(p, k, t) && Due(p, k1, t) == Due(p, k, t)
    {
      AnswerEffect(p, k, k1, scope, id, t);
    }
    PutKeeps(p, k, k1, UnitMsgs(p, k1.units[id]), false, Some(scope), Some(scope));
  }

  lemma ApplyStatusKeeps(p: Plan, k: Core, scope: string, st: Status, now: nat)
    requires PlanOK(p) && HasUnits(p.c.all, k.units) && Agrees(p, k, Some(scope))
    ensures var k' := ApplyStatus(p, k, scope, st, now);
      && k'.units == ApplyOne(k.units, p.byName, scope, st, now)
      && HasUnits(p.c.all, k'.units) && Agrees(p, k', Some(scope))
  {
    hide Agrees, HasUnits, Accepted, Inverse, Advances, Put, UnitMsgs, OfUnit;
    var key := Key(scope, st.name);
    if key in p.byName && p.byName[key] in k.units {
      var id := p.byName[key];
      var k1 := k.(units := ApplyOne(k.units, p.byName, scope, st, now));
      ApplyOneAdvances(p.c.all, k.units, p.byName, scope, st, now);
      HasUnitsKept(p.c.all, k.units, k1.units, scope);
      HasID(p.c.all, k.units, id);
      AnswerKeeps(p, k, k1, scope, id);
      PutUnits(k1, UnitMsgs(p, k1.units[id]), false);
    }
  }

  lemma HasID(us: seq<UnitConfig>, units: Snapshots, id: string)
    requires HasUnits(us, units) && id in units
    ensures units[id].id == id
  {
  }

  lemma {:induction false} PutUnits(k: Core, msgs: seq<Msg>, force: bool)
    ensures Put(k, msgs, force) == k.(last := Put(k, msgs, force).last, out := Put(k, msgs, force).out)
  {
    if msgs != [] {
      PutUnits(k, msgs[..|msgs| - 1], force);
    }
  }

  lemma BusChangeUnits(p: Plan, k: Core, scope: string, online: bool, reconnects: nat)
    ensures Apply(p, k, BusChange(scope, online, reconnects)).units == k.units
  {
    hide Put, BusMsgs, DaemonMsgs;
    var k1 := k.(bus := k.bus[scope := online], told := reconnects);
    PutUnits(k1, BusMsgs(k1.bus, scope) + DaemonMsgs(p, k1), false);
  }

  lemma {:induction false} ApplyStatusesKeeps(p: Plan, k: Core, scope: string, sts: seq<Status>, now: nat)
    requires PlanOK(p) && HasUnits(p.c.all, k.units) && Agrees(p, k, Some(scope))
    ensures var k' := ApplyStatuses(p, k, scope, sts, now);
      && k'.units == ApplyAll(k.units, p.byName, scope, sts, now)
      && HasUnits(p.c.all, k'.units) && Agrees(p, k', Some(scope))
  {
    hide PlanOK, Agrees, HasUnits, ApplyStatus, ApplyOne;
    if sts != [] {
      ApplyStatusesKeeps(p, k, scope, sts[..|sts| - 1], now);
      ApplyStatusKeeps(p, ApplyStatuses(p, k, scope, sts[..|sts| - 1], now), scope, sts[|sts| - 1], now);
    }
  }

  lemma {:induction false} SelectsMsgsCarry(p: Plan, k: Core, selects: seq<TemplateSelect>, scope: Option<string>)
    requires DistinctSelects(p.c.selects) && forall s :: s in selects ==> s in p.c.selects
    ensures Renders(p, k, SelectsMsgs(k.units, selects, scope))
    ensures forall t :: Carries(SelectsMsgs(k.units, selects, scope), t) <==>
      t.TemplateState? && exists s :: s in selects && s.id == t.id && (scope.None? || s.scope == scope.value) && AnyKnown(k.units, s.options)
  {
    if selects != [] {
      var n := |selects| - 1;
      var before, s := selects[..n], selects[n];
      assert selects == before + [s] && s in selects;
      SelectsMsgsCarry(p, k, before, scope);
      hide DistinctSelects, SelectOf, SelectCaption, AnyKnown, Carries, Renders;
      var step := if scope.None? || s.scope == scope.value then SelectMsgs(k.units, s) else [];
      SelectStep(p, k, s, scope);
      assert SelectsMsgs(k.units, selects, scope) == SelectsMsgs(k.units, before, scope) + step;
      hide SelectsMsgs, SelectMsgs;
      CarriesConcat(SelectsMsgs(k.units, before, scope), step);
      RendersConcat(p, k, SelectsMsgs(k.units, before, scope), step);
    } else {
      assert forall t :: !Carries([], t);
    }
  }

  lemma RendersConcat(p: Plan, k: Core, a: seq<Msg>, b: seq<Msg>)
    requires Renders(p, k, a) && Renders(p, k, b)
    ensures Renders(p, k, a + b)
  {
    hide Render;
  }

  /** What one select adds. */
  lemma SelectStep(p: Plan, k: Core, s: TemplateSelect, scope: Option<string>)
    requires DistinctSelects(p.c.selects) && s in p.c.selects
    ensures var step := if scope.None? || s.scope == scope.value then SelectMsgs(k.units, s) else [];
      && Renders(p, k, step)
      && forall t :: Carries(step, t) <==>
           t == TemplateState(s.id) && (scope.None? || s.scope == scope.value) && AnyKnown(k.units, s.options)
  {
    SelectOfMember(p.c.selects, s);
    hide DistinctSelects, SelectOf, SelectCaption, AnyKnown, Carries;
    var step := if scope.None? || s.scope == scope.value then SelectMsgs(k.units, s) else [];
    forall t ensures Carries(step, t) <==>
      t == TemplateState(s.id) && (scope.None? || s.scope == scope.value) && AnyKnown(k.units, s.options)
    {
      CarriesShort(step, t);
    }
  }

  lemma CarriesShort(msgs: seq<Msg>, t: Topic)
    requires |msgs| <= 1
    ensures Carries(msgs, t) <==> msgs != [] && msgs[0].topic == t
  {
  }

  /** After the answer's statuses, publishing the selects of the scope settles what lagged. */
  lemma LagSettled(p: Plan, k: Core, scope: string, t: Topic)
    requires PlanOK(p)
    ensures var msgs := SelectsMsgs(k.units, p.c.selects, Some(scope));
      && Renders(p, k, msgs)
      && (Carries(msgs, t) ==> Due(p, k, t))
      && (Lags(p, Some(scope), t) && KnownSelect(p, k, t.id) ==> Carries(msgs, t))
  {
    hide Inverse, UnitsOK, SelectPlaced, AnyKnown, SelectsMsgs;
    SelectsMsgsCarry(p, k, p.c.selects, Some(scope));
    if Carries(SelectsMsgs(k.units, p.c.selects, Some(scope)), t) {
      var s :| s in p.c.selects && s.id == t.id && s.scope == scope && AnyKnown(k.units, s.options);
      SelectOfMember(p.c.selects, s);
    }
  }

  lemma ReconciledKeeps(p: Plan, k: Core, scope: string, sts: seq<Status>, now: nat)
    requires PlanOK(p) && CacheOK(p, k)
    ensures CacheOK(p, Reconciled(p, k, scope, sts, now))
    ensures Reconciled(p, k, scope, sts, now).units == ApplyAll(k.units, p.byName, scope, sts, now)
  {
    var k1 := ApplyStatuses(p, k, scope, sts, now);
    hide PlanOK, HasUnits, ApplyStatuses, ApplyAll, Agrees, SelectsMsgs;
    LagStarts(p, k, scope);
    ApplyStatusesKeeps(p, k, scope, sts, now);
    SettleKeeps(p, k1, scope);
    PutUnits(k1, SelectsMsgs(k1.units, p.c.selects, Some(scope)), false);
    hide Put;
  }

  lemma LagStarts(p: Plan, k: Core, scope: string)
    requires Agrees(p, k, None)
    ensures Agrees(p, k, Some(scope))
  {
    hide Render, Due;
    NoLag(p);
  }

  lemma SettleKeeps(p: Plan, k: Core, scope: string)
    requires PlanOK(p) && Agrees(p, k, Some(scope))
    ensures Agrees(p, Put(k, SelectsMsgs(k.units, p.c.selects, Some(scope)), false), None)
  {
    var msgs := SelectsMsgs(k.units, p.c.selects, Some(scope));
    hide PlanOK, SelectsMsgs, Carries, Renders, Render, KnownSelect, Lags, Due;
    LagSettled(p, k, scope, Availability);
    forall t
      ensures Carries(msgs, t) ==> Due(p, k, t)
      ensures Lags(p, Some(scope), t) && Due(p, k, t) ==> Carries(msgs, t)
    {
      LagSettled(p, k, scope, t);
      LagKnown(p, k, scope, t);
    }
    NoLag(p);
    PutKeeps(p, k, k, msgs, false, Some(scope), None);
  }

  lemma LagKnown(p: Plan, k: Core, scope: string, t: Topic)
    ensures Lags(p, Some(scope), t) ==> t.TemplateState? && (Due(p, k, t) ==> KnownSelect(p, k, t.id))
  {
    hide KnownSelect, SelectOf;
  }

  /** One topic under a state change that is followed by publishing: it stays allowed, and unless it is published its
      rendering stands and it did not become due. */
  ghost predicate TopicOK(p: Plan, k: Core, k1: Core, msgs: seq<Msg>, t: Topic) {
    && (Due(p, k, t) ==> Due(p, k1, t))
    && (if Carries(msgs, t) then Due(p, k1, t)
        else (Due(p, k, t) ==> Render(p, k1, t) == Render(p, k, t)) && (Due(p, k1, t) ==> Due(p, k, t)))
  }

  lemma ChangeKeeps(p: Plan, k: Core, k1: Core, msgs: seq<Msg>, force: bool)
    requires CacheOK(p, k) && k1.last == k.last && HasUnits(p.c.all, k1.units)
    requires Renders(p, k1, msgs) && forall t :: TopicOK(p, k, k1, msgs, t)
    requires p.c.displayEnabled && DisplayUp(k1) ==> k1.shown == k1.dispMode
    ensures CacheOK(p, Put(k1, msgs, force)) && Put(k1, msgs, force).units == k1.units
  {
    hide HasUnits, Render, Due, Lags, Carries, Renders;
    NoLag(p);
    forall t
      ensures Due(p, k, t) ==> Due(p, k1, t)
      ensures if Carries(msgs, t) then Due(p, k1, t)
              else (Due(p, k, t) ==> Render(p, k1, t) == Render(p, k, t)) && (Due(p, k1, t) ==> Due(p, k, t))
    {
      assert TopicOK(p, k, k1, msgs, t);
    }
    PutKeeps(p, k, k1, msgs, force, None, None);
  }

  /** Only one bus changed. */
  ghost predicate OthersStand(k: Core, k1: Core, scope: string) {
    && k.bus.Keys <= k1.bus.Keys
    && forall s :: s != scope ==> BusOn(k1, s) == BusOn(k, s) && (s in k1.bus <==> s in k.bus)
  }

  lemma BusTopicOK(p: Plan, k: Core, k1: Core, scope: string, t: Topic)
    requires k1 == k.(bus := k1.bus, told := k1.told) && scope in k1.bus && OthersStand(k, k1, scope)
    requires scope in Scopes(p.c.all)
    ensures TopicOK(p, k, k1, BusMsgs(k1.bus, scope) + DaemonMsgs(p, k1), t)
    ensures Renders(p, k1, BusMsgs(k1.bus, scope) + DaemonMsgs(p, k1))
  {
    hide Scopes, SelectOf, SelectCaption, AnyKnown, ModeName;
    CarriesConcat(BusMsgs(k1.bus, scope), DaemonMsgs(p, k1));
    CarriesShort(BusMsgs(k1.bus, scope), t);
    CarriesShort(DaemonMsgs(p, k1), t);
    hide Carries;
  }

  lemma BusMoved(k: Core, scope: string, online: bool, reconnects: nat)
    ensures OthersStand(k, k.(bus := k.bus[scope := online], told := reconnects), scope)
  {
  }

  lemma BusChangeKeeps(p: Plan, k: Core, op: Op)
    requires CacheOK(p, k) && op.BusChange? && Possible(p, op)
    ensures CacheOK(p, Apply(p, k, op)) && Apply(p, k, op).units == k.units
  {
    var k1 := k.(bus := k.bus[op.scope := op.online], told := op.reconnects);
    var msgs := BusMsgs(k1.bus, op.scope) + DaemonMsgs(p, k1);
    hide CacheOK, HasUnits, Scopes, TopicOK, Renders, BusMsgs, DaemonMsgs, Put, IsScope, Render;
    hide OthersStand;
    BusMoved(k, op.scope, op.online, op.reconnects);
    CacheFacts(p, k);
    BusTopicOK(p, k, k1, op.scope, Availability);
    forall t ensures TopicOK(p, k, k1, msgs, t) {
      BusTopicOK(p, k, k1, op.scope, t);
    }
    ChangeKeeps(p, k, k1, msgs, false);
  }

  lemma CacheFacts(p: Plan, k: Core)
    requires CacheOK(p, k)
    ensures HasUnits(p.c.all, k.units)
    ensures p.c.displayEnabled && DisplayUp(k) ==> k.shown == k.dispMode
  {
  }

  lemma DisplayMsgsCarry(p: Plan, k: Core, t: Topic)
    ensures Carries(DisplayMsgs(p, k), t) <==> p.c.displayEnabled && (t.DisplayAvailability? || (IsDisplayValue(t) && DisplayUp(k)))
  {
    var m := DisplayMsgs(p, k);
    if p.c.displayEnabled {
      if DisplayUp(k) {
        assert m[0].topic == DisplayState && m[1].topic == DisplayModeState && m[2].topic == DisplayAttributes;
        assert m[3].topic == DisplayAvailability;
      } else {
        assert m[0].topic == DisplayAvailability;
      }
    }
  }

  lemma DisplayTopicOK(p: Plan, k: Core, k1: Core, t: Topic)
    requires k1 == k.(dispOnline := k1.dispOnline, dispMode := k1.dispMode, told := k1.told, shown := k1.shown, heard := true)
    requires k1.shown == if p.c.displayEnabled && DisplayUp(k1) then k1.dispMode else k.shown
    ensures TopicOK(p, k, k1, DisplayMsgs(p, k1) + DaemonMsgs(p, k1), t)
    ensures Renders(p, k1, DisplayMsgs(p, k1) + DaemonMsgs(p, k1))
  {
    hide SelectOf, SelectCaption, AnyKnown, Scopes, Carries, ModeName;
    CarriesConcat(DisplayMsgs(p, k1), DaemonMsgs(p, k1));
    DisplayMsgsCarry(p, k1, t);
    DaemonCarries(p, k1, t);
  }

  lemma DisplayKeeps(p: Plan, k: Core, op: Op)
    requires CacheOK(p, k) && (op.DisplayIs? || op.DisplayGone?)
    ensures CacheOK(p, Apply(p, k, op)) && Apply(p, k, op).units == k.units
  {
    hide CacheOK, HasUnits, TopicOK, Renders, DisplayMsgs, DaemonMsgs, Put;
    var k1 := if op.DisplayGone? then k.(dispOnline := false, told := op.reconnects, heard := true)
      else k.(dispOnline := true, dispMode := op.mode, told := op.reconnects, heard := true,
        shown := if p.c.displayEnabled && op.mode != UNKNOWN then op.mode else k.shown);
    CacheFacts(p, k);
    DisplayTopicOK(p, k, k1, Availability);
    forall t ensures TopicOK(p, k, k1, DisplayMsgs(p, k1) + DaemonMsgs(p, k1), t) {
      DisplayTopicOK(p, k, k1, t);
    }
    ChangeKeeps(p, k, k1, DisplayMsgs(p, k1) + DaemonMsgs(p, k1), false);
  }

  lemma DaemonCarries(p: Plan, k: Core, t: Topic)
    ensures Carries(DaemonMsgs(p, k), t) <==> t == DaemonState
  {
    CarriesShort(DaemonMsgs(p, k), t);
  }

  /** The snapshots before and after a job result agree on everything but the job. */
  lemma JobEffect(p: Plan, k: Core, k1: Core, id: string, t: Topic)
    requires id in k.units && k1.units.Keys == k.units.Keys && k1 == k.(units := k1.units)
    requires forall u :: u in k.units && u != id ==> k1.units[u] == k.units[u]
    requires SameButJob(k.units[id], k1.units[id])
    ensures Due(p, k1, t) == Due(p, k, t)
    ensures t != UnitAttributes(id) ==> Render(p, k1, t) == Render(p, k, t)
  {
    hide SelectOf, Scopes, ActiveCaptions;
    if t.TemplateState? && SelectOf(p.c.selects, t.id).Some? {
      CaptionSame(k.units, k1.units, SelectOf(p.c.selects, t.id).value.options);
    }
  }

  lemma JobTopicOK(p: Plan, k: Core, k1: Core, id: string, t: Topic)
    requires id in k.units && k1.units.Keys == k.units.Keys && k1 == k.(units := k1.units) && k.units[id].id == id
    requires forall u :: u in k.units && u != id ==> k1.units[u] == k.units[u]
    requires SameButJob(k.units[id], k1.units[id])
    ensures TopicOK(p, k, k1, UnitMsgs(p, k1.units[id]), t)
    ensures Renders(p, k1, UnitMsgs(p, k1.units[id]))
  {
    JobEffect(p, k, k1, id, t);
    JobPublishes(p, k, k1, id);
    hide Render, Due, Carries, UnitMsgs, Renders;
    assert k1.units[id].known || !Due(p, k, UnitAttributes(id));
    hide Due;
  }

  ghost predicate SameButJob(s: Snapshot, s': Snapshot) {
    (s'.id, s'.name, s'.scope, s'.known, s'.triple) == (s.id, s.name, s.scope, s.known, s.triple)
  }

  lemma JobKeeps(p: Plan, k: Core, op: Op)
    requires CacheOK(p, k) && op.JobFinished?
    ensures CacheOK(p, Apply(p, k, op)) && Apply(p, k, op).units.Keys == k.units.Keys
    ensures forall id :: id in k.units ==> SameButJob(k.units[id], Apply(p, k, op).units[id])
  {
    hide CacheOK, HasUnits, TopicOK, Renders, UnitMsgs, Put;
    var id := op.id;
    if id in k.units {
      var k1 := k.(units := k.units[id := WithJob(k.units[id], op.verb, op.result, op.error, op.now)]);
      CacheFacts(p, k);
      HasID(p.c.all, k.units, id);
      HasUnitsKept(p.c.all, k.units, k1.units, k.units[id].scope);
      JobTopicOK(p, k, k1, id, Availability);
      forall t ensures TopicOK(p, k, k1, UnitMsgs(p, k1.units[id]), t) {
        JobTopicOK(p, k, k1, id, t);
      }
      ChangeKeeps(p, k, k1, UnitMsgs(p, k1.units[id]), false);
    }
  }

  lemma JobPublishes(p: Plan, k: Core, k1: Core, id: string)
    requires id in k1.units && id in k.units && k1.units[id].id == id && k1.units[id].known == k.units[id].known
    ensures var msgs := UnitMsgs(p, k1.units[id]);
      && Renders(p, k1, msgs)
      && (forall t :: Carries(msgs, t) ==> Due(p, k1, t))
      && (Carries(msgs, UnitAttributes(id)) || !Due(p, k, UnitAttributes(id)))
  {
    if k1.units[id].known {
      UnitMsgsRender(p, k1, id);
    }
  }

  lemma NoLag(p: Plan)
    ensures forall t :: !Lags(p, None, t)
  {
  }

  // ----- The full republish

  /** What one full republish sends: all that is due by then, except that an unavailable display keeps its old values. */
  predicate Covered(p: Plan, k: Core, t: Topic) {
    match t
    case BusAvailability(scope) => scope in Scopes(p.c.all)
    case DisplayAvailability => p.c.displayEnabled
    case DaemonState => true
    case Availability => true
    case Discovery => p.c.haEnabled
    case _ => Due(p, k, t) && (IsDisplayValue(t) ==> DisplayUp(k))
  }

  lemma {:induction false} BusesMsgsCarry(p: Plan, k: Core, scopes: seq<string>)
    ensures Renders(p, k, BusesMsgs(k.bus, scopes))
    ensures forall t :: Carries(BusesMsgs(k.bus, scopes), t) <==> t.BusAvailability? && t.scope in scopes
  {
    if scopes != [] {
      var n := |scopes| - 1;
      BusesMsgsCarry(p, k, scopes[..n]);
      assert scopes == scopes[..n] + [scopes[n]];
      var step := BusMsgs(k.bus, scopes[n]);
      CarriesConcat(BusesMsgs(k.bus, scopes[..n]), step);
      hide Carries;
      forall t ensures Carries(step, t) <==> t == BusAvailability(scopes[n]) {
        CarriesShort(step, t);
      }
    }
  }

  lemma {:induction false} UnitsMsgsCarry(p: Plan, k: Core, us: seq<UnitConfig>)
    requires forall id :: id in k.units ==> k.units[id].id == id
    ensures Renders(p, k, UnitsMsgs(p, k.units, us))
    ensures forall t :: Carries(UnitsMsgs(p, k.units, us), t) <==>
      exists i :: 0 <= i < |us| && KnownUnit(k, ObjectID(us[i])) && OfUnit(t, ObjectID(us[i]))
  {
    hide ObjectID, Carries, Render;
    if us == [] {
      NothingCarried();
    } else {
      var n := |us| - 1;
      UnitsMsgsCarry(p, k, us[..n]);
      var id := ObjectID(us[n]);
      var step := if id in k.units then UnitMsgs(p, k.units[id]) else [];
      UnitStep(p, k, id, step);
      CarriesConcat(UnitsMsgs(p, k.units, us[..n]), step);
      forall t ensures (exists i :: 0 <= i < |us| && KnownUnit(k, ObjectID(us[i])) && OfUnit(t, ObjectID(us[i]))) <==>
        (exists i :: 0 <= i < n && KnownUnit(k, ObjectID(us[..n][i])) && OfUnit(t, ObjectID(us[..n][i]))) || (KnownUnit(k, id) && OfUnit(t, id))
      {
        assert forall i :: 0 <= i < n ==> us[..n][i] == us[i];
      }
    }
  }

  lemma NothingCarried()
    ensures forall t :: !Carries([], t)
  {
  }

  lemma UnitStep(p: Plan, k: Core, id: string, step: seq<Msg>)
    requires id in k.units ==> k.units[id].id == id
    requires step == if id in k.units then UnitMsgs(p, k.units[id]) else []
    ensures Renders(p, k, step) && forall t :: Carries(step, t) <==> KnownUnit(k, id) && OfUnit(t, id)
  {
    if KnownUnit(k, id) {
      UnitMsgsRender(p, k, id);
    }
  }

  lemma KnownUnitsCarried(p: Plan, k: Core, t: Topic)
    requires HasUnits(p.c.all, k.units)
    ensures Renders(p, k, UnitsMsgs(p, k.units, p.c.all))
    ensures Carries(UnitsMsgs(p, k.units, p.c.all), t) <==> (t.UnitState? || t.UnitAttributes?) && KnownUnit(k, t.id)
  {
    hide ObjectID, Carries, Renders, UnitsMsgs;
    UnitsMsgsCarry(p, k, p.c.all);
    if (t.UnitState? || t.UnitAttributes?) && KnownUnit(k, t.id) {
      var i :| 0 <= i < |p.c.all| && ObjectID(p.c.all[i]) == t.id;
      assert OfUnit(t, ObjectID(p.c.all[i]));
    }
  }

  lemma KnownSelectsCarried(p: Plan, k: Core, t: Topic)
    requires DistinctSelects(p.c.selects)
    ensures Renders(p, k, SelectsMsgs(k.units, p.c.selects, None))
    ensures Carries(SelectsMsgs(k.units, p.c.selects, None), t) <==> t.TemplateState? && KnownSelect(p, k, t.id)
  {
    hide Carries, SelectsMsgs, AnyKnown;
    SelectsMsgsCarry(p, k, p.c.selects, None);
    if Carries(SelectsMsgs(k.units, p.c.selects, None), t) {
      var s :| s in p.c.selects && s.id == t.id && AnyKnown(k.units, s.options);
      SelectOfMember(p.c.selects, s);
    }
  }

  lemma DisplayRenders(p: Plan, k: Core)
    requires p.c.displayEnabled && DisplayUp(k) ==> k.shown == k.dispMode
    ensures Renders(p, k, DisplayMsgs(p, k)) && Renders(p, k, DaemonMsgs(p, k))
  {
  }

  /** What a topic needs to be in each part of the republish. */
  ghost predicate PartsCarry(p: Plan, k: Core, d: seq<Msg>, b: seq<Msg>, u: seq<Msg>, s: seq<Msg>, t: Topic) {
    && Renders(p, k, d) && Renders(p, k, b) && Renders(p, k, u) && Renders(p, k, s)
    && (Carries(d, t) <==> p.c.haEnabled && t.Discovery?)
    && (Carries(b, t) <==> t.BusAvailability? && t.scope in Scopes(p.c.all))
    && (Carries(u, t) <==> (t.UnitState? || t.UnitAttributes?) && KnownUnit(k, t.id))
    && (Carries(s, t) <==> t.TemplateState? && KnownSelect(p, k, t.id))
  }

  lemma PartsDo(p: Plan, k: Core, t: Topic)
    requires DistinctSelects(p.c.selects) && HasUnits(p.c.all, k.units)
    ensures PartsCarry(p, k, if p.c.haEnabled then [Msg(Discovery, p.texts.discovery)] else [],
      BusesMsgs(k.bus, Scopes(p.c.all)), UnitsMsgs(p, k.units, p.c.all), SelectsMsgs(k.units, p.c.selects, None), t)
  {
    hide HasUnits, DistinctSelects, Scopes, UnitsMsgs, BusesMsgs, SelectsMsgs, KnownSelect, KnownUnit;
    var d := if p.c.haEnabled then [Msg(Discovery, p.texts.discovery)] else [];
    CarriesShort(d, t);
    assert Renders(p, k, d);
    hide Carries, Renders, Render;
    BusesMsgsCarry(p, k, Scopes(p.c.all));
    KnownUnitsCarried(p, k, t);
    KnownSelectsCarried(p, k, t);
  }

  lemma CarriedBeforeAvailability(p: Plan, k: Core, t: Topic)
    requires DistinctSelects(p.c.selects) && HasUnits(p.c.all, k.units)
    requires p.c.displayEnabled && DisplayUp(k) ==> k.shown == k.dispMode
    ensures Renders(p, k, BeforeAvailability(p, k))
    ensures Carries(BeforeAvailability(p, k), t) <==> Covered(p, k, t) && t != Availability
  {
    hide HasUnits, DistinctSelects, Scopes, UnitsMsgs, BusesMsgs, SelectsMsgs, DisplayMsgs, DaemonMsgs, KnownSelect, KnownUnit;
    hide Carries, Renders, Render;
    var d := if p.c.haEnabled then [Msg(Discovery, p.texts.discovery)] else [];
    var b, u, s := BusesMsgs(k.bus, Scopes(p.c.all)), UnitsMsgs(p, k.units, p.c.all), SelectsMsgs(k.units, p.c.selects, None);
    PartsDo(p, k, t);
    DisplayMsgsCarry(p, k, t);
    DaemonCarries(p, k, t);
    DisplayRenders(p, k);
    Join2(p, k, d, b, t);
    Join2(p, k, d + b, u, t);
    Join2(p, k, d + b + u, s, t);
    Join2(p, k, d + b + u + s, DisplayMsgs(p, k), t);
    Join2(p, k, d + b + u + s + DisplayMsgs(p, k), DaemonMsgs(p, k), t);
  }

  lemma Join2(p: Plan, k: Core, a: seq<Msg>, b: seq<Msg>, t: Topic)
    requires Renders(p, k, a) && Renders(p, k, b)
    ensures Renders(p, k, a + b) && (Carries(a + b, t) <==> Carries(a, t) || Carries(b, t))
  {
    RendersConcat(p, k, a, b);
    CarriesConcat(a, b);
  }

  lemma RepublishCarries(p: Plan, k: Core, t: Topic)
    requires DistinctSelects(p.c.selects) && HasUnits(p.c.all, k.units)
    requires p.c.displayEnabled && DisplayUp(k) ==> k.shown == k.dispMode
    ensures Renders(p, k, RepublishMsgs(p, k))
    ensures Carries(RepublishMsgs(p, k), t) <==> Covered(p, k, t)
    ensures RepublishMsgs(p, k) == BeforeAvailability(p, k) + [Msg(Availability, "online")]
  {
    CarriedBeforeAvailability(p, k, t);
    hide DistinctSelects, HasUnits, Renders, BusesMsgs, UnitsMsgs, SelectsMsgs, DisplayMsgs, DaemonMsgs;
    var last := [Msg(Availability, "online")];
    CarriesShort(last, t);
    AvailabilityRenders(p, k);
    Join2(p, k, BeforeAvailability(p, k), last, t);
  }

  lemma AvailabilityRenders(p: Plan, k: Core)
    ensures Renders(p, k, [Msg(Availability, "online")])
  {
  }

  lemma RepublishFacts(p: Plan, k: Core, reconnects: nat, t: Topic)
    requires PlanOK(p) && CacheOK(p, k)
    ensures var k1 := Republishing(k, reconnects);
      && Renders(p, k1, RepublishMsgs(p, k1))
      && (Carries(RepublishMsgs(p, k1), t) <==> Covered(p, k1, t))
      && RepublishMsgs(p, k1) == BeforeAvailability(p, k1) + [Msg(Availability, "online")]
  {
    hide CacheOK, UnitsOK, SelectPlaced, Inverse, HasUnits, Carries, Renders, RepublishMsgs, BeforeAvailability;
    CacheFacts(p, k);
    RepublishCarries(p, Republishing(k, reconnects), t);
  }

  lemma RepublishTopicOK(p: Plan, k: Core, reconnects: nat, t: Topic)
    requires PlanOK(p) && CacheOK(p, k)
    ensures TopicOK(p, k, Republishing(k, reconnects), RepublishMsgs(p, Republishing(k, reconnects)), t)
  {
    hide PlanOK, CacheOK, Carries, Renders, RepublishMsgs, BeforeAvailability, Due, Render;
    RepublishFacts(p, k, reconnects, t);
    RepublishEffect(p, k, reconnects, t);
  }

  /** What a republish itself makes due, and leaves as it was. */
  lemma RepublishEffect(p: Plan, k: Core, reconnects: nat, t: Topic)
    ensures var k1 := Republishing(k, reconnects);
      && (Due(p, k, t) ==> Due(p, k1, t)) && (Covered(p, k1, t) <==> Covered(p, k, t))
      && (Covered(p, k1, t) ==> Due(p, k1, t))
      && (Due(p, k1, t) && !Covered(p, k1, t) ==> IsDisplayValue(t) && !DisplayUp(k) && Due(p, k, t))
      && (t != DaemonState ==> Render(p, k1, t) == Render(p, k, t))
    ensures Covered(p, k, DaemonState)
  {
    hide SelectOf, SelectCaption, Scopes, AnyKnown;
  }

  lemma RepublishKeeps(p: Plan, k: Core, op: Op)
    requires PlanOK(p) && CacheOK(p, k) && op.Republish?
    ensures CacheOK(p, Apply(p, k, op)) && Apply(p, k, op).units == k.units
  {
    hide PlanOK, CacheOK, HasUnits, TopicOK, Renders, RepublishMsgs, Put;
    var k1 := Republishing(k, op.reconnects);
    CacheFacts(p, k);
    RepublishFacts(p, k, op.reconnects, Availability);
    forall t ensures TopicOK(p, k, k1, RepublishMsgs(p, k1), t) {
      RepublishTopicOK(p, k, op.reconnects, t);
    }
    ChangeKeeps(p, k, k1, RepublishMsgs(p, k1), true);
  }

  // ----- Whole runs

  lemma ApplyKeeps(p: Plan, k: Core, op: Op)
    requires PlanOK(p) && CacheOK(p, k) && Possible(p, op)
    ensures CacheOK(p, Apply(p, k, op))
  {
    hide PlanOK, CacheOK, Put;
    match op
    case BusChange(_, _, _) => BusChangeKeeps(p, k, op);
    case DisplayIs(_, _) => DisplayKeeps(p, k, op);
    case DisplayGone(_) => DisplayKeeps(p, k, op);
    case JobFinished(_, _, _, _, _) => JobKeeps(p, k, op);
    case Reconcile(scope, sts, now) => ReconciledKeeps(p, k, scope, sts, now);
    case Republish(_) => RepublishKeeps(p, k, op);
  }

  /** The start of the loop: empty snapshots and an empty cache. */
  function Start(p: Plan): Core {
    Core(StartUnits(p.c.all), map[], false, UNKNOWN, UNKNOWN, 0, false, false, map[], [])
  }

  function RunOps(p: Plan, k: Core, ops: seq<Op>): Core {
    if ops == [] then k else Apply(p, RunOps(p, k, ops[..|ops| - 1]), ops[|ops| - 1])
  }

  lemma {:induction false} StartUnitsOK(us: seq<UnitConfig>)
    requires UnitsOK(us)
    ensures HasUnits(us, StartUnits(us)) && forall id :: id in StartUnits(us) ==> !StartUnits(us)[id].known
  {
    hide ObjectID, HasUnits, UnitOK, Apart;
    if us == [] {
      NoUnits();
    } else {
      var n := |us| - 1;
      assert us == us[..n] + [us[n]];
      UnitsOKAppend(us[..n], us[n]);
      StartUnitsOK(us[..n]);
      UnitsApart(us, n);
      HasUnitsAppend(us[..n], us[n], StartUnits(us[..n]));
    }
  }

  lemma StartOK(p: Plan)
    requires PlanOK(p)
    ensures CacheOK(p, Start(p))
  {
    assert UnitsOK(p.c.all);
    hide PlanOK, HasUnits, UnitsOK, SelectOf, StartUnits, Scopes;
    StartUnitsOK(p.c.all);
    NothingDue(p, Start(p));
  }

  lemma NothingDue(p: Plan, k: Core)
    requires forall id :: id in k.units ==> !k.units[id].known
    requires k.bus == map[] && !k.dispOnline && k.shown == UNKNOWN && !k.heard && !k.republished && k.last == map[]
    ensures Agrees(p, k, None)
  {
    hide SelectOf, SelectCaption;
    forall t ensures !Due(p, k, t) {
    }
  }

  /** After every event of any run the cache holds exactly what rendering from scratch gives. */
  lemma {:induction false} CacheAlwaysRendered(p: Plan, ops: seq<Op>)
    requires PlanOK(p) && forall op :: op in ops ==> Possible(p, op)
    ensures CacheOK(p, RunOps(p, Start(p), ops))
  {
    hide PlanOK, CacheOK, Apply, Start;
    if ops == [] {
      StartOK(p);
    } else {
      CacheAlwaysRendered(p, ops[..|ops| - 1]);
      ApplyKeeps(p, RunOps(p, Start(p), ops[..|ops| - 1]), ops[|ops| - 1]);
    }
  }

  /** No command, job result, bus change, display event or republish moves the switch or the select on the broker:
      only a reconcile does. */
  lemma OnlyQueriesMoveSwitches(p: Plan, k: Core, op: Op, t: Topic)
    requires PlanOK(p) && CacheOK(p, k) && Possible(p, op) && !op.Reconcile?
    requires t.UnitState? || t.TemplateState?
    ensures var k' := Apply(p, k, op);
      (t in k'.last <==> t in k.last) && (t in k.last ==> k'.last[t] == k.last[t])
  {
    var k' := Apply(p, k, op);
    hide Apply, CacheOK, PlanOK, Render, SelectOf, AnyKnown;
    ApplyKeeps(p, k, op);
    StatesStand(p, k, op);
    SwitchRendered(p, k, t);
    SwitchRendered(p, k', t);
    SameSwitches(p, k, k', t);
  }

  lemma SameSwitches(p: Plan, k: Core, k': Core, t: Topic)
    requires t.UnitState? || t.TemplateState?
    requires k'.units.Keys == k.units.Keys && forall id :: id in k.units ==> SameButJob(k.units[id], k'.units[id])
    ensures Render(p, k', t) == Render(p, k, t)
    ensures KnownUnit(k', t.id) == KnownUnit(k, t.id) && KnownSelect(p, k', t.id) == KnownSelect(p, k, t.id)
  {
    hide SelectOf, ActiveCaptions;
    if SelectOf(p.c.selects, t.id).Some? {
      CaptionSame(k.units, k'.units, SelectOf(p.c.selects, t.id).value.options);
    }
  }

  lemma SwitchRendered(p: Plan, k: Core, t: Topic)
    requires CacheOK(p, k) && (t.UnitState? || t.TemplateState?)
    ensures t in k.last <==> if t.UnitState? then KnownUnit(k, t.id) else KnownSelect(p, k, t.id)
    ensures t in k.last ==> k.last[t] == Render(p, k, t)
  {
    hide HasUnits, KnownSelect, Render;
    NoLag(p);
  }

  lemma StatesStand(p: Plan, k: Core, op: Op)
    requires PlanOK(p) && CacheOK(p, k) && Possible(p, op) && !op.Reconcile?
    ensures var k' := Apply(p, k, op);
      k'.units.Keys == k.units.Keys && forall id :: id in k.units ==> SameButJob(k.units[id], k'.units[id])
  {
    hide PlanOK, CacheOK, Put, Apply;
    match op
    case BusChange(_, _, _) => BusChangeKeeps(p, k, op);
    case DisplayIs(_, _) => DisplayKeeps(p, k, op);
    case DisplayGone(_) => DisplayKeeps(p, k, op);
    case JobFinished(_, _, _, _, _) => JobKeeps(p, k, op);
    case Republish(_) => RepublishKeeps(p, k, op);
  }

  // ----- The broker

  /** What a broker holds after messages were delivered to it. */
  function Deliver(broker: map<Topic, string>, msgs: seq<Msg>): map<Topic, string> {
    if msgs == [] then broker
    else Deliver(broker, msgs[..|msgs| - 1])[msgs[|msgs| - 1].topic := msgs[|msgs| - 1].payload]
  }

  ghost predicate Mirrors(broker: map<Topic, string>, last: map<Topic, string>, t: Topic) {
    t in last ==> t in broker && broker[t] == last[t]
  }

  /** A forced publish sends every message, so it acts on the cache as it acts on a broker that gets them all. */
  lemma {:induction false} PutForced(k: Core, msgs: seq<Msg>)
    ensures Put(k, msgs, true).out == k.out + msgs && Put(k, msgs, true).last == Deliver(k.last, msgs)
  {
    if msgs != [] {
      PutForced(k, msgs[..|msgs| - 1]);
      assert msgs == msgs[..|msgs| - 1] + [msgs[|msgs| - 1]];
    }
  }

  lemma DeliverSnoc(broker: map<Topic, string>, msgs: seq<Msg>, m: Msg)
    ensures Deliver(broker, msgs + [m]) == Deliver(broker, msgs)[m.topic := m.payload]
  {
    assert (msgs + [m])[..|msgs|] == msgs;
  }

  /** A broker that gets all that is sent agrees with the cache, and every sent topic is cached. */
  ghost predicate InStep(k: Core, broker: map<Topic, string>) {
    && (forall t :: Mirrors(Deliver(broker, k.out), k.last, t))
    && (forall m :: m in k.out ==> m.topic in k.last)
  }

  lemma Put1InStep(k: Core, m: Msg, force: bool, broker: map<Topic, string>)
    requires InStep(k, broker)
    ensures InStep(Put1(k, m, force), broker)
  {
    hide Deliver;
    var k' := Put1(k, m, force);
    if k' != k {
      DeliverSnoc(broker, k.out, m);
      forall t ensures Mirrors(Deliver(broker, k'.out), k'.last, t) {
        assert Mirrors(Deliver(broker, k.out), k.last, t);
      }
    }
  }

  lemma {:induction false} PutInStep(k: Core, msgs: seq<Msg>, force: bool, broker: map<Topic, string>)
    requires InStep(k, broker)
    ensures InStep(Put(k, msgs, force), broker)
  {
    hide InStep, Put1;
    if msgs != [] {
      PutInStep(k, msgs[..|msgs| - 1], force, broker);
      Put1InStep(Put(k, msgs[..|msgs| - 1], force), msgs[|msgs| - 1], force, broker);
    }
  }

  lemma {:induction false} ApplyStatusesInStep(p: Plan, k: Core, scope: string, sts: seq<Status>, now: nat, broker: map<Topic, string>)
    requires InStep(k, broker)
    ensures InStep(ApplyStatuses(p, k, scope, sts, now), broker)
  {
    hide Put, UnitMsgs, Deliver;
    if sts != [] {
      ApplyStatusesInStep(p, k, scope, sts[..|sts| - 1], now, broker);
      var b, st := ApplyStatuses(p, k, scope, sts[..|sts| - 1], now), sts[|sts| - 1];
      var key := Key(scope, st.name);
      if key in p.byName && p.byName[key] in b.units {
        var b1 := b.(units := ApplyOne(b.units, p.byName, scope, st, now));
        assert InStep(b1, broker);
        hide InStep;
        PutInStep(b1, UnitMsgs(p, b1.units[p.byName[key]]), false, broker);
      }
    }
  }

  lemma OpInStep(p: Plan, k: Core, op: Op, broker: map<Topic, string>)
    requires InStep(k, broker)
    ensures InStep(Apply(p, k, op), broker)
  {
    hide Put, UnitMsgs, Deliver, ApplyStatuses, SelectsMsgs, RepublishMsgs, DisplayMsgs, DaemonMsgs, BusMsgs;
    match op
    case BusChange(scope, online, reconnects) =>
      var k1 := k.(bus := k.bus[scope := online], told := reconnects);
      PutInStep(k1, BusMsgs(k1.bus, scope) + DaemonMsgs(p, k1), false, broker);
    case DisplayIs(mode, reconnects) =>
      var k1 := k.(dispOnline := true, dispMode := mode, told := reconnects, heard := true,
        shown := if p.c.displayEnabled && mode != UNKNOWN then mode else k.shown);
      PutInStep(k1, DisplayMsgs(p, k1) + DaemonMsgs(p, k1), false, broker);
    case DisplayGone(reconnects) =>
      var k1 := k.(dispOnline := false, told := reconnects, heard := true);
      PutInStep(k1, DisplayMsgs(p, k1) + DaemonMsgs(p, k1), false, broker);
    case JobFinished(id, verb, result, error, now) =>
      if id in k.units {
        var k1 := k.(units := k.units[id := WithJob(k.units[id], verb, result, error, now)]);
        PutInStep(k1, UnitMsgs(p, k1.units[id]), false, broker);
      }
    case Reconcile(scope, sts, now) =>
      ApplyStatusesInStep(p, k, scope, sts, now, broker);
      var k1 := ApplyStatuses(p, k, scope, sts, now);
      PutInStep(k1, SelectsMsgs(k1.units, p.c.selects, Some(scope)), false, broker);
    case Republish(reconnects) =>
      var k1 := Republishing(k, reconnects);
      PutInStep(k1, RepublishMsgs(p, k1), true, broker);
  }

  /** The incremental publisher loses nothing by skipping: in any run, a broker that got everything ever sent agrees
      with the cache, and every topic ever sent is cached. */
  lemma {:induction false} IncrementalMirrors(p: Plan, ops: seq<Op>)
    ensures InStep(RunOps(p, Start(p), ops), map[])
  {
    hide Apply, Deliver;
    if ops != [] {
      IncrementalMirrors(p, ops[..|ops| - 1]);
      OpInStep(p, RunOps(p, Start(p), ops[..|ops| - 1]), ops[|ops| - 1], map[]);
    }
  }

  lemma DeliverLast(p: Plan, k: Core, msgs: seq<Msg>, broker: map<Topic, string>, t: Topic)
    requires Renders(p, k, msgs)
    ensures t in Deliver(broker, msgs) <==> t in broker || Carries(msgs, t)
    ensures t in Deliver(broker, msgs) ==> Deliver(broker, msgs)[t] == if Carries(msgs, t) then Render(p, k, t) else broker[t]
  {
    var k1 := k.(last := broker);
    PutForced(k1, msgs);
    SameState(p, k, k1);
    hide Render, Carries;
    assert Renders(p, k1, msgs);
    PutLast(p, k1, msgs, true);
  }

  predicate SameAt(m: map<Topic, string>, m': map<Topic, string>, t: Topic) {
    (t in m' <==> t in m) && (t in m ==> m'[t] == m[t])
  }

  /** One topic after a republish whose messages all arrive. */
  lemma RepublishTopic(p: Plan, k: Core, reconnects: nat, broker: map<Topic, string>, t: Topic)
    requires PlanOK(p) && CacheOK(p, k)
    ensures var k', b := Apply(p, k, Republish(reconnects)), Deliver(broker, RepublishMsgs(p, Republishing(k, reconnects)));
      && (Covered(p, k, t) ==> Mirrors(b, k'.last, t) && t in b && t in k'.last)
      && (!Covered(p, k, t) ==> SameAt(broker, b, t) && SameAt(k.last, k'.last, t))
  {
    var k1 := Republishing(k, reconnects);
    hide PlanOK, CacheOK, Carries, Renders, Render, RepublishMsgs, BeforeAvailability, Put, Deliver;
    RepublishFacts(p, k, reconnects, t);
    RepublishEffect(p, k, reconnects, t);
    DeliverLast(p, k1, RepublishMsgs(p, k1), broker, t);
    DeliverLast(p, k1, RepublishMsgs(p, k1), k1.last, t);
    PutForced(k1, RepublishMsgs(p, k1));
  }

  lemma CachedIsDue(p: Plan, k: Core, t: Topic)
    requires CacheOK(p, k) && t in k.last
    ensures Due(p, k, t)
  {
    hide HasUnits, Render;
  }

  /** The broker holds every cached topic as cached. */
  ghost predicate MirrorsAll(broker: map<Topic, string>, last: map<Topic, string>) {
    forall t :: Mirrors(broker, last, t)
  }

  ghost predicate MirrorsDisplay(broker: map<Topic, string>, last: map<Topic, string>) {
    forall t :: IsDisplayValue(t) ==> Mirrors(broker, last, t)
  }

  /** One topic of the theorem below. */
  lemma HealTopic(p: Plan, k: Core, reconnects: nat, broker: map<Topic, string>, t: Topic)
    requires PlanOK(p) && CacheOK(p, k)
    ensures var k', b := Apply(p, k, Republish(reconnects)), Deliver(broker, RepublishMsgs(p, Republishing(k, reconnects)));
      && (t in k.last ==> t in k'.last) && (Covered(p, k, t) ==> t in b && t in k'.last)
      && ((IsDisplayValue(t) ==> DisplayUp(k)) ==> Mirrors(b, k'.last, t))
      && (IsDisplayValue(t) && !DisplayUp(k) ==> (Mirrors(b, k'.last, t) <==> Mirrors(broker, k.last, t)))
  {
    hide PlanOK, CacheOK, Put, RepublishMsgs, Deliver, Render, Due, Apply;
    RepublishTopic(p, k, reconnects, broker, t);
    RepublishEffect(p, k, reconnects, t);
    if t in k.last {
      CachedIsDue(p, k, t);
    }
  }

  /** Whatever was lost before, and whatever the last will did, a republish whose messages all arrive makes the broker
      agree with the cache on everything that any run has published, except that the three values of an unavailable
      display agree afterwards iff they agreed before. */
  lemma RepublishHeals(p: Plan, k: Core, reconnects: nat, broker: map<Topic, string>)
    requires PlanOK(p) && CacheOK(p, k)
    ensures var k', b := Apply(p, k, Republish(reconnects)), Deliver(broker, RepublishMsgs(p, Republishing(k, reconnects)));
      && k'.out == k.out + RepublishMsgs(p, Republishing(k, reconnects))
      && (forall t :: (IsDisplayValue(t) ==> DisplayUp(k)) ==> Mirrors(b, k'.last, t))
      && (MirrorsAll(b, k'.last) <==> DisplayUp(k) || MirrorsDisplay(broker, k.last))
      && (forall t :: t in k.last ==> t in k'.last)
      && forall t :: Covered(p, k, t) ==> t in b && t in k'.last
  {
    hide PlanOK, CacheOK, Put, RepublishMsgs, Deliver, Render, Due;
    PutForced(Republishing(k, reconnects), RepublishMsgs(p, Republishing(k, reconnects)));
    var k', b := Apply(p, k, Republish(reconnects)), Deliver(broker, RepublishMsgs(p, Republishing(k, reconnects)));
    assert k'.out == k.out + RepublishMsgs(p, Republishing(k, reconnects));
    hide Apply, Mirrors, IsDisplayValue, DisplayUp, Covered;
    forall t
      ensures t in k.last ==> t in k'.last
      ensures (IsDisplayValue(t) ==> DisplayUp(k)) ==> Mirrors(b, k'.last, t)
      ensures Covered(p, k, t) ==> t in b && t in k'.last
    {
      HealTopic(p, k, reconnects, broker, t);
    }
    if MirrorsAll(b, k'.last) && !DisplayUp(k) {
      forall t | IsDisplayValue(t) ensures Mirrors(broker, k.last, t) {
        HealTopic(p, k, reconnects, broker, t);
      }
    }
    if DisplayUp(k) || MirrorsDisplay(broker, k.last) {
      forall t ensures Mirrors(b, k'.last, t) {
        HealTopic(p, k, reconnects, broker, t);
      }
    }
  }

  /** Availability comes last: at any point of a republish into a broker that shows the daemon as unavailable, it turns
      available only when everything else the republish carries has arrived. */
  lemma AvailableOnlyWhenFresh(p: Plan, k: Core, reconnects: nat, broker: map<Topic, string>, n: nat)
    requires PlanOK(p) && CacheOK(p, k)
    requires Availability in broker ==> broker[Availability] != "online"
    requires n <= |RepublishMsgs(p, Republishing(k, reconnects))|
    ensures var b := Deliver(broker, RepublishMsgs(p, Republishing(k, reconnects))[..n]);
      Availability in b && b[Availability] == "online" ==>
        forall t :: Covered(p, k, t) ==> t in b && b[t] == Render(p, Republishing(k, reconnects), t)
  {
    var k1 := Republishing(k, reconnects);
    var msgs := RepublishMsgs(p, k1);
    hide PlanOK, CacheOK, Carries, Renders, Render, RepublishMsgs, BeforeAvailability, Deliver, Covered;
    if n < |msgs| {
      RepublishFacts(p, k, reconnects, Availability);
      AvailabilityOnlyAtEnd(p, k, reconnects);
      assert msgs[..n] == BeforeAvailability(p, k1)[..n];
      NotDelivered(broker, BeforeAvailability(p, k1)[..n], Availability);
    } else {
      assert msgs[..n] == msgs;
      forall t | Covered(p, k, t) ensures t in Deliver(broker, msgs) && Deliver(broker, msgs)[t] == Render(p, k1, t) {
        RepublishFacts(p, k, reconnects, t);
        RepublishEffect(p, k, reconnects, t);
        DeliverLast(p, k1, msgs, broker, t);
      }
    }
  }

  lemma AvailabilityOnlyAtEnd(p: Plan, k: Core, reconnects: nat)
    requires PlanOK(p) && CacheOK(p, k)
    ensures forall m :: m in BeforeAvailability(p, Republishing(k, reconnects)) ==> m.topic != Availability
  {
    var k1 := Republishing(k, reconnects);
    hide CacheOK, UnitsOK, SelectPlaced, Inverse, HasUnits, Renders, BeforeAvailability;
    CacheFacts(p, k);
    CarriedBeforeAvailability(p, k1, Availability);
    var msgs := BeforeAvailability(p, k1);
    forall m | m in msgs ensures m.topic != Availability {
      var i :| 0 <= i < |msgs| && msgs[i] == m;
    }
  }

  lemma {:induction false} NotDelivered(broker: map<Topic, string>, msgs: seq<Msg>, t: Topic)
    requires forall m :: m in msgs ==> m.topic != t
    ensures t in Deliver(broker, msgs) <==> t in broker
    ensures t in broker ==> Deliver(broker, msgs)[t] == broker[t]
  {
    if msgs != [] {
      NotDelivered(broker, msgs[..|msgs| - 1], t);
    }
  }
}
