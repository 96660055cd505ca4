/** The discovery payload, reduced to its components and the topics that each component refers to. */
module Discovery {
  import opened Text
  import opened Config
  import opened Topics

  datatype Component = Component(state: Option<Topic>, command: Option<Topic>, attributes: Option<Topic>,
    availability: seq<Topic>)

  /** What one call of the builder's add is given. */
  datatype Entry = Entry(id: string, component: Component)

  function UnitAdds(u: UnitConfig): seq<Entry> {
    var id := ObjectID(u);
    var avty := [Availability, BusAvailability(u.scope)];
    [Entry("unit_" + id, Component(Some(UnitState(id)), Some(UnitSet(id)), Some(UnitAttributes(id)), avty)),
     Entry("unit_" + id + "_state", Component(Some(UnitAttributes(id)), None, Some(UnitAttributes(id)), avty))]
    + (if !Wants(u.problemSensor) then []
       else [Entry("unit_" + id + "_problem", Component(Some(UnitAttributes(id)), None, None, avty))])
    + (if !Wants(u.restartButton) then []
       else [Entry("unit_" + id + "_restart", Component(None, Some(UnitSet(id)), None, avty))])
  }

  function AllUnitAdds(us: seq<UnitConfig>): seq<Entry> {
    if us == [] then [] else AllUnitAdds(us[..|us| - 1]) + UnitAdds(us[|us| - 1])
  }

  function SelectAdd(s: TemplateSelect): Entry {
    Entry("template_" + s.id,
      Component(Some(TemplateState(s.id)), Some(TemplateSet(s.id)), None, [Availability, BusAvailability(s.scope)]))
  }

  function SelectAdds(ss: seq<TemplateSelect>): seq<Entry> {
    seq(|ss|, i requires 0 <= i < |ss| => SelectAdd(ss[i]))
  }

  function DisplayAdds(c: Settings): seq<Entry> {
    var avty := [Availability, DisplayAvailability];
    if !c.displayEnabled then []
    else
      [Entry("display", Component(Some(DisplayState), Some(DisplaySet), Some(DisplayAttributes), avty))]
      + if c.exposeModeSelect
        then [Entry("display_mode", Component(Some(DisplayModeState), Some(DisplayModeSet), None, avty))]
        else []
  }

  function BusAdd(scope: string): Entry { Entry("bus_" + scope, Component(Some(BusAvailability(scope)), None, None, [])) }

  function BusAdds(scopes: seq<string>): seq<Entry> {
    seq(|scopes|, i requires 0 <= i < |scopes| => BusAdd(scopes[i]))
  }

  function DaemonAdds(): seq<Entry> {
    [Entry("version", Component(Some(DaemonState), None, Some(DaemonState), [])),
     Entry("started", Component(Some(DaemonState), None, None, [])),
     Entry("daemon_restart", Component(None, Some(DaemonRestart), None, []))]
  }

  function Adds(c: Settings): seq<Entry> {
    AllUnitAdds(c.all) + SelectAdds(c.selects) + DisplayAdds(c) + BusAdds(Scopes(c.all)) + DaemonAdds()
  }

  /** The map after a sequence of add calls: a later call with the same id overwrites. */
  function Build(adds: seq<Entry>): map<string, Component> {
    if adds == [] then map[]
    else Build(adds[..|adds| - 1])[adds[|adds| - 1].id := adds[|adds| - 1].component]
  }

  /** The component map of the payload while it is filled, with its history of add calls. */
  class Builder {
    var cmps: map<string, Component>
    ghost var adds: seq<Entry>

    ghost predicate Valid()
      reads this
    {
      cmps == Build(adds)
    }

    constructor ()
      ensures Valid() && adds == []
    {
      cmps, adds := map[], [];
    }

    method Add(id: string, component: Component)
      requires Valid()
      modifies this
      ensures Valid() && adds == old(adds) + [Entry(id, component)] && cmps == old(cmps)[id := component]
    {
      cmps := cmps[id := component];
      adds := adds + [Entry(id, component)];
      assert adds[..|adds| - 1] == old(adds);
    }

    method AddUnit(u: UnitConfig)
      requires Valid()
      modifies this
      ensures Valid() && adds == old(adds) + UnitAdds(u)
      ensures UnitEntities(cmps, u)
    {
      UnitIDsDiffer(ObjectID(u));
      hide ObjectID, Build;
      var id := ObjectID(u);
      var avty := [Availability, BusAvailability(u.scope)];
      Add("unit_" + id, Component(Some(UnitState(id)), Some(UnitSet(id)), Some(UnitAttributes(id)), avty));
      Add("unit_" + id + "_state", Component(Some(UnitAttributes(id)), None, Some(UnitAttributes(id)), avty));
      if Wants(u.problemSensor) {
        Add("unit_" + id + "_problem", Component(Some(UnitAttributes(id)), None, None, avty));
      }
      if Wants(u.restartButton) {
        Add("unit_" + id + "_restart", Component(None, Some(UnitSet(id)), None, avty));
      }
    }

    method AddDisplay(c: Settings)
      requires Valid()
      modifies this
      ensures Valid() && adds == old(adds) + DisplayAdds(c)
    {
      if c.displayEnabled {
        var avty := [Availability, DisplayAvailability];
        Add("display", Component(Some(DisplayState), Some(DisplaySet), Some(DisplayAttributes), avty));
        if c.exposeModeSelect {
          Add("display_mode", Component(Some(DisplayModeState), Some(DisplayModeSet), None, avty));
        }
      }
    }
  }

  /** The payload has one component per add call whenever the configuration was accepted: nothing is overwritten. */
  method BuildDiscovery(c: Settings) returns (cmps: map<string, Component>)
    ensures cmps == Build(Adds(c))
    ensures Accepted(c) ==>
      && |cmps| == UnitCount(c.all) + |c.selects| + DisplayCount(c) + |Scopes(c.all)| + 3
      && forall a :: a in Adds(c) ==> a.id in cmps && cmps[a.id] == a.component
    ensures Accepted(c) ==> Payload(c, cmps)
    ensures forall id :: id in cmps ==> IsEntity(c, id)
  {
    hide Payload, IsEntity, Accepted, UnitAdds, Scopes, Build, UnitCount;
    var b := new Builder();
    for i := 0 to |c.all|
      invariant b.Valid() && b.adds == AllUnitAdds(c.all[..i])
    {
      b.AddUnit(c.all[i]);
      assert c.all[..i + 1][..i] == c.all[..i];
    }
    assert c.all[..|c.all|] == c.all;
    ghost var done := b.adds;
    hide AllUnitAdds;
    for i := 0 to |c.selects|
      invariant b.Valid() && b.adds == done + SelectAdds(c.selects[..i])
    {
      var s := c.selects[i];
      b.Add("template_" + s.id,
        Component(Some(TemplateState(s.id)), Some(TemplateSet(s.id)), None, [Availability, BusAvailability(s.scope)]));
      assert SelectAdds(c.selects[..i + 1]) == SelectAdds(c.selects[..i]) + [SelectAdd(s)];
    }
    assert c.selects[..|c.selects|] == c.selects;
    b.AddDisplay(c);
    var scopes := Scopes(c.all);
    done := b.adds;
    for i := 0 to |scopes|
      invariant b.Valid() && b.adds == done + BusAdds(scopes[..i])
    {
      b.Add("bus_" + scopes[i], Component(Some(BusAvailability(scopes[i])), None, None, []));
      assert BusAdds(scopes[..i + 1]) == BusAdds(scopes[..i]) + [BusAdd(scopes[i])];
    }
    assert scopes[..|scopes|] == scopes;
    hide BusAdds, SelectAdds, DisplayAdds;
    b.Add("version", Component(Some(DaemonState), None, Some(DaemonState), []));
    b.Add("started", Component(Some(DaemonState), None, None, []));
    b.Add("daemon_restart", Component(None, Some(DaemonRestart), None, []));
    assert b.adds == Adds(c);
    cmps := b.cmps;
    if Accepted(c) {
      NeverOverwrites(c);
      PayloadExact(c);
    }
    forall id | id in cmps ensures IsEntity(c, id) {
      OnlyEntities(c, id);
    }
  }

  // ----- The payload, entity by entity

  /** A map has an id with just this component. */
  predicate Has(cmps: map<string, Component>, id: string, state: Option<Topic>, command: Option<Topic>,
      attributes: Option<Topic>, availability: seq<Topic>) {
    id in cmps && cmps[id] == Component(state, command, attributes, availability)
  }

  /** Each unit has a switch on its own topics and a state sensor, and a problem sensor and a restart button unless these
      are switched off. The daemon and the unit's own bus decide whether they are available. */
  ghost predicate UnitEntities(cmps: map<string, Component>, u: UnitConfig) {
    var id, avty := ObjectID(u), [Availability, BusAvailability(u.scope)];
    && Has(cmps, "unit_" + id, Some(UnitState(id)), Some(UnitSet(id)), Some(UnitAttributes(id)), avty)
    && Has(cmps, "unit_" + id + "_state", Some(UnitAttributes(id)), None, Some(UnitAttributes(id)), avty)
    && (u.problemSensor == None || u.problemSensor == Some(true) ==>
         Has(cmps, "unit_" + id + "_problem", Some(UnitAttributes(id)), None, None, avty))
    && (u.restartButton == None || u.restartButton == Some(true) ==>
         Has(cmps, "unit_" + id + "_restart", None, Some(UnitSet(id)), None, avty))
  }

  ghost predicate Payload(c: Settings, cmps: map<string, Component>) {
    && (forall i :: 0 <= i < |c.all| ==> UnitEntities(cmps, c.all[i]))
    && (forall i :: 0 <= i < |c.selects| ==>
         var id := c.selects[i].id;
         Has(cmps, "template_" + id, Some(TemplateState(id)), Some(TemplateSet(id)), None,
           [Availability, BusAvailability(c.selects[i].scope)]))
    && (c.displayEnabled ==>
         Has(cmps, "display", Some(DisplayState), Some(DisplaySet), Some(DisplayAttributes), [Availability, DisplayAvailability]))
    && (c.displayEnabled && c.exposeModeSelect ==>
         Has(cmps, "display_mode", Some(DisplayModeState), Some(DisplayModeSet), None, [Availability, DisplayAvailability]))
    && (forall s :: s in Scopes(c.all) ==> Has(cmps, "bus_" + s, Some(BusAvailability(s)), None, None, []))
    && Has(cmps, "version", Some(DaemonState), None, Some(DaemonState), [])
    && Has(cmps, "started", Some(DaemonState), None, None, [])
    && Has(cmps, "daemon_restart", None, Some(DaemonRestart), None, [])
  }

  /** Every entity of an accepted configuration is in the payload, on its own topics. */
  lemma PayloadExact(c: Settings)
    requires Accepted(c)
    ensures Payload(c, Build(Adds(c)))
  {
    var cmps := Build(Adds(c));
    NeverOverwrites(c);
    hide Accepted, Build, Scopes, UnitAdds, AllUnitAdds, SelectAdds, BusAdds, DisplayAdds, DaemonAdds, UnitEntities, Has;
    forall i | 0 <= i < |c.all| ensures UnitEntities(cmps, c.all[i]) {
      UnitAddAt(c.all, i);
      UnitPresent(cmps, c.all[i]);
    }
    SelectsPresent(c.selects, cmps);
    BusesPresent(Scopes(c.all), cmps);
    OtherPresent(c, cmps);
  }

  lemma SelectsPresent(ss: seq<TemplateSelect>, cmps: map<string, Component>)
    requires forall a :: a in SelectAdds(ss) ==> a.id in cmps && cmps[a.id] == a.component
    ensures forall i :: 0 <= i < |ss| ==>
      var id := ss[i].id;
      Has(cmps, "template_" + id, Some(TemplateState(id)), Some(TemplateSet(id)), None,
        [Availability, BusAvailability(ss[i].scope)])
  {
    assert forall i :: 0 <= i < |ss| ==> SelectAdds(ss)[i] == SelectAdd(ss[i]) && SelectAdds(ss)[i] in SelectAdds(ss);
  }

  lemma BusesPresent(scopes: seq<string>, cmps: map<string, Component>)
    requires forall a :: a in BusAdds(scopes) ==> a.id in cmps && cmps[a.id] == a.component
    ensures forall s :: s in scopes ==> Has(cmps, "bus_" + s, Some(BusAvailability(s)), None, None, [])
  {
    assert forall i :: 0 <= i < |scopes| ==> BusAdds(scopes)[i] == BusAdd(scopes[i]) && BusAdds(scopes)[i] in BusAdds(scopes);
  }

  /** The ids of the entities. */
  ghost predicate IsEntity(c: Settings, id: string) {
    || (exists i :: 0 <= i < |c.all| && IsUnitEntity(c.all[i], id))
    || (exists i :: 0 <= i < |c.selects| && id == "template_" + c.selects[i].id)
    || (id == "display" && c.displayEnabled)
    || (id == "display_mode" && c.displayEnabled && c.exposeModeSelect)
    || (exists s :: s in Scopes(c.all) && id == "bus_" + s)
    || id in ["version", "started", "daemon_restart"]
  }

  predicate IsUnitEntity(u: UnitConfig, id: string) {
    || id == "unit_" + ObjectID(u) || id == "unit_" + ObjectID(u) + "_state"
    || (id == "unit_" + ObjectID(u) + "_problem" && (u.problemSensor == None || u.problemSensor.value))
    || (id == "unit_" + ObjectID(u) + "_restart" && (u.restartButton == None || u.restartButton.value))
  }

  /** And nothing else is. */
  lemma OnlyEntities(c: Settings, id: string)
    requires id in Build(Adds(c))
    ensures IsEntity(c, id)
  {
    BuiltFrom(Adds(c), id);
    hide Build;
    var a :| a in Adds(c) && a.id == id;
    hide Scopes, ObjectID, Components;
    if a in AllUnitAdds(c.all) {
      var i := UnitAddOf(c.all, a);
      UnitEntityID(c.all[i], a);
    } else if a in SelectAdds(c.selects) {
      var i :| 0 <= i < |c.selects| && SelectAdd(c.selects[i]) == a;
    } else if a in BusAdds(Scopes(c.all)) {
      var i :| 0 <= i < |Scopes(c.all)| && BusAdd(Scopes(c.all)[i]) == a;
      assert Scopes(c.all)[i] in Scopes(c.all);
    }
  }

  lemma UnitEntityID(u: UnitConfig, a: Entry)
    requires a in UnitAdds(u)
    ensures IsUnitEntity(u, a.id)
  {
    hide ObjectID;
  }

  lemma {:induction false} BuiltFrom(adds: seq<Entry>, id: string)
    requires id in Build(adds)
    ensures exists a :: a in adds && a.id == id
  {
    var n := |adds| - 1;
    if adds[n].id == id {
      assert adds[n] in adds;
    } else {
      BuiltFrom(adds[..n], id);
    }
  }

  lemma {:induction false} UnitAddAt(us: seq<UnitConfig>, i: nat)
    requires i < |us|
    ensures forall a :: a in UnitAdds(us[i]) ==> a in AllUnitAdds(us)
  {
    hide UnitAdds;
    var n := |us| - 1;
    if i < n {
      UnitAddAt(us[..n], i);
    }
  }

  lemma UnitPresent(cmps: map<string, Component>, u: UnitConfig)
    requires forall a :: a in UnitAdds(u) ==> a.id in cmps && cmps[a.id] == a.component
    ensures UnitEntities(cmps, u)
  {
    hide ObjectID;
    var adds := UnitAdds(u);
    assert adds[0] in adds && adds[1] in adds;
    if Wants(u.problemSensor) {
      assert adds[2] in adds;
    }
    if Wants(u.restartButton) {
      assert adds[|adds| - 1] in adds;
    }
  }

  lemma OtherPresent(c: Settings, cmps: map<string, Component>)
    requires forall a :: a in DisplayAdds(c) || a in DaemonAdds() ==> a.id in cmps && cmps[a.id] == a.component
    ensures c.displayEnabled ==>
      Has(cmps, "display", Some(DisplayState), Some(DisplaySet), Some(DisplayAttributes), [Availability, DisplayAvailability])
    ensures c.displayEnabled && c.exposeModeSelect ==>
      Has(cmps, "display_mode", Some(DisplayModeState), Some(DisplayModeSet), None, [Availability, DisplayAvailability])
    ensures Has(cmps, "version", Some(DaemonState), None, Some(DaemonState), [])
    ensures Has(cmps, "started", Some(DaemonState), None, None, [])
    ensures Has(cmps, "daemon_restart", None, Some(DaemonRestart), None, [])
  {
    var d, e := DisplayAdds(c), DaemonAdds();
    assert e[0] in e && e[1] in e && e[2] in e;
    if c.displayEnabled {
      assert d[0] in d;
      if c.exposeModeSelect {
        assert d[1] in d;
      }
    }
  }

  // ----- Component ids

  function IDs(adds: seq<Entry>): (r: seq<string>)
    ensures |r| == |adds| && forall i :: 0 <= i < |r| ==> r[i] == adds[i].id
  {
    seq(|adds|, i requires 0 <= i < |adds| => adds[i].id)
  }

  function UnitCount(us: seq<UnitConfig>): nat {
    if us == [] then 0
    else
      var u := us[|us| - 1];
      UnitCount(us[..|us| - 1]) + 2 + (if Wants(u.problemSensor) then 1 else 0) + (if Wants(u.restartButton) then 1 else 0)
  }

  function DisplayCount(c: Settings): nat {
    if !c.displayEnabled then 0 else if c.exposeModeSelect then 2 else 1
  }

  lemma {:induction false} UnitCounted(us: seq<UnitConfig>)
    ensures |AllUnitAdds(us)| == UnitCount(us)
  {
    if us != [] {
      UnitCounted(us[..|us| - 1]);
    }
  }

  lemma ComponentsDistinct(u: UnitConfig)
    ensures IDs(UnitAdds(u)) == Components(u) && NoDuplicates(Components(u))
  {
    hide Slugify;
    var p := "unit_" + ObjectID(u);
    SuffixDiffers(p, "_problem", "_restart", 1);
    assert IDs(UnitAdds(u)) == Components(u);
  }

  lemma UnitIDsDiffer(id: string)
    ensures "unit_" + id + "_state" != "unit_" + id && "unit_" + id + "_problem" != "unit_" + id
    ensures "unit_" + id + "_restart" != "unit_" + id && "unit_" + id + "_problem" != "unit_" + id + "_state"
    ensures "unit_" + id + "_restart" != "unit_" + id + "_state" && "unit_" + id + "_restart" != "unit_" + id + "_problem"
  {
    SuffixDiffers("unit_" + id, "_problem", "_restart", 1);
    SuffixDiffers("unit_" + id, "_problem", "_state", 1);
    SuffixDiffers("unit_" + id, "_restart", "_state", 1);
    assert |"unit_" + id + "_state"| == |"unit_" + id| + 6;
  }

  lemma SuffixDiffers(p: string, a: string, b: string, i: nat)
    requires i < |a| && i < |b| && a[i] != b[i]
    ensures p + a != p + b
  {
    assert (p + a)[|p| + i] == a[i] && (p + b)[|p| + i] == b[i];
  }

  ghost predicate DisjointComponents(us: seq<UnitConfig>) {
    forall i, j, k :: 0 <= i < j < |us| && k in Components(us[i]) ==> k !in Components(us[j])
  }

  lemma {:induction false} UnitIDs(us: seq<UnitConfig>, id: string)
    ensures id in IDs(AllUnitAdds(us)) <==> exists i :: 0 <= i < |us| && id in Components(us[i])
  {
    hide Components, UnitAdds;
    if us != [] {
      var n := |us| - 1;
      UnitIDs(us[..n], id);
      ComponentsDistinct(us[n]);
      assert IDs(AllUnitAdds(us)) == IDs(AllUnitAdds(us[..n])) + Components(us[n]);
      if exists i :: 0 <= i < |us| && id in Components(us[i]) {
        var i :| 0 <= i < |us| && id in Components(us[i]);
        assert i < n ==> us[..n][i] == us[i];
      }
    }
  }

  /** The component ids of all units are distinct exactly when no two units share a component. */
  lemma {:induction false} DistinctIffDisjoint(us: seq<UnitConfig>)
    ensures NoDuplicates(IDs(AllUnitAdds(us))) <==> DisjointComponents(us)
  {
    hide Components, UnitAdds;
    if us != [] {
      var n := |us| - 1;
      var a, b := IDs(AllUnitAdds(us[..n])), Components(us[n]);
      DistinctIffDisjoint(us[..n]);
      ComponentsDistinct(us[n]);
      assert IDs(AllUnitAdds(us)) == a + b;
      forall k ensures k in a <==> exists i :: 0 <= i < n && k in Components(us[..n][i]) {
        UnitIDs(us[..n], k);
      }
      if DisjointComponents(us) {
        NoDuplicatesConcat(a, b);
      }
      if NoDuplicates(a + b) {
        NoDuplicatesParts(a, b);
        forall i, j, k | 0 <= i < j < |us| && k in Components(us[i]) ensures k !in Components(us[j]) {
          assert us[..n][i] == us[i];
          if j < n {
            assert us[..n][j] == us[j];
          } else {
            assert k in a;
          }
        }
      }
    }
  }

  /** All component ids of the units in the payload are distinct exactly when the unit ids are and the component check
      finds no collision. */
  lemma CollisionCheckExact(us: seq<UnitConfig>)
    ensures NoDuplicates(IDs(AllUnitAdds(us))) <==>
      NoCollision(us) && forall i, j :: 0 <= i < j < |us| ==> ObjectID(us[i]) != ObjectID(us[j])
  {
    DistinctIffDisjoint(us);
    hide AllUnitAdds;
    forall i, j | 0 <= i < j < |us|
      ensures NoneShared(us[i], us[j]) ==> ObjectID(us[i]) != ObjectID(us[j])
    {
      SwitchShared(us[i], us[j]);
    }
    hide ObjectID, Components;
    assert DisjointComponents(us) <==> forall i, j :: 0 <= i < j < |us| ==> NoneShared(us[i], us[j]);
  }

  /** Units of the same id share the component of their switch. */
  lemma SwitchShared(u: UnitConfig, v: UnitConfig)
    ensures ObjectID(u) == ObjectID(v) ==> !NoneShared(u, v)
  {
    hide ObjectID;
    assert Components(u)[0] == "unit_" + ObjectID(u) && Components(v)[0] == "unit_" + ObjectID(v);
    assert Components(u)[0] in Components(u);
  }

  lemma NoDuplicatesParts<T>(a: seq<T>, b: seq<T>)
    requires NoDuplicates(a + b)
    ensures NoDuplicates(a) && NoDuplicates(b) && forall x :: x in a ==> x !in b
  {
    var s := a + b;
    assert forall i :: 0 <= i < |a| ==> s[i] == a[i];
    assert forall i :: 0 <= i < |b| ==> s[|a| + i] == b[i];
  }

  /** The groups of component ids start with different letters. */
  ghost predicate IDGroups(u: seq<string>, t: seq<string>, d: seq<string>, b: seq<string>) {
    && (forall x :: x in u ==> x != "" && x[0] == 'u')
    && (forall x :: x in t ==> x != "" && x[0] == 't')
    && (forall x :: x in d ==> |x| > 1 && x[0] == 'd' && x[1] == 'i')
    && (forall x :: x in b ==> x != "" && x[0] == 'b')
  }

  lemma GroupsDistinct(u: seq<string>, t: seq<string>, d: seq<string>, b: seq<string>)
    requires NoDuplicates(u) && NoDuplicates(t) && NoDuplicates(d) && NoDuplicates(b) && IDGroups(u, t, d, b)
    ensures NoDuplicates(u + t + d + b + ["version", "started", "daemon_restart"])
  {
    NoDuplicatesConcat(u, t);
    NoDuplicatesConcat(u + t, d);
    NoDuplicatesConcat(u + t + d, b);
    NoDuplicatesConcat(u + t + d + b, ["version", "started", "daemon_restart"]);
  }

  lemma SelectIDs(ss: seq<TemplateSelect>)
    requires DistinctSelects(ss)
    ensures NoDuplicates(IDs(SelectAdds(ss))) && forall x :: x in IDs(SelectAdds(ss)) ==> x != "" && x[0] == 't'
  {
    forall i, j | 0 <= i < j < |ss| ensures "template_" + ss[i].id != "template_" + ss[j].id {
      assert ("template_" + ss[i].id)[9..] == ss[i].id && ("template_" + ss[j].id)[9..] == ss[j].id;
    }
  }

  lemma ScopeIDs(us: seq<UnitConfig>)
    ensures NoDuplicates(IDs(BusAdds(Scopes(us)))) && forall x :: x in IDs(BusAdds(Scopes(us))) ==> x != "" && x[0] == 'b'
  {
    var s := Scopes(us);
    forall i, j | 0 <= i < j < |s| ensures "bus_" + s[i] != "bus_" + s[j] {
      assert ("bus_" + s[i])[4..] == s[i] && ("bus_" + s[j])[4..] == s[j];
    }
  }

  lemma UnitIDLetters(us: seq<UnitConfig>)
    ensures forall x :: x in IDs(AllUnitAdds(us)) ==> x != "" && x[0] == 'u'
  {
    hide ObjectID;
    forall x | x in IDs(AllUnitAdds(us)) ensures x != "" && x[0] == 'u' {
      UnitIDs(us, x);
    }
  }

  lemma AcceptedDisjoint(c: Settings)
    requires Accepted(c)
    ensures DisjointComponents(c.all) && DistinctSelects(c.selects)
  {
    hide Components, ObjectID, UnitOK, SelectPlaced, IsNodeID;
    forall i, j, k | 0 <= i < j < |c.all| && k in Components(c.all[i]) ensures k !in Components(c.all[j]) {
      assert Apart(c.all[i], c.all[j]);
    }
  }

  lemma DisplayIDs(c: Settings)
    ensures NoDuplicates(IDs(DisplayAdds(c))) && forall x :: x in IDs(DisplayAdds(c)) ==> |x| > 1 && x[0] == 'd' && x[1] == 'i'
  {
  }

  lemma IDsConcat(a: seq<Entry>, b: seq<Entry>)
    ensures IDs(a + b) == IDs(a) + IDs(b)
  {
  }

  lemma AddsDistinct(c: Settings)
    requires Accepted(c)
    ensures NoDuplicates(IDs(Adds(c)))
  {
    hide Accepted, AllUnitAdds, SelectAdds, BusAdds, DisplayAdds, Scopes, NoDuplicates, DisjointComponents, DistinctSelects;
    AcceptedDisjoint(c);
    DistinctIffDisjoint(c.all);
    UnitIDLetters(c.all);
    SelectIDs(c.selects);
    DisplayIDs(c);
    ScopeIDs(c.all);
    var u, t, d, b := AllUnitAdds(c.all), SelectAdds(c.selects), DisplayAdds(c), BusAdds(Scopes(c.all));
    GroupsDistinct(IDs(u), IDs(t), IDs(d), IDs(b));
    IDsConcat(u, t);
    IDsConcat(u + t, d);
    IDsConcat(u + t + d, b);
    IDsConcat(u + t + d + b, DaemonAdds());
    assert IDs(DaemonAdds()) == ["version", "started", "daemon_restart"];
  }

  lemma {:induction false} BuildKeeps(adds: seq<Entry>)
    requires NoDuplicates(IDs(adds))
    ensures |Build(adds)| == |adds|
    ensures forall id :: id in Build(adds) <==> id in IDs(adds)
    ensures forall a :: a in adds ==> Build(adds)[a.id] == a.component
  {
    if adds != [] {
      var n := |adds| - 1;
      var before, last := adds[..n], adds[n];
      assert IDs(adds) == IDs(before) + [last.id];
      NoDuplicatesParts(IDs(before), [last.id]);
      BuildKeeps(before);
      assert last.id !in Build(before);
      assert Build(adds).Keys == Build(before).Keys + {last.id};
      forall a | a in adds ensures Build(adds)[a.id] == a.component {
        if a in before {
          assert a.id in IDs(before);
        }
      }
    }
  }

  /** For an accepted configuration every add call shows in the payload, and their number is the count of entities. */
  lemma NeverOverwrites(c: Settings)
    requires Accepted(c)
    ensures |Build(Adds(c))| == UnitCount(c.all) + |c.selects| + DisplayCount(c) + |Scopes(c.all)| + 3
    ensures forall a :: a in Adds(c) ==> a.id in Build(Adds(c)) && Build(Adds(c))[a.id] == a.component
  {
    hide Components, UnitAdds, ObjectID, Accepted, Scopes, AllUnitAdds;
    AddsDistinct(c);
    BuildKeeps(Adds(c));
    UnitCounted(c.all);
    hide Build;
    forall a | a in Adds(c) ensures a.id in Build(Adds(c)) {
      assert a.id in IDs(Adds(c));
    }
  }

  // ----- Topics of the components

  /** What discovery may refer to: a state, attributes or availability topic is one of the retained topics, and a
      command topic parses back to the command. */
  ghost predicate Refers(c: Settings, k: Component) {
    && (k.state.Some? ==> k.state.value in Retained(c))
    && (k.attributes.Some? ==> k.attributes.value in Retained(c))
    && (forall x :: x in k.availability ==> x in Retained(c))
    && (k.command.Some? ==>
         var x := k.command.value;
         IsCommand(x) && (Path(c, x) == c.statusTopic || Parse(c, Path(c, x)) == Some(Expected(x))))
  }

  lemma UnitFacts(c: Settings, i: nat)
    requires Accepted(c) && i < |c.all|
    ensures IsScope(c.all[i].scope) && IsNodeID(ObjectID(c.all[i])) && IsNodeID(c.nodeID)
  {
    hide ObjectID, Apart, SelectPlaced, IsNodeID;
    assert UnitOK(c.all[i]);
  }

  lemma UnitRefers(c: Settings, i: nat)
    requires Accepted(c) && i < |c.all|
    ensures forall a :: a in UnitAdds(c.all[i]) ==> Refers(c, a.component)
  {
    hide Accepted, ObjectID, Path, Parse, Wants, UnitTopics, Retained, IsNodeID, Scopes, BusTopics;
    UnitFacts(c, i);
    var u := c.all[i];
    var id := ObjectID(u);
    PlainID(id);
    PlainID(c.nodeID);
    ParseBuilt(c, UnitSet(id));
    UnitTopicsAt(c.all, i);
    ScopeRetained(c.all, u.scope);
    RetainedMember(c);
  }

  lemma SelectRefers(c: Settings, i: nat)
    requires Accepted(c) && i < |c.selects|
    ensures Refers(c, SelectAdd(c.selects[i]).component)
  {
    hide Accepted, Path, Parse, Retained, Scopes, BusTopics, SelectTopics, UnitTopics, IsNodeID;
    var s := c.selects[i];
    SelectFacts(c, i);
    PlainID(s.id);
    PlainID(c.nodeID);
    ParseBuilt(c, TemplateSet(s.id));
    ScopeRetained(c.all, s.scope);
    RetainedMember(c);
  }

  lemma SelectFacts(c: Settings, i: nat)
    requires Accepted(c) && i < |c.selects|
    ensures IsNodeID(c.selects[i].id) && IsNodeID(c.nodeID) && c.selects[i].scope in Scopes(c.all)
    ensures TemplateState(c.selects[i].id) in SelectTopics(c.selects)
  {
    hide ObjectID, Components, Apart, IsNodeID, DistinctSelects;
    var s := c.selects[i];
    assert SelectTopics(c.selects)[i] == TemplateState(s.id);
    assert SelectPlaced(c.all, s);
    var off: nat :| Placed(c.all, s, off);
    assert ObjectID(c.all[off + 0]) == s.options[0].unitID;
    assert c.all[off].scope == s.scope && UnitOK(c.all[off]);
  }

  lemma OtherRefers(c: Settings)
    requires Accepted(c)
    ensures forall a :: a in DisplayAdds(c) + BusAdds(Scopes(c.all)) + DaemonAdds() ==> Refers(c, a.component)
  {
    hide Path, Parse, Scopes, UnitsOK, SelectPlaced;
    PlainID(c.nodeID);
    ParseBuilt(c, DisplaySet);
    ParseBuilt(c, DisplayModeSet);
    ParseBuilt(c, DaemonRestart);
    RetainedMember(c);
    hide Retained;
    forall i | 0 <= i < |Scopes(c.all)| ensures BusAvailability(Scopes(c.all)[i]) in Retained(c) {
      assert BusTopics(Scopes(c.all))[i] == BusAvailability(Scopes(c.all)[i]);
    }
    forall a | a in DisplayAdds(c) ensures Refers(c, a.component) {
    }
    forall a | a in BusAdds(Scopes(c.all)) ensures Refers(c, a.component) {
    }
    forall a | a in DaemonAdds() ensures Refers(c, a.component) {
    }
  }

  lemma {:induction false} UnitAddOf(us: seq<UnitConfig>, a: Entry) returns (i: nat)
    requires a in AllUnitAdds(us)
    ensures i < |us| && a in UnitAdds(us[i])
  {
    hide UnitAdds;
    var n := |us| - 1;
    if a in UnitAdds(us[n]) {
      i := n;
    } else {
      i := UnitAddOf(us[..n], a);
    }
  }

  /** Every topic in the payload of an accepted configuration is either cleared by RetainedTopics or understood by
      Parse as the command of that component. */
  lemma DiscoveryTopics(c: Settings, a: Entry)
    requires Accepted(c) && a in Adds(c)
    ensures Refers(c, a.component)
  {
    if a in AllUnitAdds(c.all) {
      var i := UnitAddOf(c.all, a);
      UnitRefers(c, i);
    } else if a in SelectAdds(c.selects) {
      var i :| 0 <= i < |c.selects| && SelectAdd(c.selects[i]) == a;
      SelectRefers(c, i);
    } else {
      OtherRefers(c);
    }
  }
}
