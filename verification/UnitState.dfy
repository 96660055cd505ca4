/** The snapshots of the configured units, as queries and jobs change them. */
module UnitState {
  import opened Text
  import opened Config
  import opened StatusMapping

  datatype Snapshot = Snapshot(id: string, name: string, scope: string, known: bool, triple: Triple, changedAt: nat,
    lastJob: string, lastResult: string, lastError: string, lastJobAt: nat)

  type Snapshots = map<string, Snapshot>

  predicate IsOnState(active: string) { active == "active" || active == "activating" || active == "reloading" }

  predicate IsOn(s: Snapshot) { IsOnState(s.triple.active) }

  function Empty(u: UnitConfig): Snapshot {
    Snapshot(ObjectID(u), u.name, u.scope, false, Triple("", "", ""), 0, "", "", "", 0)
  }

  /** Records one answer: the time of change moves iff the triple did, or it is the first answer. */
  function Record(s: Snapshot, t: Triple, now: nat): Snapshot {
    if !s.known || s.triple != t then s.(known := true, triple := t, changedAt := now) else s
  }

  function WithJob(s: Snapshot, verb: string, result: string, error: string, now: nat): Snapshot {
    s.(lastJob := verb, lastResult := result, lastError := error, lastJobAt := now)
  }

  // ----- The index of names

  /** A unit name in a scope. The source nests two maps instead. */
  datatype Key = Key(scope: string, name: string)

  type Index = map<Key, string>

  function KeyOf(u: UnitConfig): Key { Key(u.scope, u.name) }

  /** One snapshot per id, with the unit's name and scope. */
  ghost predicate HasUnits(us: seq<UnitConfig>, units: Snapshots) {
    && (forall id :: id in units <==> exists i :: 0 <= i < |us| && ObjectID(us[i]) == id)
    && (forall id :: id in units ==> units[id].id == id)
    && (forall i :: 0 <= i < |us| ==>
         && ObjectID(us[i]) in units
         && Key(units[ObjectID(us[i])].scope, units[ObjectID(us[i])].name) == KeyOf(us[i]))
  }

  /** byName is the inverse of the ids' keys. */
  ghost predicate Inverse(us: seq<UnitConfig>, byName: Index) {
    && (forall i :: 0 <= i < |us| ==> KeyOf(us[i]) in byName && byName[KeyOf(us[i])] == ObjectID(us[i]))
    && (forall k :: k in byName ==> exists i :: 0 <= i < |us| && KeyOf(us[i]) == k)
  }

  lemma HasUnitsAppend(us: seq<UnitConfig>, u: UnitConfig, units: Snapshots)
    requires HasUnits(us, units) && forall i :: 0 <= i < |us| ==> ObjectID(us[i]) != ObjectID(u)
    ensures HasUnits(us + [u], units[ObjectID(u) := Empty(u)])
  {
    hide ObjectID;
    var all := us + [u];
    assert Empty(u).id == ObjectID(u) && Key(Empty(u).scope, Empty(u).name) == KeyOf(u);
    hide Empty;
    assert all[|us|] == u && forall i :: 0 <= i < |us| ==> all[i] == us[i];
    forall id | id in units || id == ObjectID(u) ensures exists i :: 0 <= i < |all| && ObjectID(all[i]) == id {
      if id != ObjectID(u) {
        var i :| 0 <= i < |us| && ObjectID(us[i]) == id;
        assert ObjectID(all[i]) == id;
      }
    }
  }

  lemma InverseAppend(us: seq<UnitConfig>, u: UnitConfig, byName: Index)
    requires Inverse(us, byName) && forall i :: 0 <= i < |us| ==> KeyOf(us[i]) != KeyOf(u)
    ensures Inverse(us + [u], byName[KeyOf(u) := ObjectID(u)])
  {
    hide ObjectID, KeyOf;
    var all := us + [u];
    assert all[|us|] == u && forall i :: 0 <= i < |us| ==> all[i] == us[i];
    forall k | k in byName || k == KeyOf(u) ensures exists i :: 0 <= i < |all| && KeyOf(all[i]) == k {
      if k != KeyOf(u) {
        var i :| 0 <= i < |us| && KeyOf(us[i]) == k;
        assert KeyOf(all[i]) == k;
      }
    }
  }

  /** Every snapshot that the index leads to carries the index key. */
  lemma IndexLeads(us: seq<UnitConfig>, units: Snapshots, byName: Index, k: Key)
    requires HasUnits(us, units) && Inverse(us, byName) && k in byName
    ensures byName[k] in units && Key(units[byName[k]].scope, units[byName[k]].name) == k
  {
    var i :| 0 <= i < |us| && KeyOf(us[i]) == k;
  }

  // ----- Applying a whole answer

  /** One entry of an answer: an unknown name changes nothing. */
  function ApplyOne(units: Snapshots, byName: Index, scope: string, st: Status, now: nat): Snapshots {
    var k := Key(scope, st.name);
    if k in byName && byName[k] in units then
      units[byName[k] := Record(units[byName[k]], st.triple, now)]
    else units
  }

  function ApplyAll(units: Snapshots, byName: Index, scope: string, sts: seq<Status>, now: nat): Snapshots {
    if sts == [] then units
    else ApplyOne(ApplyAll(units, byName, scope, sts[..|sts| - 1], now), byName, scope, sts[|sts| - 1], now)
  }

  /** Only the recorded state of a snapshot differs; identity and scope stay, and known never falls. */
  ghost predicate Advances(units: Snapshots, units': Snapshots, scope: string) {
    && units.Keys == units'.Keys
    && forall id :: id in units ==>
         && (units'[id].id, units'[id].name, units'[id].scope) == (units[id].id, units[id].name, units[id].scope)
         && (units[id].known ==> units'[id].known)
         && (units[id].scope != scope ==> units'[id] == units[id])
  }

  lemma HasUnitsKept(us: seq<UnitConfig>, units: Snapshots, units': Snapshots, scope: string)
    requires HasUnits(us, units) && Advances(units, units', scope)
    ensures HasUnits(us, units')
  {
    hide ObjectID;
    forall id ensures id in units' <==> exists i :: 0 <= i < |us| && ObjectID(us[i]) == id {
      assert id in units' <==> id in units;
    }
  }

  lemma {:induction false} ApplyAllAdvances(us: seq<UnitConfig>, units: Snapshots, byName: Index, scope: string,
      sts: seq<Status>, now: nat)
    requires HasUnits(us, units) && Inverse(us, byName)
    ensures Advances(units, ApplyAll(units, byName, scope, sts, now), scope)
    ensures HasUnits(us, ApplyAll(units, byName, scope, sts, now))
  {
    if sts != [] {
      ApplyAllAdvances(us, units, byName, scope, sts[..|sts| - 1], now);
      var before := ApplyAll(units, byName, scope, sts[..|sts| - 1], now);
      ApplyOneAdvances(us, before, byName, scope, sts[|sts| - 1], now);
      HasUnitsKept(us, units, ApplyAll(units, byName, scope, sts, now), scope);
    }
  }

  lemma ApplyOneAdvances(us: seq<UnitConfig>, units: Snapshots, byName: Index, scope: string, st: Status, now: nat)
    requires HasUnits(us, units) && Inverse(us, byName)
    ensures Advances(units, ApplyOne(units, byName, scope, st, now), scope)
  {
    hide HasUnits, Inverse;
    if Key(scope, st.name) in byName {
      IndexLeads(us, units, byName, Key(scope, st.name));
    }
  }

  /** No two entries of an answer carry the same name. */
  ghost predicate DistinctNames(sts: seq<Status>) {
    forall i, j :: 0 <= i < j < |sts| ==> sts[i].name != sts[j].name
  }

  /** Applying an answer records, for each unit of the scope that it names, exactly the state it gives. A unit it does
      not name keeps its snapshot. */
  lemma {:induction false} ApplyAllExact(us: seq<UnitConfig>, units: Snapshots, byName: Index, scope: string,
      sts: seq<Status>, now: nat, id: string)
    requires HasUnits(us, units) && Inverse(us, byName) && DistinctNames(sts) && id in units
    ensures var units' := ApplyAll(units, byName, scope, sts, now);
      && id in units'
      && (forall j :: 0 <= j < |sts| && Key(scope, sts[j].name) in byName && byName[Key(scope, sts[j].name)] == id ==>
           units'[id] == Record(units[id], sts[j].triple, now))
      && ((forall j :: 0 <= j < |sts| ==> !(Key(scope, sts[j].name) in byName && byName[Key(scope, sts[j].name)] == id)) ==>
           units'[id] == units[id])
  {
    hide HasUnits, Inverse;
    if sts != [] {
      var n := |sts| - 1;
      ApplyAllExact(us, units, byName, scope, sts[..n], now, id);
      ApplyAllAdvances(us, units, byName, scope, sts[..n], now);
      var k := Key(scope, sts[n].name);
      if k in byName {
        IndexLeads(us, units, byName, k);
        forall j | 0 <= j < n && Key(scope, sts[j].name) in byName ensures byName[Key(scope, sts[j].name)] != byName[k] {
          IndexLeads(us, units, byName, Key(scope, sts[j].name));
        }
      }
      assert forall j :: 0 <= j < n ==> sts[..n][j] == sts[j];
    }
  }

  /** What a successful query of an accepted configuration brings: for every unit of the scope one entry under its
      name, in the order in which the units were asked for. */
  ghost predicate AnswersScope(us: seq<UnitConfig>, scope: string, sts: seq<Status>) {
    var asked := UnitsForScope(us, scope);
    |sts| == |asked| && forall j :: 0 <= j < |asked| ==> sts[j].name == asked[j].name
  }

  ghost predicate NamesDiffer(asked: seq<UnitConfig>) {
    forall i, j :: 0 <= i < j < |asked| ==> asked[i].name != asked[j].name
  }

  lemma NamesApart(us: seq<UnitConfig>, n: nat, u: UnitConfig)
    requires UnitsOK(us) && n < |us| && u in us[..n] && u.scope == us[n].scope
    ensures u.name != us[n].name
  {
    hide ObjectID, UnitOK, Components;
    var k :| 0 <= k < n && us[..n][k] == u;
    assert Apart(us[k], us[n]);
  }

  lemma {:induction false} AskedDistinct(us: seq<UnitConfig>, scope: string)
    requires UnitsOK(us)
    ensures NamesDiffer(UnitsForScope(us, scope))
  {
    if us != [] {
      var n := |us| - 1;
      UnitsOKAppend(us[..n], us[n]);
      assert us == us[..n] + [us[n]];
      hide UnitsOK, UnitOK, Apart;
      AskedDistinct(us[..n], scope);
      var before := UnitsForScope(us[..n], scope);
      forall i | 0 <= i < |before| && us[n].scope == scope ensures before[i].name != us[n].name {
        assert before[i] in before;
        NamesApart(us, n, before[i]);
      }
    }
  }

  /** A snapshot that took over the state of an answer. */
  predicate Shows(st: Status, name: string, before: Snapshot, after: Snapshot, now: nat) {
    && st.name == name && after.known && after.triple == st.triple
    && after.changedAt == if before.known && before.triple == st.triple then before.changedAt else now
  }

  /** A successful reconcile of an accepted configuration: every unit of the scope becomes known with the state that
      the answer gives for its name, its time of change moves iff that state is new, and every other unit keeps its
      snapshot. */
  lemma ReconcileExact(us: seq<UnitConfig>, units: Snapshots, byName: Index, scope: string, sts: seq<Status>, now: nat,
      u: UnitConfig)
    requires UnitsOK(us) && HasUnits(us, units) && Inverse(us, byName) && AnswersScope(us, scope, sts) && u in us
    ensures var id, units' := ObjectID(u), ApplyAll(units, byName, scope, sts, now);
      && id in units && id in units'
      && (u.scope != scope ==> units'[id] == units[id])
      && (u.scope == scope ==> exists j :: 0 <= j < |sts| && Shows(sts[j], u.name, units[id], units'[id], now))
  {
    hide ObjectID, UnitsOK, HasUnits, Inverse;
    var id := ObjectID(u);
    UnitKey(us, units, byName, u);
    AskedDistinct(us, scope);
    assert DistinctNames(sts);
    ApplyAllExact(us, units, byName, scope, sts, now, id);
    ApplyAllAdvances(us, units, byName, scope, sts, now);
    if u.scope == scope {
      var asked := UnitsForScope(us, scope);
      assert u in asked;
      var j :| 0 <= j < |asked| && asked[j] == u;
      assert sts[j].name == u.name && Key(scope, sts[j].name) == KeyOf(u);
    }
  }

  lemma UnitKey(us: seq<UnitConfig>, units: Snapshots, byName: Index, u: UnitConfig)
    requires HasUnits(us, units) && Inverse(us, byName) && u in us
    ensures KeyOf(u) in byName && byName[KeyOf(u)] == ObjectID(u) && ObjectID(u) in units
    ensures units[ObjectID(u)].scope == u.scope
  {
    hide ObjectID;
    var i :| 0 <= i < |us| && us[i] == u;
  }

  // ----- The state of a select

  /** The captions of the options whose unit is known and on, in option order. */
  function ActiveCaptions(units: Snapshots, options: seq<SelectOption>): seq<string> {
    if options == [] then []
    else
      var last := options[|options| - 1];
      ActiveCaptions(units, options[..|options| - 1])
      + if last.unitID in units && units[last.unitID].known && IsOn(units[last.unitID]) then [last.caption] else []
  }

  predicate AnyKnown(units: Snapshots, options: seq<SelectOption>) {
    exists i :: 0 <= i < |options| && options[i].unitID in units && units[options[i].unitID].known
  }

  function SelectCaption(units: Snapshots, options: seq<SelectOption>): string {
    var active := ActiveCaptions(units, options);
    if active == [] then "off" else active[0]
  }

  predicate ShowsOn(units: Snapshots, o: SelectOption) {
    o.unitID in units && units[o.unitID].known && IsOn(units[o.unitID])
  }

  function ShownOn(units: Snapshots): SelectOption -> bool { (o: SelectOption) => ShowsOn(units, o) }

  /** The active captions are those of the options whose unit is known and runs, in option order. */
  lemma {:induction false} ActiveOrder(units: Snapshots, options: seq<SelectOption>)
    ensures var at := Positions(options, ShownOn(units));
      && |ActiveCaptions(units, options)| == |at|
      && forall a :: 0 <= a < |at| ==> ActiveCaptions(units, options)[a] == options[at[a]].caption
  {
    hide ActiveCaptions, Positions, ShownOn, ShowsOn;
    if options == [] {
      NoneActive(units);
    } else {
      var n := |options| - 1;
      ActiveOrder(units, options[..n]);
      PositionsSnoc(options, ShownOn(units));
      ActiveSnoc(units, options);
    }
  }

  lemma NoneActive(units: Snapshots)
    ensures ActiveCaptions(units, []) == [] && Positions([], ShownOn(units)) == []
  {
  }

  lemma ActiveSnoc(units: Snapshots, options: seq<SelectOption>)
    requires options != []
    ensures var last := options[|options| - 1];
      ActiveCaptions(units, options)
        == ActiveCaptions(units, options[..|options| - 1]) + if ShownOn(units)(last) then [last.caption] else []
  {
  }

  /** An option shows on exactly when its unit is known in one of the three states that count as running. */
  lemma ShowsOnExact(units: Snapshots, o: SelectOption)
    ensures ShowsOn(units, o) <==>
      && o.unitID in units && units[o.unitID].known
      && units[o.unitID].triple.active in ["active", "activating", "reloading"]
  {
  }

  predicate FirstOn(units: Snapshots, options: seq<SelectOption>, i: nat)
    requires i < |options|
  {
    ShowsOn(units, options[i]) && forall j :: 0 <= j < i ==> !ShowsOn(units, options[j])
  }

  /** The caption is that of the first option whose unit is on, and "off" when none is. */
  lemma {:induction false} CaptionOfFirst(units: Snapshots, options: seq<SelectOption>)
    ensures (forall i :: 0 <= i < |options| ==> !ShowsOn(units, options[i])) ==>
      ActiveCaptions(units, options) == [] && SelectCaption(units, options) == "off"
    ensures forall i :: 0 <= i < |options| && FirstOn(units, options, i) ==>
      ActiveCaptions(units, options) != [] && SelectCaption(units, options) == options[i].caption
  {
    hide ShowsOn;
    if forall i :: 0 <= i < |options| ==> !ShowsOn(units, options[i]) {
      NoneOn(units, options);
    }
    hide ActiveCaptions;
    forall i | 0 <= i < |options| && FirstOn(units, options, i)
      ensures ActiveCaptions(units, options) != [] && SelectCaption(units, options) == options[i].caption
    {
      FirstActive(units, options, i);
    }
  }

  lemma {:induction false} NoneOn(units: Snapshots, options: seq<SelectOption>)
    requires forall i :: 0 <= i < |options| ==> !ShowsOn(units, options[i])
    ensures ActiveCaptions(units, options) == []
  {
    if options != [] {
      NoneOn(units, options[..|options| - 1]);
    }
  }

  lemma {:induction false} FirstActive(units: Snapshots, options: seq<SelectOption>, i: nat)
    requires i < |options| && FirstOn(units, options, i)
    ensures ActiveCaptions(units, options) != [] && ActiveCaptions(units, options)[0] == options[i].caption
  {
    var before := options[..|options| - 1];
    if i < |before| {
      FirstActive(units, before, i);
    } else {
      NoneOn(units, before);
    }
  }

  lemma NoUnits()
    ensures HasUnits([], map[]) && Inverse([], map[]) && StartUnits([]) == map[]
  {
  }

  /** The snapshots that NewState seeds. */
  function StartUnits(us: seq<UnitConfig>): Snapshots {
    if us == [] then map[] else StartUnits(us[..|us| - 1])[ObjectID(us[|us| - 1]) := Empty(us[|us| - 1])]
  }

  /** The index that NewState builds. */
  function StartIndex(us: seq<UnitConfig>): Index {
    if us == [] then map[] else StartIndex(us[..|us| - 1])[KeyOf(us[|us| - 1]) := ObjectID(us[|us| - 1])]
  }

  lemma {:induction false} StartIndexInverse(us: seq<UnitConfig>)
    requires UnitsOK(us)
    ensures Inverse(us, StartIndex(us))
  {
    hide ObjectID, KeyOf, Inverse, UnitsOK;
    if us == [] {
      NoUnits();
    } else {
      var n := |us| - 1;
      assert us == us[..n] + [us[n]];
      UnitsOKAppend(us[..n], us[n]);
      StartIndexInverse(us[..n]);
      UnitsApart(us, n);
      InverseAppend(us[..n], us[n], StartIndex(us[..n]));
    }
  }

  /** There is only one such index. */
  lemma InverseUnique(us: seq<UnitConfig>, a: Index, b: Index)
    requires Inverse(us, a) && Inverse(us, b)
    ensures a == b
  {
    hide ObjectID, KeyOf;
    forall k ensures k in a <==> k in b {
    }
    assert a.Keys == b.Keys;
    forall k | k in a ensures a[k] == b[k] {
      var i :| 0 <= i < |us| && KeyOf(us[i]) == k;
    }
  }

  lemma StartSnoc(us: seq<UnitConfig>, u: UnitConfig)
    ensures StartUnits(us + [u]) == StartUnits(us)[ObjectID(u) := Empty(u)]
  {
    hide ObjectID, Empty;
    assert (us + [u])[..|us|] == us;
  }

  lemma EmptyIs(u: UnitConfig)
    ensures Empty(u) == Snapshot(ObjectID(u), u.name, u.scope, false, Triple("", "", ""), 0, "", "", "", 0)
  {
  }

  class State {
    var order: seq<string>
    var units: Snapshots
    var byName: Index

    ghost predicate Valid(us: seq<UnitConfig>)
      reads this
    {
      && HasUnits(us, units) && Inverse(us, byName)
      && |order| == |us| && forall i :: 0 <= i < |us| ==> order[i] == ObjectID(us[i])
    }

    /** One empty snapshot per unit, in configuration order. */
    constructor (us: seq<UnitConfig>)
      requires UnitsOK(us)
      ensures Valid(us) && units == StartUnits(us)
      ensures forall id :: id in units ==>
        units[id] == Snapshot(id, units[id].name, units[id].scope, false, Triple("", "", ""), 0, "", "", "", 0)
    {
      order, units, byName := [], map[], map[];
      new;
      NoUnits();
      hide ObjectID, Empty, HasUnits, Inverse, UnitsOK, KeyOf, StartUnits;
      for n := 0 to |us|
        invariant Valid(us[..n]) && units == StartUnits(us[..n])
        invariant forall id :: id in units ==>
          units[id] == Snapshot(id, units[id].name, units[id].scope, false, Triple("", "", ""), 0, "", "", "", 0)
      {
        var u := us[n];
        assert us[..n + 1] == us[..n] + [u];
        UnitsApart(us, n);
        HasUnitsAppend(us[..n], u, units);
        InverseAppend(us[..n], u, byName);
        StartSnoc(us[..n], u);
        EmptyIs(u);
        order := order + [ObjectID(u)];
        units := units[ObjectID(u) := Empty(u)];
        byName := byName[KeyOf(u) := ObjectID(u)];
      }
      assert us[..|us|] == us;
    }

    /** None for a name that is not configured in the scope. */
    method ApplyUnit(scope: string, st: Status, now: nat) returns (snap: Option<Snapshot>, changed: bool)
      modifies this`units
      ensures units == ApplyOne(old(units), byName, scope, st, now)
      ensures var k := Key(scope, st.name);
        if k in byName && byName[k] in old(units)
        then snap == Some(units[byName[k]])
          && (changed <==> !old(units)[byName[k]].known || old(units)[byName[k]].triple != st.triple)
        else snap == None && !changed
      ensures var k := Key(scope, st.name);
        k in byName && byName[k] in old(units) ==>
          && units == old(units)[byName[k] := snap.value]
          && snap.value == if changed
               then old(units)[byName[k]].(known := true, triple := st.triple, changedAt := now)
               else old(units)[byName[k]]
    {
      var k := Key(scope, st.name);
      changed := false;
      if k !in byName || byName[k] !in units {
        return None, false;
      }
      var u := units[byName[k]];
      if !u.known || u.triple != st.triple {
        u := u.(known := true, triple := st.triple, changedAt := now);
        changed := true;
      }
      units := units[byName[k] := u];
      snap := Some(u);
    }

    /** The state of the unit is untouched. */
    method SetJobResult(id: string, verb: string, result: string, error: string, now: nat) returns (snap: Option<Snapshot>)
      modifies this`units
      ensures id !in old(units) ==> snap == None && units == old(units)
      ensures id in old(units) ==>
        units == old(units)[id := WithJob(old(units)[id], verb, result, error, now)] && snap == Some(units[id])
      ensures id in old(units) ==> snap == Some(old(units)[id].(
        lastJob := verb, lastResult := result, lastError := error, lastJobAt := now))
    {
      if id !in units {
        return None;
      }
      var u := units[id].(lastJob := verb, lastResult := result, lastError := error, lastJobAt := now);
      units := units[id := u];
      snap := Some(u);
    }

    method TemplateState(options: seq<SelectOption>) returns (caption: string, active: seq<string>, known: bool)
      ensures known <==> AnyKnown(units, options)
      ensures active == ActiveCaptions(units, options) && caption == SelectCaption(units, options)
    {
      active, known := [], false;
      for i := 0 to |options|
        invariant known <==> exists j :: 0 <= j < i && options[j].unitID in units && units[options[j].unitID].known
        invariant active == ActiveCaptions(units, options[..i])
      {
        assert options[..i + 1][..i] == options[..i];
        var o := options[i];
        if o.unitID in units && units[o.unitID].known {
          known := true;
          if IsOn(units[o.unitID]) {
            active := active + [o.caption];
          }
        }
      }
      assert options[..|options|] == options;
      caption := if active == [] then "off" else active[0];
    }
  }

  lemma UnitsApart(us: seq<UnitConfig>, n: nat)
    requires UnitsOK(us) && n < |us|
    ensures forall i :: 0 <= i < n ==> ObjectID(us[..n][i]) != ObjectID(us[n]) && KeyOf(us[..n][i]) != KeyOf(us[n])
  {
    hide ObjectID, UnitOK, Components;
    forall i | 0 <= i < n ensures ObjectID(us[..n][i]) != ObjectID(us[n]) && KeyOf(us[..n][i]) != KeyOf(us[n]) {
      assert Apart(us[i], us[n]);
    }
  }
}
