/** Matching systemd's answers, which carry primary names, to the names that were asked for. */
module StatusMapping {
  import opened Text

  /** The three state strings of a unit. */
  datatype Triple = Triple(active: string, sub: string, load: string)

  /** One entry of systemd's answer, or of the mapped result. */
  datatype Status = Status(name: string, triple: Triple)

  const NOT_FOUND := Triple("inactive", "dead", "not-found")

  // ----- Alias resolution

  /** The aliases that one lookup records: every asked name answered under another, non-empty, name. */
  function AliasesOf(watch: seq<string>, raw: seq<Status>, n: nat): map<string, string>
    requires n <= |watch| == |raw|
  {
    if n == 0 then map[]
    else
      var before := AliasesOf(watch, raw, n - 1);
      if raw[n - 1].name == "" || raw[n - 1].name == watch[n - 1] then before
      else before[watch[n - 1] := raw[n - 1].name]
  }

  class Conn {
    var aliases: map<string, string>
    var watch: set<string>

    constructor (names: seq<string>)
      ensures aliases == map[] && watch == set n | n in names
    {
      aliases, watch := map[], set n | n in names;
    }

    /** Asks once for the primary name of every watched name. A failed or short answer leaves everything alone. */
    method ResolveAliases(names: seq<string>, raw: Option<seq<Status>>)
      requires aliases == map[]
      modifies this
      ensures names == [] || raw == None || |raw.value| != |names| ==> aliases == map[] && watch == old(watch)
      ensures raw.Some? && |raw.value| == |names| ==>
        && aliases == AliasesOf(names, raw.value, |names|)
        && (forall v :: v in watch <==> v in old(watch) || Renames(names, raw.value, |names|, v))
        && forall k :: k in aliases <==> exists j :: 0 <= j < |names| && NamedOtherwise(names, raw.value, k, j)
      ensures raw.Some? && |raw.value| == |names| ==>
        forall k, j: nat :: j < |names| && LastNamed(names, raw.value, |names|, k, j) ==>
          k in aliases && aliases[k] == raw.value[j].name
    {
      if names == [] || raw == None || |raw.value| != |names| {
        return;
      }
      for i := 0 to |names|
        invariant aliases == AliasesOf(names, raw.value, i)
        invariant forall v :: v in watch <==> v in old(watch) || Renames(names, raw.value, i, v)
      {
        var r := raw.value[i];
        if r.name != "" && r.name != names[i] {
          aliases := aliases[names[i] := r.name];
          watch := watch + {r.name};
        }
      }
      forall k
        ensures k in aliases <==> exists j :: 0 <= j < |names| && NamedOtherwise(names, raw.value, k, j)
        ensures forall j: nat :: j < |names| && LastNamed(names, raw.value, |names|, k, j) ==>
          k in aliases && aliases[k] == raw.value[j].name
      {
        AliasesNamed(names, raw.value, |names|, k);
      }
    }
  }

  /** The name at j is k, and the entry at j carries another, non-empty, name. */
  predicate NamedOtherwise(names: seq<string>, raw: seq<Status>, k: string, j: nat)
    requires j < |names| == |raw|
  {
    names[j] == k && raw[j].name != "" && raw[j].name != k
  }

  /** And no later one of the first n does. */
  predicate LastNamed(names: seq<string>, raw: seq<Status>, n: nat, k: string, j: nat)
    requires j < n <= |names| == |raw|
  {
    NamedOtherwise(names, raw, k, j) && forall i :: j < i < n ==> !NamedOtherwise(names, raw, k, i)
  }

  /** A name is recorded exactly when some entry names it otherwise, with the name that the last such entry gives. */
  lemma {:induction false} AliasesNamed(names: seq<string>, raw: seq<Status>, n: nat, k: string)
    requires n <= |names| == |raw|
    ensures k in AliasesOf(names, raw, n) <==> exists j :: 0 <= j < n && NamedOtherwise(names, raw, k, j)
    ensures forall j: nat :: j < n && LastNamed(names, raw, n, k, j) ==>
      k in AliasesOf(names, raw, n) && AliasesOf(names, raw, n)[k] == raw[j].name
  {
    if n > 0 {
      AliasesNamed(names, raw, n - 1, k);
      assert NamedOtherwise(names, raw, k, n - 1) ==> k == names[n - 1];
      assert k in AliasesOf(names, raw, n) <==> k in AliasesOf(names, raw, n - 1) || NamedOtherwise(names, raw, k, n - 1);
      assert forall j: nat :: j < n - 1 && LastNamed(names, raw, n, k, j) ==> LastNamed(names, raw, n - 1, k, j);
    }
  }

  /** v is the non-empty primary name of one of the first n names, and differs from it. */
  predicate Renames(watch: seq<string>, raw: seq<Status>, n: nat, v: string)
    requires n <= |watch| == |raw|
  {
    exists j :: 0 <= j < n && raw[j].name == v && v != "" && v != watch[j]
  }

  // ----- The mapping

  /** The lookup table by answered name. The last entry of a name stays. */
  function ByName(raw: seq<Status>): (m: map<string, Status>)
    ensures forall k :: k in m ==> m[k] in raw && m[k].name == k
    ensures forall r :: r in raw ==> r.name in m
  {
    if raw == [] then map[]
    else
      var last := raw[|raw| - 1];
      assert raw == raw[..|raw| - 1] + [last];
      ByName(raw[..|raw| - 1])[last.name := last]
  }

  predicate Lists(raw: seq<Status>, n: string) { exists j :: 0 <= j < |raw| && raw[j].name == n }

  /** Entry j is the last one of a name. */
  predicate LastOf(raw: seq<Status>, n: string, j: nat) {
    j < |raw| && raw[j].name == n && forall k :: j < k < |raw| ==> raw[k].name != n
  }

  lemma ListsSnoc(raw: seq<Status>, r: Status, n: string)
    ensures Lists(raw + [r], n) <==> Lists(raw, n) || r.name == n
  {
    var all := raw + [r];
    assert all[|raw|] == r && forall j :: 0 <= j < |raw| ==> all[j] == raw[j];
    if Lists(raw, n) {
      var j :| 0 <= j < |raw| && raw[j].name == n;
      assert all[j].name == n;
    }
  }

  lemma LastSnoc(raw: seq<Status>, r: Status, n: string, j: nat)
    requires LastOf(raw + [r], n, j)
    ensures if j == |raw| then r.name == n else r.name != n && LastOf(raw, n, j) && (raw + [r])[j] == raw[j]
  {
    var all := raw + [r];
    assert all[|raw|] == r && forall k :: 0 <= k < |raw| ==> all[k] == raw[k];
  }

  lemma ByNameSnoc(raw: seq<Status>, r: Status)
    ensures ByName(raw + [r]) == ByName(raw)[r.name := r]
  {
    assert (raw + [r])[..|raw|] == raw;
  }

  /** The lookup table has an entry for exactly the names listed, the last one of each. */
  lemma {:induction false} ByNameLast(raw: seq<Status>, n: string)
    ensures n in ByName(raw) <==> Lists(raw, n)
    ensures forall j: nat :: LastOf(raw, n, j) ==> n in ByName(raw) && ByName(raw)[n] == raw[j]
  {
    if raw != [] {
      var m := |raw| - 1;
      var before, r := raw[..m], raw[m];
      assert raw == before + [r];
      ByNameLast(before, n);
      ListsSnoc(before, r, n);
      ByNameSnoc(before, r);
      hide ByName, Lists, LastOf;
      forall j: nat | LastOf(raw, n, j) ensures n in ByName(raw) && ByName(raw)[n] == raw[j] {
        LastSnoc(before, r, n, j);
      }
    }
  }

  /** By name, then by alias, then by position. */
  function Find(names: seq<string>, aliases: map<string, string>, raw: seq<Status>, i: nat): Option<Triple>
    requires i < |names|
  {
    var byName, n := ByName(raw), names[i];
    if n in byName then Some(byName[n].triple)
    else if n in aliases && aliases[n] in byName then Some(byName[aliases[n]].triple)
    else if |raw| == |names| && raw[i].name !in names then Some(raw[i].triple)
    else None
  }

  function Mapped(names: seq<string>, aliases: map<string, string>, raw: seq<Status>, i: nat): Status
    requires i < |names|
  {
    var found := Find(names, aliases, raw, i);
    Status(names[i], if found.Some? then found.value else NOT_FOUND)
  }

  /** What the i-th name is answered: the last entry of the name, else the last entry of its recorded primary name, else
      the entry at its position if that one belongs to no asked name, and else that systemd cannot find it. */
  ghost predicate Answers(names: seq<string>, aliases: map<string, string>, raw: seq<Status>, i: nat, out: Status)
    requires i < |names|
  {
    var n := names[i];
    && out.name == n
    && (forall j: nat :: LastOf(raw, n, j) ==> out.triple == raw[j].triple)
    && (!Lists(raw, n) && n in aliases ==> forall j: nat :: LastOf(raw, aliases[n], j) ==> out.triple == raw[j].triple)
    && (!Lists(raw, n) && (n in aliases ==> !Lists(raw, aliases[n])) ==>
         out.triple == if |raw| == |names| && raw[i].name !in names then raw[i].triple else Triple("inactive", "dead", "not-found"))
  }

  lemma MappedAnswers(names: seq<string>, aliases: map<string, string>, raw: seq<Status>, i: nat)
    requires i < |names|
    ensures Answers(names, aliases, raw, i, Mapped(names, aliases, raw, i))
  {
    ByNameLast(raw, names[i]);
    if names[i] in aliases {
      ByNameLast(raw, aliases[names[i]]);
    }
    hide ByName, Lists;
  }

  /** The first loop of mapStatuses. */
  method IndexByName(raw: seq<Status>) returns (byName: map<string, Status>)
    ensures byName == ByName(raw)
    ensures forall n :: n in byName <==> Lists(raw, n)
    ensures forall n, j: nat :: LastOf(raw, n, j) ==> n in byName && byName[n] == raw[j]
  {
    forall n
      ensures n in ByName(raw) <==> Lists(raw, n)
      ensures forall j: nat :: LastOf(raw, n, j) ==> n in ByName(raw) && ByName(raw)[n] == raw[j]
    {
      ByNameLast(raw, n);
    }
    byName := map[];
    for j := 0 to |raw|
      invariant byName == ByName(raw[..j])
    {
      assert raw[..j + 1][..j] == raw[..j];
      byName := byName[raw[j].name := raw[j]];
    }
    assert raw[..|raw|] == raw;
  }

  method MapStatuses(names: seq<string>, aliases: map<string, string>, raw: seq<Status>) returns (out: seq<Status>)
    ensures |out| == |names| && forall i :: 0 <= i < |names| ==> out[i] == Mapped(names, aliases, raw, i)
    ensures forall i :: 0 <= i < |names| ==> Answers(names, aliases, raw, i, out[i])
  {
    hide ByName, Answers, Lists, LastOf;
    var byName := IndexByName(raw);
    var asked: set<string> := {};
    for j := 0 to |names|
      invariant forall n :: n in asked <==> n in names[..j]
    {
      asked := asked + {names[j]};
    }
    assert names[..|names|] == names;
    var positional := |raw| == |names|;
    out := [];
    for i := 0 to |names|
      invariant |out| == i && forall k :: 0 <= k < i ==> out[k] == Mapped(names, aliases, raw, k)
    {
      var n := names[i];
      var r := if n in byName then Some(byName[n]) else None;
      if r.None? && n in aliases && aliases[n] in byName {
        r := Some(byName[aliases[n]]);
      }
      if r.None? && positional && raw[i].name !in asked {
        r := Some(raw[i]);
      }
      out := out + [Status(n, if r.None? then NOT_FOUND else r.value.triple)];
    }
    forall i | 0 <= i < |names| ensures Answers(names, aliases, raw, i, out[i]) {
      MappedAnswers(names, aliases, raw, i);
    }
  }

  // ----- Exactness

  /** What a truthful manager answers, in request order: each name's unit under its primary name. */
  function InOrder(names: seq<string>, primary: string -> string, truth: string -> Triple): (r: seq<Status>)
    ensures |r| == |names|
    ensures forall i :: 0 <= i < |names| ==> r[i] == Status(primary(names[i]), truth(primary(names[i])))
  {
    seq(|names|, i requires 0 <= i < |names| => Status(primary(names[i]), truth(primary(names[i]))))
  }

  ghost predicate Primary(names: seq<string>, primary: string -> string) {
    forall n :: n in names ==> primary(primary(n)) == primary(n) && primary(n) != ""
  }

  /** Every name is mapped, at its position and under the name asked for, to the state of its unit. */
  ghost predicate Exact(names: seq<string>, aliases: map<string, string>, raw: seq<Status>, primary: string -> string,
      truth: string -> Triple) {
    forall i :: 0 <= i < |names| ==> Mapped(names, aliases, raw, i) == Status(names[i], truth(primary(names[i])))
  }

  lemma {:induction false} AliasesRecorded(names: seq<string>, n: nat, primary: string -> string, truth: string -> Triple)
    requires n <= |names| && Primary(names, primary)
    ensures var a := AliasesOf(names, InOrder(names, primary, truth), n);
      forall k :: k in a <==> k in names[..n] && primary(k) != k
    ensures var a := AliasesOf(names, InOrder(names, primary, truth), n); forall k :: k in a ==> a[k] == primary(k)
  {
    if n > 0 {
      AliasesRecorded(names, n - 1, primary, truth);
      assert names[..n] == names[..n - 1] + [names[n - 1]];
      assert names[n - 1] in names;
    }
  }

  /** In a truthful answer, in any order and with any repetition, a name is listed iff it is its own primary. */
  lemma ListedIffPrimary(names: seq<string>, raw: seq<Status>, primary: string -> string, truth: string -> Triple, n: string)
    requires Primary(names, primary) && n in names
    requires forall e :: e in raw <==> e in InOrder(names, primary, truth)
    ensures n in ByName(raw) <==> primary(n) == n
    ensures primary(n) in ByName(raw) && ByName(raw)[primary(n)].triple == truth(primary(n))
  {
    var truths := InOrder(names, primary, truth);
    var i :| 0 <= i < |names| && names[i] == n;
    assert truths[i] in truths;
    var e := ByName(raw)[primary(n)];
    assert e in truths;
    if n in ByName(raw) {
      var d := ByName(raw)[n];
      assert d in truths;
      var j :| 0 <= j < |truths| && truths[j] == d;
      assert names[j] in names;
    }
  }

  /** With the aliases that a truthful lookup recorded, the mapping is exact for a truthful answer in any order. */
  lemma ExactWithAliases(names: seq<string>, raw: seq<Status>, primary: string -> string, truth: string -> Triple,
      truthThen: string -> Triple)
    requires Primary(names, primary)
    requires forall e :: e in raw <==> e in InOrder(names, primary, truth)
    ensures Exact(names, AliasesOf(names, InOrder(names, primary, truthThen), |names|), raw, primary, truth)
  {
    AliasesRecorded(names, |names|, primary, truthThen);
    assert names[..|names|] == names;
    forall i | 0 <= i < |names|
      ensures Mapped(names, AliasesOf(names, InOrder(names, primary, truthThen), |names|), raw, i)
        == Status(names[i], truth(primary(names[i])))
    {
      hide InOrder, AliasesOf;
      ListedIffPrimary(names, raw, primary, truth, names[i]);
    }
  }

  /** An alias whose primary is asked for too, and which the table does not know. */
  predicate Hidden(names: seq<string>, aliases: map<string, string>, primary: string -> string, n: string) {
    primary(n) != n && n !in aliases && primary(n) in names
  }

  /** With an incomplete or empty alias table an in-order answer is mapped exactly iff every hidden alias is an alias
      of a unit that systemd does not find anyway. */
  lemma ExactInOrder(names: seq<string>, aliases: map<string, string>, primary: string -> string, truth: string -> Triple)
    requires Primary(names, primary) && forall k :: k in aliases ==> aliases[k] == primary(k)
    ensures Exact(names, aliases, InOrder(names, primary, truth), primary, truth) <==>
      forall n :: n in names && Hidden(names, aliases, primary, n) ==>
        truth(primary(n)) == Triple("inactive", "dead", "not-found")
  {
    var raw := InOrder(names, primary, truth);
    forall i | 0 <= i < |names|
      ensures Mapped(names, aliases, raw, i).triple == truth(primary(names[i])) <==>
        !Hidden(names, aliases, primary, names[i]) || truth(primary(names[i])) == NOT_FOUND
    {
      ListedIffPrimary(names, raw, primary, truth, names[i]);
    }
    if Exact(names, aliases, raw, primary, truth) {
      forall n | n in names && Hidden(names, aliases, primary, n) ensures truth(primary(n)) == NOT_FOUND {
        var i :| 0 <= i < |names| && names[i] == n;
        assert Mapped(names, aliases, raw, i) == Status(names[i], truth(primary(names[i])));
      }
    }
  }

  /** The failing case: "dm" is an alias of the running "gdm", both are asked for, and no alias is known. */
  lemma AliasLostWithoutTable()
    ensures var primary := (n: string) => if n == "dm" then "gdm" else n;
      var truth := (n: string) => Triple("active", "running", "loaded");
      && Mapped(["dm", "gdm"], map[], InOrder(["dm", "gdm"], primary, truth), 0)
        == Status("dm", Triple("inactive", "dead", "not-found"))
      && !Exact(["dm", "gdm"], map[], InOrder(["dm", "gdm"], primary, truth), primary, truth)
  {
    var primary := (n: string) => if n == "dm" then "gdm" else n;
    var truth := (n: string) => Triple("active", "running", "loaded");
    ListedIffPrimary(["dm", "gdm"], InOrder(["dm", "gdm"], primary, truth), primary, truth, "dm");
  }
}
