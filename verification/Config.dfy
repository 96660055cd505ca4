/** Configuration: template expansion, and the validation on which the rest of the daemon relies. */
module Config {
  import opened Text

  const USER := "user"
  const SYSTEM := "system"

  datatype UnitConfig = UnitConfig(name: string, scope: string, id: string, friendlyName: string,
    restartButton: Option<bool>, problemSensor: Option<bool>, templateID: string)

  datatype InstanceConfig = InstanceConfig(name: string, friendlyName: string)

  datatype TemplateConfig = TemplateConfig(name: string, scope: string, id: string, friendlyName: string,
    exclusive: bool, restartButton: Option<bool>, problemSensor: Option<bool>, instances: seq<InstanceConfig>)

  datatype SelectOption = SelectOption(caption: string, unitID: string, unitName: string)

  datatype TemplateSelect = TemplateSelect(id: string, name: string, scope: string, options: seq<SelectOption>)

  /** The resolved configuration that the other components read. */
  datatype Settings = Settings(nodeID: string, baseTopic: string, discoveryPrefix: string, statusTopic: string,
    haEnabled: bool, displayEnabled: bool, exposeModeSelect: bool, pollInterval: nat,
    all: seq<UnitConfig>, selects: seq<TemplateSelect>)

  // ----- Unit names and ids

  predicate IsLowerOrDigit(c: char) { 'a' <= c <= 'z' || '0' <= c <= '9' }

  /** strings.ToLower as far as an id can tell: two characters outside ASCII, the Kelvin sign and the dotted capital I,
      have a lower-case letter inside it. */
  function LowerChar(c: char): char {
    if 'A' <= c <= 'Z' then (c - 'A') + 'a'
    else if c == '\U{212A}' then 'k'
    else if c == '\U{0130}' then 'i'
    else c
  }

  function ToLower(s: string): (r: string)
    ensures |r| == |s|
  {
    seq(|s|, i requires 0 <= i < |s| => LowerChar(s[i]))
  }

  function TrimSuffix(s: string, suffix: string): string {
    if |suffix| <= |s| && s[|s| - |suffix|..] == suffix then s[..|s| - |suffix|] else s
  }

  /** Every maximal run of other characters becomes one '_'. */
  function Collapse(s: string): string {
    if s == "" then ""
    else
      var rest := Collapse(s[1..]);
      if IsLowerOrDigit(s[0]) then [s[0]] + rest
      else if |s| > 1 && !IsLowerOrDigit(s[1]) then rest
      else "_" + rest
  }

  function TrimLeft(s: string): string {
    if s != "" && s[0] == '_' then TrimLeft(s[1..]) else s
  }

  function TrimRight(s: string): string {
    if s != "" && s[|s| - 1] == '_' then TrimRight(s[..|s| - 1]) else s
  }

  function Slugify(name: string): string {
    TrimRight(TrimLeft(Collapse(TrimSuffix(ToLower(name), ".service"))))
  }

  predicate IsIDChar(c: char) { IsLowerOrDigit(c) || c == '_' || c == '-' }

  /** The regular expression ^[a-z0-9_-]{1,64}$. */
  predicate IsNodeID(s: string) {
    1 <= |s| <= 64 && forall c :: c in s ==> IsIDChar(c)
  }

  lemma {:induction false} CollapseChars(s: string)
    ensures forall c :: c in Collapse(s) ==> IsLowerOrDigit(c) || c == '_'
  {
    if s != "" {
      CollapseChars(s[1..]);
    }
  }

  lemma {:induction false} TrimLeftPart(s: string)
    ensures forall c :: c in TrimLeft(s) ==> c in s
    ensures TrimLeft(s) == "" || TrimLeft(s)[0] != '_'
  {
    if s != "" && s[0] == '_' {
      TrimLeftPart(s[1..]);
    }
  }

  lemma {:induction false} TrimRightPart(s: string)
    ensures TrimRight(s) <= s
    ensures TrimRight(s) == "" || TrimRight(s)[|TrimRight(s)| - 1] != '_'
  {
    if s != "" && s[|s| - 1] == '_' {
      TrimRightPart(s[..|s| - 1]);
    }
  }

  /** A generated id neither starts nor ends with '_', and only its length can make Validate refuse it. */
  lemma SlugShape(name: string)
    ensures var s := Slugify(name);
      && (s != "" ==> s[0] != '_' && s[|s| - 1] != '_')
      && (IsNodeID(s) <==> 1 <= |s| <= 64)
  {
    var c := Collapse(TrimSuffix(ToLower(name), ".service"));
    CollapseChars(TrimSuffix(ToLower(name), ".service"));
    TrimLeftPart(c);
    TrimRightPart(TrimLeft(c));
    var s := Slugify(name);
    assert forall i :: 0 <= i < |s| ==> s[i] == TrimLeft(c)[i];
  }

  predicate IsWordChar(s: string, i: nat) { i < |s| && ('a' <= s[i] <= 'z' || '0' <= s[i] <= '9') }

  /** The maximal runs of lower-case Latin letters and digits. */
  function Words(s: string): (ws: seq<string>)
    ensures IsWordChar(s, 0) ==> ws != []
  {
    if s == "" then []
    else
      var rest := Words(s[1..]);
      if !IsWordChar(s, 0) then rest
      else if IsWordChar(s, 1) then assert IsWordChar(s[1..], 0); [[s[0]] + rest[0]] + rest[1..]
      else [[s[0]]] + rest
  }

  function Joined(ws: seq<string>): string {
    if ws == [] then "" else if |ws| == 1 then ws[0] else ws[0] + "_" + Joined(ws[1..])
  }

  /** What Collapse makes of a text with its words w. */
  function Edged(s: string, w: string): string
    requires s != ""
  {
    (if IsWordChar(s, 0) then "" else "_") + w + (if IsWordChar(s, |s| - 1) then "" else "_")
  }

  /** Collapse keeps the words of a text, one '_' between each two, and one at an end that is no word. */
  ghost predicate Collapsed(s: string)
    requires s != ""
  {
    var w := Joined(Words(s));
    && (Words(s) == [] ==> Collapse(s) == "_" && !IsWordChar(s, 0) && !IsWordChar(s, |s| - 1))
    && (Words(s) != [] ==> Collapse(s) == Edged(s, w) && IsWordChar(w, 0) && IsWordChar(w, |w| - 1))
  }

  lemma {:induction false} CollapseWords(s: string)
    requires s != ""
    ensures Collapsed(s)
  {
    if |s| == 1 {
      assert s[1..] == "" && Words("") == [];
      assert s == [s[0]];
    } else {
      CollapseWords(s[1..]);
      CollapseStep(s);
      WordsStep(s);
      hide Collapse, Words, Collapsed;
      if !IsWordChar(s, 0) {
        GapFirst(s);
      } else if IsWordChar(s, 1) {
        WordLonger(s);
      } else {
        WordFirst(s);
      }
    }
  }

  lemma Shifted(s: string)
    requires |s| > 1
    ensures IsWordChar(s, 1) <==> IsWordChar(s[1..], 0)
    ensures IsWordChar(s, |s| - 1) <==> IsWordChar(s[1..], |s| - 2)
  {
  }

  lemma GapFirst(s: string)
    requires |s| > 1 && Collapsed(s[1..]) && !IsWordChar(s, 0) && Words(s) == Words(s[1..])
    requires Collapse(s) == if !IsWordChar(s, 1) then Collapse(s[1..]) else "_" + Collapse(s[1..])
    ensures Collapsed(s)
  {
    Shifted(s);
    hide Collapse, Words, Joined, IsWordChar;
    var w := Joined(Words(s));
    assert "_" + ("" + w) == "_" + w;
  }

  lemma WordLonger(s: string)
    requires |s| > 1 && Collapsed(s[1..]) && IsWordChar(s, 0) && IsWordChar(s, 1) && Words(s[1..]) != []
    requires var rest := Words(s[1..]); Words(s) == [[s[0]] + rest[0]] + rest[1..]
    requires Collapse(s) == [s[0]] + Collapse(s[1..])
    ensures Collapsed(s)
  {
    JoinedLonger(s[0], Words(s[1..]));
    EdgedLonger(s, Joined(Words(s[1..])));
    hide Collapse, Words, Joined, IsWordChar, Edged;
  }

  lemma EdgedLonger(s: string, w: string)
    requires |s| > 1 && IsWordChar(s, 0) && IsWordChar(s, 1)
    ensures [s[0]] + Edged(s[1..], w) == Edged(s, [s[0]] + w)
    ensures w != "" && IsWordChar(w, |w| - 1) ==> IsWordChar([s[0]] + w, 0) && IsWordChar([s[0]] + w, |[s[0]] + w| - 1)
  {
    Shifted(s);
    assert Edged(s[1..], w) == w + if IsWordChar(s, |s| - 1) then "" else "_";
  }

  lemma WordFirst(s: string)
    requires |s| > 1 && Collapsed(s[1..]) && IsWordChar(s, 0) && !IsWordChar(s, 1)
    requires Words(s) == [[s[0]]] + Words(s[1..]) && Collapse(s) == [s[0]] + Collapse(s[1..])
    ensures Collapsed(s)
  {
    Shifted(s);
    var rest := Words(s[1..]);
    WordBefore(s, rest);
    EdgedWord(s, Joined(rest));
    hide Collapse, Words, Joined, IsWordChar, Edged;
  }

  lemma EdgedWord(s: string, w: string)
    requires |s| > 1 && IsWordChar(s, 0) && !IsWordChar(s, 1)
    ensures [s[0]] + Edged(s[1..], w) == Edged(s, [s[0]] + "_" + w)
    ensures !IsWordChar(s, |s| - 1) ==> [s[0]] + "_" == Edged(s, [s[0]])
  {
    Shifted(s);
    var tail := if IsWordChar(s, |s| - 1) then "" else "_";
    hide IsWordChar;
    assert Edged(s[1..], w) == "_" + w + tail;
    assert [s[0]] + ("_" + w + tail) == "" + ([s[0]] + "_" + w) + tail;
  }

  lemma WordBefore(s: string, rest: seq<string>)
    requires IsWordChar(s, 0)
    ensures rest == [] ==> Joined([[s[0]]] + rest) == [s[0]]
    ensures rest != [] ==> Joined([[s[0]]] + rest) == [s[0]] + "_" + Joined(rest)
    ensures var w := Joined([[s[0]]] + rest);
      IsWordChar(w, 0)
      && (rest == [] || (Joined(rest) != "" && IsWordChar(Joined(rest), |Joined(rest)| - 1)) ==> IsWordChar(w, |w| - 1))
  {
    assert ([[s[0]]] + rest)[1..] == rest;
  }

  lemma CollapseStep(s: string)
    requires |s| > 1
    ensures Collapse(s) ==
      if IsWordChar(s, 0) then [s[0]] + Collapse(s[1..]) else if !IsWordChar(s, 1) then Collapse(s[1..]) else "_" + Collapse(s[1..])
  {
  }

  lemma WordsStep(s: string)
    requires |s| > 1
    ensures IsWordChar(s, 1) ==> Words(s[1..]) != []
    ensures Words(s) ==
      var rest := Words(s[1..]);
      if !IsWordChar(s, 0) then rest
      else if IsWordChar(s, 1) && rest != [] then [[s[0]] + rest[0]] + rest[1..]
      else [[s[0]]] + rest
  {
    assert IsWordChar(s, 1) ==> IsWordChar(s[1..], 0);
  }

  lemma JoinedLonger(c: char, ws: seq<string>)
    requires ws != []
    ensures Joined([[c] + ws[0]] + ws[1..]) == [c] + Joined(ws)
  {
    var longer := [[c] + ws[0]] + ws[1..];
    assert longer[1..] == ws[1..];
    if |ws| > 1 {
      assert [c] + (ws[0] + "_" + Joined(ws[1..])) == ([c] + ws[0]) + "_" + Joined(ws[1..]);
    }
  }

  /** A generated id is the words of the lower-case name, joined by '_'. */
  lemma SlugWords(name: string)
    ensures Slugify(name) == Joined(Words(TrimSuffix(ToLower(name), ".service")))
  {
    var s := TrimSuffix(ToLower(name), ".service");
    hide ToLower, TrimSuffix, Collapse, Words, Joined;
    if s == "" {
      assert Collapse(s) == "" && Joined(Words(s)) == "" by { NoWords(); }
    } else {
      CollapseWords(s);
      if Words(s) == [] {
        assert Joined(Words(s)) == "" by { NoWords(); }
        assert "_"[1..] == "";
      } else {
        TrimEdges(s, Joined(Words(s)));
      }
    }
  }

  lemma NoWords()
    ensures Collapse("") == "" && Words("") == [] && Joined([]) == ""
  {
  }

  lemma TrimEdges(s: string, w: string)
    requires s != "" && IsWordChar(w, 0) && IsWordChar(w, |w| - 1)
    ensures TrimRight(TrimLeft(Edged(s, w))) == w
  {
    var tail := w + if IsWordChar(s, |s| - 1) then "" else "_";
    assert TrimLeft(tail) == tail;
    assert Edged(s, w) == tail || Edged(s, w) == "_" + tail;
    assert ("_" + tail)[1..] == tail;
    assert TrimLeft("_" + tail) == TrimLeft(tail);
    assert TrimRight(w) == w;
    if !IsWordChar(s, |s| - 1) {
      assert tail[..|tail| - 1] == w;
    }
  }

  /** The id is the explicit one, or else made from the name: its lower-case words, of Latin letters and digits, joined by
      '_', without a ".service" at the end. */
  lemma IDExact(u: UnitConfig)
    ensures u.id != "" ==> ObjectID(u) == u.id
    ensures u.id == "" ==> forall stem: string ::
      ToLower(u.name) == stem + ".service" || (ToLower(u.name) == stem && forall t: string :: stem != t + ".service") ==>
        ObjectID(u) == Joined(Words(stem))
  {
    forall stem: string |
      ToLower(u.name) == stem + ".service" || (ToLower(u.name) == stem && forall t: string :: stem != t + ".service")
      ensures Slugify(u.name) == Joined(Words(stem))
    {
      TrimSuffixExact(ToLower(u.name), ".service", stem);
      SlugWords(u.name);
    }
  }

  lemma TrimSuffixExact(s: string, suffix: string, stem: string)
    requires s == stem + suffix || (s == stem && forall t: string :: s != t + suffix)
    ensures TrimSuffix(s, suffix) == stem
  {
    assert |suffix| <= |s| ==> s[..|s| - |suffix|] + s[|s| - |suffix|..] == s;
    if s == stem + suffix {
      assert s[|s| - |suffix|..] == suffix && s[..|s| - |suffix|] == stem;
    }
  }

  /** Lower case, character by character. */
  lemma LowerExact(s: string, i: nat)
    requires i < |s|
    ensures 'A' <= s[i] <= 'Z' ==> ToLower(s)[i] as int == s[i] as int + 32
    ensures s[i] == '\U{212A}' ==> ToLower(s)[i] == 'k'
    ensures s[i] == '\U{0130}' ==> ToLower(s)[i] == 'i'
    ensures !('A' <= s[i] <= 'Z') && s[i] != '\U{212A}' && s[i] != '\U{0130}' ==> ToLower(s)[i] == s[i]
  {
  }

  function ObjectID(u: UnitConfig): string {
    if u.id != "" then u.id else Slugify(u.name)
  }

  predicate Wants(flag: Option<bool>) { flag == None || flag.value }

  predicate AtDot(name: string, i: nat) {
    i + 1 < |name| && name[i] == '@' && name[i + 1] == '.'
  }

  /** strings.Index(name, "@."), with the length of the name for "absent". */
  function IndexOfAtDot(name: string): (i: nat)
    ensures i <= |name|
    ensures i < |name| ==> AtDot(name, i)
    ensures forall j: nat :: j < i ==> !AtDot(name, j)
  {
    if |name| < 2 then |name|
    else if AtDot(name, 0) then 0
    else
      assert forall j: nat :: 0 < j ==> AtDot(name, j) == AtDot(name[1..], j - 1);
      1 + IndexOfAtDot(name[1..])
  }

  /** "vlc@.service" splits into "vlc@" and ".service", at the first "@." and only inside the name. */
  function SplitTemplate(name: string): (r: Option<(string, string)>)
    ensures r.Some? ==>
      && r.value.0 + r.value.1 == name
      && |r.value.0| >= 2 && r.value.0[|r.value.0| - 1] == '@'
      && |r.value.1| >= 2 && r.value.1[0] == '.'
      && forall j: nat :: j < |r.value.0| - 1 ==> !AtDot(name, j)
    ensures r.Some? <==> exists i: nat :: AtDot(name, i) && 0 < i < |name| - 2 && forall j: nat :: j < i ==> !AtDot(name, j)
  {
    var i := IndexOfAtDot(name);
    if i == 0 || i + 2 >= |name| then None else Some((name[..i + 1], name[i + 1..]))
  }

  /** "@." at a position. */
  predicate IsAtDot(name: string, i: int) { 0 <= i < |name| - 1 && name[i..i + 2] == "@." }

  /** A name is a template name exactly when its first "@." has something before and after it, and it splits there. */
  lemma SplitExact(name: string, i: nat)
    requires IsAtDot(name, i) && forall j :: 0 <= j < i ==> !IsAtDot(name, j)
    ensures SplitTemplate(name) == if 0 < i < |name| - 2 then Some((name[..i + 1], name[i + 1..])) else None
  {
    assert AtDot(name, i);
    forall j: nat | j < i ensures !AtDot(name, j) {
      AtDotSame(name, j);
    }
    assert IndexOfAtDot(name) == i;
  }

  lemma AtDotSame(name: string, i: nat)
    ensures AtDot(name, i) <==> IsAtDot(name, i)
  {
  }

  lemma NoSplit(name: string)
    requires forall j :: 0 <= j < |name| ==> !IsAtDot(name, j)
    ensures SplitTemplate(name) == None
  {
    var i := IndexOfAtDot(name);
    assert i < |name| ==> IsAtDot(name, i);
  }

  /** A unit name for people: without ".service", and with a capital first letter. */
  function DisplayName(unit: string): string {
    var s := TrimSuffix(unit, ".service");
    if s == "" then unit
    else [if 'a' <= s[0] <= 'z' then (s[0] - 'a') + 'A' else s[0]] + s[1..]
  }

  /** Only an ASCII letter at the start is changed. */
  lemma DisplayNameExact(unit: string, stem: string)
    requires unit == stem + ".service" || (unit == stem && forall t: string :: unit != t + ".service")
    ensures stem == "" ==> DisplayName(unit) == unit
    ensures stem != "" ==> |DisplayName(unit)| == |stem| && DisplayName(unit)[1..] == stem[1..]
    ensures stem != "" ==>
      DisplayName(unit)[0] as int == stem[0] as int - if 'a' <= stem[0] <= 'z' then 32 else 0
  {
    TrimSuffixExact(unit, ".service", stem);
  }

  // ----- Expansion

  datatype Expansion = Expansion(templates: seq<TemplateConfig>, all: seq<UnitConfig>, selects: seq<TemplateSelect>)

  /** The id and the friendly name that the expansion fills in. */
  function Resolve(t: TemplateConfig, prefix: string, suffix: string): TemplateConfig
    requires prefix != ""
  {
    t.(id := if t.id == "" then Slugify(t.name) else t.id,
       friendlyName := if t.friendlyName == "" then DisplayName(prefix[..|prefix| - 1] + suffix) else t.friendlyName)
  }

  function InstanceUnit(t: TemplateConfig, prefix: string, suffix: string, inst: InstanceConfig): UnitConfig {
    var name := prefix + inst.name + suffix;
    UnitConfig(name, t.scope, Slugify(name),
      if inst.friendlyName != "" then inst.friendlyName else t.friendlyName + " " + inst.name,
      t.restartButton, t.problemSensor, t.id)
  }

  function InstanceUnits(t: TemplateConfig, prefix: string, suffix: string, n: nat): (us: seq<UnitConfig>)
    requires n <= |t.instances|
    ensures |us| == n
  {
    seq(n, i requires 0 <= i < n => InstanceUnit(t, prefix, suffix, t.instances[i]))
  }

  function OptionOf(u: UnitConfig): SelectOption { SelectOption(u.friendlyName, u.id, u.name) }

  function Options(us: seq<UnitConfig>): seq<SelectOption> {
    seq(|us|, i requires 0 <= i < |us| => OptionOf(us[i]))
  }

  /** The expansion after the first n templates, or None once one of them has no template name. */
  function ExpandFirst(units: seq<UnitConfig>, templates: seq<TemplateConfig>, n: nat): (e: Option<Expansion>)
    requires n <= |templates|
    ensures e.Some? ==> |e.value.templates| == |templates| && e.value.templates[n..] == templates[n..]
  {
    if n == 0 then Some(Expansion(templates, units, []))
    else
      var before := ExpandFirst(units, templates, n - 1);
      var parts := SplitTemplate(templates[n - 1].name);
      if before.None? || parts.None? then None
      else
        var t := Resolve(templates[n - 1], parts.value.0, parts.value.1);
        var us := InstanceUnits(t, parts.value.0, parts.value.1, |t.instances|);
        Some(Expansion(before.value.templates[n - 1 := t], before.value.all + us,
          before.value.selects +
            if t.exclusive then [TemplateSelect(t.id, t.friendlyName, t.scope, Options(us))] else []))
  }

  /** One turn of the loop of expand. */
  lemma ExpandNext(units: seq<UnitConfig>, templates: seq<TemplateConfig>, n: nat)
    requires n < |templates| && ExpandFirst(units, templates, n).Some?
    ensures SplitTemplate(templates[n].name).None? ==> ExpandFirst(units, templates, n + 1).None?
    ensures SplitTemplate(templates[n].name).Some? ==>
      var e, parts := ExpandFirst(units, templates, n).value, SplitTemplate(templates[n].name).value;
      var t := Resolve(templates[n], parts.0, parts.1);
      var us := InstanceUnits(t, parts.0, parts.1, |t.instances|);
      ExpandFirst(units, templates, n + 1) == Some(Expansion(e.templates[n := t], e.all + us,
        if t.exclusive then e.selects + [TemplateSelect(t.id, t.friendlyName, t.scope, Options(us))] else e.selects))
  {
    hide SplitTemplate, Resolve, InstanceUnits, Options;
    var e := ExpandFirst(units, templates, n).value;
    assert e.selects + [] == e.selects;
  }

  /** The options of a select are, in order, a block of consecutive units of the select's own scope. */
  ghost predicate Placed(all: seq<UnitConfig>, s: TemplateSelect, off: nat) {
    && off + |s.options| <= |all|
    && forall k :: 0 <= k < |s.options| ==>
         && ObjectID(all[off + k]) == s.options[k].unitID
         && all[off + k].name == s.options[k].unitName
         && all[off + k].scope == s.scope
  }

  /** Every select comes from a template of its id, in the order of the templates, and its options are expanded units. */
  ghost predicate SelectPlaced(all: seq<UnitConfig>, s: TemplateSelect) {
    exists off: nat :: Placed(all, s, off)
  }

  predicate ComesFrom(s: TemplateSelect, t: TemplateConfig) {
    s.id == t.id && |s.options| == |t.instances|
  }

  ghost predicate DistinctTemplates(ts: seq<TemplateConfig>, n: nat)
    requires n <= |ts|
  {
    forall i, j :: 0 <= i < j < n ==> ts[i].id != ts[j].id
  }

  ghost predicate DistinctSelects(selects: seq<TemplateSelect>) {
    forall i, j :: 0 <= i < j < |selects| ==> selects[i].id != selects[j].id
  }

  /** What the expansion makes of one instance: its name is the template's with the instance put in, its id is made from
      that name, and everything else is the template's, but for a caption of its own. */
  predicate Describes(u: UnitConfig, given: TemplateConfig, inst: InstanceConfig) {
    var parts := SplitTemplate(given.name);
    && parts.Some?
    && u.name == parts.value.0 + inst.name + parts.value.1
    && u.id == Slugify(u.name)
    && u.scope == given.scope
    && u.restartButton == given.restartButton && u.problemSensor == given.problemSensor
    && u.templateID == (if given.id == "" then Slugify(given.name) else given.id)
    && u.friendlyName ==
         if inst.friendlyName != "" then inst.friendlyName
         else FriendlyName(given, parts.value.0, parts.value.1) + " " + inst.name
  }

  /** A template without a friendly name is called by its own name without the '@'. */
  function FriendlyName(given: TemplateConfig, prefix: string, suffix: string): string {
    if given.friendlyName != "" then given.friendlyName
    else DisplayName((if prefix == "" then "" else prefix[..|prefix| - 1]) + suffix)
  }

  /** The units are those of the instances, in order. */
  predicate DescribesAll(us: seq<UnitConfig>, given: TemplateConfig) {
    |us| == |given.instances| && forall k :: 0 <= k < |us| ==> Describes(us[k], given, given.instances[k])
  }

  /** The select goes by the template's id and name, and offers each unit under its caption. */
  predicate SelectDescribes(s: TemplateSelect, given: TemplateConfig, us: seq<UnitConfig>) {
    var parts := SplitTemplate(given.name);
    && parts.Some?
    && s.scope == given.scope && s.id == (if given.id == "" then Slugify(given.name) else given.id)
    && s.name == FriendlyName(given, parts.value.0, parts.value.1)
    && |s.options| == |us|
    && forall k :: 0 <= k < |us| ==> s.options[k] == SelectOption(us[k].friendlyName, us[k].id, us[k].name)
  }

  /** What one more template adds, field by field. */
  lemma ExpandFields(units: seq<UnitConfig>, templates: seq<TemplateConfig>, n: nat, b: Expansion, e: Expansion)
    requires 0 < n <= |templates|
    requires ExpandFirst(units, templates, n - 1) == Some(b) && ExpandFirst(units, templates, n) == Some(e)
    ensures |b.all| <= |e.all| && e.all[..|b.all|] == b.all && DescribesAll(e.all[|b.all|..], templates[n - 1])
    ensures if templates[n - 1].exclusive
      then |e.selects| == |b.selects| + 1 && e.selects[..|b.selects|] == b.selects
        && SelectDescribes(e.selects[|b.selects|], templates[n - 1], e.all[|b.all|..])
      else e.selects == b.selects
  {
    hide Slugify, DisplayName, SplitTemplate;
    var parts := SplitTemplate(templates[n - 1].name).value;
    var t := Resolve(templates[n - 1], parts.0, parts.1);
    var us := InstanceUnits(t, parts.0, parts.1, |t.instances|);
    assert e.all == b.all + us;
    hide ExpandFirst;
    assert e.all[|b.all|..] == us;
    forall k | 0 <= k < |us| ensures Describes(us[k], templates[n - 1], templates[n - 1].instances[k]) {
      assert us[k] == InstanceUnit(t, parts.0, parts.1, t.instances[k]);
    }
  }

  /** One more template adds its units at the end and, if it is exclusive, one select over just these units. */
  lemma ExpandStep(units: seq<UnitConfig>, templates: seq<TemplateConfig>, n: nat, b: Expansion, e: Expansion)
    requires 0 < n <= |templates|
    requires ExpandFirst(units, templates, n - 1) == Some(b) && ExpandFirst(units, templates, n) == Some(e)
    ensures b.all <= e.all && |e.templates| == |templates|
    ensures forall a :: 0 <= a < n - 1 ==> e.templates[a] == b.templates[a]
    ensures |e.all| == |b.all| + |templates[n - 1].instances|
    ensures !templates[n - 1].exclusive ==> e.selects == b.selects
    ensures templates[n - 1].exclusive ==> exists s ::
      e.selects == b.selects + [s] && Placed(e.all, s, |b.all|) && ComesFrom(s, e.templates[n - 1])
  {
    hide Slugify, DisplayName, SplitTemplate;
    var parts := SplitTemplate(templates[n - 1].name).value;
    var t := Resolve(templates[n - 1], parts.0, parts.1);
    var us := InstanceUnits(t, parts.0, parts.1, |t.instances|);
    if t.exclusive {
      var s := TemplateSelect(t.id, t.friendlyName, t.scope, Options(us));
      InstancesPlaced(b.all, t, parts.0, parts.1);
      assert e.selects == b.selects + [s];
    }
  }

  lemma InstancesPlaced(before: seq<UnitConfig>, t: TemplateConfig, prefix: string, suffix: string)
    ensures var us := InstanceUnits(t, prefix, suffix, |t.instances|);
      Placed(before + us, TemplateSelect(t.id, t.friendlyName, t.scope, Options(us)), |before|)
  {
    hide Slugify;
    var us := InstanceUnits(t, prefix, suffix, |t.instances|);
    forall k | 0 <= k < |us| ensures ObjectID(us[k]) == us[k].id {
      assert us[k] == InstanceUnit(t, prefix, suffix, t.instances[k]);
    }
    assert forall k :: 0 <= k < |us| ==> (before + us)[|before| + k] == us[k];
  }

  lemma PlacedExtend(all: seq<UnitConfig>, more: seq<UnitConfig>)
    requires all <= more
    ensures forall s :: SelectPlaced(all, s) ==> SelectPlaced(more, s)
  {
    forall s | SelectPlaced(all, s) ensures SelectPlaced(more, s) {
      var off: nat :| Placed(all, s, off);
      assert Placed(more, s, off);
    }
  }

  lemma SelectsDistinct(b: Expansion, e: Expansion, n: nat)
    requires 0 < n <= |b.templates| == |e.templates| && DistinctTemplates(e.templates, n)
    requires forall a :: 0 <= a < n - 1 ==> e.templates[a] == b.templates[a]
    requires forall s :: s in b.selects ==> exists a :: 0 <= a < n - 1 && ComesFrom(s, b.templates[a])
    requires DistinctTemplates(b.templates, n - 1) ==> DistinctSelects(b.selects)
    requires e.selects == b.selects || exists s :: e.selects == b.selects + [s] && ComesFrom(s, e.templates[n - 1])
    ensures DistinctSelects(e.selects)
  {
    forall i, j | 0 <= i < j < |e.selects| ensures e.selects[i].id != e.selects[j].id {
      if j == |b.selects| {
        var s := b.selects[i];
        assert s in b.selects;
        var a :| 0 <= a < n - 1 && ComesFrom(s, b.templates[a]);
        assert e.templates[a].id == s.id;
      }
    }
  }

  /** The options of every select are expanded units, and distinct template ids give distinct select ids. */
  lemma {:induction false} ExpansionPlaced(units: seq<UnitConfig>, templates: seq<TemplateConfig>, n: nat, e: Expansion)
    requires n <= |templates| && ExpandFirst(units, templates, n) == Some(e)
    ensures units <= e.all
    ensures forall s :: s in e.selects ==> SelectPlaced(e.all, s)
    ensures forall s :: s in e.selects ==> exists a :: 0 <= a < n && ComesFrom(s, e.templates[a])
    ensures DistinctTemplates(e.templates, n) ==> DistinctSelects(e.selects)
  {
    hide Slugify, DisplayName, SplitTemplate, Resolve, InstanceUnits, Options, Placed;
    if n > 0 {
      var b := ExpandFirst(units, templates, n - 1).value;
      ExpansionPlaced(units, templates, n - 1, b);
      ExpandStep(units, templates, n, b, e);
      hide ExpandFirst;
      PlacedExtend(b.all, e.all);
      forall s | s in e.selects ensures SelectPlaced(e.all, s) {
        if s in b.selects {
          assert SelectPlaced(b.all, s);
        } else {
          assert Placed(e.all, s, |b.all|);
        }
      }
      forall s | s in e.selects ensures exists a :: 0 <= a < n && ComesFrom(s, e.templates[a]) {
        if s in b.selects {
          var a :| 0 <= a < n - 1 && ComesFrom(s, b.templates[a]);
          assert ComesFrom(s, e.templates[a]);
        }
      }
      if DistinctTemplates(e.templates, n) {
        SelectsDistinct(b, e, n);
      }
    }
  }

  // ----- Validation

  predicate ContainsAny(s: string, chars: string) { exists i :: 0 <= i < |s| && s[i] in chars }

  predicate IsUnitName(name: string) {
    name != "" && '.' in name && !ContainsAny(name, " \t/")
  }

  predicate IsScope(s: string) { s == USER || s == SYSTEM }

  /** The Home Assistant component ids that discovery derives from a unit. */
  function Components(u: UnitConfig): seq<string> {
    ["unit_" + ObjectID(u), "unit_" + ObjectID(u) + "_state"]
    + (if Wants(u.problemSensor) then ["unit_" + ObjectID(u) + "_problem"] else [])
    + (if Wants(u.restartButton) then ["unit_" + ObjectID(u) + "_restart"] else [])
  }

  predicate UnitOK(u: UnitConfig) {
    && IsUnitName(u.name)
    && (u.templateID == "" ==> SplitTemplate(u.name).None?)
    && IsScope(u.scope)
    && IsNodeID(ObjectID(u))
  }

  ghost predicate Apart(u: UnitConfig, v: UnitConfig) {
    && ObjectID(u) != ObjectID(v)
    && (u.scope == v.scope ==> u.name != v.name)
    && forall c :: c in Components(u) ==> c !in Components(v)
  }

  ghost predicate UnitsOK(us: seq<UnitConfig>) {
    && (forall i :: 0 <= i < |us| ==> UnitOK(us[i]))
    && forall i, j :: 0 <= i < j < |us| ==> Apart(us[i], us[j])
  }

  predicate InstanceOK(inst: InstanceConfig) {
    inst.name != "" && !ContainsAny(inst.name, " \t/@")
  }

  predicate TemplateOK(t: TemplateConfig) {
    && t.instances != [] && IsNodeID(t.id)
    && forall i :: 0 <= i < |t.instances| ==> InstanceOK(t.instances[i])
  }

  ghost predicate TemplatesOK(ts: seq<TemplateConfig>) {
    && (forall i :: 0 <= i < |ts| ==> TemplateOK(ts[i]))
    && forall i, j :: 0 <= i < j < |ts| ==> ts[i].id != ts[j].id
  }

  /** An id is made of one to 64 lower-case Latin letters, digits, '_' and '-'. */
  lemma NodeIDExact(s: string)
    ensures IsNodeID(s) <==> 1 <= |s| <= 64 && forall i :: 0 <= i < |s| ==>
      'a' <= s[i] <= 'z' || '0' <= s[i] <= '9' || s[i] == '_' || s[i] == '-'
  {
    assert forall i :: 0 <= i < |s| ==> s[i] in s;
  }

  /** A unit is well-formed exactly when its name is a full unit name without white space and '/', it is no template name
      unless it is an instance, its scope is one of the two, and its id is an id. */
  lemma UnitOKExact(u: UnitConfig)
    ensures UnitOK(u) <==>
      && (exists i :: 0 <= i < |u.name| && u.name[i] == '.')
      && (forall i :: 0 <= i < |u.name| ==> u.name[i] != ' ' && u.name[i] != '\t' && u.name[i] != '/')
      && (u.templateID == "" ==> SplitTemplate(u.name) == None)
      && (u.scope == "user" || u.scope == "system")
      && IsNodeID(ObjectID(u))
  {
    hide ObjectID, SplitTemplate, IsNodeID;
  }

  /** A template is well-formed exactly when it has an id and instances, each with a name without white space, '/' and '@'. */
  lemma TemplateOKExact(t: TemplateConfig)
    ensures TemplateOK(t) <==>
      && t.instances != [] && IsNodeID(t.id)
      && forall i :: 0 <= i < |t.instances| ==>
           var name := t.instances[i].name;
           name != "" && forall k :: 0 <= k < |name| ==> name[k] != ' ' && name[k] != '\t' && name[k] != '/' && name[k] != '@'
  {
    hide IsNodeID;
  }

  /** The component ids of a unit. */
  lemma ComponentsExact(u: UnitConfig, id: string)
    ensures id in Components(u) <==>
      || id == "unit_" + ObjectID(u) || id == "unit_" + ObjectID(u) + "_state"
      || (id == "unit_" + ObjectID(u) + "_problem" && (u.problemSensor == None || u.problemSensor == Some(true)))
      || (id == "unit_" + ObjectID(u) + "_restart" && (u.restartButton == None || u.restartButton == Some(true)))
  {
    hide ObjectID;
  }

  function NameKey(u: UnitConfig): string { u.scope + "/" + u.name }

  lemma NameKeyInjective(u: UnitConfig, v: UnitConfig)
    requires IsScope(u.scope) && IsScope(v.scope)
    ensures NameKey(u) == NameKey(v) <==> u.scope == v.scope && u.name == v.name
  {
    assert NameKey(u)[0] == u.scope[0] && NameKey(v)[0] == v.scope[0];
    assert NameKey(u)[|u.scope| + 1..] == u.name && NameKey(v)[|v.scope| + 1..] == v.name;
  }

  datatype Problem = NodeIDProblem | BaseTopicProblem | UnitProblem(unit: UnitConfig) | DuplicateID(id: string)
    | DuplicateName(key: string) | ComponentCollision(component: string) | TemplateProblem(template: TemplateConfig)
    | DuplicateTemplate(id: string) | PollIntervalProblem | BrokerProblem | QoSProblem | TLSProblem | OffModeProblem
    | JobModeProblem | JobTimeoutProblem | LogLevelProblem

  /** The component part of Validate for one unit: seenCmp remembers which unit id uses a component. */
  method CheckComponents(u: UnitConfig, seenCmp: map<string, string>) returns (collisions: seq<Problem>, seen: map<string, string>)
    ensures collisions == [] <==>
      forall c :: c in Components(u) && c in seenCmp ==> seenCmp[c] == ObjectID(u)
    ensures forall c :: c in seen <==> c in seenCmp || c in Components(u)
    ensures forall c :: c in seen ==> seen[c] == if c in Components(u) then ObjectID(u) else seenCmp[c]
  {
    var cmps := Components(u);
    collisions, seen := [], seenCmp;
    for k := 0 to |cmps|
      invariant collisions == [] <==>
        forall i :: 0 <= i < k && cmps[i] in seenCmp ==> seenCmp[cmps[i]] == ObjectID(u)
      invariant forall c :: c in seen <==> c in seenCmp || c in cmps[..k]
      invariant forall c :: c in seen ==> seen[c] == if c in cmps[..k] then ObjectID(u) else seenCmp[c]
    {
      assert cmps[..k + 1] == cmps[..k] + [cmps[k]];
      if cmps[k] in seen && seen[cmps[k]] != ObjectID(u) {
        collisions := collisions + [ComponentCollision(cmps[k])];
      }
      seen := seen[cmps[k] := ObjectID(u)];
    }
    assert cmps[..|cmps|] == cmps;
  }

  lemma UnitsOKAppend(us: seq<UnitConfig>, u: UnitConfig)
    ensures UnitsOK(us + [u]) <==> UnitsOK(us) && UnitOK(u) && forall i :: 0 <= i < |us| ==> Apart(us[i], u)
  {
    var all := us + [u];
    assert forall i :: 0 <= i < |us| ==> all[i] == us[i];
    assert all[|us|] == u;
  }

  /** What the three maps of Validate say about the units seen so far. */
  ghost predicate SeenIDs(us: seq<UnitConfig>, seen: map<string, string>) {
    forall k :: k in seen <==> exists j :: 0 <= j < |us| && ObjectID(us[j]) == k
  }

  ghost predicate SeenNames(us: seq<UnitConfig>, seenName: map<string, string>) {
    forall k :: k in seenName <==> exists j :: 0 <= j < |us| && NameKey(us[j]) == k
  }

  ghost predicate SeenCmps(us: seq<UnitConfig>, seenCmp: map<string, string>) {
    && (forall j, c :: 0 <= j < |us| && c in Components(us[j]) ==> c in seenCmp)
    && (forall c :: c in seenCmp ==> exists j :: 0 <= j < |us| && c in Components(us[j]) && seenCmp[c] == ObjectID(us[j]))
  }

  ghost predicate Seen(us: seq<UnitConfig>, seen: map<string, string>, seenName: map<string, string>, seenCmp: map<string, string>) {
    SeenIDs(us, seen) && SeenNames(us, seenName) && SeenCmps(us, seenCmp)
  }

  lemma SeenIDsAppend(us: seq<UnitConfig>, u: UnitConfig, seen: map<string, string>)
    requires SeenIDs(us, seen)
    ensures SeenIDs(us + [u], seen[ObjectID(u) := u.name])
  {
    hide ObjectID;
    var all := us + [u];
    assert all[|us|] == u && forall j :: 0 <= j < |us| ==> all[j] == us[j];
    forall k | k in seen || k == ObjectID(u) ensures exists j :: 0 <= j < |all| && ObjectID(all[j]) == k {
      if k != ObjectID(u) {
        var j :| 0 <= j < |us| && ObjectID(us[j]) == k;
        assert ObjectID(all[j]) == k;
      }
    }
  }

  lemma SeenNamesAppend(us: seq<UnitConfig>, u: UnitConfig, seenName: map<string, string>)
    requires SeenNames(us, seenName)
    ensures SeenNames(us + [u], seenName[NameKey(u) := ObjectID(u)])
  {
    hide ObjectID, NameKey;
    var all := us + [u];
    assert all[|us|] == u && forall j :: 0 <= j < |us| ==> all[j] == us[j];
    forall k | k in seenName || k == NameKey(u) ensures exists j :: 0 <= j < |all| && NameKey(all[j]) == k {
      if k != NameKey(u) {
        var j :| 0 <= j < |us| && NameKey(us[j]) == k;
        assert NameKey(all[j]) == k;
      }
    }
  }

  lemma SeenCmpsAppend(us: seq<UnitConfig>, u: UnitConfig, seenCmp: map<string, string>, seenCmp': map<string, string>)
    requires SeenCmps(us, seenCmp)
    requires forall c :: c in seenCmp' <==> c in seenCmp || c in Components(u)
    requires forall c :: c in seenCmp' ==> seenCmp'[c] == if c in Components(u) then ObjectID(u) else seenCmp[c]
    ensures SeenCmps(us + [u], seenCmp')
  {
    hide ObjectID, Components;
    var all := us + [u];
    assert all[|us|] == u && forall j :: 0 <= j < |us| ==> all[j] == us[j];
    forall c | c in seenCmp' ensures exists j :: 0 <= j < |all| && c in Components(all[j]) && seenCmp'[c] == ObjectID(all[j]) {
      if c in Components(u) {
        assert c in Components(all[|us|]);
      } else {
        var j :| 0 <= j < |us| && c in Components(us[j]) && seenCmp[c] == ObjectID(us[j]);
        assert c in Components(all[j]);
      }
    }
  }

  /** No component of one unit id is a component of another. */
  ghost predicate NoCollision(us: seq<UnitConfig>) {
    forall i, j :: 0 <= i < j < |us| && ObjectID(us[i]) != ObjectID(us[j]) ==> NoneShared(us[i], us[j])
  }

  ghost predicate NoneShared(u: UnitConfig, v: UnitConfig) {
    forall c :: c in Components(u) ==> c !in Components(v)
  }

  lemma SharedSameID(us: seq<UnitConfig>, id: string, seenCmp: map<string, string>, i: nat, c: string)
    requires SeenCmps(us, seenCmp) && NoCollision(us) && i < |us| && c in Components(us[i])
    requires c in seenCmp && seenCmp[c] == id
    ensures ObjectID(us[i]) == id
  {
    hide ObjectID, Components;
    var j :| 0 <= j < |us| && c in Components(us[j]) && seenCmp[c] == ObjectID(us[j]);
  }

  lemma SeenByAll(us: seq<UnitConfig>, u: UnitConfig, seenCmp: map<string, string>, c: string)
    requires SeenCmps(us, seenCmp) && NoCollision(us + [u]) && c in Components(u) && c in seenCmp
    ensures seenCmp[c] == ObjectID(u)
  {
    hide ObjectID, Components;
    var all := us + [u];
    var j :| 0 <= j < |us| && c in Components(us[j]) && seenCmp[c] == ObjectID(us[j]);
    assert all[j] == us[j] && all[|us|] == u;
  }

  /** The component check finds nothing in one more unit exactly when that unit brings in no collision. */
  lemma CollisionsReported(us: seq<UnitConfig>, u: UnitConfig, seenCmp: map<string, string>)
    requires SeenCmps(us, seenCmp) && NoCollision(us)
    ensures (forall c :: c in Components(u) && c in seenCmp ==> seenCmp[c] == ObjectID(u)) <==> NoCollision(us + [u])
  {
    hide ObjectID, Components;
    var all := us + [u];
    assert all[|us|] == u && forall i :: 0 <= i < |us| ==> all[i] == us[i];
    if forall c :: c in Components(u) && c in seenCmp ==> seenCmp[c] == ObjectID(u) {
      forall i, c | 0 <= i < |us| && c in Components(us[i]) && c in Components(u) ensures ObjectID(us[i]) == ObjectID(u) {
        SharedSameID(us, ObjectID(u), seenCmp, i, c);
      }
    }
    if NoCollision(all) {
      forall c | c in Components(u) && c in seenCmp ensures seenCmp[c] == ObjectID(u) {
        SeenByAll(us, u, seenCmp, c);
      }
    }
  }

  lemma ScopesOK(us: seq<UnitConfig>, u: UnitConfig)
    requires UnitsOK(us) && UnitOK(u)
    ensures IsScope(u.scope) && forall i :: 0 <= i < |us| ==> IsScope(us[i].scope)
  {
  }

  /** The three lookups decide exactly whether a well-formed unit is apart from the ones before it. */
  lemma LookupsDecide(us: seq<UnitConfig>, u: UnitConfig, seen: map<string, string>, seenName: map<string, string>,
      seenCmp: map<string, string>)
    requires Seen(us, seen, seenName, seenCmp) && UnitsOK(us) && UnitOK(u)
    ensures (forall i :: 0 <= i < |us| ==> Apart(us[i], u)) <==>
      && ObjectID(u) !in seen && NameKey(u) !in seenName
      && (forall c :: c in Components(u) && c in seenCmp ==> seenCmp[c] == ObjectID(u))
  {
    hide ObjectID, Components, NameKey, UnitOK;
    assert IsScope(u.scope) && forall i :: 0 <= i < |us| ==> IsScope(us[i].scope) by {
      ScopesOK(us, u);
    }
    if forall i :: 0 <= i < |us| ==> Apart(us[i], u) {
      if NameKey(u) in seenName {
        var j :| 0 <= j < |us| && NameKey(us[j]) == NameKey(u);
        NameKeyInjective(us[j], u);
      }
    }
    if ObjectID(u) !in seen && NameKey(u) !in seenName
      && (forall c :: c in Components(u) && c in seenCmp ==> seenCmp[c] == ObjectID(u)) {
      forall i | 0 <= i < |us| ensures Apart(us[i], u) {
        NameKeyInjective(us[i], u);
        forall c | c in Components(us[i]) ensures c !in Components(u) {
          assert c in seenCmp;
        }
      }
    }
  }

  /** The unit loop of Validate finds no problem exactly for units that are well-formed and pairwise apart. */
  method ValidateUnits(all: seq<UnitConfig>) returns (errs: seq<Problem>)
    ensures errs == [] <==> UnitsOK(all)
  {
    hide ObjectID, Components, NameKey, UnitOK, Apart;
    errs := [];
    var seen: map<string, string>, seenName: map<string, string>, seenCmp: map<string, string> := map[], map[], map[];
    for i := 0 to |all|
      invariant Seen(all[..i], seen, seenName, seenCmp)
      invariant errs == [] <==> UnitsOK(all[..i])
    {
      var u := all[i];
      assert all[..i + 1] == all[..i] + [u];
      UnitsOKAppend(all[..i], u);
      if UnitsOK(all[..i]) && UnitOK(u) {
        LookupsDecide(all[..i], u, seen, seenName, seenCmp);
      }
      if !UnitOK(u) {
        errs := errs + [UnitProblem(u)];
      }
      if ObjectID(u) in seen {
        errs := errs + [DuplicateID(ObjectID(u))];
      }
      if NameKey(u) in seenName {
        errs := errs + [DuplicateName(NameKey(u))];
      }
      var collisions, seenCmp' := CheckComponents(u, seenCmp);
      errs := errs + collisions;
      SeenIDsAppend(all[..i], u, seen);
      SeenNamesAppend(all[..i], u, seenName);
      SeenCmpsAppend(all[..i], u, seenCmp, seenCmp');
      seen := seen[ObjectID(u) := u.name];
      seenName := seenName[NameKey(u) := ObjectID(u)];
      seenCmp := seenCmp';
    }
    assert all[..|all|] == all;
  }

  /** The template loop of Validate. */
  method ValidateTemplates(ts: seq<TemplateConfig>) returns (errs: seq<Problem>)
    ensures errs == [] <==> TemplatesOK(ts)
  {
    errs := [];
    var seenTpl: map<string, int> := map[];
    for i := 0 to |ts|
      invariant forall k :: k in seenTpl <==> exists j :: 0 <= j < i && ts[j].id == k
      invariant errs == [] <==>
        (forall a :: 0 <= a < i ==> TemplateOK(ts[a])) && forall a, b :: 0 <= a < b < i ==> ts[a].id != ts[b].id
    {
      if ts[i].id in seenTpl {
        errs := errs + [DuplicateTemplate(ts[i].id)];
      }
      seenTpl := seenTpl[ts[i].id := i];
      if !TemplateOK(ts[i]) {
        errs := errs + [TemplateProblem(ts[i])];
      }
    }
  }

  predicate BaseTopicOK(base: string) { base != "" && !ContainsAny(base, "+#") }

  const MIN_POLL: nat := 5000 // milliseconds

  /** What Validate establishes for the code that comes after it, in terms of the resolved settings. */
  ghost predicate Accepted(c: Settings) {
    && NodeOK(c.nodeID, c.baseTopic, c.pollInterval)
    && UnitsOK(c.all)
    && (forall i :: 0 <= i < |c.selects| ==>
         IsNodeID(c.selects[i].id) && c.selects[i].options != [] && SelectPlaced(c.all, c.selects[i]))
    && DistinctSelects(c.selects)
  }

  /** The inner loop of expand: one unit and one option per instance. */
  method ExpandInstances(t: TemplateConfig, prefix: string, suffix: string)
    returns (us: seq<UnitConfig>, options: seq<SelectOption>)
    ensures us == InstanceUnits(t, prefix, suffix, |t.instances|) && options == Options(us)
  {
    us, options := [], [];
    for k := 0 to |t.instances|
      invariant us == InstanceUnits(t, prefix, suffix, k) && options == Options(us)
    {
      var u := InstanceUnit(t, prefix, suffix, t.instances[k]);
      assert Options(us + [u]) == Options(us) + [OptionOf(u)];
      us := us + [u];
      options := options + [OptionOf(u)];
    }
  }

  datatype URL = URL(scheme: string, host: string)

  /** The settings that nothing else here relies on. `url` is what the broker parses as, if it does. */
  datatype Rest = Rest(broker: string, url: Option<URL>, qos: nat, certFile: string, keyFile: string, offMode: string,
    jobMode: string, jobTimeout: nat, logLevel: string)

  const SCHEMES := ["tcp", "mqtt", "ssl", "tls", "mqtts", "ws", "wss"]

  predicate RestOK(r: Rest) {
    && r.broker != "" && r.url.Some? && r.url.value.host != "" && r.url.value.scheme in SCHEMES
    && r.qos <= 2 && (r.certFile == "" <==> r.keyFile == "")
    && r.offMode in ["standby", "suspend", "off"] && r.jobMode in ["replace", "fail"]
    && r.jobTimeout >= MIN_POLL && r.logLevel in ["debug", "info", "warn", "error"]
  }

  /** The checks of the other settings. */
  method ValidateRest(r: Rest) returns (errs: seq<Problem>)
    ensures errs == [] <==> RestOK(r)
    ensures errs == [] <==>
      && r.broker != "" && r.url.Some? && r.url.value.host != ""
      && r.url.value.scheme in ["tcp", "mqtt", "ssl", "tls", "mqtts", "ws", "wss"]
      && r.qos <= 2 && (r.certFile == "" <==> r.keyFile == "")
      && r.offMode in ["standby", "suspend", "off"] && r.jobMode in ["replace", "fail"]
      && r.jobTimeout >= 5000 && r.logLevel in ["debug", "info", "warn", "error"]
  {
    errs := [];
    if r.broker == "" {
      errs := errs + [BrokerProblem];
    } else if r.url.None? || r.url.value.host == "" {
      errs := errs + [BrokerProblem];
    } else if r.url.value.scheme !in SCHEMES {
      errs := errs + [BrokerProblem];
    }
    if r.qos > 2 {
      errs := errs + [QoSProblem];
    }
    if (r.certFile == "") != (r.keyFile == "") {
      errs := errs + [TLSProblem];
    }
    if r.offMode !in ["standby", "suspend", "off"] {
      errs := errs + [OffModeProblem];
    }
    if r.jobMode !in ["replace", "fail"] {
      errs := errs + [JobModeProblem];
    }
    if r.jobTimeout < MIN_POLL {
      errs := errs + [JobTimeoutProblem];
    }
    if r.logLevel !in ["debug", "info", "warn", "error"] {
      errs := errs + [LogLevelProblem];
    }
  }

  class Loader {
    const rest: Rest
    const nodeID: string
    const baseTopic: string
    const pollInterval: nat
    var units: seq<UnitConfig>
    var templates: seq<TemplateConfig>
    var all: seq<UnitConfig>
    var selects: seq<TemplateSelect>

    constructor (nodeID: string, baseTopic: string, pollInterval: nat, rest: Rest, units: seq<UnitConfig>,
      templates: seq<TemplateConfig>)
      ensures this.nodeID == nodeID && this.baseTopic == baseTopic && this.pollInterval == pollInterval && this.rest == rest
      ensures this.units == units && this.templates == templates
    {
      this.nodeID, this.baseTopic, this.pollInterval, this.rest := nodeID, baseTopic, pollInterval, rest;
      this.units, this.templates, this.all, this.selects := units, templates, [], [];
    }

    /** Turns templates into units and records the selects. It fails on the first name that is no template name. */
    method Expand() returns (ok: bool)
      modifies this`templates, this`all, this`selects
      ensures ok <==> ExpandFirst(units, old(templates), |old(templates)|).Some?
      ensures ok ==> Expansion(templates, all, selects) == ExpandFirst(units, old(templates), |old(templates)|).value
    {
      all, selects := units, [];
      ghost var given := templates;
      var ti := 0;
      while ti < |templates|
        invariant 0 <= ti <= |templates| == |given|
        invariant ExpandFirst(units, given, ti) == Some(Expansion(templates, all, selects))
      {
        var t := templates[ti];
        assert t == templates[ti..][0] == given[ti..][0];
        ExpandNext(units, given, ti);
        hide ExpandFirst, SplitTemplate, Resolve, InstanceUnits;
        var parts := SplitTemplate(t.name);
        if parts.None? {
          ExpandStuck(units, given, ti + 1);
          return false;
        }
        var prefix, suffix := parts.value.0, parts.value.1;
        t := Resolve(t, prefix, suffix);
        templates := templates[ti := t];
        var us, options := ExpandInstances(t, prefix, suffix);
        all := all + us;
        if t.exclusive {
          selects := selects + [TemplateSelect(t.id, t.friendlyName, t.scope, options)];
        }
        ti := ti + 1;
      }
      return true;
    }

    /** Validate. */
    method Validate() returns (errs: seq<Problem>)
      ensures errs == [] <==> NodeOK(nodeID, baseTopic, pollInterval) && RestOK(rest) && UnitsOK(all) && TemplatesOK(templates)
    {
      hide IsNodeID, BaseTopicOK, UnitsOK, TemplatesOK, RestOK;
      errs := [];
      if !IsNodeID(nodeID) {
        errs := errs + [NodeIDProblem];
      }
      if !BaseTopicOK(baseTopic) {
        errs := errs + [BaseTopicProblem];
      }
      var inUnits := ValidateUnits(all);
      var inTemplates := ValidateTemplates(templates);
      var inRest := ValidateRest(rest);
      errs := errs + inUnits + inTemplates + inRest;
      if pollInterval < MIN_POLL {
        errs := errs + [PollIntervalProblem];
      }
    }
  }

  predicate NodeOK(nodeID: string, baseTopic: string, pollInterval: nat) {
    IsNodeID(nodeID) && BaseTopicOK(baseTopic) && pollInterval >= MIN_POLL
  }

  lemma NodeOKExact(nodeID: string, baseTopic: string, pollInterval: nat)
    ensures NodeOK(nodeID, baseTopic, pollInterval) <==>
      && IsNodeID(nodeID) && pollInterval >= 5000
      && baseTopic != "" && forall i :: 0 <= i < |baseTopic| ==> baseTopic[i] != '+' && baseTopic[i] != '#'
  {
    hide IsNodeID;
  }

  /** What an expanded configuration that Validate finds no problem in gives to the rest of the daemon. */
  lemma ValidatedIsAccepted(units: seq<UnitConfig>, given: seq<TemplateConfig>, e: Expansion, c: Settings)
    requires ExpandFirst(units, given, |given|) == Some(e)
    requires NodeOK(c.nodeID, c.baseTopic, c.pollInterval) && UnitsOK(e.all) && TemplatesOK(e.templates)
    requires c.all == e.all && c.selects == e.selects
    ensures Accepted(c)
  {
    ExpansionPlaced(units, given, |given|, e);
    assert |e.templates| == |given|;
    hide ExpandFirst, IsNodeID, BaseTopicOK, UnitsOK, SelectPlaced, InstanceOK;
    forall s | s in e.selects ensures IsNodeID(s.id) && s.options != [] {
      var a :| 0 <= a < |given| && ComesFrom(s, e.templates[a]);
      assert TemplateOK(e.templates[a]);
    }
  }

  /** A configuration file with these units, templates and other settings is loaded with these settings: it expands, and
      Validate finds no problem. Units in the file carry no template id, and the defaults leave no topic setting empty. */
  ghost predicate Loads(units: seq<UnitConfig>, given: seq<TemplateConfig>, rest: Rest, e: Expansion, c: Settings) {
    && (forall i :: 0 <= i < |units| ==> units[i].templateID == "")
    && ExpandFirst(units, given, |given|) == Some(e)
    && c.all == e.all && c.selects == e.selects
    && c.discoveryPrefix != "" && c.statusTopic != ""
    && NodeOK(c.nodeID, c.baseTopic, c.pollInterval) && RestOK(rest) && UnitsOK(e.all) && TemplatesOK(e.templates)
  }

  ghost predicate Loadable(c: Settings) {
    exists units, given, rest, e :: Loads(units, given, rest, e, c)
  }

  lemma LoadableIsAccepted(c: Settings)
    requires Loadable(c)
    ensures Accepted(c)
  {
    var units, given, rest, e :| Loads(units, given, rest, e, c);
    hide ExpandFirst, NodeOK, RestOK, UnitsOK, TemplatesOK, Accepted;
    ValidatedIsAccepted(units, given, e, c);
  }

  lemma {:induction false} ExpandStuck(units: seq<UnitConfig>, templates: seq<TemplateConfig>, n: nat)
    requires n <= |templates| && ExpandFirst(units, templates, n).None?
    ensures ExpandFirst(units, templates, |templates|).None?
    decreases |templates| - n
  {
    if n < |templates| {
      ExpandStuck(units, templates, n + 1);
    }
  }

  // ----- Lookups

  function UnitsForScope(us: seq<UnitConfig>, scope: string): (r: seq<UnitConfig>)
    ensures forall u :: u in r <==> u in us && u.scope == scope
    ensures r == [] <==> forall i :: 0 <= i < |us| ==> us[i].scope != scope
  {
    if us == [] then []
    else UnitsForScope(us[..|us| - 1], scope) + if us[|us| - 1].scope == scope then [us[|us| - 1]] else []
  }

  /** Where in a list the chosen elements are, in order and with none left out. */
  function Positions<T>(xs: seq<T>, chosen: T -> bool): (at: seq<nat>)
    ensures forall a :: 0 <= a < |at| ==> at[a] < |xs| && chosen(xs[at[a]])
    ensures forall a, b :: 0 <= a < b < |at| ==> at[a] < at[b]
    ensures forall i: nat :: i < |xs| && chosen(xs[i]) ==> i in at
  {
    if xs == [] then []
    else
      var n := |xs| - 1;
      var before := Positions(xs[..n], chosen);
      if chosen(xs[n]) then before + [n] else before
  }

  lemma PositionsSnoc<T>(xs: seq<T>, chosen: T -> bool)
    requires xs != []
    ensures var n := |xs| - 1;
      Positions(xs, chosen) == Positions(xs[..n], chosen) + if chosen(xs[n]) then [n] else []
  {
  }

  function InScope(scope: string): UnitConfig -> bool { (u: UnitConfig) => u.scope == scope }

  /** The units of a scope are in configuration order, each as often as it is configured. */
  lemma {:induction false} UnitsForScopeOrder(us: seq<UnitConfig>, scope: string)
    ensures var at := Positions(us, InScope(scope));
      |UnitsForScope(us, scope)| == |at| && forall a :: 0 <= a < |at| ==> UnitsForScope(us, scope)[a] == us[at[a]]
  {
    if us != [] {
      var n := |us| - 1;
      UnitsForScopeOrder(us[..n], scope);
      PositionsSnoc(us, InScope(scope));
      assert UnitsForScope(us, scope) == UnitsForScope(us[..n], scope) + if us[n].scope == scope then [us[n]] else [];
      assert forall a :: 0 <= a < n ==> us[..n][a] == us[a];
      hide UnitsForScope, Positions;
    }
  }

  /** The scopes that have a unit, user first. */
  function Scopes(us: seq<UnitConfig>): (r: seq<string>)
    ensures forall s :: s in r <==> IsScope(s) && exists i :: 0 <= i < |us| && us[i].scope == s
    ensures forall i, j :: 0 <= i < j < |r| ==> r[i] != r[j]
    ensures |r| == 2 ==> r == [USER, SYSTEM]
  {
    (if UnitsForScope(us, USER) != [] then [USER] else []) + (if UnitsForScope(us, SYSTEM) != [] then [SYSTEM] else [])
  }

  /** The first select of an id. */
  function SelectOf(selects: seq<TemplateSelect>, id: string): (r: Option<TemplateSelect>)
    ensures r.Some? ==> r.value in selects && r.value.id == id
    ensures r.None? ==> forall i :: 0 <= i < |selects| ==> selects[i].id != id
  {
    if selects == [] then None
    else if selects[0].id == id then Some(selects[0])
    else
      assert forall i :: 0 < i < |selects| ==> selects[i] == selects[1..][i - 1];
      SelectOf(selects[1..], id)
  }

  lemma SelectOfMember(selects: seq<TemplateSelect>, s: TemplateSelect)
    requires DistinctSelects(selects) && s in selects
    ensures SelectOf(selects, s.id) == Some(s)
  {
    var r := SelectOf(selects, s.id);
    var i :| 0 <= i < |selects| && selects[i] == s;
    if r.Some? {
      var j :| 0 <= j < |selects| && selects[j] == r.value;
    }
  }

  /** The first unit of an id. */
  function UnitByID(us: seq<UnitConfig>, id: string): (r: Option<UnitConfig>)
    ensures r.Some? ==> r.value in us && ObjectID(r.value) == id
    ensures r.None? ==> forall i :: 0 <= i < |us| ==> ObjectID(us[i]) != id
  {
    if us == [] then None
    else if ObjectID(us[0]) == id then Some(us[0])
    else
      assert forall i :: 0 < i < |us| ==> us[i] == us[1..][i - 1];
      UnitByID(us[1..], id)
  }

  lemma {:induction false} UnitByIDFirst(us: seq<UnitConfig>, id: string)
    ensures UnitByID(us, id).Some? ==> exists i :: 0 <= i < |us| && us[i] == UnitByID(us, id).value && FirstUnit(us, id, i)
  {
    hide ObjectID;
    if us != [] {
      if ObjectID(us[0]) == id {
        assert FirstUnit(us, id, 0);
      } else if UnitByID(us, id).Some? {
        UnitByIDFirst(us[1..], id);
        var i :| 0 <= i < |us| - 1 && us[1..][i] == UnitByID(us, id).value && FirstUnit(us[1..], id, i);
        assert forall j :: 0 < j < |us| ==> us[j] == us[1..][j - 1];
        assert FirstUnit(us, id, i + 1);
      }
    }
  }

  predicate FirstUnit(us: seq<UnitConfig>, id: string, i: nat)
    requires i < |us|
  {
    ObjectID(us[i]) == id && forall j :: 0 <= j < i ==> ObjectID(us[j]) != id
  }

  lemma {:induction false} SelectOfFirst(selects: seq<TemplateSelect>, id: string)
    ensures SelectOf(selects, id).Some? ==>
      exists i :: 0 <= i < |selects| && selects[i] == SelectOf(selects, id).value && FirstSelect(selects, id, i)
  {
    if selects != [] {
      if selects[0].id == id {
        assert FirstSelect(selects, id, 0);
      } else if SelectOf(selects, id).Some? {
        SelectOfFirst(selects[1..], id);
        var i :| 0 <= i < |selects| - 1 && selects[1..][i] == SelectOf(selects, id).value && FirstSelect(selects[1..], id, i);
        assert forall j :: 0 < j < |selects| ==> selects[j] == selects[1..][j - 1];
        assert FirstSelect(selects, id, i + 1);
      }
    }
  }

  predicate FirstSelect(selects: seq<TemplateSelect>, id: string, i: nat)
    requires i < |selects|
  {
    selects[i].id == id && forall j :: 0 <= j < i ==> selects[j].id != id
  }

  lemma UnitByIDMember(us: seq<UnitConfig>, u: UnitConfig)
    requires UnitsOK(us) && u in us
    ensures UnitByID(us, ObjectID(u)) == Some(u)
  {
    hide ObjectID, UnitOK, Components, UnitByID;
    var r := UnitByID(us, ObjectID(u));
    var i :| 0 <= i < |us| && us[i] == u;
    var j :| 0 <= j < |us| && us[j] == r.value;
    assert i == j;
  }
}
