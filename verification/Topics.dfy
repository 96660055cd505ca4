/** The topic layout: builders, the parser of inbound topics, subscriptions and the retained topics. */
module Topics {
  import opened Text
  import opened Config
  import TopicFilter

  /** The topics by meaning. Path renders them. */
  datatype Topic =
    | Discovery | Availability | DaemonState | BusAvailability(scope: string)
    | UnitState(id: string) | UnitAttributes(id: string) | TemplateState(id: string)
    | DisplayState | DisplayModeState | DisplayAttributes | DisplayAvailability
    | UnitSet(id: string) | TemplateSet(id: string) | DisplaySet | DisplayModeSet | DaemonRestart

  predicate IsCommand(x: Topic) {
    x.UnitSet? || x.TemplateSet? || x.DisplaySet? || x.DisplayModeSet? || x.DaemonRestart?
  }

  function Root(c: Settings): string { c.baseTopic + "/" + c.nodeID }

  function Path(c: Settings, x: Topic): string {
    match x
    case Discovery => c.discoveryPrefix + "/device/" + c.nodeID + "/config"
    case Availability => Root(c) + "/availability"
    case DaemonState => Root(c) + "/daemon/state"
    case BusAvailability(scope) => Root(c) + "/bus/" + scope + "/availability"
    case UnitState(id) => Root(c) + "/unit/" + id + "/state"
    case UnitAttributes(id) => Root(c) + "/unit/" + id + "/attributes"
    case TemplateState(id) => Root(c) + "/template/" + id + "/state"
    case DisplayState => Root(c) + "/display/state"
    case DisplayModeState => Root(c) + "/display/mode/state"
    case DisplayAttributes => Root(c) + "/display/attributes"
    case DisplayAvailability => Root(c) + "/display/availability"
    case UnitSet(id) => Root(c) + "/unit/" + id + "/set"
    case TemplateSet(id) => Root(c) + "/template/" + id + "/set"
    case DisplaySet => Root(c) + "/display/set"
    case DisplayModeSet => Root(c) + "/display/mode/set"
    case DaemonRestart => Root(c) + "/daemon/restart"
  }

  /** The levels of a topic below the node's root. */
  function Tail(x: Topic): seq<string>
    requires !x.Discovery?
  {
    match x
    case Availability => ["availability"]
    case DaemonState => ["daemon", "state"]
    case BusAvailability(scope) => ["bus", scope, "availability"]
    case UnitState(id) => ["unit", id, "state"]
    case UnitAttributes(id) => ["unit", id, "attributes"]
    case TemplateState(id) => ["template", id, "state"]
    case DisplayState => ["display", "state"]
    case DisplayModeState => ["display", "mode", "state"]
    case DisplayAttributes => ["display", "attributes"]
    case DisplayAvailability => ["display", "availability"]
    case UnitSet(id) => ["unit", id, "set"]
    case TemplateSet(id) => ["template", id, "set"]
    case DisplaySet => ["display", "set"]
    case DisplayModeSet => ["display", "mode", "set"]
    case DaemonRestart => ["daemon", "restart"]
  }

  /** The part of a topic that comes from the configuration is a single level. */
  predicate Plain(x: Topic) {
    && (x.UnitState? || x.UnitAttributes? || x.TemplateState? || x.UnitSet? || x.TemplateSet? ==> OneLevel(x.id))
    && (x.BusAvailability? ==> OneLevel(x.scope))
  }

  lemma Levels1(root: string, a: string)
    requires OneLevel(a)
    ensures Split(root + "/" + a) == Split(root) + [a]
  {
    SplitConcat(root, a);
    SplitNoSlash(a);
  }

  lemma Levels2(root: string, a: string, b: string)
    requires OneLevel(a) && OneLevel(b)
    ensures Split(root + "/" + a + "/" + b) == Split(root) + [a, b]
  {
    Levels1(root + "/" + a, b);
    Levels1(root, a);
  }

  lemma Levels3(root: string, a: string, b: string, d: string)
    requires OneLevel(a) && OneLevel(b) && OneLevel(d)
    ensures Split(root + "/" + a + "/" + b + "/" + d) == Split(root) + [a, b, d]
  {
    Levels2(root + "/" + a, b, d);
    Levels1(root, a);
  }

  /** A path of one to three levels below a root. */
  function Below(root: string, t: seq<string>): string
    requires 1 <= |t| <= 3
  {
    if |t| == 1 then root + "/" + t[0]
    else if |t| == 2 then root + "/" + t[0] + "/" + t[1]
    else root + "/" + t[0] + "/" + t[1] + "/" + t[2]
  }

  lemma BelowLevels(root: string, t: seq<string>)
    requires 1 <= |t| <= 3 && forall i :: 0 <= i < |t| ==> OneLevel(t[i])
    ensures Split(Below(root, t)) == Split(root) + t
  {
    hide Split;
    Levels1(root, t[0]);
    if |t| == 2 {
      Levels2(root, t[0], t[1]);
    } else if |t| == 3 {
      Levels3(root, t[0], t[1], t[2]);
    }
  }

  lemma Text2(root: string, text: string, a: string, b: string)
    requires text == "/" + a + "/" + b
    ensures root + text == Below(root, [a, b])
  {
  }

  lemma Text3(root: string, pre: string, b: string, post: string, a: string, d: string)
    requires pre == "/" + a + "/" && post == "/" + d
    ensures root + pre + b + post == Below(root, [a, b, d])
  {
  }

  lemma NamedPath(c: Settings, x: Topic)
    requires x.UnitState? || x.UnitAttributes? || x.TemplateState? || x.UnitSet? || x.TemplateSet? || x.BusAvailability?
    ensures Path(c, x) == Below(Root(c), Tail(x))
  {
    hide Below, Root;
    var root := Root(c);
    match x
    case BusAvailability(scope) => Text3(root, "/bus/", scope, "/availability", "bus", "availability");
    case UnitState(id) => Text3(root, "/unit/", id, "/state", "unit", "state");
    case UnitAttributes(id) => Text3(root, "/unit/", id, "/attributes", "unit", "attributes");
    case TemplateState(id) => Text3(root, "/template/", id, "/state", "template", "state");
    case UnitSet(id) => Text3(root, "/unit/", id, "/set", "unit", "set");
    case TemplateSet(id) => Text3(root, "/template/", id, "/set", "template", "set");
  }

  lemma FixedPath(c: Settings, x: Topic)
    requires !x.Discovery? && |Tail(x)| < 3
    ensures Path(c, x) == Below(Root(c), Tail(x))
  {
    if x.Availability? || x.DaemonState? || x.DaemonRestart? {
      DaemonPath(c, x);
    } else {
      DisplayPath(c, x);
    }
    hide Below, Root, Path;
  }

  lemma DaemonPath(c: Settings, x: Topic)
    requires x.Availability? || x.DaemonState? || x.DaemonRestart?
    ensures Path(c, x) == Below(Root(c), Tail(x))
  {
    hide Below, Root;
    match x
    case Availability => Text1(Root(c), "availability", "/availability");
    case DaemonState => Text2(Root(c), "/daemon/state", "daemon", "state");
    case DaemonRestart => Text2(Root(c), "/daemon/restart", "daemon", "restart");
  }

  lemma DisplayPath(c: Settings, x: Topic)
    requires x.DisplayState? || x.DisplayAttributes? || x.DisplayAvailability? || x.DisplaySet?
    ensures Path(c, x) == Below(Root(c), Tail(x))
  {
    hide Below, Root;
    match x
    case DisplayState => Text2(Root(c), "/display/state", "display", "state");
    case DisplayAttributes => Text2(Root(c), "/display/attributes", "display", "attributes");
    case DisplayAvailability => Text2(Root(c), "/display/availability", "display", "availability");
    case DisplaySet => Text2(Root(c), "/display/set", "display", "set");
  }

  lemma ModePath(c: Settings, x: Topic)
    requires x.DisplayModeState? || x.DisplayModeSet?
    ensures Path(c, x) == Below(Root(c), Tail(x))
  {
    hide Below, Root;
    var root := Root(c);
    if x.DisplayModeState? {
      Text3(root, "/display/", "mode", "/state", "display", "state");
      Glue(root, "/display/", "mode", "/state", "/display/mode/state");
    } else {
      Text3(root, "/display/", "mode", "/set", "display", "set");
      Glue(root, "/display/", "mode", "/set", "/display/mode/set");
    }
  }

  lemma Text1(root: string, a: string, text: string)
    requires text == "/" + a
    ensures root + text == Below(root, [a])
  {
  }

  lemma Glue(root: string, a: string, b: string, d: string, text: string)
    requires text == a + b + d
    ensures root + text == root + a + b + d
  {
  }

  /** Below the root, a rendered topic has exactly the levels of its tail. */
  lemma PathLevels(c: Settings, x: Topic)
    requires Plain(x) && !x.Discovery?
    ensures Split(Path(c, x)) == Split(Root(c)) + Tail(x)
  {
    hide Split, Path, Root, Below;
    if |Tail(x)| < 3 {
      FixedPath(c, x);
    } else if x.DisplayModeState? || x.DisplayModeSet? {
      ModePath(c, x);
    } else {
      NamedPath(c, x);
    }
    BelowLevels(Root(c), Tail(x));
  }

  /** The discovery payload has its own root. */
  lemma DiscoveryLevels(c: Settings)
    requires OneLevel(c.nodeID)
    ensures Split(Path(c, Discovery)) == Split(c.discoveryPrefix) + ["device", c.nodeID, "config"]
  {
    hide Split;
    Text3(c.discoveryPrefix, "/device/", c.nodeID, "/config", "device", "config");
    Levels3(c.discoveryPrefix, "device", c.nodeID, "config");
  }

  lemma LastLevel(c: Settings, x: Topic)
    requires Plain(x) && OneLevel(c.nodeID)
    ensures var ls := Split(Path(c, x));
      ls[|ls| - 1] == if x.Discovery? then "config" else Tail(x)[|Tail(x)| - 1]
  {
    hide Split, Path;
    if x.Discovery? {
      DiscoveryLevels(c);
    } else {
      PathLevels(c, x);
    }
  }

  /** Different topics are rendered differently. */
  lemma PathInjective(c: Settings, x: Topic, y: Topic)
    requires Plain(x) && Plain(y) && OneLevel(c.nodeID) && Path(c, x) == Path(c, y)
    ensures x == y
  {
    hide Split, Path, Root;
    LastLevel(c, x);
    LastLevel(c, y);
    assert x.Discovery? <==> y.Discovery?;
    hide Tail;
    if !x.Discovery? {
      PathLevels(c, x);
      PathLevels(c, y);
      var r := Split(Root(c));
      assert Tail(x) == (r + Tail(x))[|r|..] == (r + Tail(y))[|r|..] == Tail(y);
      TailInjective(x, y);
    }
  }

  lemma TailInjective(x: Topic, y: Topic)
    requires !x.Discovery? && !y.Discovery? && Tail(x) == Tail(y)
    ensures x == y
  {
    assert Tail(x)[0] == Tail(y)[0];
    assert |Tail(x)| > 1 ==> Tail(x)[1] == Tail(y)[1];
    assert |Tail(x)| > 2 ==> Tail(x)[2] == Tail(y)[2];
  }

  /** The layout, level by level. */
  lemma Layout(c: Settings, id: string)
    requires OneLevel(id)
    ensures var r := Split(c.baseTopic + "/" + c.nodeID);
      && Split(Path(c, Availability)) == r + ["availability"]
      && Split(Path(c, BusAvailability(id))) == r + ["bus", id, "availability"]
      && Split(Path(c, UnitState(id))) == r + ["unit", id, "state"]
      && Split(Path(c, UnitAttributes(id))) == r + ["unit", id, "attributes"]
      && Split(Path(c, UnitSet(id))) == r + ["unit", id, "set"]
      && Split(Path(c, TemplateState(id))) == r + ["template", id, "state"]
      && Split(Path(c, TemplateSet(id))) == r + ["template", id, "set"]
      && Split(Path(c, DaemonState)) == r + ["daemon", "state"]
      && Split(Path(c, DaemonRestart)) == r + ["daemon", "restart"]
  {
    hide Split, Path;
    PathLevels(c, Availability);
    PathLevels(c, BusAvailability(id));
    PathLevels(c, UnitState(id));
    PathLevels(c, UnitAttributes(id));
    PathLevels(c, UnitSet(id));
    PathLevels(c, TemplateState(id));
    PathLevels(c, TemplateSet(id));
    PathLevels(c, DaemonState);
    PathLevels(c, DaemonRestart);
  }

  /** That of the display. */
  lemma DisplayLayout(c: Settings)
    ensures var r := Split(c.baseTopic + "/" + c.nodeID);
      && Split(Path(c, DisplayState)) == r + ["display", "state"]
      && Split(Path(c, DisplaySet)) == r + ["display", "set"]
      && Split(Path(c, DisplayModeState)) == r + ["display", "mode", "state"]
      && Split(Path(c, DisplayModeSet)) == r + ["display", "mode", "set"]
      && Split(Path(c, DisplayAttributes)) == r + ["display", "attributes"]
      && Split(Path(c, DisplayAvailability)) == r + ["display", "availability"]
  {
    hide Split, Path;
    PathLevels(c, DisplayState);
    PathLevels(c, DisplaySet);
    PathLevels(c, DisplayModeState);
    PathLevels(c, DisplayModeSet);
    PathLevels(c, DisplayAttributes);
    PathLevels(c, DisplayAvailability);
  }

  // ----- Inbound topics

  datatype Inbound = InUnitSet(id: string) | InTemplateSet(id: string) | InDisplaySet | InDisplayModeSet
    | InDaemonRestart | InHAStatus

  function Parse(c: Settings, topic: string): Option<Inbound> {
    if topic == c.statusTopic then Some(InHAStatus)
    else if topic == Path(c, DisplaySet) then Some(InDisplaySet)
    else if topic == Path(c, DisplayModeSet) then Some(InDisplayModeSet)
    else if topic == Path(c, DaemonRestart) then Some(InDaemonRestart)
    else if !(Root(c) + "/" <= topic) then None
    else
      var parts := Split(topic[|Root(c)| + 1..]);
      if |parts| != 3 || parts[2] != "set" || parts[1] == "" then None
      else if parts[0] == "unit" then Some(InUnitSet(parts[1]))
      else if parts[0] == "template" then Some(InTemplateSet(parts[1]))
      else None
  }

  /** The parser's decision on the levels below the root. */
  function ParseTail(tail: seq<string>): Option<Inbound> {
    if tail == ["display", "set"] then Some(InDisplaySet)
    else if tail == ["display", "mode", "set"] then Some(InDisplayModeSet)
    else if tail == ["daemon", "restart"] then Some(InDaemonRestart)
    else if |tail| != 3 || tail[2] != "set" || tail[1] == "" then None
    else if tail[0] == "unit" then Some(InUnitSet(tail[1]))
    else if tail[0] == "template" then Some(InTemplateSet(tail[1]))
    else None
  }

  lemma SameTopic(c: Settings, topic: string, x: Topic)
    requires Plain(x) && !x.Discovery?
    ensures topic == Path(c, x) <==> Split(topic) == Split(Root(c)) + Tail(x)
  {
    hide Split, Path, Tail;
    PathLevels(c, x);
    if Split(topic) == Split(Root(c)) + Tail(x) {
      SplitInjective(topic, Path(c, x));
    }
  }

  lemma {:induction false} ParseLevels(c: Settings, topic: string)
    requires topic != c.statusTopic
    ensures Split(Root(c)) < Split(topic) ==> Parse(c, topic) == ParseTail(Split(topic)[|Split(Root(c))|..])
    ensures !(Split(Root(c)) < Split(topic)) ==> Parse(c, topic) == None
  {
    hide Split, Path, Root;
    SameTopic(c, topic, DisplaySet);
    SameTopic(c, topic, DisplayModeSet);
    SameTopic(c, topic, DaemonRestart);
    PrefixLevels(Root(c), topic);
    var r, ls := Split(Root(c)), Split(topic);
    if r < ls {
      assert ls == r + ls[|r|..];
      assert Split(topic[|Root(c)| + 1..]) == ls[|r|..];
    }
  }

  function Expected(x: Topic): Inbound
    requires IsCommand(x)
  {
    match x
    case UnitSet(id) => InUnitSet(id)
    case TemplateSet(id) => InTemplateSet(id)
    case DisplaySet => InDisplaySet
    case DisplayModeSet => InDisplayModeSet
    case DaemonRestart => InDaemonRestart
  }

  /** A command topic that was built parses back to its kind and id, and no other built topic is taken for a command. */
  lemma {:induction false} ParseBuilt(c: Settings, x: Topic)
    requires Plain(x) && OneLevel(c.nodeID)
    ensures Path(c, x) == c.statusTopic ==> Parse(c, Path(c, x)) == Some(InHAStatus)
    ensures Path(c, x) != c.statusTopic && IsCommand(x) && (x.UnitSet? || x.TemplateSet? ==> x.id != "") ==>
      Parse(c, Path(c, x)) == Some(Expected(x))
    ensures Path(c, x) != c.statusTopic && !IsCommand(x) ==> Parse(c, Path(c, x)) == None
  {
    hide Split, Path;
    if Path(c, x) != c.statusTopic {
      ParseLevels(c, Path(c, x));
      var r := Split(Root(c));
      if x.Discovery? {
        DiscoveryLevels(c);
        var ls := Split(Path(c, x));
        assert ls[|ls| - 1] == "config";
        if r < ls {
          var tail := ls[|r|..];
          assert tail[|tail| - 1] == "config";
        }
      } else {
        PathLevels(c, x);
        assert (r + Tail(x))[|r|..] == Tail(x);
      }
    }
  }

  lemma TailExact(tail: seq<string>, x: Topic)
    requires IsCommand(x) && (x.UnitSet? || x.TemplateSet? ==> x.id != "")
    ensures ParseTail(tail) == Some(Expected(x)) <==> tail == Tail(x)
  {
    assert |tail| == 3 ==> tail == [tail[0], tail[1], tail[2]];
  }

  /** Apart from the status topic, a topic is parsed as a command exactly when it is the topic built for that command. */
  lemma ParseExact(c: Settings, topic: string, x: Topic)
    requires IsCommand(x) && Plain(x) && OneLevel(c.nodeID) && (x.UnitSet? || x.TemplateSet? ==> x.id != "")
    requires topic != c.statusTopic
    ensures Parse(c, topic) == Some(Expected(x)) <==> topic == Path(c, x)
  {
    hide Split, Path, Parse, ParseTail, Tail, Expected, Root;
    ParseLevels(c, topic);
    SameTopic(c, topic, x);
    var r, ls := Split(Root(c)), Split(topic);
    if r < ls {
      TailExact(ls[|r|..], x);
      assert ls == r + ls[|r|..];
      assert ls == r + Tail(x) ==> ls[|r|..] == Tail(x);
    } else {
      TailSome(x);
    }
  }

  lemma TailSome(x: Topic)
    requires !x.Discovery?
    ensures Tail(x) != []
  {
  }

  // ----- Subscriptions

  function UnitSetWildcard(c: Settings): string { Root(c) + "/unit/+/set" }
  function TemplateSetWildcard(c: Settings): string { Root(c) + "/template/+/set" }

  function Filters(c: Settings): seq<string> {
    [UnitSetWildcard(c), TemplateSetWildcard(c), Path(c, DaemonRestart)]
    + (if c.displayEnabled then [Path(c, DisplaySet), Path(c, DisplayModeSet)] else [])
    + (if c.haEnabled then [c.statusTopic] else [])
  }

  method Subscriptions(c: Settings) returns (subs: seq<string>)
    ensures subs == Filters(c)
  {
    subs := [UnitSetWildcard(c), TemplateSetWildcard(c), Path(c, DaemonRestart)];
    if c.displayEnabled {
      subs := subs + [Path(c, DisplaySet), Path(c, DisplayModeSet)];
    }
    if c.haEnabled {
      subs := subs + [c.statusTopic];
    }
  }

  /** The wildcard level of a topic that matches one of the two wildcard filters is not empty. */
  ghost predicate WildcardFilled(c: Settings, filter: string, topic: string) {
    var ls := Split(topic);
    (filter == UnitSetWildcard(c) || filter == TemplateSetWildcard(c)) && |ls| >= 2 ==> ls[|ls| - 2] != ""
  }

  predicate NoWildcards(s: string) { '+' !in s && '#' !in s }

  lemma LiteralLevels(s: string)
    requires NoWildcards(s)
    ensures forall l :: l in Split(s) ==> l != "+" && l != "#"
  {
    SplitLacks(s, '+');
    SplitLacks(s, '#');
    forall l | l in Split(s) ensures l != "+" && l != "#" {
      assert l == "+" ==> '+' in l;
      assert l == "#" ==> '#' in l;
    }
  }

  /** A filter without wildcards accepts only itself. */
  lemma LiteralFilter(filter: string, topic: string)
    requires NoWildcards(filter) && !TopicFilter.EndsInSlash(filter)
    ensures TopicFilter.Accepts(filter, topic) <==> filter == topic
  {
    hide Split;
    TopicFilter.AcceptsIsStandard(filter, topic);
    LiteralLevels(filter);
    TopicFilter.MatchesLiteralPrefix(Split(filter), [], Split(topic));
    assert Split(filter) + [] == Split(filter);
    if Split(filter) == Split(topic) {
      SplitInjective(filter, topic);
    }
  }

  lemma RootLiteral(c: Settings)
    requires IsNodeID(c.nodeID) && BaseTopicOK(c.baseTopic)
    ensures NoWildcards(Root(c)) && OneLevel(c.nodeID)
  {
    assert forall ch :: ch in c.nodeID ==> IsIDChar(ch);
    assert '+' !in c.baseTopic && '#' !in c.baseTopic;
  }

  /** A subscription filter below the root matches the topics whose levels below the root match the filter's tail. */
  lemma {:induction false} FilterBelowRoot(c: Settings, filter: string, tail: seq<string>, topic: string)
    requires IsNodeID(c.nodeID) && BaseTopicOK(c.baseTopic)
    requires Split(filter) == Split(Root(c)) + tail && tail != [] && !TopicFilter.EndsInSlash(filter)
    ensures TopicFilter.Accepts(filter, topic) <==>
      Split(Root(c)) <= Split(topic) && TopicFilter.Matches(tail, Split(topic)[|Split(Root(c))|..])
  {
    hide Split;
    RootLiteral(c);
    LiteralLevels(Root(c));
    TopicFilter.AcceptsIsStandard(filter, topic);
    TopicFilter.MatchesLiteralPrefix(Split(Root(c)), tail, Split(topic));
  }

  lemma WildcardTail(kind: string, tail: seq<string>)
    requires kind == "unit" || kind == "template"
    ensures TopicFilter.Matches([kind, "+", "set"], tail) <==> |tail| == 3 && tail[0] == kind && tail[2] == "set"
  {
    TopicFilter.WalkIsMatches([kind, "+", "set"], tail);
    if tail != [] {
      TopicFilter.WalkStep(kind, ["+", "set"], tail);
      TopicFilter.WalkStep("+", ["set"], tail[1..]);
      if |tail| > 1 {
        TopicFilter.WalkStep("set", [], tail[2..]);
      }
      assert [kind] + ["+", "set"] == [kind, "+", "set"] && ["+"] + ["set"] == ["+", "set"] && ["set"] + [] == ["set"];
    }
  }

  lemma WildcardLevels(c: Settings, kind: string, filter: string)
    requires kind == "unit" || kind == "template"
    requires filter == if kind == "unit" then UnitSetWildcard(c) else TemplateSetWildcard(c)
    ensures Split(filter) == Split(Root(c)) + [kind, "+", "set"] && !TopicFilter.EndsInSlash(filter)
  {
    hide Split;
    Levels3(Root(c), kind, "+", "set");
    assert filter == Root(c) + "/" + kind + "/" + "+" + "/" + "set";
    assert filter[|filter| - 1] == 't';
  }

  lemma {:induction false} WildcardFilter(c: Settings, kind: string, filter: string, topic: string)
    requires IsNodeID(c.nodeID) && BaseTopicOK(c.baseTopic) && topic != c.statusTopic
    requires kind == "unit" || kind == "template"
    requires filter == if kind == "unit" then UnitSetWildcard(c) else TemplateSetWildcard(c)
    ensures TopicFilter.Accepts(filter, topic) && WildcardFilled(c, filter, topic) <==>
      Parse(c, topic).Some? && (if kind == "unit" then Parse(c, topic).value.InUnitSet? else Parse(c, topic).value.InTemplateSet?)
  {
    hide Split, Path;
    WildcardLevels(c, kind, filter);
    FilterBelowRoot(c, filter, [kind, "+", "set"], topic);
    ParseLevels(c, topic);
    var r, ls := Split(Root(c)), Split(topic);
    if r <= ls {
      var tail := ls[|r|..];
      WildcardTail(kind, tail);
      assert ls == r + tail;
      if |tail| == 3 {
        assert ls[|ls| - 2] == tail[1];
      }
    }
  }

  lemma {:induction false} LiteralCommand(c: Settings, x: Topic, topic: string)
    requires IsNodeID(c.nodeID) && BaseTopicOK(c.baseTopic) && topic != c.statusTopic
    requires x.DisplaySet? || x.DisplayModeSet? || x.DaemonRestart?
    ensures TopicFilter.Accepts(Path(c, x), topic) <==> Parse(c, topic) == Some(Expected(x))
  {
    hide Split;
    RootLiteral(c);
    var p := Path(c, x);
    assert NoWildcards(p);
    LiteralFilter(p, topic);
    if Parse(c, topic) == Some(Expected(x)) {
      ParseLevels(c, topic);
      SameTopic(c, topic, x);
    } else if topic == p {
      ParseBuilt(c, x);
    }
  }

  ghost predicate Brings(c: Settings, f: string, topic: string) {
    TopicFilter.Accepts(f, topic) && WildcardFilled(c, f, topic)
  }

  lemma LiteralBrings(c: Settings, f: string, topic: string)
    requires NoWildcards(f)
    ensures Brings(c, f, topic) <==> TopicFilter.Accepts(f, topic)
  {
    hide Split, TopicFilter.Accepts;
    assert UnitSetWildcard(c)[|Root(c)| + 6] == '+';
    assert TemplateSetWildcard(c)[|Root(c)| + 10] == '+';
  }

  lemma LiteralCommands(c: Settings)
    requires IsNodeID(c.nodeID) && BaseTopicOK(c.baseTopic)
    ensures NoWildcards(Path(c, DisplaySet)) && NoWildcards(Path(c, DisplayModeSet)) && NoWildcards(Path(c, DaemonRestart))
  {
    RootLiteral(c);
  }

  lemma StatusParsed(c: Settings, topic: string)
    ensures topic == c.statusTopic <==> Parse(c, topic) == Some(InHAStatus)
  {
  }

  /** The subscriptions other than the status topic, with the display enabled. */
  function CommandFilters(c: Settings): seq<string> {
    [UnitSetWildcard(c), TemplateSetWildcard(c), Path(c, DaemonRestart), Path(c, DisplaySet), Path(c, DisplayModeSet)]
  }

  /** Apart from the status topic, the parser takes exactly what a command subscription brings in. */
  lemma CommandsBring(c: Settings, topic: string)
    requires IsNodeID(c.nodeID) && BaseTopicOK(c.baseTopic) && topic != c.statusTopic
    ensures Parse(c, topic).Some? <==> exists f :: f in CommandFilters(c) && Brings(c, f, topic)
  {
    hide Split, Path, Parse, TopicFilter.Accepts, WildcardFilled, UnitSetWildcard, TemplateSetWildcard, NoWildcards;
    hide IsNodeID, BaseTopicOK;
    var fs := CommandFilters(c);
    StatusParsed(c, topic);
    WildcardFilter(c, "unit", fs[0], topic);
    WildcardFilter(c, "template", fs[1], topic);
    LiteralCommands(c);
    LiteralBrings(c, fs[2], topic);
    LiteralCommand(c, DaemonRestart, topic);
    LiteralBrings(c, fs[3], topic);
    LiteralCommand(c, DisplaySet, topic);
    LiteralBrings(c, fs[4], topic);
    LiteralCommand(c, DisplayModeSet, topic);
    if Parse(c, topic).Some? {
      var i := match Parse(c, topic).value
        case InUnitSet(_) => 0
        case InTemplateSet(_) => 1
        case InDaemonRestart => 2
        case InDisplaySet => 3
        case _ => 4;
      assert fs[i] in fs && Brings(c, fs[i], topic);
    }
  }

  /** The parser takes exactly the messages that a subscription brings in, except those whose wildcard level is empty. */
  ghost predicate ParserAgrees(c: Settings) {
    forall topic :: Parse(c, topic).Some? <==> exists f :: f in Filters(c) && Brings(c, f, topic)
  }

  /** The status topic is one of the two wildcard filters itself, or has no wildcard level and what a trailing '/' lets in
      besides is a command. */
  predicate StatusFits(c: Settings) {
    var st := c.statusTopic;
    || st == UnitSetWildcard(c) || st == TemplateSetWildcard(c)
    || (!TopicFilter.HasWildcard(st) && (TopicFilter.EndsInSlash(st) ==> Parse(c, st[..|st| - 1]).Some?))
  }

  lemma StatusBrings(c: Settings, topic: string)
    requires c.displayEnabled && c.haEnabled
    ensures c.statusTopic in Filters(c)
    ensures (exists f :: f in Filters(c) && Brings(c, f, topic)) <==>
      (exists f :: f in CommandFilters(c) && Brings(c, f, topic)) || Brings(c, c.statusTopic, topic)
  {
    hide Path, UnitSetWildcard, TemplateSetWildcard, Brings;
    var fs := CommandFilters(c);
    assert Filters(c)[..5] == [fs[0], fs[1], fs[2], fs[3], fs[4]] && Filters(c)[5] == c.statusTopic;
    assert Filters(c) == fs + [c.statusTopic];
  }

  /** A topic other than the status topic only the parser or only its subscription would take. */
  ghost predicate Stray(c: Settings, topic: string) {
    topic != c.statusTopic && TopicFilter.Accepts(c.statusTopic, topic) && WildcardFilled(c, c.statusTopic, topic)
    && Parse(c, topic).None?
  }

  lemma AgreesIffNoStray(c: Settings)
    requires IsNodeID(c.nodeID) && BaseTopicOK(c.baseTopic) && c.displayEnabled && c.haEnabled
    ensures ParserAgrees(c) <==> forall topic :: !Stray(c, topic)
  {
    hide Filters, CommandFilters, Parse, TopicFilter.Accepts, WildcardFilled, IsNodeID, BaseTopicOK;
    forall topic
      ensures (Parse(c, topic).Some? <==> exists f :: f in Filters(c) && Brings(c, f, topic)) <==> !Stray(c, topic)
    {
      StatusBrings(c, topic);
      StatusParsed(c, topic);
      if topic == c.statusTopic {
        StatusBringsItself(c);
      } else {
        CommandsBring(c, topic);
      }
    }
  }

  lemma StatusBringsItself(c: Settings)
    ensures Brings(c, c.statusTopic, c.statusTopic)
  {
    WildcardFilledItself(c, UnitSetWildcard(c), "unit");
    WildcardFilledItself(c, TemplateSetWildcard(c), "template");
    hide UnitSetWildcard, TemplateSetWildcard, Split;
  }

  lemma WildcardFilledItself(c: Settings, filter: string, kind: string)
    requires kind == "unit" || kind == "template"
    requires filter == if kind == "unit" then UnitSetWildcard(c) else TemplateSetWildcard(c)
    ensures |Split(filter)| >= 2 && Split(filter)[|Split(filter)| - 2] == "+"
  {
    WildcardLevels(c, kind, filter);
    hide Split;
  }

  lemma NoEmptyLevel(tail: seq<string>)
    requires ParseTail(tail).Some?
    ensures "" !in tail && |tail| <= 3
  {
  }

  /** A status filter with a "#" level brings in topics that are too long for a command. */
  lemma {:induction false} HashStray(c: Settings) returns (topic: string)
    requires "#" in Split(c.statusTopic)
    ensures topic != c.statusTopic && TopicFilter.Accepts(c.statusTopic, topic) && Parse(c, topic).None?
  {
    var st, r := c.statusTopic, Split(Root(c));
    var all, seen, n := Split(st), TopicFilter.SeenLevels(st), TopicFilter.Fixed(Split(st));
    var levels := all[..n] + seq(|r| + 4, _ => "x");
    hide Root, Split, TopicFilter.SeenLevels, TopicFilter.Walk;
    SplitOneLevels(st);
    TopicFilter.HashSeen(st);
    assert seen[..n] == all[..n] by { TopicFilter.SeenPrefix(st); }
    TopicFilter.HashWalks(seen, n, levels);
    topic := Join(levels);
    SplitJoin(levels);
    assert "#" !in levels;
    ParseLevels(c, topic);
    hide Parse, ParseTail;
    if r < levels && ParseTail(levels[|r|..]).Some? {
      NoEmptyLevel(levels[|r|..]);
    }
  }

  /** A status filter with a "+" level and no "#" brings in a topic with an empty or alien level. */
  lemma {:induction false} PlusStray(c: Settings) returns (topic: string)
    requires "+" in Split(c.statusTopic) && "#" !in Split(c.statusTopic)
    ensures topic != c.statusTopic && TopicFilter.Accepts(c.statusTopic, topic) && Parse(c, topic).None?
  {
    var st, r := c.statusTopic, Split(Root(c));
    var all, seen := Split(st), TopicFilter.SeenLevels(st);
    var i :| 0 <= i < |all| && all[i] == "+";
    assert i < |seen| && seen[i] == "+" && seen == all[..|seen|];
    var z := if i < |r| && r[i] == "" then "x" else "";
    var levels := seen[i := z];
    SplitOneLevels(st);
    assert forall k :: 0 <= k < |levels| ==> OneLevel(levels[k]);
    hide Root;
    assert "#" !in seen by { assert forall l :: l in seen ==> l in all; }
    TopicFilter.PlusWalks(seen, i, z);
    topic := Join(levels);
    SplitJoin(levels);
    hide Split, TopicFilter.SeenLevels;
    assert levels[i] != "+";
    assert topic != st by { assert levels != all; }
    ParseLevels(c, topic);
    if r < levels && ParseTail(levels[|r|..]).Some? {
      NoEmptyLevel(levels[|r|..]);
    }
  }

  /** With display and Home Assistant enabled, parser and subscriptions agree on every topic exactly when the status topic
      fits. A status topic that does not is accepted. */
  lemma ParseIffSubscribed(c: Settings)
    requires IsNodeID(c.nodeID) && BaseTopicOK(c.baseTopic) && c.displayEnabled && c.haEnabled
    ensures ParserAgrees(c) <==> StatusFits(c)
  {
    var st := c.statusTopic;
    hide Split, Parse, TopicFilter.Accepts, TopicFilter.HasWildcard, UnitSetWildcard, TemplateSetWildcard, ParserAgrees;
    hide IsNodeID, BaseTopicOK;
    AgreesIffNoStray(c);
    if st == UnitSetWildcard(c) || st == TemplateSetWildcard(c) {
      forall topic ensures !Stray(c, topic) {
        if topic != st {
          WildcardFilter(c, if st == UnitSetWildcard(c) then "unit" else "template", st, topic);
        }
      }
    } else if TopicFilter.HasWildcard(st) {
      var topic := WildStray(c);
      assert Stray(c, topic);
    } else {
      forall topic ensures Stray(c, topic) <==>
        TopicFilter.EndsInSlash(st) && topic == st[..|st| - 1] && Parse(c, st[..|st| - 1]).None?
      {
        TopicFilter.PlainAccepts(st, topic);
      }
      assert TopicFilter.EndsInSlash(st) && Parse(c, st[..|st| - 1]).None? ==> Stray(c, st[..|st| - 1]);
    }
  }

  lemma WildStray(c: Settings) returns (topic: string)
    requires TopicFilter.HasWildcard(c.statusTopic)
    ensures topic != c.statusTopic && TopicFilter.Accepts(c.statusTopic, topic) && Parse(c, topic).None?
  {
    if "#" in Split(c.statusTopic) {
      topic := HashStray(c);
    } else {
      topic := PlusStray(c);
    }
  }

  // ----- One handler call for each message

  /** The first level below the root, and the number of levels, that a command filter asks for. */
  function Shape(c: Settings, f: string): Option<(string, nat)> {
    if f == UnitSetWildcard(c) then Some(("unit", 3))
    else if f == TemplateSetWildcard(c) then Some(("template", 3))
    else if f == Path(c, DisplaySet) then Some(("display", 2))
    else if f == Path(c, DisplayModeSet) then Some(("display", 3))
    else if f == Path(c, DaemonRestart) then Some(("daemon", 2))
    else None
  }

  predicate HasShape(c: Settings, topic: string, first: string, n: nat) {
    var r := Split(Root(c));
    r <= Split(topic) && |Split(topic)| == |r| + n && n > 0 && Split(topic)[|r|] == first
  }

  lemma WildcardShape(c: Settings, kind: string, filter: string, topic: string)
    requires IsNodeID(c.nodeID) && BaseTopicOK(c.baseTopic)
    requires kind == "unit" || kind == "template"
    requires filter == if kind == "unit" then UnitSetWildcard(c) else TemplateSetWildcard(c)
    requires TopicFilter.Accepts(filter, topic)
    ensures HasShape(c, topic, kind, 3)
  {
    hide Split, TopicFilter.Accepts;
    WildcardLevels(c, kind, filter);
    FilterBelowRoot(c, filter, [kind, "+", "set"], topic);
    var r, ls := Split(Root(c)), Split(topic);
    WildcardTail(kind, ls[|r|..]);
    assert ls == r + ls[|r|..];
  }

  lemma LiteralShape(c: Settings, x: Topic, topic: string)
    requires IsNodeID(c.nodeID) && BaseTopicOK(c.baseTopic) && TopicFilter.Accepts(Path(c, x), topic)
    requires x.DisplaySet? || x.DisplayModeSet? || x.DaemonRestart?
    ensures topic == Path(c, x)
    ensures HasShape(c, topic, if x.DaemonRestart? then "daemon" else "display", if x.DisplayModeSet? then 3 else 2)
  {
    hide Split;
    LiteralCommands(c);
    var p := Path(c, x);
    assert p[|p| - 1] == 't';
    hide NoWildcards;
    LiteralFilter(p, topic);
    hide TopicFilter.Accepts;
    PathLevels(c, x);
  }

  lemma CommandShape(c: Settings, f: string, topic: string)
    requires IsNodeID(c.nodeID) && BaseTopicOK(c.baseTopic) && TopicFilter.Accepts(f, topic) && Shape(c, f).Some?
    ensures HasShape(c, topic, Shape(c, f).value.0, Shape(c, f).value.1)
  {
    hide Path, UnitSetWildcard, TemplateSetWildcard, TopicFilter.Accepts, HasShape, IsNodeID, BaseTopicOK;
    if f == UnitSetWildcard(c) {
      WildcardShape(c, "unit", f, topic);
    } else if f == TemplateSetWildcard(c) {
      WildcardShape(c, "template", f, topic);
    } else if f == Path(c, DisplaySet) {
      LiteralShape(c, DisplaySet, topic);
    } else if f == Path(c, DisplayModeSet) {
      LiteralShape(c, DisplayModeSet, topic);
    } else {
      LiteralShape(c, DaemonRestart, topic);
    }
  }

  /** Two different command filters never match the same topic. */
  lemma CommandsApart(c: Settings, f: string, g: string, topic: string)
    requires IsNodeID(c.nodeID) && BaseTopicOK(c.baseTopic) && Shape(c, f).Some? && Shape(c, g).Some?
    requires TopicFilter.Accepts(f, topic) && TopicFilter.Accepts(g, topic)
    ensures f == g
  {
    CommandShape(c, f, topic);
    CommandShape(c, g, topic);
    hide Path, UnitSetWildcard, TemplateSetWildcard, TopicFilter.Accepts, IsNodeID, BaseTopicOK, Split;
  }

  ghost predicate RoutedOnce(c: Settings) {
    forall topic, f, g :: f in Filters(c) && g in Filters(c) && TopicFilter.Accepts(f, topic) && TopicFilter.Accepts(g, topic) ==> f == g
  }

  lemma FilterKinds(c: Settings, f: string)
    ensures f in Filters(c) ==> Shape(c, f).Some? || (c.haEnabled && f == c.statusTopic)
    ensures c.haEnabled ==> c.statusTopic in Filters(c)
  {
    hide Path, UnitSetWildcard, TemplateSetWildcard;
    if c.haEnabled {
      assert Filters(c)[|Filters(c)| - 1] == c.statusTopic;
    }
  }

  lemma WildcardPlain(c: Settings, kind: string, filter: string)
    requires IsNodeID(c.nodeID) && BaseTopicOK(c.baseTopic)
    requires kind == "unit" || kind == "template"
    requires filter == if kind == "unit" then UnitSetWildcard(c) else TemplateSetWildcard(c)
    ensures filter != "" && "#" !in Split(filter) && !TopicFilter.EndsInSlash(filter)
  {
    WildcardLevels(c, kind, filter);
    RootLiteral(c);
    hide Split, Root;
    LiteralLevels(Root(c));
  }

  lemma LiteralPlain(c: Settings, x: Topic)
    requires IsNodeID(c.nodeID) && BaseTopicOK(c.baseTopic) && (x.DisplaySet? || x.DisplayModeSet? || x.DaemonRestart?)
    ensures Path(c, x) != "" && "#" !in Split(Path(c, x)) && !TopicFilter.EndsInSlash(Path(c, x))
  {
    hide Split, Root;
    LiteralCommands(c);
    LiteralLevels(Path(c, x));
    var p := Path(c, x);
    assert p[|p| - 1] == 't';
  }

  lemma CommandPlain(c: Settings, f: string)
    requires IsNodeID(c.nodeID) && BaseTopicOK(c.baseTopic) && Shape(c, f).Some?
    ensures f != "" && "#" !in Split(f) && !TopicFilter.EndsInSlash(f)
  {
    hide Split, Path, UnitSetWildcard, TemplateSetWildcard, IsNodeID, BaseTopicOK, TopicFilter.EndsInSlash;
    if f == UnitSetWildcard(c) {
      WildcardPlain(c, "unit", f);
    } else if f == TemplateSetWildcard(c) {
      WildcardPlain(c, "template", f);
    } else if f == Path(c, DisplaySet) {
      LiteralPlain(c, DisplaySet);
    } else if f == Path(c, DisplayModeSet) {
      LiteralPlain(c, DisplayModeSet);
    } else {
      LiteralPlain(c, DaemonRestart);
    }
  }

  /** No message is handled twice exactly when no other subscription can match a topic that the status topic matches.
      Nothing in the configuration rules that out. */
  lemma RoutedOnceIff(c: Settings)
    requires IsNodeID(c.nodeID) && BaseTopicOK(c.baseTopic)
    ensures RoutedOnce(c) <==>
      (c.haEnabled ==> forall f :: f in Filters(c) && f != c.statusTopic ==> !TopicFilter.Overlap(f, c.statusTopic))
  {
    FilterKinds(c, c.statusTopic);
    hide Filters, TopicFilter.Accepts, TopicFilter.Overlap, Shape, IsNodeID, BaseTopicOK;
    forall f | f in Filters(c) && f != c.statusTopic
      ensures Shape(c, f).Some?
      ensures TopicFilter.Overlap(f, c.statusTopic) <==>
        exists topic :: TopicFilter.Accepts(f, topic) && TopicFilter.Accepts(c.statusTopic, topic)
    {
      FilterKinds(c, f);
      CommandPlain(c, f);
      TopicFilter.OverlapExact(f, c.statusTopic);
    }
    if c.haEnabled ==> forall f :: f in Filters(c) && f != c.statusTopic ==> !TopicFilter.Overlap(f, c.statusTopic) {
      forall topic, f, g | f in Filters(c) && g in Filters(c) && TopicFilter.Accepts(f, topic) && TopicFilter.Accepts(g, topic)
        ensures f == g
      {
        FilterKinds(c, f);
        FilterKinds(c, g);
        if Shape(c, f).Some? && Shape(c, g).Some? {
          CommandsApart(c, f, g, topic);
        }
      }
    }
  }

  // ----- What the subscriptions bring in

  lemma WildcardAccepts(c: Settings, kind: string, filter: string, topic: string)
    requires IsNodeID(c.nodeID) && BaseTopicOK(c.baseTopic)
    requires kind == "unit" || kind == "template"
    requires filter == if kind == "unit" then UnitSetWildcard(c) else TemplateSetWildcard(c)
    ensures TopicFilter.Accepts(filter, topic) <==>
      exists id :: OneLevel(id) && topic == c.baseTopic + "/" + c.nodeID + "/" + kind + "/" + id + "/set"
  {
    hide Split, TopicFilter.Accepts, IsNodeID, BaseTopicOK;
    WildcardLevels(c, kind, filter);
    FilterBelowRoot(c, filter, [kind, "+", "set"], topic);
    var r, ls := Split(Root(c)), Split(topic);
    if r <= ls {
      WildcardTail(kind, ls[|r|..]);
    }
    if TopicFilter.Accepts(filter, topic) {
      var id := ls[|r| + 1];
      SplitOneLevels(topic);
      assert ls == r + [kind, id, "set"];
      KindTopic(c, kind, id, topic);
    }
    forall id | OneLevel(id) && topic == c.baseTopic + "/" + c.nodeID + "/" + kind + "/" + id + "/set"
      ensures TopicFilter.Accepts(filter, topic)
    {
      KindTopic(c, kind, id, topic);
      assert ls[|r|..] == [kind, id, "set"];
    }
  }

  lemma KindTopic(c: Settings, kind: string, id: string, topic: string)
    requires OneLevel(kind) && OneLevel(id)
    ensures Split(topic) == Split(Root(c)) + [kind, id, "set"] <==>
      topic == c.baseTopic + "/" + c.nodeID + "/" + kind + "/" + id + "/set"
  {
    hide Split;
    Levels3(Root(c), kind, id, "set");
    var t := c.baseTopic + "/" + c.nodeID + "/" + kind + "/" + id + "/set";
    assert t == Root(c) + "/" + kind + "/" + id + "/" + "set";
    if Split(topic) == Split(t) {
      SplitInjective(topic, t);
    }
  }

  lemma CommandAccepts(c: Settings, x: Topic, topic: string)
    requires IsNodeID(c.nodeID) && BaseTopicOK(c.baseTopic)
    requires x.DisplaySet? || x.DisplayModeSet? || x.DaemonRestart?
    ensures TopicFilter.Accepts(Path(c, x), topic) <==> topic == Path(c, x)
  {
    hide TopicFilter.Accepts, IsNodeID, BaseTopicOK, NoWildcards;
    LiteralCommands(c);
    LiteralFilter(Path(c, x), topic);
  }

  /** For every choice of display and Home Assistant: what the broker sends for the subscriptions are the set topics of units
      and selects, the daemon's restart topic, the two display commands if the display is enabled, and what the status
      topic matches if Home Assistant is. */
  lemma SubscriptionsBring(c: Settings, topic: string)
    requires IsNodeID(c.nodeID) && BaseTopicOK(c.baseTopic)
    ensures var r := c.baseTopic + "/" + c.nodeID;
      (exists f :: f in Filters(c) && TopicFilter.Accepts(f, topic)) <==>
      || (exists id :: OneLevel(id) && topic == r + "/unit/" + id + "/set")
      || (exists id :: OneLevel(id) && topic == r + "/template/" + id + "/set")
      || topic == r + "/daemon/restart"
      || (c.displayEnabled && (topic == r + "/display/set" || topic == r + "/display/mode/set"))
      || (c.haEnabled && TopicFilter.Accepts(c.statusTopic, topic))
  {
    hide TopicFilter.Accepts, IsNodeID, BaseTopicOK;
    WildcardAccepts(c, "unit", UnitSetWildcard(c), topic);
    WildcardAccepts(c, "template", TemplateSetWildcard(c), topic);
    KindTexts(c);
    CommandAccepts(c, DaemonRestart, topic);
    CommandAccepts(c, DisplaySet, topic);
    CommandAccepts(c, DisplayModeSet, topic);
    FilterList(c);
    hide Filters, UnitSetWildcard, TemplateSetWildcard;
  }

  lemma KindTexts(c: Settings)
    ensures var r := c.baseTopic + "/" + c.nodeID;
      forall id :: r + "/" + "unit" + "/" + id + "/set" == r + "/unit/" + id + "/set"
        && r + "/" + "template" + "/" + id + "/set" == r + "/template/" + id + "/set"
  {
    var r := c.baseTopic + "/" + c.nodeID;
    assert r + "/" + "unit" + "/" == r + "/unit/" && r + "/" + "template" + "/" == r + "/template/";
  }

  lemma FilterList(c: Settings)
    ensures forall f :: f in Filters(c) <==>
      || f in [UnitSetWildcard(c), TemplateSetWildcard(c), Path(c, DaemonRestart)]
      || (c.displayEnabled && f in [Path(c, DisplaySet), Path(c, DisplayModeSet)])
      || (c.haEnabled && f == c.statusTopic)
  {
    hide Path, UnitSetWildcard, TemplateSetWildcard;
  }

  // ----- Retained topics

  function BusTopics(scopes: seq<string>): seq<Topic> {
    seq(|scopes|, i requires 0 <= i < |scopes| => BusAvailability(scopes[i]))
  }

  function UnitTopics(us: seq<UnitConfig>): (r: seq<Topic>)
    ensures |r| == 2 * |us|
    ensures forall i :: 0 <= i < |r| ==>
      r[i] == if i % 2 == 0 then UnitState(ObjectID(us[i / 2])) else UnitAttributes(ObjectID(us[i / 2]))
  {
    if us == [] then []
    else
      var id := ObjectID(us[|us| - 1]);
      UnitTopics(us[..|us| - 1]) + [UnitState(id), UnitAttributes(id)]
  }

  lemma UnitTopicsSnoc(us: seq<UnitConfig>)
    requires us != []
    ensures var last := us[|us| - 1];
      UnitTopics(us) == UnitTopics(us[..|us| - 1]) + [UnitState(ObjectID(last)), UnitAttributes(ObjectID(last))]
  {
    hide ObjectID;
  }

  lemma {:induction false} UnitTopicsAt(us: seq<UnitConfig>, i: nat)
    requires i < |us|
    ensures UnitState(ObjectID(us[i])) in UnitTopics(us) && UnitAttributes(ObjectID(us[i])) in UnitTopics(us)
  {
    hide ObjectID;
    var before := us[..|us| - 1];
    if i < |before| {
      UnitTopicsAt(before, i);
    }
    UnitTopicsSnoc(us);
    hide UnitTopics;
  }

  function SelectTopics(selects: seq<TemplateSelect>): seq<Topic> {
    seq(|selects|, i requires 0 <= i < |selects| => TemplateState(selects[i].id))
  }

  function Retained(c: Settings): seq<Topic> {
    [Discovery, Availability, DaemonState] + BusTopics(Scopes(c.all)) + UnitTopics(c.all) + SelectTopics(c.selects)
    + [DisplayState, DisplayModeState, DisplayAttributes, DisplayAvailability]
  }

  lemma ScopeRetained(us: seq<UnitConfig>, scope: string)
    requires scope in Scopes(us)
    ensures BusAvailability(scope) in BusTopics(Scopes(us))
  {
    var s := Scopes(us);
    hide Scopes;
    var j :| 0 <= j < |s| && s[j] == scope;
    assert BusTopics(s)[j] == BusAvailability(scope);
  }

  lemma RetainedMember(c: Settings)
    ensures forall x :: x in BusTopics(Scopes(c.all)) ==> x in Retained(c)
    ensures forall x :: x in UnitTopics(c.all) ==> x in Retained(c)
    ensures forall x :: x in SelectTopics(c.selects) ==> x in Retained(c)
    ensures Discovery in Retained(c) && Availability in Retained(c) && DaemonState in Retained(c)
    ensures DisplayState in Retained(c) && DisplayModeState in Retained(c)
    ensures DisplayAttributes in Retained(c) && DisplayAvailability in Retained(c)
  {
    hide BusTopics, Scopes, UnitTopics, SelectTopics;
  }

  function Paths(c: Settings, xs: seq<Topic>): (r: seq<string>)
    ensures |r| == |xs| && forall i :: 0 <= i < |r| ==> r[i] == Path(c, xs[i])
  {
    seq(|xs|, i requires 0 <= i < |xs| => Path(c, xs[i]))
  }

  lemma PathsConcat(c: Settings, a: seq<Topic>, b: seq<Topic>)
    ensures Paths(c, a + b) == Paths(c, a) + Paths(c, b)
  {
  }

  method RetainedTopics(c: Settings) returns (out: seq<string>)
    ensures out == Paths(c, Retained(c))
  {
    hide Path, Paths, ObjectID, Scopes;
    var scopes := Scopes(c.all);
    out := [Path(c, Discovery), Path(c, Availability), Path(c, DaemonState)];
    ghost var xs := [Discovery, Availability, DaemonState];
    for i := 0 to |scopes|
      invariant xs == [Discovery, Availability, DaemonState] + BusTopics(scopes[..i]) && out == Paths(c, xs)
    {
      ghost var step := [BusAvailability(scopes[i])];
      PathsConcat(c, xs, step);
      out := out + [Path(c, BusAvailability(scopes[i]))];
      assert BusTopics(scopes[..i + 1]) == BusTopics(scopes[..i]) + step;
      xs := xs + step;
    }
    assert scopes[..|scopes|] == scopes;
    ghost var head := xs;
    hide BusTopics;
    for i := 0 to |c.all|
      invariant xs == head + UnitTopics(c.all[..i]) && out == Paths(c, xs)
    {
      var id := ObjectID(c.all[i]);
      ghost var step := [UnitState(id), UnitAttributes(id)];
      PathsConcat(c, xs, step);
      out := out + [Path(c, UnitState(id)), Path(c, UnitAttributes(id))];
      assert c.all[..i + 1][..i] == c.all[..i];
      xs := xs + step;
    }
    assert c.all[..|c.all|] == c.all;
    head := xs;
    hide UnitTopics;
    for i := 0 to |c.selects|
      invariant xs == head + SelectTopics(c.selects[..i]) && out == Paths(c, xs)
    {
      ghost var step := [TemplateState(c.selects[i].id)];
      PathsConcat(c, xs, step);
      out := out + [Path(c, TemplateState(c.selects[i].id))];
      assert SelectTopics(c.selects[..i + 1]) == SelectTopics(c.selects[..i]) + step;
      xs := xs + step;
    }
    assert c.selects[..|c.selects|] == c.selects;
    ghost var step := [DisplayState, DisplayModeState, DisplayAttributes, DisplayAvailability];
    PathsConcat(c, xs, step);
    out := out + [Path(c, DisplayState), Path(c, DisplayModeState), Path(c, DisplayAttributes), Path(c, DisplayAvailability)];
    assert xs + step == Retained(c);
  }

  ghost predicate NoDuplicates<T>(s: seq<T>) {
    forall i, j :: 0 <= i < j < |s| ==> s[i] != s[j]
  }

  lemma NoDuplicatesConcat<T>(a: seq<T>, b: seq<T>)
    requires NoDuplicates(a) && NoDuplicates(b) && forall x :: x in a ==> x !in b
    ensures NoDuplicates(a + b)
  {
    var s := a + b;
    forall i, j | 0 <= i < j < |s| ensures s[i] != s[j] {
      if i < |a| <= j {
        assert s[i] in a && s[j] in b;
      }
    }
  }

  lemma UnitTopicsDistinct(us: seq<UnitConfig>)
    requires UnitsOK(us)
    ensures NoDuplicates(UnitTopics(us))
  {
    hide ObjectID, IsNodeID, Components, UnitOK;
    var u := UnitTopics(us);
    forall i, j | 0 <= i < j < |u| ensures u[i] != u[j] {
      if i / 2 != j / 2 {
        assert Apart(us[i / 2], us[j / 2]);
      }
    }
  }

  lemma SelectTopicsDistinct(selects: seq<TemplateSelect>)
    requires DistinctSelects(selects)
    ensures NoDuplicates(SelectTopics(selects))
  {
  }

  /** The four groups of retained topics, told apart by their constructors. */
  ghost predicate Groups(s: seq<Topic>, u: seq<Topic>, t: seq<Topic>) {
    && (forall x :: x in s ==> x.BusAvailability?)
    && (forall x :: x in u ==> x.UnitState? || x.UnitAttributes?)
    && (forall x :: x in t ==> x.TemplateState?)
  }

  lemma GroupsDistinct(s: seq<Topic>, u: seq<Topic>, t: seq<Topic>)
    requires NoDuplicates(s) && NoDuplicates(u) && NoDuplicates(t) && Groups(s, u, t)
    ensures NoDuplicates([Discovery, Availability, DaemonState] + s + u + t
      + [DisplayState, DisplayModeState, DisplayAttributes, DisplayAvailability])
  {
    var head := [Discovery, Availability, DaemonState];
    var last := [DisplayState, DisplayModeState, DisplayAttributes, DisplayAvailability];
    NoDuplicatesConcat(head, s);
    NoDuplicatesConcat(head + s, u);
    NoDuplicatesConcat(head + s + u, t);
    NoDuplicatesConcat(head + s + u + t, last);
  }

  lemma RetainedGroups(c: Settings)
    ensures Groups(BusTopics(Scopes(c.all)), UnitTopics(c.all), SelectTopics(c.selects))
  {
  }

  lemma RetainedDistinct(c: Settings)
    requires Accepted(c)
    ensures NoDuplicates(Retained(c))
  {
    hide UnitsOK, UnitTopics, SelectTopics, IsNodeID, SelectPlaced;
    var s := BusTopics(Scopes(c.all));
    assert NoDuplicates(s);
    hide Scopes, BusTopics, NoDuplicates;
    UnitTopicsDistinct(c.all);
    SelectTopicsDistinct(c.selects);
    RetainedGroups(c);
    GroupsDistinct(s, UnitTopics(c.all), SelectTopics(c.selects));
  }

  lemma PlainID(id: string)
    requires IsNodeID(id)
    ensures OneLevel(id) && id != ""
  {
    assert forall ch :: ch in id ==> IsIDChar(ch);
  }

  lemma UnitTopicsPlain(us: seq<UnitConfig>)
    requires UnitsOK(us)
    ensures forall x :: x in UnitTopics(us) ==> (x.UnitState? || x.UnitAttributes?) && Plain(x)
  {
    hide ObjectID, IsNodeID, Apart;
    forall i | 0 <= i < |UnitTopics(us)| ensures Plain(UnitTopics(us)[i]) {
      PlainID(ObjectID(us[i / 2]));
    }
  }

  lemma SelectTopicsPlain(c: Settings)
    requires Accepted(c)
    ensures forall x :: x in SelectTopics(c.selects) ==> x.TemplateState? && Plain(x)
  {
    hide IsNodeID, UnitsOK, SelectPlaced;
    forall i | 0 <= i < |c.selects| ensures OneLevel(c.selects[i].id) {
      PlainID(c.selects[i].id);
    }
  }

  lemma RetainedPlain(c: Settings)
    requires Accepted(c)
    ensures forall x :: x in Retained(c) ==> Plain(x) && !IsCommand(x)
  {
    hide BusTopics, UnitTopics, SelectTopics, Scopes, Plain, Retained, IsNodeID, UnitOK, SelectPlaced, NodeOK;
    hide DistinctSelects, Apart;
    UnitTopicsPlain(c.all);
    SelectTopicsPlain(c);
    BusTopicsPlain(c);
    FixedPlain();
    hide Accepted, UnitsOK;
    forall x | x in Retained(c) ensures Plain(x) && !IsCommand(x) {
      RetainedCases(c, x);
    }
  }

  lemma RetainedCases(c: Settings, x: Topic)
    requires x in Retained(c)
    ensures || x in [Discovery, Availability, DaemonState] || x in BusTopics(Scopes(c.all)) || x in UnitTopics(c.all)
      || x in SelectTopics(c.selects) || x in [DisplayState, DisplayModeState, DisplayAttributes, DisplayAvailability]
  {
    hide BusTopics, UnitTopics, SelectTopics, Scopes;
  }

  /** The list has exactly the states, attributes and availabilities of what is configured. */
  lemma RetainedExact(c: Settings, x: Topic)
    ensures x in Retained(c) <==>
      match x
      case BusAvailability(scope) => scope in Scopes(c.all)
      case UnitState(id) => exists i :: 0 <= i < |c.all| && ObjectID(c.all[i]) == id
      case UnitAttributes(id) => exists i :: 0 <= i < |c.all| && ObjectID(c.all[i]) == id
      case TemplateState(id) => exists i :: 0 <= i < |c.selects| && c.selects[i].id == id
      case _ => !x.UnitSet? && !x.TemplateSet? && !x.DisplaySet? && !x.DisplayModeSet? && !x.DaemonRestart?
  {
    hide ObjectID, Scopes, UnitTopics, Retained, BusTopics, SelectTopics;
    RetainedMember(c);
    if x in Retained(c) {
      RetainedCases(c, x);
      ListedTopics(c, x);
    }
    if x.BusAvailability? && x.scope in Scopes(c.all) {
      ScopeRetained(c.all, x.scope);
    }
    forall i | 0 <= i < |c.all|
      ensures UnitState(ObjectID(c.all[i])) in Retained(c) && UnitAttributes(ObjectID(c.all[i])) in Retained(c)
    {
      UnitTopicsAt(c.all, i);
    }
    forall i | 0 <= i < |c.selects| ensures TemplateState(c.selects[i].id) in Retained(c) {
      SelectTopicAt(c.selects, i);
    }
  }

  lemma SelectTopicAt(selects: seq<TemplateSelect>, i: nat)
    requires i < |selects|
    ensures TemplateState(selects[i].id) in SelectTopics(selects)
  {
    assert SelectTopics(selects)[i] == TemplateState(selects[i].id);
  }

  lemma ListedTopics(c: Settings, x: Topic)
    ensures x in BusTopics(Scopes(c.all)) ==> x.BusAvailability? && x.scope in Scopes(c.all)
    ensures x in UnitTopics(c.all) ==>
      (x.UnitState? || x.UnitAttributes?) && exists i :: 0 <= i < |c.all| && ObjectID(c.all[i]) == x.id
    ensures x in SelectTopics(c.selects) ==> x.TemplateState? && exists i :: 0 <= i < |c.selects| && c.selects[i].id == x.id
  {
    hide ObjectID, Scopes;
    if x in UnitTopics(c.all) {
      var n :| 0 <= n < |UnitTopics(c.all)| && UnitTopics(c.all)[n] == x;
      assert ObjectID(c.all[n / 2]) == x.id;
    }
  }

  lemma FixedPlain()
    ensures forall x :: x in [Discovery, Availability, DaemonState] ==> Plain(x)
    ensures forall x :: x in [DisplayState, DisplayModeState, DisplayAttributes, DisplayAvailability] ==> Plain(x)
  {
  }

  lemma BusTopicsPlain(c: Settings)
    ensures forall x :: x in BusTopics(Scopes(c.all)) ==> x.BusAvailability? && Plain(x)
  {
    hide UnitsForScope;
  }

  /** For an accepted configuration the retained topics are pairwise different, and none is taken for a command. */
  lemma RetainedTopicsDistinct(c: Settings)
    requires Accepted(c)
    ensures NoDuplicates(Paths(c, Retained(c)))
    ensures forall p :: p in Paths(c, Retained(c)) ==> Parse(c, p) == None || p == c.statusTopic
  {
    hide Path, Retained, Parse;
    RetainedDistinct(c);
    RetainedPlain(c);
    PlainID(c.nodeID);
    var xs := Retained(c);
    forall i, j | 0 <= i < j < |xs| ensures Path(c, xs[i]) != Path(c, xs[j]) {
      if Path(c, xs[i]) == Path(c, xs[j]) {
        PathInjective(c, xs[i], xs[j]);
      }
    }
    forall i | 0 <= i < |xs| ensures Parse(c, Path(c, xs[i])) == None || Path(c, xs[i]) == c.statusTopic {
      ParseBuilt(c, xs[i]);
    }
  }
}
