/** Accepted configurations and possible runs in which a promise of the source's comments or documentation fails. */
module Failures {
  import opened Text
  import opened Config
  import opened Topics
  import opened UnitState
  import opened PublishCache
  import opened EventLoop
  import BusNews
  import Hints
  import Outcome
  import Q = PublishQueue
  import TopicFilter
  import TS = TemplateSelect

  // ----- Configurations that can be loaded

  /** One exclusive template with two instances. */
  function CameraTemplate(a: string, b: string): TemplateConfig {
    TemplateConfig("v@.service", USER, "v", "Cameras", true, None, None, [InstanceConfig("a", a), InstanceConfig("b", b)])
  }

  function Camera(name: string, id: string, caption: string): UnitConfig {
    UnitConfig(name, USER, id, caption, None, None, "v")
  }

  /** What it is loaded as. */
  function Cameras(status: string, a: string, b: string): Settings {
    var us := [Camera("v@a.service", "v_a", a), Camera("v@b.service", "v_b", b)];
    Settings("n", "b", "homeassistant", status, true, true, true, 5000, us,
      [TemplateSelect("v", "Cameras", USER, [OptionOf(us[0]), OptionOf(us[1])])])
  }

  lemma CameraSlug(name: string, short: string, c: char)
    requires short == "v@" + [c] && name == short + ".service" && 'a' <= c <= 'z'
    ensures Slugify(name) == "v_" + [c]
  {
    assert ToLower(name) == name;
    assert name[|name| - 8..] == ".service" && name[..|name| - 8] == short;
    CollapseShort(c);
    hide Collapse, ToLower;
    assert TrimSuffix(name, ".service") == short;
  }

  lemma CollapseShort(c: char)
    requires 'a' <= c <= 'z'
    ensures Collapse("v@" + [c]) == "v_" + [c]
  {
    var s := "v@" + [c];
    assert s[1..] == "@" + [c] && s[1..][1..] == [c] && [c][1..] == "";
    assert Collapse([c]) == [c];
    assert Collapse("@" + [c]) == "_" + [c];
  }

  lemma CameraOK(name: string, id: string, caption: string)
    requires (name == "v@a.service" && id == "v_a") || (name == "v@b.service" && id == "v_b")
    ensures UnitOK(Camera(name, id, caption)) && ObjectID(Camera(name, id, caption)) == id
  {
    assert name[3] == '.';
    hide Slugify;
  }

  lemma CamerasApart(a: string, b: string)
    ensures Apart(Camera("v@a.service", "v_a", a), Camera("v@b.service", "v_b", b))
  {
    var u, v := Camera("v@a.service", "v_a", a), Camera("v@b.service", "v_b", b);
    hide Slugify;
    assert u.name[2] != v.name[2];
    forall c | c in Components(u) ensures c !in Components(v) {
      assert c[7] == 'a' && forall d :: d in Components(v) ==> d[7] == 'b';
    }
  }

  lemma CameraSplit()
    ensures SplitTemplate("v@.service") == Some(("v@", ".service"))
  {
    var name := "v@.service";
    assert AtDot(name, 1) && !AtDot(name, 0);
    assert IndexOfAtDot(name) == 1;
    assert name[..2] == "v@" && name[2..] == ".service";
  }

  lemma CameraUnits(status: string, a: string, b: string)
    requires a != "" && b != ""
    ensures InstanceUnits(CameraTemplate(a, b), "v@", ".service", 2) == Cameras(status, a, b).all
  {
    var t := CameraTemplate(a, b);
    CameraTexts();
    CameraUnit(t, "v@a.service", "v_a", t.instances[0], 'a');
    CameraUnit(t, "v@b.service", "v_b", t.instances[1], 'b');
    TwoUnits(t, "v@", ".service");
    hide InstanceUnit, InstanceUnits;
  }

  lemma TwoUnits(t: TemplateConfig, prefix: string, suffix: string)
    requires |t.instances| == 2
    ensures InstanceUnits(t, prefix, suffix, 2)
      == [InstanceUnit(t, prefix, suffix, t.instances[0]), InstanceUnit(t, prefix, suffix, t.instances[1])]
  {
    hide InstanceUnit;
  }

  lemma CameraTexts()
    ensures "v@" + ['a'] + ".service" == "v@a.service" && "v_" + ['a'] == "v_a" && "a" == ['a']
    ensures "v@" + ['b'] + ".service" == "v@b.service" && "v_" + ['b'] == "v_b" && "b" == ['b']
  {
  }

  lemma CameraUnit(t: TemplateConfig, name: string, id: string, inst: InstanceConfig, c: char)
    requires 'a' <= c <= 'z' && inst.name == [c] && inst.friendlyName != ""
    requires name == "v@" + [c] + ".service" && id == "v_" + [c]
    requires t.scope == USER && t.id == "v" && t.restartButton == None && t.problemSensor == None
    ensures InstanceUnit(t, "v@", ".service", inst) == Camera(name, id, inst.friendlyName)
  {
    CameraSlug(name, "v@" + [c], c);
    hide Slugify;
  }

  lemma CamerasExpand(status: string, a: string, b: string)
    requires a != "" && b != ""
    ensures var t, c := CameraTemplate(a, b), Cameras(status, a, b);
      ExpandFirst([], [t], 1) == Some(Expansion([t], c.all, c.selects))
  {
    var t, c := CameraTemplate(a, b), Cameras(status, a, b);
    CameraSplit();
    CameraUnits(status, a, b);
    CameraParts(status, a, b);
    hide SplitTemplate, InstanceUnits, ExpandFirst, Options, Resolve, Cameras;
    ExpandOne(t, "v@", ".service");
  }

  lemma ExpandOne(t: TemplateConfig, prefix: string, suffix: string)
    requires SplitTemplate(t.name) == Some((prefix, suffix)) && prefix != "" && Resolve(t, prefix, suffix) == t && t.exclusive
    ensures var us := InstanceUnits(t, prefix, suffix, |t.instances|);
      ExpandFirst([], [t], 1) == Some(Expansion([t], us, [] + [TemplateSelect(t.id, t.friendlyName, t.scope, Options(us))]))
  {
    hide SplitTemplate, InstanceUnits, Options, Resolve;
    assert ExpandFirst([], [t], 0) == Some(Expansion([t], [], []));
    hide ExpandFirst;
    ExpandNext([], [t], 0);
    var us := InstanceUnits(t, prefix, suffix, |t.instances|);
    assert [t][0 := t] == [t] && [] + us == us;
  }

  lemma CameraParts(status: string, a: string, b: string)
    ensures var t, c := CameraTemplate(a, b), Cameras(status, a, b);
      Resolve(t, "v@", ".service") == t && c.selects == [] + [TemplateSelect(t.id, t.friendlyName, t.scope, Options(c.all))]
  {
    hide Slugify, DisplayName;
    var c := Cameras(status, a, b);
    assert Options(c.all) == c.selects[0].options;
  }

  lemma CamerasOK(status: string, a: string, b: string)
    ensures UnitsOK(Cameras(status, a, b).all)
  {
    CameraOK("v@a.service", "v_a", a);
    CameraOK("v@b.service", "v_b", b);
    CamerasApart(a, b);
    PairOK(Camera("v@a.service", "v_a", a), Camera("v@b.service", "v_b", b));
    hide UnitsOK;
  }

  lemma PairOK(u: UnitConfig, v: UnitConfig)
    requires UnitOK(u) && UnitOK(v) && Apart(u, v)
    ensures UnitsOK([u, v])
  {
    hide UnitOK, Apart;
  }

  lemma CameraTemplateOK(a: string, b: string)
    ensures TemplatesOK([CameraTemplate(a, b)])
  {
  }

  lemma CameraRestOK(rest: Rest)
    requires rest == Rest("tcp://h", Some(URL("tcp", "h")), 1, "", "", "off", "replace", MIN_POLL, "info")
    ensures RestOK(rest)
  {
  }

  lemma CameraNodeOK(status: string, a: string, b: string)
    ensures var c := Cameras(status, a, b);
      NodeOK(c.nodeID, c.baseTopic, c.pollInterval) && c.discoveryPrefix != "" && c.statusTopic == status
  {
  }

  /** Whatever the status topic and the captions are, this configuration is loaded. */
  lemma CamerasLoad(status: string, a: string, b: string)
    requires status != "" && a != "" && b != ""
    ensures Loadable(Cameras(status, a, b)) && Accepted(Cameras(status, a, b))
  {
    hide UnitsOK, TemplatesOK, ExpandFirst, RestOK, NodeOK, CameraTemplate, Cameras, Accepted;
    var t, c := CameraTemplate(a, b), Cameras(status, a, b);
    var rest := Rest("tcp://h", Some(URL("tcp", "h")), 1, "", "", "off", "replace", MIN_POLL, "info");
    CameraRestOK(rest);
    CameraNodeOK(status, a, b);
    CamerasExpand(status, a, b);
    CamerasOK(status, a, b);
    CameraTemplateOK(a, b);
    assert Loads([], [t], rest, Expansion([t], c.all, c.selects), c);
    LoadableIsAccepted(c);
  }

  /** Two instances of the same caption are accepted, and the second cannot be picked. */
  lemma DuplicateCaptionsAccepted()
    ensures var c := Cameras("homeassistant/status", "Cam", "Cam");
      && Loadable(c) && Accepted(c)
      && !Outcome.GoodCaptions(c.selects[0].options) && !Outcome.Reachable(c.selects[0].options, 1)
  {
    CamerasLoad("homeassistant/status", "Cam", "Cam");
    var options := Cameras("homeassistant/status", "Cam", "Cam").selects[0].options;
    assert options[0].caption == options[1].caption;
    NotFirst(Cameras("homeassistant/status", "Cam", "Cam"), 1);
  }

  /** So is the caption "off", and that instance cannot be picked. */
  lemma OffCaptionAccepted()
    ensures var c := Cameras("homeassistant/status", "off", "Cam");
      && Loadable(c) && Accepted(c)
      && !Outcome.GoodCaptions(c.selects[0].options) && !Outcome.Reachable(c.selects[0].options, 0)
  {
    CamerasLoad("homeassistant/status", "off", "Cam");
    NotFirst(Cameras("homeassistant/status", "off", "Cam"), 0);
  }

  lemma NotFirst(c: Settings, i: nat)
    requires Accepted(c) && |c.selects| == 1 && i < |c.selects[0].options|
    requires var options := c.selects[0].options;
      options[i].caption == TS.OFF || exists j :: 0 <= j < i && options[j].caption == options[i].caption
    ensures !Outcome.Reachable(c.selects[0].options, i)
  {
    var p := Plan(c, StartIndex(c.all), Texts(_ => "", _ => "", (_, _, _, _) => "", ""));
    var options := c.selects[0].options;
    AcceptedHasPlan(c, p.texts);
    hide Accepted, PlanOK, Outcome.Starts;
    forall caption ensures !Outcome.Starts(options, caption, {}, options[i].unitID) {
      Outcome.StartsIffFirst(p, c.selects[0], caption, {}, i);
    }
  }

  /** A status topic that is the set topic of a unit is matched twice. */
  lemma SetTopicMatchedTwice(c: Settings, id: string)
    requires IsNodeID(c.nodeID) && BaseTopicOK(c.baseTopic) && c.haEnabled
    requires OneLevel(id) && id != "+" && c.statusTopic == Path(c, UnitSet(id))
    ensures !RoutedOnce(c)
  {
    hide Split, IsNodeID, BaseTopicOK;
    var filter := UnitSetWildcard(c);
    WildcardLevels(c, "unit", filter);
    PathLevels(c, UnitSet(id));
    hide Path, UnitSetWildcard, Root;
    FilterBelowRoot(c, filter, ["unit", "+", "set"], c.statusTopic);
    var r := Split(Root(c));
    assert (r + ["unit", id, "set"])[|r|..] == ["unit", id, "set"];
    WildcardTail("unit", ["unit", id, "set"]);
    assert (r + ["unit", id, "set"])[|r| + 1] == id && (r + ["unit", "+", "set"])[|r| + 1] == "+";
    FilterKinds(c, c.statusTopic);
    assert filter in Filters(c) by { hide TemplateSetWildcard; assert Filters(c)[0] == filter; }
    hide Filters;
    ItselfAccepted(c.statusTopic);
  }

  lemma ItselfAccepted(filter: string)
    ensures TopicFilter.Accepts(filter, filter)
  {
  }

  lemma CameraSetTopic(status: string, a: string, b: string)
    ensures Path(Cameras(status, a, b), UnitSet("v_a")) == "b/n/unit/v_a/set"
  {
  }

  /** A status topic that is a unit's set topic is accepted: its messages are handled twice, and command nothing. */
  lemma StatusTopicHandledTwice()
    ensures var c := Cameras("b/n/unit/v_a/set", "A", "B");
      && Loadable(c) && Accepted(c) && !RoutedOnce(c)
      && Path(c, UnitSet("v_a")) == c.statusTopic && Parse(c, Path(c, UnitSet("v_a"))) == Some(InHAStatus)
  {
    var c := Cameras("b/n/unit/v_a/set", "A", "B");
    CamerasLoad(c.statusTopic, "A", "B");
    CameraSetTopic(c.statusTopic, "A", "B");
    hide Loadable, UnitsOK, SelectPlaced, Parse, RoutedOnce, Path;
    StatusParsed(c, c.statusTopic);
    SetTopicMatchedTwice(c, "v_a");
  }

  lemma SlashDisagrees(c: Settings)
    requires IsNodeID(c.nodeID) && BaseTopicOK(c.baseTopic) && c.displayEnabled && c.haEnabled
    requires !TopicFilter.HasWildcard(c.statusTopic) && TopicFilter.EndsInSlash(c.statusTopic)
    requires Parse(c, c.statusTopic[..|c.statusTopic| - 1]) == None
    ensures !ParserAgrees(c) && TopicFilter.Accepts(c.statusTopic, c.statusTopic[..|c.statusTopic| - 1])
  {
    var short := c.statusTopic[..|c.statusTopic| - 1];
    hide Split, TopicFilter.HasWildcard, Parse, TopicFilter.Accepts, ParserAgrees, UnitSetWildcard, TemplateSetWildcard;
    hide IsNodeID, BaseTopicOK, TopicFilter.EndsInSlash;
    WildcardLevels(c, "unit", UnitSetWildcard(c));
    WildcardLevels(c, "template", TemplateSetWildcard(c));
    TopicFilter.PlainAccepts(c.statusTopic, short);
    ParseIffSubscribed(c);
  }

  /** A status topic that ends in '/' is accepted: its subscription brings in a topic that the parser does not know. */
  lemma SlashStatusDisagrees()
    ensures var c := Cameras("ha/", "A", "B");
      Loadable(c) && Accepted(c) && !ParserAgrees(c) && TopicFilter.Accepts("ha/", "ha") && Parse(c, "ha") == None
  {
    hide UnitsOK, SelectPlaced, TopicFilter.HasWildcard, Parse, TopicFilter.Accepts, ParserAgrees, IsNodeID, BaseTopicOK;
    hide DistinctSelects;
    CamerasLoad("ha/", "A", "B");
    NoWildcardInHa();
    HaUnknown();
    assert "ha/"[..2] == "ha";
    SlashDisagrees(Cameras("ha/", "A", "B"));
  }

  lemma NoWildcardInHa()
    ensures !TopicFilter.HasWildcard("ha/")
  {
    SplitLacks("ha/", '+');
    SplitLacks("ha/", '#');
    hide Split;
    assert forall l :: l in Split("ha/") ==> (l == "+" ==> '+' in l) && (l == "#" ==> '#' in l);
  }

  lemma HaUnknown()
    ensures Parse(Cameras("ha/", "A", "B"), "ha") == None
  {
    var c := Cameras("ha/", "A", "B");
    assert Path(c, DisplaySet)[0] == 'b' && Path(c, DisplayModeSet)[0] == 'b' && Path(c, DaemonRestart)[0] == 'b';
    assert (Root(c) + "/")[0] == 'b';
  }

  // ----- Full queues

  function Fill(n: nat): seq<Step> { seq(n, _ => Post(Lost)) }

  function Losts(n: nat): (r: seq<Event>)
    ensures |r| == n
  {
    seq(n, _ => Lost)
  }

  lemma OneMore(n: nat)
    requires n > 0
    ensures Fill(n) == Fill(n - 1) + [Post(Lost)] && Losts(n) == Losts(n - 1) + [Lost]
  {
  }

  lemma {:induction false} FillRuns(p: Plan, n: nat)
    requires n <= QUEUE
    ensures Run(p, Initial(p), Fill(n)) == Some(Initial(p).(events := Losts(n)))
  {
    StartsEmpty(p);
    if n == 0 {
      assert Fill(0) == [] && Losts(0) == [];
      RunNothing(p);
    } else {
      FillRuns(p, n - 1);
      OneMore(n);
      hide Initial, Run, Fill, Losts;
      RunSnoc(p, Initial(p), Fill(n - 1), Post(Lost), Initial(p).(events := Losts(n - 1)));
    }
  }

  lemma StartsEmpty(p: Plan)
    ensures Initial(p).events == [] && Initial(p).wakePending == {} && Initial(p).core == Start(p)
    ensures forall s :: s in Initial(p).env.buses <==> s in Scopes(p.c.all)
    ensures forall s :: s in Scopes(p.c.all) ==> Initial(p).env.buses[s] == Bus(false, None, [], None)
  {
    hide Scopes, Start;
  }

  lemma RunSnoc(p: Plan, l0: Loop, steps: seq<Step>, t: Step, l: Loop)
    requires Run(p, l0, steps) == Some(l) && Enabled(l, t)
    ensures Run(p, l0, steps + [t]) == Some(Do(p, l, t))
  {
    assert (steps + [t])[..|steps|] == steps;
  }

  /** A run that fills the loop's queue and then drops a wake. */
  lemma WakeIsDropped(p: Plan, scope: string)
    requires PlanOK(p) && scope in Scopes(p.c.all)
    ensures var steps := Fill(256) + [WakeHint(scope)];
      && Run(p, Initial(p), steps).Some? && Hints.Wedged(Run(p, Initial(p), steps).value, scope)
      && Hints.WakeDropped(p, Initial(p), steps, scope)
  {
    hide PlanOK, Initial, Run, Hints.WakeDropped, Scopes, Start;
    StartsEmpty(p);
    FillRuns(p, 256);
    var l := Initial(p).(events := Losts(256));
    RunSnoc(p, Initial(p), Fill(256), WakeHint(scope), l);
    Hints.WedgedIffDropped(p, Fill(256) + [WakeHint(scope)], scope);
  }

  /** The supervisor comes online, and the forwarder holds the change. */
  lemma ChangeForwarded(p: Plan, scope: string, steps: seq<Step>, l: Loop)
    requires scope in l.env.buses && l.env.buses[scope] == Bus(false, None, [], None)
    requires Run(p, Initial(p), steps) == Some(l)
    ensures Run(p, Initial(p), steps + [SetOnline(scope, true)] + [Send(scope)] + [Forward(scope)])
      == Some(WithBus(l, scope, Bus(true, None, [], Some(true))))
  {
    hide Run, Initial;
    RunSnoc(p, Initial(p), steps, SetOnline(scope, true), l);
    var l1 := WithBus(l, scope, Bus(true, Some(true), [], None));
    assert Do(p, l, SetOnline(scope, true)) == l1;
    RunSnoc(p, Initial(p), steps + [SetOnline(scope, true)], Send(scope), l1);
    var l2 := WithBus(l, scope, Bus(true, None, [true], None));
    assert [] + [true] == [true] && [true][1..] == [];
    assert Do(p, l1, Send(scope)) == l2;
    RunSnoc(p, Initial(p), steps + [SetOnline(scope, true)] + [Send(scope)], Forward(scope), l2);
    assert Do(p, l2, Forward(scope)) == WithBus(l, scope, Bus(true, None, [], Some(true)));
  }

  /** A run that fills the loop's queue and then drops the only state change of a bus: nothing about the bus is on its way
      any more, the supervisor is online, and the loop's and the broker's view of it are not. */
  lemma BusStateIsDropped(p: Plan, scope: string)
    requires PlanOK(p) && scope in Scopes(p.c.all)
    ensures var steps := Fill(256) + [SetOnline(scope, true)] + [Send(scope)] + [Forward(scope)] + [EventLoop.Step.Deliver(scope)];
      && Run(p, Initial(p), steps).Some?
      && var l := Run(p, Initial(p), steps).value;
         Quiet(l, scope) && l.env.buses[scope].online && !BusOn(l.core, scope) && Shown(l.core, scope, false)
  {
    hide PlanOK, Initial, Run, Scopes, Start;
    StartsEmpty(p);
    FillRuns(p, 256);
    var l0 := Initial(p).(events := Losts(256));
    ChangeForwarded(p, scope, Fill(256), l0);
    var l3 := WithBus(l0, scope, Bus(true, None, [], Some(true)));
    RunSnoc(p, Initial(p), Fill(256) + [SetOnline(scope, true)] + [Send(scope)] + [Forward(scope)],
      EventLoop.Step.Deliver(scope), l3);
    StartHeard(p);
  }

  lemma StartHeard(p: Plan)
    ensures Start(p).bus == map[] && !Start(p).republished && Start(p).last == map[]
  {
  }

  /** The supervisor changes and announces it. */
  lemma FlipRuns(p: Plan, scope: string, steps: seq<Step>, b: Bus)
    requires scope in Initial(p).env.buses && b.owed.None?
    requires Run(p, Initial(p), steps) == Some(WithBus(Initial(p), scope, b))
    ensures Run(p, Initial(p), steps + [SetOnline(scope, !b.online)] + [Send(scope)])
      == Some(WithBus(Initial(p), scope, b.(online := !b.online, ch := BusNews.S.Notified(b.ch, !b.online))))
  {
    hide Run, Initial, BusNews.S.Notified;
    var l := WithBus(Initial(p), scope, b);
    RunSnoc(p, Initial(p), steps, SetOnline(scope, !b.online), l);
    var l1 := WithBus(Initial(p), scope, b.(online := !b.online, owed := Some(!b.online)));
    assert Do(p, l, SetOnline(scope, !b.online)) == l1;
    RunSnoc(p, Initial(p), steps + [SetOnline(scope, !b.online)], Send(scope), l1);
    assert Do(p, l1, Send(scope)) == WithBus(Initial(p), scope, b.(online := !b.online, ch := BusNews.S.Notified(b.ch, !b.online)));
  }

  /** A forwarder that lags: the fifth change of a bus finds four of them in the channel, and the newest state that is on
      its way to the loop stays the wrong one. */
  lemma LastChangeIsDropped(p: Plan, scope: string) returns (steps: seq<Step>)
    requires PlanOK(p) && scope in Scopes(p.c.all)
    ensures Run(p, Initial(p), steps).Some?
    ensures var l := Run(p, Initial(p), steps).value;
      && scope in l.env.buses && l.env.buses[scope] == Bus(true, None, [true, false, true, false], None)
      && BusNews.LastLost(p, Initial(p), steps, scope)
  {
    hide PlanOK, Initial, Run, Scopes, Start, BusNews.LastLost, BusNews.Right;
    StartsEmpty(p);
    var b0 := Bus(false, None, [], None);
    assert WithBus(Initial(p), scope, b0) == Initial(p) by { WithSame(p, scope); }
    assert Run(p, Initial(p), []) == Some(Initial(p)) by { RunNothing(p); }
    FlipRuns(p, scope, [], b0);
    var s1, b1 := [] + [SetOnline(scope, true)] + [Send(scope)], Bus(true, None, [true], None);
    assert [] + [true] == [true];
    assert [true] + [false] == [true, false] && [true, false] + [true] == [true, false, true];
    assert [true, false, true] + [false] == [true, false, true, false];
    FlipRuns(p, scope, s1, b1);
    var s2, b2 := s1 + [SetOnline(scope, false)] + [Send(scope)], Bus(false, None, [true, false], None);
    FlipRuns(p, scope, s2, b2);
    var s3, b3 := s2 + [SetOnline(scope, true)] + [Send(scope)], Bus(true, None, [true, false, true], None);
    FlipRuns(p, scope, s3, b3);
    var s4, b4 := s3 + [SetOnline(scope, false)] + [Send(scope)], Bus(false, None, [true, false, true, false], None);
    FlipRuns(p, scope, s4, b4);
    steps := s4 + [SetOnline(scope, true)] + [Send(scope)];
    BusNews.RightIffNotLost(p, steps, scope);
    WrongNews(Run(p, Initial(p), steps).value, scope);
  }

  lemma WithSame(p: Plan, scope: string)
    requires scope in Scopes(p.c.all)
    ensures WithBus(Initial(p), scope, Bus(false, None, [], None)) == Initial(p)
  {
    hide Scopes, Start;
    var l := Initial(p);
    assert l.env.buses[scope := Bus(false, None, [], None)] == l.env.buses;
  }

  lemma RunNothing(p: Plan)
    ensures Run(p, Initial(p), []) == Some(Initial(p))
  {
  }

  lemma WrongNews(l: Loop, scope: string)
    requires scope in l.env.buses && l.env.buses[scope] == Bus(true, None, [true, false, true, false], None)
    ensures !BusNews.Right(l, scope)
  {
    hide BusNews.Values, BusOn;
  }

  // ----- An unavailable display

  /** A broker that lost everything misses the display values after a republish, when the display showed a mode and then
      went away. */
  lemma DisplayValuesStayLost(p: Plan, mode: int)
    requires PlanOK(p) && p.c.displayEnabled && mode != UNKNOWN
    ensures var k := RunOps(p, Start(p), [DisplayIs(mode, 0), DisplayGone(0)]);
      var k', b := Apply(p, k, Republish(0)), PublishCache.Deliver(map[], RepublishMsgs(p, Republishing(k, 0)));
      DisplayState in k'.last && !MirrorsAll(b, k'.last)
  {
    var ops := [DisplayIs(mode, 0), DisplayGone(0)];
    var k := RunOps(p, Start(p), ops);
    assert ops[..1] == [DisplayIs(mode, 0)] && ops[..1][..0] == [];
    CacheAlwaysRendered(p, ops);
    DisplayWent(p, mode);
    hide PlanOK, CacheOK, Apply, RunOps, Start, RepublishMsgs, PublishCache.Deliver;
    RepublishHeals(p, k, 0, map[]);
    assert DisplayState in k.last && !Mirrors(map[], k.last, DisplayState);
    assert !MirrorsDisplay(map[], k.last);
  }

  lemma DisplayAnswered(p: Plan, k: Core, mode: int)
    requires p.c.displayEnabled && mode != UNKNOWN
    ensures Apply(p, k, DisplayIs(mode, 0)).shown == mode
  {
    hide Put, DisplayMsgs, DaemonMsgs;
    var k1 := k.(dispOnline := true, dispMode := mode, told := 0, heard := true, shown := mode);
    PutUnits(k1, DisplayMsgs(p, k1) + DaemonMsgs(p, k1), false);
  }

  lemma DisplayFailed(p: Plan, k: Core)
    ensures var k' := Apply(p, k, DisplayGone(0)); k'.shown == k.shown && !DisplayUp(k')
  {
    hide Put, DisplayMsgs, DaemonMsgs;
    var k1 := k.(dispOnline := false, told := 0, heard := true);
    PutUnits(k1, DisplayMsgs(p, k1) + DaemonMsgs(p, k1), false);
  }

  lemma DisplayWent(p: Plan, mode: int)
    requires PlanOK(p) && p.c.displayEnabled && mode != UNKNOWN
    ensures var k := RunOps(p, Start(p), [DisplayIs(mode, 0), DisplayGone(0)]); !DisplayUp(k) && DisplayState in k.last
  {
    hide PlanOK, CacheOK, Start, Apply, DisplayUp;
    var ops := [DisplayIs(mode, 0), DisplayGone(0)];
    assert ops[..1] == [DisplayIs(mode, 0)] && ops[..1][..0] == [];
    assert RunOps(p, Start(p), ops[..1][..0]) == Start(p);
    assert RunOps(p, Start(p), ops[..1]) == Apply(p, Start(p), ops[0]);
    assert RunOps(p, Start(p), ops) == Apply(p, Apply(p, Start(p), ops[0]), ops[1]);
    CacheAlwaysRendered(p, ops);
    DisplayAnswered(p, Start(p), mode);
    DisplayFailed(p, Apply(p, Start(p), ops[0]));
    hide RunOps;
    Outcome.CacheFact(p, RunOps(p, Start(p), ops), DisplayState);
  }

  // ----- Close with a full queue

  function Publishes(n: nat): seq<Q.Step> { seq(n, _ => Q.Publish("t", "")) }

  lemma {:induction false} PublishesRun(n: nat)
    requires n <= Q.CAPACITY
    ensures Q.Run(Q.START, Publishes(n)).Some?
    ensures var s := Q.Run(Q.START, Publishes(n)).value; s.phase == Q.Open && |s.out| == n
  {
    if n > 0 {
      PublishesRun(n - 1);
      assert Publishes(n)[..n - 1] == Publishes(n - 1);
    }
  }

  /** A run that fills the queue of a live client: Close can then not get "offline" out. */
  lemma CloseLosesOffline(topic: string)
    ensures Q.Run(Q.START, Publishes(1024)).Some?
    ensures var s := Q.Run(Q.START, Publishes(1024)).value;
      && Q.Enabled(s, Q.Close(true, topic))
      && forall steps :: Q.Run(Q.Do(s, Q.Close(true, topic)), steps).Some? ==>
           !Q.HandedOffline(Q.Run(Q.Do(s, Q.Close(true, topic)), steps).value)
  {
    PublishesRun(1024);
    hide Q.Run, Q.HandedOffline;
    Q.OfflineIffRoom(Publishes(1024), true, topic);
  }
}
