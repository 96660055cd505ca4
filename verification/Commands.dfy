/** What an inbound message asks for. */
module Commands {
  import opened Text
  import opened Config
  import opened Topics

  /** The white space of Unicode. */
  predicate IsSpace(c: char) {
    || '\U{09}' <= c <= '\U{0D}' || c == ' ' || c == '\U{85}' || c == '\U{A0}' || c == '\U{1680}'
    || '\U{2000}' <= c <= '\U{200A}' || c == '\U{2028}' || c == '\U{2029}' || c == '\U{202F}' || c == '\U{205F}'
    || c == '\U{3000}'
  }

  /** By code point: tab to carriage return, space, next line, no-break space, and the Unicode spaces and separators. */
  lemma SpacesExact(c: char)
    ensures IsSpace(c) <==>
      var n := c as int;
      9 <= n <= 13 || n in [32, 133, 160, 5760, 8232, 8233, 8239, 8287, 12288] || 8192 <= n <= 8202
  {
  }

  function TrimSpace(s: string): string {
    if s == "" then ""
    else if IsSpace(s[0]) then TrimSpace(s[1..])
    else if IsSpace(s[|s| - 1]) then TrimSpace(s[..|s| - 1])
    else s
  }

  /** strings.ToUpper as far as a comparison with ASCII can tell: the dotless i and the long s have an upper-case letter
      inside it. */
  function UpperChar(c: char): char {
    if 'a' <= c <= 'z' then (c - 'a') + 'A'
    else if c == '\U{0131}' then 'I'
    else if c == '\U{017F}' then 'S'
    else c
  }

  function ToUpper(s: string): (r: string)
    ensures |r| == |s| && forall i :: 0 <= i < |s| ==>
      if 'a' <= s[i] <= 'z' then r[i] as int == s[i] as int - 32
      else r[i] == if s[i] == '\U{0131}' then 'I' else if s[i] == '\U{017F}' then 'S' else s[i]
  {
    seq(|s|, i requires 0 <= i < |s| => UpperChar(s[i]))
  }

  /** Only white space is trimmed, and all of it at both ends. */
  lemma {:induction false} TrimSpaceExact(s: string) returns (a: nat, b: nat)
    ensures a <= b <= |s| && TrimmedTo(s, a, b) && TrimSpace(s) == s[a..b]
    ensures a < b ==> !IsSpace(s[a]) && !IsSpace(s[b - 1])
  {
    hide IsSpace;
    if s == "" {
      a, b := 0, 0;
    } else if IsSpace(s[0]) {
      a, b := TrimSpaceExact(s[1..]);
      a, b := a + 1, b + 1;
    } else if IsSpace(s[|s| - 1]) {
      a, b := TrimSpaceExact(s[..|s| - 1]);
    } else {
      a, b := 0, |s|;
    }
  }

  predicate TrimmedTo(s: string, a: nat, b: nat)
    requires a <= b <= |s|
  {
    (forall i :: 0 <= i < a ==> IsSpace(s[i])) && forall i :: b <= i < |s| ==> IsSpace(s[i])
  }

  datatype Verb = Start | Stop | Restart

  function ParseCommand(payload: string): Option<Verb> {
    var text := TrimSpace(payload);
    if text in ["ON", "on", "1", "true"] then Some(Start)
    else if text in ["OFF", "off", "0", "false"] then Some(Stop)
    else if text in ["RESTART", "restart"] then Some(Restart)
    else None
  }

  /** The birth message of Home Assistant. */
  predicate IsBirth(c: Settings, topic: string, payload: string) {
    Parse(c, topic) == Some(InHAStatus) && TrimSpace(payload) == "online"
  }

  datatype Action = Nothing | FullPublish | RunUnit(unit: UnitConfig, verb: Verb) | Pick(sel: TemplateSelect, caption: string)
    | WriteMode(mode: int) | Exit

  /** The mode that the off_mode setting stands for. */
  function OffMode(setting: string): int {
    if setting == "standby" then 1 else if setting == "suspend" then 2 else 3
  }

  /** The names of the modes, or their numbers. */
  function ParseMode(text: string): Option<int> {
    var name := ToLower(TrimSpace(text));
    if name in ["on", "0"] then Some(0)
    else if name in ["standby", "1"] then Some(1)
    else if name in ["suspend", "2"] then Some(2)
    else if name in ["off", "3"] then Some(3)
    else None
  }

  /** Retained commands are stale. The birth message is the one retained message that counts. */
  function ActionFor(c: Settings, offMode: string, topic: string, payload: string, retained: bool): Action {
    var inbound := Parse(c, topic);
    if inbound.None? || (retained && inbound.value != InHAStatus) then Nothing
    else
      var text := TrimSpace(payload);
      match inbound.value
      case InHAStatus => if text == "online" then FullPublish else Nothing
      case InUnitSet(id) =>
        var u, verb := UnitByID(c.all, id), ParseCommand(payload);
        if u.None? || verb.None? then Nothing else RunUnit(u.value, verb.value)
      case InTemplateSet(id) =>
        var s := SelectOf(c.selects, id);
        if s.None? then Nothing else Pick(s.value, text)
      case InDisplaySet =>
        if ToUpper(text) in ["ON", "1", "TRUE"] then WriteMode(0)
        else if ToUpper(text) in ["OFF", "0", "FALSE"] then WriteMode(OffMode(offMode))
        else Nothing
      case InDisplayModeSet =>
        var mode := ParseMode(text);
        if mode.None? then Nothing else WriteMode(mode.value)
      case InDaemonRestart => Exit
  }

  /** What a message that is not an unretained command can do: a retained one never commands anything, and a republish
      is asked for by the birth message only. */
  lemma OnlyBirthRepublishes(c: Settings, offMode: string, topic: string, payload: string, retained: bool)
    ensures var a := ActionFor(c, offMode, topic, payload, retained);
      && (a == FullPublish <==> IsBirth(c, topic, payload))
      && (a == FullPublish <==> topic == c.statusTopic && TrimSpace(payload) == "online")
      && (retained ==> a == Nothing || a == FullPublish)
  {
    StatusParsed(c, topic);
    hide Parse, TrimSpace, ToUpper;
  }

  lemma KnownUnitID(c: Settings, u: UnitConfig)
    requires Accepted(c) && u in c.all
    ensures ObjectID(u) != "" && Plain(UnitSet(ObjectID(u))) && OneLevel(c.nodeID)
    ensures UnitByID(c.all, ObjectID(u)) == Some(u)
  {
    hide ObjectID, Components, SelectPlaced, UnitByID, BaseTopicOK, DistinctSelects;
    assert UnitOK(u);
    PlainID(ObjectID(u));
    PlainID(c.nodeID);
    UnitByIDMember(c.all, u);
  }

  lemma KnownSelectID(c: Settings, s: TemplateSelect)
    requires Accepted(c) && s in c.selects
    ensures s.id != "" && Plain(TemplateSet(s.id)) && OneLevel(c.nodeID)
    ensures SelectOf(c.selects, s.id) == Some(s)
  {
    hide SelectPlaced, SelectOf, BaseTopicOK, UnitsOK;
    var i :| 0 <= i < |c.selects| && c.selects[i] == s;
    PlainID(s.id);
    PlainID(c.nodeID);
    SelectOfMember(c.selects, s);
  }

  /** For an accepted configuration a unit is commanded by exactly the unretained messages to its own set topic, with
      the verb of the payload, unless Home Assistant's status topic was configured to be that very topic. */
  lemma UnitCommandExact(c: Settings, offMode: string, topic: string, payload: string, retained: bool, u: UnitConfig, verb: Verb)
    requires Accepted(c) && u in c.all
    ensures ActionFor(c, offMode, topic, payload, retained) == RunUnit(u, verb) <==>
      && topic == Path(c, UnitSet(ObjectID(u))) && topic != c.statusTopic && !retained
      && match verb
         case Start => TrimSpace(payload) in ["ON", "on", "1", "true"]
         case Stop => TrimSpace(payload) in ["OFF", "off", "0", "false"]
         case Restart => TrimSpace(payload) in ["RESTART", "restart"]
  {
    VerbExact(payload, verb);
    hide Accepted, ObjectID, Plain, OneLevel, Path, ParseCommand, TrimSpace, ToUpper, UnitByID, ParseMode, OffMode;
    KnownUnitID(c, u);
    StatusParsed(c, topic);
    hide Parse;
    if topic != c.statusTopic {
      ParseExact(c, topic, UnitSet(ObjectID(u)));
    }
  }

  lemma VerbExact(payload: string, verb: Verb)
    ensures ParseCommand(payload) == Some(verb) <==>
      match verb
      case Start => TrimSpace(payload) in ["ON", "on", "1", "true"]
      case Stop => TrimSpace(payload) in ["OFF", "off", "0", "false"]
      case Restart => TrimSpace(payload) in ["RESTART", "restart"]
  {
    hide TrimSpace;
  }

  /** The display's mode is written by exactly the unretained messages to its two set topics: on and off, in any case, and
      the modes by name or number. */
  lemma DisplayCommandExact(c: Settings, offMode: string, topic: string, payload: string, retained: bool, mode: int)
    requires Accepted(c)
    ensures ActionFor(c, offMode, topic, payload, retained) == WriteMode(mode) <==>
      && !retained && topic != c.statusTopic
      && ((topic == Path(c, DisplaySet) && SwitchMode(offMode, ToUpper(TrimSpace(payload)), mode))
          || (topic == Path(c, DisplayModeSet) && NamedMode(ToLower(TrimSpace(payload)), mode)))
  {
    hide Accepted, Plain, OneLevel, Path, ParseCommand, TrimSpace, ToUpper, ToLower, UnitByID, SelectOf;
    TrimTwice(payload);
    NodeLevel(c);
    StatusParsed(c, topic);
    hide Parse;
    if topic != c.statusTopic {
      FixedPlainCommands();
      ParseExact(c, topic, DisplaySet);
      ParseExact(c, topic, DisplayModeSet);
    }
  }

  lemma NodeLevel(c: Settings)
    requires Accepted(c)
    ensures OneLevel(c.nodeID)
  {
    hide UnitsOK, SelectPlaced, DistinctSelects, BaseTopicOK;
    PlainID(c.nodeID);
  }

  lemma FixedPlainCommands()
    ensures Plain(DisplaySet) && Plain(DisplayModeSet) && Plain(DaemonRestart)
  {
  }

  /** Trimming once is enough. */
  lemma TrimTwice(s: string)
    ensures TrimSpace(TrimSpace(s)) == TrimSpace(s)
  {
    var a, b := TrimSpaceExact(s);
    hide IsSpace;
    if a == b {
      assert s[a..b] == "";
    } else {
      var t := s[a..b];
      assert !IsSpace(t[0]) && !IsSpace(t[|t| - 1]);
    }
  }

  /** On is mode 0; off is the mode that off_mode names, and mode 3 when it names none. */
  predicate SwitchMode(offMode: string, text: string, mode: int) {
    || (text in ["ON", "1", "TRUE"] && mode == 0)
    || (text in ["OFF", "0", "FALSE"]
        && mode == if offMode == "standby" then 1 else if offMode == "suspend" then 2 else 3)
  }

  predicate NamedMode(name: string, mode: int) {
    || (name in ["on", "0"] && mode == 0) || (name in ["standby", "1"] && mode == 1)
    || (name in ["suspend", "2"] && mode == 2) || (name in ["off", "3"] && mode == 3)
  }

  /** The daemon ends exactly on an unretained message to its restart topic, whatever the payload. */
  lemma ExitExact(c: Settings, offMode: string, topic: string, payload: string, retained: bool)
    requires Accepted(c)
    ensures ActionFor(c, offMode, topic, payload, retained) == Exit <==>
      !retained && topic != c.statusTopic && topic == Path(c, DaemonRestart)
  {
    hide Accepted, Plain, OneLevel, Path, ParseCommand, TrimSpace, ToUpper, ParseMode, OffMode, UnitByID, SelectOf;
    NodeLevel(c);
    StatusParsed(c, topic);
    hide Parse;
    if topic != c.statusTopic {
      FixedPlainCommands();
      ParseExact(c, topic, DaemonRestart);
    }
  }

  /** The same for a select: its own set topic picks the trimmed payload. */
  lemma SelectCommandExact(c: Settings, offMode: string, topic: string, payload: string, retained: bool, s: TemplateSelect,
      caption: string)
    requires Accepted(c) && s in c.selects
    ensures ActionFor(c, offMode, topic, payload, retained) == Pick(s, caption) <==>
      topic == Path(c, TemplateSet(s.id)) && topic != c.statusTopic && !retained && caption == TrimSpace(payload)
  {
    hide Accepted, Plain, OneLevel, Path, ParseCommand, TrimSpace, ToUpper, SelectOf;
    KnownSelectID(c, s);
    StatusParsed(c, topic);
    hide Parse;
    if topic != c.statusTopic {
      ParseExact(c, topic, TemplateSet(s.id));
    }
  }
}
