/** The MQTT filter matcher of the client: an index walk over filter and topic. */
module TopicFilter {
  import opened Text

  /** Level-by-level matching, section 4.7.1 of MQTT 3.1.1: up to the first "#" the levels agree one by one ("+"
      agrees with any level); a "#" matches the levels that remain, and also their absence (section 4.7.1.2). */
  ghost predicate Matches(filter: seq<string>, topic: seq<string>) {
    var n := Fixed(filter);
    && |topic| >= n
    && (n == |filter| ==> |topic| == n)
    && forall i :: 0 <= i < n ==> filter[i] == "+" || filter[i] == topic[i]
  }

  /** The number of levels before the first "#". */
  function Fixed(filter: seq<string>): (n: nat)
    ensures n <= |filter|
    ensures n < |filter| ==> filter[n] == "#"
    ensures forall i :: 0 <= i < n ==> filter[i] != "#"
  {
    if filter == [] || filter[0] == "#" then 0 else 1 + Fixed(filter[1..])
  }

  /** What the walk computes on the levels that it sees. */
  predicate Walk(filter: seq<string>, topic: seq<string>) {
    if filter == [] then topic == []
    else if filter[0] == "#" then true
    else topic != [] && (filter[0] == "+" || filter[0] == topic[0]) && Walk(filter[1..], topic[1..])
  }

  lemma {:induction false} WalkIsMatches(filter: seq<string>, topic: seq<string>)
    ensures Walk(filter, topic) <==> Matches(filter, topic)
  {
    if filter != [] && filter[0] != "#" && topic != [] {
      WalkIsMatches(filter[1..], topic[1..]);
      var f, t, n := filter[1..], topic[1..], Fixed(filter[1..]);
      assert Fixed(filter) == n + 1;
      if Matches(filter, topic) {
        assert forall i :: 0 <= i < n ==> f[i] == filter[i + 1] && t[i] == topic[i + 1];
      }
      if Matches(f, t) && (filter[0] == "+" || filter[0] == topic[0]) {
        forall i | 0 <= i < n + 1 ensures filter[i] == "+" || filter[i] == topic[i] {
          if i > 0 {
            assert f[i - 1] == filter[i] && t[i - 1] == topic[i];
          }
        }
      }
    }
  }

  /** The levels the walk reads off a string: it stops at the end of the string, so an empty last level, the one
      after a trailing '/', is never seen. */
  function SeenLevels(s: string): seq<string> {
    var levels := Split(s);
    if levels[|levels| - 1] == "" then levels[..|levels| - 1] else levels
  }

  /** The levels of a filter and of a topic from an index on. Past the end there are none. */
  function FilterRest(s: string, i: nat): seq<string> {
    if i <= |s| then SeenLevels(s[i..]) else []
  }

  function TopicRest(s: string, i: nat): seq<string> {
    if i <= |s| then Split(s[i..]) else []
  }

  /** A cut at the next '/', or at the end, takes one level off. */
  lemma RestStep(s: string, i: nat, end: nat)
    requires i <= end <= |s| && '/' !in s[i..end]
    requires end == |s| || s[end] == '/'
    ensures TopicRest(s, i) == [s[i..end]] + TopicRest(s, end + 1)
    ensures i < |s| ==> FilterRest(s, i) == [s[i..end]] + FilterRest(s, end + 1)
  {
    hide Split;
    var r := s[i..];
    assert r[..end - i] == s[i..end];
    SplitAt(r, end - i);
    if end < |s| {
      assert r[end - i + 1..] == s[end + 1..];
    } else {
      assert r == s[i..end];
    }
  }

  /** What topicMatches returns, as a function. */
  predicate Accepts(filter: string, topic: string) {
    filter == topic || Walk(SeenLevels(filter), Split(topic))
  }

  method IndexOrEnd(s: string, from: nat) returns (i: nat)
    requires from <= |s|
    ensures from <= i <= |s| && '/' !in s[from..i]
    ensures i == |s| || s[i] == '/'
  {
    i := from;
    while i < |s|
      invariant from <= i <= |s| && '/' !in s[from..i]
    {
      if s[i] == '/' {
        return;
      }
      i := i + 1;
    }
  }

  method TopicMatches(filter: string, topic: string) returns (matched: bool)
    ensures matched <==> Accepts(filter, topic)
    ensures !EndsInSlash(filter) ==> (matched <==> Matches(Split(filter), Split(topic)))
  {
    if !EndsInSlash(filter) {
      AcceptsIsStandard(filter, topic);
    }
    if filter == topic {
      return true;
    }
    matched := WalkLevels(filter, topic);
  }

  lemma WalkStep(level: string, filter: seq<string>, topic: seq<string>)
    ensures level == "#" ==> Walk([level] + filter, topic)
    ensures level != "#" && topic == [] ==> !Walk([level] + filter, topic)
    ensures level != "#" && topic != [] ==>
      (Walk([level] + filter, topic) <==> (level == "+" || level == topic[0]) && Walk(filter, topic[1..]))
  {
    assert ([level] + filter)[1..] == filter;
  }

  /** The loop of topicMatches. */
  method WalkLevels(filter: string, topic: string) returns (matched: bool)
    ensures matched <==> Walk(SeenLevels(filter), Split(topic))
  {
    hide Split, SeenLevels;
    assert filter[0..] == filter && topic[0..] == topic;
    ghost var f, t := FilterRest(filter, 0), TopicRest(topic, 0);
    var fi, ti := 0, 0;
    while fi < |filter|
      invariant 0 <= fi <= |filter| + 1 && 0 <= ti <= |topic| + 1
      invariant f == FilterRest(filter, fi) && t == TopicRest(topic, ti)
      invariant Walk(SeenLevels(filter), Split(topic)) <==> Walk(f, t)
    {
      var fEnd := IndexOrEnd(filter, fi);
      var level := filter[fi..fEnd];
      RestStep(filter, fi, fEnd);
      f := FilterRest(filter, fEnd + 1);
      WalkStep(level, f, t);
      if level == "#" {
        return true;
      }
      if ti > |topic| {
        return false;
      }
      var tEnd := IndexOrEnd(topic, ti);
      RestStep(topic, ti, tEnd);
      assert t[1..] == TopicRest(topic, tEnd + 1);
      t := TopicRest(topic, tEnd + 1);
      if level != "+" && level != topic[ti..tEnd] {
        return false;
      }
      fi := fEnd + 1;
      ti := tEnd + 1;
    }
    NoneSeen(filter);
    matched := ti > |topic|;
  }

  lemma NoneSeen(s: string)
    ensures FilterRest(s, |s|) == []
  {
    assert s[|s|..] == "";
  }

  predicate EndsInSlash(s: string) {
    s != "" && s[|s| - 1] == '/'
  }

  lemma {:induction false} LastLevelEmpty(s: string)
    ensures EndsInSlash(s) ==> Split(s) == Split(s[..|s| - 1]) + [""]
    ensures !EndsInSlash(s) ==> s == "" || SeenLevels(s) == Split(s)
  {
    hide Split;
    if EndsInSlash(s) {
      SlashLevels(s[..|s| - 1], s);
    } else if s != "" {
      LastLevelNonEmpty(s);
    }
  }

  lemma {:induction false} SlashLevels(short: string, s: string)
    requires s == short + "/"
    ensures Split(s) == Split(short) + [""]
  {
    hide Split;
    assert s == short + "/" + "";
    SplitConcat(short, "");
    SplitNoSlash("");
  }

  lemma {:induction false} LastLevelNonEmpty(s: string)
    requires s != "" && !EndsInSlash(s)
    ensures Split(s)[|Split(s)| - 1] != ""
  {
    if |s| > 1 {
      LastLevelNonEmpty(s[1..]);
    } else {
      SplitNoSlash(s);
    }
  }

  lemma AcceptsIsStandard(filter: string, topic: string)
    requires !EndsInSlash(filter)
    ensures Accepts(filter, topic) <==> Matches(Split(filter), Split(topic))
  {
    LastLevelEmpty(filter);
    WalkIsMatches(SeenLevels(filter), Split(topic));
    WalkIsMatches(Split(filter), Split(topic));
    if filter == "" {
      SplitNoSlash("");
      if Split(topic) == [""] {
        SplitInjective(topic, "");
      }
    } else if filter == topic {
      WalkSelf(Split(filter));
    }
  }

  lemma {:induction false} WalkSelf(levels: seq<string>)
    ensures Walk(levels, levels)
  {
    if levels != [] {
      WalkSelf(levels[1..]);
    }
  }

  lemma {:induction false} FixedAppend(levels: seq<string>, last: string)
    requires last != "#"
    ensures "#" in levels ==> Fixed(levels + [last]) == Fixed(levels) < |levels|
    ensures "#" !in levels ==> Fixed(levels + [last]) == |levels| + 1
  {
    if levels != [] && levels[0] != "#" {
      assert (levels + [last])[1..] == levels[1..] + [last];
      FixedAppend(levels[1..], last);
      assert levels == [levels[0]] + levels[1..];
    }
  }

  /** The matcher is the standard's for a filter, on every topic, exactly when the filter does not end in '/' or
      has a "#" level before that. */
  lemma ExactFilters(filter: string)
    ensures (forall topic :: Accepts(filter, topic) <==> Matches(Split(filter), Split(topic)))
      <==> (!EndsInSlash(filter) || "#" in Split(filter))
  {
    if !EndsInSlash(filter) {
      forall topic ensures Accepts(filter, topic) <==> Matches(Split(filter), Split(topic)) {
        AcceptsIsStandard(filter, topic);
      }
    } else if "#" in Split(filter) {
      forall topic ensures Accepts(filter, topic) <==> Matches(Split(filter), Split(topic)) {
        SlashAfterHash(filter, topic);
      }
    } else {
      SlashAlone(filter);
    }
  }

  lemma SlashAfterHash(filter: string, topic: string)
    requires EndsInSlash(filter) && "#" in Split(filter)
    ensures Accepts(filter, topic) <==> Matches(Split(filter), Split(topic))
  {
    var levels := Split(filter[..|filter| - 1]);
    LastLevelEmpty(filter);
    assert SeenLevels(filter) == levels;
    hide Split, SeenLevels, Walk, Matches;
    WalkIsMatches(levels, Split(topic));
    AfterHash(levels, "", Split(topic));
    if filter == topic {
      WalkSelf(Split(filter));
      WalkIsMatches(Split(filter), Split(topic));
    }
  }

  /** Levels after a "#" do not count. */
  lemma AfterHash(levels: seq<string>, last: string, topic: seq<string>)
    requires "#" in levels && last != "#"
    ensures Matches(levels + [last], topic) <==> Matches(levels, topic)
  {
    FixedAppend(levels, last);
    hide Fixed;
  }

  /** Without a "#", a filter that ends in '/' wrongly accepts the topic without that '/'. */
  lemma SlashAlone(filter: string)
    requires EndsInSlash(filter) && "#" !in Split(filter)
    ensures var short := filter[..|filter| - 1]; Accepts(filter, short) && !Matches(Split(filter), Split(short))
  {
    var short := filter[..|filter| - 1];
    LastLevelEmpty(filter);
    hide Split;
    FixedAppend(Split(short), "");
    WalkSelf(Split(short));
  }

  /** The further rule of section 4.7.2: a filter that starts with a wildcard does not match a topic that starts with
      '$'. */
  predicate StartsWild(filter: seq<string>) { filter != [] && (filter[0] == "+" || filter[0] == "#") }

  predicate SystemTopic(topic: seq<string>) { topic != [] && topic[0] != "" && topic[0][0] == '$' }

  ghost predicate Standard(filter: seq<string>, topic: seq<string>) {
    Matches(filter, topic) && !(StartsWild(filter) && SystemTopic(topic))
  }

  /** A topic that a filter with a leading wildcard accepts against that rule. */
  lemma WildAcceptsSystem(filter: string) returns (topic: string)
    requires StartsWild(Split(filter))
    ensures Accepts(filter, topic) && SystemTopic(Split(topic))
  {
    var seen := SeenLevels(filter);
    SplitOneLevels(filter);
    hide Split;
    var levels := ["$"] + seen[1..];
    topic := Join(levels);
    SplitJoin(levels);
    WalkSelf(seen[1..]);
    assert levels[1..] == seen[1..];
  }

  /** With that rule, the matcher is the standard's on every topic exactly when the filter does not start with a wildcard
      and, as above, does not end in '/' or has a "#" level before that. */
  lemma ExactWithSystemTopics(filter: string)
    ensures (forall topic :: Accepts(filter, topic) <==> Standard(Split(filter), Split(topic)))
      <==> !StartsWild(Split(filter)) && (!EndsInSlash(filter) || "#" in Split(filter))
  {
    hide Accepts, Matches, Split, SystemTopic;
    if StartsWild(Split(filter)) {
      var topic := WildAcceptsSystem(filter);
    } else {
      ExactFilters(filter);
    }
  }

  /** Section 4.7.1.2: "a/#" matches "a" itself. */
  lemma HashMatchesParent(parent: string)
    requires "#" !in Split(parent)
    ensures Accepts(parent + "/#", parent)
  {
    var f := parent + "/#";
    assert f == parent + "/" + "#";
    SplitConcat(parent, "#");
    SplitNoSlash("#");
    FixedOf(Split(parent), ["#"]);
    AcceptsIsStandard(f, parent);
  }

  /** Literal levels in front of a filter must be the topic's own first levels. */
  lemma {:induction false} FixedOf(literal: seq<string>, rest: seq<string>)
    requires "#" !in literal
    ensures Fixed(literal + rest) == |literal| + Fixed(rest)
  {
    if literal == [] {
      assert literal + rest == rest;
    } else {
      assert (literal + rest)[1..] == literal[1..] + rest;
      assert literal[0] in literal;
      FixedOf(literal[1..], rest);
    }
  }

  lemma MatchesLiteralPrefix(literal: seq<string>, rest: seq<string>, topic: seq<string>)
    requires forall l :: l in literal ==> l != "+" && l != "#"
    ensures Matches(literal + rest, topic) <==> literal <= topic && Matches(rest, topic[|literal|..])
  {
    FixedOf(literal, rest);
    var n, k := Fixed(rest), |literal|;
    var f := literal + rest;
    if Matches(f, topic) {
      forall i | 0 <= i < k ensures literal[i] == topic[i] {
        assert f[i] == literal[i] && literal[i] in literal;
      }
      forall i | 0 <= i < n ensures rest[i] == "+" || rest[i] == topic[k..][i] {
        assert f[k + i] == rest[i];
      }
    }
    if literal <= topic && Matches(rest, topic[k..]) {
      forall i | 0 <= i < k + n ensures f[i] == "+" || f[i] == topic[i] {
        if i >= k {
          assert f[i] == rest[i - k] && topic[i] == topic[k..][i - k];
        }
      }
    }
  }

  /** The subscriptions whose handler gets a message: those that match it, each once. */
  method Route(subs: set<string>, topic: string) returns (called: set<string>)
    ensures forall f :: f in called <==> f in subs && Accepts(f, topic)
  {
    hide Accepts;
    called := {};
    var rest := subs;
    while rest != {}
      invariant rest <= subs && forall f :: f in called <==> f in subs - rest && Accepts(f, topic)
      decreases |rest|
    {
      var f :| f in rest;
      var matched := TopicMatches(f, topic);
      if matched {
        called := called + {f};
      }
      rest := rest - {f};
    }
  }

  // ----- Filters that can match the same topic

  /** Whether levels without "#" and the levels of another filter match a common topic. */
  predicate Compatible(a: seq<string>, b: seq<string>) {
    if b != [] && b[0] == "#" then true
    else if a == [] || b == [] then a == b
    else (a[0] == "+" || b[0] == "+" || a[0] == b[0]) && Compatible(a[1..], b[1..])
  }

  /** A topic that both match. */
  function Common(a: seq<string>, b: seq<string>): seq<string> {
    if (b != [] && b[0] == "#") || a == [] || b == [] then a
    else [if a[0] == "+" then b[0] else a[0]] + Common(a[1..], b[1..])
  }

  lemma {:induction false} CommonMatches(a: seq<string>, b: seq<string>)
    requires Compatible(a, b) && "#" !in a
    ensures Walk(a, Common(a, b)) && Walk(b, Common(a, b)) && |Common(a, b)| == |a|
    ensures forall l :: l in Common(a, b) ==> l in a || l in b
  {
    if (b != [] && b[0] == "#") || a == [] || b == [] {
      WalkSelf(a);
    } else {
      assert a[0] in a && forall l :: l in a[1..] ==> l in a;
      assert b[0] in b && forall l :: l in b[1..] ==> l in b;
      CommonMatches(a[1..], b[1..]);
      assert Common(a, b)[1..] == Common(a[1..], b[1..]);
    }
  }

  lemma {:induction false} BothMatch(a: seq<string>, b: seq<string>, topic: seq<string>)
    requires Walk(a, topic) && Walk(b, topic) && "#" !in a
    ensures Compatible(a, b)
  {
    if a != [] && b != [] && b[0] != "#" {
      assert a[0] in a && forall l :: l in a[1..] ==> l in a;
      BothMatch(a[1..], b[1..], topic[1..]);
    }
  }

  /** Whether some topic is accepted by a filter without "#" and trailing '/', and by another filter. */
  predicate Overlap(filter: string, other: string) {
    Accepts(filter, other) || Compatible(Split(filter), SeenLevels(other))
  }

  lemma OverlapExact(filter: string, other: string)
    requires "#" !in Split(filter) && filter != "" && !EndsInSlash(filter)
    ensures Overlap(filter, other) <==> exists topic :: Accepts(filter, topic) && Accepts(other, topic)
  {
    LastLevelEmpty(filter);
    var a, b := Split(filter), SeenLevels(other);
    assert SeenLevels(filter) == a;
    if Compatible(a, b) {
      CommonMatches(a, b);
      SplitOneLevels(filter);
      SplitOneLevels(other);
      hide Split, SeenLevels, Walk, Common, Compatible;
      CommonAccepted(filter, other, Common(a, b));
    } else {
      assert Accepts(other, other);
      hide Split, SeenLevels, Compatible;
      if topic: string :| Accepts(filter, topic) && Accepts(other, topic) {
        OneAccepts(filter, topic);
        if Walk(b, Split(topic)) {
          BothMatch(a, b, Split(topic));
        }
      }
    }
  }

  lemma OneAccepts(filter: string, topic: string)
    requires SeenLevels(filter) == Split(filter)
    ensures Accepts(filter, topic) <==> Walk(Split(filter), Split(topic))
  {
    if filter == topic {
      WalkSelf(Split(filter));
    }
  }

  lemma CommonAccepted(filter: string, other: string, levels: seq<string>)
    requires Walk(SeenLevels(filter), levels) && Walk(SeenLevels(other), levels) && |levels| >= 1
    requires forall l :: l in levels ==> OneLevel(l)
    ensures Accepts(filter, Join(levels)) && Accepts(other, Join(levels))
  {
    SplitJoin(levels);
    hide Split, SeenLevels;
  }

  // ----- Filters without wildcards

  predicate HasWildcard(filter: string) { "+" in Split(filter) || "#" in Split(filter) }

  lemma {:induction false} WalkPlain(filter: seq<string>, topic: seq<string>)
    requires "+" !in filter && "#" !in filter
    ensures Walk(filter, topic) <==> filter == topic
  {
    if filter != [] {
      assert filter[0] in filter && forall l :: l in filter[1..] ==> l in filter;
      if topic != [] {
        WalkPlain(filter[1..], topic[1..]);
        assert filter == [filter[0]] + filter[1..] && topic == [topic[0]] + topic[1..];
      }
    }
  }

  /** A filter without wildcards accepts itself and, when it ends in '/', the topic without that '/'. */
  lemma PlainAccepts(filter: string, topic: string)
    requires !HasWildcard(filter)
    ensures Accepts(filter, topic) <==> topic == filter || (EndsInSlash(filter) && topic == filter[..|filter| - 1])
  {
    var seen := SeenLevels(filter);
    assert forall l :: l in seen ==> l in Split(filter);
    WalkPlain(seen, Split(topic));
    LastLevelEmpty(filter);
    if EndsInSlash(filter) {
      assert seen == Split(filter[..|filter| - 1]);
      if Split(topic) == seen {
        SplitInjective(topic, filter[..|filter| - 1]);
      }
    } else if filter == "" {
      SplitNoSlash("");
    } else if Split(topic) == seen {
      SplitInjective(topic, filter);
    }
  }

  // ----- Filters with wildcards

  lemma HashSeen(filter: string)
    requires "#" in Split(filter)
    ensures Fixed(SeenLevels(filter)) == Fixed(Split(filter)) < |SeenLevels(filter)|
  {
    var all := Split(filter);
    hide Split;
    if all[|all| - 1] == "" {
      var seen := all[..|all| - 1];
      assert all == seen + [""];
      FixedAppend(seen, "");
    }
  }

  lemma SeenPrefix(filter: string)
    ensures SeenLevels(filter) <= Split(filter)
  {
  }

  /** The levels before a "#", and any further ones, match. */
  lemma HashWalks(filter: seq<string>, n: nat, topic: seq<string>)
    requires n == Fixed(filter) < |filter| && n <= |topic| && topic[..n] == filter[..n]
    ensures Walk(filter, topic)
  {
    WalkIsMatches(filter, topic);
    assert forall i :: 0 <= i < n ==> filter[..n][i] == filter[i] && topic[..n][i] == topic[i];
  }

  /** A "+" matches any level. */
  lemma {:induction false} PlusWalks(filter: seq<string>, i: nat, level: string)
    requires i < |filter| && filter[i] == "+" && "#" !in filter
    ensures Walk(filter, filter[i := level])
  {
    assert filter[0] in filter && forall l :: l in filter[1..] ==> l in filter;
    if i == 0 {
      WalkSelf(filter[1..]);
      assert filter[0 := level][1..] == filter[1..];
    } else {
      PlusWalks(filter[1..], i - 1, level);
      assert filter[i := level][1..] == filter[1..][i - 1 := level];
    }
  }
}
