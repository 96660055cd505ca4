/** Optional values, and the string operations of the source that work on '/'-separated topics. */
module Text {
  datatype Option<+T> = None | Some(value: T)

  /** strings.Split(s, "/"): the levels of a topic. The empty string has one empty level. */
  function Split(s: string): (levels: seq<string>)
    ensures |levels| >= 1
  {
    if s == "" then [""]
    else
      var rest := Split(s[1..]);
      if s[0] == '/' then [""] + rest else [[s[0]] + rest[0]] + rest[1..]
  }

  /** The inverse of Split. */
  function Join(levels: seq<string>): string
    requires |levels| >= 1
  {
    if |levels| == 1 then levels[0] else levels[0] + "/" + Join(levels[1..])
  }

  lemma {:induction false} JoinSplit(s: string)
    ensures Join(Split(s)) == s
  {
    if s != "" {
      JoinSplit(s[1..]);
      var rest := Split(s[1..]);
      if s[0] == '/' {
        assert ([""] + rest)[1..] == rest;
      } else {
        assert ([[s[0]] + rest[0]] + rest[1..])[1..] == rest[1..];
      }
      assert s == [s[0]] + s[1..];
    }
  }

  lemma {:induction false} SplitInjective(a: string, b: string)
    requires Split(a) == Split(b)
    ensures a == b
  {
    JoinSplit(a);
    JoinSplit(b);
  }

  lemma {:induction false} SplitConcat(a: string, b: string)
    ensures Split(a + "/" + b) == Split(a) + Split(b)
  {
    var s := a + "/" + b;
    if a == "" {
      assert s[1..] == b;
    } else {
      assert s[1..] == a[1..] + "/" + b;
      SplitConcat(a[1..], b);
      SplitHead(s);
      SplitHead(a);
    }
  }

  /** One unfolding of Split, in terms of the levels of the tail. */
  lemma {:induction false} SplitHead(s: string)
    requires s != ""
    ensures s[0] == '/' ==> Split(s) == [""] + Split(s[1..])
    ensures s[0] != '/' ==> Split(s) == [[s[0]] + Split(s[1..])[0]] + Split(s[1..])[1..]
  {
  }

  lemma {:induction false} JoinConcat(a: seq<string>, b: seq<string>)
    requires |a| >= 1 && |b| >= 1
    ensures Join(a + b) == Join(a) + "/" + Join(b)
  {
    if |a| == 1 {
      assert (a + b)[1..] == b;
    } else {
      JoinConcat(a[1..], b);
      assert (a + b)[1..] == a[1..] + b;
    }
  }

  lemma {:induction false} SplitNoSlash(s: string)
    requires '/' !in s
    ensures Split(s) == [s]
  {
    if s != "" {
      assert '/' !in s[1..];
      SplitNoSlash(s[1..]);
      assert s == [s[0]] + s[1..];
    }
  }

  /** A character other than '/' that a string lacks is in none of its levels. */
  lemma {:induction false} SplitLacks(s: string, c: char)
    requires c !in s && c != '/'
    ensures forall i :: 0 <= i < |Split(s)| ==> c !in Split(s)[i]
  {
    if s != "" {
      assert c !in s[1..];
      SplitLacks(s[1..], c);
    }
  }

  /** Cutting a string at its first '/' takes the first level off. */
  lemma {:induction false} SplitAt(s: string, i: nat)
    requires i <= |s| && '/' !in s[..i]
    requires i == |s| || s[i] == '/'
    ensures i == |s| ==> Split(s) == [s]
    ensures i < |s| ==> Split(s) == [s[..i]] + Split(s[i + 1..])
  {
    if i == |s| {
      assert s[..i] == s;
      SplitNoSlash(s);
    } else {
      SplitConcat(s[..i], s[i + 1..]);
      SplitNoSlash(s[..i]);
      assert s == s[..i] + "/" + s[i + 1..];
    }
  }

  /** strings.CutPrefix against levels: `root + "/"` is a prefix exactly when the levels of `root` come first
      and at least one level follows. */
  lemma {:induction false} PrefixLevels(root: string, s: string)
    ensures root + "/" <= s <==> Split(root) < Split(s)
    ensures root + "/" <= s ==> Split(s) == Split(root) + Split(s[|root| + 1..])
  {
    if root + "/" <= s {
      assert s == root + "/" + s[|root| + 1..];
      SplitConcat(root, s[|root| + 1..]);
    }
    if Split(root) < Split(s) {
      var rest := Split(s)[|Split(root)|..];
      assert Split(s) == Split(root) + rest;
      JoinConcat(Split(root), rest);
      JoinSplit(root);
      JoinSplit(s);
    }
  }

  predicate OneLevel(s: string) { '/' !in s }

  /** Levels that hold no '/' survive joining and splitting. */
  lemma {:induction false} SplitJoin(levels: seq<string>)
    requires |levels| >= 1 && forall i :: 0 <= i < |levels| ==> OneLevel(levels[i])
    ensures Split(Join(levels)) == levels
  {
    SplitNoSlash(levels[0]);
    if |levels| > 1 {
      SplitJoin(levels[1..]);
      SplitConcat(levels[0], Join(levels[1..]));
    }
  }

  lemma {:induction false} SplitOneLevels(s: string)
    ensures forall i :: 0 <= i < |Split(s)| ==> OneLevel(Split(s)[i])
  {
    if s != "" {
      SplitOneLevels(s[1..]);
    }
  }
}
