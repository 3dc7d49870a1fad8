// Slash-separated paths as strings, and their components.
module Paths {
  function Joined(names: seq<string>): string {
    if names == [] then ""
    else if |names| == 1 then names[0]
    else Joined(names[..|names| - 1]) + "/" + names[|names| - 1]
  }

  function AfterLastSlash(s: string): string {
    if s == [] || s[|s| - 1] == '/' then "" else AfterLastSlash(s[..|s| - 1]) + [s[|s| - 1]]
  }

  // strings.Split(s, "/").
  function Split(s: string): (names: seq<string>)
    ensures names != []
  {
    var name := AfterLastSlash(s);
    LastPart(s);
    if |name| == |s| then [s] else Split(s[..|s| - |name| - 1]) + [name]
  }

  // strings.Count(s, "/").
  function Slashes(s: string): nat {
    if s == [] then 0 else Slashes(s[..|s| - 1]) + if s[|s| - 1] == '/' then 1 else 0
  }

  predicate IsComponent(name: string) {
    '/' !in name
  }

  lemma {:induction false} SlashesAppend(a: string, b: string)
    ensures Slashes(a + b) == Slashes(a) + Slashes(b)
  {
    if b == [] {
      assert a + b == a;
    } else {
      SlashesAppend(a, b[..|b| - 1]);
      assert (a + b)[..|a + b| - 1] == a + b[..|b| - 1];
    }
  }

  lemma {:induction false} NoSlashes(name: string)
    requires IsComponent(name)
    ensures Slashes(name) == 0
  {
    if name == [] {
    } else {
      NoSlashes(name[..|name| - 1]);
    }
  }

  // The number of slashes in a relative path is its depth below the root.
  lemma {:induction false} SlashesAreDepth(names: seq<string>)
    requires names != [] && forall n <- names :: IsComponent(n)
    ensures Slashes(Joined(names)) == |names| - 1
  {
    NoSlashes(names[|names| - 1]);
    if |names| <= 1 {
    } else {
      var init := names[..|names| - 1];
      SlashesAreDepth(init);
      SlashesAppend(Joined(init) + "/", names[|names| - 1]);
      SlashesAppend(Joined(init), "/");
      assert Slashes("/") == 1;
    }
  }

  lemma {:induction false} AfterSlash(s: string, name: string)
    requires IsComponent(name)
    ensures AfterLastSlash(s + "/" + name) == name
  {
    var t := s + "/" + name;
    if name == [] {
    } else {
      AfterSlash(s, name[..|name| - 1]);
      assert t[..|t| - 1] == s + "/" + name[..|name| - 1];
    }
  }

  lemma {:induction false} AfterNoSlash(name: string)
    requires IsComponent(name)
    ensures AfterLastSlash(name) == name
  {
    if name == [] {
    } else {
      AfterNoSlash(name[..|name| - 1]);
    }
  }

  // Splitting takes a joined path apart again.
  lemma {:induction false} SplitJoined(names: seq<string>)
    requires names != [] && forall n <- names :: IsComponent(n)
    ensures Split(Joined(names)) == names
  {
    var last := names[|names| - 1];
    if |names| == 1 {
      AfterNoSlash(last);
    } else {
      var init := names[..|names| - 1];
      SplitJoined(init);
      AfterSlash(Joined(init), last);
      assert Joined(names)[..|Joined(names)| - |last| - 1] == Joined(init);
    }
  }

  // Different paths are different strings.
  lemma JoinedIsInjective(p: seq<string>, q: seq<string>)
    requires p != [] && q != [] && (forall n <- p :: IsComponent(n)) && forall n <- q :: IsComponent(n)
    ensures Joined(p) == Joined(q) ==> p == q
  {
    SplitJoined(p);
    SplitJoined(q);
  }

  // Joining puts a split string back together, and no part has a slash left.
  lemma {:induction false} JoinedSplit(s: string)
    ensures Joined(Split(s)) == s && forall n <- Split(s) :: IsComponent(n)
    decreases |s|
  {
    LastPart(s);
    var name := AfterLastSlash(s);
    if |name| == |s| {
    } else {
      var front := s[..|s| - |name| - 1];
      JoinedSplit(front);
      assert Split(s) == Split(front) + [name];
      assert Split(s)[..|Split(s)| - 1] == Split(front);
    }
  }

  lemma {:induction false} LastPart(s: string)
    ensures var n := AfterLastSlash(s);
            |n| <= |s| && IsComponent(n) && if |n| == |s| then s == n else s == s[..|s| - |n| - 1] + "/" + n
  {
    if s == [] {
    } else if s[|s| - 1] == '/' {
      assert s == s[..|s| - 1] + "/" + "";
    } else {
      var t, last := s[..|s| - 1], [s[|s| - 1]];
      LastPart(t);
      LastPartLonger(t, last);
      assert s == t + last;
    }
  }

  lemma LastPartLonger(t: string, last: string)
    requires |last| == 1
    requires var m := AfterLastSlash(t); |m| < |t| ==> t == t[..|t| - |m| - 1] + "/" + m
    ensures var m, k := AfterLastSlash(t), |t| - |AfterLastSlash(t)| - 1;
            0 <= k ==> t + last == (t + last)[..k] + "/" + (m + last)
  {
    var m, k := AfterLastSlash(t), |t| - |AfterLastSlash(t)| - 1;
    if 0 <= k {
      var front := t[..k];
      assert (t + last)[..k] == front;
      assert (front + "/" + m) + last == front + "/" + (m + last);
    }
  }
}
