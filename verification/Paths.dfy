/** POSIX path strings as Python's os.path treats them, at the level of characters. */
module Paths {

  const SEP := '/'

  /** s.split ('/') */
  function Split(s: string): (r: seq<string>)
    ensures |r| >= 1
  {
    if s == "" then [""] else Prepend(s[0], Split(s[1..]))
  }

  /** The pieces of a string one character longer at the front. */
  function Prepend(c: char, pieces: seq<string>): (r: seq<string>)
    requires pieces != []
    ensures r != []
  {
    if c == SEP then [""] + pieces else [[c] + pieces[0]] + pieces[1..]
  }

  /** '/'.join (cs) */
  function Join(cs: seq<string>): string {
    if cs == [] then "" else if |cs| == 1 then cs[0] else cs[0] + "/" + Join(cs[1..])
  }

  /** One component of os.path.normpath's loop, on the components kept so far. */
  function Push(absolute: bool, stack: seq<string>, comp: string): seq<string> {
    if comp == "" || comp == "." then stack
    else if comp != ".." || (!absolute && stack == []) || (stack != [] && stack[|stack| - 1] == "..") then
      stack + [comp]
    else if stack != [] then stack[..|stack| - 1]
    else stack
  }

  function Fold(absolute: bool, stack: seq<string>, comps: seq<string>): seq<string>
    decreases |comps|
  {
    if comps == [] then stack else Fold(absolute, Push(absolute, stack, comps[0]), comps[1..])
  }

  /** Exactly two leading slashes are kept, any other number counts as one. */
  function LeadingSlashes(path: string): nat {
    if !("/" <= path) then 0
    else if "//" <= path && !("///" <= path) then 2
    else 1
  }

  /** os.path.normpath */
  function NormPath(path: string): (r: string)
    ensures r != ""
  {
    if path == "" then "."
    else
      var slashes := LeadingSlashes(path);
      var r := (if slashes == 0 then "" else if slashes == 1 then "/" else "//")
               + Join(Fold(slashes > 0, [], Split(path)));
      if r == "" then "." else r
  }

  /** os.path.commonprefix of two strings: character by character. */
  function CommonPrefix(a: string, b: string): (r: string)
    ensures r <= a && r <= b
    ensures |r| == |a| || |r| == |b| || a[|r|] != b[|r|]
  {
    if a == "" || b == "" || a[0] != b[0] then "" else [a[0]] + CommonPrefix(a[1..], b[1..])
  }

  /** How many characters up to and including the last slash: rfind ('/') + 1. */
  function Cut(s: string): (k: nat)
    ensures k <= |s|
    ensures k > 0 ==> s[k - 1] == SEP
    ensures SEP !in s[k..]
  {
    if s == "" then 0 else if s[|s| - 1] == SEP then |s| else Cut(s[..|s| - 1])
  }

  /** s.rstrip ('/') */
  function RStrip(s: string): string {
    if s != "" && s[|s| - 1] == SEP then RStrip(s[..|s| - 1]) else s
  }

  predicate AllSlashes(s: string) {
    forall i :: 0 <= i < |s| ==> s[i] == SEP
  }

  /** os.path.dirname */
  function Dirname(p: string): string {
    var head := p[..Cut(p)];
    if head != "" && !AllSlashes(head) then RStrip(head) else head
  }

  /** os.path.join of two paths: an absolute second one wins. */
  function PathJoin(a: string, b: string): string {
    if "/" <= b then b else if a == "" || a[|a| - 1] == SEP then a + b else a + "/" + b
  }

  // ----- Splitting, joining and folding -----

  predicate NoSlash(c: string) { SEP !in c }

  /** What a component of a normalised absolute path looks like. */
  predicate Normal(c: string) { c != "" && c != "." && c != ".." && NoSlash(c) }

  predicate AllNormal(cs: seq<string>) {
    forall i :: 0 <= i < |cs| ==> Normal(cs[i])
  }

  lemma PrependConcat(c: char, r: seq<string>, t: seq<string>)
    requires r != []
    ensures Prepend(c, r + t) == Prepend(c, r) + t
  {
    assert (r + t)[1..] == r[1..] + t;
  }

  lemma {:induction false} SplitConcat(a: string, b: string)
    ensures Split(a + "/" + b) == Split(a) + Split(b)
  {
    if a == "" {
      assert a + "/" + b == "/" + b;
      assert ("/" + b)[1..] == b;
    } else {
      SplitConcat(a[1..], b);
      assert (a + "/" + b)[1..] == a[1..] + "/" + b;
      PrependConcat(a[0], Split(a[1..]), Split(b));
    }
  }

  lemma {:induction false} SplitWhole(c: string)
    requires NoSlash(c)
    ensures Split(c) == [c]
  {
    if c != "" {
      SplitWhole(c[1..]);
      assert [c[0]] + c[1..] == c;
    }
  }

  lemma {:induction false} SplitNoSlash(s: string)
    ensures forall i :: 0 <= i < |Split(s)| ==> NoSlash(Split(s)[i])
  {
    if s != "" {
      SplitNoSlash(s[1..]);
    }
  }

  lemma {:induction false} SplitJoin(cs: seq<string>)
    requires cs != [] && forall i :: 0 <= i < |cs| ==> NoSlash(cs[i])
    ensures Split(Join(cs)) == cs
  {
    SplitWhole(cs[0]);
    if |cs| > 1 {
      SplitJoin(cs[1..]);
      SplitConcat(cs[0], Join(cs[1..]));
      assert [cs[0]] + cs[1..] == cs;
    }
  }

  lemma JoinInjective(a: seq<string>, b: seq<string>)
    requires AllNormal(a) && AllNormal(b) && Join(a) == Join(b)
    ensures a == b
  {
    if a != [] && b != [] {
      SplitJoin(a);
      SplitJoin(b);
    }
  }

  lemma {:induction false} FoldConcat(absolute: bool, stack: seq<string>, a: seq<string>, b: seq<string>)
    ensures Fold(absolute, stack, a + b) == Fold(absolute, Fold(absolute, stack, a), b)
    decreases |a|
  {
    if a == [] {
      assert a + b == b;
    } else {
      FoldConcat(absolute, Push(absolute, stack, a[0]), a[1..], b);
      assert (a + b)[1..] == a[1..] + b;
    }
  }

  /** Folding an absolute path keeps normal components only. */
  lemma {:induction false} FoldNormal(stack: seq<string>, comps: seq<string>)
    requires AllNormal(stack) && forall i :: 0 <= i < |comps| ==> NoSlash(comps[i])
    ensures AllNormal(Fold(true, stack, comps))
    decreases |comps|
  {
    if comps != [] {
      FoldNormal(Push(true, stack, comps[0]), comps[1..]);
    }
  }

  lemma {:induction false} FoldPushes(stack: seq<string>, comps: seq<string>)
    requires AllNormal(comps)
    ensures Fold(true, stack, comps) == stack + comps
    decreases |comps|
  {
    if comps != [] {
      FoldPushes(stack + [comps[0]], comps[1..]);
      assert stack + [comps[0]] + comps[1..] == stack + comps;
    }
  }

  function Repeat(c: string, m: nat): seq<string> {
    if m == 0 then [] else [c] + Repeat(c, m - 1)
  }

  /** As many ".." as there are components on top take exactly those away. */
  lemma {:induction false} FoldPops(stack: seq<string>, top: seq<string>)
    requires AllNormal(stack) && AllNormal(top)
    ensures Fold(true, stack + top, Repeat("..", |top|)) == stack
    decreases |top|
  {
    if top == [] {
      assert stack + top == stack;
    } else {
      var all := stack + top;
      assert all[|all| - 1] == top[|top| - 1];
      assert Push(true, all, "..") == stack + top[..|top| - 1];
      FoldPops(stack, top[..|top| - 1]);
      assert Repeat("..", |top|)[1..] == Repeat("..", |top| - 1);
    }
  }

  /** Empty components and "." do not matter, wherever they stand. */
  lemma FoldSkips(absolute: bool, stack: seq<string>, a: seq<string>, c: string, b: seq<string>)
    requires c == "" || c == "."
    ensures Fold(absolute, stack, a + [c] + b) == Fold(absolute, stack, a + b)
  {
    hide Push;
    FoldConcat(absolute, stack, a, b);
    FoldConcat(absolute, stack, a, [c] + b);
    assert a + ([c] + b) == a + [c] + b;
    assert ([c] + b)[1..] == b;
    PushSkips(absolute, Fold(absolute, stack, a), c);
  }

  lemma PushSkips(absolute: bool, stack: seq<string>, c: string)
    requires c == "" || c == "."
    ensures Push(absolute, stack, c) == stack
  {
  }

  // ----- Leading slashes -----

  /** The slashes a string begins with. */
  function Slashes(p: string): nat {
    if p != "" && p[0] == SEP then 1 + Slashes(p[1..]) else 0
  }

  /** One slash is made of any number but two, which are kept. */
  lemma LeadingSlashesAre(p: string)
    ensures LeadingSlashes(p) == if Slashes(p) == 0 then 0 else if Slashes(p) == 2 then 2 else 1
  {
    if p != "" && p[0] == SEP {
      assert "/" <= p;
      var q := p[1..];
      if q != "" && q[0] == SEP {
        assert p[1] == SEP && "//" <= p;
        var r := q[1..];
        assert Slashes(p) == 2 + Slashes(r);
        assert |p| > 2 ==> p[2] == r[0];
      }
    }
  }

  // ----- Relative paths -----

  /** What a normalised relative path consists of: some "..", and then normal components. */
  predicate Upward(cs: seq<string>) {
    && (forall i :: 0 <= i < |cs| ==> Normal(cs[i]) || cs[i] == "..")
    && (forall i, j :: 0 <= i < j < |cs| && cs[j] == ".." ==> cs[i] == "..")
  }

  lemma {:induction false} FoldUpward(stack: seq<string>, comps: seq<string>)
    requires Upward(stack) && forall i :: 0 <= i < |comps| ==> NoSlash(comps[i])
    ensures Upward(Fold(false, stack, comps))
    decreases |comps|
  {
    if comps != [] {
      FoldUpward(Push(false, stack, comps[0]), comps[1..]);
    }
  }

  /** Such a path is left as it is. */
  lemma {:induction false} FoldUpwardSame(stack: seq<string>, comps: seq<string>)
    requires Upward(stack + comps)
    ensures Fold(false, stack, comps) == stack + comps
    decreases |comps|
  {
    if comps != [] {
      var all := stack + comps;
      assert all[|stack|] == comps[0];
      assert stack != [] ==> all[|stack| - 1] == stack[|stack| - 1];
      assert stack + [comps[0]] + comps[1..] == all;
      FoldUpwardSame(stack + [comps[0]], comps[1..]);
    }
  }

  lemma PushThrough(stack: seq<string>, way: seq<string>, c: string)
    requires AllNormal(stack) && Upward(way) && NoSlash(c)
    ensures Fold(true, stack, Push(false, way, c)) == Push(true, Fold(true, stack, way), c)
  {
    assert forall i :: 0 <= i < |way| ==> NoSlash(way[i]);
    var p := Push(false, way, c);
    if c == "" || c == "." {
    } else if p == way + [c] {
      FoldConcat(true, stack, way, [c]);
    } else {
      var k := |way| - 1;
      assert way[..k] + [way[k]] == way;
      FoldConcat(true, stack, way[..k], [way[k]]);
      FoldNormal(stack, way[..k]);
    }
  }

  /** Folding a relative way first and following what is left is following the way. */
  lemma {:induction false} FoldThrough(stack: seq<string>, way: seq<string>, comps: seq<string>)
    requires AllNormal(stack) && Upward(way) && forall i :: 0 <= i < |comps| ==> NoSlash(comps[i])
    ensures Fold(true, stack, Fold(false, way, comps)) == Fold(true, Fold(true, stack, way), comps)
    decreases |comps|
  {
    if comps != [] {
      PushThrough(stack, way, comps[0]);
      FoldUpward(way, [comps[0]]);
      assert Fold(false, way, [comps[0]]) == Push(false, way, comps[0]);
      hide Push;
      FoldThrough(stack, Push(false, way, comps[0]), comps[1..]);
    }
  }

  /** A relative path, normalised: its components, or "." if none is left. */
  lemma NormalisedRelative(p: string)
    requires p != "" && p[0] != SEP
    ensures var cs, q := Fold(false, [], Split(p)), NormPath(p);
            && Upward(cs) && q[0] != SEP
            && (if cs == [] then q == "." else q == Join(cs) && Split(q) == cs)
  {
    SplitNoSlash(p);
    FoldUpward([], Split(p));
    var cs := Fold(false, [], Split(p));
    hide Fold, Split;
    if cs != [] {
      assert NoSlash(cs[0]) && cs[0] != "";
      assert Join(cs)[0] == cs[0][0];
      SplitJoin(cs);
    }
  }

  // ----- Joining -----

  /** Joining two relative paths. */
  function Glue(a: string, b: string): string {
    if a == "" || a[|a| - 1] == SEP then a + b else a + "/" + b
  }

  lemma GlueAssociative(a: string, b: string, c: string)
    requires b != ""
    ensures Glue(Glue(a, b), c) == Glue(a, Glue(b, c))
    ensures Glue(b, c)[0] == b[0]
  {
    var s := if a == "" || a[|a| - 1] == SEP then a else a + "/";
    assert Glue(a, b) == s + b && (s + b)[|s + b| - 1] == b[|b| - 1];
    if b[|b| - 1] == SEP {
      assert s + b + c == s + (b + c);
    } else {
      assert s + b + "/" + c == s + (b + "/" + c);
    }
  }

  lemma GlueEmpty(a: string, c: string)
    ensures Glue(Glue(a, ""), c) == Glue(a, c)
  {
    assert a + "" == a && a + "/" + "" == a + "/";
  }

  lemma RelativeJoin(a: string, b: string)
    ensures PathJoin(a, b) == if "/" <= b then b else Glue(a, b)
    ensures Glue("", b) == b
  {
  }

  /** Joining is associative, the empty path is no step, and an absolute path starts anew. */
  lemma PathJoinAssociative(a: string, b: string, c: string)
    ensures PathJoin(PathJoin(a, b), c) == PathJoin(a, PathJoin(b, c))
    ensures PathJoin("", c) == c
    ensures c != "" && c[0] == SEP ==> PathJoin(a, c) == c
  {
    if !("/" <= c) {
      hide PathJoin, Glue;
      RelativeJoin("", c);
      RelativeJoin(PathJoin(a, b), c);
      RelativeJoin(b, c);
      if b == "" {
        RelativeJoin(a, "");
        RelativeJoin(a, c);
        GlueEmpty(a, c);
      } else {
        GlueAssociative(a, b, c);
        RelativeJoin(a, b);
        RelativeJoin(a, Glue(b, c));
      }
    }
  }
}
