/** The debugger hook shipped with libstdc++: from where the library was loaded, work out where its Python
    modules are, whatever the tree was moved to. */
module Relocation {
  import opened Paths

  datatype Option<T> = None | Some(value: T)

  datatype Result<T> = Ok(value: T) | IndexError

  // ----- The script, as a function -----

  /** The common prefix, cut back to a directory boundary and closed with a slash. */
  function DirPrefix(libdir: string, pythondir: string): Result<string> {
    var prefix := CommonPrefix(libdir, pythondir);
    if prefix == "" then IndexError
    else if prefix[|prefix| - 1] != SEP then Ok(Dirname(prefix) + "/")
    else Ok(prefix)
  }

  /** ('..' + os.sep) * n */
  function DotDots(n: nat): string {
    if n == 0 then "" else "../" + DotDots(n - 1)
  }

  /** s[n:], which is empty from the end of s on */
  function Drop(s: string, n: nat): string {
    if n <= |s| then s[n..] else ""
  }

  /** dir_ for the configured directories and the file name of the loaded library. */
  function ModuleDir(pythondir: string, libdir: string, objfile: string): Result<string> {
    var p, l := NormPath(pythondir), NormPath(libdir);
    match DirPrefix(l, p)
    case IndexError => IndexError
    case Ok(prefix) =>
      var dotdots := DotDots(|Split(Drop(l, |prefix|))|);
      Ok(PathJoin(PathJoin(Dirname(objfile), dotdots), Drop(p, |prefix|)))
  }

  /** sys.path after the hook ran. */
  function SearchPath(pythondir: string, libdir: string, objfile: Option<string>, sysPath: seq<string>)
    : Result<seq<string>>
  {
    match objfile
    case None => Ok(sysPath)
    case Some(file) =>
      match ModuleDir(pythondir, libdir, file)
      case IndexError => IndexError
      case Ok(dir) => Ok(if dir in sysPath then sysPath else [dir] + sysPath)
  }

  /** The script itself: names are rebound step by step. */
  method UpdateModulePath(configuredPython: string, configuredLib: string, objfile: Option<string>,
        sysPath: seq<string>)
    returns (r: Result<seq<string>>)
    ensures r == SearchPath(configuredPython, configuredLib, objfile, sysPath)
    ensures objfile.None? ==> r == Ok(sysPath)
    ensures r.IndexError? <==> objfile.Some? && NormPath(configuredLib)[0] != NormPath(configuredPython)[0]
    ensures r.Ok? ==> r.value == sysPath || (r.value != [] && r.value[1..] == sysPath)
    ensures objfile.Some? && Rooted(configuredPython) && Rooted(configuredLib) ==>
              forall root :: LibraryAt(configuredPython, configuredLib, objfile.value, root) ==>
                && r.Ok?
                && var modules := ModulesAt(configuredPython, configuredLib, root);
                   Finds(r.value, modules)
                   <==> Works(configuredPython, configuredLib, root) || Finds(sysPath, modules)
  {
    hide NormPath, CommonPrefix, Dirname, PathJoin, DotDots, Split, Drop, Rooted, LibraryAt, ModulesAt, Finds, Works;
    if objfile.Some? && Rooted(configuredPython) && Rooted(configuredLib) {
      forall root | LibraryAt(configuredPython, configuredLib, objfile.value, root)
        ensures SearchPath(configuredPython, configuredLib, objfile, sysPath).Ok?
        ensures var modules := ModulesAt(configuredPython, configuredLib, root);
                Finds(SearchPath(configuredPython, configuredLib, objfile, sysPath).value, modules)
                <==> Works(configuredPython, configuredLib, root) || Finds(sysPath, modules)
      {
        FoundIff(configuredPython, configuredLib, objfile.value, root, sysPath);
      }
    }
    FirstCharacters(NormPath(configuredLib), NormPath(configuredPython));
    var pythondir, libdir := configuredPython, configuredLib;
    if objfile.None? {
      return Ok(sysPath);
    }
    pythondir := NormPath(pythondir);
    libdir := NormPath(libdir);
    var prefix := CommonPrefix(libdir, pythondir);
    if prefix == "" {
      return IndexError;
    }
    if prefix[|prefix| - 1] != SEP {
      prefix := Dirname(prefix) + "/";
    }
    pythondir := Drop(pythondir, |prefix|);
    libdir := Drop(libdir, |prefix|);
    var dotdots := DotDots(|Split(libdir)|);
    var dir := PathJoin(PathJoin(Dirname(objfile.value), dotdots), pythondir);
    if dir in sysPath {
      return Ok(sysPath);
    }
    return Ok([dir] + sysPath);
  }

  lemma FirstCharacters(a: string, b: string)
    requires a != "" && b != ""
    ensures CommonPrefix(a, b) == "" <==> a[0] != b[0]
  {
  }

  /** The hook adds at most its one directory, in front, and running it again adds nothing. */
  lemma HookOnce(pythondir: string, libdir: string, objfile: string, sysPath: seq<string>)
    requires SearchPath(pythondir, libdir, Some(objfile), sysPath).Ok?
    ensures var after := SearchPath(pythondir, libdir, Some(objfile), sysPath).value;
            && SearchPath(pythondir, libdir, Some(objfile), after) == Ok(after)
            && ModuleDir(pythondir, libdir, objfile).value in after
            && sysPath == after[|after| - |sysPath|..]
  {
  }

  // ----- Absolute paths and their components -----

  /** Absolute, and not of the "//host" kind. */
  predicate Rooted(p: string) { LeadingSlashes(p) == 1 }

  /** The components an absolute path names, "." and ".." worked out lexically. */
  function Components(p: string): (r: seq<string>)
    ensures AllNormal(r)
  {
    SplitNoSlash(p);
    FoldNormal([], Split(p));
    Fold(true, [], Split(p))
  }

  lemma NormalisedForm(p: string)
    requires Rooted(p)
    ensures NormPath(p) == "/" + Join(Components(p))
  {
  }

  /** Normalising twice is normalising once, for every path. */
  lemma NormPathTwice(p: string)
    ensures NormPath(NormPath(p)) == NormPath(p)
  {
    if Rooted(p) {
      NormalisedForm(p);
      ComponentsOfRooted(Components(p));
      NormalisedForm("/" + Join(Components(p)));
    } else if LeadingSlashes(p) == 2 {
      DoubleRooted(Components(p));
    } else if p != "" {
      NormalisedRelative(p);
      var cs := Fold(false, [], Split(p));
      if cs == [] {
        SplitWhole(".");
      } else {
        NormalisedRelative(NormPath(p));
        FoldUpwardSame([], cs);
        assert [] + cs == cs;
      }
    } else {
      SplitWhole(".");
    }
  }

  lemma DoubleRooted(a: seq<string>)
    requires AllNormal(a)
    ensures NormPath("//" + Join(a)) == "//" + Join(a)
  {
    NotRooted(a);
    var s := Join(a);
    hide Join, Split;
    assert "" + "/" + ("" + "/" + s) == "//" + s;
    SplitConcat("", "" + "/" + s);
    SplitConcat("", s);
    SplitWhole("");
    assert Split("//" + s) == [] + [""] + ([""] + Split(s)) && [] + ([""] + Split(s)) == [] + [""] + Split(s);
    assert [] + Split(s) == Split(s) && [] + a == a;
    FoldSkips(true, [], [], "", [""] + Split(s));
    FoldSkips(true, [], [], "", Split(s));
    FoldSplitJoin([], a);
    DoubleSlash(s);
  }

  lemma DoubleSlash(s: string)
    requires !("/" <= s)
    ensures LeadingSlashes("//" + s) == 2
  {
    assert ("//" + s)[..2] == "//" && ("//" + s)[2..] == s;
  }

  // ----- What a path names, component by component -----

  /** One component further: "." stays, ".." goes up unless at the top, any other goes down. */
  lemma ComponentStep(d: string, c: string)
    requires Rooted(d) && c != "" && SEP !in c
    ensures Rooted(PathJoin(d, c))
    ensures Components(PathJoin(d, c))
            == if c == "." then Components(d)
               else if c != ".." then Components(d) + [c]
               else if Components(d) == [] then [] else Components(d)[..|Components(d)| - 1]
  {
    ComponentsOfJoin(d, c);
    SplitWhole(c);
    var cs := Components(d);
    assert cs != [] ==> Normal(cs[|cs| - 1]);
    assert Fold(true, cs, [c]) == Push(true, cs, c);
  }

  /** The top names nothing, and any further slash changes nothing. */
  lemma SlashesIgnored(d: string, x: string)
    ensures Components("/") == []
    ensures Components(d + "/" + "/" + x) == Components(d + "/" + x)
  {
    SplitConcat("", "");
    assert "" + "/" + "" == "/";
    SplitConcat(d + "/", x);
    SplitConcat(d, "");
    SplitConcat(d, x);
    assert d + "/" + "" == d + "/";
    FoldSkips(true, [], Split(d), "", Split(x));
  }

  /** "." in front of a relative path changes nothing. */
  lemma DotIgnored(d: string, x: string)
    requires Rooted(d) && x != "" && x[0] != SEP
    ensures Components(PathJoin(d, "./" + x)) == Components(PathJoin(d, x))
  {
    ComponentsOfJoin(d, x);
    ComponentsOfJoin(d, "./" + x);
    assert "." + "/" + x == "./" + x;
    SplitConcat(".", x);
    SplitWhole(".");
    FoldSkips(true, Components(d), [], ".", Split(x));
    assert [] + ["."] + Split(x) == ["."] + Split(x) && [] + Split(x) == Split(x);
  }

  /** Normalising a relative path does not change where it leads, from any directory. */
  lemma NormPathLeads(d: string, p: string)
    requires Rooted(d) && p != "" && p[0] != SEP
    ensures Components(PathJoin(d, NormPath(p))) == Components(PathJoin(d, p))
  {
    var cs := Fold(false, [], Split(p));
    NormalisedRelative(p);
    SplitNoSlash(p);
    FoldThrough(Components(d), [], Split(p));
    ComponentsOfJoin(d, p);
    ComponentsOfJoin(d, NormPath(p));
    if cs == [] {
      SplitWhole(".");
      assert Fold(true, Components(d), ["."]) == Components(d);
    }
  }

  // ----- Directories of files -----

  lemma RStripRooted(h: string)
    requires !AllSlashes(h)
    ensures RStrip(h) != "" && RStrip(h)[|RStrip(h)| - 1] != SEP && LeadingSlashes(RStrip(h)) == LeadingSlashes(h)
  {
    if h[|h| - 1] == SEP {
      var k := |h| - 1;
      assert h == h[..k] + "/";
      assert !AllSlashes(h[..k]);
      RStripRooted(h[..k]);
    }
  }

  lemma {:induction false} RStripIgnored(h: string, x: string)
    requires h != "" && h[|h| - 1] == SEP && !AllSlashes(h)
    ensures Components(h + x) == Components(RStrip(h) + "/" + x)
  {
    var k := |h| - 1;
    assert h == h[..k] + "/" && h + x == h[..k] + "/" + x;
    if h[k - 1] == SEP {
      assert h[..k] == h[..k - 1] + "/";
      SlashesIgnored(h[..k - 1], x);
      RStripIgnored(h[..k], x);
      assert h[..k - 1] + "/" + x == h[..k] + x;
    }
  }

  /** The directory of a file, and its name put after it, is the file again. */
  lemma DirnameAndName(head: string, name: string)
    requires head != "" && head[|head| - 1] == SEP && name != "" && SEP !in name && Rooted(head + name)
    ensures Rooted(Dirname(head + name))
    ensures Components(PathJoin(Dirname(head + name), name)) == Components(head + name)
  {
    hide Components;
    var p := head + name;
    CutBehind(head, name);
    CutNone(name);
    assert p[..|head|] == head && p[|head|] == name[0];
    assert LeadingSlashes(p) == LeadingSlashes(head);
    if !AllSlashes(head) {
      RStripRooted(head);
      RStripIgnored(head, name);
    }
  }

  /** How many leading components two paths share, with at least one more left in both: the deepest directory
      that has both as proper descendants. */
  function Shared(a: seq<string>, b: seq<string>): (n: nat)
    ensures n <= |a| && n <= |b| && a[..n] == b[..n]
    ensures (n < |a| || a == []) && (n < |b| || b == [])
    ensures n + 1 < |a| && n + 1 < |b| ==> a[n] != b[n]
  {
    if |a| > 1 && |b| > 1 && a[0] == b[0] then 1 + Shared(a[1..], b[1..]) else 0
  }

  /** Leading components, each followed by a slash. */
  function Lead(cs: seq<string>): string {
    if cs == [] then "" else cs[0] + "/" + Lead(cs[1..])
  }

  lemma {:induction false} JoinLead(cs: seq<string>, n: nat)
    requires n < |cs|
    ensures Join(cs) == Lead(cs[..n]) + Join(cs[n..])
  {
    if n > 0 {
      JoinLead(cs[1..], n - 1);
      assert cs[..n][1..] == cs[1..][..n - 1];
      assert cs[1..][n - 1..] == cs[n..];
    } else {
      assert cs[0..] == cs;
    }
  }

  lemma Behind(x: string, a: string)
    requires x != ""
    ensures x + a != "" && (x + a)[0] == x[0] && (x + a)[1..] == x[1..] + a
    ensures [x[0]] + (x[1..] + a) == x + a
  {
  }

  lemma {:induction false} CommonPrefixBehind(x: string, a: string, b: string)
    ensures CommonPrefix(x + a, x + b) == x + CommonPrefix(a, b)
  {
    if x == "" {
      assert x + a == a && x + b == b && x + CommonPrefix(a, b) == CommonPrefix(a, b);
    } else {
      hide CommonPrefix;
      CommonPrefixBehind(x[1..], a, b);
      Behind(x, a);
      Behind(x, b);
      Behind(x, CommonPrefix(a, b));
      CommonPrefixCons(x + a, x + b);
    }
  }

  lemma CommonPrefixCons(s: string, t: string)
    requires s != "" && t != "" && s[0] == t[0]
    ensures CommonPrefix(s, t) == [s[0]] + CommonPrefix(s[1..], t[1..])
  {
  }

  lemma {:induction false} CutBehind(x: string, c: string)
    requires x != "" && x[|x| - 1] == SEP
    ensures Cut(x + c) == |x| + Cut(c)
  {
    var n := |c|;
    if n == 0 {
      assert x + c == x;
    } else {
      assert (x + c)[|x + c| - 1] == c[n - 1];
      assert (x + c)[..|x + c| - 1] == x + c[..n - 1];
      CutBehind(x, c[..n - 1]);
    }
  }

  lemma {:induction false} CutNone(c: string)
    requires NoSlash(c)
    ensures Cut(c) == 0
  {
    if c != "" {
      CutNone(c[..|c| - 1]);
    }
  }

  /** A slash common to two joined paths ends a component common to both. */
  lemma SlashShared(a: seq<string>, b: seq<string>, i: nat)
    requires AllNormal(a) && AllNormal(b)
    requires var c := CommonPrefix(Join(a), Join(b)); i < |c| && c[i] == SEP
    ensures |a| > 1 && |b| > 1 && a[0] == b[0]
  {
    var s, t := Join(a), Join(b);
    var c := CommonPrefix(s, t);
    hide CommonPrefix, Join;
    assert s[i] == c[i] == t[i];
    FirstSlash(a, i);
    FirstSlash(b, i);
    assert s[|a[0]|] == c[|a[0]|] == t[|a[0]|] && s[|b[0]|] == c[|b[0]|] == t[|b[0]|];
    FirstSlash(b, |a[0]|);
    FirstSlash(a, |b[0]|);
    assert forall k :: 0 <= k < |a[0]| ==> a[0][k] == s[k] == c[k] == t[k] == b[0][k];
  }

  /** The first components differ, or one is the last: then no slash is common. */
  lemma NoSlashShared(a: seq<string>, b: seq<string>)
    requires AllNormal(a) && AllNormal(b) && Shared(a, b) == 0
    ensures NoSlash(CommonPrefix(Join(a), Join(b)))
  {
    var c := CommonPrefix(Join(a), Join(b));
    if SEP in c {
      var i :| 0 <= i < |c| && c[i] == SEP;
      SlashShared(a, b, i);
    }
  }

  /** A slash in a joined path is at or after the end of its first component, and there is one right there. */
  lemma FirstSlash(a: seq<string>, i: nat)
    requires AllNormal(a)
    ensures a != [] ==> a[0] <= Join(a)
    ensures i < |Join(a)| && Join(a)[i] == SEP ==> |a| > 1 && |a[0]| <= i && Join(a)[|a[0]|] == SEP
  {
    if a != [] && i < |a[0]| {
      assert Normal(a[0]);
      assert Join(a)[i] == a[0][i];
    }
  }

  /** Cutting the character-level prefix back to its last slash leaves exactly the shared components. */
  lemma {:induction false} CutShared(a: seq<string>, b: seq<string>)
    requires AllNormal(a) && AllNormal(b)
    ensures Cut(CommonPrefix(Join(a), Join(b))) == |Lead(a[..Shared(a, b)])|
  {
    var n := Shared(a, b);
    hide Join, CommonPrefix, Cut, Lead, Shared;
    if n == 0 {
      NoSlashShared(a, b);
      CutNone(CommonPrefix(Join(a), Join(b)));
      LeadCons(a, 0);
    } else {
      SharedCons(a, b);
      var x, s, t := a[0] + "/", Join(a[1..]), Join(b[1..]);
      JoinCons(a);
      JoinCons(b);
      LeadCons(a, n);
      CutShared(a[1..], b[1..]);
      CommonPrefixBehind(x, s, t);
      CutBehind(x, CommonPrefix(s, t));
    }
  }

  lemma SharedCons(a: seq<string>, b: seq<string>)
    requires Shared(a, b) > 0
    ensures |a| > 1 && |b| > 1 && a[0] == b[0] && Shared(a[1..], b[1..]) == Shared(a, b) - 1
  {
  }

  lemma JoinCons(a: seq<string>)
    requires |a| > 1
    ensures Join(a) == (a[0] + "/") + Join(a[1..])
  {
  }

  lemma LeadCons(a: seq<string>, n: nat)
    requires n <= |a|
    ensures |Lead(a[..n])| == if n == 0 then 0 else |a[0] + "/"| + |Lead(a[1..][..n - 1])|
  {
    if n > 0 {
      assert a[..n][1..] == a[1..][..n - 1];
    }
  }

  // ----- Where the hook gets it right -----

  /** The test a caller can make first: the common prefix is "/" alone, or has a second slash. */
  predicate PrefixUsable(libdir: string, pythondir: string) {
    var c := CommonPrefix(NormPath(libdir), NormPath(pythondir));
    c == "/" || Cut(c) > 1
  }

  lemma RStripOne(h: string)
    requires |h| > 1 && h[|h| - 1] == SEP && h[|h| - 2] != SEP
    ensures RStrip(h) == h[..|h| - 1]
  {
  }

  /** Strings of normalised absolute paths have no two slashes in a row. */
  lemma {:induction false} NoDoubleSlash(a: seq<string>, i: nat)
    requires AllNormal(a) && i + 1 < |Join(a)|
    ensures Join(a)[0] != SEP && !(Join(a)[i] == SEP && Join(a)[i + 1] == SEP)
  {
    assert Normal(a[0]);
    assert Join(a)[0] == a[0][0];
    if |a| > 1 {
      var r := Join(a[1..]);
      var k := |a[0]| + 1;
      assert Normal(a[1]) && r[0] == a[1][0];
      if i >= k {
        NoDoubleSlash(a[1..], i - k);
        assert Join(a)[i] == r[i - k] && Join(a)[i + 1] == r[i + 1 - k];
      } else {
        assert i < |a[0]| ==> Join(a)[i] == a[0][i];
        assert i == |a[0]| ==> Join(a)[i + 1] == r[0];
      }
    } else {
      assert Join(a)[i] == a[0][i];
    }
  }

  lemma DirnameIs(c: string, d: string)
    requires Cut(c) == |d| + 1 && c[..|d| + 1] == d + "/" && d != "" && d[|d| - 1] != SEP
    ensures Dirname(c) == d
  {
    hide Cut;
    var head := d + "/";
    assert head[|d| - 1] == d[|d| - 1];
    assert !AllSlashes(head);
    RStripOne(head);
    assert head[..|d|] == d;
  }

  /** dirname (c) + '/' is c cut back to its last slash, if that is not the first of two or the only one. */
  lemma DirnameBack(c: string)
    requires Cut(c) > 1 && c[|c| - 1] != SEP && c[Cut(c) - 2] != SEP
    ensures Dirname(c) + "/" == c[..Cut(c)]
  {
    var k := Cut(c);
    var d := c[..k - 1];
    assert c[k - 1] == SEP;
    hide Cut, Dirname;
    assert c[..k] == d + "/";
    DirnameIs(c, d);
  }

  lemma SlashStandsAlone(a: seq<string>, c: string, k: nat)
    requires AllNormal(a) && c <= "/" + Join(a) && 1 < k <= |c| && c[k - 1] == SEP
    ensures c[k - 2] != SEP
  {
    hide Join;
    var s := Join(a);
    assert forall i :: 1 <= i < |c| ==> c[i] == s[i - 1];
    if k >= 3 {
      NoDoubleSlash(a, k - 3);
    } else if |s| > 1 {
      NoDoubleSlash(a, 0);
    } else {
      FirstSlash(a, 0);
    }
  }

  /** With a usable prefix, repairing it is cutting it back to its last slash. */
  lemma PrefixRepaired(a: seq<string>, b: seq<string>)
    requires AllNormal(a) && AllNormal(b)
    requires var c := CommonPrefix("/" + Join(a), "/" + Join(b)); c == "/" || Cut(c) > 1
    ensures var c := CommonPrefix("/" + Join(a), "/" + Join(b));
            && DirPrefix("/" + Join(a), "/" + Join(b)) == Ok(c[..Cut(c)])
            && Cut(c) == 1 + |Lead(a[..Shared(a, b)])|
  {
    hide Join, Dirname, Lead, Shared, AllNormal;
    var c, c0 := CommonPrefix("/" + Join(a), "/" + Join(b)), CommonPrefix(Join(a), Join(b));
    CommonPrefixBehind("/", Join(a), Join(b));
    CutBehind("/", c0);
    CutShared(a, b);
    if c[|c| - 1] == SEP {
      assert c[..|c|] == c;
    } else {
      SlashStandsAlone(a, c, Cut(c));
      DirnameBack(c);
    }
  }

  lemma {:induction false} SplitDotDots(m: nat, rest: string)
    ensures Split(DotDots(m) + rest) == Repeat("..", m) + Split(rest)
  {
    hide Split;
    if m == 0 {
      assert DotDots(0) + rest == rest;
    } else {
      var r := DotDots(m - 1) + rest;
      SplitDotDots(m - 1, rest);
      SplitConcat("..", r);
      SplitWhole("..");
      assert DotDots(m) + rest == ".." + "/" + r;
      assert [".."] + Repeat("..", m - 1) + Split(rest) == [".."] + (Repeat("..", m - 1) + Split(rest));
    }
  }

  /** Appending a relative path to an absolute one goes on folding where the first one ended. */
  lemma ComponentsOfJoin(d: string, x: string)
    requires Rooted(d) && x != "" && x[0] != SEP
    ensures Rooted(PathJoin(d, x)) && Components(PathJoin(d, x)) == Fold(true, Components(d), Split(x))
  {
    if d[|d| - 1] == SEP {
      var d0 := d[..|d| - 1];
      assert d == d0 + "/" + "";
      assert PathJoin(d, x) == d0 + "/" + x;
      SplitConcat(d0, "");
      SplitConcat(d0, x);
      FoldConcat(true, [], Split(d0), [""]);
      FoldConcat(true, [], Split(d0), Split(x));
    } else {
      assert PathJoin(d, x) == d + "/" + x;
      SplitConcat(d, x);
      FoldConcat(true, [], Split(d), Split(x));
    }
  }

  lemma PathJoinTwice(d: string, x: string, y: string)
    requires x != "" && x[0] != SEP && x[|x| - 1] == SEP && !("/" <= y)
    ensures PathJoin(PathJoin(d, x), y) == PathJoin(d, x + y)
  {
    assert d + x + y == d + (x + y);
    assert d + "/" + x + y == d + "/" + (x + y);
  }

  /** Up over `top`, then along a relative path. */
  lemma UpAndOn(d: string, root: seq<string>, top: seq<string>, rest: string)
    requires Rooted(d) && top != [] && Components(d) == root + top && !("/" <= rest)
    ensures var dir := PathJoin(PathJoin(d, DotDots(|top|)), rest);
            Rooted(dir) && Components(dir) == Fold(true, root, Split(rest))
  {
    var dots := DotDots(|top|);
    EndsInSlash(|top|);
    hide Rooted, PathJoin, Components, DotDots, Split;
    PathJoinTwice(d, dots, rest);
    NormalParts(root, top);
    ComponentsOfJoin(d, dots + rest);
    SplitDotDots(|top|, rest);
    FoldConcat(true, root + top, Repeat("..", |top|), Split(rest));
    FoldPops(root, top);
  }

  lemma FoldSplitJoin(root: seq<string>, down: seq<string>)
    requires AllNormal(down)
    ensures Fold(true, root, Split(Join(down))) == root + down
  {
    if down == [] {
      assert root + down == root;
    } else {
      SplitJoin(down);
      FoldPushes(root, down);
    }
  }

  lemma NormalTail(a: seq<string>, n: nat)
    requires AllNormal(a) && n <= |a|
    ensures AllNormal(a[n..]) && forall i :: 0 <= i < |a[n..]| ==> NoSlash(a[n..][i])
  {
  }

  lemma NormalParts(a: seq<string>, b: seq<string>)
    requires AllNormal(a + b)
    ensures AllNormal(a) && AllNormal(b)
  {
    assert forall i :: 0 <= i < |a| ==> (a + b)[i] == a[i];
    assert forall i :: 0 <= i < |b| ==> (a + b)[|a| + i] == b[i];
  }

  lemma {:induction false} EndsInSlash(m: nat)
    ensures m > 0 ==> DotDots(m) != "" && DotDots(m)[0] == '.' && DotDots(m)[|DotDots(m)| - 1] == SEP
  {
    if m > 1 {
      EndsInSlash(m - 1);
    }
  }

  /** In a tree rooted at `root`, the file lies in the directory of the library. */
  ghost predicate LibraryAt(pythondir: string, libdir: string, objfile: string, root: seq<string>) {
    var a, b := Components(libdir), Components(pythondir);
    Rooted(Dirname(objfile)) && Components(Dirname(objfile)) == root + a[Shared(a, b)..]
  }

  /** In the same tree, the directory of the modules. */
  function ModulesAt(pythondir: string, libdir: string, root: seq<string>): string {
    var a, b := Components(libdir), Components(pythondir);
    "/" + Join(root + b[Shared(a, b)..])
  }

  /** What relocation means: in a tree rooted anywhere, from the directory of the library to that of the modules. */
  ghost predicate LandsRight(pythondir: string, libdir: string, objfile: string, root: seq<string>) {
    LibraryAt(pythondir, libdir, objfile, root) ==>
      && ModuleDir(pythondir, libdir, objfile).Ok?
      && NormPath(ModuleDir(pythondir, libdir, objfile).value) == ModulesAt(pythondir, libdir, root)
  }

  /** What is left of a normalised path once its shared part is stripped off. */
  lemma Stripped(a: seq<string>, n: nat)
    requires n < |a| || (a == [] && n == 0)
    ensures Drop("/" + Join(a), 1 + |Lead(a[..n])|) == Join(a[n..])
  {
    if a != [] {
      JoinLead(a, n);
    }
  }

  lemma RelocatesWhenUsable(pythondir: string, libdir: string, objfile: string, root: seq<string>)
    requires Rooted(pythondir) && Rooted(libdir)
    requires Components(libdir) != [] && PrefixUsable(libdir, pythondir)
    ensures LandsRight(pythondir, libdir, objfile, root)
  {
    var a, b := Components(libdir), Components(pythondir);
    var n, d := Shared(a, b), Dirname(objfile);
    hide NormPath, Rooted, Components, Split, Join, PathJoin, DirPrefix, CommonPrefix, Lead, DotDots, Dirname, Drop,
      Fold, Cut, Shared, AllNormal;
    if Rooted(d) && Components(d) == root + a[n..] {
      NormalisedForm(libdir);
      NormalisedForm(pythondir);
      PrefixRepaired(a, b);
      Stripped(a, n);
      Stripped(b, n);
      NormalTail(a, n);
      NormalTail(b, n);
      SplitJoin(a[n..]);
      NotRooted(b[n..]);
      UpAndOn(d, root, a[n..], Join(b[n..]));
      FoldSplitJoin(root, b[n..]);
      NormalisedForm(ModuleDir(pythondir, libdir, objfile).value);
    }
  }

  lemma NotRooted(a: seq<string>)
    requires AllNormal(a)
    ensures !("/" <= Join(a))
  {
    if a != [] { FirstSlash(a, 0); }
  }

  // ----- Where it gets it wrong -----

  lemma ShortFile(c: string)
    requires Normal(c)
    ensures Dirname("/" + c + "/f") == "/" + c && Rooted("/" + c) && Components("/" + c) == [c]
  {
    DirnameOfFile([c]);
    ComponentsOfRooted([c]);
  }

  /** ".." at the root stays there. */
  lemma UpFromRoot(d: string, rest: string)
    requires Rooted(d) && Components(d) == [] && !("/" <= rest)
    ensures var dir := PathJoin(PathJoin(d, "../"), rest);
            Rooted(dir) && Components(dir) == Fold(true, [], Split(rest))
  {
    hide Rooted, PathJoin, Components, Split;
    PathJoinTwice(d, "../", rest);
    ComponentsOfJoin(d, "../" + rest);
    assert "../" + rest == ".." + "/" + rest;
    SplitConcat("..", rest);
    SplitWhole("..");
    FoldConcat(true, [], [".."], Split(rest));
    assert Fold(true, [], [".."]) == [];
  }

  /** One step up from a directory, if there is one, and down again. */
  lemma UpFrom(d: string, root: seq<string>, down: seq<string>)
    requires Rooted(d) && Components(d) == root && AllNormal(down)
    ensures var dir, parent := PathJoin(PathJoin(d, "../"), Join(down)), if root == [] then [] else root[..|root| - 1];
            Rooted(dir) && Components(dir) == parent + down
  {
    NotRooted(down);
    assert DotDots(1) == "../";
    hide Rooted, Components, PathJoin, Split, Fold, Join, DotDots;
    if root == [] {
      UpFromRoot(d, Join(down));
      FoldSplitJoin([], down);
    } else {
      var k := |root| - 1;
      assert root[..k] + [root[k]] == root;
      UpAndOn(d, root[..k], [root[k]], Join(down));
      FoldSplitJoin(root[..k], down);
    }
  }

  /** A library directly in "/" has no component to come up from, yet one ".." is made: it takes the last component
      of a root that has any. */
  lemma RootLibrary(pythondir: string, libdir: string, objfile: string, root: seq<string>)
    requires Rooted(pythondir) && Rooted(libdir) && Components(libdir) == []
    requires Rooted(Dirname(objfile)) && Components(Dirname(objfile)) == root
    ensures ModuleDir(pythondir, libdir, objfile).Ok?
    ensures var parent := if root == [] then [] else root[..|root| - 1];
            NormPath(ModuleDir(pythondir, libdir, objfile).value) == "/" + Join(parent + Components(pythondir))
  {
    RootPrefix(pythondir, libdir, objfile);
    hide NormPath, Rooted, Components, DirPrefix, Dirname, PathJoin, Join, ModuleDir, AllNormal;
    UpFrom(Dirname(objfile), root, Components(pythondir));
    NormalisedForm(ModuleDir(pythondir, libdir, objfile).value);
  }

  lemma RootPrefix(pythondir: string, libdir: string, objfile: string)
    requires Rooted(pythondir) && Rooted(libdir) && Components(libdir) == []
    ensures PrefixUsable(libdir, pythondir)
    ensures ModuleDir(pythondir, libdir, objfile)
            == Ok(PathJoin(PathJoin(Dirname(objfile), "../"), Join(Components(pythondir))))
  {
    var b := Components(pythondir);
    NormalisedForm(libdir);
    NormalisedForm(pythondir);
    CommonPrefixBehind("/", "", Join(b));
    assert CommonPrefix("/", "/" + Join(b)) == "/";
    assert Split("") == [""];
    assert DotDots(1) == "../";
  }

  /** So it misses from every root but "/" itself. */
  lemma RootLibraryFails(pythondir: string, libdir: string, objfile: string, root: seq<string>)
    requires Rooted(pythondir) && Rooted(libdir) && Components(libdir) == [] && root != []
    requires LibraryAt(pythondir, libdir, objfile, root)
    ensures !LandsRight(pythondir, libdir, objfile, root)
  {
    hide NormPath, Rooted, Components, Dirname, Join, ModuleDir, PrefixUsable;
    var b, d := Components(pythondir), Components(Dirname(objfile));
    assert d == root + [] == root && b[0..] == b;
    RootLibrary(pythondir, libdir, objfile, root);
    var parent := root[..|root| - 1];
    NormalParts(root, []);
    assert |parent + b| != |root + b| && AllNormal(parent + b) && AllNormal(root + b);
    RootedInjective(parent + b, root + b);
  }

  /** Join without its first character. */
  lemma JoinTail(a: seq<string>)
    requires AllNormal(a) && a != []
    ensures var r := [a[0][1..]] + a[1..];
            && Join(a)[1..] == Join(r)
            && forall i :: 0 <= i < |r| ==> NoSlash(r[i])
  {
    var r := [a[0][1..]] + a[1..];
    assert Normal(a[0]) && r[1..] == a[1..] && r[0] == a[0][1..];
    NormalTail(a, 1);
    if |a| > 1 {
      JoinCons(a);
      JoinCons(r);
      hide Join, AllNormal;
      Behind(a[0], "/");
      Behind(a[0] + "/", Join(a[1..]));
    }
  }

  /** The repaired prefix is "//", one character too long. */
  lemma UnusablePrefix(a: seq<string>, b: seq<string>)
    requires AllNormal(a) && AllNormal(b)
    requires var c := CommonPrefix("/" + Join(a), "/" + Join(b)); c != "/" && Cut(c) <= 1
    ensures a != [] && b != [] && Shared(a, b) == 0
    ensures DirPrefix("/" + Join(a), "/" + Join(b)) == Ok("//")
  {
    var c, c0 := CommonPrefix("/" + Join(a), "/" + Join(b)), CommonPrefix(Join(a), Join(b));
    CommonPrefixBehind("/", Join(a), Join(b));
    CutBehind("/", c0);
    CutShared(a, b);
    assert c[..1] == "/";
    assert "/" + "/" == "//";
  }

  lemma ComponentsOfRooted(a: seq<string>)
    requires AllNormal(a)
    ensures Rooted("/" + Join(a)) && Components("/" + Join(a)) == a
  {
    NotRooted(a);
    var s := Join(a);
    hide Join, Split;
    assert "" + "/" + s == "/" + s;
    SplitConcat("", s);
    SplitWhole("");
    FoldConcat(true, [], [""], Split(s));
    FoldSplitJoin([], a);
  }

  lemma RootedInjective(a: seq<string>, b: seq<string>)
    requires AllNormal(a) && AllNormal(b)
    ensures "/" + Join(a) == "/" + Join(b) <==> a == b
  {
    assert ("/" + Join(a))[1..] == Join(a) && ("/" + Join(b))[1..] == Join(b);
    if Join(a) == Join(b) { JoinInjective(a, b); }
  }

  lemma FoldShort(root: seq<string>, b: seq<string>)
    requires AllNormal(root) && AllNormal(b) && b != []
    ensures Fold(true, root, [b[0][1..]] + b[1..]) != root + b
  {
    var y := b[0][1..];
    assert ([y] + b[1..])[1..] == b[1..];
    NormalTail(b, 1);
    FoldPushes(Push(true, root, y), b[1..]);
    if Push(true, root, y) == root + [y] {
      assert (root + [y] + b[1..])[|root|] == y != b[0] == (root + b)[|root|];
    } else {
      assert |Push(true, root, y)| <= |root|;
    }
  }

  /** The first component of the module directory comes out one character short, or not at all. */
  lemma UnusableFails(pythondir: string, libdir: string, objfile: string, root: seq<string>)
    requires Rooted(pythondir) && Rooted(libdir) && !PrefixUsable(libdir, pythondir)
    requires Rooted(Dirname(objfile)) && Components(Dirname(objfile)) == root + Components(libdir)
    ensures ModuleDir(pythondir, libdir, objfile).Ok?
    ensures NormPath(ModuleDir(pythondir, libdir, objfile).value) != "/" + Join(root + Components(pythondir))
  {
    var a, b := Components(libdir), Components(pythondir);
    hide NormPath, Rooted, Components, Split, Join, DirPrefix, CommonPrefix, DotDots, Dirname, Fold, Cut, Shared;
    NormalisedForm(libdir);
    NormalisedForm(pythondir);
    UnusablePrefix(a, b);
    JoinTail(a);
    JoinTail(b);
    var a', b' := [a[0][1..]] + a[1..], [b[0][1..]] + b[1..];
    var dir := ModuleDir(pythondir, libdir, objfile).value;
    DropTwo(a);
    DropTwo(b);
    SplitJoin(a');
    SplitJoin(b');
    NormalParts(root, a);
    if "/" <= Join(b') {
      ShortAbsolute(b);
    } else {
      UpAndOn(Dirname(objfile), root, a, Join(b'));
      FoldShort(root, b);
    }
    NormalisedForm(dir);
    RootedInjective(Components(dir), root + b);
  }

  lemma DropTwo(a: seq<string>)
    requires AllNormal(a) && a != []
    ensures Drop("/" + Join(a), |"//"|) == Join(a)[1..]
  {
    FirstSlash(a, 0);
  }

  lemma JoinHead(a: seq<string>)
    requires a != [] && NoSlash(a[0])
    ensures "/" <= Join(a) ==> a[0] == "" && |a| > 1
  {
    if a[0] != "" {
      assert Join(a)[0] == a[0][0];
    }
  }

  /** A first component of one character vanishes altogether, and what remains is absolute again. */
  lemma ShortAbsolute(b: seq<string>)
    requires AllNormal(b) && b != [] && "/" <= Join([b[0][1..]] + b[1..])
    ensures var dir := Join([b[0][1..]] + b[1..]); Rooted(dir) && |Components(dir)| < |b|
  {
    var b' := [b[0][1..]] + b[1..];
    assert b'[1..] == b[1..];
    JoinTail(b);
    JoinHead(b');
    assert Join(b') == "/" + Join(b[1..]);
    NormalTail(b, 1);
    ComponentsOfRooted(b[1..]);
  }

  // ----- Exactly when -----

  /** The test: the prefix must be usable, and a library configured for "/" itself must be there. */
  predicate Works(pythondir: string, libdir: string, root: seq<string>) {
    PrefixUsable(libdir, pythondir) && (Components(libdir) != [] || root == [])
  }

  /** From any one place in any one tree, the hook names the directory of the modules exactly when it passes. */
  lemma MovedIff(pythondir: string, libdir: string, objfile: string, root: seq<string>)
    requires Rooted(pythondir) && Rooted(libdir) && LibraryAt(pythondir, libdir, objfile, root)
    ensures ModuleDir(pythondir, libdir, objfile).Ok?
    ensures NormPath(ModuleDir(pythondir, libdir, objfile).value) == ModulesAt(pythondir, libdir, root)
            <==> Works(pythondir, libdir, root)
  {
    var a, b := Components(libdir), Components(pythondir);
    hide NormPath, Rooted, Components, DirPrefix, CommonPrefix, Dirname, Cut, PrefixUsable, ModuleDir, Join, AllNormal;
    if !PrefixUsable(libdir, pythondir) {
      UnusableShared(pythondir, libdir);
      assert a[0..] == a && b[0..] == b;
      UnusableFails(pythondir, libdir, objfile, root);
    } else if a != [] {
      RelocatesWhenUsable(pythondir, libdir, objfile, root);
    } else if root != [] {
      RootLibrary(pythondir, libdir, objfile, root);
      RootLibraryFails(pythondir, libdir, objfile, root);
    } else {
      assert root + a[0..] == [] && b[0..] == b;
      RootLibrary(pythondir, libdir, objfile, root);
    }
  }

  /** An unmoved library finds the configured modules exactly when the prefix is usable. */
  lemma UnmovedIff(pythondir: string, libdir: string, objfile: string)
    requires Rooted(pythondir) && Rooted(libdir)
    requires Rooted(Dirname(objfile)) && Components(Dirname(objfile)) == Components(libdir)
    ensures ModuleDir(pythondir, libdir, objfile).Ok?
    ensures NormPath(ModuleDir(pythondir, libdir, objfile).value) == NormPath(pythondir)
            <==> PrefixUsable(libdir, pythondir)
  {
    var a, b := Components(libdir), Components(pythondir);
    var n := Shared(a, b);
    hide NormPath, Rooted, Components, Dirname, PrefixUsable, ModuleDir, Join, Shared;
    assert a[..n] + a[n..] == a && a[..n] + b[n..] == b;
    NormalisedForm(pythondir);
    MovedIff(pythondir, libdir, objfile, a[..n]);
  }

  /** A moved tree finds its modules wherever it was moved to exactly when the prefix is usable and the library
      was not configured for "/" itself. */
  lemma RelocatesIff(pythondir: string, libdir: string)
    requires Rooted(pythondir) && Rooted(libdir)
    ensures (forall objfile, root :: LandsRight(pythondir, libdir, objfile, root))
            <==> Components(libdir) != [] && PrefixUsable(libdir, pythondir)
  {
    var a, b := Components(libdir), Components(pythondir);
    hide PrefixUsable, Rooted, Components, ModuleDir, NormPath, Dirname, ModulesAt, Join;
    if a == [] {
      ShortFile("r");
      assert a[0..] == [] && ["r"] + [] == ["r"];
      RootLibraryFails(pythondir, libdir, "/" + "r" + "/f", ["r"]);
    } else if !PrefixUsable(libdir, pythondir) {
      var objfile := "/" + Join(a) + "/f";
      DirnameOfFile(a);
      ComponentsOfRooted(a);
      UnusableShared(pythondir, libdir);
      assert [] + a[0..] == a;
      MovedIff(pythondir, libdir, objfile, []);
      assert !LandsRight(pythondir, libdir, objfile, []);
    } else {
      forall objfile, root ensures LandsRight(pythondir, libdir, objfile, root) {
        RelocatesWhenUsable(pythondir, libdir, objfile, root);
      }
    }
  }

  /** Some entry of a search path names the directory, once normalised. */
  ghost predicate Finds(path: seq<string>, dir: string) {
    exists i :: 0 <= i < |path| && NormPath(path[i]) == dir
  }

  /** After the hook the modules of the tree can be found exactly when the test passes, or they could be before. */
  lemma FoundIff(pythondir: string, libdir: string, objfile: string, root: seq<string>, sysPath: seq<string>)
    requires Rooted(pythondir) && Rooted(libdir) && LibraryAt(pythondir, libdir, objfile, root)
    ensures SearchPath(pythondir, libdir, Some(objfile), sysPath).Ok?
    ensures var modules := ModulesAt(pythondir, libdir, root);
            Finds(SearchPath(pythondir, libdir, Some(objfile), sysPath).value, modules)
            <==> Works(pythondir, libdir, root) || Finds(sysPath, modules)
  {
    hide NormPath, Rooted, LibraryAt, ModulesAt, ModuleDir, Works;
    MovedIff(pythondir, libdir, objfile, root);
    var dir, modules := ModuleDir(pythondir, libdir, objfile).value, ModulesAt(pythondir, libdir, root);
    var after := SearchPath(pythondir, libdir, Some(objfile), sysPath).value;
    if Finds(sysPath, modules) {
      var i :| 0 <= i < |sysPath| && NormPath(sysPath[i]) == modules;
      assert sysPath[i] == after[|after| - |sysPath| + i];
    }
    if NormPath(dir) == modules {
      var i :| 0 <= i < |after| && after[i] == dir;
      assert NormPath(after[i]) == modules;
    }
    if Finds(after, modules) && after != sysPath {
      var i :| 0 <= i < |after| && NormPath(after[i]) == modules;
      assert i > 0 ==> after[i] == sysPath[i - 1];
    }
  }

  /** The directory of a file in a normalised directory is that directory. */
  lemma DirnameOfEntry(a: seq<string>, name: string)
    requires AllNormal(a) && SEP !in name
    ensures Dirname(PathJoin("/" + Join(a), name)) == "/" + Join(a)
  {
    var s := "/" + Join(a);
    assert a == [] ==> s == "/";
    hide Cut, Dirname, Join;
    CutNone(name);
    if a == [] {
      CutBehind("/", name);
      assert ("/" + name)[..1] == "/";
      DirnameOfTop("/" + name);
    } else {
      LastNotSlash(a);
      assert s[|s| - 1] == Join(a)[|Join(a)| - 1];
      CutBehind(s + "/", name);
      assert (s + "/" + name)[..|s| + 1] == s + "/";
      DirnameIs(s + "/" + name, s);
    }
  }

  lemma DirnameOfTop(c: string)
    requires Cut(c) == 1
    ensures Dirname(c) == "/"
  {
    assert c[..1] == "/";
  }

  lemma DirnameOfFile(a: seq<string>)
    requires AllNormal(a) && a != []
    ensures Dirname("/" + Join(a) + "/f") == "/" + Join(a)
  {
    var s := "/" + Join(a);
    LastNotSlash(a);
    assert s[|s| - 1] == Join(a)[|Join(a)| - 1];
    hide Join, Cut, Dirname;
    CutBehind(s + "/", "f");
    CutNone("f");
    assert s + "/" + "f" == s + "/f";
    assert (s + "/f")[..|s| + 1] == s + "/";
    DirnameIs(s + "/f", s);
  }

  lemma {:induction false} LastNotSlash(a: seq<string>)
    requires AllNormal(a) && a != []
    ensures Join(a) != "" && Join(a)[|Join(a)| - 1] != SEP
  {
    assert Normal(a[0]);
    if |a| > 1 {
      LastNotSlash(a[1..]);
    }
  }

  lemma UnusableShared(pythondir: string, libdir: string)
    requires Rooted(pythondir) && Rooted(libdir) && !PrefixUsable(libdir, pythondir)
    ensures Shared(Components(libdir), Components(pythondir)) == 0
  {
    NormalisedForm(libdir);
    NormalisedForm(pythondir);
    hide NormPath, Rooted, Components;
    UnusablePrefix(Components(libdir), Components(pythondir));
  }

  lemma ShortPrefix()
    ensures DirPrefix("/ab", "/ac") == Ok("//")
  {
    CommonPrefixBehind("/a", "b", "c");
    CutBehind("/", "a");
    CutNone("a");
    assert "/a" + "b" == "/ab" && "/a" + "c" == "/ac" && "/a" + CommonPrefix("b", "c") == "/a";
    assert "/" + "a" == "/a" && "/a"[..1] == "/" && "/" + "/" == "//";
  }

  lemma ShortJoins()
    ensures PathJoin("/ab", "../") == "/ab/../" && PathJoin("/ab/../", "c") == "/ab/../c"
  {
    assert "/ab"[2] == 'b' && "../"[0] == '.' && "/ab/../"[6] == '/' && "c"[0] == 'c';
    assert "/"[0] == '/';
    assert "/ab" + "/" + "../" == "/ab/../" && "/ab/../" + "c" == "/ab/../c";
  }

  /** A concrete tree: the library did not move, yet "/ac" is looked for in "/c". */
  lemma WrongDirectory()
    ensures ModuleDir("/ac", "/ab", "/ab/f") == Ok("/ab/../c")
  {
    hide Rooted, Components, DirPrefix, CommonPrefix, Split, NormPath, Dirname;
    assert "/" + "ab" == "/ab" && "/" + "ac" == "/ac" && "/ab" + "/f" == "/ab/f";
    ShortFile("ab");
    ShortFile("ac");
    NormalisedForm("/ab");
    NormalisedForm("/ac");
    ShortPrefix();
    assert Drop("/ab", |"//"|) == "b" && Drop("/ac", |"//"|) == "c";
    SplitWhole("b");
    assert DotDots(1) == "../";
    ShortJoins();
  }
}
