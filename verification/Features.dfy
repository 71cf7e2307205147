/** Feature-test macros: which __USE_ macros a given set of _SOURCE macros turns on. */
module Features {

  /** A macro whose value is looked at. */
  datatype Option = Undefined | Defined(value: int) {
    predicate AtLeast(v: int) { Defined? && value >= v }
  }

  /** The macros a program or compiler may define; those of type bool only matter as defined or not. */
  datatype Given = Given(
    strictAnsi: bool,
    isoc99Source: bool,
    isoc11Source: bool,
    isoc2xSource: bool,
    stdcVersion: Option,
    cplusplus: Option,
    gxxExperimental: bool,
    posixSource: bool,
    posixC: Option,
    xopenSource: Option,
    xopenExtended: bool,
    largefileSource: bool,
    largefile64Source: bool,
    fileOffsetBits: Option,
    atfileSource: bool,
    dynamicStackSize: bool,
    gnuSource: bool,
    defaultSource: bool,
    bsdSource: bool,
    svidSource: bool,
    reentrant: bool,
    threadSafe: bool)

  /** The macros the header defines in turn. */
  datatype Feature =
    | Isoc2x | Isoc11 | Isoc99 | Isoc95 | IsocCxx11
    | Posix | Posix2 | Posix199309 | Posix199506
    | Xopen | XopenExtended | Unix98 | Xopen2k | Xopen2kXsi | Xopen2k8 | Xopen2k8Xsi
    | Largefile | Largefile64 | FileOffset64 | Misc | Atfile | DynamicStackSize | Gnu

  // ----- What the header decides, feature by feature -----

  /** Is _DEFAULT_SOURCE asked for, under one of its names? */
  predicate DefaultAsked(e: Given) {
    e.gnuSource || e.defaultSource || e.bsdSource || e.svidSource
  }

  /** Nothing at all was asked for. */
  predicate Silent(e: Given) {
    && !e.strictAnsi && !e.isoc99Source && !e.isoc11Source && !e.isoc2xSource
    && !e.posixSource && e.posixC.Undefined? && e.xopenSource.Undefined?
  }

  predicate Default(e: Given) { DefaultAsked(e) || Silent(e) }

  /** The X/Open level in force. */
  function XopenLevel(e: Given): Option {
    if e.gnuSource then Defined(700) else e.xopenSource
  }

  /** A POSIX level is made up although none was asked for. */
  predicate Implicit(e: Given) {
    && !Default(e) && !e.posixSource && e.posixC.Undefined?
    && (!e.strictAnsi || e.xopenSource.AtLeast(500))
  }

  predicate Threads(e: Given) { e.reentrant || e.threadSafe }

  /** The POSIX level that goes with an X/Open level. */
  function ImpliedBy(xopen: Option): Option {
    if xopen.Undefined? || xopen.AtLeast(700) then Defined(200809)
    else if xopen.AtLeast(600) then Defined(200112)
    else if xopen.AtLeast(500) then Defined(199506)
    else Defined(2)
  }

  /** The POSIX level before thread support is taken into account. */
  function BaseLevel(e: Given): Option {
    if Default(e) then Defined(200809) else if Implicit(e) then ImpliedBy(e.xopenSource) else e.posixC
  }

  predicate Raised(e: Given) { Threads(e) && !BaseLevel(e).AtLeast(199506) }

  /** The POSIX level in force. */
  function Level(e: Given): Option {
    if Raised(e) then Defined(199506) else BaseLevel(e)
  }

  predicate PosixAsked(e: Given) {
    e.posixSource || Default(e) || Implicit(e) || Raised(e)
  }

  predicate C11(e: Given) { e.isoc11Source || e.isoc2xSource || e.gnuSource }

  predicate Cxx11(e: Given) {
    e.cplusplus.AtLeast(201103) || (e.cplusplus.Defined? && e.gxxExperimental)
  }

  predicate Posix2001(e: Given) { Level(e).AtLeast(200112) || XopenLevel(e).AtLeast(600) }

  /** Whether a feature is on, from the macros given and not from the order of the steps. */
  predicate On(e: Given, f: Feature) {
    match f
    case Isoc2x => e.isoc2xSource || e.gnuSource || e.stdcVersion.AtLeast(201711)
    case Isoc11 => C11(e) || e.stdcVersion.AtLeast(201112) || e.cplusplus.AtLeast(201703)
    case Isoc99 => e.isoc99Source || C11(e) || e.stdcVersion.AtLeast(199901) || Cxx11(e) || Posix2001(e)
    case Isoc95 => e.isoc99Source || C11(e) || e.stdcVersion.AtLeast(199409) || Posix2001(e)
    case IsocCxx11 => Cxx11(e)
    case Posix => PosixAsked(e) || Level(e).AtLeast(1) || XopenLevel(e).Defined?
    case Posix2 => Level(e).AtLeast(2) || XopenLevel(e).Defined?
    case Posix199309 => Level(e).AtLeast(199309)
    case Posix199506 => Level(e).AtLeast(199506)
    case Xopen => XopenLevel(e).Defined?
    case XopenExtended => XopenLevel(e).AtLeast(500) || (XopenLevel(e).Defined? && e.xopenExtended)
    case Unix98 => XopenLevel(e).AtLeast(500)
    case Xopen2k => Posix2001(e)
    case Xopen2kXsi => XopenLevel(e).AtLeast(600)
    case Xopen2k8 => Level(e).AtLeast(200809) || XopenLevel(e).AtLeast(700)
    case Xopen2k8Xsi => XopenLevel(e).AtLeast(700)
    case Largefile => e.largefileSource || XopenLevel(e).AtLeast(500)
    case Largefile64 => e.largefile64Source || e.gnuSource
    case FileOffset64 => e.fileOffsetBits == Defined(64)
    case Misc => Default(e)
    case Atfile => e.atfileSource || e.gnuSource || Level(e).AtLeast(200809)
    case DynamicStackSize => e.dynamicStackSize || e.gnuSource
    case Gnu => e.gnuSource
  }

  /** Every feature that e turns on, e' turns on too. */
  ghost predicate Keeps(e: Given, e': Given) {
    forall f :: On(e, f) ==> On(e', f)
  }

  /** The environment the header leaves behind for code that includes it. */
  function Afterwards(e: Given): Given {
    e.(isoc99Source := e.isoc99Source || e.gnuSource,
       isoc11Source := e.isoc11Source || e.gnuSource,
       isoc2xSource := e.isoc2xSource || e.gnuSource,
       xopenExtended := e.xopenExtended || e.gnuSource,
       largefile64Source := On(e, Largefile64),
       dynamicStackSize := On(e, DynamicStackSize),
       defaultSource := Default(e),
       posixSource := PosixAsked(e),
       posixC := Level(e),
       xopenSource := XopenLevel(e),
       atfileSource := On(e, Atfile),
       largefileSource := On(e, Largefile))
  }

  // ----- The features in the order the header comes to them -----

  /** ISO features, before any POSIX level is looked at. */
  predicate IsoBy(c99: bool, c11: bool, c2x: bool, stdc: Option, cplusplus: Option, gxx: bool, f: Feature) {
    var cxx11 := cplusplus.AtLeast(201103) || (cplusplus.Defined? && gxx);
    match f
    case Isoc2x => c2x || stdc.AtLeast(201711)
    case Isoc11 => c11 || c2x || stdc.AtLeast(201112) || cplusplus.AtLeast(201703)
    case Isoc99 => c99 || c11 || c2x || stdc.AtLeast(199901) || cxx11
    case Isoc95 => c99 || c11 || c2x || stdc.AtLeast(199409)
    case IsocCxx11 => cxx11
    case _ => false
  }

  predicate IsoOn(e: Given, f: Feature) {
    IsoBy(e.isoc99Source || e.gnuSource, e.isoc11Source || e.gnuSource, e.isoc2xSource || e.gnuSource,
          e.stdcVersion, e.cplusplus, e.gxxExperimental, f)
  }

  predicate PosixOn(env: Given, f: Feature) {
    match f
    case Posix => env.posixSource || env.posixC.AtLeast(1) || env.xopenSource.Defined?
    case Posix2 => env.posixC.AtLeast(2) || env.xopenSource.Defined?
    case Posix199309 => env.posixC.AtLeast(199309)
    case Posix199506 => env.posixC.AtLeast(199506)
    case Xopen2k => env.posixC.AtLeast(200112)
    case Isoc95 => env.posixC.AtLeast(200112)
    case Isoc99 => env.posixC.AtLeast(200112)
    case Xopen2k8 => env.posixC.AtLeast(200809)
    case _ => false
  }

  predicate XopenOn(env: Given, f: Feature) {
    var x := env.xopenSource;
    match f
    case Xopen => x.Defined?
    case XopenExtended => x.AtLeast(500) || (x.Defined? && env.xopenExtended)
    case Unix98 => x.AtLeast(500)
    case Xopen2k8 => x.AtLeast(700)
    case Xopen2k8Xsi => x.AtLeast(700)
    case Xopen2k => x.AtLeast(600)
    case Xopen2kXsi => x.AtLeast(600)
    case Isoc95 => x.AtLeast(600)
    case Isoc99 => x.AtLeast(600)
    case _ => false
  }

  predicate RestOn(env: Given, atfileSource: bool, largefileSource: bool, f: Feature) {
    match f
    case Largefile => largefileSource
    case Largefile64 => env.largefile64Source
    case FileOffset64 => env.fileOffsetBits == Defined(64)
    case Misc => env.defaultSource
    case Atfile => atfileSource
    case DynamicStackSize => env.dynamicStackSize
    case Gnu => env.gnuSource
    case _ => false
  }

  /** env is what settling e gives. */
  predicate IsSettled(e: Given, env: Given) {
    Implied(e, env) && env.posixSource == PosixAsked(e) && env.posixC == Level(e)
  }

  /** The feature is one that some step turns on. */
  predicate SteppedOn(e: Given, env: Given, f: Feature) {
    || IsoOn(e, f) || PosixOn(env, f) || XopenOn(env, f)
    || RestOn(env, env.atfileSource || env.posixC.AtLeast(200809),
              e.largefileSource || env.xopenSource.AtLeast(500), f)
  }

  predicate IsIso(f: Feature) { f == Isoc2x || f == Isoc11 || f == Isoc99 || f == Isoc95 || f == IsocCxx11 }

  predicate IsPosix(f: Feature) { f == Posix || f == Posix2 || f == Posix199309 || f == Posix199506 }

  predicate IsXopen(f: Feature) {
    || f == Xopen || f == XopenExtended || f == Unix98 || f == Xopen2k || f == Xopen2kXsi || f == Xopen2k8
    || f == Xopen2k8Xsi
  }

  lemma IsoInSteps(e: Given, env: Given, f: Feature)
    requires IsSettled(e, env) && IsIso(f)
    ensures On(e, f) <==> SteppedOn(e, env, f)
  {
    hide Level, PosixAsked, Default, XopenLevel;
    GnuXopen(e);
  }

  lemma PosixInSteps(e: Given, env: Given, f: Feature)
    requires IsSettled(e, env) && IsPosix(f)
    ensures On(e, f) <==> SteppedOn(e, env, f)
  {
    hide Level, PosixAsked, Default, XopenLevel;
  }

  lemma XopenInSteps(e: Given, env: Given, f: Feature)
    requires IsSettled(e, env) && IsXopen(f)
    ensures On(e, f) <==> SteppedOn(e, env, f)
  {
    GnuXopen(e);
    hide Level, PosixAsked, Default, XopenLevel;
  }

  /** The steps add up to the closed form. */
  lemma OnInSteps(e: Given, env: Given, f: Feature)
    requires IsSettled(e, env)
    ensures On(e, f) <==> SteppedOn(e, env, f)
  {
    if IsIso(f) {
      hide On, SteppedOn;
      IsoInSteps(e, env, f);
    } else if IsPosix(f) {
      hide On, SteppedOn;
      PosixInSteps(e, env, f);
    } else if IsXopen(f) {
      hide On, SteppedOn;
      XopenInSteps(e, env, f);
    } else {
      hide Level, PosixAsked, Default, XopenLevel, IsIso, IsPosix;
      assert !IsoOn(e, f) && !PosixOn(env, f) && !XopenOn(env, f) by {
        RestNotBefore(e, env, f);
      }
      hide IsoOn, PosixOn, XopenOn;
    }
  }

  lemma RestNotBefore(e: Given, env: Given, f: Feature)
    requires f.Largefile? || f.Largefile64? || f.FileOffset64? || f.Misc? || f.Atfile? || f.DynamicStackSize? || f.Gnu?
    ensures !IsoOn(e, f) && !PosixOn(env, f) && !XopenOn(env, f)
  {
  }

  lemma GnuXopen(e: Given)
    ensures e.gnuSource ==> XopenLevel(e) == Defined(700)
  {
  }

  // ----- The header itself: define and undef, in order -----

  /** Lines 283 to 320: the POSIX level, for a settled _DEFAULT_SOURCE. */
  method ChooseLevel(env: Given) returns (posixSource: bool, posixC: Option)
    ensures var made := !env.defaultSource && !env.posixSource && env.posixC.Undefined?
                        && (!env.strictAnsi || env.xopenSource.AtLeast(500));
            var base := if env.defaultSource then Defined(200809)
                        else if made then ImpliedBy(env.xopenSource) else env.posixC;
            var raised := Threads(env) && !base.AtLeast(199506);
            && posixSource == (env.posixSource || env.defaultSource || made || raised)
            && posixC == if raised then Defined(199506) else base
  {
    posixSource, posixC := env.posixSource, env.posixC;
    var xopenSource := env.xopenSource;
    if env.defaultSource {
      posixSource := true;
      posixC := Defined(200809);
    }
    if (!env.strictAnsi || (xopenSource.Defined? && xopenSource.value >= 500)) && !posixSource && posixC.Undefined? {
      posixSource := true;
      if xopenSource.Defined? && xopenSource.value < 500 {
        posixC := Defined(2);
      } else if xopenSource.Defined? && xopenSource.value < 600 {
        posixC := Defined(199506);
      } else if xopenSource.Defined? && xopenSource.value < 700 {
        posixC := Defined(200112);
      } else {
        posixC := Defined(200809);
      }
    }
    if (posixC.Undefined? || posixC.value < 199506) && (env.reentrant || env.threadSafe) {
      posixSource := true;
      posixC := Defined(199506);
    }
  }

  /** env differs from e only in the macros that _GNU_SOURCE and _DEFAULT_SOURCE imply, and in the POSIX level. */
  predicate Implied(e: Given, env: Given) {
    && env.isoc99Source == (e.isoc99Source || e.gnuSource)
    && env.isoc11Source == (e.isoc11Source || e.gnuSource)
    && env.isoc2xSource == (e.isoc2xSource || e.gnuSource)
    && env.xopenSource == XopenLevel(e)
    && env.xopenExtended == (e.xopenExtended || e.gnuSource)
    && env.largefile64Source == (e.largefile64Source || e.gnuSource)
    && env.dynamicStackSize == (e.dynamicStackSize || e.gnuSource)
    && env.atfileSource == (e.atfileSource || e.gnuSource)
    && env.defaultSource == Default(e)
    && env.strictAnsi == e.strictAnsi && env.stdcVersion == e.stdcVersion && env.cplusplus == e.cplusplus
    && env.gxxExperimental == e.gxxExperimental && env.largefileSource == e.largefileSource
    && env.fileOffsetBits == e.fileOffsetBits && env.gnuSource == e.gnuSource && env.bsdSource == e.bsdSource
    && env.svidSource == e.svidSource && env.reentrant == e.reentrant && env.threadSafe == e.threadSafe
  }

  /** The environment once _GNU_SOURCE and _DEFAULT_SOURCE have been seen to. */
  function WithDefault(e: Given): Given {
    Given(
      e.strictAnsi, e.isoc99Source || e.gnuSource, e.isoc11Source || e.gnuSource, e.isoc2xSource || e.gnuSource,
      e.stdcVersion, e.cplusplus, e.gxxExperimental,
      e.posixSource || e.gnuSource, if e.gnuSource then Defined(200809) else e.posixC, XopenLevel(e),
      e.xopenExtended || e.gnuSource, e.largefileSource, e.largefile64Source || e.gnuSource, e.fileOffsetBits,
      e.atfileSource || e.gnuSource, e.dynamicStackSize || e.gnuSource, e.gnuSource, Default(e),
      e.bsdSource, e.svidSource, e.reentrant, e.threadSafe)
  }

  lemma WithDefaultImplied(e: Given, env: Given)
    requires env == WithDefault(e).(posixSource := env.posixSource, posixC := env.posixC)
    ensures Implied(e, env)
  {
    hide Default, XopenLevel;
  }

  /** Lines 192 to 237: the macros that _GNU_SOURCE stands for, and _DEFAULT_SOURCE. */
  method ChooseDefault(given: Given) returns (env: Given)
    ensures env == WithDefault(given)
  {
    var isoc99Source, isoc11Source, isoc2xSource := given.isoc99Source, given.isoc11Source, given.isoc2xSource;
    var posixSource, posixC, xopenSource := given.posixSource, given.posixC, given.xopenSource;
    var xopenExtended, largefile64Source := given.xopenExtended, given.largefile64Source;
    var defaultSource, atfileSource := given.defaultSource, given.atfileSource;
    var dynamicStackSize := given.dynamicStackSize;
    if (given.bsdSource || given.svidSource) && !defaultSource {
      defaultSource := true;
    }
    if given.gnuSource {
      isoc99Source := true;
      isoc11Source := true;
      isoc2xSource := true;
      posixSource := true;
      posixC := Defined(200809);
      xopenSource := Defined(700);
      xopenExtended := true;
      largefile64Source := true;
      defaultSource := true;
      atfileSource := true;
      dynamicStackSize := true;
    }
    assert defaultSource == DefaultAsked(given) && xopenSource == XopenLevel(given);
    hide DefaultAsked, XopenLevel;
    ghost var silent := !given.strictAnsi && !isoc99Source && !isoc11Source && !isoc2xSource
                        && !posixSource && posixC.Undefined? && xopenSource.Undefined?;
    assert !given.gnuSource ==> silent == Silent(given);
    if defaultSource || (!given.strictAnsi && !isoc99Source && !isoc11Source && !isoc2xSource
                         && !posixSource && posixC.Undefined? && xopenSource.Undefined?) {
      defaultSource := true;
    }
    hide Silent;
    assert defaultSource == Default(given);
    hide Default;
    env := Given(
      given.strictAnsi, isoc99Source, isoc11Source, isoc2xSource, given.stdcVersion,
      given.cplusplus, given.gxxExperimental, posixSource, posixC, xopenSource,
      xopenExtended, given.largefileSource, largefile64Source, given.fileOffsetBits, atfileSource,
      dynamicStackSize, given.gnuSource, defaultSource, given.bsdSource, given.svidSource,
      given.reentrant, given.threadSafe);
  }

  lemma LevelFrom(e: Given)
    ensures var d, posix := Default(e), e.posixSource || e.gnuSource;
            var c, x := if e.gnuSource then Defined(200809) else e.posixC, XopenLevel(e);
            var made := !d && !posix && c.Undefined? && (!e.strictAnsi || x.AtLeast(500));
            var base := if d then Defined(200809) else if made then ImpliedBy(x) else c;
            var raised := Threads(e) && !base.AtLeast(199506);
            && PosixAsked(e) == (posix || d || made || raised)
            && Level(e) == if raised then Defined(199506) else base
  {
    hide ImpliedBy;
  }

  /** The two steps towards the POSIX level give the level said. */
  lemma LevelInSteps(e: Given)
    ensures var d := WithDefault(e);
            var made := !d.defaultSource && !d.posixSource && d.posixC.Undefined?
                        && (!d.strictAnsi || d.xopenSource.AtLeast(500));
            var base := if d.defaultSource then Defined(200809)
                        else if made then ImpliedBy(d.xopenSource) else d.posixC;
            var raised := Threads(d) && !base.AtLeast(199506);
            && PosixAsked(e) == (d.posixSource || d.defaultSource || made || raised)
            && Level(e) == if raised then Defined(199506) else base
  {
    LevelFrom(e);
    hide ImpliedBy, Default, XopenLevel, Level, PosixAsked, Option.AtLeast;
  }

  lemma IsoInDefault(e: Given, f: Feature)
    ensures var d := WithDefault(e);
            IsoOn(e, f) == IsoBy(d.isoc99Source, d.isoc11Source, d.isoc2xSource, d.stdcVersion, d.cplusplus,
                                 d.gxxExperimental, f)
  {
    hide IsoBy, Default, XopenLevel;
  }

  /** Lines 125 to 320: a clean slate, the implied macros, and the ISO features, which come in between. */
  method Settle(given: Given) returns (env: Given, on: set<Feature>)
    ensures env == WithDefault(given).(posixSource := PosixAsked(given), posixC := Level(given))
    ensures forall f :: f in on <==> IsoOn(given, f)
  {
    hide Default, XopenLevel, Level, PosixAsked, IsoBy, IsoOn, ImpliedBy, WithDefault;
    on := {};
    env := ChooseDefault(given);
    on := IsoFeatures(env.isoc99Source, env.isoc11Source, env.isoc2xSource, env.stdcVersion, env.cplusplus,
                      env.gxxExperimental);
    forall f ensures f in on <==> IsoOn(given, f) {
      IsoInDefault(given, f);
    }
    var posixSource, posixC := ChooseLevel(env);
    LevelInSteps(given);
    env := env.(posixSource := posixSource, posixC := posixC);
  }

  /** Lines 239 to 278: ISO C and C++. */
  method IsoFeatures(c99: bool, c11: bool, c2x: bool, stdc: Option, cplusplus: Option, gxx: bool)
    returns (on: set<Feature>)
    ensures forall f :: f in on <==> IsoBy(c99, c11, c2x, stdc, cplusplus, gxx, f)
  {
    on := {};
    if c2x || (stdc.Defined? && stdc.value > 201710) { on := on + {Isoc2x}; }
    if c11 || c2x || (stdc.Defined? && stdc.value >= 201112) { on := on + {Isoc11}; }
    if c99 || c11 || c2x || (stdc.Defined? && stdc.value >= 199901) { on := on + {Isoc99}; }
    if c99 || c11 || c2x || (stdc.Defined? && stdc.value >= 199409) { on := on + {Isoc95}; }
    if cplusplus.Defined? {
      if cplusplus.value >= 201703 { on := on + {Isoc11}; }
      if cplusplus.value >= 201103 || gxx {
        on := on + {IsocCxx11};
        on := on + {Isoc99};
      }
    }
  }

  /** Lines 322 to 352, with `iso` on already. */
  method PosixFeatures(env: Given, iso: set<Feature>) returns (on: set<Feature>, atfileSource: bool)
    ensures atfileSource == (env.atfileSource || env.posixC.AtLeast(200809))
    ensures forall f :: f in on <==> f in iso || PosixOn(env, f)
  {
    on, atfileSource := iso, env.atfileSource;
    var posixC := env.posixC;
    if env.posixSource || (posixC.Defined? && posixC.value >= 1) || env.xopenSource.Defined? { on := on + {Posix}; }
    if (posixC.Defined? && posixC.value >= 2) || env.xopenSource.Defined? { on := on + {Posix2}; }
    if posixC.Defined? && posixC.value >= 199309 { on := on + {Posix199309}; }
    if posixC.Defined? && posixC.value >= 199506 { on := on + {Posix199506}; }
    if posixC.Defined? && posixC.value >= 200112 {
      on := on + {Xopen2k};
      on := on - {Isoc95};
      on := on + {Isoc95};
      on := on - {Isoc99};
      on := on + {Isoc99};
    }
    if posixC.Defined? && posixC.value >= 200809 {
      on := on + {Xopen2k8};
      atfileSource := true;
    }
  }

  /** Lines 354 to 378, with `before` on already. */
  method XopenFeatures(env: Given, before: set<Feature>) returns (on: set<Feature>, largefileSource: bool)
    ensures largefileSource == (env.largefileSource || env.xopenSource.AtLeast(500))
    ensures forall f :: f in on <==> f in before || XopenOn(env, f)
  {
    on, largefileSource := before, env.largefileSource;
    if env.xopenSource.Defined? {
      var level := env.xopenSource.value;
      on := on + {Xopen};
      if level >= 500 {
        on := on + {XopenExtended};
        on := on + {Unix98};
        largefileSource := true;
        if level >= 600 {
          if level >= 700 {
            on := on + {Xopen2k8};
            on := on + {Xopen2k8Xsi};
          }
          on := on + {Xopen2k};
          on := on + {Xopen2kXsi};
          on := on - {Isoc95};
          on := on + {Isoc95};
          on := on - {Isoc99};
          on := on + {Isoc99};
        }
      } else if env.xopenExtended {
        on := on + {XopenExtended};
      }
    }
  }

  /** Lines 380 to 408, with `before` on already. */
  method RemainingFeatures(env: Given, atfileSource: bool, largefileSource: bool, before: set<Feature>)
    returns (on: set<Feature>)
    ensures forall f :: f in on <==> f in before || RestOn(env, atfileSource, largefileSource, f)
  {
    on := before;
    if largefileSource { on := on + {Largefile}; }
    if env.largefile64Source { on := on + {Largefile64}; }
    if env.fileOffsetBits.Defined? && env.fileOffsetBits.value == 64 { on := on + {FileOffset64}; }
    if env.defaultSource { on := on + {Misc}; }
    if atfileSource { on := on + {Atfile}; }
    if env.dynamicStackSize { on := on + {DynamicStackSize}; }
    if env.gnuSource { on := on + {Gnu}; }
  }

  lemma LeftBehind(e: Given, env: Given)
    requires IsSettled(e, env)
    ensures Afterwards(e) == env.(atfileSource := env.atfileSource || env.posixC.AtLeast(200809),
                                  largefileSource := e.largefileSource || env.xopenSource.AtLeast(500))
  {
    ChangedMacros(e);
    hide Level, PosixAsked, Default, XopenLevel, On, Option.AtLeast;
  }

  /** The header, top to bottom: exactly the features the given macros call for are on, whatever the order of the
      steps, and the environment is left as said. */
  method Resolve(given: Given) returns (on: set<Feature>, after: Given)
    ensures forall f :: f in on <==> On(given, f)
    ensures after == Afterwards(given)
  {
    hide Level, PosixAsked, Default, XopenLevel, On, IsoOn, PosixOn, XopenOn, RestOn, Afterwards, WithDefault;
    var env, iso := Settle(given);
    WithDefaultImplied(given, env);
    var posix, atfileSource := PosixFeatures(env, iso);
    var xopen, largefileSource := XopenFeatures(env, posix);
    on := RemainingFeatures(env, atfileSource, largefileSource, xopen);
    after := env.(atfileSource := atfileSource, largefileSource := largefileSource);
    forall f ensures f in on <==> On(given, f) {
      OnInSteps(given, env, f);
    }
    LeftBehind(given, env);
  }

  // ----- What the header says of each macro -----

  /** The default set: asked for under one of four names, or by silence of all the macros that ask for something. */
  lemma DefaultNamed(e: Given)
    ensures On(e, Misc)
            <==> || e.gnuSource || e.defaultSource || e.bsdSource || e.svidSource
                 || (&& !e.strictAnsi && !e.isoc99Source && !e.isoc11Source && !e.isoc2xSource
                     && !e.posixSource && e.posixC == Undefined && e.xopenSource == Undefined)
  {
  }

  /** Where each edition of ISO C and C++ begins. POSIX.1-2001 and X/Open 6 bring C99 and C95. */
  lemma IsoBegins(e: Given)
    ensures var c, cxx := e.stdcVersion, e.cplusplus;
            && (On(e, Isoc2x) <==> e.gnuSource || e.isoc2xSource || (c.Defined? && c.value > 201710))
            && (On(e, Isoc11)
                <==> || e.gnuSource || e.isoc2xSource || e.isoc11Source
                     || (c.Defined? && c.value >= 201112) || (cxx.Defined? && cxx.value >= 201703))
            && (On(e, IsocCxx11) <==> cxx.Defined? && (cxx.value >= 201103 || e.gxxExperimental))
            && (On(e, Isoc99)
                <==> || e.gnuSource || e.isoc2xSource || e.isoc11Source || e.isoc99Source
                     || (c.Defined? && c.value >= 199901) || On(e, IsocCxx11) || On(e, Xopen2k))
            && (On(e, Isoc95)
                <==> || e.gnuSource || e.isoc2xSource || e.isoc11Source || e.isoc99Source
                     || (c.Defined? && c.value >= 199409) || On(e, Xopen2k))
  {
    GnuXopen(e);
    hide Level, Default, XopenLevel, PosixAsked;
  }

  /** Which POSIX and X/Open levels are in force: the default ones; else the ones asked for; and where no POSIX
      level is, and ISO C alone was not asked for, one that suits the X/Open level. Thread macros raise it. */
  lemma LevelsBegin(e: Given)
    ensures XopenLevel(e) == if e.gnuSource then Defined(700) else e.xopenSource
    ensures On(e, Misc) ==> Level(e) == Defined(200809)
    ensures var c, x, threads := e.posixC, e.xopenSource, e.reentrant || e.threadSafe;
            var made := !e.posixSource && c == Undefined && (!e.strictAnsi || (x.Defined? && x.value >= 500));
            !On(e, Misc) ==>
              && (made && x == Undefined ==> Level(e) == Defined(200809))
              && (made && x.Defined? && x.value >= 700 ==> Level(e) == Defined(200809))
              && (made && x.Defined? && 600 <= x.value < 700 ==> Level(e) == Defined(200112))
              && (made && x.Defined? && 500 <= x.value < 600 ==> Level(e) == Defined(199506))
              && (made && x.Defined? && x.value < 500 ==> Level(e) == Defined(if threads then 199506 else 2))
              && (!made && !threads ==> Level(e) == c)
              && (!made && threads ==>
                    Level(e) == if c.Defined? && c.value >= 199506 then c else Defined(199506))
  {
    hide Silent, DefaultAsked;
  }

  /** Where each edition of POSIX begins. */
  lemma PosixBegins(e: Given)
    ensures var v, x := Level(e), XopenLevel(e);
            && (On(e, Posix) <==> e.posixSource || x.Defined? || (v.Defined? && v.value >= 1))
            && (On(e, Posix2) <==> x.Defined? || (v.Defined? && v.value >= 2))
            && (On(e, Posix199309) <==> v.Defined? && v.value >= 199309)
            && (On(e, Posix199506) <==> v.Defined? && v.value >= 199506)
            && (On(e, Xopen2k) <==> (v.Defined? && v.value >= 200112) || (x.Defined? && x.value >= 600))
            && (On(e, Xopen2k8) <==> (v.Defined? && v.value >= 200809) || (x.Defined? && x.value >= 700))
            && (On(e, Atfile) <==> e.atfileSource || e.gnuSource || (v.Defined? && v.value >= 200809))
  {
    LevelOfAsked(e);
    hide Level, PosixAsked, XopenLevel, Default;
  }

  /** Where _POSIX_SOURCE is made up, so is a POSIX level. */
  lemma LevelOfAsked(e: Given)
    ensures e.posixSource ==> PosixAsked(e)
    ensures PosixAsked(e) ==> e.posixSource || (Level(e).Defined? && Level(e).value >= 1)
    ensures On(e, Posix) <==> PosixAsked(e) || XopenLevel(e).Defined? || (Level(e).Defined? && Level(e).value >= 1)
  {
    hide DefaultAsked, Silent, XopenLevel;
  }

  /** Where each X/Open level begins, and what goes with it. */
  lemma XopenBegins(e: Given)
    ensures var x := XopenLevel(e);
            && (On(e, Xopen) <==> x.Defined?)
            && (On(e, XopenExtended) <==> x.Defined? && (x.value >= 500 || e.xopenExtended))
            && (On(e, Unix98) <==> x.Defined? && x.value >= 500)
            && (On(e, Xopen2kXsi) <==> x.Defined? && x.value >= 600)
            && (On(e, Xopen2k8Xsi) <==> x.Defined? && x.value >= 700)
            && (On(e, Largefile) <==> e.largefileSource || (x.Defined? && x.value >= 500))
  {
  }

  /** The features with a macro of their own. */
  lemma OthersBegin(e: Given)
    ensures On(e, Largefile64) <==> e.largefile64Source || e.gnuSource
    ensures On(e, FileOffset64) <==> e.fileOffsetBits == Defined(64)
    ensures On(e, DynamicStackSize) <==> e.dynamicStackSize || e.gnuSource
    ensures On(e, Gnu) <==> e.gnuSource
  {
  }

  /** Macros that others imply, or that the lack of any implies, are defined by the header: afterwards they tell
      which features are on. The rest stay as given. */
  lemma LeavesDefined(e: Given)
    ensures var d := Afterwards(e);
            && (d.defaultSource <==> On(e, Misc)) && (d.atfileSource <==> On(e, Atfile))
            && (d.largefileSource <==> On(e, Largefile)) && (d.largefile64Source <==> On(e, Largefile64))
            && (d.dynamicStackSize <==> On(e, DynamicStackSize))
            && d.posixC == Level(e) && d.xopenSource == XopenLevel(e)
            && (d.posixSource <==> e.posixSource || Level(e) != e.posixC || On(e, Misc))
            && (d.isoc99Source <==> e.isoc99Source || e.gnuSource)
            && (d.isoc11Source <==> e.isoc11Source || e.gnuSource)
            && (d.isoc2xSource <==> e.isoc2xSource || e.gnuSource)
            && (d.xopenExtended <==> e.xopenExtended || e.gnuSource)
            && d.strictAnsi == e.strictAnsi && d.stdcVersion == e.stdcVersion && d.cplusplus == e.cplusplus
            && d.gxxExperimental == e.gxxExperimental && d.fileOffsetBits == e.fileOffsetBits
            && d.gnuSource == e.gnuSource && d.bsdSource == e.bsdSource && d.svidSource == e.svidSource
            && d.reentrant == e.reentrant && d.threadSafe == e.threadSafe
  {
    LevelMadeUp(e);
    hide Level, PosixAsked, XopenLevel;
  }

  lemma LevelMadeUp(e: Given)
    ensures PosixAsked(e) <==> e.posixSource || Level(e) != e.posixC || Default(e)
  {
    hide DefaultAsked, Silent, XopenLevel;
  }

  // ----- What the header promises: the more macros, the more features? -----

  /** Level b satisfies every test that a does, up to the highest one made. */
  predicate Covers(a: Option, b: Option, top: int) {
    a.Defined? ==> b.Defined? && (a.value <= b.value || top <= b.value)
  }

  /** The macros that count as asking for something, and so end the default by silence. */
  predicate MoreAsked(e: Given, e': Given) {
    && (e.strictAnsi ==> e'.strictAnsi)
    && (e.isoc99Source ==> e'.isoc99Source)
    && (e.isoc11Source ==> e'.isoc11Source)
    && (e.isoc2xSource ==> e'.isoc2xSource)
    && (e.posixSource ==> e'.posixSource)
    && Covers(e.posixC, e'.posixC, 200809)
    && Covers(e.xopenSource, e'.xopenSource, 700)
  }

  /** All other macros. */
  predicate MoreOthers(e: Given, e': Given) {
    && Covers(e.stdcVersion, e'.stdcVersion, 201711)
    && Covers(e.cplusplus, e'.cplusplus, 201703)
    && (e.gxxExperimental ==> e'.gxxExperimental)
    && (e.xopenExtended ==> e'.xopenExtended)
    && (e.largefileSource ==> e'.largefileSource)
    && (e.largefile64Source ==> e'.largefile64Source)
    && (e.fileOffsetBits == Defined(64) ==> e'.fileOffsetBits == Defined(64))
    && (e.atfileSource ==> e'.atfileSource)
    && (e.dynamicStackSize ==> e'.dynamicStackSize)
    && (e.gnuSource ==> e'.gnuSource)
    && (e.defaultSource ==> e'.defaultSource)
    && (e.bsdSource ==> e'.bsdSource)
    && (e.svidSource ==> e'.svidSource)
    && (e.reentrant ==> e'.reentrant)
    && (e.threadSafe ==> e'.threadSafe)
  }

  /** e' has every macro of e, with values that pass at least the same tests, and may have any others besides. */
  predicate More(e: Given, e': Given) { MoreAsked(e, e') && MoreOthers(e, e') }

  /** For an e with a made-up POSIX level: does e' still reach what that level brought? A level for X/Open below 500
      brings nothing of its own, one below 700 brings POSIX.1c, and the others POSIX.1-2008 and the *at functions. */
  predicate ImpliedStays(e: Given, e': Given) {
    var x, base := e.xopenSource, BaseLevel(e');
    var posix1c := Threads(e') || base.AtLeast(199506);
    if x.Defined? && x.value < 500 then true
    else if x.Defined? && x.value < 700 then posix1c
    else base.AtLeast(200809) || (e'.xopenSource.AtLeast(700) && e'.atfileSource && posix1c)
  }

  /** The test on macros that decides whether nothing gets lost. */
  predicate Accumulates(e: Given, e': Given) {
    || DefaultAsked(e')
    || Silent(e')
    || (!Default(e) && (Implicit(e) ==> ImpliedStays(e, e')))
  }

  /** What the features depend on when it comes to POSIX and X/Open. */
  predicate LevelsServe(e: Given, e': Given) {
    && (Default(e) ==> Default(e'))
    && Covers(XopenLevel(e), XopenLevel(e'), 700)
    && (PosixAsked(e) || Level(e).AtLeast(1) ==> PosixAsked(e') || XopenLevel(e').Defined? || Level(e').AtLeast(1))
    && (Level(e).AtLeast(2) ==> XopenLevel(e').Defined? || Level(e').AtLeast(2))
    && (Level(e).AtLeast(199309) ==> Level(e').AtLeast(199309))
    && (Level(e).AtLeast(199506) ==> Level(e').AtLeast(199506))
    && (Level(e).AtLeast(200112) ==> XopenLevel(e').AtLeast(600) || Level(e').AtLeast(200112))
    && (Level(e).AtLeast(200809) ==> XopenLevel(e').AtLeast(700) || Level(e').AtLeast(200809))
    && (Level(e).AtLeast(200809) ==> e'.atfileSource || Level(e').AtLeast(200809))
  }

  /** Under the default set every level is at its top. */
  lemma DefaultServes(e: Given, e': Given)
    requires More(e, e') && (DefaultAsked(e') || Silent(e'))
    ensures LevelsServe(e, e')
  {
    assert Default(e') && Level(e') == Defined(200809);
    assert Silent(e') ==> Silent(e);
    hide Level, PosixAsked;
  }

  /** Without it, a level that was not made up can only rise. */
  lemma AskedServes(e: Given, e': Given)
    requires More(e, e') && !Default(e) && !Default(e') && !Implicit(e)
    ensures LevelsServe(e, e')
  {
    assert Covers(BaseLevel(e), BaseLevel(e'), 200809);
    hide BaseLevel;
  }

  lemma ImpliedServes(e: Given, e': Given)
    requires More(e, e') && !Default(e') && Implicit(e) && ImpliedStays(e, e')
    ensures LevelsServe(e, e')
  {
    hide DefaultAsked, Silent;
    assert BaseLevel(e) == ImpliedBy(e.xopenSource);
    hide BaseLevel, Implicit;
  }

  /** Feature by feature: what decides it in e is there in e', too. */
  lemma FeatureKept(e: Given, e': Given, f: Feature)
    requires More(e, e') && LevelsServe(e, e') && On(e, f)
    ensures On(e', f)
  {
    hide Level, PosixAsked, Default, XopenLevel;
    assert e.gnuSource ==> XopenLevel(e) == Defined(700) by { GnuXopen(e); }
  }

  /** Which of four features goes. */
  lemma LosesFeature(e: Given, e': Given)
    requires More(e, e') && !Accumulates(e, e')
    ensures !Keeps(e, e')
  {
    var f := if Default(e) then Misc
             else if !On(e', Posix199506) then Posix199506
             else if !On(e', Xopen2k8) then Xopen2k8 else Atfile;
    assert On(e, f) && !On(e', f);
  }

  /** The macros are said to accumulate. However many are added or raised at once, every feature is kept exactly
      when the default set is asked for by name, or still in force by silence, or was not in force before and a
      made-up POSIX level, if there was one, is still reached. */
  lemma AccumulatesIff(e: Given, e': Given)
    requires More(e, e')
    ensures Keeps(e, e') <==> Accumulates(e, e')
  {
    if Accumulates(e, e') {
      if DefaultAsked(e') || Silent(e') {
        DefaultServes(e, e');
      } else if Implicit(e) {
        ImpliedServes(e, e');
      } else {
        AskedServes(e, e');
      }
      hide More, LevelsServe, Accumulates;
      forall f | On(e, f) ensures On(e', f) {
        FeatureKept(e, e', f);
      }
    } else {
      LosesFeature(e, e');
    }
  }

  // ----- Macros that never take anything away -----

  /** Of all macros but seven, any number can be added or raised without losing a feature. */
  lemma OthersOnlyAdd(e: Given, e': Given)
    requires MoreOthers(e, e') && MoreAsked(e, e') && MoreAsked(e', e)
    ensures Keeps(e, e')
  {
    hide Keeps;
    AccumulatesIff(e, e');
  }

  /** _GNU_SOURCE turns on everything any other choice would. */
  lemma GnuIsTop(e: Given)
    ensures Keeps(e, e.(gnuSource := true))
  {
    hide Keeps;
    OthersOnlyAdd(e, e.(gnuSource := true));
  }

  /** The same macros defined, with values that pass at least the same tests. */
  predicate Higher(e: Given, e': Given) {
    && e'.posixC.Defined? == e.posixC.Defined? && Covers(e.posixC, e'.posixC, 200809)
    && e'.xopenSource.Defined? == e.xopenSource.Defined? && Covers(e.xopenSource, e'.xopenSource, 700)
    && e' == e.(posixC := e'.posixC, xopenSource := e'.xopenSource)
  }

  lemma HigherIsMore(e: Given, e': Given)
    requires Higher(e, e')
    ensures More(e, e')
  {
  }

  lemma HigherAsks(e: Given, e': Given)
    requires Higher(e, e')
    ensures DefaultAsked(e') == DefaultAsked(e) && Silent(e') == Silent(e)
    ensures Implicit(e) ==> Implicit(e')
  {
    SameAsked(e, e');
    hide DefaultAsked, Silent;
    assert Covers(e.xopenSource, e'.xopenSource, 700);
    assert e'.strictAnsi == e.strictAnsi && e'.posixSource == e.posixSource;
    hide Higher;
  }

  lemma SameAsked(e: Given, e': Given)
    requires Higher(e, e')
    ensures DefaultAsked(e') == DefaultAsked(e) && Silent(e') == Silent(e)
    ensures e'.posixC.Undefined? == e.posixC.Undefined?
  {
  }

  lemma HigherImplies(e: Given, e': Given)
    requires Higher(e, e') && Implicit(e) && Implicit(e')
    ensures ImpliedStays(e, e')
  {
    hide Silent, DefaultAsked;
    assert BaseLevel(e') == ImpliedBy(e'.xopenSource);
    hide Implicit, BaseLevel;
  }

  /** Raising an already defined _POSIX_C_SOURCE or _XOPEN_SOURCE takes nothing away. */
  lemma HigherLevelsAddFeatures(e: Given, e': Given)
    requires Higher(e, e')
    ensures Keeps(e, e')
  {
    hide Keeps, More, Higher, Silent, DefaultAsked, Implicit, ImpliedStays;
    HigherIsMore(e, e');
    HigherAsks(e, e');
    AccumulatesIff(e, e');
    if Implicit(e) {
      HigherImplies(e, e');
    }
  }

  /** The thread macros leave alone what the POSIX level is otherwise. */
  lemma ThreadsRaise(e: Given, e': Given)
    requires e' == e.(reentrant := e'.reentrant, threadSafe := e'.threadSafe) && (Threads(e) ==> Threads(e'))
    ensures Covers(Level(e), Level(e'), 200809)
    ensures Threads(e') ==> Level(e').AtLeast(199506)
  {
    assert BaseLevel(e') == BaseLevel(e) by {
      hide ImpliedBy;
    }
    hide BaseLevel, Threads;
  }

  lemma MoreThreads(e: Given, e': Given)
    requires e' == e.(reentrant := e'.reentrant, threadSafe := e'.threadSafe)
    requires (e.reentrant ==> e'.reentrant) && (e.threadSafe ==> e'.threadSafe)
    ensures MoreOthers(e, e') && MoreAsked(e, e') && MoreAsked(e', e)
  {
  }

  /** The thread macros do not lower the POSIX level that the other macros select; they raise it to POSIX.1c. */
  lemma ThreadsOnlyAdd(e: Given, e': Given)
    requires e' == e.(reentrant := e'.reentrant, threadSafe := e'.threadSafe)
    requires (e.reentrant ==> e'.reentrant) && (e.threadSafe ==> e'.threadSafe)
    ensures Keeps(e, e') && Covers(Level(e), Level(e'), 200809)
    ensures e'.reentrant || e'.threadSafe ==> Level(e').AtLeast(199506)
  {
    hide Keeps, Level, Covers, Option.AtLeast;
    ThreadsRaise(e, e');
    MoreThreads(e, e');
    OthersOnlyAdd(e, e');
  }

  // ----- Macros that may -----

  /** _ISOC99_SOURCE, _ISOC11_SOURCE and _ISOC2X_SOURCE, one or more of them new, only ever end the default by
      silence. */
  lemma IsoAddedIff(e: Given, e': Given)
    requires e' == e.(isoc99Source := e'.isoc99Source, isoc11Source := e'.isoc11Source, isoc2xSource := e'.isoc2xSource)
    requires MoreAsked(e, e') && e' != e
    ensures Keeps(e, e') <==> DefaultAsked(e) || !Silent(e)
  {
    hide Keeps;
    AccumulatesIff(e, e');
    assert !Silent(e');
    hide MoreAsked, Silent;
    assert DefaultAsked(e') == DefaultAsked(e);
    if Implicit(e) {
      assert !Default(e') ==> BaseLevel(e') == ImpliedBy(e.xopenSource);
    }
  }

  /** __STRICT_ANSI__ needs some POSIX or X/Open macro beside it. */
  lemma StrictAnsiAddedIff(e: Given)
    requires !e.strictAnsi
    ensures Keeps(e, e.(strictAnsi := true))
            <==> DefaultAsked(e) || e.posixSource || e.posixC.Defined? || e.xopenSource.Defined?
  {
    hide Keeps;
    AccumulatesIff(e, e.(strictAnsi := true));
  }

  /** _XOPEN_SOURCE may take the place of a made-up POSIX level if it is 700 or more. */
  lemma XopenAddedIff(e: Given, v: int)
    requires e.xopenSource.Undefined?
    ensures Keeps(e, e.(xopenSource := Defined(v)))
            <==> DefaultAsked(e) || (!Silent(e) && (Implicit(e) ==> v >= 700))
  {
    hide Keeps;
    AccumulatesIff(e, e.(xopenSource := Defined(v)));
  }

  /** Does level v, asked for beside the macros of e, bring what the made-up level of e did? */
  predicate KeepsImplied(e: Given, v: int) {
    var posix1c := v >= 199506 || Threads(e);
    if !Implicit(e) || (e.xopenSource.Defined? && e.xopenSource.value < 500) then true
    else if e.xopenSource.Undefined? then v >= 200809
    else if e.xopenSource.value < 700 then posix1c
    else v >= 200809 || (e.atfileSource && posix1c)
  }

  /** A _POSIX_C_SOURCE that was not there must not undercut a made-up POSIX level. */
  lemma PosixCAddedIff(e: Given, v: int)
    requires e.posixC.Undefined?
    ensures Keeps(e, e.(posixC := Defined(v))) <==> DefaultAsked(e) || (!Silent(e) && KeepsImplied(e, v))
  {
    hide Keeps;
    AccumulatesIff(e, e.(posixC := Defined(v)));
  }

  /** _POSIX_SOURCE names no level at all, and ends any made-up one. */
  lemma PosixSourceAddedIff(e: Given)
    requires !e.posixSource
    ensures Keeps(e, e.(posixSource := true)) <==> DefaultAsked(e) || (!Silent(e) && KeepsImplied(e, 0))
  {
    hide Keeps;
    AccumulatesIff(e, e.(posixSource := true));
  }

  /** A concrete loss: next to _XOPEN_SOURCE=700 alone, _POSIX_C_SOURCE=1 takes POSIX.1c away. */
  lemma DoesNotAccumulate()
    ensures var e := Given(false, false, false, false, Undefined, Undefined, false, false, Undefined, Defined(700),
                           false, false, false, Undefined, false, false, false, false, false, false, false, false);
            On(e, Posix199506) && !On(e.(posixC := Defined(1)), Posix199506)
  {
  }

  // ----- What the header promises: closure -----

  /** Later standards come with the earlier ones. */
  lemma StandardsClosed(e: Given)
    ensures On(e, Xopen2k8) ==> On(e, Xopen2k)
    ensures On(e, Xopen2k) ==> On(e, Isoc99) && On(e, Isoc95)
    ensures On(e, Posix199506) ==> On(e, Posix199309)
    ensures On(e, Posix199309) ==> On(e, Posix2)
    ensures On(e, Posix2) ==> On(e, Posix)
  {
    hide Level, PosixAsked, Default, XopenLevel, C11, Cxx11;
  }

  lemma XopenClosed(e: Given)
    ensures On(e, Xopen2k8Xsi) ==> On(e, Xopen2k8) && On(e, Xopen2kXsi)
    ensures On(e, Xopen2kXsi) ==> On(e, Xopen2k) && On(e, Unix98)
    ensures On(e, Unix98) ==> On(e, XopenExtended) && On(e, Xopen) && On(e, Largefile)
  {
    hide Level, PosixAsked, Default, XopenLevel, C11, Cxx11;
  }

  /** The default set contains POSIX.1-2008. */
  lemma DefaultIsPosix2008(e: Given)
    ensures On(e, Misc) ==> On(e, Xopen2k8) && On(e, Posix199506) && On(e, Atfile)
  {
    assert Default(e) ==> Level(e) == Defined(200809);
    hide Level, PosixAsked, Default, XopenLevel, C11, Cxx11, Posix2001;
  }

  /** What the first reading settled, the second finds unchanged. */
  lemma LevelsSettled(e: Given)
    ensures var e' := Afterwards(e);
            && Level(e') == Level(e) && XopenLevel(e') == XopenLevel(e)
            && Default(e') == Default(e) && PosixAsked(e') == PosixAsked(e)
  {
    hide On;
  }

  /** Reading the header again in the environment it left changes neither features nor environment. */
  lemma ResolvedOnce(e: Given)
    ensures Keeps(e, Afterwards(e)) && Keeps(Afterwards(e), e)
    ensures Afterwards(Afterwards(e)) == Afterwards(e)
  {
    LevelsSettled(e);
    hide Level, PosixAsked, Default, XopenLevel, On;
    forall f ensures On(Afterwards(e), f) <==> On(e, f) {
      SettledFeature(e, f);
    }
  }

  lemma ChangedMacros(e: Given)
    ensures On(e, Largefile64) == (e.largefile64Source || e.gnuSource)
    ensures On(e, DynamicStackSize) == (e.dynamicStackSize || e.gnuSource)
    ensures On(e, Atfile) == (e.atfileSource || e.gnuSource || Level(e).AtLeast(200809))
    ensures On(e, Largefile) == (e.largefileSource || XopenLevel(e).AtLeast(500))
  {
  }

  lemma SettledParts(e: Given)
    ensures var e' := Afterwards(e);
            && C11(e') == C11(e) && Cxx11(e') == Cxx11(e) && Posix2001(e') == Posix2001(e)
            && (e'.isoc99Source || C11(e') <==> e.isoc99Source || C11(e))
            && (e'.isoc2xSource || e'.gnuSource <==> e.isoc2xSource || e.gnuSource)
  {
    LevelsSettled(e);
    hide Level, PosixAsked, Default, XopenLevel, On;
  }

  lemma SettledFields(e: Given)
    ensures var e' := Afterwards(e);
            && e'.stdcVersion == e.stdcVersion && e'.cplusplus == e.cplusplus && e'.fileOffsetBits == e.fileOffsetBits
            && e'.gnuSource == e.gnuSource && e'.xopenExtended == (e.xopenExtended || e.gnuSource)
            && e'.largefile64Source == On(e, Largefile64) && e'.dynamicStackSize == On(e, DynamicStackSize)
            && e'.atfileSource == On(e, Atfile) && e'.largefileSource == On(e, Largefile)
  {
    hide Level, PosixAsked, Default, XopenLevel, On;
  }

  lemma SettledFeature(e: Given, f: Feature)
    ensures On(Afterwards(e), f) <==> On(e, f)
  {
    LevelsSettled(e);
    ChangedMacros(e);
    GnuXopen(e);
    SettledParts(e);
    SettledFields(e);
    hide Level, PosixAsked, Default, XopenLevel, C11, Cxx11, Posix2001, Afterwards;
  }
}
