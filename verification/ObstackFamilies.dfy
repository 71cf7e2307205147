/** The macros for GNU C and the macros for other compilers are one and the same obstack. */
module ObstackFamilies {
  import opened Alignment
  import opened ObstackModel
  import opened ObstackRuns
  import opened ObstackTheorems
  import M = ObstackMacros

  /** Equal but for the scratch field. */
  predicate Alike(w: World, u: World) {
    w.s.SameButTemp(u.s) && w.a == u.a
  }

  lemma GrowingIgnoresTemp(s: M.Obstack, t: int)
    requires s.Valid()
    ensures s.(temp := t).Valid() && s.(temp := t).Growing() == s.Growing()
  {
  }

  lemma PokeIgnoresTemp(s: M.Obstack, t: int, p: nat, datum: byte)
    ensures Poke(s.(temp := t), p, datum) == Poke(s, p, datum).(temp := t)
  {
  }

  // ----- One call with the comma expressions -----

  function CommaBlanked(w: World, n: int, room: M.Chunk): (w': World)
    requires w.Sim() && M.Provided(w.s, n, room) && 0 <= |w.a.growing| + n
    ensures Alike(w', Blanked(w, n, room))
  {
    hide AndNot, IsMask, M.CommaBlank, M.Blank, M.WellChained, World.NoneEmptyHere, Layout;
    SimBlank(w, n, room);
    GrowingIgnoresTemp(M.Blank(w.s, n, room), n);
    var s' := M.CommaBlank(w.s, n, room);
    World(s', w.a.Resize(n, s'.Growing()))
  }

  function CommaAllocated(w: World, n: int, room: M.Chunk): (w': World)
    requires w.Sim() && M.Provided(w.s, n, room) && 0 <= |w.a.growing| + n
    ensures Alike(w', Allocated(w, n, room))
  {
    hide AndNot, IsMask, M.CommaAlloc, M.Alloc, M.WellChained, Layout, Blanked, CommaBlanked, M.Carved.Holds, Resized,
      OneMore;
    Finished(M.CommaAlloc(w.s, n, room), CommaBlanked(w, n, room).a)
  }

  lemma CommaCopyAlike(w: World, bytes: seq<byte>, room: M.Chunk)
    requires w.Sim() && M.Provided(w.s, |bytes|, room)
    ensures var r := M.CommaCopy(w.s, bytes, room);
            && r.s.chunks != [] && 0 <= r.value
            && Alike(Finished(r, w.a.Append(bytes)), Copied(w, bytes, room))
  {
    hide AndNot, IsMask, M.CommaCopy, M.Copy, M.WellChained, Layout, World.NoneEmptyHere, OneMore;
  }

  function CommaCopied(w: World, bytes: seq<byte>, room: M.Chunk): (w': World)
    requires w.Sim() && M.Provided(w.s, |bytes|, room)
    ensures Alike(w', Copied(w, bytes, room))
  {
    CommaCopyAlike(w, bytes, room);
    hide AndNot, IsMask, M.CommaCopy, M.Copy, M.WellChained, Layout, World.NoneEmptyHere, M.Carved.Holds, OneMore,
      Finished, Copied, Alike;
    Finished(M.CommaCopy(w.s, bytes, room), w.a.Append(bytes))
  }

  lemma CommaCopy0Alike(w: World, bytes: seq<byte>, room: M.Chunk)
    requires w.Sim() && M.Provided(w.s, |bytes| + 1, room)
    ensures var r := M.CommaCopy0(w.s, bytes, room);
            && r.s.chunks != [] && 0 <= r.value
            && Alike(Finished(r, w.a.Append(bytes).Append([0])), Copied0(w, bytes, room))
  {
    hide AndNot, IsMask, M.CommaCopy0, M.Copy0, M.WellChained, Layout, World.NoneEmptyHere, OneMore;
  }

  function CommaCopied0(w: World, bytes: seq<byte>, room: M.Chunk): (w': World)
    requires w.Sim() && M.Provided(w.s, |bytes| + 1, room)
    ensures Alike(w', Copied0(w, bytes, room))
  {
    CommaCopy0Alike(w, bytes, room);
    hide AndNot, IsMask, M.CommaCopy0, M.Copy0, M.WellChained, Layout, World.NoneEmptyHere, M.Carved.Holds, OneMore,
      Finished, Copied0, Alike;
    Finished(M.CommaCopy0(w.s, bytes, room), w.a.Append(bytes).Append([0]))
  }

  function CommaFinishedNow(w: World): (w': World)
    requires w.Sim()
    ensures Alike(w', FinishedNow(w))
  {
    hide AndNot, IsMask, M.CommaFinish, M.Finish, M.WellChained, Layout;
    Finished(M.CommaFinish(w.s), w.a)
  }

  function CommaUnwound(w: World, i: nat): (w': World)
    requires w.Sim() && i <= w.Count()
    ensures Alike(w', Unwound(w, i))
  {
    SimFree(w, i);
    World(M.CommaFree(w.s, w.Slots()[i].addr).s, w.a.Unwind(i))
  }

  function CommaGrown(w: World, bytes: seq<byte>, room: M.Chunk): (w': World)
    requires w.Sim() && M.Provided(w.s, |bytes|, room)
    ensures Alike(w', Grown(w, bytes, room))
  {
    World(M.CommaGrow(w.s, bytes, room), w.a.Append(bytes))
  }

  function CommaGrown0(w: World, bytes: seq<byte>, room: M.Chunk): (w': World)
    requires w.Sim() && M.Provided(w.s, |bytes| + 1, room)
    ensures Alike(w', Grown0(w, bytes, room))
  {
    World(M.CommaGrow0(w.s, bytes, room), w.a.Append(bytes).Append([0]))
  }

  function CommaGrownByOne(w: World, datum: byte, room: M.Chunk): (w': World)
    requires w.Sim() && M.Provided(w.s, 1, room)
    ensures Alike(w', GrownByOne(w, datum, room))
  {
    World(M.CommaOneGrow(w.s, datum, room), w.a.Append([datum]))
  }

  function CommaMadeRoom(w: World, n: int, room: M.Chunk): (w': World)
    requires w.Sim() && M.Provided(w.s, n, room)
    ensures Alike(w', MadeRoom(w, n, room))
  {
    World(M.CommaMakeRoom(w.s, n, room), w.a)
  }

  /** Step with the comma-expression macros; the fast macros and the client's stores are shared. */
  function CommaCall(w: World, call: Call): (w': World)
    requires w.Sim() && Legal(w, call)
  {
    var room := call.room;
    match call.op
    case MakeRoom(n) => CommaMadeRoom(w, n, room)
    case Grow(bytes) => CommaGrown(w, bytes, room)
    case Grow0(bytes) => CommaGrown0(w, bytes, room)
    case OneGrow(datum) => CommaGrownByOne(w, datum, room)
    case OneGrowFast(datum) => GrownFast(w, datum)
    case Blank(n) => CommaBlanked(w, n, room)
    case BlankFast(n) => BlankedFast(w, n)
    case Alloc(n) => CommaAllocated(w, n, room)
    case Copy(bytes) => CommaCopied(w, bytes, room)
    case Copy0(bytes) => CommaCopied0(w, bytes, room)
    case Finish => CommaFinishedNow(w)
    case Free(i) => CommaUnwound(w, i)
    case Store(i, k, datum) => Stored(w, i, k, datum)
  }

  lemma StepsAgree(w: World, call: Call)
    requires w.Sim() && Legal(w, call)
    ensures Alike(CommaCall(w, call), Step(w, call))
  {
    hide MadeRoom, Grown, Grown0, GrownByOne, GrownFast, Blanked, BlankedFast,
      Allocated, Copied, Copied0, FinishedNow, Unwound, Stored, World.Sim,
      CommaMadeRoom, CommaGrown, CommaGrown0, CommaGrownByOne, CommaBlanked,
      CommaAllocated, CommaCopied, CommaCopied0, CommaFinishedNow, CommaUnwound;
  }

  lemma SimIgnoresTemp(w: World, u: World)
    requires w.Sim() && Alike(w, u)
    ensures u.Sim()
  {
    hide AndNot, IsMask, M.WellChained, Layout;
    assert u.s == w.s.(temp := u.s.temp);
    assert u.Slots() == w.Slots();
  }

  lemma LegalIgnoresTemp(w: World, u: World, call: Call)
    requires w.Sim() && Legal(w, call) && Alike(w, u)
    ensures Legal(u, call)
  {
    hide World.Sim;
    assert u.s == w.s.(temp := u.s.temp);
  }

  // ----- No macro of the GNU C family looks at temp -----

  lemma RoomIgnoresTemp(s: M.Obstack, t: int, n: int, room: M.Chunk)
    requires s.Valid() && M.Provided(s, n, room)
    ensures s.(temp := t).Valid() && M.Provided(s.(temp := t), n, room)
    ensures M.MakeRoom(s.(temp := t), n, room) == M.MakeRoom(s, n, room).(temp := t)
  {
    M.NewChunkIgnoresTemp(s, t, n, room);
  }

  lemma GrowIgnoresTemp(s: M.Obstack, t: int, bytes: seq<byte>, room: M.Chunk)
    requires s.Valid() && M.Provided(s, |bytes|, room)
    ensures s.(temp := t).Valid() && M.Provided(s.(temp := t), |bytes|, room)
    ensures M.Grow(s.(temp := t), bytes, room) == M.Grow(s, bytes, room).(temp := t)
  {
    hide AndNot, IsMask, M.WellChained, M.Append, M.NewChunk;
    RoomIgnoresTemp(s, t, |bytes|, room);
    M.AppendIgnoresTemp(M.MakeRoom(s, |bytes|, room), t, bytes);
  }

  lemma Grow0IgnoresTemp(s: M.Obstack, t: int, bytes: seq<byte>, room: M.Chunk)
    requires s.Valid() && M.Provided(s, |bytes| + 1, room)
    ensures s.(temp := t).Valid() && M.Provided(s.(temp := t), |bytes| + 1, room)
    ensures M.Grow0(s.(temp := t), bytes, room) == M.Grow0(s, bytes, room).(temp := t)
  {
    hide AndNot, IsMask, M.WellChained, M.Append, M.NewChunk;
    RoomIgnoresTemp(s, t, |bytes| + 1, room);
    var g := M.MakeRoom(s, |bytes| + 1, room);
    M.AppendIgnoresTemp(g, t, bytes);
    M.AppendIgnoresTemp(M.Append(g, bytes), t, [0]);
  }

  lemma BlankIgnoresTemp(s: M.Obstack, t: int, n: int, room: M.Chunk)
    requires s.Valid() && M.Provided(s, n, room) && s.objectBase <= s.nextFree + n
    ensures s.(temp := t).Valid() && M.Provided(s.(temp := t), n, room)
    ensures M.Blank(s.(temp := t), n, room) == M.Blank(s, n, room).(temp := t)
  {
    hide AndNot, IsMask, M.WellChained, M.NewChunk;
    RoomIgnoresTemp(s, t, n, room);
  }

  lemma FinishIgnoresTemp(s: M.Obstack, t: int)
    requires s.Valid()
    ensures s.(temp := t).Valid()
    ensures M.Finish(s.(temp := t)) == M.Finish(s).(s := M.Finish(s).s.(temp := t))
  {
    hide AndNot, IsMask, M.WellChained, PtrAlign;
  }

  lemma OneGrowIgnoresTemp(s: M.Obstack, t: int, datum: byte, room: M.Chunk)
    requires s.Valid() && M.Provided(s, 1, room)
    ensures s.(temp := t).Valid() && M.Provided(s.(temp := t), 1, room)
    ensures M.OneGrow(s.(temp := t), datum, room) == M.OneGrow(s, datum, room).(temp := t)
  {
    hide AndNot, IsMask, M.WellChained, M.Append, M.NewChunk;
    RoomIgnoresTemp(s, t, 1, room);
    M.AppendIgnoresTemp(M.MakeRoom(s, 1, room), t, [datum]);
  }

  lemma AllocIgnoresTemp(s: M.Obstack, t: int, n: int, room: M.Chunk)
    requires s.Valid() && M.Provided(s, n, room) && s.objectBase <= s.nextFree + n
    ensures s.(temp := t).Valid() && M.Provided(s.(temp := t), n, room)
    ensures M.Alloc(s.(temp := t), n, room) == M.Alloc(s, n, room).(s := M.Alloc(s, n, room).s.(temp := t))
  {
    hide AndNot, IsMask, M.WellChained, M.Blank, M.Finish;
    BlankIgnoresTemp(s, t, n, room);
    FinishIgnoresTemp(M.Blank(s, n, room), t);
  }

  lemma CopyIgnoresTemp(s: M.Obstack, t: int, bytes: seq<byte>, room: M.Chunk)
    requires s.Valid() && M.Provided(s, |bytes|, room)
    ensures s.(temp := t).Valid() && M.Provided(s.(temp := t), |bytes|, room)
    ensures M.Copy(s.(temp := t), bytes, room) == M.Copy(s, bytes, room).(s := M.Copy(s, bytes, room).s.(temp := t))
  {
    hide AndNot, IsMask, M.WellChained, M.Grow, M.Finish;
    GrowIgnoresTemp(s, t, bytes, room);
    FinishIgnoresTemp(M.Grow(s, bytes, room), t);
  }

  lemma Copy0IgnoresTemp(s: M.Obstack, t: int, bytes: seq<byte>, room: M.Chunk)
    requires s.Valid() && M.Provided(s, |bytes| + 1, room)
    ensures s.(temp := t).Valid() && M.Provided(s.(temp := t), |bytes| + 1, room)
    ensures M.Copy0(s.(temp := t), bytes, room) == M.Copy0(s, bytes, room).(s := M.Copy0(s, bytes, room).s.(temp := t))
  {
    hide AndNot, IsMask, M.WellChained, M.Grow0, M.Finish;
    Grow0IgnoresTemp(s, t, bytes, room);
    FinishIgnoresTemp(M.Grow0(s, bytes, room), t);
  }

  function Retemp(w: World, t: int): World {
    w.(s := w.s.(temp := t))
  }

  /** The step goes the same way whatever temp holds. */
  ghost predicate IgnoresTemp(w: World, t: int, call: Call)
    requires w.Sim() && Legal(w, call)
  {
    && Retemp(w, t).Sim() && Legal(Retemp(w, t), call)
    && Alike(Step(w, call), Step(Retemp(w, t), call))
  }

  lemma MakeRoomStepIgnoresTemp(w: World, t: int, call: Call)
    requires w.Sim() && Legal(w, call) && call.op.MakeRoom?
    ensures IgnoresTemp(w, t, call)
  {
    hide AndNot, IsMask, M.WellChained, Layout, World.NoneEmptyHere, M.MakeRoom;
    SimIgnoresTemp(w, Retemp(w, t));
    LegalIgnoresTemp(w, Retemp(w, t), call);
    RoomIgnoresTemp(w.s, t, call.op.n, call.room);
  }

  lemma GrowStepIgnoresTemp(w: World, t: int, call: Call)
    requires w.Sim() && Legal(w, call) && call.op.Grow?
    ensures IgnoresTemp(w, t, call)
  {
    hide AndNot, IsMask, M.WellChained, Layout, World.NoneEmptyHere, M.Grow;
    SimIgnoresTemp(w, Retemp(w, t));
    LegalIgnoresTemp(w, Retemp(w, t), call);
    GrowIgnoresTemp(w.s, t, call.op.bytes, call.room);
  }

  lemma Grow0StepIgnoresTemp(w: World, t: int, call: Call)
    requires w.Sim() && Legal(w, call) && call.op.Grow0?
    ensures IgnoresTemp(w, t, call)
  {
    hide AndNot, IsMask, M.WellChained, Layout, World.NoneEmptyHere, M.Grow0;
    SimIgnoresTemp(w, Retemp(w, t));
    LegalIgnoresTemp(w, Retemp(w, t), call);
    Grow0IgnoresTemp(w.s, t, call.op.bytes, call.room);
  }

  lemma OneGrowStepIgnoresTemp(w: World, t: int, call: Call)
    requires w.Sim() && Legal(w, call) && call.op.OneGrow?
    ensures IgnoresTemp(w, t, call)
  {
    hide AndNot, IsMask, M.WellChained, Layout, World.NoneEmptyHere, M.OneGrow;
    SimIgnoresTemp(w, Retemp(w, t));
    LegalIgnoresTemp(w, Retemp(w, t), call);
    OneGrowIgnoresTemp(w.s, t, call.op.datum, call.room);
  }

  lemma OneGrowFastStepIgnoresTemp(w: World, t: int, call: Call)
    requires w.Sim() && Legal(w, call) && call.op.OneGrowFast?
    ensures IgnoresTemp(w, t, call)
  {
    hide AndNot, IsMask, M.WellChained, Layout, World.NoneEmptyHere, M.Append;
    SimIgnoresTemp(w, Retemp(w, t));
    LegalIgnoresTemp(w, Retemp(w, t), call);
    M.AppendIgnoresTemp(w.s, t, [call.op.datum]);
  }

  lemma BlankStepIgnoresTemp(w: World, t: int, call: Call)
    requires w.Sim() && Legal(w, call) && call.op.Blank?
    ensures IgnoresTemp(w, t, call)
  {
    hide AndNot, IsMask, M.WellChained, Layout, World.NoneEmptyHere, M.Blank;
    SimIgnoresTemp(w, Retemp(w, t));
    LegalIgnoresTemp(w, Retemp(w, t), call);
    BlankIgnoresTemp(w.s, t, call.op.n, call.room);
  }

  lemma BlankFastStepIgnoresTemp(w: World, t: int, call: Call)
    requires w.Sim() && Legal(w, call) && call.op.BlankFast?
    ensures IgnoresTemp(w, t, call)
  {
    hide AndNot, IsMask, M.WellChained, Layout, World.NoneEmptyHere;
    SimIgnoresTemp(w, Retemp(w, t));
    LegalIgnoresTemp(w, Retemp(w, t), call);
  }

  lemma AllocStepIgnoresTemp(w: World, t: int, call: Call)
    requires w.Sim() && Legal(w, call) && call.op.Alloc?
    ensures IgnoresTemp(w, t, call)
  {
    hide AndNot, IsMask, M.WellChained, Layout, World.NoneEmptyHere, M.Blank, M.Alloc, M.Carved.Holds,
      M.Chunk.Read, M.Provided, Resized, OneMore;
    SimIgnoresTemp(w, Retemp(w, t));
    LegalIgnoresTemp(w, Retemp(w, t), call);
    BlankIgnoresTemp(w.s, t, call.op.n, call.room);
    AllocIgnoresTemp(w.s, t, call.op.n, call.room);
  }

  lemma CopyStepIgnoresTemp(w: World, t: int, call: Call)
    requires w.Sim() && Legal(w, call) && call.op.Copy?
    ensures IgnoresTemp(w, t, call)
  {
    hide AndNot, IsMask, M.WellChained, Layout, World.NoneEmptyHere, M.Copy, M.Carved.Holds, M.Chunk.Read, M.Provided,
      OneMore;
    SimIgnoresTemp(w, Retemp(w, t));
    LegalIgnoresTemp(w, Retemp(w, t), call);
    CopyIgnoresTemp(w.s, t, call.op.bytes, call.room);
  }

  lemma Copy0StepIgnoresTemp(w: World, t: int, call: Call)
    requires w.Sim() && Legal(w, call) && call.op.Copy0?
    ensures IgnoresTemp(w, t, call)
  {
    hide AndNot, IsMask, M.WellChained, Layout, World.NoneEmptyHere, M.Copy0, M.Carved.Holds, M.Chunk.Read, M.Provided,
      OneMore;
    SimIgnoresTemp(w, Retemp(w, t));
    LegalIgnoresTemp(w, Retemp(w, t), call);
    Copy0IgnoresTemp(w.s, t, call.op.bytes, call.room);
  }

  lemma FinishStepIgnoresTemp(w: World, t: int, call: Call)
    requires w.Sim() && Legal(w, call) && call.op.Finish?
    ensures IgnoresTemp(w, t, call)
  {
    hide AndNot, IsMask, M.WellChained, Layout, World.NoneEmptyHere, M.Finish, M.Carved.Holds, M.Chunk.Read, M.Provided,
      OneMore;
    SimIgnoresTemp(w, Retemp(w, t));
    LegalIgnoresTemp(w, Retemp(w, t), call);
    FinishIgnoresTemp(w.s, t);
  }

  lemma FreeStepIgnoresTemp(w: World, t: int, call: Call)
    requires w.Sim() && Legal(w, call) && call.op.Free?
    ensures IgnoresTemp(w, t, call)
  {
    hide AndNot, IsMask, M.WellChained, Layout, World.NoneEmptyHere;
    SimIgnoresTemp(w, Retemp(w, t));
    LegalIgnoresTemp(w, Retemp(w, t), call);
    assert Retemp(w, t).Slots() == w.Slots();
    SimFree(w, call.op.i);
    SimFree(Retemp(w, t), call.op.i);
  }

  lemma StoreStepIgnoresTemp(w: World, t: int, call: Call)
    requires w.Sim() && Legal(w, call) && call.op.Store?
    ensures IgnoresTemp(w, t, call)
  {
    hide AndNot, IsMask, M.WellChained, Layout, World.NoneEmptyHere, Poke;
    SimIgnoresTemp(w, Retemp(w, t));
    LegalIgnoresTemp(w, Retemp(w, t), call);
    assert Retemp(w, t).Slots() == w.Slots();
    PokeIgnoresTemp(w.s, t, w.Slots()[call.op.i].addr + call.op.k, call.op.datum);
  }

  /** No macro of the GNU C family reads the scratch field. */
  lemma StepIgnoresTemp(w: World, t: int, call: Call)
    requires w.Sim() && Legal(w, call)
    ensures IgnoresTemp(w, t, call)
  {
    hide Step, Legal, World.Sim, IgnoresTemp;
    match call.op
    case MakeRoom(_) => MakeRoomStepIgnoresTemp(w, t, call);
    case Grow(_) => GrowStepIgnoresTemp(w, t, call);
    case Grow0(_) => Grow0StepIgnoresTemp(w, t, call);
    case OneGrow(_) => OneGrowStepIgnoresTemp(w, t, call);
    case OneGrowFast(_) => OneGrowFastStepIgnoresTemp(w, t, call);
    case Blank(_) => BlankStepIgnoresTemp(w, t, call);
    case BlankFast(_) => BlankFastStepIgnoresTemp(w, t, call);
    case Alloc(_) => AllocStepIgnoresTemp(w, t, call);
    case Copy(_) => CopyStepIgnoresTemp(w, t, call);
    case Copy0(_) => Copy0StepIgnoresTemp(w, t, call);
    case Finish => FinishStepIgnoresTemp(w, t, call);
    case Free(_) => FreeStepIgnoresTemp(w, t, call);
    case Store(_, _, _) => StoreStepIgnoresTemp(w, t, call);
  }

  // ----- Whole runs -----

  /** One call with the comma macros keeps obstack and model in step too. */
  function CommaStep(w: World, call: Call): (w': World)
    requires w.Sim() && Legal(w, call)
    ensures w'.Sim() && Alike(w', Step(w, call))
  {
    StepsAgree(w, call);
    SimIgnoresTemp(Step(w, call), CommaCall(w, call));
    CommaCall(w, call)
  }

  ghost predicate LegalCommaRun(w: World, calls: seq<Call>)
    requires w.Sim()
    decreases |calls|
  {
    calls == [] || (Legal(w, calls[0]) && LegalCommaRun(CommaStep(w, calls[0]), calls[1..]))
  }

  ghost function CommaRun(w: World, calls: seq<Call>): (w': World)
    requires w.Sim() && LegalCommaRun(w, calls)
    ensures w'.Sim()
    decreases |calls|
  {
    if calls == [] then w else CommaRun(CommaStep(w, calls[0]), calls[1..])
  }

  lemma StepsStayAlike(w: World, u: World, call: Call)
    requires w.Sim() && Legal(w, call) && Alike(w, u)
    ensures u.Sim() && Legal(u, call) && Alike(Step(w, call), CommaStep(u, call))
  {
    hide Step, CommaStep, Legal, World.Sim;
    assert u == Retemp(w, u.s.temp);
    StepIgnoresTemp(w, u.s.temp, call);
  }

  /** Both families go through every run alike: same returned addresses, same objects and bytes, same control
      block but for temp. */
  lemma {:induction false} FamiliesAgree(w: World, u: World, calls: seq<Call>)
    requires w.Sim() && LegalRun(w, calls) && Alike(w, u)
    ensures u.Sim() && LegalCommaRun(u, calls) && Alike(Run(w, calls), CommaRun(u, calls))
    ensures var v, v' := Run(w, calls), CommaRun(u, calls); v'.a == v.a && v'.s == v.s.(temp := v'.s.temp)
    decreases |calls|
  {
    hide Step, CommaStep, Legal, World.Sim;
    if calls == [] {
      SimIgnoresTemp(w, u);
    } else {
      StepsStayAlike(w, u, calls[0]);
      FamiliesAgree(Step(w, calls[0]), CommaStep(u, calls[0]), calls[1..]);
    }
  }
}
