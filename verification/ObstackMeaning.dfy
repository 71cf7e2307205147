/** What each call does, said of the objects, the memory and the flag, without the macros. */
module ObstackMeaning {
  import opened Alignment
  import opened ObstackModel
  import opened ObstackRuns
  import opened ObstackTheorems
  import M = ObstackMacros

  // ----- The objects -----

  /** What a call is for: which bytes grow, which become an object, which objects go. Unwritten bytes, those of a
      blank, are whatever they are. */
  lemma StepMeans(w: World, call: Call)
    requires w.Sim() && Legal(w, call)
    ensures var a, b := w.a, Step(w, call).a;
            match call.op
            case MakeRoom(_) => b == a
            case Grow(bytes) => b.objects == a.objects && b.growing == a.growing + bytes
            case Grow0(bytes) => b.objects == a.objects && b.growing == a.growing + bytes + [0]
            case OneGrow(datum) => b.objects == a.objects && b.growing == a.growing + [datum]
            case OneGrowFast(datum) => b.objects == a.objects && b.growing == a.growing + [datum]
            case Blank(n) =>
              && b.objects == a.objects && |b.growing| == |a.growing| + n
              && (a.growing <= b.growing || b.growing <= a.growing)
            case BlankFast(n) =>
              && b.objects == a.objects && |b.growing| == |a.growing| + n
              && (a.growing <= b.growing || b.growing <= a.growing)
            case Alloc(n) =>
              && OneMore(a, b) && |Newest(b)| == |a.growing| + n
              && (a.growing <= Newest(b) || Newest(b) <= a.growing)
            case Copy(bytes) => OneMore(a, b) && Newest(b) == a.growing + bytes
            case Copy0(bytes) => OneMore(a, b) && Newest(b) == a.growing + bytes + [0]
            case Finish => OneMore(a, b) && Newest(b) == a.growing
            case Free(i) => b.objects == a.objects[..i] && b.growing == []
            case Store(i, k, datum) =>
              if i == |a.objects| then b.objects == a.objects && b.growing == a.growing[k := datum]
              else && b.growing == a.growing && |b.objects| == |a.objects|
                   && b.objects[i] == a.objects[i].(bytes := a.objects[i].bytes[k := datum])
                   && forall j :: 0 <= j < |a.objects| && j != i ==> b.objects[j] == a.objects[j]
  {
    hide World.Sim, MadeRoom, Grown, Grown0, GrownByOne, GrownFast, Blanked, BlankedFast, FinishedNow, Allocated,
      Copied, Copied0, Unwound, Stored, M.Provided;
  }

  /** The bytes of an object are in memory where the object lies, and an object's address and bytes, once it is
      finished, are below object_base if it is in the current chunk. */
  lemma ObjectHeld(w: World, i: nat)
    requires w.Sim() && i < w.Count()
    ensures var o := w.a.objects[i];
            && o.home < |w.s.chunks|
            && var c := w.s.chunks[o.home];
            && c.Contents() <= o.addr && o.addr + |o.bytes| <= c.Limit()
            && c.data[o.addr - c.Contents()..o.addr - c.Contents() + |o.bytes|] == o.bytes
            && (o.home == |w.s.chunks| - 1 ==> o.addr + |o.bytes| <= w.s.objectBase)
  {
    hide AndNot, IsMask;
    assert w.Slots()[i] == w.a.objects[i];
    assert Placed(w.s.chunks, w.s.cfg, w.Slots(), i);
    Ordered(w.s.chunks, w.s.cfg, w.Slots(), i, w.Count());
  }

  // ----- The flag -----

  /** How many more bytes a call asks for in the current chunk. */
  function Asked(op: Op): int {
    match op
    case MakeRoom(n) => n
    case Grow(bytes) => |bytes|
    case Grow0(bytes) => |bytes| + 1
    case OneGrow(_) => 1
    case OneGrowFast(_) => 1
    case Blank(n) => n
    case BlankFast(n) => n
    case Alloc(n) => n
    case Copy(bytes) => |bytes|
    case Copy0(bytes) => |bytes| + 1
    case Finish => 0
    case Free(_) => 0
    case Store(_, _, _) => 0
  }

  predicate Finishes(op: Op) { op.Alloc? || op.Copy? || op.Copy0? || op.Finish? }

  /** The request fits the current chunk, so that no new one is needed. */
  predicate Fitting(w: World, op: Op) { w.s.nextFree + Asked(op) <= w.s.chunkLimit }

  /** Exactly when the flag is set after a call: it was before and the chunk is the same, or the call finished an
      empty object, or it freed a chunk. */
  lemma StepFlag(w: World, call: Call)
    requires w.Sim() && Legal(w, call)
    ensures var w' := Step(w, call);
            w'.s.maybeEmpty
            <==> || (w.s.maybeEmpty && Fitting(w, call.op))
                 || (Finishes(call.op) && w'.a.objects != [] && Newest(w'.a) == [])
                 || (call.op.Free? && |w'.s.chunks| < |w.s.chunks|)
  {
    hide AndNot, IsMask, M.WellChained, Layout, World.NoneEmptyHere;
    if call.op.Free? {
      FreeKeeps(w, call.op.i);
    } else if call.op.Store? {
      PokeChunks(w, call.op.i, call.op.k, call.op.datum);
    } else {
      hide World.Sim, Legal, Step, Fitting;
      if Finishes(call.op) { FlagOfCarved(w, call); } else { FlagOfGrowth(w, call); }
    }
  }

  lemma FlagOfGrowth(w: World, call: Call)
    requires w.Sim() && Legal(w, call) && !Finishes(call.op) && !call.op.Free? && !call.op.Store?
    ensures Step(w, call).s.maybeEmpty <==> w.s.maybeEmpty && Fitting(w, call.op)
  {
    hide AndNot, IsMask, M.WellChained, Layout, World.NoneEmptyHere, M.MakeRoom, M.Grow, M.Grow0, M.OneGrow,
      M.OneGrowFast, M.Blank, M.BlankFast, M.Alloc, M.Copy, M.Copy0, M.Finish, M.Provided;
  }

  lemma FlagOfCarved(w: World, call: Call)
    requires w.Sim() && Legal(w, call) && Finishes(call.op)
    ensures var w' := Step(w, call);
            && w'.a.objects != []
            && (w'.s.maybeEmpty <==> (w.s.maybeEmpty && Fitting(w, call.op)) || Newest(w'.a) == [])
  {
    GrowingHeld(w);
    hide AndNot, IsMask, M.WellChained, Layout, World.NoneEmptyHere, M.MakeRoom, M.Grow, M.Grow0, M.OneGrow,
      M.OneGrowFast, M.Blank, M.BlankFast, M.Alloc, M.Copy, M.Copy0, M.Finish, M.Provided, M.Carved.Holds,
      M.Obstack.Growing;
  }

  /** No call finishes an empty object, and no free lets a chunk go. */
  ghost predicate Careful(w: World, calls: seq<Call>)
    requires w.Sim() && LegalRun(w, calls)
    decreases |calls|
  {
    calls == []
    || var w' := Step(w, calls[0]);
       && (Finishes(calls[0].op) ==> w'.a.objects != [] && Newest(w'.a) != [])
       && (calls[0].op.Free? ==> |w'.s.chunks| == |w.s.chunks|)
       && Careful(w', calls[1..])
  }

  /** Over such a run a clear flag stays clear. */
  lemma {:induction false} FlagStaysClear(w: World, calls: seq<Call>)
    requires w.Sim() && LegalRun(w, calls) && Careful(w, calls) && !w.s.maybeEmpty
    ensures !Run(w, calls).s.maybeEmpty
    decreases |calls|
  {
    hide Step, World.Sim, Legal;
    if calls != [] {
      StepFlag(w, calls[0]);
      FlagStaysClear(Step(w, calls[0]), calls[1..]);
    }
  }

  /** So from a new obstack on, after such a run, a chunk change keeps the chunk that was current exactly if a live
      finished object is in it: none is kept without need. */
  lemma NoneKeptInVain(room: M.Chunk, cfg: M.Config, calls: seq<Call>, n: int, next: M.Chunk)
    requires IsMask(cfg.mask) && M.Start(room, cfg) <= room.Limit()
    requires LegalRun(Fresh(room, cfg), calls) && Careful(Fresh(room, cfg), calls)
    requires Run(Fresh(room, cfg), calls).s.Fits(next, n)
    ensures var w := Run(Fresh(room, cfg), calls);
            |M.NewChunk(w.s, n, next).chunks| == |w.s.chunks| + 1
            <==> exists i: nat :: i < w.Count() && w.a.objects[i].home == |w.s.chunks| - 1
  {
    hide AndNot, IsMask, World.Sim, Careful, LegalRun, Run, M.NewChunk, M.Obstack.Fits;
    FlagStaysClear(Fresh(room, cfg), calls);
    ChunkGivenUpIff(Run(Fresh(room, cfg), calls), n, next);
  }

  // ----- Chunks -----

  lemma CarvedStays(w: World, call: Call)
    requires w.Sim() && Legal(w, call) && Fitting(w, call.op) && Finishes(call.op)
    ensures var w' := Step(w, call);
            && |w'.s.chunks| == |w.s.chunks|
            && w'.a.objects != [] && w'.a.objects[|w'.a.objects| - 1].addr == w.s.objectBase
  {
    hide AndNot, IsMask, M.WellChained, Layout, World.NoneEmptyHere, M.MakeRoom, M.Grow, M.Grow0, M.OneGrow,
      M.OneGrowFast, M.Blank, M.BlankFast, M.Alloc, M.Copy, M.Copy0, M.Finish, M.Provided;
  }

  /** A call that fits the current chunk leaves the growing object, and the chunks, where they are; an object that is
      finished so lies where it grew. */
  lemma StepStays(w: World, call: Call)
    requires w.Sim() && Legal(w, call) && Fitting(w, call.op) && !call.op.Free?
    ensures var w' := Step(w, call);
            && |w'.s.chunks| == |w.s.chunks|
            && (if Finishes(call.op) then
                  w'.a.objects != [] && w'.a.objects[|w'.a.objects| - 1].addr == w.s.objectBase
                else w'.s.objectBase == w.s.objectBase)
  {
    hide AndNot, IsMask, M.WellChained, Layout, World.NoneEmptyHere, M.MakeRoom, M.Grow, M.Grow0, M.OneGrow,
      M.OneGrowFast, M.Blank, M.BlankFast, M.Alloc, M.Copy, M.Copy0, M.Finish, M.Provided;
    if Finishes(call.op) {
      hide World.Sim, Step, Legal, Fitting;
      CarvedStays(w, call);
    } else if call.op.Store? {
      PokeChunks(w, call.op.i, call.op.k, call.op.datum);
    }
  }
}
