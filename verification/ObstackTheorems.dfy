/** The promises of obstack.h, over every run. */
module ObstackTheorems {
  import opened Alignment
  import opened ObstackModel
  import opened ObstackRuns
  import M = ObstackMacros

  ghost predicate LegalRun(w: World, calls: seq<Call>)
    requires w.Sim()
    decreases |calls|
  {
    calls == [] || (Legal(w, calls[0]) && LegalRun(Step(w, calls[0]), calls[1..]))
  }

  /** However the calls and the allocator's answers fall, obstack and model stay in step. */
  ghost function Run(w: World, calls: seq<Call>): (w': World)
    requires w.Sim() && LegalRun(w, calls)
    ensures w'.Sim()
    decreases |calls|
  {
    if calls == [] then w else Run(Step(w, calls[0]), calls[1..])
  }

  /** A new obstack and a client that has nothing in it. */
  function Fresh(room: M.Chunk, cfg: M.Config): (w: World)
    requires IsMask(cfg.mask) && M.Start(room, cfg) <= room.Limit()
    ensures w.Sim()
  {
    SimBegin(room, cfg);
    World(M.Begin(room, cfg), Model([], []))
  }

  /** What some run of legal calls on a new obstack leads to. */
  ghost predicate Reachable(w: World) {
    exists room: M.Chunk, cfg: M.Config, calls: seq<Call> ::
      && IsMask(cfg.mask) && M.Start(room, cfg) <= room.Limit()
      && LegalRun(Fresh(room, cfg), calls) && w == Run(Fresh(room, cfg), calls)
  }

  /** The heap invariant, in every reachable state: obstack and model are in step, the growing object holds the bytes
      the model says and lies between the chunk's aligned start and its limit, and every object is inside a live
      chunk, apart from all others, and aligned unless it is empty at its chunk's limit. */
  lemma EveryReachable(w: World)
    requires Reachable(w)
    ensures w.Sim() && w.s.Growing() == w.a.growing
    ensures M.Start(w.s.Current(), w.s.cfg) <= w.s.objectBase <= w.s.nextFree <= w.s.chunkLimit
    ensures forall i: nat :: i <= w.Count() ==>
              var o := w.Slots()[i];
              && o.home < |w.s.chunks|
              && Inside(w.s.chunks[o.home], o)
              && (Aligned(Origin(w.s.chunks[o.home], w.s.cfg), o.addr, w.s.cfg.mask)
                  || (o.bytes == [] && o.addr == w.s.chunks[o.home].Limit()))
    ensures forall i: nat, j: nat :: i < j <= w.Count() ==>
              w.Slots()[i].End() <= w.Slots()[j].addr || w.Slots()[j].End() <= w.Slots()[i].addr
  {
    GrowingHeld(w);
    hide AndNot, IsMask, Reachable;
    forall i: nat | i <= w.Count()
      ensures var o := w.Slots()[i];
              && o.home < |w.s.chunks|
              && Inside(w.s.chunks[o.home], o)
              && (Aligned(Origin(w.s.chunks[o.home], w.s.cfg), o.addr, w.s.cfg.mask)
                  || (o.bytes == [] && o.addr == w.s.chunks[o.home].Limit()))
    {
      assert Placed(w.s.chunks, w.s.cfg, w.Slots(), i);
      ObjectsAligned(w, i);
    }
    forall i: nat, j: nat | i < j <= w.Count()
      ensures w.Slots()[i].End() <= w.Slots()[j].addr || w.Slots()[j].End() <= w.Slots()[i].addr
    {
      ObjectsDisjoint(w, i, j);
    }
  }

  // ----- Finished objects stay where they are -----

  /** No call frees object i or stores into it. */
  predicate Spares(calls: seq<Call>, i: nat) {
    forall k :: 0 <= k < |calls| ==> SparesOp(calls[k].op, i)
  }

  predicate SparesOp(op: Op, i: nat) {
    (op.Free? ==> i < op.i) && (op.Store? ==> op.i != i)
  }

  lemma StepSpares(w: World, call: Call, i: nat)
    requires w.Sim() && Legal(w, call) && i < w.Count() && SparesOp(call.op, i)
    ensures var w' := Step(w, call); i < w'.Count() && w'.a.objects[i] == w.a.objects[i]
  {
    hide World.Sim, MadeRoom, Grown, Grown0, GrownByOne, GrownFast, Blanked, BlankedFast, FinishedNow, Allocated,
      Copied, Copied0, Unwound, Stored, M.Provided;
  }

  /** Whatever grows, finishes, changes chunk or is freed above it, a finished object keeps its address and bytes. */
  lemma {:induction false} NeverMoves(w: World, calls: seq<Call>, i: nat)
    requires w.Sim() && LegalRun(w, calls) && i < w.Count() && Spares(calls, i)
    ensures var w', o := Run(w, calls), w.a.objects[i];
            && i < w'.Count() && w'.a.objects[i] == o
            && o.home < |w'.s.chunks|
            && Inside(w'.s.chunks[o.home], o)
    decreases |calls|
  {
    if calls == [] {
      assert Placed(w.s.chunks, w.s.cfg, w.Slots(), i);
    } else {
      StepSpares(w, calls[0], i);
      NeverMoves(Step(w, calls[0]), calls[1..], i);
    }
  }

  // ----- Unwinding -----

  /** Work done above a stack of objects is undone by freeing the first object it finished: what is left is that
      stack, with its addresses and bytes, under an empty growing object. */
  lemma Unwinds(w: World, calls: seq<Call>)
    requires w.Sim() && LegalRun(w, calls)
    requires forall i: nat :: i < w.Count() ==> Spares(calls, i)
    ensures var w' := Run(w, calls);
            && w.Count() <= w'.Count()
            && Unwound(w', w.Count()).a == Model(w.a.objects, [])
            && var s := Unwound(w', w.Count()).s; Layout(s.chunks, s.cfg, w.a.objects)
  {
    hide AndNot, IsMask, Step, Unwound, Layout;
    var w', n := Run(w, calls), w.Count();
    if n > 0 { NeverMoves(w, calls, n - 1); }
    forall i: nat | i < n ensures w'.a.objects[i] == w.a.objects[i] {
      NeverMoves(w, calls, i);
    }
    assert w'.a.objects[..n] == w.a.objects;
    GrowingHeld(Unwound(w', n));
  }

  // ----- The heap invariant -----

  /** No two live objects share a byte, the growing one included. */
  lemma ObjectsDisjoint(w: World, i: nat, j: nat)
    requires w.Sim() && i <= w.Count() && j <= w.Count() && i != j
    ensures w.Slots()[i].End() <= w.Slots()[j].addr || w.Slots()[j].End() <= w.Slots()[i].addr
  {
    hide AndNot, IsMask;
    var o, u := w.Slots()[i], w.Slots()[j];
    assert Placed(w.s.chunks, w.s.cfg, w.Slots(), i) && Placed(w.s.chunks, w.s.cfg, w.Slots(), j);
    if o.home == u.home {
      ObjectsApart(w, i, j);
    } else {
      assert M.Disjoint(w.s.chunks[o.home], w.s.chunks[u.home]) || M.Disjoint(w.s.chunks[u.home], w.s.chunks[o.home]);
    }
  }

  /** The point alignment is measured from: the chunk if pointer differences are narrow, else address 0. */
  function Origin(c: M.Chunk, cfg: M.Config): nat {
    if cfg.narrow then c.addr else 0
  }

  /** Every object is aligned, unless the clamp put it, empty, at the very end of its chunk. */
  lemma {:induction false} ObjectsAligned(w: World, i: nat)
    requires w.Sim() && i <= w.Count()
    ensures var o := w.Slots()[i];
            && o.home < |w.s.chunks|
            && var c := w.s.chunks[o.home];
            && (Aligned(Origin(c, w.s.cfg), o.addr, w.s.cfg.mask) || o.addr == c.Limit())
            && (o.bytes != [] ==> Aligned(Origin(c, w.s.cfg), o.addr, w.s.cfg.mask))
  {
    hide AndNot, IsMask;
    var slots, cfg := w.Slots(), w.s.cfg;
    assert Placed(w.s.chunks, cfg, slots, i);
    var o, c := slots[i], w.s.chunks[slots[i].home];
    if i == 0 || slots[i - 1].home < o.home {
      M.StartOfChunk(c, cfg);
    } else {
      ObjectsAligned(w, i - 1);
      assert Placed(w.s.chunks, cfg, slots, i - 1);
      var p := slots[i - 1];
      BptrAlignIsLeast(if cfg.narrow then p.addr else 0, p.End(), cfg.mask);
      if cfg.narrow && o.addr < c.Limit() {
        MultipleSum(p.addr - c.addr, o.addr - p.addr, cfg.mask + 1);
      }
    }
  }

  /** Bytes plus one mask for each object of chunk h. */
  function Footprint(slots: seq<Object>, h: nat, mask: nat): nat {
    if slots == [] then 0
    else
      var o := slots[|slots| - 1];
      Footprint(slots[..|slots| - 1], h, mask) + if o.home == h then |o.bytes| + mask else 0
  }

  /** Alignment wastes at most `mask` bytes an object: a chunk's objects use no more than their footprint. */
  lemma {:induction false} WasteBounded(w: World, i: nat)
    requires w.Sim() && i <= w.Count()
    ensures var o := w.Slots()[i];
            && o.home < |w.s.chunks|
            && o.addr - M.Start(w.s.chunks[o.home], w.s.cfg) <= Footprint(w.Slots()[..i], o.home, w.s.cfg.mask)
  {
    hide AndNot, IsMask;
    var slots, cfg := w.Slots(), w.s.cfg;
    assert Placed(w.s.chunks, cfg, slots, i);
    if i > 0 && slots[i - 1].home == slots[i].home {
      WasteBounded(w, i - 1);
      assert Placed(w.s.chunks, cfg, slots, i - 1);
      var p := slots[i - 1];
      M.NextBaseBounds(cfg, p.addr, p.End(), w.s.chunks[p.home].Limit());
      assert slots[..i][..i - 1] == slots[..i - 1];
    }
  }

  // ----- obstack_empty_p -----

  lemma NextBaseOfStart(c: M.Chunk, cfg: M.Config)
    requires IsMask(cfg.mask) && 0 <= M.Start(c, cfg) <= c.Limit()
    ensures M.NextBase(cfg, M.Start(c, cfg), M.Start(c, cfg), c.Limit()) == M.Start(c, cfg)
  {
    var start, b := M.Start(c, cfg), if cfg.narrow then M.Start(c, cfg) else 0;
    M.StartOfChunk(c, cfg);
    BptrAlignIsLeast(b, start, cfg.mask);
    assert Aligned(b, start, cfg.mask);
  }

  lemma {:induction false} EmptiesStayAtStart(w: World, i: nat)
    requires w.Sim() && i <= w.Count() && |w.s.chunks| == 1
    requires forall j: nat :: j < i ==> w.Slots()[j].bytes == []
    ensures w.Slots()[i].addr == M.Start(w.s.chunks[0], w.s.cfg)
  {
    hide AndNot, IsMask;
    assert Placed(w.s.chunks, w.s.cfg, w.Slots(), i);
    if i > 0 {
      assert Placed(w.s.chunks, w.s.cfg, w.Slots(), i - 1);
      EmptiesStayAtStart(w, i - 1);
      NextBaseOfStart(w.s.chunks[0], w.s.cfg);
    }
  }

  /** obstack_empty_p holds exactly when a single chunk is left, nothing grows and every live object is empty. */
  lemma EmptyTest(w: World)
    requires w.Sim()
    ensures M.EmptyP(w.s) <==>
              && |w.s.chunks| == 1
              && w.a.growing == []
              && forall i: nat :: i < w.Count() ==> w.a.objects[i].bytes == []
  {
    hide AndNot, IsMask;
    if M.EmptyP(w.s) {
      forall i: nat | i < w.Count() ensures w.a.objects[i].bytes == [] {
        assert w.Slots()[i] == w.a.objects[i];
        Ordered(w.s.chunks, w.s.cfg, w.Slots(), i, w.Count());
        AfterStart(w.s.chunks, w.s.cfg, w.Slots(), i);
        assert Placed(w.s.chunks, w.s.cfg, w.Slots(), i);
      }
    } else if |w.s.chunks| == 1 && forall i: nat :: i < w.Count() ==> w.a.objects[i].bytes == [] {
      EmptiesStayAtStart(w, w.Count());
    }
  }

  // ----- __obstack_free on any address -----

  /** The obstack survives a free exactly when the address lies in, or at the end of, one of its chunks. */
  lemma FreeSurvives(s: M.Obstack, obj: nat)
    requires s.Valid()
    ensures M.Free(s, obj).Unwound?
            <==> exists h: nat :: h < |s.chunks| && s.chunks[h].addr < obj <= s.chunks[h].Limit()
    ensures M.Free(s, obj).Released? <==> obj == 0
  {
    FastFreeIsWalk(s, obj);
    hide AndNot, IsMask, M.WellChained, M.Free;
    var k := M.Walk(s.chunks, obj);
    if k > 0 {
      assert s.chunks[k - 1].Covers(obj);
    }
    if h: nat :| h < |s.chunks| && s.chunks[h].addr < obj <= s.chunks[h].Limit() {
      assert s.chunks[h].Covers(obj);
    }
  }

  /** Then that chunk and its elders stay, what lies at the address grows anew from nothing, and the flag is set if a
      chunk went. */
  lemma FreeLandsIn(s: M.Obstack, obj: nat, h: nat)
    requires s.Valid() && h < |s.chunks| && s.chunks[h].addr < obj <= s.chunks[h].Limit()
    ensures M.Free(s, obj)
            == M.Unwound(s.(chunks := s.chunks[..h + 1], objectBase := obj, nextFree := obj,
                            chunkLimit := s.chunks[h].Limit(), maybeEmpty := s.maybeEmpty || h + 1 < |s.chunks|))
  {
    FastFreeIsWalk(s, obj);
    WalkFinds(s, h, obj);
    hide AndNot, IsMask, M.WellChained, M.Free, M.Walk;
  }

  // ----- Growth -----

  /** n calls of the fast macro. */
  function FastAll(s: M.Obstack, bytes: seq<byte>): M.Obstack
    requires s.Valid() && s.nextFree + |bytes| <= s.chunkLimit
    decreases |bytes|
  {
    if bytes == [] then s else FastAll(M.OneGrowFast(s, bytes[0]), bytes[1..])
  }

  lemma WriteTwice(c: M.Chunk, p: nat, b1: seq<byte>, b2: seq<byte>)
    requires c.Contents() <= p && p + |b1| + |b2| <= c.Limit()
    ensures c.Write(p, b1).Write(p + |b1|, b2) == c.Write(p, b1 + b2)
  {
    var o := p - c.Contents();
    var d := c.data[..o] + b1 + c.data[o + |b1|..];
    assert d[..o + |b1|] == c.data[..o] + b1;
    assert d[o + |b1| + |b2|..] == c.data[o + |b1| + |b2|..];
  }

  lemma AppendTwice(s: M.Obstack, b1: seq<byte>, b2: seq<byte>)
    requires s.Valid() && s.nextFree + |b1| + |b2| <= s.chunkLimit
    ensures M.Append(M.Append(s, b1), b2) == M.Append(s, b1 + b2)
  {
    hide AndNot, IsMask;
    WriteTwice(s.Current(), s.nextFree, b1, b2);
  }

  lemma AppendNothing(s: M.Obstack)
    requires s.Valid()
    ensures M.Append(s, []) == s
  {
    assert s.Current().Write(s.nextFree, []) == s.Current();
  }

  lemma {:induction false} FastAllAppends(s: M.Obstack, bytes: seq<byte>)
    requires s.Valid() && s.nextFree + |bytes| <= s.chunkLimit
    ensures FastAll(s, bytes) == M.Append(s, bytes)
    decreases |bytes|
  {
    hide AndNot, IsMask, M.WellChained, M.Memcpy;
    if bytes == [] {
      AppendNothing(s);
    } else {
      FastAllAppends(M.OneGrowFast(s, bytes[0]), bytes[1..]);
      AppendTwice(s, [bytes[0]], bytes[1..]);
      assert [bytes[0]] + bytes[1..] == bytes;
    }
  }

  /** make_room for n bytes, then n fast growths: the very state one obstack_grow of those bytes reaches. */
  lemma MakeRoomThenFast(s: M.Obstack, bytes: seq<byte>, room: M.Chunk)
    requires s.Valid() && M.Provided(s, |bytes|, room)
    ensures FastAll(M.MakeRoom(s, |bytes|, room), bytes) == M.Grow(s, bytes, room)
  {
    FastAllAppends(M.MakeRoom(s, |bytes|, room), bytes);
  }

  /** The bytes a call appends, for the calls that only append. */
  function Appended(op: Op): seq<byte> {
    match op
    case Grow(bytes) => bytes
    case Grow0(bytes) => bytes + [0]
    case OneGrow(datum) => [datum]
    case OneGrowFast(datum) => [datum]
    case _ => []
  }

  predicate Appends(op: Op) {
    op.MakeRoom? || op.Grow? || op.Grow0? || op.OneGrow? || op.OneGrowFast?
  }

  function AllAppended(calls: seq<Call>): seq<byte> {
    if calls == [] then [] else Appended(calls[0].op) + AllAppended(calls[1..])
  }

  lemma StepAppends(w: World, call: Call)
    requires w.Sim() && Legal(w, call) && Appends(call.op)
    ensures Step(w, call).a == w.a.Append(Appended(call.op))
  {
    hide World.Sim, MadeRoom, Grown, Grown0, GrownByOne, GrownFast, Blanked, BlankedFast, FinishedNow, Allocated,
      Copied, Copied0, Unwound, Stored, M.Provided;
  }

  /** A run of appending calls adds exactly the bytes given, wherever chunk changes fall. */
  lemma {:induction false} GrowthAddsUp(w: World, calls: seq<Call>)
    requires w.Sim() && LegalRun(w, calls)
    requires forall k :: 0 <= k < |calls| ==> Appends(calls[k].op)
    ensures Run(w, calls).a == w.a.Append(AllAppended(calls))
    decreases |calls|
  {
    hide AndNot, IsMask, Step, World.Sim;
    if calls != [] {
      StepAppends(w, calls[0]);
      GrowthAddsUp(Step(w, calls[0]), calls[1..]);
    }
  }

  /** However a byte string is cut into pieces, and whatever chunks the allocator gives, the same object results
      and the same objects stay below it. */
  lemma PiecesDoNotMatter(w: World, calls1: seq<Call>, calls2: seq<Call>)
    requires w.Sim() && LegalRun(w, calls1) && LegalRun(w, calls2)
    requires forall k :: 0 <= k < |calls1| ==> Appends(calls1[k].op)
    requires forall k :: 0 <= k < |calls2| ==> Appends(calls2[k].op)
    requires AllAppended(calls1) == AllAppended(calls2)
    ensures Run(w, calls1).a == Run(w, calls2).a
    ensures Run(w, calls1).s.Growing() == Run(w, calls2).s.Growing() == w.s.Growing() + AllAppended(calls1)
  {
    GrowthAddsUp(w, calls1);
    GrowthAddsUp(w, calls2);
    GrowingHeld(w);
    GrowingHeld(Run(w, calls1));
    GrowingHeld(Run(w, calls2));
  }
}
