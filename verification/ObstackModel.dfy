/** What an obstack is for: a stack of finished byte strings under one growing byte string. */
module ObstackModel {
  import opened Alignment
  import M = ObstackMacros

  type byte = M.byte

  /** An object: the chunk it lies in (counted from the oldest), its address and its bytes. */
  datatype Object = Object(home: nat, addr: nat, bytes: seq<byte>) {
    function End(): nat { addr + |bytes| }
  }

  datatype Model = Model(objects: seq<Object>, growing: seq<byte>) {
    /** Bytes of the i-th object; the growing object comes after the finished ones. */
    function Bytes(i: nat): seq<byte>
      requires i <= |objects|
    {
      if i < |objects| then objects[i].bytes else growing
    }

    function Append(bytes: seq<byte>): Model {
      this.(growing := growing + bytes)
    }

    /** n more bytes, whose values are whatever `found` has there, or -n fewer. */
    function Resize(n: int, found: seq<byte>): Model
      requires 0 <= |growing| + n == |found|
    {
      this.(growing := if n < 0 then growing[..|growing| + n] else growing + found[|growing|..])
    }

    /** The growing object is finished at an address and a new, empty one begins. */
    function Carve(home: nat, addr: nat): Model {
      Model(objects + [Object(home, addr, growing)], [])
    }

    /** Object i and everything younger is gone. */
    function Unwind(i: nat): Model
      requires i <= |objects|
    {
      Model(objects[..i], [])
    }

    function Store(i: nat, k: nat, datum: byte): Model
      requires i <= |objects| && k < |Bytes(i)|
    {
      if i < |objects| then this.(objects := objects[i := objects[i].(bytes := objects[i].bytes[k := datum])])
      else this.(growing := growing[k := datum])
    }
  }

  // ----- Where objects lie -----

  /** The object is within its chunk, and its bytes are there. */
  ghost predicate Inside(c: M.Chunk, o: Object) {
    c.Contents() <= o.addr && o.End() <= c.Limit() && c.Read(o.addr, |o.bytes|) == o.bytes
  }

  /** Object i starts where its predecessor, or the start of its chunk, puts it. */
  ghost predicate Placed(chunks: seq<M.Chunk>, cfg: M.Config, slots: seq<Object>, i: nat)
    requires i < |slots|
  {
    var o := slots[i];
    && o.home < |chunks|
    && Inside(chunks[o.home], o)
    && if i == 0 || slots[i - 1].home < o.home then o.addr == M.Start(chunks[o.home], cfg)
       else slots[i - 1].home == o.home
            && o.addr == M.NextBase(cfg, slots[i - 1].addr, slots[i - 1].End(), chunks[o.home].Limit())
  }

  ghost predicate Layout(chunks: seq<M.Chunk>, cfg: M.Config, slots: seq<Object>) {
    forall i: nat :: i < |slots| ==> Placed(chunks, cfg, slots, i)
  }

  /** Objects of one chunk lie in order and without overlap; chunks hold younger objects than their elders. */
  lemma {:induction false} Ordered(chunks: seq<M.Chunk>, cfg: M.Config, slots: seq<Object>, i: nat, j: nat)
    requires IsMask(cfg.mask) && Layout(chunks, cfg, slots) && i < j < |slots|
    ensures slots[i].home <= slots[j].home
    ensures slots[i].home == slots[j].home ==> slots[i].End() <= slots[j].addr
  {
    assert Placed(chunks, cfg, slots, j) && Placed(chunks, cfg, slots, j - 1);
    if slots[j - 1].home == slots[j].home {
      M.NextBaseBounds(cfg, slots[j - 1].addr, slots[j - 1].End(), chunks[slots[j].home].Limit());
    }
    if i < j - 1 {
      Ordered(chunks, cfg, slots, i, j - 1);
    }
  }

  lemma {:induction false} AfterStart(chunks: seq<M.Chunk>, cfg: M.Config, slots: seq<Object>, i: nat)
    requires IsMask(cfg.mask) && Layout(chunks, cfg, slots) && i < |slots|
    ensures slots[i].home < |chunks| && M.Start(chunks[slots[i].home], cfg) <= slots[i].addr
  {
    hide AndNot, IsMask;
    assert Placed(chunks, cfg, slots, i);
    if i > 0 && slots[i - 1].home == slots[i].home {
      assert Placed(chunks, cfg, slots, i - 1);
      AfterStart(chunks, cfg, slots, i - 1);
      M.NextBaseBounds(cfg, slots[i - 1].addr, slots[i - 1].End(), chunks[slots[i].home].Limit());
    }
  }

  lemma LayoutTake(chunks: seq<M.Chunk>, cfg: M.Config, slots: seq<Object>, k: nat)
    requires Layout(chunks, cfg, slots) && k <= |slots|
    ensures Layout(chunks, cfg, slots[..k])
  {
    forall i: nat | i < k ensures Placed(chunks, cfg, slots[..k], i) {
      assert Placed(chunks, cfg, slots, i);
    }
  }

  /** Chunk c' may take the place of chunk c under object o. */
  ghost predicate Serves(c: M.Chunk, c': M.Chunk, o: Object) {
    c'.addr == c.addr && c'.Limit() == c.Limit() && Inside(c', o)
  }

  lemma LayoutMove(chunks: seq<M.Chunk>, chunks': seq<M.Chunk>, cfg: M.Config, slots: seq<Object>)
    requires Layout(chunks, cfg, slots)
    requires forall i: nat :: i < |slots| ==>
               && slots[i].home < |chunks| && slots[i].home < |chunks'|
               && Serves(chunks[slots[i].home], chunks'[slots[i].home], slots[i])
    ensures Layout(chunks', cfg, slots)
  {
    forall i: nat | i < |slots| ensures Placed(chunks', cfg, slots, i) {
      assert Placed(chunks, cfg, slots, i);
    }
  }

  lemma LayoutPush(chunks: seq<M.Chunk>, cfg: M.Config, slots: seq<Object>, o: Object)
    requires Layout(chunks, cfg, slots) && Placed(chunks, cfg, slots + [o], |slots|)
    ensures Layout(chunks, cfg, slots + [o])
  {
    forall i: nat | i < |slots| ensures Placed(chunks, cfg, slots + [o], i) {
      assert Placed(chunks, cfg, slots, i);
    }
  }

  // ----- The simulation relation -----

  /** An obstack together with the model its client has in mind. */
  datatype World = World(s: M.Obstack, a: Model) {
    function Count(): nat { |a.objects| }

    /** The finished objects, then the growing one. */
    function Slots(): (r: seq<Object>)
      requires s.chunks != []
      ensures |r| == Count() + 1
    {
      a.objects + [Object(|s.chunks| - 1, s.objectBase, a.growing)]
    }

    ghost predicate Sim() {
      && s.Valid()
      && s.nextFree == s.objectBase + |a.growing|
      && Layout(s.chunks, s.cfg, Slots())
      && (!s.maybeEmpty ==> NoneEmptyHere())
    }

    /** What a clear maybe_empty_object promises: no zero-length object in the current chunk. */
    ghost predicate NoneEmptyHere() {
      forall i: nat :: i < Count() && a.objects[i].home == |s.chunks| - 1 ==> a.objects[i].bytes != []
    }
  }

  /** The model's growing bytes are the ones between object_base and next_free. */
  lemma GrowingHeld(w: World)
    requires w.Sim()
    ensures w.s.Growing() == w.a.growing
    ensures w.Slots()[..w.Count()] == w.a.objects
    ensures Layout(w.s.chunks, w.s.cfg, w.a.objects)
  {
    assert Placed(w.s.chunks, w.s.cfg, w.Slots(), w.Count());
    LayoutTake(w.s.chunks, w.s.cfg, w.Slots(), w.Count());
    assert w.Slots()[..w.Count()] == w.a.objects;
  }

  /** If the flag is clear and the growing object is at the start of its chunk, no finished object, not even an
      empty one, lives in that chunk. */
  lemma FlagSound(w: World, i: nat)
    requires w.Sim() && M.Alone(w.s) && i < w.Count()
    ensures w.a.objects[i].home < |w.s.chunks| - 1
  {
    Ordered(w.s.chunks, w.s.cfg, w.Slots(), i, w.Count());
    AfterStart(w.s.chunks, w.s.cfg, w.Slots(), i);
    assert w.Slots()[i] == w.a.objects[i];
  }

  /** With the flag clear, a chunk change replaces the current chunk exactly when no live finished object is in it. */
  lemma ReplacedIff(w: World)
    requires w.Sim() && !w.s.maybeEmpty
    ensures M.Alone(w.s) <==> forall i: nat :: i < w.Count() ==> w.a.objects[i].home != |w.s.chunks| - 1
  {
    hide AndNot, IsMask;
    if M.Alone(w.s) {
      forall i: nat | i < w.Count() ensures w.a.objects[i].home != |w.s.chunks| - 1 {
        FlagSound(w, i);
      }
    } else {
      var n := w.Count();
      assert Placed(w.s.chunks, w.s.cfg, w.Slots(), n);
      if n > 0 {
        assert w.Slots()[n - 1] == w.a.objects[n - 1];
      }
    }
  }

  lemma SimBegin(room: M.Chunk, cfg: M.Config)
    requires IsMask(cfg.mask) && M.Start(room, cfg) <= room.Limit()
    ensures World(M.Begin(room, cfg), Model([], [])).Sim()
  {
    var w := World(M.Begin(room, cfg), Model([], []));
    assert Placed(w.s.chunks, cfg, w.Slots(), 0);
  }

  /** A chunk change adds the chunk of the allocator after the others, with the flag clear. The chunk that was current
      goes if and only if the flag is clear and no live finished object is in it; all others stay as they are. */
  lemma ChunkGivenUpIff(w: World, n: int, room: M.Chunk)
    requires w.Sim() && w.s.Fits(room, n)
    ensures var r := M.NewChunk(w.s, n, room);
            var kept := |r.chunks| - 1;
            && |w.s.chunks| - 1 <= kept <= |w.s.chunks| && r.chunks[..kept] == w.s.chunks[..kept]
            && (kept == |w.s.chunks| - 1
                <==> !w.s.maybeEmpty && forall i: nat :: i < w.Count() ==> w.a.objects[i].home != |w.s.chunks| - 1)
            && !r.maybeEmpty
            && r.chunks[kept].addr == room.addr && r.chunks[kept].Limit() == room.Limit() == r.chunkLimit
  {
    hide AndNot, IsMask, M.WellChained, Layout, World.NoneEmptyHere;
    if !w.s.maybeEmpty {
      ReplacedIff(w);
    }
  }

  /** A chunk change leaves every finished object in a chunk that stays, below the new one. */
  lemma NewChunkKeepsHomes(w: World, n: int, room: M.Chunk, i: nat)
    requires w.Sim() && w.s.Fits(room, n) && i < w.Count()
    ensures w.a.objects[i].home < |M.NewChunk(w.s, n, room).chunks| - 1
  {
    if M.Alone(w.s) {
      FlagSound(w, i);
    } else {
      assert Placed(w.s.chunks, w.s.cfg, w.Slots(), i);
    }
  }

  lemma SimNewChunk(w: World, n: int, room: M.Chunk)
    requires w.Sim() && w.s.Fits(room, n)
    ensures w.(s := M.NewChunk(w.s, n, room)).Sim()
  {
    var w' := w.(s := M.NewChunk(w.s, n, room));
    GrowingHeld(w);
    forall i: nat | i < w.Count()
      ensures w.a.objects[i].home < |w'.s.chunks| - 1
      ensures Serves(w.s.chunks[w.a.objects[i].home], w'.s.chunks[w.a.objects[i].home], w.a.objects[i])
    {
      NewChunkKeepsHomes(w, n, room, i);
      assert Placed(w.s.chunks, w.s.cfg, w.a.objects, i);
    }
    LayoutMove(w.s.chunks, w'.s.chunks, w.s.cfg, w.a.objects);
    LayoutPush(w'.s.chunks, w.s.cfg, w.a.objects, w'.Slots()[w.Count()]);
  }

  /** Bytes stored at next_free are above every finished object of the chunk. */
  lemma AppendServes(w: World, bytes: seq<byte>, i: nat)
    requires w.Sim() && w.s.nextFree + |bytes| <= w.s.chunkLimit && i < w.Count()
    ensures var o := w.a.objects[i];
            o.home < |w.s.chunks| && Serves(w.s.chunks[o.home], M.Append(w.s, bytes).chunks[o.home], o)
  {
    hide AndNot, IsMask;
    var o := w.a.objects[i];
    assert w.Slots()[i] == o;
    assert Placed(w.s.chunks, w.s.cfg, w.Slots(), i);
    if o.home == |w.s.chunks| - 1 {
      Ordered(w.s.chunks, w.s.cfg, w.Slots(), i, w.Count());
      w.s.Current().WriteElsewhere(w.s.nextFree, bytes, o.addr, |o.bytes|);
    }
  }

  lemma SimAppend(w: World, bytes: seq<byte>)
    requires w.Sim() && w.s.nextFree + |bytes| <= w.s.chunkLimit
    ensures World(M.Append(w.s, bytes), w.a.Append(bytes)).Sim()
  {
    hide AndNot, IsMask;
    var w' := World(M.Append(w.s, bytes), w.a.Append(bytes));
    GrowingHeld(w);
    forall i: nat | i < w.Count()
      ensures w.a.objects[i].home < |w.s.chunks|
      ensures Serves(w.s.chunks[w.a.objects[i].home], w'.s.chunks[w.a.objects[i].home], w.a.objects[i])
    {
      AppendServes(w, bytes, i);
    }
    LayoutMove(w.s.chunks, w'.s.chunks, w.s.cfg, w.a.objects);
    assert Placed(w.s.chunks, w.s.cfg, w.Slots(), w.Count());
    assert Inside(w'.s.Current(), w'.Slots()[w.Count()]);
    LayoutPush(w'.s.chunks, w.s.cfg, w.a.objects, w'.Slots()[w.Count()]);
  }

  lemma SimBlankFast(w: World, n: int)
    requires w.Sim() && w.s.objectBase <= w.s.nextFree + n <= w.s.chunkLimit
    ensures var s' := M.BlankFast(w.s, n);
            |s'.Growing()| == |w.a.growing| + n && World(s', w.a.Resize(n, s'.Growing())).Sim()
  {
    hide AndNot, IsMask;
    GrowingHeld(w);
    var s' := M.BlankFast(w.s, n);
    var w' := World(s', w.a.Resize(n, s'.Growing()));
    assert s'.Growing() == w'.a.growing;
    assert Placed(w.s.chunks, w.s.cfg, w.Slots(), w.Count());
    LayoutPush(w.s.chunks, w.s.cfg, w.a.objects, w'.Slots()[w.Count()]);
  }

  lemma SimFinish(w: World)
    requires w.Sim()
    ensures var r := M.Finish(w.s);
            0 <= r.value && World(r.s, w.a.Carve(|w.s.chunks| - 1, r.value)).Sim()
  {
    hide AndNot, IsMask;
    var r := M.Finish(w.s);
    var w' := World(r.s, w.a.Carve(|w.s.chunks| - 1, r.value));
    M.NextBaseBounds(w.s.cfg, w.s.objectBase, w.s.nextFree, w.s.chunkLimit);
    assert w'.a.objects == w.Slots();
    assert Placed(w.s.chunks, w.s.cfg, w.Slots(), w.Count());
    LayoutPush(w.s.chunks, w.s.cfg, w.Slots(), w'.Slots()[w'.Count()]);
  }

  /** Two chunks of one chain never cover the same address. */
  lemma OneCovers(chunks: seq<M.Chunk>, cfg: M.Config, i: nat, j: nat, p: nat)
    requires M.WellChained(chunks, cfg)
    requires i <= j < |chunks| && chunks[i].Covers(p) && chunks[j].Covers(p)
    ensures i == j
  {
    assert M.Disjoint(chunks[i], chunks[j]) || i == j;
  }

  /** The walk stops at the one chunk that covers a given address, if there is one. */
  lemma WalkFinds(s: M.Obstack, h: nat, p: nat)
    requires s.Valid() && h < |s.chunks| && s.chunks[h].Covers(p)
    ensures M.Walk(s.chunks, p) == h + 1
  {
    OneCovers(s.chunks, s.cfg, h, M.Walk(s.chunks, p) - 1, p);
  }

  /** The fast branch of the macro does what the walk would have done. */
  lemma FastFreeIsWalk(s: M.Obstack, obj: nat)
    requires s.Valid()
    ensures M.Free(s, obj) == M.FreeChunks(s, obj)
  {
    if s.Current().addr < obj < s.chunkLimit {
      assert s.chunks[..|s.chunks|] == s.chunks;
    }
  }

  /** Freeing object i leaves exactly the chunks up to the one it lies in. */
  lemma FreeKeeps(w: World, i: nat)
    requires w.Sim() && i <= w.Count()
    ensures var o, r := w.Slots()[i], M.Free(w.s, w.Slots()[i].addr);
            && o.home < |w.s.chunks|
            && r.Unwound?
            && r.s.chunks == w.s.chunks[..o.home + 1]
            && r.s.objectBase == r.s.nextFree == o.addr
            && r.s.cfg == w.s.cfg
            && r.s.Valid()
            && r.s.maybeEmpty == (w.s.maybeEmpty || |r.s.chunks| < |w.s.chunks|)
  {
    hide AndNot, IsMask;
    var o := w.Slots()[i];
    assert Placed(w.s.chunks, w.s.cfg, w.Slots(), i);
    AfterStart(w.s.chunks, w.s.cfg, w.Slots(), i);
    WalkFinds(w.s, o.home, o.addr);
    FastFreeIsWalk(w.s, o.addr);
  }

  lemma SimFree(w: World, i: nat)
    requires w.Sim() && i <= w.Count()
    ensures var r := M.Free(w.s, w.Slots()[i].addr);
            r.Unwound? && World(r.s, w.a.Unwind(i)).Sim()
  {
    hide AndNot, IsMask, M.Free, M.WellChained;
    FreeKeeps(w, i);
    var o := w.Slots()[i];
    var w' := World(M.Free(w.s, o.addr).s, w.a.Unwind(i));
    LayoutTake(w.s.chunks, w.s.cfg, w.Slots(), i);
    assert w.Slots()[..i] == w'.a.objects;
    forall j: nat | j < i
      ensures w'.a.objects[j].home < |w'.s.chunks|
      ensures Serves(w.s.chunks[w'.a.objects[j].home], w'.s.chunks[w'.a.objects[j].home], w'.a.objects[j])
    {
      Ordered(w.s.chunks, w.s.cfg, w.Slots(), j, i);
      assert Placed(w.s.chunks, w.s.cfg, w.a.objects[..i], j);
    }
    LayoutMove(w.s.chunks, w'.s.chunks, w.s.cfg, w'.a.objects);
    assert Placed(w.s.chunks, w.s.cfg, w.Slots(), i);
    LayoutPush(w'.s.chunks, w.s.cfg, w'.a.objects, w'.Slots()[i]);
  }
}
