/** Whole runs: a client issues macro calls one after another, and the allocator answers whenever asked. */
module ObstackRuns {
  import opened Alignment
  import opened ObstackModel
  import M = ObstackMacros

  /** One call. Free (i) frees the i-th live object, or, for i = number of live objects, the growing one.
      Store is the client writing byte k of object i through its pointer. */
  datatype Op =
    | MakeRoom(n: int)
    | Grow(bytes: seq<byte>)
    | Grow0(bytes: seq<byte>)
    | OneGrow(datum: byte)
    | OneGrowFast(datum: byte)
    | Blank(n: int)
    | BlankFast(n: int)
    | Alloc(n: int)
    | Copy(bytes: seq<byte>)
    | Copy0(bytes: seq<byte>)
    | Finish
    | Free(i: nat)
    | Store(i: nat, k: nat, datum: byte)

  /** A call with the chunk the allocator would hand out, should the call need one. */
  datatype Call = Call(op: Op, room: M.Chunk)

  /** What the header asks of the caller: room before a fast macro, no shrinking below object_base, live objects
      only; and of the allocator: a big enough chunk that overlaps no other. */
  ghost predicate Legal(w: World, call: Call) {
    match call.op
    case MakeRoom(n) => M.Provided(w.s, n, call.room)
    case Grow(bytes) => M.Provided(w.s, |bytes|, call.room)
    case Grow0(bytes) => M.Provided(w.s, |bytes| + 1, call.room)
    case OneGrow(_) => M.Provided(w.s, 1, call.room)
    case OneGrowFast(_) => w.s.nextFree + 1 <= w.s.chunkLimit
    case Blank(n) => M.Provided(w.s, n, call.room) && 0 <= |w.a.growing| + n
    case BlankFast(n) => w.s.nextFree + n <= w.s.chunkLimit && 0 <= |w.a.growing| + n
    case Alloc(n) => M.Provided(w.s, n, call.room) && 0 <= |w.a.growing| + n
    case Copy(bytes) => M.Provided(w.s, |bytes|, call.room)
    case Copy0(bytes) => M.Provided(w.s, |bytes| + 1, call.room)
    case Finish => true
    case Free(i) => i <= w.Count()
    case Store(i, k, _) => i <= w.Count() && k < |w.a.Bytes(i)|
  }

  /** A byte written through a pointer into a live chunk. */
  function Poke(s: M.Obstack, p: nat, datum: byte): M.Obstack {
    var h := M.Walk(s.chunks, p + 1);
    if h > 0 && s.chunks[h - 1].Contents() <= p then
      s.(chunks := s.chunks[h - 1 := s.chunks[h - 1].Write(p, [datum])])
    else s
  }

  lemma WriteKeepsValid(s: M.Obstack, h: nat, p: nat, bytes: seq<byte>)
    requires s.Valid() && h < |s.chunks|
    requires s.chunks[h].Contents() <= p && p + |bytes| <= s.chunks[h].Limit()
    ensures s.(chunks := s.chunks[h := s.chunks[h].Write(p, bytes)]).Valid()
  {
    hide AndNot, IsMask;
  }

  lemma PokeChunks(w: World, i: nat, k: nat, datum: byte)
    requires w.Sim() && i <= w.Count() && k < |w.a.Bytes(i)|
    ensures var o := w.Slots()[i];
            && o.home < |w.s.chunks|
            && Inside(w.s.chunks[o.home], o)
            && Poke(w.s, o.addr + k, datum)
               == w.s.(chunks := w.s.chunks[o.home := w.s.chunks[o.home].Write(o.addr + k, [datum])])
            && Poke(w.s, o.addr + k, datum).Valid()
  {
    hide AndNot, IsMask, M.WellChained;
    var o := w.Slots()[i];
    assert Placed(w.s.chunks, w.s.cfg, w.Slots(), i);
    WalkFinds(w.s, o.home, o.addr + k + 1);
    WriteKeepsValid(w.s, o.home, o.addr + k, [datum]);
  }

  lemma WriteInside(c: M.Chunk, o: Object, k: nat, datum: byte)
    requires Inside(c, o) && k < |o.bytes|
    ensures Inside(c.Write(o.addr + k, [datum]), o.(bytes := o.bytes[k := datum]))
  {
    var b := o.addr - c.Contents();
    assert c.data[b..b + |o.bytes|] == o.bytes;
    var data' := c.Write(o.addr + k, [datum]).data;
    assert data' == c.data[b + k := datum];
    assert data'[b..b + |o.bytes|] == o.bytes[k := datum];
  }

  /** Any two objects of one chunk are apart. */
  lemma ObjectsApart(w: World, i: nat, j: nat)
    requires w.Sim() && i <= w.Count() && j <= w.Count() && i != j
    requires w.Slots()[i].home == w.Slots()[j].home
    ensures w.Slots()[i].End() <= w.Slots()[j].addr || w.Slots()[j].End() <= w.Slots()[i].addr
  {
    if j < i {
      Ordered(w.s.chunks, w.s.cfg, w.Slots(), j, i);
    } else {
      Ordered(w.s.chunks, w.s.cfg, w.Slots(), i, j);
    }
  }

  lemma StoreServes(w: World, i: nat, k: nat, datum: byte, j: nat)
    requires w.Sim() && i <= w.Count() && k < |w.a.Bytes(i)| && j <= w.Count()
    ensures var s', o := Poke(w.s, w.Slots()[i].addr + k, datum), w.Slots()[j];
            && o.home < |w.s.chunks| == |s'.chunks|
            && Serves(w.s.chunks[o.home], s'.chunks[o.home],
                      if j == i then o.(bytes := o.bytes[k := datum]) else o)
  {
    hide AndNot, IsMask, Poke, M.WellChained;
    PokeChunks(w, i, k, datum);
    var o, u := w.Slots()[i], w.Slots()[j];
    assert Placed(w.s.chunks, w.s.cfg, w.Slots(), j);
    if j == i {
      WriteInside(w.s.chunks[o.home], o, k, datum);
    } else if u.home == o.home {
      ObjectsApart(w, i, j);
      w.s.chunks[o.home].WriteElsewhere(o.addr + k, [datum], u.addr, |u.bytes|);
    }
  }

  /** A store into one object changes that object only. */
  lemma SimStore(w: World, i: nat, k: nat, datum: byte)
    requires w.Sim() && i <= w.Count() && k < |w.a.Bytes(i)|
    ensures World(Poke(w.s, w.Slots()[i].addr + k, datum), w.a.Store(i, k, datum)).Sim()
  {
    hide AndNot, IsMask, Poke, Inside, M.WellChained, M.NextBase;
    var w' := World(Poke(w.s, w.Slots()[i].addr + k, datum), w.a.Store(i, k, datum));
    PokeChunks(w, i, k, datum);
    var o := w.Slots()[i];
    assert w'.Slots() == w.Slots()[i := o.(bytes := o.bytes[k := datum])];
    forall j: nat | j <= w.Count() ensures Placed(w'.s.chunks, w.s.cfg, w'.Slots(), j) {
      assert Placed(w.s.chunks, w.s.cfg, w.Slots(), j);
      StoreServes(w, i, k, datum, j);
    }
  }

  lemma SimMakeRoom(w: World, n: int, room: M.Chunk)
    requires w.Sim() && M.Provided(w.s, n, room)
    ensures w.(s := M.MakeRoom(w.s, n, room)).Sim()
  {
    if w.s.chunkLimit - w.s.nextFree < n { SimNewChunk(w, n, room); }
  }

  lemma SimGrow(w: World, bytes: seq<byte>, room: M.Chunk)
    requires w.Sim() && M.Provided(w.s, |bytes|, room)
    ensures World(M.Grow(w.s, bytes, room), w.a.Append(bytes)).Sim()
  {
    SimMakeRoom(w, |bytes|, room);
    SimAppend(w.(s := M.MakeRoom(w.s, |bytes|, room)), bytes);
  }

  lemma SimGrow0(w: World, bytes: seq<byte>, room: M.Chunk)
    requires w.Sim() && M.Provided(w.s, |bytes| + 1, room)
    ensures World(M.Grow0(w.s, bytes, room), w.a.Append(bytes).Append([0])).Sim()
  {
    SimMakeRoom(w, |bytes| + 1, room);
    var w1 := w.(s := M.MakeRoom(w.s, |bytes| + 1, room));
    SimAppend(w1, bytes);
    SimAppend(World(M.Append(w1.s, bytes), w1.a.Append(bytes)), [0]);
  }

  lemma SimBlank(w: World, n: int, room: M.Chunk)
    requires w.Sim() && M.Provided(w.s, n, room) && 0 <= |w.a.growing| + n
    ensures var s' := M.Blank(w.s, n, room);
            |s'.Growing()| == |w.a.growing| + n && World(s', w.a.Resize(n, s'.Growing())).Sim()
  {
    SimMakeRoom(w, n, room);
    SimBlankFast(w.(s := M.MakeRoom(w.s, n, room)), n);
  }

  // ----- One call, GNU C family -----

  function MadeRoom(w: World, n: int, room: M.Chunk): (w': World)
    requires w.Sim() && M.Provided(w.s, n, room)
    ensures w'.Sim() && w'.a == w.a
  {
    SimMakeRoom(w, n, room);
    World(M.MakeRoom(w.s, n, room), w.a)
  }

  function Grown(w: World, bytes: seq<byte>, room: M.Chunk): (w': World)
    requires w.Sim() && M.Provided(w.s, |bytes|, room)
    ensures w'.Sim() && w'.a == w.a.Append(bytes)
  {
    SimGrow(w, bytes, room);
    World(M.Grow(w.s, bytes, room), w.a.Append(bytes))
  }

  function Grown0(w: World, bytes: seq<byte>, room: M.Chunk): (w': World)
    requires w.Sim() && M.Provided(w.s, |bytes| + 1, room)
    ensures w'.Sim() && w'.a == w.a.Append(bytes + [0])
  {
    SimGrow0(w, bytes, room);
    World(M.Grow0(w.s, bytes, room), w.a.Append(bytes).Append([0]))
  }

  function GrownByOne(w: World, datum: byte, room: M.Chunk): (w': World)
    requires w.Sim() && M.Provided(w.s, 1, room)
    ensures w'.Sim() && w'.a == w.a.Append([datum])
  {
    SimGrow(w, [datum], room);
    World(M.OneGrow(w.s, datum, room), w.a.Append([datum]))
  }

  function GrownFast(w: World, datum: byte): (w': World)
    requires w.Sim() && w.s.nextFree + 1 <= w.s.chunkLimit
    ensures w'.Sim() && w'.a == w.a.Append([datum])
  {
    SimAppend(w, [datum]);
    World(M.OneGrowFast(w.s, datum), w.a.Append([datum]))
  }

  /** n bytes more at the end, or -n fewer; the others are the same. */
  predicate Resized(before: seq<byte>, n: int, after: seq<byte>) {
    |after| == |before| + n && (before <= after || after <= before)
  }

  /** Model b has one object more than a, and nothing growing. */
  predicate OneMore(a: Model, b: Model) {
    |b.objects| == |a.objects| + 1 && a.objects <= b.objects && b.growing == []
  }

  /** The bytes of the newest object. */
  function Newest(a: Model): seq<byte>
    requires a.objects != []
  {
    a.objects[|a.objects| - 1].bytes
  }

  function Blanked(w: World, n: int, room: M.Chunk): (w': World)
    requires w.Sim() && M.Provided(w.s, n, room) && 0 <= |w.a.growing| + n
    ensures w'.Sim() && w'.a.objects == w.a.objects && Resized(w.a.growing, n, w'.a.growing)
  {
    SimBlank(w, n, room);
    var s' := M.Blank(w.s, n, room);
    World(s', w.a.Resize(n, s'.Growing()))
  }

  function BlankedFast(w: World, n: int): (w': World)
    requires w.Sim() && w.s.nextFree + n <= w.s.chunkLimit && 0 <= |w.a.growing| + n
    ensures w'.Sim() && w'.a.objects == w.a.objects && Resized(w.a.growing, n, w'.a.growing)
  {
    SimBlankFast(w, n);
    var s' := M.BlankFast(w.s, n);
    World(s', w.a.Resize(n, s'.Growing()))
  }

  /** The growing object of model a becomes a finished one at the address the macro returned. */
  function Finished(r: M.Carved, a: Model): World
    requires r.s.chunks != [] && 0 <= r.value
  {
    World(r.s, a.Carve(|r.s.chunks| - 1, r.value))
  }

  function FinishedNow(w: World): (w': World)
    requires w.Sim()
    ensures w'.Sim() && OneMore(w.a, w'.a) && Newest(w'.a) == w.a.growing
  {
    SimFinish(w);
    Finished(M.Finish(w.s), w.a)
  }

  function Allocated(w: World, n: int, room: M.Chunk): (w': World)
    requires w.Sim() && M.Provided(w.s, n, room) && 0 <= |w.a.growing| + n
    ensures w'.Sim() && OneMore(w.a, w'.a) && Resized(w.a.growing, n, Newest(w'.a))
  {
    SimFinish(Blanked(w, n, room));
    Finished(M.Alloc(w.s, n, room), Blanked(w, n, room).a)
  }

  function Copied(w: World, bytes: seq<byte>, room: M.Chunk): (w': World)
    requires w.Sim() && M.Provided(w.s, |bytes|, room)
    ensures w'.Sim() && OneMore(w.a, w'.a) && Newest(w'.a) == w.a.growing + bytes
  {
    SimFinish(Grown(w, bytes, room));
    Finished(M.Copy(w.s, bytes, room), Grown(w, bytes, room).a)
  }

  function Copied0(w: World, bytes: seq<byte>, room: M.Chunk): (w': World)
    requires w.Sim() && M.Provided(w.s, |bytes| + 1, room)
    ensures w'.Sim() && OneMore(w.a, w'.a) && Newest(w'.a) == w.a.growing + bytes + [0]
  {
    SimFinish(Grown0(w, bytes, room));
    Finished(M.Copy0(w.s, bytes, room), Grown0(w, bytes, room).a)
  }

  function Unwound(w: World, i: nat): (w': World)
    requires w.Sim() && i <= w.Count()
    ensures w'.Sim() && w'.a == w.a.Unwind(i)
  {
    SimFree(w, i);
    World(M.Free(w.s, w.Slots()[i].addr).s, w.a.Unwind(i))
  }

  function Stored(w: World, i: nat, k: nat, datum: byte): (w': World)
    requires w.Sim() && i <= w.Count() && k < |w.a.Bytes(i)|
    ensures w'.Sim() && w'.a == w.a.Store(i, k, datum)
  {
    SimStore(w, i, k, datum);
    World(Poke(w.s, w.Slots()[i].addr + k, datum), w.a.Store(i, k, datum))
  }

  /** One call on an obstack and on its client's model: the two stay in step. */
  function Step(w: World, call: Call): (w': World)
    requires w.Sim() && Legal(w, call)
    ensures w'.Sim()
  {
    var room := call.room;
    match call.op
    case MakeRoom(n) => MadeRoom(w, n, room)
    case Grow(bytes) => Grown(w, bytes, room)
    case Grow0(bytes) => Grown0(w, bytes, room)
    case OneGrow(datum) => GrownByOne(w, datum, room)
    case OneGrowFast(datum) => GrownFast(w, datum)
    case Blank(n) => Blanked(w, n, room)
    case BlankFast(n) => BlankedFast(w, n)
    case Alloc(n) => Allocated(w, n, room)
    case Copy(bytes) => Copied(w, bytes, room)
    case Copy0(bytes) => Copied0(w, bytes, room)
    case Finish => FinishedNow(w)
    case Free(i) => Unwound(w, i)
    case Store(i, k, datum) => Stored(w, i, k, datum)
  }
}
