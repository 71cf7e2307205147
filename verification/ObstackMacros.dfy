/** The obstack macros as functions on obstack values: first the GNU C statement expressions, then the
    comma expressions used by other compilers. The class in ObstackHeap.dfy carries them out in place. */
module ObstackMacros {
  import opened Alignment

  type byte = bv8

  /** Offset of `contents` in struct _obstack_chunk: the two pointers `limit` and `prev` come first. */
  const HEADER: nat := 16

  /** A chunk at address `addr`; `data` is everything from `contents` up to `limit`. */
  datatype Chunk = Chunk(addr: nat, data: seq<byte>) {
    function Contents(): nat { addr + HEADER }

    function Limit(): nat { Contents() + |data| }

    /** Does p point into this chunk or one past its end, as the walk of __obstack_free tests it? */
    predicate Covers(p: int) { addr < p <= Limit() }

    function Read(p: nat, n: nat): (r: seq<byte>)
      requires Contents() <= p && p + n <= Limit()
      ensures |r| == n
    {
      data[p - Contents()..p - Contents() + n]
    }

    function Write(p: nat, bytes: seq<byte>): (r: Chunk)
      requires Contents() <= p && p + |bytes| <= Limit()
      ensures r.addr == addr && r.Limit() == Limit()
      ensures r.Read(p, |bytes|) == bytes
    {
      Chunk(addr, data[..p - Contents()] + bytes + data[p - Contents() + |bytes|..])
    }

    lemma WriteElsewhere(p: nat, bytes: seq<byte>, q: nat, n: nat)
      requires Contents() <= p && p + |bytes| <= Limit()
      requires Contents() <= q && q + n <= Limit()
      requires q + n <= p || p + |bytes| <= q
      ensures Write(p, bytes).Read(q, n) == Read(q, n)
    {
    }
  }

  predicate Disjoint(c: Chunk, d: Chunk) {
    c.Limit() <= d.addr || d.Limit() <= c.addr
  }

  /** `alignment_mask`, and whether PTR_INT_TYPE is narrower than a pointer. */
  datatype Config = Config(mask: nat, narrow: bool)

  /** The first address an object can have in chunk c. */
  function Start(c: Chunk, cfg: Config): int {
    PtrAlign(cfg.narrow, c.addr, c.Contents(), cfg.mask)
  }

  /** Chunks of one chain do not overlap, and each has its aligned start inside. */
  ghost predicate WellChained(chunks: seq<Chunk>, cfg: Config) {
    && (forall i :: 0 <= i < |chunks| ==> chunks[i].Contents() <= Start(chunks[i], cfg) <= chunks[i].Limit())
    && (forall i, j :: 0 <= i < j < |chunks| ==> Disjoint(chunks[i], chunks[j]))
  }

  ghost predicate Apart(chunks: seq<Chunk>, room: Chunk) {
    forall i :: 0 <= i < |chunks| ==> Disjoint(chunks[i], room)
  }

  /** struct obstack. The chain of `prev` pointers is `chunks`, oldest first; the last one is `chunk`. */
  datatype Obstack = Obstack(
    cfg: Config,
    chunks: seq<Chunk>,
    objectBase: nat,
    nextFree: nat,
    chunkLimit: nat,
    maybeEmpty: bool,
    temp: int)
  {
    function Current(): Chunk
      requires chunks != []
    {
      chunks[|chunks| - 1]
    }

    /** What holds of the control block between any two macro calls. */
    ghost predicate Valid() {
      && IsMask(cfg.mask)
      && chunks != []
      && chunkLimit == Current().Limit()
      && Start(Current(), cfg) <= objectBase <= nextFree <= chunkLimit
      && WellChained(chunks, cfg)
    }

    /** The bytes of the object being grown. */
    function Growing(): seq<byte>
      requires chunks != [] && Current().Contents() <= objectBase <= nextFree <= Current().Limit()
    {
      Current().Read(objectBase, nextFree - objectBase)
    }

    /** The allocator may answer a request for n more bytes with `room`: it overlaps no chunk of the chain and
        holds the growing object and n more bytes after its aligned start. */
    ghost predicate Fits(room: Chunk, n: int) {
      && objectBase <= nextFree
      && room.Contents() <= Start(room, cfg)
      && Start(room, cfg) + (nextFree - objectBase) + n <= room.Limit()
      && Start(room, cfg) + (nextFree - objectBase) <= room.Limit()
      && Apart(chunks, room)
    }

    /** Everything but the scratch field. */
    predicate SameButTemp(other: Obstack) {
      this.(temp := 0) == other.(temp := 0)
    }
  }

  lemma StartOfChunk(c: Chunk, cfg: Config)
    requires IsMask(cfg.mask)
    ensures c.Contents() <= Start(c, cfg) <= c.Contents() + cfg.mask
    ensures Aligned(if cfg.narrow then c.addr else 0, Start(c, cfg), cfg.mask)
  {
    BptrAlignIsLeast(if cfg.narrow then c.addr else 0, c.Contents(), cfg.mask);
  }

  /** _obstack_begin: one chunk, an empty object at its aligned start, flag clear. */
  function Begin(room: Chunk, cfg: Config): (s: Obstack)
    requires IsMask(cfg.mask) && Start(room, cfg) <= room.Limit()
    ensures s.Valid() && s.Growing() == []
    ensures s.cfg == cfg && s.chunks == [room] && s.objectBase == Start(room, cfg) && !s.maybeEmpty
  {
    StartOfChunk(room, cfg);
    Obstack(cfg, [room], Start(room, cfg), Start(room, cfg), room.Limit(), false, 0)
  }

  /** Is the growing object known to be alone in the current chunk, so that the chunk can go? */
  predicate Alone(s: Obstack)
    requires s.chunks != []
  {
    !s.maybeEmpty && s.objectBase == Start(s.Current(), s.cfg)
  }

  /** A chunk apart from a chain may join it, also in place of the newest. */
  lemma ChainedWith(chunks: seq<Chunk>, cfg: Config, c: Chunk)
    requires WellChained(chunks, cfg) && Apart(chunks, c) && c.Contents() <= Start(c, cfg) <= c.Limit()
    ensures WellChained(chunks + [c], cfg)
    ensures chunks != [] ==> WellChained(chunks[..|chunks| - 1] + [c], cfg)
  {
    hide Start;
  }

  /** _obstack_newchunk: move the growing object to the start of a new chunk. */
  function NewChunk(s: Obstack, n: int, room: Chunk): (r: Obstack)
    requires s.Valid() && s.Fits(room, n)
    ensures r.Valid() && r.Growing() == s.Growing()
    ensures r.nextFree + n <= r.chunkLimit
    ensures r.temp == s.temp && r.cfg == s.cfg && !r.maybeEmpty
  {
    var start := Start(room, s.cfg);
    var copied := room.Write(start, s.Growing());
    var kept := if Alone(s) then s.chunks[..|s.chunks| - 1] else s.chunks;
    ChainedWith(s.chunks, s.cfg, copied);
    hide AndNot, IsMask, WellChained, Apart, Chunk.Read, Chunk.Write;
    s.(chunks := kept + [copied],
       objectBase := start,
       nextFree := start + |s.Growing()|,
       chunkLimit := room.Limit(),
       maybeEmpty := false)
  }

  /** memcpy (next_free, bytes, |bytes|) */
  function Memcpy(s: Obstack, bytes: seq<byte>): (r: Obstack)
    requires s.chunks != [] && s.Current().Contents() <= s.nextFree
    requires s.nextFree + |bytes| <= s.Current().Limit()
  {
    s.(chunks := s.chunks[|s.chunks| - 1 := s.Current().Write(s.nextFree, bytes)])
  }

  /** The bytes are stored at next_free, which moves past them. */
  function Append(s: Obstack, bytes: seq<byte>): (r: Obstack)
    requires s.Valid() && s.nextFree + |bytes| <= s.chunkLimit
    ensures r.Valid() && r.Growing() == s.Growing() + bytes
    ensures r.nextFree == s.nextFree + |bytes| && r.chunkLimit == s.chunkLimit
    ensures r.maybeEmpty == s.maybeEmpty
  {
    Memcpy(s, bytes).(nextFree := s.nextFree + |bytes|)
  }

  /** Should a request for n more bytes need a new chunk, the allocator's answer fits. */
  ghost predicate Provided(s: Obstack, n: int, room: Chunk) {
    s.chunkLimit - s.nextFree < n ==> s.Fits(room, n)
  }

  /** _obstack_newchunk neither reads nor writes the scratch field. */
  lemma NewChunkIgnoresTemp(s: Obstack, t: int, n: int, room: Chunk)
    requires s.Valid() && Provided(s, n, room)
    ensures s.(temp := t).Valid() && Provided(s.(temp := t), n, room)
    ensures s.chunkLimit - s.nextFree < n ==>
              NewChunk(s.(temp := t), n, room) == NewChunk(s, n, room).(temp := t)
  {
    assert s.(temp := t).Growing() == s.Growing();
  }

  lemma AppendIgnoresTemp(s: Obstack, t: int, bytes: seq<byte>)
    requires s.Valid() && s.nextFree + |bytes| <= s.chunkLimit
    ensures s.(temp := t).Valid() && Append(s.(temp := t), bytes) == Append(s, bytes).(temp := t)
  {
  }

  /** What a macro with a value leaves behind: the new control block and that value. */
  datatype Carved = Carved(s: Obstack, value: int) {
    /** The current chunk has these bytes at the value, below the next object. */
    ghost predicate Holds(bytes: seq<byte>) {
      && s.chunks != []
      && s.Current().Contents() <= value && value + |bytes| <= s.objectBase <= s.Current().Limit()
      && s.Current().Read(value, |bytes|) == bytes
    }
  }

  /** What becomes of a call of __obstack_free: the control block unwound to the object, every chunk released
      (a null object), or abort because no chunk holds the object. */
  datatype Freed = Unwound(s: Obstack) | Released | Aborted

  // ----- The GNU C family: statement expressions with local variables -----

  function MakeRoom(s: Obstack, n: int, room: Chunk): (r: Obstack)
    requires s.Valid() && Provided(s, n, room)
    ensures r.Valid() && r.Growing() == s.Growing() && r.nextFree + n <= r.chunkLimit
    ensures r.maybeEmpty == (s.maybeEmpty && s.nextFree + n <= s.chunkLimit)
    ensures s.nextFree + n <= s.chunkLimit ==> r.objectBase == s.objectBase && |r.chunks| == |s.chunks|
  {
    if s.chunkLimit - s.nextFree < n then NewChunk(s, n, room) else s
  }

  function Grow(s: Obstack, bytes: seq<byte>, room: Chunk): (r: Obstack)
    requires s.Valid() && Provided(s, |bytes|, room)
    ensures r.Valid() && r.Growing() == s.Growing() + bytes
    ensures r.maybeEmpty == (s.maybeEmpty && s.nextFree + |bytes| <= s.chunkLimit)
    ensures s.nextFree + |bytes| <= s.chunkLimit ==> r.objectBase == s.objectBase && |r.chunks| == |s.chunks|
  {
    var s1 := if s.nextFree + |bytes| > s.chunkLimit then NewChunk(s, |bytes|, room) else s;
    Append(s1, bytes)
  }

  function Grow0(s: Obstack, bytes: seq<byte>, room: Chunk): (r: Obstack)
    requires s.Valid() && Provided(s, |bytes| + 1, room)
    ensures r.Valid() && r.Growing() == s.Growing() + bytes + [0]
    ensures r.maybeEmpty == (s.maybeEmpty && s.nextFree + |bytes| + 1 <= s.chunkLimit)
    ensures s.nextFree + |bytes| + 1 <= s.chunkLimit ==> r.objectBase == s.objectBase && |r.chunks| == |s.chunks|
  {
    var s1 := if s.nextFree + |bytes| + 1 > s.chunkLimit then NewChunk(s, |bytes| + 1, room) else s;
    Append(Append(s1, bytes), [0])
  }

  function OneGrowFast(s: Obstack, datum: byte): (r: Obstack)
    requires s.Valid() && s.nextFree + 1 <= s.chunkLimit
    ensures r.Valid() && r.Growing() == s.Growing() + [datum]
    ensures r.maybeEmpty == s.maybeEmpty && r.objectBase == s.objectBase && |r.chunks| == |s.chunks|
  {
    Append(s, [datum])
  }

  function OneGrow(s: Obstack, datum: byte, room: Chunk): (r: Obstack)
    requires s.Valid() && Provided(s, 1, room)
    ensures r.Valid() && r.Growing() == s.Growing() + [datum]
    ensures r.maybeEmpty == (s.maybeEmpty && s.nextFree + 1 <= s.chunkLimit)
    ensures s.nextFree + 1 <= s.chunkLimit ==> r.objectBase == s.objectBase && |r.chunks| == |s.chunks|
  {
    OneGrowFast(if s.nextFree + 1 > s.chunkLimit then NewChunk(s, 1, room) else s, datum)
  }

  /** A negative n takes bytes off the growing object. */
  function BlankFast(s: Obstack, n: int): (r: Obstack)
    requires s.Valid() && s.objectBase <= s.nextFree + n <= s.chunkLimit
    ensures r.Valid() && |r.Growing()| == |s.Growing()| + n
    ensures r.maybeEmpty == s.maybeEmpty && r.objectBase == s.objectBase && |r.chunks| == |s.chunks|
    ensures if n < 0 then r.Growing() <= s.Growing() else s.Growing() <= r.Growing()
  {
    s.(nextFree := s.nextFree + n)
  }

  function Blank(s: Obstack, n: int, room: Chunk): (r: Obstack)
    requires s.Valid() && Provided(s, n, room) && s.objectBase <= s.nextFree + n
    ensures r.Valid() && |r.Growing()| == |s.Growing()| + n
    ensures r.maybeEmpty == (s.maybeEmpty && s.nextFree + n <= s.chunkLimit)
    ensures s.nextFree + n <= s.chunkLimit ==> r.objectBase == s.objectBase && |r.chunks| == |s.chunks|
    ensures if n < 0 then r.Growing() <= s.Growing() else s.Growing() <= r.Growing()
  {
    BlankFast(if s.chunkLimit - s.nextFree < n then NewChunk(s, n, room) else s, n)
  }

  /** Where obstack_finish leaves next_free: the aligned end of the object, or the chunk's end if that is nearer. */
  function NextBase(cfg: Config, base: nat, end: nat, limit: nat): int
    requires base <= end
  {
    var aligned := PtrAlign(cfg.narrow, base, end, cfg.mask);
    if aligned > limit then limit else aligned
  }

  lemma NextBaseBounds(cfg: Config, base: nat, end: nat, limit: nat)
    requires IsMask(cfg.mask) && base <= end <= limit
    ensures end <= NextBase(cfg, base, end, limit) <= limit
    ensures NextBase(cfg, base, end, limit) <= end + cfg.mask
  {
    BptrAlignIsLeast(if cfg.narrow then base else 0, end, cfg.mask);
  }

  /** It is the first aligned address from the end on, measured from the object's base if pointer differences are
      narrow, unless the chunk ends first. */
  lemma NextBaseIsLeast(cfg: Config, base: nat, end: nat, limit: nat)
    requires IsMask(cfg.mask) && base <= end <= limit
    ensures var origin, next := if cfg.narrow then base else 0, NextBase(cfg, base, end, limit);
            && (Aligned(origin, next, cfg.mask) || next == limit)
            && forall q: nat :: end <= q < next ==> !Aligned(origin, q, cfg.mask)
  {
    var origin := if cfg.narrow then base else 0;
    BptrAlignIsLeast(origin, end, cfg.mask);
    hide AndNot, IsMask;
  }

  function Finish(s: Obstack): (r: Carved)
    requires s.Valid()
    ensures r.s.Valid() && r.s.Growing() == [] && r.value == s.objectBase
    ensures r.s.objectBase >= s.nextFree
    ensures r.s == s.(objectBase := r.s.objectBase, nextFree := r.s.objectBase,
                      maybeEmpty := s.maybeEmpty || s.Growing() == [])
  {
    NextBaseBounds(s.cfg, s.objectBase, s.nextFree, s.chunkLimit);
    hide AndNot, IsMask, WellChained, PtrAlign, Chunk.Read, Start;
    var value := s.objectBase;
    var s1 := if s.nextFree == value then s.(maybeEmpty := true) else s;
    var s2 := s1.(nextFree := PtrAlign(s1.cfg.narrow, s1.objectBase, s1.nextFree, s1.cfg.mask));
    var s3 := if s2.nextFree - s2.Current().addr > s2.chunkLimit - s2.Current().addr
              then s2.(nextFree := s2.chunkLimit) else s2;
    Carved(s3.(objectBase := s3.nextFree), value)
  }

  /** The bytes that were growing are found at the value. */
  lemma FinishHolds(s: Obstack)
    requires s.Valid()
    ensures Finish(s).Holds(s.Growing())
  {
    hide AndNot, IsMask, WellChained, Finish;
    StartOfChunk(s.Current(), s.cfg);
  }

  lemma HoldsShorter(r: Carved, bytes: seq<byte>, n: nat)
    requires r.Holds(bytes)
    ensures n <= |bytes| ==> r.Holds(bytes[..n])
  {
  }

  function Alloc(s: Obstack, n: int, room: Chunk): (r: Carved)
    requires s.Valid() && Provided(s, n, room) && s.objectBase <= s.nextFree + n
    ensures r.s.Valid() && r.s.Growing() == []
    ensures r.value + |s.Growing()| + n <= r.s.objectBase
    ensures r.Holds(if n < 0 then s.Growing()[..|s.Growing()| + n] else s.Growing())
    ensures r.s.maybeEmpty == ((s.maybeEmpty && s.nextFree + n <= s.chunkLimit) || |s.Growing()| + n == 0)
    ensures s.nextFree + n <= s.chunkLimit ==> r.value == s.objectBase && |r.s.chunks| == |s.chunks|
  {
    hide AndNot, IsMask, WellChained, Finish, Blank;
    FinishHolds(Blank(s, n, room));
    HoldsShorter(Finish(Blank(s, n, room)), Blank(s, n, room).Growing(), |s.Growing()|);
    Finish(Blank(s, n, room))
  }

  function Copy(s: Obstack, bytes: seq<byte>, room: Chunk): (r: Carved)
    requires s.Valid() && Provided(s, |bytes|, room)
    ensures r.s.Valid() && r.s.Growing() == [] && r.Holds(s.Growing() + bytes)
    ensures r.s.maybeEmpty == ((s.maybeEmpty && s.nextFree + |bytes| <= s.chunkLimit) || s.Growing() + bytes == [])
    ensures s.nextFree + |bytes| <= s.chunkLimit ==> r.value == s.objectBase && |r.s.chunks| == |s.chunks|
  {
    hide AndNot, IsMask, WellChained, Finish, Grow, Carved.Holds;
    FinishHolds(Grow(s, bytes, room));
    Finish(Grow(s, bytes, room))
  }

  function Copy0(s: Obstack, bytes: seq<byte>, room: Chunk): (r: Carved)
    requires s.Valid() && Provided(s, |bytes| + 1, room)
    ensures r.s.Valid() && r.s.Growing() == [] && r.Holds(s.Growing() + bytes + [0])
    ensures r.s.maybeEmpty == (s.maybeEmpty && s.nextFree + |bytes| + 1 <= s.chunkLimit)
    ensures s.nextFree + |bytes| + 1 <= s.chunkLimit ==> r.value == s.objectBase && |r.s.chunks| == |s.chunks|
  {
    hide AndNot, IsMask, WellChained, Finish, Grow0, Carved.Holds;
    FinishHolds(Grow0(s, bytes, room));
    Finish(Grow0(s, bytes, room))
  }

  /** The walk of __obstack_free, newest chunk first: how many chunks stay once those not holding obj are gone. */
  function Walk(chunks: seq<Chunk>, obj: int): (k: nat)
    ensures k <= |chunks|
    ensures k > 0 ==> chunks[k - 1].Covers(obj)
    ensures forall i :: k <= i < |chunks| ==> !chunks[i].Covers(obj)
  {
    if chunks == [] then 0
    else
      var last := chunks[|chunks| - 1];
      if last.Covers(obj) then |chunks| else Walk(chunks[..|chunks| - 1], obj)
  }

  /** __obstack_free */
  function FreeChunks(s: Obstack, obj: int): Freed {
    var k := Walk(s.chunks, obj);
    if k > 0 then
      var kept := s.chunks[..k];
      Unwound(s.(chunks := kept, objectBase := obj, nextFree := obj, chunkLimit := kept[k - 1].Limit(),
                 maybeEmpty := s.maybeEmpty || k < |s.chunks|))
    else if obj == 0 then Released
    else Aborted
  }

  function Free(s: Obstack, obj: nat): Freed
    requires s.chunks != []
  {
    if s.Current().addr < obj < s.chunkLimit then Unwound(s.(objectBase := obj, nextFree := obj))
    else FreeChunks(s, obj)
  }

  predicate EmptyP(s: Obstack)
    requires s.chunks != []
  {
    |s.chunks| == 1 && s.nextFree == Start(s.Current(), s.cfg)
  }

  // ----- The family for other compilers: comma expressions that go through the temp field -----

  /** temp = len, then a new chunk if temp + extra more bytes do not fit. */
  function CommaReserve(s: Obstack, len: int, extra: nat, room: Chunk): (r: Obstack)
    requires s.Valid() && Provided(s, len + extra, room)
    ensures r.Valid() && r.nextFree + len + extra <= r.chunkLimit && r.temp == len
    ensures r == MakeRoom(s, len + extra, room).(temp := len)
  {
    hide AndNot, IsMask, WellChained, Apart, Start, NewChunk, Chunk.Read, Chunk.Write;
    NewChunkIgnoresTemp(s, len, len + extra, room);
    var s1 := s.(temp := len);
    if s1.nextFree + s1.temp + extra > s1.chunkLimit then NewChunk(s1, s1.temp + extra, room) else s1
  }

  function CommaMakeRoom(s: Obstack, n: int, room: Chunk): (r: Obstack)
    requires s.Valid() && Provided(s, n, room)
    ensures r.SameButTemp(MakeRoom(s, n, room))
  {
    CommaReserve(s, n, 0, room)
  }

  /** memcpy (next_free, where, temp), next_free += temp */
  function CommaAppend(s: Obstack, source: seq<byte>): (r: Obstack)
    requires s.Valid() && 0 <= s.temp == |source| && s.nextFree + s.temp <= s.chunkLimit
    ensures r == Append(s, source)
  {
    assert source[..s.temp] == source;
    var s1 := Memcpy(s, source[..s.temp]);
    s1.(nextFree := s1.nextFree + s1.temp)
  }

  function CommaGrow(s: Obstack, bytes: seq<byte>, room: Chunk): (r: Obstack)
    requires s.Valid() && Provided(s, |bytes|, room)
    ensures r.Valid() && r.SameButTemp(Grow(s, bytes, room))
  {
    AppendIgnoresTemp(MakeRoom(s, |bytes|, room), |bytes|, bytes);
    CommaAppend(CommaReserve(s, |bytes|, 0, room), bytes)
  }

  function CommaGrow0(s: Obstack, bytes: seq<byte>, room: Chunk): (r: Obstack)
    requires s.Valid() && Provided(s, |bytes| + 1, room)
    ensures r.Valid() && r.SameButTemp(Grow0(s, bytes, room))
  {
    var g := MakeRoom(s, |bytes| + 1, room);
    AppendIgnoresTemp(g, |bytes|, bytes);
    AppendIgnoresTemp(Append(g, bytes), |bytes|, [0]);
    hide AndNot, IsMask, WellChained, Start, NewChunk, Append, CommaAppend, CommaReserve;
    Append(CommaAppend(CommaReserve(s, |bytes|, 1, room), bytes), [0])
  }

  function CommaOneGrow(s: Obstack, datum: byte, room: Chunk): (r: Obstack)
    requires s.Valid() && Provided(s, 1, room)
    ensures r == OneGrow(s, datum, room)
  {
    var s1 := if s.nextFree + 1 > s.chunkLimit then NewChunk(s, 1, room) else s;
    OneGrowFast(s1, datum)
  }

  function CommaBlank(s: Obstack, n: int, room: Chunk): (r: Obstack)
    requires s.Valid() && Provided(s, n, room) && s.objectBase <= s.nextFree + n
    ensures r.Valid() && r == Blank(s, n, room).(temp := n)
  {
    hide AndNot, IsMask, WellChained, NewChunk, Apart, Start, Chunk.Read, CommaReserve;
    var s1 := CommaReserve(s, n, 0, room);
    BlankFast(s1, s1.temp)
  }

  function CommaFinish(s: Obstack): (r: Carved)
    requires s.Valid()
    ensures r.s == Finish(s).s.(temp := s.objectBase) && r.value == Finish(s).value
  {
    var s1 := if s.nextFree == s.objectBase then s.(maybeEmpty := true) else s;
    var s2 := s1.(temp := s1.objectBase);
    BptrAlignIsLeast(if s.cfg.narrow then s.objectBase else 0, s.nextFree, s.cfg.mask);
    var s3 := s2.(nextFree := PtrAlign(s2.cfg.narrow, s2.objectBase, s2.nextFree, s2.cfg.mask));
    var s4 := if s3.nextFree - s3.Current().addr > s3.chunkLimit - s3.Current().addr
              then s3.(nextFree := s3.chunkLimit) else s3;
    Carved(s4.(objectBase := s4.nextFree), s4.temp)
  }

  function CommaAlloc(s: Obstack, n: int, room: Chunk): (r: Carved)
    requires s.Valid() && Provided(s, n, room) && s.objectBase <= s.nextFree + n
    ensures r.s.SameButTemp(Alloc(s, n, room).s) && r.value == Alloc(s, n, room).value
  {
    CommaFinish(CommaBlank(s, n, room))
  }

  function CommaCopy(s: Obstack, bytes: seq<byte>, room: Chunk): (r: Carved)
    requires s.Valid() && Provided(s, |bytes|, room)
    ensures r.s.SameButTemp(Copy(s, bytes, room).s) && r.value == Copy(s, bytes, room).value
  {
    CommaFinish(CommaGrow(s, bytes, room))
  }

  function CommaCopy0(s: Obstack, bytes: seq<byte>, room: Chunk): (r: Carved)
    requires s.Valid() && Provided(s, |bytes| + 1, room)
    ensures r.s.SameButTemp(Copy0(s, bytes, room).s) && r.value == Copy0(s, bytes, room).value
  {
    CommaFinish(CommaGrow0(s, bytes, room))
  }

  /** The comma form of obstack_free measures from the chunk and hands temp + chunk to __obstack_free. */
  function CommaFree(s: Obstack, obj: nat): (r: Freed)
    requires s.chunks != []
    ensures match Free(s, obj)
            case Unwound(g) => r.Unwound? && r.s.SameButTemp(g)
            case Released => r.Released?
            case Aborted => r.Aborted?
  {
    var s1 := s.(temp := obj - s.Current().addr);
    if s1.temp > 0 && s1.temp < s1.chunkLimit - s1.Current().addr then
      Unwound(s1.(objectBase := s1.temp + s1.Current().addr, nextFree := s1.temp + s1.Current().addr))
    else
      FreeChunks(s1, s1.temp + s1.Current().addr)
  }
}
