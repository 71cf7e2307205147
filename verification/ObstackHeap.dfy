/** The obstack in place: chunks are heap objects linked by `prev`, each holding its bytes in an array, and the
    macros assign the fields of the control block. Every method does to the heap what the function of the same
    name in ObstackMacros does to values. */
module ObstackHeap {
  import opened Alignment
  import M = ObstackMacros

  type byte = M.byte

  /** struct _obstack_chunk */
  class Chunk {
    const address: nat
    const contents: array<byte>
    const limit: nat
    var prev: Chunk?

    constructor (address: nat, contents: array<byte>, prev: Chunk?)
      ensures this.address == address && this.contents == contents && this.prev == prev
      ensures limit == address + M.HEADER + contents.Length
    {
      this.address, this.contents, this.prev := address, contents, prev;
      limit := address + M.HEADER + contents.Length;
    }

    ghost function Value(): M.Chunk
      reads contents
    {
      M.Chunk(address, contents[..])
    }
  }

  ghost function Values(chain: seq<Chunk>): (r: seq<M.Chunk>)
    reads set c | c in chain :: c.contents
    ensures |r| == |chain|
    ensures forall i :: 0 <= i < |chain| ==> r[i] == chain[i].Value()
  {
    if chain == [] then [] else Values(chain[..|chain| - 1]) + [chain[|chain| - 1].Value()]
  }

  /** Chunk i of a chain, oldest first, points back to the one before it. */
  ghost predicate Link(chain: seq<Chunk>, i: nat)
    requires i < |chain|
    reads chain
  {
    && chain[i].prev == (if i == 0 then null else chain[i - 1])
    && chain[i].limit == chain[i].address + M.HEADER + chain[i].contents.Length
  }

  method CopyInto(a: array<byte>, offset: nat, bytes: seq<byte>)
    requires offset + |bytes| <= a.Length
    modifies a
    ensures a[..] == old(a[..])[..offset] + bytes + old(a[..])[offset + |bytes|..]
  {
    forall i | 0 <= i < |bytes| {
      a[offset + i] := bytes[i];
    }
  }

  /** A chunk change, field by field. */
  lemma NewChunkParts(s: M.Obstack, n: int, room: M.Chunk)
    requires s.Valid() && s.Fits(room, n)
    ensures var r, start := M.NewChunk(s, n, room), M.Start(room, s.cfg);
            && r.cfg == s.cfg && r.temp == s.temp && !r.maybeEmpty
            && r.chunks == (if M.Alone(s) then s.chunks[..|s.chunks| - 1] else s.chunks)
                           + [room.Write(start, s.Growing())]
            && r.objectBase == start && r.nextFree == start + (s.nextFree - s.objectBase)
            && r.chunkLimit == room.Limit()
  {
  }

  /** __obstack_free, field by field. */
  lemma FreeChunksParts(s: M.Obstack, obj: int)
    ensures var r, k := M.FreeChunks(s, obj), M.Walk(s.chunks, obj);
            if k > 0 then
              && obj > 0 && r.Unwound?
              && r.s == s.(chunks := s.chunks[..k], objectBase := obj, nextFree := obj,
                           chunkLimit := s.chunks[k - 1].Limit(), maybeEmpty := s.maybeEmpty || k < |s.chunks|)
            else r == if obj == 0 then M.Released else M.Aborted
  {
  }

  datatype Fate = Kept | AllReleased | Abort

  /** struct obstack */
  class Obstack {
    const cfg: M.Config
    var chunk: Chunk
    var objectBase: nat
    var nextFree: nat
    var chunkLimit: nat
    var maybeEmpty: bool
    var temp: int
    ghost var chain: seq<Chunk>

    /** The chunks reached from `chunk` through `prev` are those of `chain`, newest last. */
    ghost predicate Linked()
      reads this, chain
    {
      && chain != [] && chunk == chain[|chain| - 1]
      && (forall i: nat :: i < |chain| ==> Link(chain, i))
      && (forall i, j :: 0 <= i < j < |chain| ==> chain[i].contents != chain[j].contents)
    }

    ghost function Arrays(): set<array<byte>>
      reads this
    {
      set c | c in chain :: c.contents
    }

    ghost function View(): M.Obstack
      reads this, Arrays()
    {
      M.Obstack(cfg, Values(chain), objectBase, nextFree, chunkLimit, maybeEmpty, temp)
    }

    /** A block the allocator may hand out for n more bytes. */
    ghost predicate Offers(n: int, at: nat, block: array<byte>)
      reads this, Arrays(), block
    {
      block !in Arrays() && M.Provided(View(), n, M.Chunk(at, block[..]))
    }

    /** _obstack_begin */
    constructor Begin(cfg: M.Config, at: nat, block: array<byte>)
      requires IsMask(cfg.mask) && M.Start(M.Chunk(at, block[..]), cfg) <= at + M.HEADER + block.Length
      ensures Linked() && Arrays() == {block}
      ensures View() == M.Begin(M.Chunk(at, block[..]), cfg)
    {
      M.StartOfChunk(M.Chunk(at, block[..]), cfg);
      this.cfg := cfg;
      var c := new Chunk(at, block, null);
      chunk := c;
      objectBase := PtrAlign(cfg.narrow, at, at + M.HEADER, cfg.mask);
      nextFree := PtrAlign(cfg.narrow, at, at + M.HEADER, cfg.mask);
      chunkLimit := at + M.HEADER + block.Length;
      maybeEmpty := false;
      temp := 0;
      chain := [c];
    }

    /** memcpy (next_free, bytes, |bytes|) */
    method Memcpy(bytes: seq<byte>)
      requires Linked() && View().Valid() && nextFree + |bytes| <= chunkLimit
      modifies chunk.contents
      ensures Linked() && View() == M.Memcpy(old(View()), bytes)
    {
      hide AndNot, IsMask, Values, Link, M.WellChained;
      assert chunk.Value() == View().Current();
      InCurrent();
      CopyInto(chunk.contents, nextFree - chunk.address - M.HEADER, bytes);
      assert View().chunks == M.Memcpy(old(View()), bytes).chunks;
    }

    /** The growing object lies within the current chunk. */
    lemma InCurrent()
      requires Linked() && View().Valid()
      ensures chunk.address + M.HEADER <= objectBase <= nextFree
      ensures chunkLimit == chunk.address + M.HEADER + chunk.contents.Length
    {
      hide AndNot, IsMask, Values;
      assert chunk.Value() == View().Current();
    }

    /** Copy the growing object to the aligned start of a block at address `at`. */
    method CopyGrowing(start: nat, at: nat, block: array<byte>)
      requires Linked() && View().Valid() && block !in Arrays()
      requires at + M.HEADER <= start && start + nextFree - objectBase <= at + M.HEADER + block.Length
      modifies block
      ensures Linked() && View() == old(View())
      ensures M.Chunk(at, block[..]) == old(M.Chunk(at, block[..])).Write(start, View().Growing())
    {
      hide AndNot, IsMask, Values, Link, M.WellChained;
      assert chunk.Value() == View().Current();
      InCurrent();
      var from := objectBase - chunk.address - M.HEADER;
      CopyInto(block, start - at - M.HEADER, chunk.contents[from..from + (nextFree - objectBase)]);
      assert View().chunks == old(View()).chunks;
    }

    /** Make a chunk of a block and chain it, after the current one or in its place. */
    method Chain(at: nat, block: array<byte>, replace: bool)
      requires Linked() && block !in Arrays()
      modifies this`chunk, this`chain
      ensures Linked() && Arrays() <= old(Arrays()) + {block}
      ensures Values(chain) == old((if replace then Values(chain)[..|chain| - 1] else Values(chain))
                                   + [M.Chunk(at, block[..])])
      ensures chunk.limit == at + M.HEADER + block.Length && chunk.contents == block
    {
      hide Values;
      assert Link(chain, |chain| - 1);
      ghost var kept := if replace then chain[..|chain| - 1] else chain;
      var older := if replace then chunk.prev else chunk;
      var next := new Chunk(at, block, older);
      chain := kept + [next];
      chunk := next;
      forall i: nat | i < |chain| ensures Link(chain, i) {
        if i < |kept| {
          assert old(Link(chain, i));
          assert chain[i] == old(chain[i]);
        }
      }
    }

    /** Does the growing object start where an object of a chunk can first be, with the flag clear? */
    method IsAlone() returns (alone: bool)
      requires Linked() && View().Valid()
      ensures alone == M.Alone(View())
    {
      hide AndNot, IsMask, M.WellChained, Values, Link;
      assert chunk.Value() == View().Current();
      alone := !maybeEmpty && objectBase == PtrAlign(cfg.narrow, chunk.address, chunk.address + M.HEADER, cfg.mask);
    }

    /** The growing object is from now on the one from `base` to `end` in a new chunk. */
    method MoveTo(at: nat, block: array<byte>, replace: bool, base: nat, end: nat)
      requires Linked() && block !in Arrays()
      modifies this`chunk, this`objectBase, this`nextFree, this`chunkLimit, this`maybeEmpty, this`chain
      ensures Linked() && Arrays() <= old(Arrays()) + {block} && chunk.contents == block
      ensures View() == old(View().(
                chunks := (if replace then Values(chain)[..|chain| - 1] else Values(chain)) + [M.Chunk(at, block[..])],
                objectBase := base, nextFree := end, chunkLimit := at + M.HEADER + block.Length, maybeEmpty := false))
    {
      hide Values, Link;
      Chain(at, block, replace);
      objectBase := base;
      nextFree := end;
      chunkLimit := chunk.limit;
      maybeEmpty := false;
    }

    /** _obstack_newchunk */
    method NewChunk(n: int, at: nat, block: array<byte>)
      requires Linked() && View().Valid() && block !in Arrays() && View().Fits(M.Chunk(at, block[..]), n)
      modifies this, block
      ensures Linked() && Arrays() <= old(Arrays()) + {block} && chunk.contents == block
      ensures View() == M.NewChunk(old(View()), n, old(M.Chunk(at, block[..])))
    {
      hide AndNot, IsMask, M.WellChained, Values, Link, M.Apart, M.Chunk.Write, M.Chunk.Read, M.NewChunk, M.Alone,
        M.Obstack.Valid, M.Obstack.Growing;
      NewChunkParts(View(), n, M.Chunk(at, block[..]));
      var size := nextFree - objectBase;
      var start: nat := PtrAlign(cfg.narrow, at, at + M.HEADER, cfg.mask);
      CopyGrowing(start, at, block);
      var alone := IsAlone();
      MoveTo(at, block, alone, start, start + size);
    }

    // ----- The GNU C family -----

    /** The bytes are stored at next_free, which moves past them. */
    method Append(bytes: seq<byte>)
      requires Linked() && View().Valid() && nextFree + |bytes| <= chunkLimit
      modifies this`nextFree, chunk.contents
      ensures Linked() && View() == M.Append(old(View()), bytes)
    {
      hide AndNot, IsMask, M.WellChained, Values, Link, M.Chunk.Write, M.Chunk.Read;
      Memcpy(bytes);
      nextFree := nextFree + |bytes|;
    }

    /** obstack_make_room; `block` at `at` is what the allocator would give out. */
    method MakeRoom(n: int, at: nat, block: array<byte>)
      requires Linked() && View().Valid() && Offers(n, at, block)
      modifies this, chunk.contents, block
      ensures Linked() && Arrays() <= old(Arrays()) + {block}
      ensures View() == M.MakeRoom(old(View()), n, old(M.Chunk(at, block[..])))
    {
      hide AndNot, IsMask, M.WellChained, Values, Link, M.Chunk.Write, M.Chunk.Read, M.NewChunk, M.Append;
      if chunkLimit - nextFree < n {
        NewChunk(n, at, block);
      }
    }

    method Grow(bytes: seq<byte>, at: nat, block: array<byte>)
      requires Linked() && View().Valid() && Offers(|bytes|, at, block)
      modifies this, chunk.contents, block
      ensures Linked() && Arrays() <= old(Arrays()) + {block}
      ensures View() == M.Grow(old(View()), bytes, old(M.Chunk(at, block[..])))
    {
      hide AndNot, IsMask, M.WellChained, Values, Link, M.Chunk.Write, M.Chunk.Read, M.NewChunk, M.Append;
      if nextFree + |bytes| > chunkLimit {
        NewChunk(|bytes|, at, block);
      }
      Append(bytes);
    }

    method Grow0(bytes: seq<byte>, at: nat, block: array<byte>)
      requires Linked() && View().Valid() && Offers(|bytes| + 1, at, block)
      modifies this, chunk.contents, block
      ensures Linked() && Arrays() <= old(Arrays()) + {block}
      ensures View() == M.Grow0(old(View()), bytes, old(M.Chunk(at, block[..])))
    {
      hide AndNot, IsMask, M.WellChained, Values, Link, M.Chunk.Write, M.Chunk.Read, M.NewChunk, M.Append;
      if nextFree + |bytes| + 1 > chunkLimit {
        NewChunk(|bytes| + 1, at, block);
      }
      Append(bytes);
      Append([0]);
    }

    method OneGrowFast(datum: byte)
      requires Linked() && View().Valid() && nextFree + 1 <= chunkLimit
      modifies this`nextFree, chunk.contents
      ensures Linked() && View() == M.OneGrowFast(old(View()), datum)
    {
      Append([datum]);
    }

    method OneGrow(datum: byte, at: nat, block: array<byte>)
      requires Linked() && View().Valid() && Offers(1, at, block)
      modifies this, chunk.contents, block
      ensures Linked() && Arrays() <= old(Arrays()) + {block}
      ensures View() == M.OneGrow(old(View()), datum, old(M.Chunk(at, block[..])))
    {
      hide AndNot, IsMask, M.WellChained, Values, Link, M.Chunk.Write, M.Chunk.Read, M.NewChunk, M.Append;
      if nextFree + 1 > chunkLimit {
        NewChunk(1, at, block);
      }
      OneGrowFast(datum);
    }

    method BlankFast(n: int)
      requires Linked() && View().Valid() && objectBase <= nextFree + n <= chunkLimit
      modifies this`nextFree
      ensures Linked() && View() == M.BlankFast(old(View()), n)
    {
      nextFree := nextFree + n;
    }

    method Blank(n: int, at: nat, block: array<byte>)
      requires Linked() && View().Valid() && Offers(n, at, block)
      requires objectBase <= nextFree + n
      modifies this, chunk.contents, block
      ensures Linked() && Arrays() <= old(Arrays()) + {block}
      ensures View() == M.Blank(old(View()), n, old(M.Chunk(at, block[..])))
    {
      hide AndNot, IsMask, M.WellChained, Values, Link, M.Chunk.Write, M.Chunk.Read, M.NewChunk, M.Append;
      if chunkLimit - nextFree < n {
        NewChunk(n, at, block);
      }
      BlankFast(n);
    }

    method Finish() returns (value: nat)
      requires Linked() && View().Valid()
      modifies this`maybeEmpty, this`nextFree, this`objectBase
      ensures Linked() && M.Finish(old(View())) == M.Carved(View(), value)
    {
      hide AndNot, IsMask, M.WellChained, Values, Link;
      M.NextBaseBounds(cfg, objectBase, nextFree, chunkLimit);
      value := objectBase;
      if nextFree == value {
        maybeEmpty := true;
      }
      nextFree := PtrAlign(cfg.narrow, objectBase, nextFree, cfg.mask);
      if nextFree - chunk.address > chunkLimit - chunk.address {
        nextFree := chunkLimit;
      }
      objectBase := nextFree;
    }

    method Alloc(n: int, at: nat, block: array<byte>) returns (value: nat)
      requires Linked() && View().Valid() && Offers(n, at, block)
      requires objectBase <= nextFree + n
      modifies this, chunk.contents, block
      ensures Linked() && Arrays() <= old(Arrays()) + {block}
      ensures M.Alloc(old(View()), n, old(M.Chunk(at, block[..]))) == M.Carved(View(), value)
    {
      hide AndNot, IsMask, M.WellChained, Values, Link, M.Blank, M.Grow, M.Grow0, M.Finish;
      Blank(n, at, block);
      value := Finish();
    }

    method Copy(bytes: seq<byte>, at: nat, block: array<byte>) returns (value: nat)
      requires Linked() && View().Valid() && Offers(|bytes|, at, block)
      modifies this, chunk.contents, block
      ensures Linked() && Arrays() <= old(Arrays()) + {block}
      ensures M.Copy(old(View()), bytes, old(M.Chunk(at, block[..]))) == M.Carved(View(), value)
    {
      hide AndNot, IsMask, M.WellChained, Values, Link, M.Blank, M.Grow, M.Grow0, M.Finish;
      Grow(bytes, at, block);
      value := Finish();
    }

    method Copy0(bytes: seq<byte>, at: nat, block: array<byte>) returns (value: nat)
      requires Linked() && View().Valid() && Offers(|bytes| + 1, at, block)
      modifies this, chunk.contents, block
      ensures Linked() && Arrays() <= old(Arrays()) + {block}
      ensures M.Copy0(old(View()), bytes, old(M.Chunk(at, block[..]))) == M.Carved(View(), value)
    {
      hide AndNot, IsMask, M.WellChained, Values, Link, M.Blank, M.Grow, M.Grow0, M.Finish;
      Grow0(bytes, at, block);
      value := Finish();
    }

    method EmptyP() returns (b: bool)
      requires Linked() && View().Valid()
      ensures b == M.EmptyP(View())
    {
      hide AndNot, IsMask, M.WellChained, Values;
      assert Link(chain, |chain| - 1);
      b := chunk.prev == null && nextFree == PtrAlign(cfg.narrow, chunk.address, chunk.address + M.HEADER, cfg.mask);
    }

    /** What is left after a free that ended in `fate`. */
    twostate predicate FreedAs(r: M.Freed, fate: Fate)
      reads this, chain, Arrays()
    {
      match r
      case Unwound(s) => fate.Kept? && Linked() && Arrays() <= old(Arrays()) && View() == s
      case Released => fate.AllReleased?
      case Aborted => fate.Abort?
    }

    /** The loop of __obstack_free: let chunks go, newest first, until one holds obj. */
    method WalkBack(obj: int) returns (lp: Chunk?, ghost k: nat)
      requires Linked()
      modifies this`maybeEmpty
      ensures Linked() && k == M.Walk(old(View()).chunks, obj) <= |chain| && lp == if k == 0 then null else chain[k - 1]
      ensures maybeEmpty == (old(maybeEmpty) || k < |chain|)
      ensures lp != null ==> lp.address < obj && lp.limit == M.FreeChunks(old(View()), obj).s.chunkLimit
    {
      hide Values, AndNot, IsMask, M.Walk, M.WellChained;
      lp, k := chunk, |chain|;
      ghost var chunks := View().chunks;
      while lp != null && (lp.address >= obj || lp.limit < obj)
        invariant k <= |chain| && lp == if k == 0 then null else chain[k - 1]
        invariant M.Walk(chunks, obj) <= k
        invariant maybeEmpty == (old(maybeEmpty) || k < |chain|)
        decreases k
      {
        assert Link(chain, k - 1);
        assert !chunks[k - 1].Covers(obj);
        lp := lp.prev;
        k := k - 1;
        maybeEmpty := true;
      }
      if lp != null {
        assert Link(chain, k - 1);
        assert chunks[k - 1].Covers(obj);
      }
    }

    /** h->chunk = lp: the newer chunks leave the chain. */
    method Unchain(lp: Chunk, ghost k: nat)
      requires Linked() && 0 < k <= |chain| && lp == chain[k - 1]
      modifies this`chunk, this`chain
      ensures Linked() && Arrays() <= old(Arrays()) && Values(chain) == old(Values(chain))[..k]
    {
      hide Values;
      chunk := lp;
      chain := chain[..k];
      forall i: nat | i < k ensures Link(chain, i) {
        assert old(Link(chain, i));
      }
    }

    /** The object at obj in chunk lp becomes the growing one. */
    method Land(lp: Chunk, ghost k: nat, obj: nat)
      requires Linked() && 0 < k <= |chain| && lp == chain[k - 1]
      modifies this`chunk, this`objectBase, this`nextFree, this`chunkLimit, this`chain
      ensures Linked() && Arrays() <= old(Arrays())
      ensures View() == old(View()).(chunks := old(Values(chain))[..k], objectBase := obj, nextFree := obj,
                                     chunkLimit := lp.limit)
    {
      hide Values, Link;
      Unchain(lp, k);
      objectBase := obj;
      nextFree := obj;
      chunkLimit := lp.limit;
    }

    /** __obstack_free */
    method FreeChunks(obj: int) returns (fate: Fate)
      requires Linked()
      modifies this`chunk, this`objectBase, this`nextFree, this`chunkLimit, this`maybeEmpty, this`chain
      ensures FreedAs(M.FreeChunks(old(View()), obj), fate)
    {
      hide AndNot, IsMask, M.WellChained, Values, M.Walk, Link, Linked, M.Chunk.Limit, M.Chunk.Covers, Chunk.Value,
        M.FreeChunks;
      FreeChunksParts(View(), obj);
      var lp, k := WalkBack(obj);
      if lp != null {
        Land(lp, k, obj);
        fate := Kept;
      } else if obj == 0 {
        fate := AllReleased;
      } else {
        fate := Abort;
      }
    }

    method Free(obj: nat) returns (fate: Fate)
      requires Linked() && View().Valid()
      modifies this
      ensures FreedAs(M.Free(old(View()), obj), fate)
    {
      hide AndNot, IsMask, M.WellChained, Values, Link, M.FreeChunks;
      assert chunk.Value() == View().Current();
      if chunk.address < obj < chunkLimit {
        objectBase := obj;
        nextFree := obj;
        fate := Kept;
      } else {
        fate := FreeChunks(obj);
      }
    }

    // ----- The family for other compilers -----

    /** temp = len, then a new chunk if temp + extra more bytes do not fit. */
    method CommaReserve(len: int, extra: nat, at: nat, block: array<byte>)
      requires Linked() && View().Valid() && Offers(len + extra, at, block)
      modifies this, chunk.contents, block
      ensures Linked() && Arrays() <= old(Arrays()) + {block}
      ensures View() == M.CommaReserve(old(View()), len, extra, old(M.Chunk(at, block[..])))
      ensures chunk.contents in {old(chunk.contents), block}
    {
      hide AndNot, IsMask, M.WellChained, Values, Link, M.Chunk.Write, M.Chunk.Read, M.NewChunk;
      M.NewChunkIgnoresTemp(View(), len, len + extra, M.Chunk(at, block[..]));
      temp := len;
      if nextFree + temp + extra > chunkLimit {
        NewChunk(temp + extra, at, block);
      }
    }

    /** memcpy (next_free, source, temp), next_free += temp */
    method CommaAppend(source: seq<byte>)
      requires Linked() && View().Valid() && temp == |source| && nextFree + temp <= chunkLimit
      modifies this`nextFree, chunk.contents
      ensures Linked() && View() == M.CommaAppend(old(View()), source)
    {
      hide AndNot, IsMask, M.WellChained, Values, Link, M.Chunk.Write, M.Chunk.Read;
      Memcpy(source[..temp]);
      nextFree := nextFree + temp;
    }

    method CommaMakeRoom(n: int, at: nat, block: array<byte>)
      requires Linked() && View().Valid() && Offers(n, at, block)
      modifies this, chunk.contents, block
      ensures Linked() && Arrays() <= old(Arrays()) + {block}
      ensures View() == M.CommaMakeRoom(old(View()), n, old(M.Chunk(at, block[..])))
    {
      CommaReserve(n, 0, at, block);
    }

    method CommaGrow(bytes: seq<byte>, at: nat, block: array<byte>)
      requires Linked() && View().Valid() && Offers(|bytes|, at, block)
      modifies this, chunk.contents, block
      ensures Linked() && Arrays() <= old(Arrays()) + {block}
      ensures View() == M.CommaGrow(old(View()), bytes, old(M.Chunk(at, block[..])))
    {
      hide AndNot, IsMask, M.WellChained, Values, Link, M.Chunk.Write, M.Chunk.Read, M.CommaReserve, M.CommaAppend,
        M.Append;
      CommaReserve(|bytes|, 0, at, block);
      CommaAppend(bytes);
    }

    method CommaGrow0(bytes: seq<byte>, at: nat, block: array<byte>)
      requires Linked() && View().Valid() && Offers(|bytes| + 1, at, block)
      modifies this, chunk.contents, block
      ensures Linked() && Arrays() <= old(Arrays()) + {block}
      ensures View() == M.CommaGrow0(old(View()), bytes, old(M.Chunk(at, block[..])))
    {
      hide AndNot, IsMask, M.WellChained, Values, Link, M.Chunk.Write, M.Chunk.Read, M.CommaReserve, M.CommaAppend,
        M.Append;
      CommaReserve(|bytes|, 1, at, block);
      CommaAppend(bytes);
      Append([0]);
    }

    method CommaOneGrow(datum: byte, at: nat, block: array<byte>)
      requires Linked() && View().Valid() && Offers(1, at, block)
      modifies this, chunk.contents, block
      ensures Linked() && Arrays() <= old(Arrays()) + {block}
      ensures View() == M.CommaOneGrow(old(View()), datum, old(M.Chunk(at, block[..])))
    {
      hide AndNot, IsMask, M.WellChained, Values, Link, M.Chunk.Write, M.Chunk.Read, M.NewChunk, M.Append;
      if nextFree + 1 > chunkLimit {
        NewChunk(1, at, block);
      }
      OneGrowFast(datum);
    }

    method CommaBlank(n: int, at: nat, block: array<byte>)
      requires Linked() && View().Valid() && Offers(n, at, block)
      requires objectBase <= nextFree + n
      modifies this, chunk.contents, block
      ensures Linked() && Arrays() <= old(Arrays()) + {block}
      ensures View() == M.CommaBlank(old(View()), n, old(M.Chunk(at, block[..])))
    {
      hide AndNot, IsMask, M.WellChained, Values, Link, M.Chunk.Write, M.Chunk.Read, M.CommaReserve, M.CommaAppend,
        M.Append;
      CommaReserve(n, 0, at, block);
      BlankFast(temp);
    }

    method CommaFinish() returns (value: int)
      requires Linked() && View().Valid()
      modifies this`maybeEmpty, this`nextFree, this`objectBase, this`temp
      ensures Linked() && M.CommaFinish(old(View())) == M.Carved(View(), value)
    {
      hide AndNot, IsMask, M.WellChained, Values, Link;
      M.NextBaseBounds(cfg, objectBase, nextFree, chunkLimit);
      if nextFree == objectBase {
        maybeEmpty := true;
      }
      temp := objectBase;
      nextFree := PtrAlign(cfg.narrow, objectBase, nextFree, cfg.mask);
      if nextFree - chunk.address > chunkLimit - chunk.address {
        nextFree := chunkLimit;
      }
      objectBase := nextFree;
      value := temp;
    }

    method CommaAlloc(n: int, at: nat, block: array<byte>) returns (value: int)
      requires Linked() && View().Valid() && Offers(n, at, block)
      requires objectBase <= nextFree + n
      modifies this, chunk.contents, block
      ensures Linked() && Arrays() <= old(Arrays()) + {block}
      ensures M.CommaAlloc(old(View()), n, old(M.Chunk(at, block[..]))) == M.Carved(View(), value)
    {
      hide AndNot, IsMask, M.WellChained, Values, Link, M.CommaBlank, M.CommaGrow, M.CommaGrow0, M.CommaFinish,
        M.Finish;
      CommaBlank(n, at, block);
      value := CommaFinish();
    }

    method CommaCopy(bytes: seq<byte>, at: nat, block: array<byte>) returns (value: int)
      requires Linked() && View().Valid() && Offers(|bytes|, at, block)
      modifies this, chunk.contents, block
      ensures Linked() && Arrays() <= old(Arrays()) + {block}
      ensures M.CommaCopy(old(View()), bytes, old(M.Chunk(at, block[..]))) == M.Carved(View(), value)
    {
      hide AndNot, IsMask, M.WellChained, Values, Link, M.CommaBlank, M.CommaGrow, M.CommaGrow0, M.CommaFinish,
        M.Finish;
      CommaGrow(bytes, at, block);
      value := CommaFinish();
    }

    method CommaCopy0(bytes: seq<byte>, at: nat, block: array<byte>) returns (value: int)
      requires Linked() && View().Valid() && Offers(|bytes| + 1, at, block)
      modifies this, chunk.contents, block
      ensures Linked() && Arrays() <= old(Arrays()) + {block}
      ensures M.CommaCopy0(old(View()), bytes, old(M.Chunk(at, block[..]))) == M.Carved(View(), value)
    {
      hide AndNot, IsMask, M.WellChained, Values, Link, M.CommaBlank, M.CommaGrow, M.CommaGrow0, M.CommaFinish,
        M.Finish;
      CommaGrow0(bytes, at, block);
      value := CommaFinish();
    }

    method CommaFree(obj: nat) returns (fate: Fate)
      requires Linked() && View().Valid()
      modifies this
      ensures FreedAs(M.CommaFree(old(View()), obj), fate)
    {
      hide AndNot, IsMask, M.WellChained, Values, Link, M.FreeChunks;
      assert chunk.Value() == View().Current();
      temp := obj - chunk.address;
      if temp > 0 && temp < chunkLimit - chunk.address {
        objectBase := temp + chunk.address;
        nextFree := objectBase;
        fate := Kept;
      } else {
        fate := FreeChunks(temp + chunk.address);
      }
    }
  }
}
