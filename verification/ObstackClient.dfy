/** Runs of the in-place obstack are the runs the theorems speak of. A client keeps the pointers the macros return,
    passes them to obstack_free, and stores through them. */
module ObstackClient {
  import opened Alignment
  import opened ObstackHeap
  import M = ObstackMacros
  import W = ObstackModel
  import R = ObstackRuns
  import T = ObstackTheorems

  /** The pointers are the addresses of the model's finished objects. */
  ghost predicate Pointers(pointers: seq<nat>, a: W.Model) {
    |pointers| == |a.objects| && forall i :: 0 <= i < |pointers| ==> pointers[i] == a.objects[i].addr
  }

  /** Where object i lies, by what the client knows: the growing object starts at object_base. */
  function Pointer(pointers: seq<nat>, base: nat, i: nat): nat
    requires i <= |pointers|
  {
    if i < |pointers| then pointers[i] else base
  }

  lemma PointerIsSlot(w: W.World, pointers: seq<nat>, i: nat)
    requires w.s.chunks != [] && Pointers(pointers, w.a) && i <= |pointers|
    ensures Pointer(pointers, w.s.objectBase, i) == w.Slots()[i].addr
  {
  }

  // ----- Stores through pointers -----

  /** The chunk whose memory p is in. */
  method Holder(h: Obstack, p: nat) returns (c: Chunk?, ghost k: nat)
    requires h.Linked()
    ensures k == M.Walk(h.View().chunks, p + 1) <= |h.chain| && c == if k == 0 then null else h.chain[k - 1]
  {
    hide Values, M.Walk;
    c, k := h.chunk, |h.chain|;
    ghost var chunks := h.View().chunks;
    while c != null && !(c.address < p + 1 <= c.limit)
      invariant k <= |h.chain| && c == if k == 0 then null else h.chain[k - 1]
      invariant M.Walk(chunks, p + 1) <= k
      decreases k
    {
      assert Link(h.chain, k - 1);
      assert !chunks[k - 1].Covers(p + 1);
      c := c.prev;
      k := k - 1;
    }
    if c != null {
      assert Link(h.chain, k - 1);
      assert chunks[k - 1].Covers(p + 1);
    }
  }

  method StoreIn(c: Chunk, p: nat, datum: byte)
    requires c.address + M.HEADER <= p < c.address + M.HEADER + c.contents.Length
    modifies c.contents
    ensures c.Value() == old(c.Value()).Write(p, [datum])
  {
    CopyInto(c.contents, p - c.address - M.HEADER, [datum]);
  }

  /** *p = datum */
  method Store(h: Obstack, p: nat, datum: byte)
    requires h.Linked()
    modifies h.Arrays()
    ensures h.Linked() && h.View() == R.Poke(old(h.View()), p, datum)
  {
    hide Values, M.Walk, M.Chunk.Write, Link;
    var c, k := Holder(h, p);
    if c != null && c.address + M.HEADER <= p {
      ghost var before := h.View().chunks;
      assert before[k - 1] == c.Value();
      StoreIn(c, p, datum);
      assert h.View().chunks == before[k - 1 := c.Value()];
    }
  }

  // ----- Calls and runs -----

  predicate Carves(op: R.Op) { op.Alloc? || op.Copy? || op.Copy0? || op.Finish? }

  /** What a legal call finds in place: a valid control block and, if room is needed, a chunk that fits. */
  lemma Ready(w: W.World, call: R.Call)
    requires w.Sim() && R.Legal(w, call)
    ensures w.s.Valid()
    ensures match call.op
            case MakeRoom(n) => M.Provided(w.s, n, call.room)
            case Grow(bytes) => M.Provided(w.s, |bytes|, call.room)
            case Grow0(bytes) => M.Provided(w.s, |bytes| + 1, call.room)
            case OneGrow(_) => M.Provided(w.s, 1, call.room)
            case OneGrowFast(_) => w.s.nextFree + 1 <= w.s.chunkLimit
            case Blank(n) => M.Provided(w.s, n, call.room) && w.s.objectBase <= w.s.nextFree + n
            case BlankFast(n) => w.s.objectBase <= w.s.nextFree + n <= w.s.chunkLimit
            case Alloc(n) => M.Provided(w.s, n, call.room) && w.s.objectBase <= w.s.nextFree + n
            case Copy(bytes) => M.Provided(w.s, |bytes|, call.room)
            case Copy0(bytes) => M.Provided(w.s, |bytes| + 1, call.room)
            case _ => true
  {
    hide AndNot, IsMask, M.WellChained, W.Layout, W.World.NoneEmptyHere, M.Provided;
  }

  /** The macro behind a call with a value; the value is the address of the model's newest object. */
  ghost function Carved(w: W.World, call: R.Call): (r: M.Carved)
    requires w.Sim() && R.Legal(w, call) && Carves(call.op)
    ensures var w', n := R.Step(w, call), |w.a.objects|;
            && w'.s == r.s
            && |w'.a.objects| == n + 1 && w.a.objects <= w'.a.objects && w'.a.objects[n].addr == r.value
  {
    hide AndNot, IsMask, M.WellChained, W.Layout, W.World.NoneEmptyHere, M.Provided, M.Alloc, M.Copy, M.Copy0, M.Finish;
    Ready(w, call);
    match call.op
    case Alloc(n) => M.Alloc(w.s, n, call.room)
    case Copy(bytes) => M.Copy(w.s, bytes, call.room)
    case Copy0(bytes) => M.Copy0(w.s, bytes, call.room)
    case Finish => M.Finish(w.s)
  }

  /** The macro behind a call that makes room or grows. */
  ghost function Grown(w: W.World, call: R.Call): (s: M.Obstack)
    requires w.Sim() && R.Legal(w, call) && !Carves(call.op) && !call.op.Free? && !call.op.Store?
    ensures R.Step(w, call).s == s && R.Step(w, call).a.objects == w.a.objects
  {
    hide AndNot, IsMask, M.WellChained, W.Layout, W.World.NoneEmptyHere, M.Provided, M.MakeRoom, M.Grow, M.Grow0,
      M.OneGrow, M.OneGrowFast, M.Blank, M.BlankFast;
    Ready(w, call);
    match call.op
    case MakeRoom(n) => M.MakeRoom(w.s, n, call.room)
    case Grow(bytes) => M.Grow(w.s, bytes, call.room)
    case Grow0(bytes) => M.Grow0(w.s, bytes, call.room)
    case OneGrow(datum) => M.OneGrow(w.s, datum, call.room)
    case OneGrowFast(datum) => M.OneGrowFast(w.s, datum)
    case Blank(n) => M.Blank(w.s, n, call.room)
    case BlankFast(n) => M.BlankFast(w.s, n)
  }

  /** Carry out a call with a value. */
  method Carve(h: Obstack, op: R.Op, at: nat, block: array<byte>, ghost a: W.Model) returns (value: nat)
    requires h.Linked() && block !in h.Arrays() && Carves(op)
    requires var w := W.World(h.View(), a); w.Sim() && R.Legal(w, R.Call(op, M.Chunk(at, block[..])))
    modifies h, h.chunk.contents, block
    ensures h.Linked() && h.Arrays() <= old(h.Arrays()) + {block}
    ensures M.Carved(h.View(), value) == old(Carved(W.World(h.View(), a), R.Call(op, M.Chunk(at, block[..]))))
  {
    hide AndNot, IsMask, M.WellChained, Values, Link, W.World.Sim, R.Legal, M.Provided, R.Step, M.Alloc, M.Copy,
      M.Copy0, M.Finish;
    Ready(W.World(h.View(), a), R.Call(op, M.Chunk(at, block[..])));
    match op
    case Alloc(n) => value := h.Alloc(n, at, block);
    case Copy(bytes) => value := h.Copy(bytes, at, block);
    case Copy0(bytes) => value := h.Copy0(bytes, at, block);
    case Finish => value := h.Finish();
  }

  /** Carry out a call that makes room or grows. */
  method Grow(h: Obstack, op: R.Op, at: nat, block: array<byte>, ghost a: W.Model)
    requires h.Linked() && block !in h.Arrays() && !Carves(op) && !op.Free? && !op.Store?
    requires var w := W.World(h.View(), a); w.Sim() && R.Legal(w, R.Call(op, M.Chunk(at, block[..])))
    modifies h, h.chunk.contents, block
    ensures h.Linked() && h.Arrays() <= old(h.Arrays()) + {block}
    ensures h.View() == old(Grown(W.World(h.View(), a), R.Call(op, M.Chunk(at, block[..]))))
  {
    hide AndNot, IsMask, M.WellChained, Values, Link, W.World.Sim, R.Legal, M.Provided, R.Step, M.MakeRoom, M.Grow,
      M.Grow0, M.OneGrow, M.OneGrowFast, M.Blank, M.BlankFast;
    Ready(W.World(h.View(), a), R.Call(op, M.Chunk(at, block[..])));
    match op
    case MakeRoom(n) => h.MakeRoom(n, at, block);
    case Grow(bytes) => h.Grow(bytes, at, block);
    case Grow0(bytes) => h.Grow0(bytes, at, block);
    case OneGrow(datum) => h.OneGrow(datum, at, block);
    case OneGrowFast(datum) => h.OneGrowFast(datum);
    case Blank(n) => h.Blank(n, at, block);
    case BlankFast(n) => h.BlankFast(n);
  }

  /** obstack_free with the pointer the client has for the object. */
  method Free(h: Obstack, op: R.Op, room: M.Chunk, pointers: seq<nat>, ghost a: W.Model)
    requires h.Linked() && Pointers(pointers, a) && op.Free?
    requires var w := W.World(h.View(), a); w.Sim() && R.Legal(w, R.Call(op, room))
    modifies h
    ensures h.Linked() && h.Arrays() <= old(h.Arrays())
    ensures var w' := R.Step(old(W.World(h.View(), a)), R.Call(op, room));
            h.View() == w'.s && op.i <= |a.objects| && w'.a.objects == a.objects[..op.i]
  {
    hide AndNot, IsMask, M.WellChained, Values, W.Layout, W.World.NoneEmptyHere, Link;
    ghost var w := W.World(h.View(), a);
    W.SimFree(w, op.i);
    PointerIsSlot(w, pointers, op.i);
    var _ := h.Free(Pointer(pointers, h.objectBase, op.i));
  }

  /** A store through the pointer the client has for the object. */
  method StoreAt(h: Obstack, op: R.Op, room: M.Chunk, pointers: seq<nat>, ghost a: W.Model)
    requires h.Linked() && Pointers(pointers, a) && op.Store?
    requires var w := W.World(h.View(), a); w.Sim() && R.Legal(w, R.Call(op, room))
    modifies h.Arrays()
    ensures h.Linked()
    ensures var w' := R.Step(old(W.World(h.View(), a)), R.Call(op, room));
            h.View() == w'.s && Pointers(pointers, w'.a)
  {
    hide AndNot, IsMask, M.WellChained, Values, W.Layout, W.World.NoneEmptyHere, Link, R.Poke;
    ghost var w := W.World(h.View(), a);
    PointerIsSlot(w, pointers, op.i);
    Store(h, Pointer(pointers, h.objectBase, op.i) + op.k, op.datum);
  }

  /** Carry out one call on the heap. `block` at `at` is what the allocator gives out should a chunk be needed. */
  method Perform(h: Obstack, op: R.Op, at: nat, block: array<byte>, pointers: seq<nat>, ghost a: W.Model)
    returns (pointers': seq<nat>, ghost w': W.World)
    requires h.Linked() && block !in h.Arrays()
    requires var w := W.World(h.View(), a); w.Sim() && R.Legal(w, R.Call(op, M.Chunk(at, block[..])))
    requires Pointers(pointers, a)
    modifies h, h.Arrays(), block
    ensures h.Linked() && h.Arrays() <= old(h.Arrays()) + {block}
    ensures w' == R.Step(old(W.World(h.View(), a)), old(R.Call(op, M.Chunk(at, block[..]))))
    ensures h.View() == w'.s && Pointers(pointers', w'.a)
  {
    hide AndNot, IsMask, Values, Link, W.World.Sim, R.Legal, R.Step, Carved, Grown;
    w' := R.Step(W.World(h.View(), a), R.Call(op, M.Chunk(at, block[..])));
    pointers' := pointers;
    if Carves(op) {
      var value := Carve(h, op, at, block, a);
      pointers' := pointers + [value];
    } else if op.Free? {
      Free(h, op, M.Chunk(at, block[..]), pointers, a);
      pointers' := pointers[..op.i];
    } else if op.Store? {
      StoreAt(h, op, M.Chunk(at, block[..]), pointers, a);
    } else {
      Grow(h, op, at, block, a);
    }
  }

  /** A call, with the block at the client's allocator's disposal for it. */
  datatype Request = Request(op: R.Op, at: nat, block: array<byte>)

  ghost function Calls(rs: seq<Request>): seq<R.Call>
    reads set r | r in rs :: r.block
  {
    if rs == [] then [] else [R.Call(rs[0].op, M.Chunk(rs[0].at, rs[0].block[..]))] + Calls(rs[1..])
  }

  /** A whole run, in place: the obstack ends in the state the model of the run ends in, and the pointers the macros
      returned are where the model has the objects that are left. */
  method PerformAll(h: Obstack, rs: seq<Request>, pointers: seq<nat>, ghost a: W.Model)
    returns (pointers': seq<nat>, ghost w': W.World)
    requires h.Linked()
    requires forall i :: 0 <= i < |rs| ==> rs[i].block !in h.Arrays()
    requires forall i, j :: 0 <= i < j < |rs| ==> rs[i].block != rs[j].block
    requires var w := W.World(h.View(), a); w.Sim() && T.LegalRun(w, Calls(rs))
    requires Pointers(pointers, a)
    modifies h, h.Arrays(), set r | r in rs :: r.block
    ensures h.Linked()
    ensures old(W.World(h.View(), a).Sim() && T.LegalRun(W.World(h.View(), a), Calls(rs)))
    ensures w' == T.Run(old(W.World(h.View(), a)), old(Calls(rs)))
    ensures h.View() == w'.s && Pointers(pointers', w'.a)
    decreases |rs|
  {
    hide AndNot, IsMask, Values, Link, W.World.Sim, R.Legal, R.Step, Pointers;
    if rs == [] {
      return pointers, W.World(h.View(), a);
    }
    ghost var w, calls := W.World(h.View(), a), Calls(rs);
    var r := rs[0];
    pointers', w' := Perform(h, r.op, r.at, r.block, pointers, a);
    assert Calls(rs[1..]) == calls[1..];
    pointers', w' := PerformAll(h, rs[1..], pointers', w'.a);
  }

  /** From _obstack_begin on: the obstack ends in a reachable state, about which ObstackTheorems speaks. */
  method Session(cfg: M.Config, at: nat, block: array<byte>, rs: seq<Request>)
    returns (h: Obstack, pointers: seq<nat>, ghost w: W.World)
    requires IsMask(cfg.mask) && M.Start(M.Chunk(at, block[..]), cfg) <= at + M.HEADER + block.Length
    requires forall i :: 0 <= i < |rs| ==> rs[i].block != block
    requires forall i, j :: 0 <= i < j < |rs| ==> rs[i].block != rs[j].block
    requires T.LegalRun(T.Fresh(M.Chunk(at, block[..]), cfg), Calls(rs))
    modifies block, set r | r in rs :: r.block
    ensures h.Linked() && T.Reachable(w) && h.View() == w.s && Pointers(pointers, w.a)
  {
    hide AndNot, IsMask, Values, Link, W.World.Sim, R.Legal, R.Step;
    ghost var room, calls := M.Chunk(at, block[..]), Calls(rs);
    h := new Obstack.Begin(cfg, at, block);
    assert W.World(h.View(), W.Model([], [])) == T.Fresh(room, cfg);
    pointers, w := PerformAll(h, rs, [], W.Model([], []));
    assert w == T.Run(T.Fresh(room, cfg), calls);
  }
}
