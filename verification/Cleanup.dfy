/** Cancellation cleanup handlers: what pthread_cleanup_push and pthread_cleanup_pop mean. A thread is a stack of
    pushed handlers (section 2.9.5.3 of IEEE Std 1003.1-2008, System Interfaces). */
module Cleanup {

  datatype CancelType = Deferred | Asynchronous

  datatype Handler = Handler(routine: nat, arg: int)

  /** A handler was called while the given cancellation type was in force. */
  datatype Event = Event(h: Handler, cancelType: CancelType)

  /** Well-nested code: what follows a statement is its last argument. A Block is a push and its matching pop
      (push_defer_np and pop_restore_np if `deferred`) around a body. */
  datatype Prog =
    | Done
    | SetType(t: CancelType, next: Prog)
    | Block(h: Handler, deferred: bool, body: Prog, execute: int, next: Prog)

  // ----- The meaning: one instruction after another on a thread with a handler stack -----

  datatype Instr =
    | Set(t: CancelType)
    | Push(h: Handler, deferred: bool)
    | Pop(restore: bool, execute: int)

  function Flatten(p: Prog): seq<Instr> {
    match p
    case Done => []
    case SetType(t, next) => [Set(t)] + Flatten(next)
    case Block(h, deferred, body, execute, next) =>
      [Push(h, deferred)] + (Flatten(body) + ([Pop(deferred, execute)] + Flatten(next)))
  }

  /** A handler waiting on the stack, with the cancellation type that was in force when it was pushed. */
  datatype Pushed = Pushed(h: Handler, saved: CancelType)

  /** `dropped` are the handlers popped without being called. */
  datatype Thread = Thread(cancelType: CancelType, stack: seq<Pushed>, log: seq<Event>, dropped: seq<Handler>)

  function Exec1(m: Thread, i: Instr): Thread {
    match i
    case Set(t) => m.(cancelType := t)
    case Push(h, deferred) =>
      m.(stack := m.stack + [Pushed(h, m.cancelType)], cancelType := if deferred then Deferred else m.cancelType)
    case Pop(restore, execute) =>
      if m.stack == [] then m
      else
        var top := m.stack[|m.stack| - 1];
        var m1 := m.(stack := m.stack[..|m.stack| - 1], cancelType := if restore then top.saved else m.cancelType);
        if execute != 0 then m1.(log := m1.log + [Event(top.h, m1.cancelType)])
        else m1.(dropped := m1.dropped + [top.h])
  }

  function Exec(m: Thread, code: seq<Instr>): Thread
    decreases |code|
  {
    if code == [] then m else Exec(Exec1(m, code[0]), code[1..])
  }

  /** The calls made at termination: what is still pushed, innermost first. */
  function Unwinding(stack: seq<Pushed>, t: CancelType): (r: seq<Event>)
    ensures |r| == |stack|
    ensures forall k :: 0 <= k < |stack| ==> r[k] == Event(stack[|stack| - 1 - k].h, t)
  {
    if stack == [] then [] else [Event(stack[|stack| - 1].h, t)] + Unwinding(stack[..|stack| - 1], t)
  }

  function Terminate(m: Thread): Thread {
    m.(stack := [], log := m.log + Unwinding(m.stack, m.cancelType))
  }

  function Min(a: nat, b: nat): nat { if a < b then a else b }

  /** The part of p that runs if the thread exits or is cancelled after n instructions. */
  function Reached(p: Prog, n: nat): seq<Instr> {
    Flatten(p)[..Min(n, |Flatten(p)|)]
  }

  function Fresh(t: CancelType): Thread { Thread(t, [], [], []) }

  /** Every handler call of a thread that starts with cancellation type t, runs p and ends after n instructions
      (or, for a large n, after p). */
  function Calls(p: Prog, t: CancelType, n: nat): seq<Event> {
    Terminate(Exec(Fresh(t), Reached(p, n))).log
  }

  // ----- Executing piece by piece -----

  lemma {:induction false} ExecConcat(m: Thread, a: seq<Instr>, b: seq<Instr>)
    ensures Exec(m, a + b) == Exec(Exec(m, a), b)
    decreases |a|
  {
    if a == [] {
      assert a + b == b;
    } else {
      ExecConcat(Exec1(m, a[0]), a[1..], b);
      assert (a + b)[1..] == a[1..] + b;
    }
  }

  /** A run of SetType or Block, split at its first instruction and, for a block, at its pop. */
  lemma ReachedSet(p: Prog, n: nat)
    requires p.SetType? && n > 0
    ensures Reached(p, n) == [Set(p.t)] + Reached(p.next, n - 1)
    ensures |Flatten(p)| == 1 + |Flatten(p.next)|
  {
  }

  lemma ReachedBody(p: Prog, n: nat)
    requires p.Block? && 0 < n <= |Flatten(p.body)| + 1
    ensures Reached(p, n) == [Push(p.h, p.deferred)] + Reached(p.body, n - 1)
  {
  }

  lemma ReachedNext(p: Prog, n: nat)
    requires p.Block? && |Flatten(p.body)| + 1 < n
    ensures Reached(p, n) == [Push(p.h, p.deferred)]
                             + (Flatten(p.body)
                                + ([Pop(p.deferred, p.execute)] + Reached(p.next, n - 2 - |Flatten(p.body)|)))
  {
    var k, rest := |Flatten(p.body)|, Flatten(p.next);
    assert ([Pop(p.deferred, p.execute)] + rest)[..Min(n, |Flatten(p)|) - 1 - k]
        == [Pop(p.deferred, p.execute)] + Reached(p.next, n - 2 - k);
  }

  /** After the push: the thread in the body of a block. */
  function Entered(m: Thread, p: Prog): Thread
    requires p.Block?
  {
    Exec1(m, Push(p.h, p.deferred))
  }

  /** After the pop, if the body ran to its end. */
  function Left(m: Thread, p: Prog): Thread
    requires p.Block?
  {
    Exec1(Exec(Entered(m, p), Flatten(p.body)), Pop(p.deferred, p.execute))
  }

  lemma ExecCons(m: Thread, i: Instr, code: seq<Instr>)
    ensures Exec(m, [i] + code) == Exec(Exec1(m, i), code)
  {
    assert ([i] + code)[1..] == code;
  }

  lemma ExecBody(m: Thread, p: Prog, n: nat)
    requires p.Block? && 0 < n <= |Flatten(p.body)| + 1
    ensures Exec(m, Reached(p, n)) == Exec(Entered(m, p), Reached(p.body, n - 1))
  {
    hide Exec, Exec1, Flatten, Reached;
    ReachedBody(p, n);
    ExecCons(m, Push(p.h, p.deferred), Reached(p.body, n - 1));
  }

  lemma ExecNext(m: Thread, p: Prog, n: nat)
    requires p.Block? && |Flatten(p.body)| + 1 < n
    ensures Exec(m, Reached(p, n)) == Exec(Left(m, p), Reached(p.next, n - 2 - |Flatten(p.body)|))
  {
    hide Exec, Exec1, Flatten, Reached;
    var pop, r := Pop(p.deferred, p.execute), Reached(p.next, n - 2 - |Flatten(p.body)|);
    ReachedNext(p, n);
    ExecCons(m, Push(p.h, p.deferred), Flatten(p.body) + ([pop] + r));
    ExecConcat(Entered(m, p), Flatten(p.body), [pop] + r);
    ExecCons(Exec(Entered(m, p), Flatten(p.body)), pop, r);
  }

  lemma ReachedAll(p: Prog)
    ensures Reached(p, |Flatten(p)|) == Flatten(p)
  {
  }

  lemma EnteredStack(p: Prog, m: Thread)
    requires p.Block?
    ensures Entered(m, p).stack == m.stack + [Pushed(p.h, m.cancelType)]
  {
  }

  lemma SetStack(m: Thread, t: CancelType)
    ensures Exec1(m, Set(t)).stack == m.stack
  {
  }

  /** A program leaves the handlers pushed before it alone, at every point of its run; at its end its own are gone. */
  lemma {:induction false} Balanced(p: Prog, m: Thread, n: nat)
    ensures m.stack <= Exec(m, Reached(p, n)).stack
    ensures |Flatten(p)| <= n ==> Exec(m, Reached(p, n)).stack == m.stack
    decreases p, 1
  {
    hide Exec, Exec1, Reached, Flatten, Left, Entered;
    if n == 0 || p.Done? {
      ReachedNone(p, m, n);
    } else if p.SetType? {
      ReachedSet(p, n);
      ExecCons(m, Set(p.t), Reached(p.next, n - 1));
      SetStack(m, p.t);
      Balanced(p.next, Exec1(m, Set(p.t)), n - 1);
    } else if n <= |Flatten(p.body)| + 1 {
      ExecBody(m, p, n);
      EnteredStack(p, m);
      Balanced(p.body, Entered(m, p), n - 1);
      BlockLength(p);
    } else {
      ExecNext(m, p, n);
      LeftStack(p, m);
      Balanced(p.next, Left(m, p), n - 2 - |Flatten(p.body)|);
      BlockLength(p);
    }
  }

  lemma ReachedNone(p: Prog, m: Thread, n: nat)
    requires n == 0 || p.Done?
    ensures Exec(m, Reached(p, n)) == m && (|Flatten(p)| <= n <==> p.Done?) && (p.Done? ==> |Flatten(p)| == 0)
  {
  }

  lemma BlockLength(p: Prog)
    requires p.Block?
    ensures |Flatten(p)| == |Flatten(p.body)| + 2 + |Flatten(p.next)|
  {
  }

  lemma {:induction false} LeftStack(p: Prog, m: Thread)
    requires p.Block?
    ensures Left(m, p).stack == m.stack
    ensures Exec(Entered(m, p), Flatten(p.body)).stack == m.stack + [Pushed(p.h, m.cancelType)]
    decreases p, 0
  {
    Balanced(p.body, Entered(m, p), |Flatten(p.body)|);
    ReachedAll(p.body);
  }

  // ----- Handlers pushed earlier do not matter -----

  function Under(s: seq<Pushed>, m: Thread): Thread {
    m.(stack := s + m.stack)
  }

  lemma PopUnder(s: seq<Pushed>, m: Thread, restore: bool, execute: int)
    requires m.stack != []
    ensures Exec1(Under(s, m), Pop(restore, execute)) == Under(s, Exec1(m, Pop(restore, execute)))
  {
    assert (s + m.stack)[..|s + m.stack| - 1] == s + m.stack[..|m.stack| - 1];
  }

  lemma EnteredUnder(s: seq<Pushed>, m: Thread, p: Prog)
    requires p.Block?
    ensures Entered(Under(s, m), p) == Under(s, Entered(m, p))
  {
    var x := [Pushed(p.h, m.cancelType)];
    assert (s + m.stack) + x == s + (m.stack + x);
  }

  lemma SetUnder(s: seq<Pushed>, m: Thread, t: CancelType)
    ensures Exec1(Under(s, m), Set(t)) == Under(s, Exec1(m, Set(t)))
  {
  }

  /** A program runs the same way whatever was pushed before it. */
  lemma {:induction false} Framed(p: Prog, s: seq<Pushed>, m: Thread, n: nat)
    ensures Exec(Under(s, m), Reached(p, n)) == Under(s, Exec(m, Reached(p, n)))
    decreases p, 1
  {
    hide Exec, Exec1, Reached, Flatten, Left, Entered, Under;
    if n == 0 || p.Done? {
      ReachedNone(p, m, n);
      ReachedNone(p, Under(s, m), n);
    } else if p.SetType? {
      ReachedSet(p, n);
      ExecCons(m, Set(p.t), Reached(p.next, n - 1));
      ExecCons(Under(s, m), Set(p.t), Reached(p.next, n - 1));
      SetUnder(s, m, p.t);
      Framed(p.next, s, Exec1(m, Set(p.t)), n - 1);
    } else if n <= |Flatten(p.body)| + 1 {
      ExecBody(m, p, n);
      ExecBody(Under(s, m), p, n);
      EnteredUnder(s, m, p);
      Framed(p.body, s, Entered(m, p), n - 1);
    } else {
      ExecNext(m, p, n);
      ExecNext(Under(s, m), p, n);
      LeftUnder(p, s, m);
      Framed(p.next, s, Left(m, p), n - 2 - |Flatten(p.body)|);
    }
  }

  lemma {:induction false} LeftUnder(p: Prog, s: seq<Pushed>, m: Thread)
    requires p.Block?
    ensures Left(Under(s, m), p) == Under(s, Left(m, p))
    decreases p, 0
  {
    hide Exec, Exec1, Under, Entered, Reached, Flatten;
    EnteredUnder(s, m, p);
    ReachedAll(p.body);
    Framed(p.body, s, Entered(m, p), |Flatten(p.body)|);
    LeftStack(p, m);
    PopUnder(s, Exec(Entered(m, p), Flatten(p.body)), p.deferred, p.execute);
  }

  /** Termination calls the handlers of an inner stretch of code before those pushed outside it. */
  lemma {:induction false} UnwindingUnder(s: seq<Pushed>, inner: seq<Pushed>, t: CancelType)
    ensures Unwinding(s + inner, t) == Unwinding(inner, t) + Unwinding(s, t)
  {
    if inner == [] {
      assert s + inner == s;
    } else {
      var k := |inner| - 1;
      assert (s + inner)[..|s + inner| - 1] == s + inner[..k];
      UnwindingUnder(s, inner[..k], t);
    }
  }

  // ----- Every pushed handler is accounted for exactly once -----

  function LogBag(log: seq<Event>): multiset<Handler> {
    if log == [] then multiset{} else LogBag(log[..|log| - 1]) + multiset{log[|log| - 1].h}
  }

  function StackBag(stack: seq<Pushed>): multiset<Handler> {
    if stack == [] then multiset{} else StackBag(stack[..|stack| - 1]) + multiset{stack[|stack| - 1].h}
  }

  function PushBag(code: seq<Instr>): multiset<Handler> {
    if code == [] then multiset{}
    else (if code[0].Push? then multiset{code[0].h} else multiset{}) + PushBag(code[1..])
  }

  function Account(m: Thread): multiset<Handler> {
    LogBag(m.log) + multiset(m.dropped) + StackBag(m.stack)
  }

  lemma LogBagPush(log: seq<Event>, e: Event)
    ensures LogBag(log + [e]) == LogBag(log) + multiset{e.h}
  {
    assert (log + [e])[..|log|] == log;
  }

  lemma StackBagPush(stack: seq<Pushed>, x: Pushed)
    ensures StackBag(stack + [x]) == StackBag(stack) + multiset{x.h}
  {
    assert (stack + [x])[..|stack|] == stack;
  }

  lemma StepAccount(m: Thread, i: Instr)
    ensures Account(Exec1(m, i)) == Account(m) + if i.Push? then multiset{i.h} else multiset{}
  {
    hide LogBag, StackBag;
    match i
    case Set(_) =>
    case Push(h, _) => StackBagPush(m.stack, Pushed(h, m.cancelType));
    case Pop(_, _) =>
      if m.stack != [] {
        var k := |m.stack| - 1;
        StackBagPush(m.stack[..k], m.stack[k]);
        assert m.stack[..k] + [m.stack[k]] == m.stack;
        LogBagPush(m.log, Event(m.stack[k].h, Exec1(m, i).cancelType));
      }
  }

  lemma {:induction false} CodeAccount(m: Thread, code: seq<Instr>)
    ensures Account(Exec(m, code)) == Account(m) + PushBag(code)
    decreases |code|
  {
    if code != [] {
      hide Account;
      StepAccount(m, code[0]);
      CodeAccount(Exec1(m, code[0]), code[1..]);
    }
  }

  lemma {:induction false} UnwindingBag(log: seq<Event>, stack: seq<Pushed>, t: CancelType)
    ensures LogBag(log + Unwinding(stack, t)) == LogBag(log) + StackBag(stack)
    decreases |stack|
  {
    if stack == [] {
      assert log + Unwinding(stack, t) == log;
    } else {
      var k := |stack| - 1;
      var e := Event(stack[k].h, t);
      UnwindingBag(log + [e], stack[..k], t);
      assert log + Unwinding(stack, t) == log + [e] + Unwinding(stack[..k], t);
      LogBagPush(log, e);
    }
  }

  /** Wherever the thread ends, each handler pushed so far was called exactly once or was popped uncalled, and
      none was called or dropped that was not pushed. */
  lemma ExactlyOnce(p: Prog, t: CancelType, n: nat)
    ensures LogBag(Calls(p, t, n)) + multiset(Exec(Fresh(t), Reached(p, n)).dropped) == PushBag(Reached(p, n))
  {
    hide Exec, Reached, PushBag;
    var m := Exec(Fresh(t), Reached(p, n));
    CodeAccount(Fresh(t), Reached(p, n));
    UnwindingBag(m.log, m.stack, m.cancelType);
    var l, d, k := LogBag(m.log), multiset(m.dropped), StackBag(m.stack);
    assert l + k + d == l + d + k == multiset{} + PushBag(Reached(p, n)) == PushBag(Reached(p, n));
  }

  /** A block that completes: its handler is called iff `execute` is not zero, last, and after pop_restore_np has
      put back the cancellation type of before the push, whatever the body did to it. */
  lemma BlockCompletes(p: Prog, m: Thread)
    requires p.Block?
    ensures var body := Exec(Entered(m, p), Flatten(p.body));
            var t := if p.deferred then m.cancelType else body.cancelType;
            && Left(m, p).cancelType == t
            && Left(m, p).stack == m.stack
            && Left(m, p).log == body.log + (if p.execute != 0 then [Event(p.h, t)] else [])
            && Entered(m, p).cancelType == (if p.deferred then Deferred else m.cancelType)
            && Entered(m, p).log == m.log && Entered(m, p).dropped == m.dropped
  {
    LeftStack(p, m);
  }

  // ----- The calls of a program from those of its parts -----

  /** The cancellation type in force after n instructions. */
  function TypeAt(p: Prog, t: CancelType, n: nat): CancelType {
    Exec(Fresh(t), Reached(p, n)).cancelType
  }

  /** How many instructions a program has: one for setting the type, two for a block and those in it. */
  lemma Sizes(p: Prog)
    ensures |Flatten(p)| == match p
                            case Done => 0
                            case SetType(_, next) => 1 + |Flatten(next)|
                            case Block(_, _, body, _, next) => 2 + |Flatten(body)| + |Flatten(next)|
  {
  }

  /** Before the first instruction, and after no program, nothing is called. */
  lemma CallsNone(p: Prog, t: CancelType, n: nat)
    requires n == 0 || p == Done
    ensures Calls(p, t, n) == [] && TypeAt(p, t, n) == t
  {
    ReachedNone(p, Fresh(t), n);
  }

  /** A program that begins by setting the type goes on as one that starts with that type. */
  lemma CallsAfterSet(u: CancelType, next: Prog, t: CancelType, n: nat)
    ensures Calls(SetType(u, next), t, n + 1) == Calls(next, u, n)
    ensures TypeAt(SetType(u, next), t, n + 1) == TypeAt(next, u, n)
  {
    ReachedSet(SetType(u, next), n + 1);
    ExecCons(Fresh(t), Set(u), Reached(next, n));
    assert Exec1(Fresh(t), Set(u)) == Fresh(u);
  }

  lemma EnteredFresh(p: Prog, t: CancelType)
    requires p.Block?
    ensures Entered(Fresh(t), p) == Under([Pushed(p.h, t)], Fresh(if p.deferred then Deferred else t))
  {
  }

  /** A thread that ends in the body of a block, or right before its pop, calls what the body alone would have it
      call, and then the block's handler, with the type then in force. Only a deferred push changes the type. */
  lemma CallsInBlock(p: Prog, t: CancelType, n: nat)
    requires p.Block? && n <= |Flatten(p.body)|
    ensures var t1 := if p.deferred then Deferred else t;
            && Calls(p, t, n + 1) == Calls(p.body, t1, n) + [Event(p.h, TypeAt(p.body, t1, n))]
            && TypeAt(p, t, n + 1) == TypeAt(p.body, t1, n)
  {
    hide Exec, Exec1, Reached, Flatten, Entered;
    var t1, s := if p.deferred then Deferred else t, [Pushed(p.h, t)];
    ExecBody(Fresh(t), p, n + 1);
    EnteredFresh(p, t);
    Framed(p.body, s, Fresh(t1), n);
    var r := Exec(Fresh(t1), Reached(p.body, n));
    UnwindingUnder(s, r.stack, r.cancelType);
    assert Unwinding(s, r.cancelType) == [Event(p.h, r.cancelType)];
    assert r.log + (Unwinding(r.stack, r.cancelType) + [Event(p.h, r.cancelType)])
        == r.log + Unwinding(r.stack, r.cancelType) + [Event(p.h, r.cancelType)];
  }

  /** What was called and dropped before does not matter either. */
  function After(m: Thread, log: seq<Event>, dropped: seq<Handler>): Thread {
    m.(log := log + m.log, dropped := dropped + m.dropped)
  }

  lemma StepAfter(m: Thread, i: Instr, log: seq<Event>, dropped: seq<Handler>)
    ensures Exec1(After(m, log, dropped), i) == After(Exec1(m, i), log, dropped)
  {
    if i.Pop? && m.stack != [] {
      var top := m.stack[|m.stack| - 1];
      var t := if i.restore then top.saved else m.cancelType;
      assert log + m.log + [Event(top.h, t)] == log + (m.log + [Event(top.h, t)]);
      assert dropped + m.dropped + [top.h] == dropped + (m.dropped + [top.h]);
    }
  }

  lemma {:induction false} ExecAfter(m: Thread, code: seq<Instr>, log: seq<Event>, dropped: seq<Handler>)
    ensures Exec(After(m, log, dropped), code) == After(Exec(m, code), log, dropped)
    decreases |code|
  {
    hide Exec1, After;
    if code != [] {
      StepAfter(m, code[0], log, dropped);
      ExecAfter(Exec1(m, code[0]), code[1..], log, dropped);
    }
  }

  /** The thread right after the pop of a block. */
  lemma LeftFresh(p: Prog, t: CancelType)
    requires p.Block?
    ensures var t1, k := if p.deferred then Deferred else t, |Flatten(p.body)|;
            var t2 := if p.deferred then t else TypeAt(p.body, t1, k);
            var log := Calls(p.body, t1, k) + if p.execute != 0 then [Event(p.h, t2)] else [];
            Left(Fresh(t), p) == After(Fresh(t2), log, Left(Fresh(t), p).dropped)
  {
    hide Exec, Exec1, Reached, Flatten, Entered, Left;
    var t1, k, s := if p.deferred then Deferred else t, |Flatten(p.body)|, [Pushed(p.h, t)];
    BlockCompletes(p, Fresh(t));
    EnteredFresh(p, t);
    ReachedAll(p.body);
    Framed(p.body, s, Fresh(t1), k);
    Balanced(p.body, Fresh(t1), k);
    var r := Exec(Fresh(t1), Reached(p.body, k));
    assert Unwinding(r.stack, r.cancelType) == [] && r.log + [] == r.log;
    assert Calls(p.body, t1, k) == r.log;
    var log := r.log + if p.execute != 0 then [Event(p.h, Left(Fresh(t), p).cancelType)] else [];
    assert log + [] == log && Left(Fresh(t), p).dropped + [] == Left(Fresh(t), p).dropped;
  }

  /** Past a block come the calls of its body, that of its handler if `execute` is not zero, and those of what
      follows. A deferred block ends with the type it began with, any other with the one its body left. */
  lemma CallsPastBlock(p: Prog, t: CancelType, n: nat)
    requires p.Block?
    ensures var t1, k := if p.deferred then Deferred else t, |Flatten(p.body)|;
            var t2 := if p.deferred then t else TypeAt(p.body, t1, k);
            && Calls(p, t, k + 2 + n)
               == Calls(p.body, t1, k) + (if p.execute != 0 then [Event(p.h, t2)] else []) + Calls(p.next, t2, n)
            && TypeAt(p, t, k + 2 + n) == TypeAt(p.next, t2, n)
  {
    hide Exec, Exec1, Reached, Flatten, Entered, Left;
    var t1, k := if p.deferred then Deferred else t, |Flatten(p.body)|;
    var t2 := if p.deferred then t else TypeAt(p.body, t1, k);
    var log := Calls(p.body, t1, k) + if p.execute != 0 then [Event(p.h, t2)] else [];
    ExecNext(Fresh(t), p, k + 2 + n);
    LeftFresh(p, t);
    ExecAfter(Fresh(t2), Reached(p.next, n), log, Left(Fresh(t), p).dropped);
    var r := Exec(Fresh(t2), Reached(p.next, n));
    assert log + r.log + Unwinding(r.stack, r.cancelType) == log + (r.log + Unwinding(r.stack, r.cancelType));
  }

  /** No part of the program sets the type, and no push defers. */
  predicate LeavesType(p: Prog) {
    match p
    case Done => true
    case SetType(_, _) => false
    case Block(_, deferred, body, _, next) => !deferred && LeavesType(body) && LeavesType(next)
  }

  /** Such a program keeps the starting type throughout, and every handler is called with it. */
  lemma {:induction false} TypeKept(p: Prog, t: CancelType, n: nat)
    requires LeavesType(p)
    ensures TypeAt(p, t, n) == t
    ensures forall e :: e in Calls(p, t, n) ==> e.cancelType == t
    decreases p
  {
    hide Calls, TypeAt, Flatten;
    if n == 0 || p == Done {
      CallsNone(p, t, n);
    } else if n - 1 <= |Flatten(p.body)| {
      CallsInBlock(p, t, n - 1);
      TypeKept(p.body, t, n - 1);
    } else {
      var k := |Flatten(p.body)|;
      CallsPastBlock(p, t, n - 2 - k);
      TypeKept(p.body, t, k);
      TypeKept(p.next, t, n - 2 - k);
    }
  }
}
