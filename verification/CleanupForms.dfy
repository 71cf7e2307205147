/** The three implementations of pthread_cleanup_push and pthread_cleanup_pop in pthread.h, run in place: frame
    objects live through a block, and leaving the block, normally or because the thread ends, finishes them off. */
module CleanupForms {
  import opened Cleanup

  /** What the implementations touch of a thread. `registered` is the list behind __pthread_register_cancel. */
  class ThreadState {
    var cancelType: CancelType
    var log: seq<Event>
    var registered: seq<Pushed>
    ghost var dropped: seq<Handler>

    constructor (t: CancelType)
      ensures cancelType == t && log == [] && registered == [] && dropped == []
    {
      cancelType, log, registered, dropped := t, [], [], [];
    }

    /** The thread as a machine state whose own handlers, if any, are kept in frames. */
    ghost function Plain(): Thread
      reads this
    {
      Thread(cancelType, [], log, dropped)
    }

    /** The thread as a machine state whose handlers are the registered ones. */
    ghost function Registering(): Thread
      reads this
    {
      Thread(cancelType, registered, log, dropped)
    }

    /** pthread_setcanceltype */
    method SetCancelType(t: CancelType) returns (old_: CancelType)
      modifies this`cancelType
      ensures old_ == old(cancelType) && cancelType == t
    {
      old_ := cancelType;
      cancelType := t;
    }

    method Call(h: Handler)
      modifies this`log
      ensures log == old(log) + [Event(h, cancelType)]
    {
      log := log + [Event(h, cancelType)];
    }
  }

  /** What a stretch of code has done to a thread object: it ran all its instructions, with `left` more to go
      elsewhere, or the thread ended in it and its own handlers were called. */
  ghost predicate RanTo(p: Prog, n: nat, before: Thread, after: Thread, left: nat, alive: bool) {
    var r := Exec(before, Reached(p, n));
    && alive == (|Flatten(p)| <= n)
    && (alive ==> left == n - |Flatten(p)|)
    && after == if alive then r else Terminate(r)
  }

  // ----- How RanTo composes -----

  lemma RanSet(p: Prog, n: nat, m: Thread, after: Thread, left: nat, alive: bool)
    requires p.SetType? && n > 0 && RanTo(p.next, n - 1, m.(cancelType := p.t), after, left, alive)
    ensures RanTo(p, n, m, after, left, alive)
  {
    ReachedSet(p, n);
    ExecCons(m, Set(p.t), Reached(p.next, n - 1));
  }

  lemma RanNothing(p: Prog, m: Thread)
    requires !p.Done? && m.stack == []
    ensures RanTo(p, 0, m, m, 0, false)
  {
    ReachedNone(p, m, 0);
    assert m.log + [] == m.log;
  }

  /** A thread in the body of block p, whose handler is in a frame and not on the stack. */
  function Inside(m: Thread, p: Prog): Thread
    requires p.Block?
  {
    m.(cancelType := if p.deferred then Deferred else m.cancelType)
  }

  lemma EnteredIsInside(m: Thread, p: Prog)
    requires p.Block? && m.stack == []
    ensures Entered(m, p) == Under([Pushed(p.h, m.cancelType)], Inside(m, p))
  {
  }

  /** The thread ends in the body, or right before the pop: the block's own handler is called after the inner ones. */
  lemma RanIntoBody(p: Prog, n: nat, m: Thread, after: Thread, left: nat, alive: bool)
    requires p.Block? && n > 0 && m.stack == []
    requires RanTo(p.body, n - 1, Inside(m, p), after, left, alive) && (!alive || left == 0)
    ensures RanTo(p, n, m, after.(log := after.log + [Event(p.h, after.cancelType)]), 0, false)
  {
    hide Exec, Reached, Flatten;
    var s, r := [Pushed(p.h, m.cancelType)], Exec(Inside(m, p), Reached(p.body, n - 1));
    BlockLength(p);
    ReachedBody(p, n);
    ExecCons(m, Push(p.h, p.deferred), Reached(p.body, n - 1));
    EnteredIsInside(m, p);
    Framed(p.body, s, Inside(m, p), n - 1);
    assert Exec(m, Reached(p, n)) == Under(s, r);
    Balanced(p.body, Inside(m, p), n - 1);
    UnwindingUnder(s, r.stack, r.cancelType);
    assert Unwinding(s, r.cancelType) == [Event(p.h, r.cancelType)];
    assert r.log + (Unwinding(r.stack, r.cancelType) + Unwinding(s, r.cancelType))
        == r.log + Unwinding(r.stack, r.cancelType) + Unwinding(s, r.cancelType);
    assert alive ==> r.stack == [] && Unwinding(r.stack, r.cancelType) == [] && r.log + [] == r.log;
  }

  /** What the pop does to a thread whose handlers are kept in frames. */
  function Popped(m: Thread, p: Prog, body: Thread): Thread
    requires p.Block?
  {
    var t := if p.deferred then m.cancelType else body.cancelType;
    if p.execute != 0 then body.(cancelType := t, log := body.log + [Event(p.h, t)])
    else body.(cancelType := t, dropped := body.dropped + [p.h])
  }

  lemma LeftIsPopped(p: Prog, m: Thread)
    requires p.Block? && m.stack == []
    ensures Left(m, p) == Popped(m, p, Exec(Inside(m, p), Flatten(p.body)))
  {
    hide Exec, Reached, Flatten;
    var s := [Pushed(p.h, m.cancelType)];
    ReachedAll(p.body);
    EnteredIsInside(m, p);
    Framed(p.body, s, Inside(m, p), |Flatten(p.body)|);
    Balanced(p.body, Inside(m, p), |Flatten(p.body)|);
    var r := Exec(Inside(m, p), Flatten(p.body));
    assert Under(s, r).stack == s + [] == s && s[..0] == [] == r.stack;
  }

  lemma RanPast(p: Prog, n: nat, m: Thread, body: Thread, left: nat, after: Thread, left': nat, alive: bool)
    requires p.Block? && n > 0 && m.stack == []
    requires RanTo(p.body, n - 1, Inside(m, p), body, left, true) && left > 0
    requires RanTo(p.next, left - 1, Popped(m, p, body), after, left', alive)
    ensures RanTo(p, n, m, after, left', alive)
  {
    hide Exec, Reached, Flatten;
    BlockLength(p);
    ExecNext(m, p, n);
    LeftIsPopped(p, m);
    ReachedAllOf(p.body, n - 1);
  }

  lemma ReachedAllOf(p: Prog, n: nat)
    requires |Flatten(p)| <= n
    ensures Reached(p, n) == Flatten(p)
  {
  }

  // ----- C++: the destructor of a class -----

  class CleanupClass {
    var cancelRoutine: nat
    var cancelArg: int
    var doIt: int
    var cancelType: CancelType

    constructor (h: Handler)
      ensures cancelRoutine == h.routine && cancelArg == h.arg && doIt == 1
    {
      cancelRoutine, cancelArg, doIt := h.routine, h.arg, 1;
    }

    /** ~__pthread_cleanup_class */
    method Destroy(th: ThreadState)
      modifies th`log, th`dropped
      ensures var h := Handler(cancelRoutine, cancelArg);
              if doIt != 0 then th.log == old(th.log) + [Event(h, th.cancelType)] && th.dropped == old(th.dropped)
              else th.log == old(th.log) && th.dropped == old(th.dropped) + [h]
    {
      if doIt != 0 {
        th.Call(Handler(cancelRoutine, cancelArg));
      } else {
        th.dropped := th.dropped + [Handler(cancelRoutine, cancelArg)];
      }
    }

    method SetDoIt(newval: int)
      modifies this`doIt
      ensures doIt == newval
    {
      doIt := newval;
    }

    method Defer(th: ThreadState)
      modifies this`cancelType, th`cancelType
      ensures cancelType == old(th.cancelType) && th.cancelType == Deferred
    {
      cancelType := th.SetCancelType(Deferred);
    }

    method Restore(th: ThreadState)
      modifies th`cancelType
      ensures th.cancelType == cancelType
    {
      var _ := th.SetCancelType(cancelType);
    }
  }

  method RunClass(p: Prog, th: ThreadState, n: nat) returns (left: nat, alive: bool)
    modifies th
    ensures RanTo(p, n, old(th.Plain()), th.Plain(), left, alive)
    decreases p
  {
    hide RanTo;
    ghost var m := th.Plain();
    left, alive := n, true;
    if p.Done? {
      RanAll(n, m);
      return;
    }
    if n == 0 {
      RanNothing(p, m);
      return 0, false;
    }
    match p
    case SetType(t, next) =>
      var _ := th.SetCancelType(t);
      left, alive := RunClass(next, th, n - 1);
      RanSet(p, n, m, th.Plain(), left, alive);
    case Block(h, deferred, body, execute, next) =>
      var frame := new CleanupClass(h);
      if deferred { frame.Defer(th); }
      left, alive := RunClass(body, th, n - 1);
      ghost var b := th.Plain();
      if !alive || left == 0 {
        frame.Destroy(th);
        RanIntoBody(p, n, m, b, left, alive);
        return 0, false;
      }
      if deferred { frame.Restore(th); }
      frame.SetDoIt(execute);
      frame.Destroy(th);
      assert th.Plain() == Popped(m, p, b);
      ghost var l := left;
      left, alive := RunClass(next, th, left - 1);
      RanPast(p, n, m, b, l, th.Plain(), left, alive);
  }

  // ----- GNU C: a variable with a cleanup attribute -----

  /** struct __pthread_cleanup_frame */
  class CleanupFrame {
    var cancelRoutine: nat
    var cancelArg: int
    var doIt: int
    var cancelType: CancelType

    constructor (h: Handler)
      ensures cancelRoutine == h.routine && cancelArg == h.arg && doIt == 1
    {
      cancelRoutine, cancelArg, doIt := h.routine, h.arg, 1;
    }
  }

  /** __pthread_cleanup_routine, which the compiler calls when the variable goes out of scope */
  method CleanupRoutine(frame: CleanupFrame, th: ThreadState)
    modifies th`log, th`dropped
    ensures var h := Handler(frame.cancelRoutine, frame.cancelArg);
            if frame.doIt != 0 then th.log == old(th.log) + [Event(h, th.cancelType)] && th.dropped == old(th.dropped)
            else th.log == old(th.log) && th.dropped == old(th.dropped) + [h]
  {
    if frame.doIt != 0 {
      th.Call(Handler(frame.cancelRoutine, frame.cancelArg));
    } else {
      th.dropped := th.dropped + [Handler(frame.cancelRoutine, frame.cancelArg)];
    }
  }

  method RunAttribute(p: Prog, th: ThreadState, n: nat) returns (left: nat, alive: bool)
    modifies th
    ensures RanTo(p, n, old(th.Plain()), th.Plain(), left, alive)
    decreases p
  {
    hide RanTo;
    ghost var m := th.Plain();
    left, alive := n, true;
    if p.Done? {
      RanAll(n, m);
      return;
    }
    if n == 0 {
      RanNothing(p, m);
      return 0, false;
    }
    match p
    case SetType(t, next) =>
      var _ := th.SetCancelType(t);
      left, alive := RunAttribute(next, th, n - 1);
      RanSet(p, n, m, th.Plain(), left, alive);
    case Block(h, deferred, body, execute, next) =>
      var frame := new CleanupFrame(h);
      if deferred { frame.cancelType := th.SetCancelType(Deferred); }
      left, alive := RunAttribute(body, th, n - 1);
      ghost var b := th.Plain();
      if !alive || left == 0 {
        CleanupRoutine(frame, th);
        RanIntoBody(p, n, m, b, left, alive);
        return 0, false;
      }
      if deferred { var _ := th.SetCancelType(frame.cancelType); }
      frame.doIt := execute;
      CleanupRoutine(frame, th);
      assert th.Plain() == Popped(m, p, b);
      ghost var l := left;
      left, alive := RunAttribute(next, th, left - 1);
      RanPast(p, n, m, b, l, th.Plain(), left, alive);
  }

  // ----- No exceptions: setjmp and a list of registered buffers -----

  /** __pthread_register_cancel, and its _defer variant, which notes and changes the cancellation type. */
  method RegisterCancel(th: ThreadState, h: Handler, deferred: bool)
    modifies th`registered, th`cancelType
    ensures th.registered == old(th.registered) + [Pushed(h, old(th.cancelType))]
    ensures th.cancelType == if deferred then Deferred else old(th.cancelType)
  {
    th.registered := th.registered + [Pushed(h, th.cancelType)];
    if deferred { th.cancelType := Deferred; }
  }

  /** __pthread_unregister_cancel, and its _restore variant. */
  method UnregisterCancel(th: ThreadState, restore: bool)
    requires th.registered != []
    modifies th`registered, th`cancelType
    ensures th.registered == old(th.registered[..|th.registered| - 1])
    ensures th.cancelType == if restore then old(th.registered[|th.registered| - 1].saved) else old(th.cancelType)
  {
    var buf := th.registered[|th.registered| - 1];
    th.registered := th.registered[..|th.registered| - 1];
    if restore { th.cancelType := buf.saved; }
  }

  /** __pthread_unwind_next: jump to the newest registered buffer, whose landing pad calls the handler and unwinds
      on, until none is left. */
  method Unwind(th: ThreadState)
    modifies th`registered, th`log
    ensures th.Registering() == Terminate(old(th.Registering()))
  {
    ghost var m := th.Registering();
    while th.registered != []
      invariant Terminate(th.Registering()) == Terminate(m)
      invariant th.cancelType == m.cancelType && th.dropped == m.dropped
      decreases |th.registered|
    {
      var k := |th.registered| - 1;
      var buf := th.registered[k];
      ghost var log := th.log;
      th.registered := th.registered[..k];
      th.Call(buf.h);
      assert log + [Event(buf.h, m.cancelType)] + Unwinding(th.registered, m.cancelType)
          == log + ([Event(buf.h, m.cancelType)] + Unwinding(th.registered, m.cancelType));
    }
    assert th.log + [] == th.log;
  }

  /** Runs p up to where the thread ends, if it does; the jumps of the unwinding come after. */
  method RunSetjmp(p: Prog, th: ThreadState, n: nat) returns (left: nat, alive: bool)
    modifies th
    ensures th.Registering() == Exec(old(th.Registering()), Reached(p, n))
    ensures alive == (|Flatten(p)| <= n) && (alive ==> left == n - |Flatten(p)|)
    decreases p
  {
    hide Exec, Reached, Flatten;
    ghost var m := th.Registering();
    left, alive := n, true;
    if p.Done? || n == 0 {
      ReachedNone(p, m, n);
      alive := p.Done?;
      return;
    }
    match p
    case SetType(t, next) =>
      th.cancelType := t;
      left, alive := RunSetjmp(next, th, n - 1);
      ReachedSet(p, n);
      ExecCons(m, Set(t), Reached(next, n - 1));
    case Block(h, deferred, body, execute, next) =>
      BlockLength(p);
      RegisterCancel(th, h, deferred);
      left, alive := RunSetjmp(body, th, n - 1);
      if !alive || left == 0 {
        ExecBody(m, p, n);
        return 0, false;
      }
      ReachedAllOf(body, n - 1);
      LeftStack(p, m);
      assert th.Registering() == Exec(Entered(m, p), Flatten(body));
      UnregisterCancel(th, deferred);
      if execute != 0 {
        th.Call(h);
      } else {
        th.dropped := th.dropped + [h];
      }
      assert th.Registering() == Left(m, p);
      hide Left, Exec1, Entered;
      left, alive := RunSetjmp(next, th, left - 1);
      ExecNext(m, p, n);
  }

  // ----- Whole threads -----

  lemma RanAll(n: nat, m: Thread)
    ensures RanTo(Done, n, m, m, n, true)
  {
  }

  lemma EndOfRun(p: Prog, t: CancelType, n: nat, after: Thread, left: nat, alive: bool)
    requires RanTo(p, n, Fresh(t), after, left, alive)
    ensures after.log == Calls(p, t, n)
  {
    Balanced(p, Fresh(t), n);
    var r := Exec(Fresh(t), Reached(p, n));
    assert alive ==> r.log + [] == r.log;
  }

  /** The calls a C++ program makes. */
  method ClassCalls(p: Prog, t: CancelType, n: nat) returns (log: seq<Event>)
    ensures log == Calls(p, t, n)
  {
    var th := new ThreadState(t);
    var left, alive := RunClass(p, th, n);
    EndOfRun(p, t, n, th.Plain(), left, alive);
    log := th.log;
  }

  /** The calls a GNU C program makes. */
  method AttributeCalls(p: Prog, t: CancelType, n: nat) returns (log: seq<Event>)
    ensures log == Calls(p, t, n)
  {
    var th := new ThreadState(t);
    var left, alive := RunAttribute(p, th, n);
    EndOfRun(p, t, n, th.Plain(), left, alive);
    log := th.log;
  }

  /** The calls a program makes that knows setjmp only. */
  method SetjmpCalls(p: Prog, t: CancelType, n: nat) returns (log: seq<Event>)
    ensures log == Calls(p, t, n)
  {
    var th := new ThreadState(t);
    var left, alive := RunSetjmp(p, th, n);
    if alive {
      Balanced(p, Fresh(t), n);
      assert th.log + [] == th.log;
    } else {
      Unwind(th);
    }
    log := th.log;
  }

  /** The three forms call the same handlers with the same arguments in the same order, wherever the thread ends. */
  method FormsAgree(p: Prog, t: CancelType, n: nat) returns (cxx: seq<Event>, gnu: seq<Event>, plain: seq<Event>)
    ensures cxx == gnu == plain == Calls(p, t, n)
  {
    cxx := ClassCalls(p, t, n);
    gnu := AttributeCalls(p, t, n);
    plain := SetjmpCalls(p, t, n);
  }

  // ----- Inside a pop -----

  /** How far a pop has got: nowhere; the cancellation type is back; `execute` has been looked at, which is to say
      that do_it is set to it, or that the buffer is off the list. */
  datatype Reach = Begun | Restored | Settled

  /** What a thread does that ends inside a pop, if handlers are in frames: do_it alone decides whether the block's
      own handler is still called. */
  function FramesEnd(m: Thread, restore: bool, execute: int, r: Reach): Thread
    requires m.stack != []
  {
    var k := |m.stack| - 1;
    var m1 := if restore && !r.Begun? then m.(cancelType := m.stack[k].saved) else m;
    if r.Settled? && execute == 0 then Terminate(m1.(stack := m.stack[..k], dropped := m.dropped + [m.stack[k].h]))
    else Terminate(m1)
  }

  /** The same with registered buffers: unregistering restores the type in one step, and from then on nothing would
      call the handler but the pop itself. */
  function BuffersEnd(m: Thread, restore: bool, r: Reach): Thread
    requires m.stack != []
  {
    var k := |m.stack| - 1;
    if r.Begun? then Terminate(m)
    else Terminate(m.(stack := m.stack[..k], cancelType := if restore then m.stack[k].saved else m.cancelType))
  }

  method ClassEndsInPop(frame: CleanupClass, th: ThreadState, restore: bool, execute: int, r: Reach)
    requires frame.doIt == 1
    modifies frame, th
    ensures var h := Handler(old(frame.cancelRoutine), old(frame.cancelArg));
            var m := old(th.Plain()).(stack := [Pushed(h, old(frame.cancelType))]);
            th.Plain() == FramesEnd(m, restore, execute, r)
  {
    if restore && !r.Begun? { frame.Restore(th); }
    if r.Settled? { frame.SetDoIt(execute); }
    frame.Destroy(th);
    assert th.log + [] == th.log;
  }

  method AttributeEndsInPop(frame: CleanupFrame, th: ThreadState, restore: bool, execute: int, r: Reach)
    requires frame.doIt == 1
    modifies frame, th
    ensures var h := Handler(old(frame.cancelRoutine), old(frame.cancelArg));
            var m := old(th.Plain()).(stack := [Pushed(h, old(frame.cancelType))]);
            th.Plain() == FramesEnd(m, restore, execute, r)
  {
    if restore && !r.Begun? { var _ := th.SetCancelType(frame.cancelType); }
    if r.Settled? { frame.doIt := execute; }
    CleanupRoutine(frame, th);
    assert th.log + [] == th.log;
  }

  method SetjmpEndsInPop(th: ThreadState, restore: bool, r: Reach)
    requires th.registered != []
    modifies th
    ensures th.Registering() == BuffersEnd(old(th.Registering()), restore, r)
  {
    if !r.Begun? { UnregisterCancel(th, restore); }
    Unwind(th);
  }

  /** Where the forms differ. Ending as the pop begins, they agree. Ending after `execute` was looked at, they agree
      if and only if it is zero: else the frame forms still make the call and the setjmp form never does. Ending
      between __restore and __setdoit, a point the setjmp form lacks, the frame forms make the calls of the setjmp
      form before its unregistering, if and only if the restored type is the one that was in force; and never those
      of the setjmp form after it. */
  lemma InsidePop(m: Thread, restore: bool, execute: int)
    requires m.stack != []
    ensures FramesEnd(m, restore, execute, Begun).log == BuffersEnd(m, restore, Begun).log
    ensures FramesEnd(m, restore, execute, Settled).log == BuffersEnd(m, restore, Settled).log <==> execute == 0
    ensures FramesEnd(m, restore, execute, Restored).log == BuffersEnd(m, restore, Begun).log
            <==> !restore || m.stack[|m.stack| - 1].saved == m.cancelType
    ensures FramesEnd(m, restore, execute, Restored).log != BuffersEnd(m, restore, Settled).log
  {
    var top := m.stack[|m.stack| - 1];
    var restored, kept := m.log + Unwinding(m.stack, top.saved), m.log + Unwinding(m.stack, m.cancelType);
    assert restored[|m.log|] == Event(top.h, top.saved) && kept[|m.log|] == Event(top.h, m.cancelType);
  }
}
