/** Every frame has one owner and is destroyed at most once; Checkouts and Checkins balance. */
module CoroutineOwnership {
  import opened TryModel
  import opened CoroutineCode
  import opened CoroutineMachine
  import opened CoroutineHandles
  import opened CoroutineProofs

  // ---------------------------------------------------------------- ownership

  /** f has finished and is held by the awaiter of the top frame, or by the root's awaiter. */
  predicate Held(t: Task, f: nat) {
    if t.stack == [] then t.ctl.AtRoot? && f == 0
    else Top(t) < |t.frames| && ChildOf(t.frames[Top(t)].awaiter) == Some(f)
  }

  /** A coroutine is live from its start to the moment it is taken; off the stack it owns nothing. One that was never
      started is destroyed with its Lazy, or leaked with its RescheduleLazy. */
  predicate FrameOwned(t: Task, f: nat)
    requires f < |t.frames|
  {
    && (f !in t.stack ==> t.frames[f].vars == [] && t.frames[f].awaiter.NoAwait?)
    && (match t.frames[f].status
        case Created => t.frames[f].destroyed == 0 && !t.frames[f].taken
        case Leaked => t.frames[f].destroyed == 0 && !t.frames[f].taken && t.frames[f].resched
        case Destroyed => t.frames[f].destroyed == 1 && (t.frames[f].taken || !t.frames[f].resched)
        case _ => t.frames[f].destroyed == 0 && t.frames[f].taken && (f in t.stack || Held(t, f)))
  }

  predicate ViaOwned(t: Task, v: nat)
    requires v < |t.vias|
  {
    if t.vias[v].status.Destroyed? then t.vias[v].destroyed == 1
    else
      t.vias[v].destroyed == 0 && t.vias[v].owner in t.stack && t.vias[v].owner < |t.frames| &&
      ViaOf(t.frames[t.vias[v].owner].awaiter) == Some(v)
  }

  predicate Owned(t: Task) {
    && (forall f :: 0 <= f < |t.frames| ==> FrameOwned(t, f))
    && (forall v :: 0 <= v < |t.vias| ==> ViaOwned(t, v))
  }

  lemma {:induction false} InPop(stack: seq<nat>, x: nat)
    requires stack != [] && x in stack && x != stack[|stack| - 1]
    ensures x in Pop(stack)
  {
    var k :| 0 <= k < |stack| && stack[k] == x;
    assert Pop(stack)[k] == x;
  }

  /** A step that moves the control and nothing else. */
  lemma {:induction false} ControlKeepsOwned(t: Task, t1: Task)
    requires Owned(t) && t.stack != [] && t1.stack == t.stack && t1.frames == t.frames && t1.vias == t.vias
    ensures Owned(t1)
  {
    forall g | 0 <= g < |t1.frames|
      ensures FrameOwned(t1, g)
    {
      assert g < |t.frames| ==> FrameOwned(t, g);
    }
    forall w | 0 <= w < |t1.vias|
      ensures ViaOwned(t1, w)
    {
      assert w < |t.vias| ==> ViaOwned(t, w);
    }
  }

  lemma {:induction false} LocalKeepsOwned(t: Task, f: nat, th: Thread, body: Body)
    requires Shape(t) && Owned(t) && t.ctl == Exec(f, th)
    ensures Owned(WithFrame(t, f, t.frames[f].(body := body)))
  {
    assert f == Top(t) && f < |t.frames|;
    hide Spine;
    var t1 := WithFrame(t, f, t.frames[f].(body := body));
    forall g | 0 <= g < |t1.frames|
      ensures FrameOwned(t1, g)
    {
      assert g < |t.frames| ==> FrameOwned(t, g);
    }
    forall w | 0 <= w < |t1.vias|
      ensures ViaOwned(t1, w)
    {
      assert w < |t.vias| ==> ViaOwned(t, w);
    }
  }

  lemma {:induction false} MakeKeepsOwned(t: Task, f: nat, th: Thread)
    requires Shape(t) && Owned(t) && t.ctl == Exec(f, th) && t.frames[f].body.code.Make?
    ensures Owned(MakeStep(t, f))
  {
    assert f == Top(t) && f < |t.frames|;
    hide Spine;
    var t1 := MakeStep(t, f);
    forall g | 0 <= g < |t1.frames|
      ensures FrameOwned(t1, g)
    {
      assert g < |t.frames| ==> FrameOwned(t, g);
    }
    forall w | 0 <= w < |t1.vias|
      ensures ViaOwned(t1, w)
    {
      assert w < |t.vias| ==> ViaOwned(t, w);
    }
  }

  /** A move changes hands, and nothing else. */
  lemma {:induction false} MovedKeepsOwned(t: Task, f: nat, th: Thread, i: nat, v: Local)
    requires Shape(t) && Owned(t) && t.ctl == Exec(f, th)
    requires HandlesOk(t.frames) && (t.frames[f].body.code.Move? || t.frames[f].body.code.Via?) && i < |t.frames[f].vars|
    requires v.coro == t.frames[f].vars[i].coro
    ensures Owned(Moved(t, f, i, v))
  {
    assert f == Top(t) && f < |t.frames|;
    if v.coro.Some? { VarHolds(t.frames, f, i); }
    hide Spine;
    var t1 := Moved(t, f, i, v);
    forall g | 0 <= g < |t1.frames|
      ensures FrameOwned(t1, g)
    {
      assert g < |t.frames| ==> FrameOwned(t, g);
    }
    forall w | 0 <= w < |t1.vias|
      ensures ViaOwned(t1, w)
    {
      assert w < |t.vias| ==> ViaOwned(t, w);
    }
  }

  /** ~Lazy destroys its coroutine; what a RescheduleLazy leaves behind is leaked. */
  lemma {:induction false} DropKeepsOwned(t: Task, f: nat, th: Thread)
    requires Shape(t) && Owned(t) && t.ctl == Exec(f, th)
    requires HandlesOk(t.frames) && t.frames[f].vars != [] && DropStep(t, f).Ok?
    ensures Owned(DropStep(t, f).t)
    ensures var v := t.frames[f].vars[|t.frames[f].vars| - 1];
      v.coro.Some? ==> var c, t1 := v.coro.value, DropStep(t, f).t;
        c < |t.frames| == |t1.frames| && t.frames[c].status.Created? && t1.frames[c].status == if v.resched then Leaked else Destroyed
  {
    assert f == Top(t) && f < |t.frames|;
    var n := |t.frames[f].vars| - 1;
    if t.frames[f].vars[n].coro.Some? { VarHolds(t.frames, f, n); }
    hide Spine;
    var t1 := DropStep(t, f).t;
    forall g | 0 <= g < |t1.frames|
      ensures FrameOwned(t1, g)
    {
      assert g < |t.frames| ==> FrameOwned(t, g);
    }
    forall w | 0 <= w < |t1.vias|
      ensures ViaOwned(t1, w)
    {
      assert w < |t.vias| ==> ViaOwned(t, w);
    }
  }

  lemma {:induction false} AwaitChildKeepsOwned(t: Task, f: nat, th: Thread, i: nat, c: nat)
    requires Shape(t) && Owned(t) && Awaits(t, f, th, i, c)
    ensures Owned(AwaitChild(t, f, th, i, c))
  {
    assert f == Top(t) && f < |t.frames|;
    hide Spine;
    var t1 := AwaitChild(t, f, th, i, c);
    forall g | 0 <= g < |t1.frames|
      ensures FrameOwned(t1, g)
    {
      assert g < |t.frames| ==> FrameOwned(t, g);
    }
    forall w | 0 <= w < |t1.vias|
      ensures ViaOwned(t1, w)
    {
      assert w < |t.vias| ==> ViaOwned(t, w);
    }
  }

  lemma {:induction false} AwaitTryKeepsOwned(t: Task, f: nat, th: Thread, i: nat, c: nat)
    requires Shape(t) && Owned(t) && Awaits(t, f, th, i, c) && Wrap(t, f, th).Some?
    ensures Owned(AwaitTry(t, f, th, i, c, Wrap(t, f, th).value))
  {
    assert f == Top(t) && f < |t.frames|;
    hide Spine;
    var t1 := AwaitTry(t, f, th, i, c, Wrap(t, f, th).value);
    forall g | 0 <= g < |t1.frames|
      ensures FrameOwned(t1, g)
    {
      assert g < |t.frames| ==> FrameOwned(t, g);
    }
    forall w | 0 <= w < |t1.vias|
      ensures ViaOwned(t1, w)
    {
      assert w < |t.vias| ==> ViaOwned(t, w);
    }
  }

  lemma {:induction false} RescheduledKeepsOwned(t: Task, f: nat, th: Thread, i: nat, c: nat, asTry: bool)
    requires Shape(t) && Owned(t) && Awaits(t, f, th, i, c) && Wrap(t, f, th).Some?
    ensures Owned(Rescheduled(t, f, i, c, Wrap(t, f, th).value, asTry))
  {
    assert f == Top(t) && f < |t.frames|;
    hide Spine;
    var t1 := Rescheduled(t, f, i, c, Wrap(t, f, th).value, asTry);
    forall g | 0 <= g < |t1.frames|
      ensures FrameOwned(t1, g)
    {
      assert g < |t.frames| ==> FrameOwned(t, g);
    }
    forall w | 0 <= w < |t1.vias|
      ensures ViaOwned(t1, w)
    {
      assert w < |t.vias| ==> ViaOwned(t, w);
    }
  }

  lemma {:induction false} AwaitRescheduleKeepsOwned(t: Task, f: nat, th: Thread, i: nat, c: nat, asTry: bool, accepted: bool)
    requires Shape(t) && Owned(t) && Awaits(t, f, th, i, c) && Wrap(t, f, th).Some? && t.frames[c].executor.Some?
    ensures Owned(AwaitReschedule(t, f, i, c, Wrap(t, f, th).value, asTry, accepted).t)
  {
    RescheduledKeepsOwned(t, f, th, i, c, asTry);
    hide Shape, Owned;
    ControlKeepsOwned(Rescheduled(t, f, i, c, Wrap(t, f, th).value, asTry), AwaitReschedule(t, f, i, c, Wrap(t, f, th).value, asTry, accepted).t);
  }

  lemma {:induction false} ForeignReadyKeepsOwned(t: Task, f: nat, th: Thread, r: Try<int>)
    requires Shape(t) && Owned(t) && t.ctl == Exec(f, th) && t.frames[f].body.code.Await?
    ensures Owned(AwaitForeign(t, f, th, r, Ready).t)
  {
    assert f == Top(t) && f < |t.frames|;
    hide Spine;
    var t1 := AwaitForeign(t, f, th, r, Ready).t;
    forall g | 0 <= g < |t1.frames|
      ensures FrameOwned(t1, g)
    {
      assert g < |t.frames| ==> FrameOwned(t, g);
    }
    forall w | 0 <= w < |t1.vias|
      ensures ViaOwned(t1, w)
    {
      assert w < |t.vias| ==> ViaOwned(t, w);
    }
  }

  lemma {:induction false} ForeignSuspendKeepsOwned(t: Task, f: nat, th: Thread, r: Try<int>, path: Path)
    requires Shape(t) && Owned(t) && t.ctl == Exec(f, th) && t.frames[f].body.code.Await? && Wrap(t, f, th).Some? && !path.Ready?
    ensures Owned(AwaitForeign(t, f, th, r, path).t)
  {
    assert f == Top(t) && f < |t.frames|;
    hide Spine;
    var t1 := AwaitForeign(t, f, th, r, path).t;
    forall g | 0 <= g < |t1.frames|
      ensures FrameOwned(t1, g)
    {
      hide ViaOwned;
      assert g < |t.frames| ==> FrameOwned(t, g);
    }
    forall w | 0 <= w < |t1.vias|
      ensures ViaOwned(t1, w)
    {
      hide FrameOwned;
      assert w < |t.vias| ==> ViaOwned(t, w);
    }
  }

  lemma {:induction false} AwaitForeignKeepsOwned(t: Task, f: nat, th: Thread, r: Try<int>, path: Path)
    requires Shape(t) && Owned(t) && t.ctl == Exec(f, th) && t.frames[f].body.code.Await? && Wrap(t, f, th).Some?
    ensures AwaitForeign(t, f, th, r, path).Ok? && Owned(AwaitForeign(t, f, th, r, path).t)
  {
    assert AwaitForeign(t, f, th, r, path).Ok?;
    hide Shape, Owned, AwaitForeign;
    if path.Ready? { ForeignReadyKeepsOwned(t, f, th, r); } else { ForeignSuspendKeepsOwned(t, f, th, r, path); }
  }

  lemma {:induction false} AwaitYieldKeepsOwned(t: Task, f: nat, th: Thread, accepted: bool)
    requires Shape(t) && Owned(t) && t.ctl == Exec(f, th) && t.frames[f].body.code.Await? && t.frames[f].executor.Some?
    ensures Owned(AwaitYield(t, f, accepted).t)
  {
    assert f == Top(t) && f < |t.frames|;
    hide Spine;
    var t1 := AwaitYield(t, f, accepted).t;
    forall g | 0 <= g < |t1.frames|
      ensures FrameOwned(t1, g)
    {
      assert g < |t.frames| ==> FrameOwned(t, g);
    }
    forall w | 0 <= w < |t1.vias|
      ensures ViaOwned(t1, w)
    {
      assert w < |t.vias| ==> ViaOwned(t, w);
    }
  }

  lemma {:induction false} UncoverKeepsOwned(t: Task, f: nat, th: Thread)
    requires Shape(t) && Owned(t) && t.ctl == Exec(f, th) && t.frames[f].vars == []
    ensures f < |t.frames| && t.stack != [] && (|t.stack| > 1 || f == 0)
    ensures Owned(Uncovered(t, f).(ctl := AtRoot(th)))
  {
    var t1 := Uncovered(t, f).(ctl := AtRoot(th));
    SpinePop(t.frames, t.vias, t.stack);
    hide Spine;
    forall g | 0 <= g < |t1.frames|
      ensures FrameOwned(t1, g)
    {
      assert FrameOwned(t, g);
      if g in t.stack && g != f { InPop(t.stack, g); }
    }
    forall v | 0 <= v < |t1.vias|
      ensures ViaOwned(t1, v)
    {
      assert ViaOwned(t, v);
      if t.vias[v].owner in t.stack && t.vias[v].owner != f { InPop(t.stack, t.vias[v].owner); }
    }
  }

  /** A suspended frame of the stack goes on. */
  lemma {:induction false} ResumingKeepsOwned(t: Task, t1: Task, p: nat)
    requires Owned(t) && p in t.stack && p < |t.frames| && t.frames[p].status.Suspended?
    requires t1.frames == t.frames[p := t.frames[p].(status := Running)] && t1.stack == t.stack && t1.vias == t.vias
    ensures Owned(t1)
  {
    forall g | 0 <= g < |t1.frames|
      ensures FrameOwned(t1, g)
    {
      assert g < |t.frames| ==> FrameOwned(t, g);
    }
    forall w | 0 <= w < |t1.vias|
      ensures ViaOwned(t1, w)
    {
      assert w < |t.vias| ==> ViaOwned(t, w);
    }
  }

  lemma {:induction false} FinalSuspendKeepsOwned(t: Task, f: nat, th: Thread)
    requires Shape(t) && Owned(t) && t.ctl == Exec(f, th) && FinalSuspend(t, f, th).Ok? && Shape(FinalSuspend(t, f, th).t)
    requires t.frames[f].vars == []
    ensures Owned(FinalSuspend(t, f, th).t)
  {
    var t1 := FinalSuspend(t, f, th).t;
    UncoverKeepsOwned(t, f, th);
    var t0 := Uncovered(t, f).(ctl := AtRoot(th));
    SpinePop(t.frames, t.vias, t.stack);
    hide Spine, Owned;
    if |t.stack| > 1 {
      var p := t.stack[|t.stack| - 2];
      assert t0.stack[|t0.stack| - 1] == p;
      assert p in t0.stack;
      if t.frames[f].continuation.LazyH? { ResumingKeepsOwned(t0, t1, p); } else { ControlKeepsOwned(t0, t1); }
    }
  }

  lemma {:induction false} ViaStepKeepsOwned(t: Task, v: nat, th: Thread, accepted: bool)
    requires Shape(t) && Owned(t) && t.ctl == ExecVia(v, th) && v < |t.vias| && ViaStep(t, v, th, accepted).Ok?
    ensures Owned(ViaStep(t, v, th, accepted).t)
  {
    hide Spine;
    var t1 := ViaStep(t, v, th, accepted).t;
    forall g | 0 <= g < |t1.frames|
      ensures FrameOwned(t1, g)
    {
      assert g < |t.frames| ==> FrameOwned(t, g);
    }
    forall w | 0 <= w < |t1.vias|
      ensures ViaOwned(t1, w)
    {
      assert w < |t.vias| ==> ViaOwned(t, w);
    }
  }

  lemma {:induction false} PickKeepsOwned(t: Task, f: nat, e: nat, pin: Option<nat>, i: nat)
    requires Shape(t) && Owned(t) && t.ctl == Queued(f, e, pin) && Resume(t, f, Worker(e, i)).Ok?
    ensures Owned(Resume(t, f, Worker(e, i)).t)
  {
    hide Spine;
    var t1 := Resume(t, f, Worker(e, i)).t;
    forall g | 0 <= g < |t1.frames|
      ensures FrameOwned(t1, g)
    {
      assert g < |t.frames| ==> FrameOwned(t, g);
    }
    forall w | 0 <= w < |t1.vias|
      ensures ViaOwned(t1, w)
    {
      assert w < |t.vias| ==> ViaOwned(t, w);
    }
  }

  lemma {:induction false} AwaitResumeKeepsOwned(t: Task, f: nat, th: Thread)
    requires Shape(t) && Owned(t) && t.ctl == Resuming(f, th) && f < |t.frames| && AwaitResume(t, f, th).Ok?
    ensures Owned(AwaitResume(t, f, th).t)
  {
    AwaitResumeDelivers(t, f, th);
    AwaitResumeSpares(t, f, th);
    assert f == Top(t) && t.frames[f].destroyed == 0 && t.frames[f].status.Running?;
    hide Spine, Deliver, AwaitResume, OnlyTop;
    var t1 := AwaitResume(t, f, th).t;
    forall g | 0 <= g < |t1.frames|
      ensures FrameOwned(t1, g)
    {
      assert g < |t.frames| ==> FrameOwned(t, g);
    }
    forall w | 0 <= w < |t1.vias|
      ensures ViaOwned(t1, w)
    {
      assert w < |t.vias| ==> ViaOwned(t, w);
    }
  }

  lemma {:induction false} RootStepKeepsOwned(t: Task, th: Thread)
    requires Shape(t) && Owned(t) && t.ctl == AtRoot(th) && RootStep(t).Ok?
    ensures Owned(RootStep(t).t)
  {
    hide Spine;
    var t1 := RootStep(t).t;
    forall g | 0 <= g < |t1.frames|
      ensures FrameOwned(t1, g)
    {
      assert g < |t.frames| ==> FrameOwned(t, g);
    }
    forall w | 0 <= w < |t1.vias|
      ensures ViaOwned(t1, w)
    {
      assert w < |t.vias| ==> ViaOwned(t, w);
    }
  }

  // ---------------------------------------------------------------- Checkout and Checkin

  /** Frame p is suspended in a via-wrapped await whose continuation has not been checked in yet. */
  function OutAt(frames: seq<Frame>, vias: seq<ViaFrame>, p: nat): nat {
    if p < |frames| && frames[p].status.Suspended? && frames[p].executor.Some? && ViaOf(frames[p].awaiter).Some? &&
       ViaOf(frames[p].awaiter).value < |vias| && vias[ViaOf(frames[p].awaiter).value].status.Suspended?
    then 1 else 0
  }

  /** The via-wrapped awaits currently outstanding on a non-null executor. */
  function Outstanding(frames: seq<Frame>, vias: seq<ViaFrame>, stack: seq<nat>): nat {
    if stack == [] then 0 else Outstanding(frames, vias, Pop(stack)) + OutAt(frames, vias, stack[|stack| - 1])
  }

  predicate Balanced(t: Task) {
    t.checkouts == t.checkins + Outstanding(t.frames, t.vias, t.stack)
  }

  lemma {:induction false} SameOutstanding(frames: seq<Frame>, vias: seq<ViaFrame>, frames1: seq<Frame>, vias1: seq<ViaFrame>, stack: seq<nat>)
    requires forall k :: 0 <= k < |stack| ==> OutAt(frames, vias, stack[k]) == OutAt(frames1, vias1, stack[k])
    ensures Outstanding(frames, vias, stack) == Outstanding(frames1, vias1, stack)
    decreases |stack|
  {
    if stack != [] {
      forall k | 0 <= k < |stack| - 1
        ensures OutAt(frames, vias, Pop(stack)[k]) == OutAt(frames1, vias1, Pop(stack)[k])
      {
        assert Pop(stack)[k] == stack[k];
      }
      SameOutstanding(frames, vias, frames1, vias1, Pop(stack));
    }
  }

  /** What happens at the top leaves the awaits below as they were. */
  lemma {:induction false} OutstandingBelow(frames: seq<Frame>, vias: seq<ViaFrame>, frames1: seq<Frame>, vias1: seq<ViaFrame>, stack: seq<nat>)
    requires stack != [] && Spine(frames, vias, stack) && OnlyTop(frames, vias, frames1, vias1, stack[|stack| - 1])
    ensures Outstanding(frames, vias, Pop(stack)) == Outstanding(frames1, vias1, Pop(stack))
  {
    forall k | 0 <= k < |stack| - 1
      ensures OutAt(frames, vias, Pop(stack)[k]) == OutAt(frames1, vias1, Pop(stack)[k])
    {
      assert Link(frames, vias, stack[k], stack[k + 1]);
      assert stack[k] < stack[|stack| - 1];
    }
    SameOutstanding(frames, vias, frames1, vias1, Pop(stack));
  }

  /** A step of the body of f that neither suspends it nor ends it. */
  lemma {:induction false} BodyMoveKeepsBalance(t: Task, t1: Task, f: nat, th: Thread)
    requires Shape(t) && Balanced(t) && t.ctl == Exec(f, th) && t1.stack == t.stack && t1.vias == t.vias
    requires t1.checkouts == t.checkouts && t1.checkins == t.checkins
    requires OnlyTop(t.frames, t.vias, t1.frames, t1.vias, f) && t1.frames[f].status == Running
    ensures Balanced(t1)
  {
    OutstandingBelow(t.frames, t.vias, t1.frames, t1.vias, t.stack);
    hide Spine;
  }

  /** The top frame f starts to await a new child c. */
  lemma {:induction false} PushKeepsBalance(t: Task, t1: Task, f: nat, c: nat)
    requires Balanced(t) && t.stack != [] && f == Top(t) && Spine(t.frames, t.vias, t.stack)
    requires OnlyTop(t.frames, t.vias, t1.frames, t1.vias, f) && t1.stack == t.stack + [c]
    requires OutAt(t.frames, t.vias, f) == 0 && OutAt(t1.frames, t1.vias, c) == 0
    requires t1.checkouts == t.checkouts + OutAt(t1.frames, t1.vias, f) && t1.checkins == t.checkins
    ensures Balanced(t1)
  {
    OutstandingBelow(t.frames, t.vias, t1.frames, t1.vias, t.stack);
    assert Pop(t1.stack) == t.stack;
    assert Outstanding(t1.frames, t1.vias, t.stack) == Outstanding(t1.frames, t1.vias, Pop(t.stack)) + OutAt(t1.frames, t1.vias, f);
    hide Spine, OnlyTop, OutAt;
  }

  lemma {:induction false} AwaitChildKeepsBalance(t: Task, f: nat, th: Thread, i: nat, c: nat)
    requires Shape(t) && Balanced(t) && Awaits(t, f, th, i, c)
    ensures Balanced(AwaitChild(t, f, th, i, c))
  {
    assert f == Top(t) && f < |t.frames| && Spine(t.frames, t.vias, t.stack);
    hide Spine, Outstanding, Balanced;
    PushKeepsBalance(t, AwaitChild(t, f, th, i, c), f, c);
  }

  lemma {:induction false} AwaitTryKeepsBalance(t: Task, f: nat, th: Thread, i: nat, c: nat)
    requires Shape(t) && Balanced(t) && Awaits(t, f, th, i, c) && Wrap(t, f, th).Some?
    ensures Balanced(AwaitTry(t, f, th, i, c, Wrap(t, f, th).value))
  {
    assert f == Top(t) && f < |t.frames| && Spine(t.frames, t.vias, t.stack);
    hide Spine, Outstanding, Balanced;
    PushKeepsBalance(t, AwaitTry(t, f, th, i, c, Wrap(t, f, th).value), f, c);
  }

  lemma {:induction false} AwaitRescheduleKeepsBalance(t: Task, f: nat, th: Thread, i: nat, c: nat, asTry: bool, accepted: bool)
    requires Shape(t) && Balanced(t) && Awaits(t, f, th, i, c) && Wrap(t, f, th).Some? && t.frames[c].executor.Some?
    ensures Balanced(AwaitReschedule(t, f, i, c, Wrap(t, f, th).value, asTry, accepted).t)
  {
    assert f == Top(t) && f < |t.frames| && Spine(t.frames, t.vias, t.stack);
    hide Spine, Outstanding, Balanced;
    PushKeepsBalance(t, AwaitReschedule(t, f, i, c, Wrap(t, f, th).value, asTry, accepted).t, f, c);
  }

  lemma {:induction false} AwaitForeignKeepsBalance(t: Task, f: nat, th: Thread, r: Try<int>, path: Path)
    requires Shape(t) && Balanced(t) && t.ctl == Exec(f, th) && t.frames[f].body.code.Await? && Wrap(t, f, th).Some?
    ensures Balanced(AwaitForeign(t, f, th, r, path).t)
  {
    var t1 := AwaitForeign(t, f, th, r, path).t;
    OutstandingBelow(t.frames, t.vias, t1.frames, t1.vias, t.stack);
    hide Spine;
  }

  lemma {:induction false} AwaitYieldKeepsBalance(t: Task, f: nat, th: Thread, accepted: bool)
    requires Shape(t) && Balanced(t) && t.ctl == Exec(f, th) && t.frames[f].body.code.Await? && t.frames[f].executor.Some?
    ensures Balanced(AwaitYield(t, f, accepted).t)
  {
    OutstandingBelow(t.frames, t.vias, AwaitYield(t, f, accepted).t.frames, t.vias, t.stack);
    hide Spine;
  }

  lemma {:induction false} FinalSuspendKeepsBalance(t: Task, f: nat, th: Thread)
    requires Shape(t) && Balanced(t) && t.ctl == Exec(f, th) && FinalSuspend(t, f, th).Ok?
    ensures Balanced(FinalSuspend(t, f, th).t)
  {
    var t1 := FinalSuspend(t, f, th).t;
    SpinePop(t.frames, t.vias, t.stack);
    forall k | 0 <= k < |t1.stack|
      ensures OutAt(t.frames, t.vias, t1.stack[k]) == OutAt(t1.frames, t1.vias, t1.stack[k])
    {
      assert t1.stack[k] == t.stack[k] && Link(t.frames, t.vias, t.stack[k], t.stack[k + 1]);
      assert k < |t.stack| - 2 ==> t.stack[k] < t.stack[|t.stack| - 2];
    }
    SameOutstanding(t.frames, t.vias, t1.frames, t1.vias, t1.stack);
    hide Spine;
  }

  lemma {:induction false} ViaStepKeepsBalance(t: Task, v: nat, th: Thread, accepted: bool)
    requires Shape(t) && Balanced(t) && t.ctl == ExecVia(v, th) && v < |t.vias| && ViaStep(t, v, th, accepted).Ok?
    ensures Balanced(ViaStep(t, v, th, accepted).t)
  {
    var t1 := ViaStep(t, v, th, accepted).t;
    OutstandingBelow(t.frames, t.vias, t1.frames, t1.vias, t.stack);
    hide Spine;
  }

  lemma {:induction false} PickKeepsBalance(t: Task, f: nat, e: nat, pin: Option<nat>, i: nat)
    requires Shape(t) && Balanced(t) && t.ctl == Queued(f, e, pin) && Resume(t, f, Worker(e, i)).Ok?
    ensures Balanced(Resume(t, f, Worker(e, i)).t)
  {
    var t1 := Resume(t, f, Worker(e, i)).t;
    OutstandingBelow(t.frames, t.vias, t1.frames, t1.vias, t.stack);
    hide Spine;
  }

  lemma {:induction false} AwaitResumeKeepsBalance(t: Task, f: nat, th: Thread)
    requires Shape(t) && Balanced(t) && t.ctl == Resuming(f, th) && f < |t.frames| && AwaitResume(t, f, th).Ok?
    ensures Balanced(AwaitResume(t, f, th).t)
  {
    var t1 := AwaitResume(t, f, th).t;
    AwaitResumeDelivers(t, f, th);
    AwaitResumeSpares(t, f, th);
    assert f == Top(t) && t.frames[f].status.Running?;
    hide AwaitResume;
    OutstandingBelow(t.frames, t.vias, t1.frames, t1.vias, t.stack);
    hide Spine, OnlyTop;
  }

  lemma {:induction false} RootStepKeepsBalance(t: Task, th: Thread)
    requires Shape(t) && Balanced(t) && t.ctl == AtRoot(th) && RootStep(t).Ok?
    ensures Balanced(RootStep(t).t)
  {
  }
}
