/** What every step of a task keeps: the chain of frames, who owns them, where they run, and what they will compute. */
module CoroutineProofs {
  import opened TryModel
  import opened CoroutineCode
  import opened CoroutineMachine
  import opened CoroutineHandles

  // ---------------------------------------------------------------- the chain of frames

  function ChildOf(a: Awaiter): Option<nat> {
    match a
    case ForChild(c) => Some(c)
    case ForChildVia(c, _, _) => Some(c)
    case _ => None
  }

  function ViaOf(a: Awaiter): Option<nat> {
    match a
    case ForChildVia(_, v, _) => Some(v)
    case ForForeign(v, _) => Some(v)
    case _ => None
  }

  /** Is the result handed over as a Try? */
  predicate AsTry(a: Awaiter) {
    a.ForChildVia? && a.asTry
  }

  /** A child that has reached its final suspend point and still waits to be taken. */
  predicate Done(frames: seq<Frame>, c: nat) {
    c < |frames| && frames[c].status == AtFinal && frames[c].body.result.Available() && frames[c].destroyed == 0
  }

  /** The via coroutine v lives in the awaiter of frame p. */
  predicate ViaAlive(frames: seq<Frame>, vias: seq<ViaFrame>, p: nat, v: nat)
    requires p < |frames|
  {
    v < |vias| && vias[v].owner == p && vias[v].executor == frames[p].executor && vias[v].destroyed == 0 &&
    (vias[v].status == Suspended || vias[v].status == AtFinal)
  }

  /** It wraps p's continuation. */
  predicate ViaWraps(frames: seq<Frame>, vias: seq<ViaFrame>, p: nat, v: nat)
    requires p < |frames|
  {
    ViaAlive(frames, vias, p, v) && vias[v].continuation == LazyH(p) && (vias[v].executor.Some? <==> vias[v].context.Some?)
  }

  /** Frame p is suspended in an await expression on its unfinished child c. */
  predicate Link(frames: seq<Frame>, vias: seq<ViaFrame>, p: nat, c: nat)
    requires p < |frames| && c < |frames|
  {
    && frames[p].status == Suspended && frames[p].destroyed == 0 && frames[p].body.result == Nothing
    && (match frames[p].awaiter
        case ForChild(x) =>
          x == c && frames[c].continuation == LazyH(p) && frames[c].executor == frames[p].executor
        case ForChildVia(x, v, _) =>
          x == c && frames[c].continuation == ViaH(v) && ViaWraps(frames, vias, p, v) && vias[v].status == Suspended
        case _ => false)
  }

  predicate Increasing(stack: seq<nat>, n: nat) {
    && (forall k :: 0 <= k < |stack| ==> stack[k] < n)
    && (forall j, k :: 0 <= j < k < |stack| ==> stack[j] < stack[k])
  }

  /** From the root to the innermost unfinished coroutine, each frame awaits the next. */
  predicate Spine(frames: seq<Frame>, vias: seq<ViaFrame>, stack: seq<nat>) {
    && |frames| > 0 && frames[0].continuation == RootH
    && Increasing(stack, |frames|)
    && (stack != [] ==> stack[0] == 0)
    && (forall k :: 0 <= k < |stack| - 1 ==> Link(frames, vias, stack[k], stack[k + 1]))
  }

  /** What the top frame awaits is there to be taken. */
  predicate Served(frames: seq<Frame>, vias: seq<ViaFrame>, p: nat)
    requires p < |frames|
  {
    frames[p].body.result == Nothing &&
    match frames[p].awaiter
    case NoAwait => false
    case ForYield => true
    case ForForeign(v, r) => ViaAlive(frames, vias, p, v) && r.Available()
    case ForChild(c) => Done(frames, c) && p < c
    case ForChildVia(c, v, _) => Done(frames, c) && p < c && ViaWraps(frames, vias, p, v)
  }

  /** The suspended top frame p is to be resumed through the via coroutine v. */
  predicate OnVia(frames: seq<Frame>, vias: seq<ViaFrame>, p: nat, v: nat)
    requires p < |frames|
  {
    && frames[p].status == Suspended && Served(frames, vias, p) && ViaWraps(frames, vias, p, v)
    && (match frames[p].awaiter
        case ForForeign(w, _) => v == w
        case ForChildVia(_, w, _) => v == w
        case _ => false)
  }

  /** The suspended top frame p is to be resumed by a job of its executor e, on the worker `pin` if it was checked in. */
  predicate ReadyToResume(frames: seq<Frame>, vias: seq<ViaFrame>, p: nat, e: nat, pin: Option<nat>)
    requires p < |frames|
  {
    && frames[p].status == Suspended && frames[p].executor == Some(e) && frames[p].body.result == Nothing
    && (match frames[p].awaiter
        case NoAwait => pin.None?
        case ForYield => pin.None?
        case ForForeign(v, _) => OnVia(frames, vias, p, v) && vias[v].status == AtFinal && pin == vias[v].context && pin.Some?
        case ForChildVia(_, v, _) => OnVia(frames, vias, p, v) && vias[v].status == AtFinal && pin == vias[v].context && pin.Some?
        case ForChild(_) => false)
  }

  /** The control agrees with the top frame p. */
  predicate TopControl(frames: seq<Frame>, vias: seq<ViaFrame>, p: nat, ctl: Control)
    requires p < |frames|
  {
    frames[p].destroyed == 0 &&
    match ctl
    case Starting(_) => p == 0 && frames[p].status == Suspended && frames[p].awaiter.NoAwait? && frames[p].body.result == Nothing
    case Exec(f, th) => f == p && frames[p].status == Running && frames[p].awaiter.NoAwait?
    case Resuming(f, th) => f == p && frames[p].status == Running && Served(frames, vias, p)
    case ExecVia(v, th) => OnVia(frames, vias, p, v) && vias[v].status == Suspended
    case Waiting(v) => OnVia(frames, vias, p, v) && vias[v].status == Suspended && frames[p].awaiter.ForForeign?
    case Queued(f, e, pin) => f == p && ReadyToResume(frames, vias, p, e, pin)
    case Dropped(f, e, pin) => f == p && ReadyToResume(frames, vias, p, e, pin)
    case _ => false
  }

  predicate Shape(t: Task) {
    && Spine(t.frames, t.vias, t.stack)
    && t.refusals == (if t.ctl.Dropped? then 1 else 0)
    && (if t.stack != [] then TopControl(t.frames, t.vias, Top(t), t.ctl) && t.results == []
        else (t.ctl.AtRoot? && Done(t.frames, 0) && t.results == []) ||
             (t.ctl.Over? && t.frames[0].status == Destroyed && |t.results| == 1))
  }

  predicate Shaped(c: Config) {
    c.Ok? && Shape(c.t)
  }

  // ---------------------------------------------------------------- updating the chain at its top

  /** Only the top frame, and via coroutines it owns, changed; frames and via coroutines were added. */
  predicate OnlyTop(frames: seq<Frame>, vias: seq<ViaFrame>, frames1: seq<Frame>, vias1: seq<ViaFrame>, p: nat) {
    && p < |frames| <= |frames1| && |vias| <= |vias1|
    && (forall f :: 0 <= f < |frames| && f < p ==> frames1[f] == frames[f])
    && frames1[p].continuation == frames[p].continuation && frames1[p].executor == frames[p].executor
    && (forall v :: 0 <= v < |vias| && vias[v].owner != p ==> vias1[v] == vias[v])
  }

  lemma {:induction false} SpineUpdate(frames: seq<Frame>, vias: seq<ViaFrame>, frames1: seq<Frame>, vias1: seq<ViaFrame>, stack: seq<nat>)
    requires stack != [] && Spine(frames, vias, stack) && OnlyTop(frames, vias, frames1, vias1, stack[|stack| - 1])
    ensures Spine(frames1, vias1, stack)
  {
    forall k | 0 <= k < |stack| - 1
      ensures Link(frames1, vias1, stack[k], stack[k + 1])
    {
      assert Link(frames, vias, stack[k], stack[k + 1]);
      assert stack[k] < stack[|stack| - 1];
      assert k + 1 < |stack| - 1 ==> stack[k + 1] < stack[|stack| - 1];
    }
  }

  lemma {:induction false} SpinePush(frames: seq<Frame>, vias: seq<ViaFrame>, stack: seq<nat>, c: nat)
    requires stack != [] && Spine(frames, vias, stack) && stack[|stack| - 1] < c < |frames|
    requires Link(frames, vias, stack[|stack| - 1], c)
    ensures Spine(frames, vias, stack + [c])
  {
  }

  lemma {:induction false} SpinePop(frames: seq<Frame>, vias: seq<ViaFrame>, stack: seq<nat>)
    requires stack != [] && Spine(frames, vias, stack)
    ensures Spine(frames, vias, Pop(stack))
    ensures |stack| > 1 ==> Link(frames, vias, stack[|stack| - 2], stack[|stack| - 1]) && stack[|stack| - 2] < stack[|stack| - 1]
    ensures |stack| == 1 ==> stack[0] == 0
    ensures forall k :: 0 <= k < |stack| - 1 ==> stack[k] != stack[|stack| - 1]
  {
  }

  /** The frames below a finished top frame do not notice it. */
  lemma {:induction false} SpineBelow(frames: seq<Frame>, vias: seq<ViaFrame>, frames1: seq<Frame>, stack: seq<nat>, c: nat)
    requires Spine(frames, vias, stack) && |frames1| == |frames| && c < |frames|
    requires forall k :: 0 <= k < |stack| ==> stack[k] != c
    requires forall f :: 0 <= f < |frames| && f != c ==> frames1[f] == frames[f]
    requires frames1[c].continuation == frames[c].continuation
    ensures Spine(frames1, vias, stack)
  {
    forall k | 0 <= k < |stack| - 1
      ensures Link(frames1, vias, stack[k], stack[k + 1])
    {
      assert Link(frames, vias, stack[k], stack[k + 1]);
    }
  }

  /** What the await expression of the top frame is about to yield. */
  function Awaited(frames: seq<Frame>, a: Awaiter): Try<int> {
    match a
    case ForChild(c) => if c < |frames| then frames[c].body.result else Nothing
    case ForChildVia(c, _, _) => if c < |frames| then frames[c].body.result else Nothing
    case ForForeign(_, r) => r
    case _ => Value(0)
  }

  // ---------------------------------------------------------------- every step keeps the chain

  /** A step of the body of f that neither suspends it nor ends it. */
  lemma {:induction false} BodyMoveKeepsShape(t: Task, t1: Task, f: nat, th: Thread)
    requires Shape(t) && t.ctl == Exec(f, th) && t1.ctl == t.ctl && t1.stack == t.stack && t1.vias == t.vias
    requires t1.results == t.results && t1.refusals == t.refusals
    requires OnlyTop(t.frames, t.vias, t1.frames, t1.vias, f)
    requires t1.frames[f].status == Running && t1.frames[f].awaiter.NoAwait? && t1.frames[f].destroyed == t.frames[f].destroyed
    ensures Shape(t1)
  {
    SpineUpdate(t.frames, t.vias, t1.frames, t1.vias, t.stack);
    hide Spine;
  }

  lemma {:induction false} StartKeepsShape(t: Task, th: Thread, accepted: bool)
    requires Shape(t) && t.ctl == Starting(th) && |t.frames| > 0 && t.frames[0].executor.Some?
    ensures Shaped(StartStep(t, accepted))
  {
    hide Spine;
  }

  /** The top frame f awaits the coroutine c of its variable i. */
  predicate Awaits(t: Task, f: nat, th: Thread, i: nat, c: nat) {
    && t.ctl == Exec(f, th) && f < |t.frames| && t.frames[f].body.code.Await? && t.frames[f].body.result == Nothing
    && i < |t.frames[f].vars| && t.frames[f].vars[i].coro == Some(c) && Holds(t.frames, f, i, t.frames[f].vars[i], c)
  }

  lemma {:induction false} AwaitChildKeepsShape(t: Task, f: nat, th: Thread, i: nat, c: nat)
    requires Shape(t) && Awaits(t, f, th, i, c)
    ensures Shape(AwaitChild(t, f, th, i, c))
  {
    var t1 := AwaitChild(t, f, th, i, c);
    SpineUpdate(t.frames, t.vias, t1.frames, t1.vias, t.stack);
    SpinePush(t1.frames, t1.vias, t.stack, c);
    hide Spine;
  }

  lemma {:induction false} AwaitTryKeepsShape(t: Task, f: nat, th: Thread, i: nat, c: nat)
    requires Shape(t) && Awaits(t, f, th, i, c) && Wrap(t, f, th).Some?
    ensures Shape(AwaitTry(t, f, th, i, c, Wrap(t, f, th).value))
  {
    var t1 := AwaitTry(t, f, th, i, c, Wrap(t, f, th).value);
    SpineUpdate(t.frames, t.vias, t1.frames, t1.vias, t.stack);
    SpinePush(t1.frames, t1.vias, t.stack, c);
    hide Spine;
  }

  lemma {:induction false} RescheduledKeepsSpine(t: Task, f: nat, th: Thread, i: nat, c: nat, asTry: bool)
    requires Shape(t) && Awaits(t, f, th, i, c) && Wrap(t, f, th).Some?
    ensures var t1 := Rescheduled(t, f, i, c, Wrap(t, f, th).value, asTry); Spine(t1.frames, t1.vias, t1.stack)
  {
    var t1 := Rescheduled(t, f, i, c, Wrap(t, f, th).value, asTry);
    SpineUpdate(t.frames, t.vias, t1.frames, t1.vias, t.stack);
    SpinePush(t1.frames, t1.vias, t.stack, c);
    hide Spine;
  }

  lemma {:induction false} AwaitRescheduleKeepsShape(t: Task, f: nat, th: Thread, i: nat, c: nat, asTry: bool, accepted: bool)
    requires Shape(t) && Awaits(t, f, th, i, c) && Wrap(t, f, th).Some? && t.frames[c].executor.Some?
    ensures Shaped(AwaitReschedule(t, f, i, c, Wrap(t, f, th).value, asTry, accepted))
  {
    hide Spine, Wrap, Link;
    RescheduledKeepsSpine(t, f, th, i, c, asTry);
  }

  lemma {:induction false} ForeignReadyKeepsShape(t: Task, f: nat, th: Thread, r: Try<int>)
    requires Shape(t) && t.ctl == Exec(f, th) && t.frames[f].body.code.Await? && t.frames[f].body.result == Nothing && r.Available()
    ensures Shaped(AwaitForeign(t, f, th, r, Ready))
  {
    var t1 := AwaitForeign(t, f, th, r, Ready).t;
    SpineUpdate(t.frames, t.vias, t1.frames, t1.vias, t.stack);
    hide Spine;
  }

  lemma {:induction false} ForeignDeclinedKeepsShape(t: Task, f: nat, th: Thread, r: Try<int>)
    requires Shape(t) && t.ctl == Exec(f, th) && t.frames[f].body.code.Await? && t.frames[f].body.result == Nothing
    requires Wrap(t, f, th).Some? && r.Available()
    ensures Shaped(AwaitForeign(t, f, th, r, Declined))
  {
    var t1 := AwaitForeign(t, f, th, r, Declined).t;
    SpineUpdate(t.frames, t.vias, t1.frames, t1.vias, t.stack);
    hide Spine;
  }

  lemma {:induction false} ForeignDeferredKeepsShape(t: Task, f: nat, th: Thread, r: Try<int>)
    requires Shape(t) && t.ctl == Exec(f, th) && t.frames[f].body.code.Await? && t.frames[f].body.result == Nothing
    requires Wrap(t, f, th).Some? && r.Available()
    ensures Shaped(AwaitForeign(t, f, th, r, Deferred))
  {
    var t1 := AwaitForeign(t, f, th, r, Deferred).t;
    SpineUpdate(t.frames, t.vias, t1.frames, t1.vias, t.stack);
    hide Spine;
  }

  lemma {:induction false} AwaitForeignKeepsShape(t: Task, f: nat, th: Thread, r: Try<int>, path: Path)
    requires Shape(t) && t.ctl == Exec(f, th) && t.frames[f].body.code.Await? && t.frames[f].body.result == Nothing
    requires Wrap(t, f, th).Some? && r.Available()
    ensures Shaped(AwaitForeign(t, f, th, r, path))
  {
    hide Shape, AwaitForeign, Wrap;
    match path
    case Ready => ForeignReadyKeepsShape(t, f, th, r);
    case Declined => ForeignDeclinedKeepsShape(t, f, th, r);
    case Deferred => ForeignDeferredKeepsShape(t, f, th, r);
  }

  lemma {:induction false} AwaitYieldKeepsShape(t: Task, f: nat, th: Thread, accepted: bool)
    requires Shape(t) && t.ctl == Exec(f, th) && t.frames[f].body.code.Await? && t.frames[f].body.result == Nothing
    requires t.frames[f].executor.Some?
    ensures Shaped(AwaitYield(t, f, accepted))
  {
    var t1 := AwaitYield(t, f, accepted).t;
    SpineUpdate(t.frames, t.vias, t1.frames, t1.vias, t.stack);
    hide Spine;
  }

  lemma {:induction false} FinalSuspendKeepsShape(t: Task, f: nat, th: Thread)
    requires Shape(t) && t.ctl == Exec(f, th) && t.frames[f].body.result.Available()
    ensures Shaped(FinalSuspend(t, f, th))
  {
    SpinePop(t.frames, t.vias, t.stack);
    var t1 := Uncovered(t, f);
    SpineBelow(t.frames, t.vias, t1.frames, t1.stack, f);
    if |t.stack| > 1 {
      var p := t.stack[|t.stack| - 2];
      if t.frames[f].continuation.LazyH? {
        var t2 := FinalSuspend(t, f, th).t;
        SpineUpdate(t1.frames, t1.vias, t2.frames, t1.vias, t1.stack);
      }
      hide Spine;
    } else {
      hide Spine;
    }
  }

  /** Where a via coroutine that finishes on th sends the suspended frame f it wraps: on, without an executor or on the worker of
      the context; else into the queue of that worker; or nowhere, if the executor refuses. */
  predicate SentOn(t1: Task, f: nat, via: ViaFrame, th: Thread, accepted: bool)
    requires f < |t1.frames|
  {
    if via.executor.None? || (via.context.Some? && th == Worker(via.executor.value, via.context.value))
    then t1.ctl == Resuming(f, th) && t1.frames[f].status.Running?
    else t1.frames[f].status.Suspended? && via.context.Some? &&
         t1.ctl == if accepted then Queued(f, via.executor.value, via.context) else Dropped(f, via.executor.value, via.context)
  }

  lemma {:induction false} ViaStepSends(t: Task, v: nat, th: Thread, accepted: bool)
    requires Shape(t) && t.ctl == ExecVia(v, th)
    ensures Top(t) < |t.frames| && t.frames[Top(t)].status.Suspended? && v < |t.vias| && t.vias[v].continuation == LazyH(Top(t))
    ensures ViaStep(t, v, th, accepted).Ok?
    ensures var t1 := ViaStep(t, v, th, accepted).t;
      Top(t) < |t1.frames| && SentOn(t1, Top(t), t.vias[v], th, accepted) && |t1.vias| == |t.vias| && t1.vias[v].status.AtFinal?
  {
    assert Top(t) < |t.frames|;
    hide Spine;
  }

  lemma {:induction false} ViaStepStaysShaped(t: Task, v: nat, th: Thread, accepted: bool)
    requires Shape(t) && t.ctl == ExecVia(v, th)
    ensures v < |t.vias| && Shaped(ViaStep(t, v, th, accepted))
  {
    assert Top(t) < |t.frames|;
    hide Spine;
    var t1 := ViaStep(t, v, th, accepted).t;
    SpineUpdate(t.frames, t.vias, t1.frames, t1.vias, t.stack);
  }

  lemma {:induction false} ViaStepKeepsShape(t: Task, v: nat, th: Thread, accepted: bool)
    requires Shape(t) && t.ctl == ExecVia(v, th)
    ensures Top(t) < |t.frames| && t.frames[Top(t)].status.Suspended? && v < |t.vias| && t.vias[v].continuation == LazyH(Top(t))
    ensures Shaped(ViaStep(t, v, th, accepted))
    ensures var t1 := ViaStep(t, v, th, accepted).t;
      Top(t) < |t1.frames| && SentOn(t1, Top(t), t.vias[v], th, accepted) && |t1.vias| == |t.vias| && t1.vias[v].status.AtFinal?
  {
    hide Shape, ViaStep, SentOn;
    ViaStepSends(t, v, th, accepted);
    ViaStepStaysShaped(t, v, th, accepted);
  }

  lemma {:induction false} PickKeepsShape(t: Task, f: nat, e: nat, pin: Option<nat>, i: nat)
    requires Shape(t) && t.ctl == Queued(f, e, pin)
    ensures Shaped(Resume(t, f, Worker(e, i)))
  {
    var t1 := Resume(t, f, Worker(e, i)).t;
    SpineUpdate(t.frames, t.vias, t1.frames, t1.vias, t.stack);
    hide Spine;
  }

  /** A finished child is destroyed on either path, once, and nothing else happens. */
  lemma {:induction false} TakeChildIs(t: Task, c: nat, asTry: bool)
    requires Done(t.frames, c)
    ensures TakeChild(t, c, asTry) == Ok(t.(frames := t.frames[c := t.frames[c].(status := Destroyed, destroyed := 1)]))
  {
  }

  /** What taking the result does to the frames and via coroutines, before it is delivered. */
  lemma {:induction false} TakingIs(t: Task, f: nat, th: Thread)
    requires f < |t.frames| && Served(t.frames, t.vias, f)
    ensures var t1 := AwaitResume(t, f, th);
      match t.frames[f].awaiter
      case NoAwait => false
      case ForYield => t1 == Ok(Delivered(t, f, false, Value(0), th))
      case ForForeign(v, r) => DestroyVia(t, v).Ok? && t1 == Ok(Delivered(DestroyVia(t, v).t, f, false, r, th))
      case ForChild(c) =>
        TakeChild(t, c, false).Ok? && t1 == Ok(Delivered(TakeChild(t, c, false).t, f, false, t.frames[c].body.result, th))
      case ForChildVia(c, v, asTry) =>
        TakeChild(t, c, asTry).Ok? && DestroyVia(TakeChild(t, c, asTry).t, v).Ok? &&
        t1 == Ok(Delivered(DestroyVia(TakeChild(t, c, asTry).t, v).t, f, asTry, t.frames[c].body.result, th))
  {
    hide Deliver;
  }

  /** The child is there to be taken, and the via coroutine to be destroyed. */
  lemma {:induction false} AwaitResumeSucceeds(t: Task, f: nat, th: Thread)
    requires Shape(t) && t.ctl == Resuming(f, th)
    ensures f < |t.frames| && AwaitResume(t, f, th).Ok?
  {
    assert f < |t.frames|;
    hide Spine, Deliver;
  }

  lemma {:induction false} AwaitResumeBinds(t: Task, f: nat, th: Thread)
    requires Shape(t) && t.ctl == Resuming(f, th) && f < |t.frames| && AwaitResume(t, f, th).Ok?
    ensures var t1, fr := AwaitResume(t, f, th).t, t.frames[f];
      && t1.stack == t.stack && t1.ctl == Exec(f, th) && |t1.frames| == |t.frames| && |t1.vias| == |t.vias|
      && t1.frames[f] == fr.(body := Deliver(fr.body, AsTry(fr.awaiter), Awaited(t.frames, fr.awaiter)), awaiter := NoAwait)
      && t1.trace == t.trace && t1.checkouts == t.checkouts && t1.checkins == t.checkins && t1.results == t.results
      && t1.refusals == t.refusals
  {
    assert Served(t.frames, t.vias, f) && (ChildOf(t.frames[f].awaiter).Some? ==> Done(t.frames, ChildOf(t.frames[f].awaiter).value));
    hide Shape, Spine, TopControl, Deliver;
    TakingIs(t, f, th);
    if ChildOf(t.frames[f].awaiter).Some? { TakeChildIs(t, ChildOf(t.frames[f].awaiter).value, AsTry(t.frames[f].awaiter)); }
    hide TakeChild, AwaitResume;
  }

  /** Whatever f awaited is taken: the child and the via coroutine are destroyed, the child for the first and only time, and
      the result is bound or thrown in f. */
  lemma {:induction false} AwaitResumeDelivers(t: Task, f: nat, th: Thread)
    requires Shape(t) && t.ctl == Resuming(f, th) && f < |t.frames| && AwaitResume(t, f, th).Ok?
    ensures var t1, fr := AwaitResume(t, f, th).t, t.frames[f];
      && t1.stack == t.stack && t1.ctl == Exec(f, th) && |t1.frames| == |t.frames| && |t1.vias| == |t.vias|
      && t1.frames[f] == fr.(body := Deliver(fr.body, AsTry(fr.awaiter), Awaited(t.frames, fr.awaiter)), awaiter := NoAwait)
      && t1.trace == t.trace && t1.checkouts == t.checkouts && t1.checkins == t.checkins && t1.results == t.results
      && t1.refusals == t.refusals
    ensures ChildOf(t.frames[f].awaiter).Some? ==>
      var t1, c := AwaitResume(t, f, th).t, ChildOf(t.frames[f].awaiter).value;
      f < c < |t.frames| && t.frames[c].status.AtFinal? && t.frames[c].destroyed == 0 && t1.frames[c] == t.frames[c].(status := Destroyed, destroyed := 1)
    ensures ViaOf(t.frames[f].awaiter).Some? ==>
      var t1, v := AwaitResume(t, f, th).t, ViaOf(t.frames[f].awaiter).value;
      v < |t.vias| && t.vias[v].destroyed == 0 && t1.vias[v] == t.vias[v].(status := Destroyed, destroyed := 1)
  {
    AwaitResumeBinds(t, f, th);
    var a := t.frames[f].awaiter;
    assert Served(t.frames, t.vias, f);
    TakingIs(t, f, th);
    if ChildOf(a).Some? { TakeChildIs(t, ChildOf(a).value, AsTry(a)); }
    hide Spine, Deliver, TakeChild, AwaitResume;
  }

  /** Nothing else changes but the temporaries. */
  lemma {:induction false} AwaitResumeSpares(t: Task, f: nat, th: Thread)
    requires Shape(t) && t.ctl == Resuming(f, th) && f < |t.frames| && AwaitResume(t, f, th).Ok?
    ensures var t1 := AwaitResume(t, f, th).t;
      && |t1.frames| == |t.frames| && OnlyTop(t.frames, t.vias, t1.frames, t1.vias, f)
      && (forall g :: 0 <= g < |t.frames| && g != f && Some(g) != ChildOf(t.frames[f].awaiter) ==> t1.frames[g] == t.frames[g])
      && (forall v :: 0 <= v < |t.vias| && Some(v) != ViaOf(t.frames[f].awaiter) ==> t1.vias[v] == t.vias[v])
  {
    var a := t.frames[f].awaiter;
    assert Served(t.frames, t.vias, f) && (ChildOf(a).Some? ==> Done(t.frames, ChildOf(a).value));
    hide Shape, Spine, TopControl, Deliver;
    TakingIs(t, f, th);
    if ChildOf(a).Some? { TakeChildIs(t, ChildOf(a).value, AsTry(a)); }
    hide TakeChild, AwaitResume;
  }

  lemma {:induction false} AwaitResumeKeepsShape(t: Task, f: nat, th: Thread)
    requires Shape(t) && t.ctl == Resuming(f, th)
    ensures f < |t.frames| && Shaped(AwaitResume(t, f, th))
  {
    AwaitResumeSucceeds(t, f, th);
    AwaitResumeDelivers(t, f, th);
    AwaitResumeSpares(t, f, th);
    var t1 := AwaitResume(t, f, th).t;
    hide Spine, AwaitResume, OnlyTop, Deliver;
    SpineUpdate(t.frames, t.vias, t1.frames, t1.vias, t.stack);
  }

  lemma {:induction false} RootStepKeepsShape(t: Task, th: Thread)
    requires Shape(t) && t.ctl == AtRoot(th)
    ensures Shaped(RootStep(t))
  {
  }
}
