/** What a task will come to never changes, and every step leaves less to do. */
module CoroutineMeaning {
  import opened TryModel
  import opened Tallies
  import opened CoroutineCode
  import opened CoroutineMachine
  import opened CoroutineHandles
  import opened CoroutineProofs

  // ---------------------------------------------------------------- what a task is heading for

  function FrameMeaning(fr: Frame): Fate {
    Meaning(fr.body, Vals(fr.vars), fr.executor)
  }

  /** What the frame comes to once its pending await expression has come to `r`. */
  function FrameAfter(fr: Frame, r: Fate): Fate {
    MeaningAfter(fr.body, Vals(fr.vars), AsTry(fr.awaiter), r, fr.executor)
  }

  /** What the root comes to once the innermost coroutine of `stack` has been handed `r`. */
  function Unwind(frames: seq<Frame>, stack: seq<nat>, r: Fate): Fate {
    if stack == [] || stack[|stack| - 1] >= |frames| then r else
    Unwind(frames, Pop(stack), FrameAfter(frames[stack[|stack| - 1]], r))
  }

  function TopMeaning(frames: seq<Frame>, p: nat): Fate
    requires p < |frames|
  {
    if frames[p].awaiter.NoAwait? then FrameMeaning(frames[p]) else FrameAfter(frames[p], Gives(Awaited(frames, frames[p].awaiter)))
  }

  /** The Try that the callback of Start was, or will be, called with, or the failure the task runs into; in both cases if
      no job is refused. */
  function Destiny(t: Task): Fate
    requires Shape(t)
  {
    if t.stack != [] then
      if t.ctl.Starting? && t.frames[0].executor.None? then Doomed(NullExecutor)
      else Unwind(t.frames, Pop(t.stack), TopMeaning(t.frames, Top(t)))
    else if t.results == [] then Gives(t.frames[0].body.result)
    else Gives(t.results[0])
  }

  lemma {:induction false} UnwindDoomed(frames: seq<Frame>, stack: seq<nat>, why: Fault)
    ensures Unwind(frames, stack, Doomed(why)) == Doomed(why)
    decreases |stack|
  {
    if stack != [] && stack[|stack| - 1] < |frames| {
      UnwindDoomed(frames, Pop(stack), why);
    }
  }

  // ---------------------------------------------------------------- the work left

  function FrameWork(fr: Frame): nat {
    BodySize(fr.body) + ValsSize(Vals(fr.vars))
  }

  function Work(frames: seq<Frame>, stack: seq<nat>): nat {
    if stack == [] || stack[|stack| - 1] >= |frames| then 0
    else Work(frames, Pop(stack)) + FrameWork(frames[stack[|stack| - 1]]) + 6
  }

  function ControlWork(ctl: Control): nat {
    match ctl
    case Over => 0
    case Exec(_, _) => 0
    case Dropped(_, _, _) => 0
    case AtRoot(_) => 1
    case Resuming(_, _) => 2
    case Queued(_, _, _) => 3
    case ExecVia(_, _) => 4
    case Waiting(_) => 5
    case Starting(_) => 5
  }

  function Measure(t: Task): nat {
    Work(t.frames, t.stack) + ControlWork(t.ctl) + (if t.ctl.Over? then 0 else 1)
  }

  // ---------------------------------------------------------------- the scope of variables

  /** No more variables are in scope than there are, and none when the body has its result. */
  predicate LevelOk(fr: Frame) {
    fr.body.live <= |fr.vars| && (fr.body.result.Available() ==> fr.body.live == 0)
  }

  predicate Leveled(frames: seq<Frame>) {
    forall f :: 0 <= f < |frames| ==> LevelOk(frames[f])
  }

  lemma {:induction false} RaiseLevel(b: Body, e: Exn)
    requires b.result == Nothing
    ensures Raise(b, e).result.Available() ==> Raise(b, e).live == 0
    decreases |b.blocks|
  {
    if b.blocks != [] && b.blocks[0].InCatch? { RaiseLevel(b.(blocks := b.blocks[1..]), e); }
  }

  lemma {:induction false} LocalLevel(b: Body)
    requires b.result == Nothing && IsLocal(b.code)
    ensures LocalStep(b).result.Available() ==> LocalStep(b).live == 0
  {
    if b.code.Throw? { RaiseLevel(b, User(Ev(b.code.x, b.env))); }
  }

  lemma {:induction false} DeliverLevel(b: Body, asTry: bool, r: Try<int>)
    requires b.result == Nothing
    ensures Deliver(b, asTry, r).result.Available() ==> Deliver(b, asTry, r).live == 0
  {
    match HandOver(asTry, r)
    case Thrown(e) => RaiseLevel(b, e);
    case _ =>
  }

  // ---------------------------------------------------------------- the three together

  /** `t1` is as far from the same destiny as `t`, and nearer by a step. */
  predicate Nearer(t: Task, t1: Task) {
    Shape(t) && Shape(t1) && Destiny(t1) == Destiny(t) && Measure(t1) < Measure(t) && Leveled(t1.frames)
  }

  predicate SameCode(frames: seq<Frame>, frames1: seq<Frame>, stack: seq<nat>) {
    forall k :: 0 <= k < |stack| ==>
      stack[k] < |frames| && stack[k] < |frames1| && frames1[stack[k]].body == frames[stack[k]].body &&
      frames1[stack[k]].vars == frames[stack[k]].vars && frames1[stack[k]].executor == frames[stack[k]].executor &&
      frames1[stack[k]].awaiter == frames[stack[k]].awaiter
  }

  lemma {:induction false} SameUnwind(frames: seq<Frame>, frames1: seq<Frame>, stack: seq<nat>, r: Fate)
    requires SameCode(frames, frames1, stack)
    ensures Unwind(frames1, stack, r) == Unwind(frames, stack, r)
    ensures Work(frames1, stack) == Work(frames, stack)
    decreases |stack|
  {
    if stack != [] {
      var fr := frames[stack[|stack| - 1]];
      assert SameCode(frames, frames1, Pop(stack)) by {
        assert forall k :: 0 <= k < |stack| - 1 ==> Pop(stack)[k] == stack[k];
      }
      hide MeaningAfter;
      SameUnwind(frames, frames1, Pop(stack), FrameAfter(fr, r));
    }
  }

  /** What happens at the top leaves the code below as it was. */
  lemma {:induction false} SameBelow(frames: seq<Frame>, vias: seq<ViaFrame>, frames1: seq<Frame>, vias1: seq<ViaFrame>, stack: seq<nat>, r: Fate)
    requires stack != [] && Spine(frames, vias, stack) && OnlyTop(frames, vias, frames1, vias1, stack[|stack| - 1])
    ensures Unwind(frames1, Pop(stack), r) == Unwind(frames, Pop(stack), r)
    ensures Work(frames1, Pop(stack)) == Work(frames, Pop(stack))
  {
    assert SameCode(frames, frames1, Pop(stack)) by {
      assert forall k :: 0 <= k < |stack| - 1 ==> Pop(stack)[k] == stack[k] && stack[k] < stack[|stack| - 1];
    }
    SameUnwind(frames, frames1, Pop(stack), r);
  }

  /** A step that replaces the body at the top, its variables, or what it awaits, by one with the same meaning. */
  lemma {:induction false} AtTheTop(t: Task)
    requires Shape(t) && t.stack != [] && !t.ctl.Starting?
    ensures Top(t) < |t.frames| && Spine(t.frames, t.vias, t.stack)
    ensures Destiny(t) == Unwind(t.frames, Pop(t.stack), TopMeaning(t.frames, Top(t)))
    ensures Measure(t) == Work(t.frames, Pop(t.stack)) + FrameWork(t.frames[Top(t)]) + 6 + ControlWork(t.ctl) + (if t.ctl.Over? then 0 else 1)
    ensures !t.ctl.Over?
  {
    assert Top(t) < |t.frames|;
    hide Spine, TopMeaning, FrameWork;
  }

  lemma {:induction false} AtTheEnd(t: Task)
    requires Shape(t) && t.stack == []
    ensures |t.frames| > 0 && Destiny(t) == if t.results == [] then Gives(t.frames[0].body.result) else Gives(t.results[0])
    ensures Measure(t) == ControlWork(t.ctl) + (if t.ctl.Over? then 0 else 1)
  {
  }

  lemma {:induction false} NearerAtTop(t: Task, t1: Task)
    requires Shape(t) && Shape(t1) && t.stack != [] && t1.stack == t.stack && !t.ctl.Starting? && !t1.ctl.Starting?
    requires OnlyTop(t.frames, t.vias, t1.frames, t1.vias, Top(t))
    requires TopMeaning(t1.frames, Top(t)) == TopMeaning(t.frames, Top(t))
    requires FrameWork(t1.frames[Top(t)]) + ControlWork(t1.ctl) < FrameWork(t.frames[Top(t)]) + ControlWork(t.ctl)
    requires Leveled(t1.frames)
    ensures Nearer(t, t1)
  {
    hide Shape, Spine, TopMeaning, FrameWork, Leveled, TopControl, Destiny, Measure, Unwind, Work, ControlWork, OnlyTop;
    AtTheTop(t);
    AtTheTop(t1);
    SameBelow(t.frames, t.vias, t1.frames, t1.vias, t.stack, TopMeaning(t.frames, Top(t)));
  }

  // ---------------------------------------------------------------- steps of a body

  lemma {:induction false} LocalNears(t: Task, f: nat, th: Thread)
    requires Shape(t) && Leveled(t.frames) && t.ctl == Exec(f, th)
    requires t.frames[f].body.result == Nothing && IsLocal(t.frames[f].body.code) && |t.frames[f].vars| == t.frames[f].body.live
    ensures Nearer(t, WithFrame(t, f, t.frames[f].(body := LocalStep(t.frames[f].body))))
  {
    var fr := t.frames[f];
    var t1 := WithFrame(t, f, fr.(body := LocalStep(fr.body)));
    assert OnlyTop(t.frames, t.vias, t1.frames, t1.vias, f);
    BodyMoveKeepsShape(t, t1, f, th);
    LocalStepMeans(fr.body, Vals(fr.vars), fr.executor);
    LocalStepShrinks(fr.body);
    LocalLevel(fr.body);
    assert LevelOk(t1.frames[f]);
    hide Spine, Meaning, BodySize, LocalStep, Nearer, ValsSize;
    NearerAtTop(t, t1);
  }

  lemma {:induction false} CurrentNears(t: Task, f: nat, th: Thread)
    requires Shape(t) && Leveled(t.frames) && t.ctl == Exec(f, th)
    requires t.frames[f].body.result == Nothing && t.frames[f].body.code.Await? && t.frames[f].body.code.what.Current?
    requires |t.frames[f].vars| == t.frames[f].body.live
    ensures Nearer(t, WithFrame(t, f, t.frames[f].(body := Deliver(Advanced(t.frames[f]).body, false, Value(Encode(t.frames[f].executor))))))
  {
    var fr := t.frames[f];
    var b, r := Advanced(fr).body, Value(Encode(fr.executor));
    var t1 := WithFrame(t, f, fr.(body := Deliver(b, false, r)));
    assert OnlyTop(t.frames, t.vias, t1.frames, t1.vias, f);
    BodyMoveKeepsShape(t, t1, f, th);
    AwaitMeans(fr.body, Vals(fr.vars), fr.executor);
    DeliverMeans(b, Vals(fr.vars), false, r, fr.executor);
    DeliverDoesNotGrow(b, false, r);
    DeliverLevel(b, false, r);
    assert BodySize(b) < BodySize(fr.body);
    assert LevelOk(t1.frames[f]);
    hide Spine, Meaning, MeaningAfter, BodySize, Deliver, Nearer, ValsSize;
    NearerAtTop(t, t1);
  }

  lemma {:induction false} ValsPush(vars: seq<Local>, v: Local)
    ensures Vals(vars + [v]) == Vals(vars) + [ValOf(v)]
  {
  }

  lemma {:induction false} ValsGone(vars: seq<Local>, i: nat)
    requires i < |vars|
    ensures Vals(Gone(vars, i)) == Emptied(Vals(vars), i)
  {
  }

  lemma {:induction false} MakeVals(t: Task, f: nat)
    requires f < |t.frames| && t.frames[f].body.result == Nothing && t.frames[f].body.code.Make?
    requires |t.frames[f].vars| == t.frames[f].body.live
    ensures FrameMeaning(MakeStep(t, f).frames[f]) == FrameMeaning(t.frames[f])
    ensures FrameWork(MakeStep(t, f).frames[f]) < FrameWork(t.frames[f])
  {
    var fr := t.frames[f];
    var v := Local(false, Some(|t.frames|), Closure(fr.body.code.body, fr.body.env, None));
    ValsPush(fr.vars, v);
    MakeMeans(fr.body, Vals(fr.vars), fr.executor);
    TallyPush(Vals(fr.vars), ValOf(v), ValSize);
    hide Meaning;
  }

  lemma {:induction false} MakeNears(t: Task, f: nat, th: Thread)
    requires Shape(t) && Leveled(t.frames) && t.ctl == Exec(f, th)
    requires t.frames[f].body.result == Nothing && t.frames[f].body.code.Make? && |t.frames[f].vars| == t.frames[f].body.live
    ensures Nearer(t, MakeStep(t, f))
  {
    var t1 := MakeStep(t, f);
    assert OnlyTop(t.frames, t.vias, t1.frames, t1.vias, f) && f == Top(t);
    hide FrameMeaning, FrameWork, Nearer, Leveled, Spine;
    BodyMoveKeepsShape(t, t1, f, th);
    MakeVals(t, f);
    MakeLevel(t, f);
    hide OnlyTop, Shape;
    NearerAtTop(t, t1);
  }

  lemma {:induction false} MakeLevel(t: Task, f: nat)
    requires Leveled(t.frames) && f < |t.frames| && t.frames[f].body.code.Make? && !t.frames[f].body.result.Available()
    ensures Leveled(MakeStep(t, f).frames)
  {
    var t1 := MakeStep(t, f);
    forall g | 0 <= g < |t1.frames|
      ensures LevelOk(t1.frames[g])
    {
      assert g < |t.frames| ==> LevelOk(t.frames[g]);
    }
  }

  predicate Moving(t: Task, f: nat, th: Thread, i: nat) {
    && t.ctl == Exec(f, th) && f < |t.frames| && t.frames[f].body.result == Nothing && |t.frames[f].vars| == t.frames[f].body.live
    && i < |t.frames[f].vars| && (t.frames[f].body.code.Move? || t.frames[f].body.code.Via?) && t.frames[f].body.code.i == i
  }

  /** What a move does to the frame that makes it, and that it touches nothing below. */
  lemma {:induction false} MovedAtTop(t: Task, f: nat, th: Thread, i: nat, v: Local)
    requires Shape(t) && HandlesOk(t.frames) && Moving(t, f, th, i) && v.coro == t.frames[f].vars[i].coro
    ensures var t1 := Moved(t, f, i, v);
      && OnlyTop(t.frames, t.vias, t1.frames, t1.vias, f) && |t1.frames| == |t.frames|
      && t1.frames[f] == t.frames[f].(body := Declared(t.frames[f].body), vars := Gone(t.frames[f].vars, i) + [v])
      && (forall g :: 0 <= g < |t.frames| && g != f ==> t1.frames[g].body == t.frames[g].body && t1.frames[g].vars == t.frames[g].vars)
      && t1.stack == t.stack && t1.ctl == t.ctl && t1.results == t.results && t1.refusals == t.refusals
  {
    if v.coro.Some? { VarHolds(t.frames, f, i); }
    hide Spine;
  }

  lemma {:induction false} MovedNears(t: Task, f: nat, th: Thread, i: nat, v: Local)
    requires Shape(t) && Leveled(t.frames) && HandlesOk(t.frames) && Moving(t, f, th, i) && v.coro == t.frames[f].vars[i].coro
    requires ValSize(ValOf(v)) == ValSize(ValOf(t.frames[f].vars[i]))
    requires Meaning(Declared(t.frames[f].body), Emptied(Vals(t.frames[f].vars), i) + [ValOf(v)], t.frames[f].executor) == FrameMeaning(t.frames[f])
    ensures Nearer(t, Moved(t, f, i, v))
  {
    var fr, t1 := t.frames[f], Moved(t, f, i, v);
    MovedAtTop(t, f, th, i, v);
    BodyMoveKeepsShape(t, t1, f, th);
    ValsGone(fr.vars, i);
    ValsPush(Gone(fr.vars, i), v);
    MovedSize(Vals(fr.vars), i, ValOf(v));
    assert FrameWork(t1.frames[f]) < FrameWork(fr);
    assert forall g :: 0 <= g < |t1.frames| ==> LevelOk(t.frames[g]) && LevelOk(t1.frames[g]);
    hide Spine, Meaning, BodySize, Nearer, ValsSize, FrameWork, Moved, OnlyTop;
    NearerAtTop(t, t1);
  }

  lemma {:induction false} MoveStepNears(t: Task, f: nat, th: Thread)
    requires Shape(t) && Leveled(t.frames) && HandlesOk(t.frames) && f < |t.frames| && t.frames[f].body.code.Move? && Moving(t, f, th, t.frames[f].body.code.i)
    ensures MoveStep(t, f).Ok? && Nearer(t, MoveStep(t, f).t)
  {
    var fr := t.frames[f];
    MoveMeans(fr.body, Vals(fr.vars), fr.executor);
    hide Shape, Leveled, HandlesOk, Meaning, Nearer;
    MovedNears(t, f, th, fr.body.code.i, fr.vars[fr.body.code.i]);
  }

  lemma {:induction false} RescheduleStepNears(t: Task, f: nat, th: Thread)
    requires Shape(t) && Leveled(t.frames) && HandlesOk(t.frames) && f < |t.frames| && t.frames[f].body.code.Via? && Moving(t, f, th, t.frames[f].body.code.i)
    requires !t.frames[f].vars[t.frames[f].body.code.i].resched
    ensures RescheduleStep(t, f).Ok? && Nearer(t, RescheduleStep(t, f).t)
  {
    var fr := t.frames[f];
    var i := fr.body.code.i;
    ViaMeans(fr.body, Vals(fr.vars), fr.executor);
    if fr.vars[i].coro.None? {
      ViaRaisesNears(t, f, th);
    } else {
      hide Shape, Leveled, HandlesOk, Meaning, Nearer;
      MovedNears(t, f, th, i, Local(true, fr.vars[i].coro, fr.vars[i].what.(ex := fr.body.code.ex)));
    }
  }

  /** Via of a moved-from Lazy throws. */
  lemma {:induction false} ViaRaisesNears(t: Task, f: nat, th: Thread)
    requires Shape(t) && Leveled(t.frames) && f < |t.frames| && t.frames[f].body.code.Via? && Moving(t, f, th, t.frames[f].body.code.i)
    requires !t.frames[f].vars[t.frames[f].body.code.i].resched && t.frames[f].vars[t.frames[f].body.code.i].coro.None?
    ensures Nearer(t, WithFrame(t, f, t.frames[f].(body := Raise(t.frames[f].body, LogicError))))
  {
    var fr := t.frames[f];
    var t1 := WithFrame(t, f, fr.(body := Raise(fr.body, LogicError)));
    assert OnlyTop(t.frames, t.vias, t1.frames, t1.vias, f);
    BodyMoveKeepsShape(t, t1, f, th);
    ViaMeans(fr.body, Vals(fr.vars), fr.executor);
    RaiseShrinks(fr.body, LogicError);
    RaiseLevel(fr.body, LogicError);
    assert LevelOk(t1.frames[f]);
    hide Spine, Meaning, BodySize, Raise, Nearer, ValsSize;
    NearerAtTop(t, t1);
  }

  lemma {:induction false} DropVals(fr: Frame)
    requires |fr.vars| > fr.body.live
    ensures FrameMeaning(fr.(vars := Pop(fr.vars))) == FrameMeaning(fr)
    ensures FrameWork(fr.(vars := Pop(fr.vars))) < FrameWork(fr)
  {
    var v := fr.vars[|fr.vars| - 1];
    assert Pop(fr.vars) + [v] == fr.vars;
    ValsPush(Pop(fr.vars), v);
    TallyPush(Vals(Pop(fr.vars)), ValOf(v), ValSize);
    assert Take(Vals(Pop(fr.vars)), fr.body.live) == Take(Vals(fr.vars), fr.body.live);
    hide Meaning, BodySize;
  }

  lemma {:induction false} DropAtTop(t: Task, f: nat, th: Thread)
    requires Shape(t) && Leveled(t.frames) && HandlesOk(t.frames) && t.ctl == Exec(f, th) && |t.frames[f].vars| > t.frames[f].body.live
    ensures DropStep(t, f).Ok?
    ensures var t1 := DropStep(t, f).t;
      && OnlyTop(t.frames, t.vias, t1.frames, t1.vias, f) && t1.frames[f] == t.frames[f].(vars := Pop(t.frames[f].vars))
      && t1.ctl == t.ctl && t1.stack == t.stack && t1.vias == t.vias && t1.results == t.results && t1.refusals == t.refusals
      && Leveled(t1.frames)
  {
    var fr := t.frames[f];
    var n := |fr.vars| - 1;
    if fr.vars[n].coro.Some? { VarHolds(t.frames, f, n); }
    var t1 := DropStep(t, f).t;
    assert forall g :: 0 <= g < |t1.frames| ==> LevelOk(t.frames[g]) && LevelOk(t1.frames[g]);
    hide Spine;
  }

  /** A variable that is out of scope already: its destruction changes what is there, not what the frame computes. */
  lemma {:induction false} DropNears(t: Task, f: nat, th: Thread)
    requires Shape(t) && Leveled(t.frames) && HandlesOk(t.frames) && t.ctl == Exec(f, th) && |t.frames[f].vars| > t.frames[f].body.live
    ensures DropStep(t, f).Ok? && Nearer(t, DropStep(t, f).t)
  {
    DropAtTop(t, f, th);
    DropVals(t.frames[f]);
    hide Spine, FrameMeaning, FrameWork, Nearer, DropStep, OnlyTop, Leveled;
    BodyMoveKeepsShape(t, DropStep(t, f).t, f, th);
    NearerAtTop(t, DropStep(t, f).t);
  }

  // ---------------------------------------------------------------- awaiting a child

  /** A child at the top of the stack stands for what its parent awaits. */
  lemma {:induction false} NearerByChild(t: Task, t1: Task, c: nat)
    requires Shape(t) && Shape(t1) && t.stack != [] && t1.stack == t.stack + [c] && Top(t) < c < |t.frames| == |t1.frames|
    requires OnlyTop(t.frames, t.vias, t1.frames, t1.vias, Top(t)) && !t1.ctl.Starting?
    requires t1.frames[c].awaiter.NoAwait?
    requires TopMeaning(t.frames, Top(t)) == FrameAfter(t1.frames[Top(t)], FrameMeaning(t1.frames[c]))
    requires FrameWork(t.frames[Top(t)]) + 5 >= FrameWork(t1.frames[Top(t)]) + 40 + FrameWork(t1.frames[c])
    requires t.ctl.Exec? && ControlWork(t1.ctl) <= 5 && Leveled(t1.frames)
    ensures Nearer(t, t1)
  {
    SameBelow(t.frames, t.vias, t1.frames, t1.vias, t.stack, TopMeaning(t.frames, Top(t)));
    assert Pop(t1.stack) == t.stack;
    assert Work(t1.frames, t.stack) == Work(t1.frames, Pop(t.stack)) + FrameWork(t1.frames[Top(t)]) + 6;
    hide Spine, FrameWork, Leveled, TopControl, FrameMeaning, FrameAfter;
  }

  /** The top frame f, with nothing left to destroy, awaits its variable i for a value or a Try. */
  predicate AwaitsNow(t: Task, f: nat, th: Thread, i: nat, c: nat) {
    && Awaits(t, f, th, i, c) && t.frames[f].body.live == |t.frames[f].vars|
    && t.frames[f].body.code.what == (if t.frames[f].body.code.what.TryOf? then TryOf(i) else ValueOf(i))
  }

  /** What the awaiting frame comes to, in terms of the child it is about to enter under executor `ex`. */
  lemma {:induction false} ChildMeans(t: Task, f: nat, th: Thread, i: nat, c: nat, ex: ExecutorPtr, a: Awaiter)
    requires AwaitsNow(t, f, th, i, c)
    requires ex == if t.frames[f].vars[i].resched || t.frames[f].body.code.what.TryOf? then t.frames[c].executor else t.frames[f].executor
    requires t.frames[f].vars[i].resched ==> ex.Some?
    requires AsTry(a) == t.frames[f].body.code.what.TryOf?
    ensures FrameMeaning(t.frames[f]) == FrameAfter(Parent(t.frames[f], i, a), Meaning(t.frames[c].body, [], ex))
  {
    var fr := t.frames[f];
    AwaitMeans(fr.body, Vals(fr.vars), fr.executor);
    ValsGone(fr.vars, i);
    var none: seq<Val> := [];
    assert Take(none, 0) == none;
  }

  lemma {:induction false} ChildWork(t: Task, f: nat, th: Thread, i: nat, c: nat, a: Awaiter, child: Frame)
    requires AwaitsNow(t, f, th, i, c) && child.body == t.frames[c].body && child.vars == t.frames[c].vars
    ensures FrameWork(t.frames[f]) + 5 >= FrameWork(Parent(t.frames[f], i, a)) + 40 + FrameWork(child)
  {
    var fr := t.frames[f];
    ValsGone(fr.vars, i);
    EmptiedSize(Vals(fr.vars), i);
    assert Vals([]) == [];
  }

  /** The awaiting frame and the child change, and the levels are as they were. */
  lemma {:induction false} AwaitLevel(frames: seq<Frame>, frames1: seq<Frame>, f: nat, i: nat, c: nat, a: Awaiter)
    requires Leveled(frames) && f < c < |frames| == |frames1| && frames[f].body.code.Await? && i < |frames[f].vars|
    requires !frames[f].body.result.Available() && frames1[f] == Parent(frames[f], i, a)
    requires frames1[c].body == frames[c].body && frames1[c].vars == frames[c].vars
    requires forall g :: 0 <= g < |frames| && g != f && g != c ==> frames1[g] == frames[g]
    ensures Leveled(frames1)
  {
    forall g | 0 <= g < |frames1|
      ensures LevelOk(frames1[g])
    {
      assert LevelOk(frames[g]);
    }
  }

  lemma {:induction false} AwaitChildNears(t: Task, f: nat, th: Thread, i: nat, c: nat)
    requires Shape(t) && Leveled(t.frames) && AwaitsNow(t, f, th, i, c)
    requires !t.frames[f].vars[i].resched && t.frames[f].body.code.what.ValueOf?
    ensures Nearer(t, AwaitChild(t, f, th, i, c))
  {
    var t1 := AwaitChild(t, f, th, i, c);
    AwaitChildKeepsShape(t, f, th, i, c);
    ChildMeans(t, f, th, i, c, t.frames[f].executor, ForChild(c));
    ChildWork(t, f, th, i, c, ForChild(c), t1.frames[c]);
    assert Vals([]) == [] && f == Top(t);
    assert OnlyTop(t.frames, t.vias, t1.frames, t1.vias, f);
    AwaitLevel(t.frames, t1.frames, f, i, c, ForChild(c));
    hide Spine, Meaning, MeaningAfter, FrameWork, Nearer, OnlyTop, Leveled;
    NearerByChild(t, t1, c);
  }

  lemma {:induction false} AwaitTryNears(t: Task, f: nat, th: Thread, i: nat, c: nat)
    requires Shape(t) && Leveled(t.frames) && AwaitsNow(t, f, th, i, c) && Wrap(t, f, th).Some?
    requires !t.frames[f].vars[i].resched && t.frames[f].body.code.what.TryOf?
    ensures Nearer(t, AwaitTry(t, f, th, i, c, Wrap(t, f, th).value))
  {
    var t1 := AwaitTry(t, f, th, i, c, Wrap(t, f, th).value);
    var a := ForChildVia(c, |t.vias|, true);
    AwaitTryKeepsShape(t, f, th, i, c);
    ChildMeans(t, f, th, i, c, t.frames[c].executor, a);
    ChildWork(t, f, th, i, c, a, t1.frames[c]);
    assert Vals([]) == [] && f == Top(t);
    assert OnlyTop(t.frames, t.vias, t1.frames, t1.vias, f);
    AwaitLevel(t.frames, t1.frames, f, i, c, a);
    hide Spine, Meaning, MeaningAfter, FrameWork, Nearer, OnlyTop, Leveled;
    NearerByChild(t, t1, c);
  }

  lemma {:induction false} AwaitRescheduleIs(t: Task, f: nat, th: Thread, i: nat, c: nat, asTry: bool, accepted: bool)
    requires Shape(t) && Awaits(t, f, th, i, c) && Wrap(t, f, th).Some? && t.frames[c].executor.Some?
    ensures var c1 := AwaitReschedule(t, f, i, c, Wrap(t, f, th).value, asTry, accepted);
      && c1.Ok? && f == Top(t) && f < c && t.stack != [] && t.frames[c].vars == [] && Vals([]) == []
      && OnlyTop(t.frames, t.vias, c1.t.frames, c1.t.vias, f) && c1.t.stack == t.stack + [c] && |c1.t.frames| == |t.frames|
      && ControlWork(c1.t.ctl) <= 5 && !c1.t.ctl.Starting?
      && c1.t.frames[f] == Parent(t.frames[f], i, ForChildVia(c, |t.vias|, asTry))
      && c1.t.frames[c] == t.frames[c].(continuation := ViaH(|t.vias|), status := Suspended, taken := true)
      && c1.t.frames[c].awaiter.NoAwait?
      && (forall g :: 0 <= g < |t.frames| && g != f && g != c ==> c1.t.frames[g] == t.frames[g])
  {
    hide Spine;
  }

  lemma {:induction false} AwaitRescheduleNears(t: Task, f: nat, th: Thread, i: nat, c: nat, accepted: bool)
    requires Shape(t) && Leveled(t.frames) && AwaitsNow(t, f, th, i, c) && Wrap(t, f, th).Some?
    requires t.frames[f].vars[i].resched && t.frames[c].executor.Some?
    ensures var c1 := AwaitReschedule(t, f, i, c, Wrap(t, f, th).value, t.frames[f].body.code.what.TryOf?, accepted);
      c1.Ok? && Nearer(t, c1.t)
  {
    var asTry := t.frames[f].body.code.what.TryOf?;
    var t1 := AwaitReschedule(t, f, i, c, Wrap(t, f, th).value, asTry, accepted).t;
    var a := ForChildVia(c, |t.vias|, asTry);
    AwaitRescheduleIs(t, f, th, i, c, asTry, accepted);
    hide Spine, Meaning, MeaningAfter, FrameWork, Nearer, OnlyTop, Leveled, AwaitReschedule, Wrap, Holds;
    AwaitRescheduleKeepsShape(t, f, th, i, c, asTry, accepted);
    ChildMeans(t, f, th, i, c, t.frames[c].executor, a);
    ChildWork(t, f, th, i, c, a, t1.frames[c]);
    AwaitLevel(t.frames, t1.frames, f, i, c, a);
    NearerByChild(t, t1, c);
  }

  // ---------------------------------------------------------------- awaiting anything else

  lemma {:induction false} TopLevel(frames: seq<Frame>, frames1: seq<Frame>, f: nat)
    requires Leveled(frames) && f < |frames| == |frames1| && !frames[f].body.result.Available()
    requires frames1[f].body == frames[f].body.(code := frames1[f].body.code) && frames1[f].vars == frames[f].vars
    requires forall g :: 0 <= g < |frames| && g != f ==> frames1[g] == frames[g]
    ensures Leveled(frames1)
  {
    forall g | 0 <= g < |frames1|
      ensures LevelOk(frames1[g])
    {
      assert LevelOk(frames[g]);
    }
  }

  /** The top frame f suspends, or is about to resume, in an await expression that will hand over `r`. */
  predicate Suspends(t: Task, t1: Task, f: nat, r: Try<int>) {
    && f < |t.frames| == |t1.frames| && t.frames[f].body.code.Await? && t1.stack == t.stack && !t1.ctl.Starting?
    && OnlyTop(t.frames, t.vias, t1.frames, t1.vias, f) && ControlWork(t1.ctl) <= 5
    && t1.frames[f].body == Advanced(t.frames[f]).body && t1.frames[f].vars == t.frames[f].vars
    && t1.frames[f].executor == t.frames[f].executor
    && !t1.frames[f].awaiter.NoAwait? && !AsTry(t1.frames[f].awaiter) && Awaited(t1.frames, t1.frames[f].awaiter) == r
    && (forall g :: 0 <= g < |t.frames| && g != f ==> t1.frames[g] == t.frames[g])
  }

  lemma {:induction false} SuspendNears(t: Task, t1: Task, f: nat, th: Thread, r: Try<int>)
    requires Shape(t) && Shape(t1) && Leveled(t.frames) && t.ctl == Exec(f, th) && Suspends(t, t1, f, r)
    requires t.frames[f].body.result == Nothing && |t.frames[f].vars| == t.frames[f].body.live
    requires AwaitFate(t.frames[f].body.code.what, t.frames[f].body.env, Vals(t.frames[f].vars), t.frames[f].executor) == Gives(r)
    requires !t.frames[f].body.code.what.TryOf? && !t.frames[f].body.code.what.ValueOf?
    ensures Nearer(t, t1)
  {
    var fr := t.frames[f];
    AwaitMeans(fr.body, Vals(fr.vars), fr.executor);
    assert BodySize(fr.body) == BodySize(fr.body.(code := fr.body.code.next)) + 40;
    TopLevel(t.frames, t1.frames, f);
    assert f == Top(t);
    hide Spine, Meaning, MeaningAfter, BodySize, Nearer, ValsSize, Leveled, OnlyTop, AwaitFate, TopControl;
    NearerAtTop(t, t1);
  }

  lemma {:induction false} AwaitForeignNears(t: Task, f: nat, th: Thread, path: Path)
    requires Shape(t) && Leveled(t.frames) && t.ctl == Exec(f, th) && Wrap(t, f, th).Some? && |t.frames[f].vars| == t.frames[f].body.live
    requires t.frames[f].body.result == Nothing && t.frames[f].body.code.Await? && t.frames[f].body.code.what.Foreign?
    ensures var what := t.frames[f].body.code.what;
      var c1 := AwaitForeign(t, f, th, ForeignResult(what.x, what.fails, t.frames[f].body.env), path); c1.Ok? && Nearer(t, c1.t)
  {
    var fr := t.frames[f];
    var r := ForeignResult(fr.body.code.what.x, fr.body.code.what.fails, fr.body.env);
    AwaitForeignKeepsShape(t, f, th, r, path);
    assert f == Top(t) && Suspends(t, AwaitForeign(t, f, th, r, path).t, f, r);
    hide Shape, Leveled, AwaitForeign, Suspends, Nearer;
    SuspendNears(t, AwaitForeign(t, f, th, r, path).t, f, th, r);
  }

  lemma {:induction false} AwaitYieldNears(t: Task, f: nat, th: Thread, accepted: bool)
    requires Shape(t) && Leveled(t.frames) && t.ctl == Exec(f, th) && |t.frames[f].vars| == t.frames[f].body.live
    requires t.frames[f].body.result == Nothing && t.frames[f].body.code.Await? && t.frames[f].body.code.what.Yield?
    requires t.frames[f].executor.Some?
    ensures AwaitYield(t, f, accepted).Ok? && Nearer(t, AwaitYield(t, f, accepted).t)
  {
    AwaitYieldKeepsShape(t, f, th, accepted);
    assert f == Top(t) && Suspends(t, AwaitYield(t, f, accepted).t, f, Value(0));
    hide Shape, Leveled, AwaitYield, Suspends, Nearer;
    SuspendNears(t, AwaitYield(t, f, accepted).t, f, th, Value(0));
  }

  // ---------------------------------------------------------------- finishing and resuming

  /** The frame below the finished f, if any, now awaits nothing but f's result. */
  lemma {:induction false} FinalSuspendUncovers(t: Task, f: nat, th: Thread)
    requires Shape(t) && t.ctl == Exec(f, th) && t.frames[f].body.result.Available()
    requires FinalSuspend(t, f, th).Ok? && Shape(FinalSuspend(t, f, th).t)
    ensures var t1 := FinalSuspend(t, f, th).t;
      && t1.stack == Pop(t.stack) && |t1.frames| == |t.frames|
      && (forall g :: 0 <= g < |t.frames| ==> t1.frames[g].body == t.frames[g].body && t1.frames[g].vars == t.frames[g].vars &&
                                              t1.frames[g].executor == t.frames[g].executor && t1.frames[g].awaiter == t.frames[g].awaiter)
      && t1.results == [] && (t1.stack == [] ==> f == 0)
      && ControlWork(t1.ctl) <= 4 && !t1.ctl.Starting?
      && (t1.stack != [] ==>
            Top(t1) < |t.frames| && TopMeaning(t1.frames, Top(t1)) == FrameAfter(t.frames[Top(t1)], Gives(t.frames[f].body.result)))
  {
    SpinePop(t.frames, t.vias, t.stack);
    var t1 := FinalSuspend(t, f, th).t;
    assert |t.stack| > 1 ==> Top(t1) == t.stack[|t.stack| - 2];
    hide Spine, MeaningAfter, Meaning, BodySize, TopControl, Shape;
  }

  /** The finished top frame leaves the stack with the result r, and the frame below goes on with it. */
  lemma {:induction false} PopNears(t: Task, t1: Task, r: Fate)
    requires Shape(t) && Shape(t1) && t.stack != [] && t1.stack == Pop(t.stack) && !t.ctl.Starting? && !t1.ctl.Starting?
    requires TopMeaning(t.frames, Top(t)) == r && SameCode(t.frames, t1.frames, t1.stack) && Leveled(t1.frames)
    requires t1.stack == [] ==> t1.results == [] && Gives(t1.frames[0].body.result) == r
    requires t1.stack != [] ==> Top(t1) < |t.frames| && TopMeaning(t1.frames, Top(t1)) == FrameAfter(t.frames[Top(t1)], r)
    requires ControlWork(t1.ctl) <= 4
    ensures Nearer(t, t1)
  {
    hide Spine, TopMeaning, MeaningAfter, FrameWork, Leveled, TopControl, Destiny, Measure, ControlWork;
    AtTheTop(t);
    if t1.stack == [] { AtTheEnd(t1); } else { AtTheTop(t1); }
    hide Shape;
    SameUnwind(t.frames, t1.frames, t1.stack, r);
  }

  lemma {:induction false} FinalSuspendNears(t: Task, f: nat, th: Thread)
    requires Shape(t) && Leveled(t.frames) && t.ctl == Exec(f, th) && t.frames[f].body.result.Available()
    ensures FinalSuspend(t, f, th).Ok? && Nearer(t, FinalSuspend(t, f, th).t)
  {
    FinalSuspendKeepsShape(t, f, th);
    FinalSuspendUncovers(t, f, th);
    assert f == Top(t) && f < |t.frames| && t.frames[f].awaiter.NoAwait?;
    hide Spine, MeaningAfter, Meaning, TopControl, FinalSuspend, FrameAfter, Nearer, ControlWork;
    var t1, r := FinalSuspend(t, f, th).t, Gives(t.frames[f].body.result);
    assert SameCode(t.frames, t1.frames, t1.stack) by {
      assert forall k :: 0 <= k < |t1.stack| ==> t1.stack[k] == t.stack[k] && t.stack[k] < |t.frames|;
    }
    assert FrameMeaning(t.frames[f]) == r;
    assert forall g :: 0 <= g < |t1.frames| ==> LevelOk(t.frames[g]) && LevelOk(t1.frames[g]);
    PopNears(t, t1, r);
  }

  /** A step that changes neither bodies nor variables nor awaiters. */
  lemma {:induction false} TransferNears(t: Task, t1: Task)
    requires Shape(t) && Shape(t1) && Leveled(t.frames) && t.stack != [] && t1.stack == t.stack && !t.ctl.Starting? && !t1.ctl.Starting?
    requires OnlyTop(t.frames, t.vias, t1.frames, t1.vias, Top(t)) && ControlWork(t1.ctl) < ControlWork(t.ctl)
    requires |t1.frames| == |t.frames|
    requires forall f :: 0 <= f < |t.frames| ==>
      t1.frames[f].body == t.frames[f].body && t1.frames[f].vars == t.frames[f].vars &&
      t1.frames[f].executor == t.frames[f].executor && t1.frames[f].awaiter == t.frames[f].awaiter
    ensures Nearer(t, t1)
  {
    assert forall g :: 0 <= g < |t1.frames| ==> LevelOk(t.frames[g]) && LevelOk(t1.frames[g]);
    hide Spine, Meaning, MeaningAfter, BodySize, Nearer, TopControl, ValsSize;
    NearerAtTop(t, t1);
  }

  lemma {:induction false} ViaStepIs(t: Task, v: nat, th: Thread, accepted: bool)
    requires Shape(t) && t.ctl == ExecVia(v, th) && v < |t.vias| && ViaStep(t, v, th, accepted).Ok?
    ensures var t1 := ViaStep(t, v, th, accepted).t;
      && t.stack != [] && t1.stack == t.stack && !t1.ctl.Starting? && ControlWork(t1.ctl) < 4
      && OnlyTop(t.frames, t.vias, t1.frames, t1.vias, Top(t)) && |t1.frames| == |t.frames|
      && (forall f :: 0 <= f < |t.frames| ==>
            t1.frames[f].body == t.frames[f].body && t1.frames[f].vars == t.frames[f].vars &&
            t1.frames[f].executor == t.frames[f].executor && t1.frames[f].awaiter == t.frames[f].awaiter)
  {
    assert Top(t) < |t.frames|;
    hide Spine;
  }

  lemma {:induction false} ViaStepNears(t: Task, v: nat, th: Thread, accepted: bool)
    requires Shape(t) && Leveled(t.frames) && t.ctl == ExecVia(v, th)
    ensures v < |t.vias| && ViaStep(t, v, th, accepted).Ok? && Nearer(t, ViaStep(t, v, th, accepted).t)
  {
    ViaStepKeepsShape(t, v, th, accepted);
    assert v < |t.vias|;
    hide Shape, Nearer, Leveled, ViaStep, OnlyTop;
    ViaStepIs(t, v, th, accepted);
    TransferNears(t, ViaStep(t, v, th, accepted).t);
  }

  lemma {:induction false} PickNears(t: Task, f: nat, e: nat, pin: Option<nat>, i: nat)
    requires Shape(t) && Leveled(t.frames) && t.ctl == Queued(f, e, pin)
    ensures Resume(t, f, Worker(e, i)).Ok? && Nearer(t, Resume(t, f, Worker(e, i)).t)
  {
    PickKeepsShape(t, f, e, pin, i);
    hide Spine, Nearer, Leveled;
    TransferNears(t, Resume(t, f, Worker(e, i)).t);
  }

  lemma {:induction false} FireNears(t: Task, v: nat, th: Thread)
    requires Shape(t) && Leveled(t.frames) && t.ctl == Waiting(v)
    ensures Nearer(t, t.(ctl := ExecVia(v, th)))
  {
    assert Top(t) < |t.frames|;
    hide Spine, Nearer, Leveled;
    TransferNears(t, t.(ctl := ExecVia(v, th)));
  }

  lemma {:induction false} StartNears(t: Task, th: Thread, accepted: bool)
    requires Shape(t) && Leveled(t.frames) && t.ctl == Starting(th) && |t.frames| > 0
    ensures if t.frames[0].executor.None? then StartStep(t, accepted) == Crashed(NullExecutor) && Destiny(t) == Doomed(NullExecutor)
            else StartStep(t, accepted).Ok? && Nearer(t, StartStep(t, accepted).t)
  {
    if t.frames[0].executor.Some? { StartKeepsShape(t, th, accepted); }
    hide Spine, TopMeaning;
  }

  lemma {:induction false} AwaitResumeNears(t: Task, f: nat, th: Thread)
    requires Shape(t) && Leveled(t.frames) && t.ctl == Resuming(f, th)
    ensures f < |t.frames| && AwaitResume(t, f, th).Ok? && Nearer(t, AwaitResume(t, f, th).t)
  {
    assert f == Top(t) && f < |t.frames|;
    AwaitResumeKeepsShape(t, f, th);
    AwaitResumeDelivers(t, f, th);
    AwaitResumeSpares(t, f, th);
    var t1 := AwaitResume(t, f, th).t;
    var fr := t.frames[f];
    var asTry, r := AsTry(fr.awaiter), Awaited(t.frames, fr.awaiter);
    assert fr.body.result == Nothing && !fr.awaiter.NoAwait?;
    DeliverMeans(fr.body, Vals(fr.vars), asTry, r, fr.executor);
    DeliverDoesNotGrow(fr.body, asTry, r);
    DeliverLevel(fr.body, asTry, r);
    hide Spine, Meaning, MeaningAfter, BodySize, Deliver, Nearer, AwaitResume, TopControl, OnlyTop, Awaited, ValsSize;
    assert forall g :: 0 <= g < |t1.frames| ==> LevelOk(t.frames[g]) && LevelOk(t1.frames[g]);
    NearerAtTop(t, t1);
  }

  lemma {:induction false} RootStepNears(t: Task, th: Thread)
    requires Shape(t) && Leveled(t.frames) && t.ctl == AtRoot(th)
    ensures RootStep(t).Ok? && Nearer(t, RootStep(t).t)
  {
    RootStepKeepsShape(t, th);
    var t1 := RootStep(t).t;
    assert forall g :: 0 <= g < |t1.frames| ==> LevelOk(t.frames[g]) && LevelOk(t1.frames[g]);
  }

  // ---------------------------------------------------------------- failing

  /** A step that fails was the destiny of the task. */
  lemma {:induction false} FailsAsDestined(t: Task, f: nat, th: Thread, why: Fault)
    requires Shape(t) && t.ctl == Exec(f, th) && t.frames[f].body.result == Nothing && |t.frames[f].vars| == t.frames[f].body.live
    requires Eval(t.frames[f].body.code, t.frames[f].body.env, Vals(t.frames[f].vars), t.frames[f].executor).flow == Fails(why)
    ensures Destiny(t) == Doomed(why)
  {
    var fr := t.frames[f];
    assert f == Top(t) && f < |t.frames| && fr.awaiter.NoAwait?;
    assert Take(Vals(fr.vars), fr.body.live) == Vals(fr.vars);
    FailureMeans(fr.body, Vals(fr.vars), fr.executor, why);
    UnwindDoomed(t.frames, Pop(t.stack), why);
    hide Spine, Meaning, Eval;
  }
}
