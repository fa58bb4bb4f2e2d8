/** What holds over every run of a task, under every choice of workers, threads, foreign awaitables and answers of executors. */
module CoroutineTheorems {
  import opened TryModel
  import opened CoroutineCode
  import opened CoroutineMachine
  import opened CoroutineHandles
  import opened CoroutineProofs
  import opened CoroutineOwnership
  import opened CoroutineAffinity
  import opened CoroutineMeaning

  predicate Inv(t: Task) {
    Shape(t) && HandlesOk(t.frames) && Owned(t) && Balanced(t) && Homely(t) && Leveled(t.frames)
  }

  /** The step did not fail, kept the invariant, and came nearer to the same destiny; or it failed, as destined. */
  predicate Good(t: Task, c: Config) {
    Shape(t) &&
    match c
    case Ok(t1) => Inv(t1) && Nearer(t, t1)
    case Crashed(why) => Destiny(t) == Doomed(why)
  }

  // ---------------------------------------------------------------- steps of a body that do not await

  /** The running top frame f has no variable left to destroy, and no result yet. */
  predicate Poised(t: Task, f: nat, th: Thread) {
    Inv(t) && t.ctl == Exec(f, th) && f < |t.frames| && t.frames[f].body.result == Nothing && |t.frames[f].vars| == t.frames[f].body.live
  }

  lemma {:induction false} TopFacts(t: Task, f: nat, th: Thread)
    requires Inv(t) && t.ctl == Exec(f, th)
    ensures t.stack != [] && f == Top(t) && f < |t.frames| && t.frames[f].status.Running? && t.frames[f].awaiter.NoAwait?
    ensures t.frames[f].taken && t.frames[f].body.live <= |t.frames[f].vars|
    ensures t.frames[f].body.result.Available() ==> t.frames[f].body.live == 0
    ensures Wrap(t, f, th).Some?
  {
    assert f < |t.frames| && FrameOwned(t, f) && LevelOk(t.frames[f]);
    assert ControlAtHome(t.frames, t.vias, t.trace, f, t.ctl);
    hide Spine, Owned, HandlesOk, Balanced, Leveled;
  }

  lemma {:induction false} BodyUpdateKeepsInv(t: Task, f: nat, th: Thread, body: Body)
    requires Inv(t) && t.ctl == Exec(f, th) && f < |t.frames|
    requires Nearer(t, WithFrame(t, f, t.frames[f].(body := body)))
    ensures Good(t, Ok(WithFrame(t, f, t.frames[f].(body := body))))
  {
    var t1 := WithFrame(t, f, t.frames[f].(body := body));
    TopFacts(t, f, th);
    assert OnlyTop(t.frames, t.vias, t1.frames, t1.vias, f);
    assert SamePlaces(t.frames, t1.frames) && TakesOnly(t.frames, t1.frames, -1) && SameHandles(t.frames, t1.frames);
    hide Shape, HandlesOk, Owned, Balanced, Homely, Leveled, Destiny, Measure;
    HandlesApart(t.frames, t1.frames);
    LocalKeepsOwned(t, f, th, body);
    hide OnlyTop, SamePlaces, TakesOnly;
    BodyMoveKeepsBalance(t, t1, f, th);
    BodyMoveKeepsHomes(t, t1, f, th);
  }

  lemma {:induction false} LocalKeepsInv(t: Task, f: nat, th: Thread)
    requires Poised(t, f, th) && IsLocal(t.frames[f].body.code)
    ensures Good(t, Ok(WithFrame(t, f, t.frames[f].(body := LocalStep(t.frames[f].body)))))
  {
    hide Shape, HandlesOk, Owned, Balanced, Homely, Leveled, LocalStep, Nearer, Good;
    LocalNears(t, f, th);
    BodyUpdateKeepsInv(t, f, th, LocalStep(t.frames[f].body));
  }

  lemma {:induction false} MakeKeepsInv(t: Task, f: nat, th: Thread)
    requires Poised(t, f, th) && t.frames[f].body.code.Make?
    ensures Good(t, Ok(MakeStep(t, f)))
  {
    var t1 := MakeStep(t, f);
    TopFacts(t, f, th);
    assert OnlyTop(t.frames, t.vias, t1.frames, t1.vias, f);
    assert SamePlaces(t.frames, t1.frames) && TakesOnly(t.frames, t1.frames, -1);
    hide Shape, HandlesOk, Owned, Balanced, Homely, Leveled, Destiny, Measure;
    MakeNears(t, f, th);
    MakeKeepsHandles(t, f);
    MakeKeepsOwned(t, f, th);
    hide OnlyTop, SamePlaces, TakesOnly;
    BodyMoveKeepsBalance(t, t1, f, th);
    BodyMoveKeepsHomes(t, t1, f, th);
  }

  /** A frame that was not taken has been nowhere, so what becomes of it is nothing to the others. */
  lemma {:induction false} UntakenPlaces(frames: seq<Frame>, frames1: seq<Frame>, p: nat, c: nat)
    requires p < |frames| == |frames1| && c < |frames| && !frames[c].taken && !frames1[c].taken
    requires forall g :: 0 <= g < |frames| && g != p && g != c ==> frames1[g] == frames[g]
    requires frames1[p].taken == frames[p].taken && frames1[p].strand == frames[p].strand && frames1[p].executor == frames[p].executor
    ensures SamePlaces(frames, frames1) && TakesOnly(frames, frames1, -1)
  {
  }

  lemma {:induction false} DropPlaces(t: Task, f: nat, th: Thread)
    requires Inv(t) && t.ctl == Exec(f, th) && f < |t.frames| && t.frames[f].vars != [] && DropStep(t, f).Ok?
    ensures SamePlaces(t.frames, DropStep(t, f).t.frames) && TakesOnly(t.frames, DropStep(t, f).t.frames, -1)
    ensures DropStep(t, f).t.frames[f].strand == t.frames[f].strand && DropStep(t, f).t.frames[f].status == t.frames[f].status
  {
    hide Shape, Owned, Balanced, Homely, Leveled;
    var n := |t.frames[f].vars| - 1;
    if t.frames[f].vars[n].coro.Some? {
      VarHolds(t.frames, f, n);
      UntakenPlaces(t.frames, DropStep(t, f).t.frames, f, t.frames[f].vars[n].coro.value);
    }
  }

  lemma {:induction false} DropKeepsInv(t: Task, f: nat, th: Thread)
    requires Inv(t) && t.ctl == Exec(f, th) && f < |t.frames| && |t.frames[f].vars| > t.frames[f].body.live
    ensures Good(t, DropStep(t, f))
  {
    TopFacts(t, f, th);
    DropAtTop(t, f, th);
    DropPlaces(t, f, th);
    hide Shape, HandlesOk, Owned, Balanced, Homely, Leveled, DropStep, OnlyTop, SamePlaces, TakesOnly, Destiny, Measure;
    DropNears(t, f, th);
    DropKeepsHandles(t, f);
    DropKeepsOwned(t, f, th);
    BodyMoveKeepsBalance(t, DropStep(t, f).t, f, th);
    DropTrace(t, f);
    BodyMoveKeepsHomes(t, DropStep(t, f).t, f, th);
  }

  lemma {:induction false} DropTrace(t: Task, f: nat)
    requires f < |t.frames| && t.frames[f].vars != [] && DropStep(t, f).Ok?
    ensures var t1 := DropStep(t, f).t;
      t1.trace == t.trace && t1.checkouts == t.checkouts && t1.checkins == t.checkins && t1.vias == t.vias
  {
  }

  lemma {:induction false} MovedPlaces(t: Task, f: nat, th: Thread, i: nat, v: Local)
    requires Poised(t, f, th) && Moving(t, f, th, i) && v.coro == t.frames[f].vars[i].coro
    ensures SamePlaces(t.frames, Moved(t, f, i, v).frames) && TakesOnly(t.frames, Moved(t, f, i, v).frames, -1)
    ensures var t1 := Moved(t, f, i, v);
      t1.trace == t.trace && t1.checkouts == t.checkouts && t1.checkins == t.checkins && t1.vias == t.vias
  {
    hide Shape, Owned, Balanced, Homely, Leveled;
    if v.coro.Some? {
      VarHolds(t.frames, f, i);
      UntakenPlaces(t.frames, Moved(t, f, i, v).frames, f, v.coro.value);
    }
  }

  lemma {:induction false} MovedKeepsInv(t: Task, f: nat, th: Thread, i: nat, v: Local)
    requires Poised(t, f, th) && Moving(t, f, th, i) && v.coro == t.frames[f].vars[i].coro && Nearer(t, Moved(t, f, i, v))
    requires v == t.frames[f].vars[i] || (!t.frames[f].vars[i].resched && v.resched && v.what == t.frames[f].vars[i].what.(ex := v.what.ex))
    ensures Good(t, Ok(Moved(t, f, i, v)))
  {
    TopFacts(t, f, th);
    MovedAtTop(t, f, th, i, v);
    MovedPlaces(t, f, th, i, v);
    hide Shape, HandlesOk, Owned, Balanced, Homely, Leveled, Moved, OnlyTop, SamePlaces, TakesOnly, Destiny, Measure;
    MovedKeepsHandles(t, f, i, v);
    MovedKeepsOwned(t, f, th, i, v);
    BodyMoveKeepsBalance(t, Moved(t, f, i, v), f, th);
    BodyMoveKeepsHomes(t, Moved(t, f, i, v), f, th);
  }

  lemma {:induction false} FailedStep(t: Task, f: nat, th: Thread, why: Fault)
    requires Poised(t, f, th)
    requires Eval(t.frames[f].body.code, t.frames[f].body.env, Vals(t.frames[f].vars), t.frames[f].executor).flow == Fails(why)
    ensures Good(t, Crashed(why))
  {
    hide HandlesOk, Owned, Balanced, Homely, Leveled, Destiny, Eval;
    FailsAsDestined(t, f, th, why);
  }

  lemma {:induction false} MoveStepKeepsInv(t: Task, f: nat, th: Thread)
    requires Poised(t, f, th) && t.frames[f].body.code.Move?
    ensures Good(t, MoveStep(t, f))
  {
    var fr, i := t.frames[f], t.frames[f].body.code.i;
    if i >= |fr.vars| {
      hide Good, Poised;
      FailedStep(t, f, th, NoVariable);
    } else {
      assert Moving(t, f, th, i);
      hide Shape, HandlesOk, Owned, Balanced, Homely, Leveled, Nearer, Good, Moved, Moving;
      MoveStepNears(t, f, th);
      MovedKeepsInv(t, f, th, i, fr.vars[i]);
    }
  }

  lemma {:induction false} RescheduleStepKeepsInv(t: Task, f: nat, th: Thread)
    requires Poised(t, f, th) && t.frames[f].body.code.Via?
    ensures Good(t, RescheduleStep(t, f))
  {
    var fr, i := t.frames[f], t.frames[f].body.code.i;
    if i >= |fr.vars| {
      hide Good, Poised;
      FailedStep(t, f, th, NoVariable);
    } else if fr.vars[i].resched {
      hide Good, Poised;
      FailedStep(t, f, th, NotLazy);
    } else {
      assert Moving(t, f, th, i);
      hide Shape, HandlesOk, Owned, Balanced, Homely, Leveled, Nearer, Good, Moved, Moving;
      RescheduleStepNears(t, f, th);
      if fr.vars[i].coro.None? {
        BodyUpdateKeepsInv(t, f, th, Raise(fr.body, LogicError));
      } else {
        MovedKeepsInv(t, f, th, i, Local(true, fr.vars[i].coro, fr.vars[i].what.(ex := fr.body.code.ex)));
      }
    }
  }

  // ---------------------------------------------------------------- awaiting a handle

  /** The child leaves the variable, whichever way it is entered. */
  lemma {:induction false} AwaitKeepsHandles(t: Task, frames1: seq<Frame>, f: nat, th: Thread, i: nat, c: nat, a: Awaiter)
    requires HandlesOk(t.frames) && Awaits(t, f, th, i, c) && |frames1| == |t.frames| && t.frames[f].status.Running?
    requires frames1[f] == Parent(t.frames[f], i, a) && frames1[c].vars == [] && !frames1[c].status.Created?
    requires forall g :: 0 <= g < |t.frames| && g != f && g != c ==> frames1[g] == t.frames[g]
    ensures HandlesOk(frames1)
  {
    hide HandlesOk;
    TakeKeepsHandles(t.frames, frames1, f, i, c);
  }

  lemma {:induction false} AwaitChildKeepsInv(t: Task, f: nat, th: Thread, i: nat, c: nat)
    requires Poised(t, f, th) && AwaitsNow(t, f, th, i, c) && !t.frames[f].vars[i].resched && t.frames[f].body.code.what.ValueOf?
    ensures Good(t, Ok(AwaitChild(t, f, th, i, c)))
  {
    TopFacts(t, f, th);
    hide Shape, HandlesOk, Owned, Balanced, Homely, Leveled, Destiny, Measure;
    AwaitKeepsHandles(t, AwaitChild(t, f, th, i, c).frames, f, th, i, c, ForChild(c));
    hide AwaitChild;
    AwaitChildNears(t, f, th, i, c);
    AwaitChildKeepsOwned(t, f, th, i, c);
    AwaitChildKeepsBalance(t, f, th, i, c);
    AwaitChildKeepsHomes(t, f, th, i, c);
  }

  lemma {:induction false} AwaitTryKeepsInv(t: Task, f: nat, th: Thread, i: nat, c: nat)
    requires Poised(t, f, th) && AwaitsNow(t, f, th, i, c) && !t.frames[f].vars[i].resched && t.frames[f].body.code.what.TryOf?
    requires Wrap(t, f, th).Some?
    ensures Good(t, Ok(AwaitTry(t, f, th, i, c, Wrap(t, f, th).value)))
  {
    TopFacts(t, f, th);
    hide Shape, HandlesOk, Owned, Balanced, Homely, Leveled, Destiny, Measure, Wrap;
    AwaitKeepsHandles(t, AwaitTry(t, f, th, i, c, Wrap(t, f, th).value).frames, f, th, i, c, ForChildVia(c, |t.vias|, true));
    hide AwaitTry;
    AwaitTryNears(t, f, th, i, c);
    AwaitTryKeepsOwned(t, f, th, i, c);
    AwaitTryKeepsBalance(t, f, th, i, c);
    AwaitTryKeepsHomes(t, f, th, i, c);
  }

  lemma {:induction false} AwaitRescheduleKeepsInv(t: Task, f: nat, th: Thread, i: nat, c: nat, accepted: bool)
    requires Poised(t, f, th) && AwaitsNow(t, f, th, i, c) && t.frames[f].vars[i].resched && t.frames[c].executor.Some?
    requires Wrap(t, f, th).Some?
    ensures Good(t, AwaitReschedule(t, f, i, c, Wrap(t, f, th).value, t.frames[f].body.code.what.TryOf?, accepted))
  {
    var asTry := t.frames[f].body.code.what.TryOf?;
    TopFacts(t, f, th);
    hide HandlesOk, Owned, Balanced, Homely, Leveled, Destiny, Measure, Wrap, AwaitReschedule;
    AwaitRescheduleIs(t, f, th, i, c, asTry, accepted);
    hide Shape;
    var t1 := AwaitReschedule(t, f, i, c, Wrap(t, f, th).value, asTry, accepted).t;
    AwaitKeepsHandles(t, t1.frames, f, th, i, c, ForChildVia(c, |t.vias|, asTry));
    AwaitRescheduleNears(t, f, th, i, c, accepted);
    AwaitRescheduleKeepsOwned(t, f, th, i, c, asTry, accepted);
    AwaitRescheduleKeepsBalance(t, f, th, i, c, asTry, accepted);
    AwaitRescheduleKeepsHomes(t, f, th, i, c, asTry, accepted);
  }

  lemma {:induction false} AwaitFails(t: Task, f: nat, th: Thread, why: Fault)
    requires Poised(t, f, th) && t.frames[f].body.code.Await?
    requires AwaitFate(t.frames[f].body.code.what, t.frames[f].body.env, Vals(t.frames[f].vars), t.frames[f].executor) == Doomed(why)
    ensures Good(t, Crashed(why))
  {
    hide Good, Poised, AwaitFate;
    FailedStep(t, f, th, why);
  }

  /** The coroutine that variable i of the awaiting frame refers to. */
  lemma {:induction false} AwaitsIt(t: Task, f: nat, th: Thread, i: nat)
    requires Poised(t, f, th) && t.frames[f].body.code.Await? && i < |t.frames[f].vars| && t.frames[f].vars[i].coro.Some?
    requires t.frames[f].body.code.what == (if t.frames[f].body.code.what.TryOf? then TryOf(i) else ValueOf(i))
    ensures AwaitsNow(t, f, th, i, t.frames[f].vars[i].coro.value)
    ensures t.frames[t.frames[f].vars[i].coro.value].executor == t.frames[f].vars[i].what.ex
    ensures Wrap(t, f, th).Some?
  {
    TopFacts(t, f, th);
    VarHolds(t.frames, f, i);
    hide Shape, HandlesOk, Owned, Balanced, Homely, Leveled;
  }

  lemma {:induction false} AwaitHandleKeepsInv(t: Task, f: nat, th: Thread, i: nat, accepted: bool)
    requires Poised(t, f, th) && t.frames[f].body.code.Await?
    requires t.frames[f].body.code.what == (if t.frames[f].body.code.what.TryOf? then TryOf(i) else ValueOf(i))
    ensures Good(t, AwaitHandle(t, f, th, i, t.frames[f].body.code.what.TryOf?, accepted))
  {
    var fr := t.frames[f];
    var asTry := fr.body.code.what.TryOf?;
    if i >= |fr.vars| {
      hide Good, Poised;
      AwaitFails(t, f, th, NoVariable);
    } else if fr.vars[i].coro.None? {
      hide Good, Poised;
      AwaitFails(t, f, th, NullHandle);
    } else {
      var c := fr.vars[i].coro.value;
      AwaitsIt(t, f, th, i);
      assert c < |t.frames|;
      hide Good, Poised, AwaitsNow, AwaitChild, AwaitTry, Wrap;
      if fr.vars[i].resched && fr.vars[i].what.ex.None? {
        assert AwaitReschedule(t, f, i, c, Wrap(t, f, th).value, asTry, accepted) == Crashed(NullExecutor) by { ReschedulesNowhere(t, f, th, i, c, asTry, accepted); }
        AwaitFails(t, f, th, NullExecutor);
      } else if fr.vars[i].resched {
        hide AwaitReschedule;
        AwaitRescheduleKeepsInv(t, f, th, i, c, accepted);
      } else if asTry {
        AwaitTryKeepsInv(t, f, th, i, c);
      } else {
        AwaitChildKeepsInv(t, f, th, i, c);
      }
    }
  }

  lemma {:induction false} ReschedulesNowhere(t: Task, f: nat, th: Thread, i: nat, c: nat, asTry: bool, accepted: bool)
    requires AwaitsNow(t, f, th, i, c) && t.frames[c].executor.None? && Wrap(t, f, th).Some?
    ensures AwaitReschedule(t, f, i, c, Wrap(t, f, th).value, asTry, accepted) == Crashed(NullExecutor)
  {
  }

  // ---------------------------------------------------------------- awaiting anything else

  lemma {:induction false} AwaitForeignKeepsInv(t: Task, f: nat, th: Thread, path: Path)
    requires Poised(t, f, th) && t.frames[f].body.code.Await? && t.frames[f].body.code.what.Foreign?
    ensures var what := t.frames[f].body.code.what;
      Good(t, AwaitForeign(t, f, th, ForeignResult(what.x, what.fails, t.frames[f].body.env), path))
  {
    var r := ForeignResult(t.frames[f].body.code.what.x, t.frames[f].body.code.what.fails, t.frames[f].body.env);
    TopFacts(t, f, th);
    assert AwaitForeign(t, f, th, r, path).Ok? && SameHandles(t.frames, AwaitForeign(t, f, th, r, path).t.frames);
    hide Shape, HandlesOk, Owned, Balanced, Homely, Leveled, Destiny, Measure, AwaitForeign, SameHandles, Wrap, ForeignResult;
    HandlesApart(t.frames, AwaitForeign(t, f, th, r, path).t.frames);
    AwaitForeignNears(t, f, th, path);
    AwaitForeignKeepsOwned(t, f, th, r, path);
    AwaitForeignKeepsBalance(t, f, th, r, path);
    AwaitForeignKeepsHomes(t, f, th, r, path);
  }

  lemma {:induction false} AwaitYieldKeepsInv(t: Task, f: nat, th: Thread, accepted: bool)
    requires Poised(t, f, th) && t.frames[f].body.code.Await? && t.frames[f].body.code.what.Yield?
    ensures Good(t, AwaitYield(t, f, accepted))
  {
    if t.frames[f].executor.None? {
      hide Good, Poised;
      AwaitFails(t, f, th, NullExecutor);
    } else {
      TopFacts(t, f, th);
      assert SameHandles(t.frames, AwaitYield(t, f, accepted).t.frames);
      hide Shape, HandlesOk, Owned, Balanced, Homely, Leveled, Destiny, Measure, AwaitYield, SameHandles;
      AwaitYieldNears(t, f, th, accepted);
      HandlesApart(t.frames, AwaitYield(t, f, accepted).t.frames);
      AwaitYieldKeepsOwned(t, f, th, accepted);
      AwaitYieldKeepsBalance(t, f, th, accepted);
      AwaitYieldKeepsHomes(t, f, th, accepted);
    }
  }

  lemma {:induction false} AwaitStepKeepsInv(t: Task, f: nat, th: Thread, path: Path, accepted: bool)
    requires Poised(t, f, th) && t.frames[f].body.code.Await?
    ensures Good(t, AwaitStep(t, f, th, path, accepted))
  {
    var fr := t.frames[f];
    match fr.body.code.what
    case ValueOf(i) => hide Good, Poised, AwaitHandle; AwaitHandleKeepsInv(t, f, th, i, accepted);
    case TryOf(i) => hide Good, Poised, AwaitHandle; AwaitHandleKeepsInv(t, f, th, i, accepted);
    case Foreign(_, _) => hide Good, Poised, AwaitForeign; AwaitForeignKeepsInv(t, f, th, path);
    case Yield => hide Good, Poised, AwaitYield; AwaitYieldKeepsInv(t, f, th, accepted);
    case Current =>
      hide Shape, HandlesOk, Owned, Balanced, Homely, Leveled, Deliver, Nearer, Good;
      CurrentNears(t, f, th);
      BodyUpdateKeepsInv(t, f, th, Deliver(Advanced(fr).body, false, Value(Encode(fr.executor))));
  }

  // ---------------------------------------------------------------- one step

  lemma {:induction false} FinalSuspendSame(t: Task, f: nat, th: Thread)
    requires f < |t.frames| && t.stack != [] && t.frames[f].status.Running? && FinalSuspend(t, f, th).Ok?
    ensures SameHandles(t.frames, FinalSuspend(t, f, th).t.frames)
  {
  }

  lemma {:induction false} FinalSuspendKeepsInv(t: Task, f: nat, th: Thread)
    requires Inv(t) && t.ctl == Exec(f, th) && f < |t.frames| && t.frames[f].body.result.Available() && t.frames[f].vars == []
    ensures Good(t, FinalSuspend(t, f, th))
  {
    TopFacts(t, f, th);
    hide Shape, HandlesOk, Owned, Balanced, Homely, Leveled, Destiny, Measure, FinalSuspend, SameHandles;
    FinalSuspendNears(t, f, th);
    FinalSuspendSame(t, f, th);
    HandlesApart(t.frames, FinalSuspend(t, f, th).t.frames);
    FinalSuspendKeepsOwned(t, f, th);
    FinalSuspendKeepsBalance(t, f, th);
    FinalSuspendKeepsHomes(t, f, th);
  }

  lemma {:induction false} BodyStepKeepsInv(t: Task, f: nat, th: Thread, path: Path, accepted: bool)
    requires Inv(t) && t.ctl == Exec(f, th) && f < |t.frames| && t.stack != []
    ensures Good(t, BodyStep(t, f, th, path, accepted))
  {
    TopFacts(t, f, th);
    var fr := t.frames[f];
    hide Inv, Good;
    if |fr.vars| > fr.body.live {
      DropKeepsInv(t, f, th);
    } else if fr.body.result.Available() {
      FinalSuspendKeepsInv(t, f, th);
    } else {
      hide DropStep, FinalSuspend, LocalStep, MakeStep, MoveStep, RescheduleStep, AwaitStep;
      assert Poised(t, f, th);
      hide Poised;
      if IsLocal(fr.body.code) {
        LocalKeepsInv(t, f, th);
      } else if fr.body.code.Make? {
        MakeKeepsInv(t, f, th);
      } else if fr.body.code.Move? {
        MoveStepKeepsInv(t, f, th);
      } else if fr.body.code.Via? {
        RescheduleStepKeepsInv(t, f, th);
      } else {
        AwaitStepKeepsInv(t, f, th, path, accepted);
      }
    }
  }

  lemma {:induction false} AwaitResumeKeepsInv(t: Task, f: nat, th: Thread)
    requires Inv(t) && t.ctl == Resuming(f, th) && f < |t.frames|
    ensures Good(t, AwaitResume(t, f, th))
  {
    assert t.frames[f].status.Running?;
    hide HandlesOk, Owned, Balanced, Homely, Leveled, Destiny, Measure;
    AwaitResumeNears(t, f, th);
    AwaitResumeDelivers(t, f, th);
    AwaitResumeSpares(t, f, th);
    AwaitResumeSame(t, f, th);
    hide Shape, AwaitResume;
    HandlesApart(t.frames, AwaitResume(t, f, th).t.frames);
    AwaitResumeKeepsOwned(t, f, th);
    AwaitResumeKeepsBalance(t, f, th);
    AwaitResumeKeepsHomes(t, f, th);
  }

  lemma {:induction false} AwaitResumeSame(t: Task, f: nat, th: Thread)
    requires Shape(t) && t.ctl == Resuming(f, th) && f < |t.frames| && AwaitResume(t, f, th).Ok?
    ensures SameHandles(t.frames, AwaitResume(t, f, th).t.frames)
  {
    AwaitResumeDelivers(t, f, th);
    AwaitResumeSpares(t, f, th);
    assert Served(t.frames, t.vias, f) && t.frames[f].status.Running?;
    hide Spine, AwaitResume, Deliver, OnlyTop;
  }

  lemma {:induction false} ViaStepKeepsInv(t: Task, v: nat, th: Thread, accepted: bool)
    requires Inv(t) && t.ctl == ExecVia(v, th) && v < |t.vias|
    ensures Good(t, ViaStep(t, v, th, accepted))
  {
    hide HandlesOk, Owned, Balanced, Homely, Leveled, Destiny, Measure;
    ViaStepNears(t, v, th, accepted);
    assert SameHandles(t.frames, ViaStep(t, v, th, accepted).t.frames);
    hide Shape, ViaStep, SameHandles;
    HandlesApart(t.frames, ViaStep(t, v, th, accepted).t.frames);
    ViaStepKeepsOwned(t, v, th, accepted);
    ViaStepKeepsBalance(t, v, th, accepted);
    ViaStepKeepsHomes(t, v, th, accepted);
  }

  lemma {:induction false} PickKeepsInv(t: Task, f: nat, e: nat, pin: Option<nat>, i: nat)
    requires Inv(t) && t.ctl == Queued(f, e, pin) && (pin.Some? ==> pin.value == i)
    ensures Good(t, Resume(t, f, Worker(e, i)))
  {
    hide HandlesOk, Owned, Balanced, Homely, Leveled, Destiny, Measure;
    PickNears(t, f, e, pin, i);
    assert SameHandles(t.frames, Resume(t, f, Worker(e, i)).t.frames);
    hide Shape, Resume, SameHandles;
    HandlesApart(t.frames, Resume(t, f, Worker(e, i)).t.frames);
    PickKeepsOwned(t, f, e, pin, i);
    PickKeepsBalance(t, f, e, pin, i);
    PickKeepsHomes(t, f, e, pin, i);
  }

  lemma {:induction false} FireKeepsInv(t: Task, v: nat, th: Thread)
    requires Inv(t) && t.ctl == Waiting(v)
    ensures Good(t, Ok(t.(ctl := ExecVia(v, th))))
  {
    assert t.stack != [];
    hide HandlesOk, Owned, Homely, Leveled, Destiny, Measure;
    FireNears(t, v, th);
    ControlKeepsOwned(t, t.(ctl := ExecVia(v, th)));
    FireKeepsHomes(t, v, th);
  }

  lemma {:induction false} RootStepKeepsHomes(t: Task, th: Thread)
    requires Shape(t) && Homely(t) && t.ctl == AtRoot(th) && RootStep(t).Ok?
    ensures Homely(RootStep(t).t)
  {
    var t1 := RootStep(t).t;
    StrandsKept(t.frames, t1.frames);
    TraceKept(t.frames, t1.frames, t.trace);
  }

  lemma {:induction false} RootStepKeepsInv(t: Task, th: Thread)
    requires Inv(t) && t.ctl == AtRoot(th)
    ensures Good(t, RootStep(t))
  {
    hide HandlesOk, Owned, Balanced, Homely, Leveled, Destiny, Measure;
    RootStepNears(t, th);
    assert SameHandles(t.frames, RootStep(t).t.frames);
    hide Shape, RootStep, SameHandles;
    HandlesApart(t.frames, RootStep(t).t.frames);
    RootStepKeepsOwned(t, th);
    RootStepKeepsBalance(t, th);
    RootStepKeepsHomes(t, th);
  }

  lemma {:induction false} StartKeepsInv(t: Task, th: Thread, accepted: bool)
    requires Inv(t) && t.ctl == Starting(th) && |t.frames| > 0
    ensures Good(t, StartStep(t, accepted))
  {
    hide HandlesOk, Owned, Homely, Destiny, Measure;
    StartNears(t, th, accepted);
    if StartStep(t, accepted).Ok? {
      ControlKeepsOwned(t, StartStep(t, accepted).t);
      StartKeepsHomes(t, th, accepted);
    }
  }

  /** Every step a task can take keeps the invariant and brings it nearer to the same destiny, and fails only where that is
      its destiny. */
  lemma {:induction false} StepKeepsInv(t: Task, a: Action)
    requires Inv(t) && Enabled(t, a)
    ensures Good(t, Next(t, a))
  {
    hide Inv, Good, BodyStep, AwaitResume, ViaStep, RootStep, Resume, StartStep;
    match t.ctl
    case Starting(th) => StartKeepsInv(t, th, a.accepted);
    case Exec(f, th) => BodyStepKeepsInv(t, f, th, a.path, a.accepted);
    case Resuming(f, th) => AwaitResumeKeepsInv(t, f, th);
    case ExecVia(v, th) => ViaStepKeepsInv(t, v, th, a.accepted);
    case Queued(f, e, pin) => PickKeepsInv(t, f, e, pin, a.i);
    case Waiting(v) => FireKeepsInv(t, v, a.th);
    case AtRoot(th) => RootStepKeepsInv(t, th);
  }

  // ---------------------------------------------------------------- every run

  /** What `Start` on this handle comes to by direct evaluation. */
  function StartFate(prog: Code, entry: Entry): Fate {
    match entry
    case AsLazy => FateOf(Eval(prog, [], [], None).flow)
    case AsReschedule(None) => Doomed(NullExecutor)
    case AsReschedule(ex) => FateOf(Eval(prog, [], [], ex).flow)
  }

  lemma {:induction false} InitialInv(prog: Code, entry: Entry, th: Thread)
    ensures Inv(Initial(prog, entry, th))
    ensures Destiny(Initial(prog, entry, th)) == StartFate(prog, entry)
  {
    var t := Initial(prog, entry, th);
    assert StrandOk(t.frames, 0);
    assert FrameOwned(t, 0);
    assert FrameVarsOk(t.frames, 0) && HolderOk(t.frames, 0);
    assert Pop(t.stack) == [];
    assert Outstanding(t.frames, t.vias, []) == 0 && OutAt(t.frames, t.vias, 0) == 0;
    var none: seq<Val> := [];
    assert Vals([]) == none && Take(none, 0) == none;
  }

  lemma {:induction false} RunKeepsInv(t: Task, acts: seq<Action>, c: Config)
    requires Inv(t) && Runs(t, acts, c)
    ensures Shape(t)
    ensures c.Ok? ==> Inv(c.t) && Destiny(c.t) == Destiny(t) && Measure(c.t) + |acts| <= Measure(t)
    ensures c.Crashed? ==> Destiny(t) == Doomed(c.why) && |acts| <= Measure(t) + 1
    decreases |acts|
  {
    hide Shape, HandlesOk, Owned, Balanced, Homely, Leveled, Next, Enabled, Measure, Destiny;
    if acts != [] {
      StepKeepsInv(t, acts[0]);
      if Next(t, acts[0]).Ok? {
        RunKeepsInv(Next(t, acts[0]).t, acts[1..], c);
      }
    }
  }

  ghost predicate Complete(c: Config) {
    c.Ok? ==> forall a :: !Enabled(c.t, a)
  }

  /** A run fails only if direct evaluation does, and in the same way: a Yield or a RescheduleLazy under a null executor, or an
      await through a moved-from handle. No frame is ever resumed unless suspended, destroyed twice, read without a result or
      checked in with a null context. The run is no longer than the program allows. */
  lemma {:induction false} NeverCrashes(prog: Code, entry: Entry, th: Thread, acts: seq<Action>, c: Config)
    requires Runs(Initial(prog, entry, th), acts, c)
    ensures c.Crashed? ==> StartFate(prog, entry) == Doomed(c.why)
    ensures |acts| <= Measure(Initial(prog, entry, th)) + 1
  {
    InitialInv(prog, entry, th);
    hide Inv, Measure, Runs;
    RunKeepsInv(Initial(prog, entry, th), acts, c);
  }

  lemma {:induction false} StuckControl(t: Task, th: Thread)
    requires Inv(t)
    ensures (forall a :: !Enabled(t, a)) <==> t.ctl.Over? || t.ctl.Dropped?
    ensures t.refusals == if t.ctl.Dropped? then 1 else 0
    ensures t.ctl.Over? <==> t.results != []
  {
    assert |t.frames| > 0 && (t.stack != [] ==> Top(t) < |t.frames|);
    hide Spine, HandlesOk, Owned, Balanced, Homely, Leveled;
    if !t.ctl.Over? && !t.ctl.Dropped? {
      var a := match t.ctl
        case Queued(_, _, pin) => Pick(if pin.Some? then pin.value else 0)
        case Waiting(_) => Fire(th)
        case _ => Proceed(Path.Ready, true);
      assert Enabled(t, a);
    }
  }

  /** The machine computes what direct evaluation computes. A run that cannot go on has either failed as evaluation does, or handed the Try
      of evaluation to the callback of Start, exactly once, or called nobody; and it has called the callback if and only if no
      Schedule and no Checkin that was to resume a coroutine was answered false. */
  lemma {:induction false} ComputesEval(prog: Code, entry: Entry, th: Thread, acts: seq<Action>, c: Config)
    requires Runs(Initial(prog, entry, th), acts, c)
    ensures c.Ok? ==> c.t.results == [] || (StartFate(prog, entry).Gives? && c.t.results == [StartFate(prog, entry).t])
    ensures c.Ok? && Complete(c) ==> (c.t.results != [] <==> c.t.refusals == 0)
    ensures c.Ok? && Complete(c) && c.t.refusals == 0 ==> c.t.ctl.Over? && StartFate(prog, entry) == Gives(c.t.results[0])
  {
    InitialInv(prog, entry, th);
    hide Runs;
    RunKeepsInv(Initial(prog, entry, th), acts, c);
    if c.Ok? {
      StuckControl(c.t, th);
      OverFacts(c.t);
    }
  }

  lemma {:induction false} OverFacts(t: Task)
    requires Inv(t)
    ensures t.results != [] ==> |t.results| == 1 && Destiny(t) == Gives(t.results[0])
  {
    hide Spine, HandlesOk, Owned, Balanced, Homely, Leveled;
  }

  /** A Yield, or any other failure, is met if and only if evaluation meets it: when no job is refused, a run that cannot go on
      has failed exactly if evaluation fails. */
  lemma {:induction false} CrashesExactly(prog: Code, entry: Entry, th: Thread, acts: seq<Action>, c: Config)
    requires Runs(Initial(prog, entry, th), acts, c) && Complete(c) && (c.Ok? ==> c.t.refusals == 0)
    ensures c.Crashed? <==> StartFate(prog, entry).Doomed?
    ensures c.Crashed? ==> StartFate(prog, entry) == Doomed(c.why)
  {
    NeverCrashes(prog, entry, th, acts, c);
    ComputesEval(prog, entry, th, acts, c);
  }

  /** Exactly until the callback has been called or a job was refused, there is a step to take: with the bound of NeverCrashes,
      every run can be, and after finitely many steps has been, completed. */
  lemma {:induction false} AlwaysCanContinue(prog: Code, entry: Entry, th: Thread, acts: seq<Action>, c: Config)
    requires Runs(Initial(prog, entry, th), acts, c)
    ensures c.Ok? ==> (Complete(c) <==> c.t.ctl.Over? || c.t.refusals > 0)
  {
    InitialInv(prog, entry, th);
    hide Runs;
    RunKeepsInv(Initial(prog, entry, th), acts, c);
    if c.Ok? { StuckControl(c.t, th); }
  }

  // ---------------------------------------------------------------- ownership

  /** Who may refer to a coroutine: the detached coroutine of Start to the root, the awaiter of a suspended coroutine to the
      child, a local variable to one that was not started. */
  datatype Owner = ByStart | ByAwaiter(p: nat) | ByVariable(p: nat, i: nat)

  predicate Owns(t: Task, o: Owner, f: nat) {
    match o
    case ByStart => f == 0 && !t.ctl.Over?
    case ByAwaiter(p) => p < |t.frames| && ChildOf(t.frames[p].awaiter) == Some(f)
    case ByVariable(p, i) => p < |t.frames| && i < |t.frames[p].vars| && t.frames[p].vars[i].coro == Some(f)
  }

  predicate LiveFrame(fr: Frame) {
    !fr.status.Destroyed? && !fr.status.Leaked?
  }

  lemma {:induction false} StackLinks(t: Task, k: nat)
    requires Shape(t) && k < |t.stack|
    ensures t.stack[k] < |t.frames| && t.frames[t.stack[k]].destroyed == 0
    ensures !t.frames[t.stack[k]].status.Created? && LiveFrame(t.frames[t.stack[k]]) && !t.frames[t.stack[k]].status.AtFinal?
    ensures k > 0 ==> ChildOf(t.frames[t.stack[k - 1]].awaiter) == Some(t.stack[k])
    ensures k == 0 <==> t.stack[k] == 0
  {
    assert k < |t.stack| - 1 ==> Link(t.frames, t.vias, t.stack[k], t.stack[k + 1]);
    assert k > 0 ==> Link(t.frames, t.vias, t.stack[k - 1], t.stack[k]) && t.stack[0] < t.stack[k];
  }

  predicate HoldsAt(t: Task, p: nat, k: nat) {
    && p < |t.frames| && ChildOf(t.frames[p].awaiter).Some? && k < |t.stack| && t.stack[k] == p
    && (if k < |t.stack| - 1 then ChildOf(t.frames[p].awaiter) == Some(t.stack[k + 1])
        else Done(t.frames, ChildOf(t.frames[p].awaiter).value))
  }

  /** Only frames of the stack hold anything, and what an awaiter holds comes next on the stack, or has finished. */
  lemma {:induction false} AwaiterHolds(t: Task, p: nat)
    requires Shape(t) && Owned(t) && p < |t.frames| && ChildOf(t.frames[p].awaiter).Some?
    ensures exists k: nat :: HoldsAt(t, p, k)
  {
    assert FrameOwned(t, p);
    var k :| 0 <= k < |t.stack| && t.stack[k] == p;
    if k < |t.stack| - 1 {
      StackLinks(t, k + 1);
    }
    assert HoldsAt(t, p, k);
  }

  lemma {:induction false} LiveIsOwned(t: Task, f: nat)
    requires Inv(t) && f < |t.frames| && LiveFrame(t.frames[f])
    ensures exists o :: Owns(t, o, f)
  {
    assert FrameOwned(t, f) && HolderOk(t.frames, f);
    if t.frames[f].status.Created? {
      assert Owns(t, ByVariable(t.frames[f].holder, t.frames[f].index), f);
    } else if f in t.stack {
      var k :| 0 <= k < |t.stack| && t.stack[k] == f;
      StackLinks(t, k);
      assert if k == 0 then Owns(t, ByStart, f) else Owns(t, ByAwaiter(t.stack[k - 1]), f);
    } else {
      assert if t.stack == [] then Owns(t, ByStart, f) else Owns(t, ByAwaiter(Top(t)), f);
    }
  }

  lemma {:induction false} OwnedIsLive(t: Task, o: Owner, f: nat)
    requires Inv(t) && Owns(t, o, f) && f < |t.frames|
    ensures LiveFrame(t.frames[f])
    ensures o.ByVariable? <==> t.frames[f].status.Created?
    ensures o.ByStart? ==> f == 0
  {
    match o
    case ByStart =>
      if t.stack != [] { StackLinks(t, 0); }
    case ByAwaiter(p) =>
      AwaiterHolds(t, p);
      var k: nat :| HoldsAt(t, p, k);
      if k < |t.stack| - 1 { StackLinks(t, k + 1); }
    case ByVariable(p, i) =>
      VarHolds(t.frames, p, i);
  }

  /** Every live coroutine has exactly one owner, and nobody owns one that is not live. */
  lemma {:induction false} OneOwner(prog: Code, entry: Entry, th: Thread, acts: seq<Action>, c: Config, f: nat)
    requires Runs(Initial(prog, entry, th), acts, c) && c.Ok? && f < |c.t.frames|
    ensures LiveFrame(c.t.frames[f]) <==> exists o :: Owns(c.t, o, f)
    ensures forall o1, o2 :: Owns(c.t, o1, f) && Owns(c.t, o2, f) ==> o1 == o2
  {
    InitialInv(prog, entry, th);
    hide Runs;
    RunKeepsInv(Initial(prog, entry, th), acts, c);
    hide Inv;
    if LiveFrame(c.t.frames[f]) { LiveIsOwned(c.t, f); }
    forall o | Owns(c.t, o, f)
      ensures LiveFrame(c.t.frames[f])
    {
      OwnedIsLive(c.t, o, f);
    }
    forall o1, o2 | Owns(c.t, o1, f) && Owns(c.t, o2, f)
      ensures o1 == o2
    {
      OwnersAgree(c.t, o1, o2, f);
    }
  }

  lemma {:induction false} OwnersAgree(t: Task, o1: Owner, o2: Owner, f: nat)
    requires Inv(t) && f < |t.frames| && Owns(t, o1, f) && Owns(t, o2, f)
    ensures o1 == o2
  {
    OwnedIsLive(t, o1, f);
    OwnedIsLive(t, o2, f);
    hide Spine, Balanced, Homely, Leveled;
    if o1.ByVariable? {
      OneHolder(t.frames, o1.p, o1.i, o2.p, o2.i);
    } else if o1.ByAwaiter? && o2.ByAwaiter? {
      AwaitersAgree(t, o1.p, o2.p, f);
    } else if o1.ByAwaiter? {
      AwaiterNotRoot(t, o1.p, f);
    } else if o2.ByAwaiter? {
      AwaiterNotRoot(t, o2.p, f);
    }
  }

  lemma {:induction false} AwaiterNotRoot(t: Task, p: nat, f: nat)
    requires Inv(t) && Owns(t, ByAwaiter(p), f)
    ensures f != 0
  {
    AwaiterHolds(t, p);
    var k: nat :| HoldsAt(t, p, k);
    if k < |t.stack| - 1 { StackLinks(t, k + 1); } else { TopAwaits(t); }
  }

  /** The top frame awaits a later one. */
  lemma {:induction false} TopAwaits(t: Task)
    requires Shape(t) && t.stack != [] && Top(t) < |t.frames| && ChildOf(t.frames[Top(t)].awaiter).Some?
    ensures ChildOf(t.frames[Top(t)].awaiter).value > Top(t)
  {
    hide Spine;
  }

  lemma {:induction false} AwaitersAgree(t: Task, p: nat, q: nat, f: nat)
    requires Inv(t) && Owns(t, ByAwaiter(p), f) && Owns(t, ByAwaiter(q), f)
    ensures p == q
  {
    AwaiterHolds(t, p);
    AwaiterHolds(t, q);
    var j: nat :| HoldsAt(t, p, j);
    var k: nat :| HoldsAt(t, q, k);
    if j < |t.stack| - 1 { StackLinks(t, j + 1); }
    if k < |t.stack| - 1 { StackLinks(t, k + 1); }
    assert Increasing(t.stack, |t.frames|);
    hide Inv, Owns, Link;
  }

  /** Ownership over whole runs. A coroutine is destroyed at most once; while its awaiter, its variable or Start refers to it, it is not
      destroyed. Whenever a body runs, every coroutine that was started and is not on the stack is gone: a child is destroyed before its
      parent leaves the await expression, for a value, a Try or an exception. When the task is over, a coroutine has been
      destroyed, once, if and only if it was awaited or started or its last handle was a Lazy; the others are leaked. When a
      job was refused, the coroutines on the stack stay for ever. */
  lemma {:induction false} OwnershipTheorem(prog: Code, entry: Entry, th: Thread, acts: seq<Action>, c: Config)
    requires Runs(Initial(prog, entry, th), acts, c) && c.Ok?
    ensures forall f :: 0 <= f < |c.t.frames| ==> c.t.frames[f].destroyed == if c.t.frames[f].status.Destroyed? then 1 else 0
    ensures forall f :: 0 <= f < |c.t.frames| && f in c.t.stack ==> c.t.frames[f].destroyed == 0
    ensures c.t.ctl.Exec? || c.t.ctl.Over? ==>
      forall f :: 0 <= f < |c.t.frames| && f !in c.t.stack && c.t.frames[f].taken ==> c.t.frames[f].destroyed == 1
    ensures c.t.ctl.Over? ==> forall f :: 0 <= f < |c.t.frames| ==>
      c.t.frames[f].destroyed == (if c.t.frames[f].taken || !c.t.frames[f].resched then 1 else 0) &&
      (c.t.frames[f].status.Leaked? <==> c.t.frames[f].destroyed == 0)
    ensures c.t.ctl.Over? ==> c.t.stack == [] && forall v :: 0 <= v < |c.t.vias| ==> c.t.vias[v].destroyed == 1
    ensures c.t.refusals > 0 ==> c.t.stack != [] && forall a :: !Enabled(c.t, a)
  {
    InitialInv(prog, entry, th);
    hide Runs;
    RunKeepsInv(Initial(prog, entry, th), acts, c);
    var t := c.t;
    forall f | 0 <= f < |t.frames|
      ensures t.frames[f].destroyed == if t.frames[f].status.Destroyed? then 1 else 0
      ensures f in t.stack ==> t.frames[f].destroyed == 0
      ensures (t.ctl.Exec? || t.ctl.Over?) && f !in t.stack && t.frames[f].taken ==> t.frames[f].destroyed == 1
      ensures t.ctl.Over? ==>
        t.frames[f].destroyed == (if t.frames[f].taken || !t.frames[f].resched then 1 else 0) &&
        (t.frames[f].status.Leaked? <==> t.frames[f].destroyed == 0)
    {
      FrameAccount(t, f);
    }
    if t.ctl.Over? {
      forall v | 0 <= v < |t.vias|
        ensures t.vias[v].destroyed == 1
      {
        assert ViaOwned(t, v);
      }
    }
    StuckControl(t, th);
  }

  lemma {:induction false} FrameAccount(t: Task, f: nat)
    requires Inv(t) && f < |t.frames|
    ensures t.frames[f].destroyed == if t.frames[f].status.Destroyed? then 1 else 0
    ensures f in t.stack ==> t.frames[f].destroyed == 0
    ensures (t.ctl.Exec? || t.ctl.Over?) && f !in t.stack && t.frames[f].taken ==> t.frames[f].destroyed == 1
    ensures t.ctl.Over? ==>
      t.frames[f].destroyed == (if t.frames[f].taken || !t.frames[f].resched then 1 else 0) &&
      (t.frames[f].status.Leaked? <==> t.frames[f].destroyed == 0)
  {
    assert FrameOwned(t, f) && HolderOk(t.frames, f);
    if t.frames[f].status.Created? { assert FrameOwned(t, t.frames[f].holder); }
    if f in t.stack {
      var k :| 0 <= k < |t.stack| && t.stack[k] == f;
      StackLinks(t, k);
    }
    hide Spine, Balanced, Homely, Leveled;
  }

  // ---------------------------------------------------------------- Checkout and Checkin

  /** Checkouts minus Checkins is the number of via-wrapped awaits outstanding on a non-null executor; 0 at the end. */
  lemma {:induction false} BalanceTheorem(prog: Code, entry: Entry, th: Thread, acts: seq<Action>, c: Config)
    requires Runs(Initial(prog, entry, th), acts, c) && c.Ok?
    ensures c.t.checkouts - c.t.checkins == Outstanding(c.t.frames, c.t.vias, c.t.stack)
    ensures c.t.ctl.Over? ==> c.t.checkouts == c.t.checkins
  {
    InitialInv(prog, entry, th);
    hide Runs;
    RunKeepsInv(Initial(prog, entry, th), acts, c);
  }

  // ---------------------------------------------------------------- affinity

  predicate YieldsBetween(trace: seq<Event>, s: nat, i: nat, k: nat) {
    exists j :: i < j < k && j < |trace| && trace[j] == Yielded(trace[j].f, s)
  }

  lemma {:induction false} HomeSince(frames: seq<Frame>, trace: seq<Event>, i: nat, k: nat)
    requires TraceOk(frames, trace) && i < k <= |trace| && trace[i].Resumed? && trace[i].ex.Some?
    requires !YieldsBetween(trace, trace[i].strand, i, k)
    ensures Home(trace[..k], trace[i].strand) == Some(trace[i].th)
    decreases k
  {
    var s := trace[i].strand;
    assert EventOk(frames, trace, i);
    assert trace[..k][..k - 1] == trace[..k - 1] && trace[..k][k - 1] == trace[k - 1];
    if i < k - 1 {
      HomeSince(frames, trace, i, k - 1);
      assert EventOk(frames, trace, k - 1);
      assert trace[k - 1] != Yielded(trace[k - 1].f, s);
    }
  }

  /** Executor affinity, for every segment: it runs under the executor_ of its coroutine, and on a worker of it. */
  lemma {:induction false} RunsOnItsExecutor(prog: Code, entry: Entry, th: Thread, acts: seq<Action>, c: Config, k: nat)
    requires Runs(Initial(prog, entry, th), acts, c) && c.Ok? && k < |c.t.trace| && c.t.trace[k].Resumed?
    ensures var t, ev := c.t, c.t.trace[k];
      ev.f < |t.frames| && ev.ex == t.frames[ev.f].executor && (ev.ex.Some? ==> OnWorkerOf(ev.th, ev.ex.value))
  {
    InitialInv(prog, entry, th);
    hide Runs;
    RunKeepsInv(Initial(prog, entry, th), acts, c);
    hide Home;
    assert EventOk(c.t.frames, c.t.trace, k);
    assert StrandOk(c.t.frames, c.t.trace[k].f);
  }

  /** And at every moment: the coroutine whose body is running, or whose await expression is ending, runs on a worker of its
      executor_, the one that its strand was last resumed on. */
  lemma {:induction false} RunningOnItsExecutor(prog: Code, entry: Entry, th: Thread, acts: seq<Action>, c: Config)
    requires Runs(Initial(prog, entry, th), acts, c) && c.Ok? && (c.t.ctl.Exec? || c.t.ctl.Resuming?)
    ensures var t, f := c.t, c.t.ctl.f;
      f < |t.frames| && (t.frames[f].executor.Some? ==>
        OnWorkerOf(t.ctl.th, t.frames[f].executor.value) && Home(t.trace, t.frames[f].strand) == Some(t.ctl.th))
  {
    InitialInv(prog, entry, th);
    hide Runs;
    RunKeepsInv(Initial(prog, entry, th), acts, c);
    hide Home;
  }

  /** Two segments of a coroutine with an executor_ run on the same worker unless its strand, the coroutine or a plainly
      awaited descendant of its strand, yielded in between. */
  lemma {:induction false} AffinityTheorem(prog: Code, entry: Entry, th: Thread, acts: seq<Action>, c: Config, i: nat, k: nat)
    requires Runs(Initial(prog, entry, th), acts, c)
    requires c.Ok? && i < k < |c.t.trace| && c.t.trace[i].Resumed? && c.t.trace[k].Resumed? && c.t.trace[i].ex.Some?
    requires c.t.trace[i].strand == c.t.trace[k].strand
    ensures var e := c.t.trace[i].ex.value;
      && c.t.trace[k].ex == Some(e) && OnWorkerOf(c.t.trace[i].th, e) && OnWorkerOf(c.t.trace[k].th, e)
      && (!YieldsBetween(c.t.trace, c.t.trace[i].strand, i, k) ==> c.t.trace[k].th == c.t.trace[i].th)
  {
    InitialInv(prog, entry, th);
    hide Runs;
    RunKeepsInv(Initial(prog, entry, th), acts, c);
    hide Home;
    var trace := c.t.trace;
    assert EventOk(c.t.frames, trace, i) && EventOk(c.t.frames, trace, k);
    if !YieldsBetween(trace, trace[i].strand, i, k) {
      HomeSince(c.t.frames, trace, i, k);
    }
  }

  /** The segments of one coroutine belong to one strand, so AffinityTheorem applies to any two of them. */
  lemma {:induction false} SegmentsShareStrand(prog: Code, entry: Entry, th: Thread, acts: seq<Action>, c: Config, i: nat, k: nat)
    requires Runs(Initial(prog, entry, th), acts, c)
    requires c.Ok? && i < |c.t.trace| && k < |c.t.trace| && c.t.trace[i].f == c.t.trace[k].f
    ensures c.t.trace[i].strand == c.t.trace[k].strand
  {
    InitialInv(prog, entry, th);
    hide Runs;
    RunKeepsInv(Initial(prog, entry, th), acts, c);
    assert EventOk(c.t.frames, c.t.trace, i) && EventOk(c.t.frames, c.t.trace, k);
  }

  /** A queued coroutine may be taken by every worker of its executor exactly when its strand has no home: it never ran,
      or it has yielded since. Otherwise only the worker it last ran on takes it. */
  lemma {:induction false} WhoMayTakeIt(prog: Code, entry: Entry, th: Thread, acts: seq<Action>, c: Config, i: nat)
    requires Runs(Initial(prog, entry, th), acts, c) && c.Ok? && c.t.ctl.Queued?
    ensures var t, f := c.t, c.t.ctl.f;
      f < |t.frames| && t.frames[f].executor == Some(t.ctl.e) &&
      (Enabled(t, Pick(i)) <==>
        Home(t.trace, t.frames[f].strand) == None || Home(t.trace, t.frames[f].strand) == Some(Worker(t.ctl.e, i)))
  {
    InitialInv(prog, entry, th);
    hide Runs;
    RunKeepsInv(Initial(prog, entry, th), acts, c);
  }

}
