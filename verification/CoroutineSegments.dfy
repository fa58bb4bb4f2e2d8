/** The trace of a task is the list of its segments: a coroutine that gets hold of a thread is written down then, and only then. */
module CoroutineSegments {
  import opened TryModel
  import opened CoroutineCode
  import opened CoroutineMachine
  import opened CoroutineHandles
  import opened CoroutineProofs
  import opened CoroutineOwnership
  import opened CoroutineAffinity
  import opened CoroutineMeaning
  import opened CoroutineTheorems

  /** The coroutine that has the thread. */
  function OnThread(ctl: Control): Option<(nat, Thread)> {
    match ctl
    case Exec(f, th) => Some((f, th))
    case Resuming(f, th) => Some((f, th))
    case _ => None
  }

  /** The next step of the running body is `co_await Yield{}`. */
  predicate YieldsNow(t: Task) {
    t.ctl.Exec? && t.ctl.f < |t.frames| &&
    var fr := t.frames[t.ctl.f];
    |fr.vars| <= fr.body.live && !fr.body.result.Available() && fr.body.code.Await? && fr.body.code.what.Yield?
  }

  predicate Recorded(t: Task, t1: Task) {
    match OnThread(t1.ctl)
    case Some((f, th)) =>
      f < |t1.frames| &&
      t1.trace == t.trace +
        if OnThread(t.ctl) == Some((f, th)) then [] else [Resumed(f, t1.frames[f].strand, t1.frames[f].executor, th)]
    case None =>
      t1.trace == t.trace + if YieldsNow(t) then [Yielded(t.ctl.f, t.frames[t.ctl.f].strand)] else []
  }

  lemma {:induction false} ResumeRecords(t: Task, t0: Task, p: nat, th: Thread)
    requires t0.trace == t.trace && Resume(t0, p, th).Ok? && (OnThread(t.ctl).Some? ==> OnThread(t.ctl).value.0 != p)
    ensures Recorded(t, Resume(t0, p, th).t)
  {
  }

  lemma {:induction false} NothingToRecord(t: Task, t1: Task)
    requires t1.trace == t.trace && !YieldsNow(t)
    requires OnThread(t1.ctl) == None || (OnThread(t1.ctl) == OnThread(t.ctl) && OnThread(t.ctl).value.0 < |t1.frames|)
    ensures Recorded(t, t1)
  {
    assert t.trace + [] == t.trace;
  }

  lemma {:induction false} AwaitHandleRecords(t: Task, f: nat, th: Thread, i: nat, accepted: bool)
    requires Poised(t, f, th) && t.frames[f].body.code.Await? && t.frames[f].status.Running?
    requires t.frames[f].body.code.what == (if t.frames[f].body.code.what.TryOf? then TryOf(i) else ValueOf(i))
    requires AwaitHandle(t, f, th, i, t.frames[f].body.code.what.TryOf?, accepted).Ok?
    ensures Recorded(t, AwaitHandle(t, f, th, i, t.frames[f].body.code.what.TryOf?, accepted).t)
  {
    AwaitsIt(t, f, th, i);
    var c := t.frames[f].vars[i].coro.value;
    assert t.frames[c].status.Created?;
    hide Inv, AwaitsNow;
    assert t.trace + [] == t.trace;
  }

  lemma {:induction false} FinalSuspendRecords(t: Task, f: nat, th: Thread)
    requires t.ctl == Exec(f, th) && f < |t.frames| && t.stack != [] && FinalSuspend(t, f, th).Ok? && !YieldsNow(t)
    ensures Recorded(t, FinalSuspend(t, f, th).t)
  {
    var t1 := Uncovered(t, f);
    match t.frames[f].continuation
    case LazyH(p) => ResumeRecords(t, t1, p, th);
    case ViaH(_) => NothingToRecord(t, FinalSuspend(t, f, th).t);
    case RootH => NothingToRecord(t, FinalSuspend(t, f, th).t);
  }

  lemma {:induction false} AwaitStepRecords(t: Task, f: nat, th: Thread, path: Path, accepted: bool)
    requires Poised(t, f, th) && t.frames[f].body.code.Await? && t.frames[f].status.Running? && AwaitStep(t, f, th, path, accepted).Ok?
    ensures Recorded(t, AwaitStep(t, f, th, path, accepted).t)
  {
    match t.frames[f].body.code.what
    case ValueOf(i) => AwaitHandleRecords(t, f, th, i, accepted);
    case TryOf(i) => AwaitHandleRecords(t, f, th, i, accepted);
    case _ => hide Inv; assert t.trace + [] == t.trace;
  }

  lemma {:induction false} BodyRecords(t: Task, f: nat, th: Thread, path: Path, accepted: bool)
    requires Inv(t) && t.ctl == Exec(f, th) && f < |t.frames| && t.stack != [] && BodyStep(t, f, th, path, accepted).Ok?
    ensures Recorded(t, BodyStep(t, f, th, path, accepted).t)
  {
    TopFacts(t, f, th);
    var fr := t.frames[f];
    hide Inv;
    if |fr.vars| > fr.body.live {
      NothingToRecord(t, DropStep(t, f).t);
    } else if fr.body.result.Available() {
      FinalSuspendRecords(t, f, th);
    } else if fr.body.code.Await? {
      assert Poised(t, f, th);
      AwaitStepRecords(t, f, th, path, accepted);
    } else {
      NothingToRecord(t, BodyStep(t, f, th, path, accepted).t);
    }
  }

  /** Every coroutine that gets hold of a thread by a step of any run is recorded with its strand, its executor_ and that
      thread, whether it is started, awaited, resumed by what it awaited or taken from a queue; one that keeps its thread is not;
      and apart from Yields nothing else is. */
  lemma {:induction false} SegmentsAreRecorded(t: Task, a: Action)
    requires Inv(t) && Enabled(t, a) && Next(t, a).Ok?
    ensures Recorded(t, Next(t, a).t)
  {
    match t.ctl
    case Exec(f, th) => hide Inv; BodyRecords(t, f, th, a.path, a.accepted);
    case Queued(f, e, pin) => hide Inv; ResumeRecords(t, t, f, Worker(e, a.i));
    case ExecVia(v, th) => hide Inv; ViaRecords(t, v, th, a.accepted);
    case Resuming(f, th) => AwaitResumeIs(t, f, th);
    case Starting(_) => hide Inv; NothingToRecord(t, Next(t, a).t);
    case Waiting(_) => hide Inv; NothingToRecord(t, Next(t, a).t);
    case AtRoot(_) => hide Inv; NothingToRecord(t, Next(t, a).t);
  }

  lemma {:induction false} ViaRecords(t: Task, v: nat, th: Thread, accepted: bool)
    requires t.ctl == ExecVia(v, th) && v < |t.vias| && ViaStep(t, v, th, accepted).Ok?
    ensures Recorded(t, ViaStep(t, v, th, accepted).t)
  {
    assert t.trace + [] == t.trace;
  }

  lemma {:induction false} AwaitResumeIs(t: Task, f: nat, th: Thread)
    requires Inv(t) && t.ctl == Resuming(f, th) && f < |t.frames| && AwaitResume(t, f, th).Ok?
    ensures Recorded(t, AwaitResume(t, f, th).t)
  {
    hide HandlesOk, Owned, Balanced, Homely, Leveled, Shape;
    AwaitResumeDelivers(t, f, th);
    NothingToRecord(t, AwaitResume(t, f, th).t);
  }

  // ---------------------------------------------------------------- a foreign awaitable

  /** The three ways of a foreign awaitable. If it is ready, or declines to suspend, the coroutine goes on at once with its result,
      and what was checked out is checked in; if not, the coroutine is suspended until the awaitable resumes the via coroutine. */
  lemma {:induction false} ForeignTakesItsWay(t: Task, f: nat, th: Thread, r: Try<int>, path: Path)
    requires f < |t.frames| && t.frames[f].body.code.Await? && Wrap(t, f, th).Some?
    ensures AwaitForeign(t, f, th, r, path).Ok?
    ensures var t1, outs := AwaitForeign(t, f, th, r, path).t, if t.frames[f].executor.Some? then 1 else 0;
      && |t1.frames| == |t.frames| && |t1.vias| == |t.vias| + 1 && t1.frames[f].awaiter == ForForeign(|t.vias|, r)
      && t1.ctl == (if path.Deferred? then Waiting(|t.vias|) else Resuming(f, th))
      && t1.frames[f].status == (if path.Deferred? then Suspended else t.frames[f].status)
      && t1.checkouts == t.checkouts + (if path.Ready? then 0 else outs)
      && t1.checkins == t.checkins + (if path.Declined? then outs else 0)
      && (!path.Ready? ==> t1.vias[|t.vias|].continuation == LazyH(f))
  {
  }
}
