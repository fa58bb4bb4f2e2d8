/** Concrete runs of a task: what the theorems do not promise does happen. */
module CoroutineRuns {
  import opened TryModel
  import opened CoroutineCode
  import opened CoroutineMachine
  import opened CoroutineProofs
  import opened CoroutineTheorems

  const GO := Proceed(Path.Ready, true)

  lemma {:induction false} RunsAppend(t: Task, acts: seq<Action>, t1: Task, more: seq<Action>, c: Config)
    requires Runs(t, acts, Ok(t1)) && Runs(t1, more, c)
    ensures Runs(t, acts + more, c)
    decreases |acts|
  {
    hide Next, Enabled;
    if acts == [] {
      assert acts + more == more;
    } else {
      assert (acts + more)[1..] == acts[1..] + more;
      RunsAppend(Next(t, acts[0]).t, acts[1..], t1, more, c);
    }
  }

  // ---------------------------------------------------------------- a coroutine that moves without yielding

  const YIELDS := Await(Yield, Finish(Const(0)))
  const CHILD_YIELDS := Make(YIELDS, Await(ValueOf(0), Finish(Const(0))))

  function Then(env: seq<int>, live: nat): Body {
    Body(Finish(Const(0)), env, [], live, Nothing)
  }

  function MovingRoot(body: Body, coro: Option<nat>, a: Awaiter, status: Status): Frame {
    Frame(Some(0), RootH, body, [Local(false, coro, Closure(YIELDS, [], None))], a, status, 0, 0, 0, true, true, 0)
  }

  function MovingChild(ex: ExecutorPtr, h: Handle, body: Body, a: Awaiter, status: Status, taken: bool): Frame {
    Frame(ex, h, body, [], a, status, if taken then 0 else 1, 0, 0, taken, false, 0)
  }

  const STARTS := [Resumed(0, 0, Some(0), Worker(0, 0))]
  const ENTERS := STARTS + [Resumed(1, 0, Some(0), Worker(0, 0))]
  const YIELDED := ENTERS + [Yielded(1, 0)]
  const TAKEN := YIELDED + [Resumed(1, 0, Some(0), Worker(0, 1))]

  /** The parent has created its child, and is about to await it. */
  function ChildMade(): Task {
    Task([MovingRoot(Body(Await(ValueOf(0), Finish(Const(0))), [], [], 1, Nothing), Some(1), NoAwait, Running),
          MovingChild(None, NoHandle, Fresh(YIELDS, []), NoAwait, Created, false)],
         [], Exec(0, Worker(0, 0)), [0], STARTS, 0, 0, 0, [])
  }

  /** Another worker has taken the child. */
  function ChildMoved(): Task {
    Task([MovingRoot(Then([], 1), None, ForChild(1), Suspended),
          MovingChild(Some(0), LazyH(0), Then([], 0), ForYield, Running, true)],
         [], Resuming(1, Worker(0, 1)), [0, 1], TAKEN, 0, 0, 0, [])
  }

  lemma {:induction false} ChildIsMade()
    ensures Runs(Initial(CHILD_YIELDS, AsReschedule(Some(0)), Outside(0)), [GO, Pick(0), GO], Ok(ChildMade()))
  {
    var t0 := Initial(CHILD_YIELDS, AsReschedule(Some(0)), Outside(0));
    var acts := [GO, Pick(0), GO];
    var t1 := Next(t0, acts[0]).t;
    var t2 := Next(t1, acts[1]).t;
    var t3 := Next(t2, acts[2]).t;
    assert t3.frames[0].vars == ChildMade().frames[0].vars;
    assert t3.frames[0] == ChildMade().frames[0] && t3.frames[1] == ChildMade().frames[1];
    assert t3.frames == ChildMade().frames && t3 == ChildMade();
    assert Runs(ChildMade(), [], Ok(ChildMade()));
    assert Runs(t2, acts[2..], Ok(ChildMade()));
    assert Runs(t1, acts[1..], Ok(ChildMade()));
  }

  lemma {:induction false} ChildMoves()
    ensures Runs(ChildMade(), [GO, GO, Pick(1)], Ok(ChildMoved()))
  {
    var t0 := ChildMade();
    var acts := [GO, GO, Pick(1)];
    var t1 := Next(t0, acts[0]).t;
    assert t1.trace == ENTERS && t1.ctl == Exec(1, Worker(0, 0));
    var t2 := Next(t1, acts[1]).t;
    assert t2.trace == YIELDED && t2.ctl == Queued(1, 0, None);
    var t3 := Next(t2, acts[2]).t;
    assert t3.frames[0].vars == ChildMoved().frames[0].vars;
    assert t3.frames[0] == ChildMoved().frames[0] && t3.frames[1] == ChildMoved().frames[1];
    assert t3.frames == ChildMoved().frames && t3 == ChildMoved();
    assert Runs(ChildMoved(), [], Ok(ChildMoved()));
    assert Runs(t2, acts[2..], Ok(ChildMoved()));
    assert Runs(t1, acts[1..], Ok(ChildMoved()));
  }

  predicate MovedUnyielding(trace: seq<Event>) {
    && |trace| == 5 && trace[0] == Resumed(0, 0, Some(0), Worker(0, 0)) && trace[4] == Resumed(0, 0, Some(0), Worker(0, 1))
    && (forall k :: 0 <= k < |trace| ==> !(trace[k].Yielded? && trace[k].f == 0))
  }

  lemma {:induction false} ParentFollows()
    ensures exists t :: Runs(ChildMoved(), [GO, GO, GO], Ok(t)) && MovedUnyielding(t.trace)
  {
    var t0 := ChildMoved();
    var acts := [GO, GO, GO];
    var t1 := Next(t0, acts[0]).t;
    var t2 := Next(t1, acts[1]).t;
    var t3 := Next(t2, acts[2]).t;
    assert t3.trace == TAKEN + [Resumed(0, 0, Some(0), Worker(0, 1))];
    assert Runs(t3, [], Ok(t3));
    assert Runs(t2, acts[2..], Ok(t3));
    assert Runs(t1, acts[1..], Ok(t3));
    assert Runs(t0, acts, Ok(t3));
  }

  /** "Unless it yielded" would be false: this coroutine never yields and moves all the same, because the child it awaits
      plainly does. */
  lemma {:induction false} MovedByItsChild()
    ensures exists acts, t :: Runs(Initial(CHILD_YIELDS, AsReschedule(Some(0)), Outside(0)), acts, Ok(t)) && MovedUnyielding(t.trace)
  {
    ChildIsMade();
    ChildMoves();
    ParentFollows();
    hide Runs, MovedUnyielding;
    var t0 := Initial(CHILD_YIELDS, AsReschedule(Some(0)), Outside(0));
    var t :| Runs(ChildMoved(), [GO, GO, GO], Ok(t)) && MovedUnyielding(t.trace);
    RunsAppend(t0, [GO, Pick(0), GO], ChildMade(), [GO, GO, Pick(1)], Ok(ChildMoved()));
    RunsAppend(t0, [GO, Pick(0), GO] + [GO, GO, Pick(1)], ChildMoved(), [GO, GO, GO], Ok(t));
  }

  // ---------------------------------------------------------------- a coroutine that leaks

  /** `auto x = f(); auto y = std::move(x).Via(e); co_return 1;` */
  const DISCARDS := Make(Return(Const(0)), Via(0, Some(0), Return(Const(1))))

  function Discarding(body: Body, vars: seq<Local>): Frame {
    Frame(None, RootH, body, vars, NoAwait, Running, 0, 0, 0, true, false, 0)
  }

  function Discarded(th: Thread, vars: seq<Local>, status: Status): Task {
    Task([Discarding(Body(Return(Const(1)), [], [], 0, Value(1)), vars),
          Frame(Some(0), NoHandle, Fresh(Return(Const(0)), []), [], NoAwait, status, 1, 0, 1, false, true, 0)],
         [], Exec(0, th), [0], [Resumed(0, 0, None, th)], 0, 0, 0, [])
  }

  function Held(ex: ExecutorPtr): Closure {
    Closure(Return(Const(0)), [], ex)
  }

  lemma {:induction false} DiscardBegins(th: Thread)
    ensures Runs(Initial(DISCARDS, AsLazy, th), [GO, GO, GO],
                 Ok(Discarded(th, [Local(false, None, Held(None)), Local(true, Some(1), Held(Some(0)))], Created)))
  {
    var t0 := Initial(DISCARDS, AsLazy, th);
    var t3 := Discarded(th, [Local(false, None, Held(None)), Local(true, Some(1), Held(Some(0)))], Created);
    var acts := [GO, GO, GO];
    var t1 := Next(t0, acts[0]).t;
    assert t1.frames[0].vars == [Local(false, Some(1), Held(None))];
    var t2 := Next(t1, acts[1]).t;
    assert t2.frames[0].vars == [Local(false, None, Held(None)), Local(true, Some(1), Held(Some(0)))];
    assert Next(t2, acts[2]) == Ok(t3);
    assert Runs(t3, [], Ok(t3));
    assert Runs(t2, acts[2..], Ok(t3));
    assert Runs(t1, acts[1..], Ok(t3));
  }

  predicate EndedWithLeak(t: Task) {
    t.ctl.Over? && t.results == [Value(1)] && |t.frames| == 2 && t.frames[1].status.Leaked? && t.frames[1].destroyed == 0
  }

  lemma {:induction false} DiscardDrops(th: Thread)
    ensures Runs(Discarded(th, [Local(false, None, Held(None)), Local(true, Some(1), Held(Some(0)))], Created), [GO, GO],
                 Ok(Discarded(th, [], Leaked)))
  {
    var x, y := Local(false, None, Held(None)), Local(true, Some(1), Held(Some(0)));
    var t0, t1, t2 := Discarded(th, [x, y], Created), Discarded(th, [x], Leaked), Discarded(th, [], Leaked);
    var acts := [GO, GO];
    assert Pop([x, y]) == [x] && Pop([x]) == [];
    assert Next(t0, GO) == Ok(t1);
    assert Next(t1, GO) == Ok(t2);
    hide Next;
    assert Runs(t2, [], Ok(t2));
    assert Runs(t1, acts[1..], Ok(t2));
  }

  lemma {:induction false} DiscardEnds(th: Thread)
    ensures exists t :: Runs(Discarded(th, [], Leaked), [GO, GO], Ok(t)) && EndedWithLeak(t)
  {
    var acts := [GO, GO];
    var t2 := Discarded(th, [], Leaked);
    var t3 := Next(t2, GO).t;
    var t4 := Next(t3, GO).t;
    assert Runs(t4, [], Ok(t4));
    assert Runs(t3, acts[1..], Ok(t4));
    assert Runs(t2, acts, Ok(t4));
    assert EndedWithLeak(t4);
  }

  /** A discarded RescheduleLazy leaks its coroutine: the task ends with the right result, and the frame is never destroyed. */
  lemma {:induction false} DiscardedRescheduleLeaks(th: Thread)
    ensures exists acts, t :: Runs(Initial(DISCARDS, AsLazy, th), acts, Ok(t)) && EndedWithLeak(t)
  {
    DiscardBegins(th);
    DiscardDrops(th);
    DiscardEnds(th);
    hide Runs, EndedWithLeak;
    var t3 := Discarded(th, [Local(false, None, Held(None)), Local(true, Some(1), Held(Some(0)))], Created);
    var t :| Runs(Discarded(th, [], Leaked), [GO, GO], Ok(t)) && EndedWithLeak(t);
    RunsAppend(Initial(DISCARDS, AsLazy, th), [GO, GO, GO], t3, [GO, GO], Ok(Discarded(th, [], Leaked)));
    RunsAppend(Initial(DISCARDS, AsLazy, th), [GO, GO, GO] + [GO, GO], Discarded(th, [], Leaked), [GO, GO], Ok(t));
  }

  // ---------------------------------------------------------------- a job that is refused

  ghost predicate Abandoned(t: Task) {
    t.results == [] && t.frames[..] != [] && t.frames[0].destroyed == 0 && t.refusals == 1 && forall a :: !Enabled(t, a)
  }

  /** A Yield that the executor refuses ends everything: the coroutine is not resumed, the callback is not called, and the
      frame stays. */
  lemma {:induction false} RefusedYieldIsLost(th: Thread)
    ensures exists t :: Runs(Initial(YIELDS, AsReschedule(Some(0)), th), [GO, Pick(0), Proceed(Path.Ready, false)], Ok(t)) && Abandoned(t)
  {
    var acts := [GO, Pick(0), Proceed(Path.Ready, false)];
    var t0 := Initial(YIELDS, AsReschedule(Some(0)), th);
    var t1 := Next(t0, acts[0]).t;
    var t2 := Next(t1, acts[1]).t;
    var t3 := Next(t2, acts[2]).t;
    assert Runs(t3, [], Ok(t3));
    assert Runs(t2, acts[2..], Ok(t3));
    assert Runs(t1, acts[1..], Ok(t3));
    assert Runs(t0, acts, Ok(t3));
    assert Abandoned(t3);
  }

  // ---------------------------------------------------------------- Yield under a null executor

  /** Yield under a null executor_ fails at once where it is reached. */
  lemma {:induction false} YieldNeedsExecutor(next: Code, th: Thread)
    ensures StartFate(Await(Yield, next), AsLazy) == Doomed(NullExecutor)
    ensures Runs(Initial(Await(Yield, next), AsLazy, th), [GO], Crashed(NullExecutor))
  {
    var none: seq<Val> := [];
    assert AwaitFate(Yield, [], none, None) == Doomed(NullExecutor);
  }

  /** Where it is not reached it does no harm: every run of this program that cannot go on, and had no job refused, has called
      the callback with 0. */
  lemma {:induction false} UnreachedYieldIsHarmless(next: Code, th: Thread, acts: seq<Action>, c: Config)
    requires Runs(Initial(TryCatch(Finish(Const(0)), Await(Yield, next), Finish(Const(0))), AsLazy, th), acts, c)
    requires Complete(c) && (c.Ok? ==> c.t.refusals == 0)
    ensures c.Ok? && c.t.results == [Value(0)]
  {
    var prog := TryCatch(Finish(Const(0)), Await(Yield, next), Finish(Const(0)));
    var none: seq<Val> := [];
    assert Eval(Finish(Const(0)), [], none, None) == Outcome(Finished(0), none);
    assert Take(none, 0) == none;
    assert Eval(Finish(Const(0)), [] + [0], none, None) == Outcome(Finished(0), none);
    assert Eval(prog, [], none, None).flow == Finished(0);
    assert StartFate(prog, AsLazy) == Gives(Value(0));
    hide StartFate, Runs;
    CrashesExactly(prog, AsLazy, th, acts, c);
    ComputesEval(prog, AsLazy, th, acts, c);
  }
}
