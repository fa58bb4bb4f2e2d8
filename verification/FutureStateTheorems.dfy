/** The promises of the shared state, for every run of any number of promise and future handles. */
module FutureStateTheorems {
  import opened TryModel
  import opened FutureStateMachine
  import opened FutureStateProofs

  lemma {:induction false} InitialProtocol()
    ensures Protocol(INITIAL) && PromisesCounted(INITIAL)
  {
  }

  lemma {:induction false} InitialCounters()
    ensures Counters(INITIAL)
  {
  }

  /** No assertion fails, no error branch is taken and nothing touches a freed state, in any interleaving. */
  lemma {:induction false} NeverCrashes(acts: seq<Action>, c: Config)
    requires CarefulRun(INITIAL, acts, c)
    ensures c.Ok? && Inv(c.s)
  {
    InitialProtocol();
    InitialCounters();
    RunKeepsInv(INITIAL, acts, c);
  }

  /** Hand-off: exactly one of the two parties moves the state to Done, and by then the result and the continuation are in place. */
  lemma {:induction false} HandoffTheorem(acts: seq<Action>, s: State)
    requires CarefulRun(INITIAL, acts, Ok(s))
    ensures |s.log.scheduledBy| == if s.fs.phase.Done? then 1 else 0
    ensures HasResult(s.fs.phase) ==> |s.log.stored| == 1 && s.fs.tryValue == s.log.stored[0].v
    ensures HasContinuation(s.fs.phase) ==>
      |s.log.installed| == 1 && !s.fs.continuation.Raw? && s.fs.continuation.id == s.log.installed[0]
    ensures |s.log.stored| <= 1 && |s.log.installed| <= 1
  {
    NeverCrashes(acts, Ok(s));
  }

  /** Nobody is inside an operation any more and the executor has let go of the job. */
  predicate Settled(s: State) {
    s.ctl.producer.PIdle? && s.ctl.consumer.CIdle? && s.exec.closures == 0
  }

  /** The continuation is called at most once and with the stored result, is alive while it runs, is destroyed at most once and
      only after that call has returned; once everything has settled in Done, both have happened. */
  lemma {:induction false} ContinuationLifetime(acts: seq<Action>, s: State)
    requires CarefulRun(INITIAL, acts, Ok(s))
    ensures s.log.invoked != [] ==> s.fs.phase.Done? && s.log.stored != [] && s.log.invoked == [s.fs.tryValue] == [s.log.stored[0].v]
    ensures s.log.destroyed <= 1
    ensures s.log.destroyed == 1 ==> |s.log.invoked| == 1 && s.log.running == 0
    ensures s.log.running > 0 ==> |s.log.installed| == 1 && s.fs.continuation == Live(s.log.installed[0])
    ensures s.fs.phase.Done? && Settled(s) ==> |s.log.invoked| == 1 && s.log.destroyed == 1
    ensures s.exec.job.Rejected? ==> s.exec.run.NotRun?
  {
    NeverCrashes(acts, Ok(s));
  }

  /** attached_ counts exactly the live handles, references and abandoned handles; the state is freed once, when they are gone. */
  lemma {:induction false} MemoryTheorem(acts: seq<Action>, s: State)
    requires CarefulRun(INITIAL, acts, Ok(s))
    ensures s.fs.attached == Holders(s)
    ensures s.fs.continuationRef == Refs(s.ctl, s.exec)
    ensures s.log.freed == if Holders(s) == 0 then 1 else 0
    ensures s.log.freed > 0 ==> forall a :: !Enabled(s, a)
    ensures s.hold.abandonedFutures + s.hold.abandonedPromises > 0 ==> s.log.freed == 0
  {
    NeverCrashes(acts, Ok(s));
    forall a | Enabled(s, a)
      ensures s.log.freed == 0
    {
      ActorsHoldTheState(s, a);
    }
  }

  /** No orphaned future: once every promise is gone, none of them abandoned, the state has a result. It is the
      broken-promise exception written by the last destructor exactly when no promise was ever set. */
  lemma {:induction false} NoOrphanedFuture(acts: seq<Action>, s: State)
    requires CarefulRun(INITIAL, acts, Ok(s))
    requires s.hold.promises == s.hold.copying == s.hold.abandonedPromises == 0
    requires s.ctl.breaker.BNone?
    ensures HasResult(s.fs.phase) && |s.log.stored| == 1
    ensures s.log.setters == 0 <==> s.log.stored == [Stored(Exception(BrokenPromise), true)]
    ensures s.log.setters == 0 ==> s.fs.tryValue == Exception(BrokenPromise)
  {
    hide CarefulRun, Promises, Handoff;
    NeverCrashes(acts, Ok(s));
    assert PromisesCounted(s) && Handoff(s);
    hide Inv;
    ResultLeftBehind(s);
  }

  lemma {:induction false} ResultLeftBehind(s: State)
    requires PromisesCounted(s) && Handoff(s)
    requires s.hold.promises == s.hold.copying == s.hold.abandonedPromises == 0 && s.ctl.breaker.BNone?
    ensures HasResult(s.fs.phase) && |s.log.stored| == 1
    ensures s.log.setters == 0 <==> s.log.stored == [Stored(Exception(BrokenPromise), true)]
    ensures s.log.setters == 0 ==> s.fs.tryValue == Exception(BrokenPromise)
  {
  }

  // ---------------------------------------------------------------- everything that was started comes to an end

  function SchedWork(at: SchedPc): nat {
    match at
    case NoSched => 0
    case LastDetach => 1
    case Release | Deref => 2
    case FallbackCalling | Calling => 3
    case FallbackCall | Call => 4
    case AwaitAnswer | Ref => 5
    case Attach => 6
    case Submit => 8
    case SecondRef => 9
    case SecondAttach => 10
    case FirstRef => 11
    case FirstAttach => 12
    case Decide => 13
  }

  function ProducerWork(p: ProducerPc): nat {
    match p
    case PIdle => 0
    case PSched(at) => SchedWork(at)
    case PCas2(_) => 14
    case PAssert(_) => 15
    case PCas1 => 16
    case PLoad => 17
    case PWrite(_) => 18
    case PCheck(_) => 19
  }

  function ConsumerWork(c: ConsumerPc): nat {
    match c
    case CIdle => 0
    case CSched(at) => SchedWork(at)
    case CCas2(_) => 14
    case CAssert(_) => 15
    case CCas1 => 16
    case CLoad => 17
    case CWrite(_) => 18
    case CCheck(_) => 19
  }

  function BreakerWork(b: BreakerPc): nat {
    match b
    case BNone => 0
    case BSetting => 2
    case BCheck => 22
  }

  function JobWork(exec: Work): nat {
    3 * exec.closuresUp + 2 * exec.closures + exec.closuresDown + if exec.run.NotRun? then 2 else if exec.run.Running? then 1 else 0
  }

  /** What is left to do before every operation that was started has ended. */
  function Remaining(s: State): nat {
    ProducerWork(s.ctl.producer) + ConsumerWork(s.ctl.consumer) + BreakerWork(s.ctl.breaker) + JobWork(s.exec)
    + s.hold.dying + 2 * s.hold.copying
  }

  /** A step that carries on with something already started. */
  predicate Continues(a: Action) {
    match a
    case ProducerMoves(_) | ConsumerMoves(_) | BreakerChecks => true
    case ExecutorMoves(x) => x != CopyClosure
    case HandleMoves(h) => h.CopyPromiseAttach? || h.DetachDying?
    case _ => false
  }

  lemma {:induction false} SchedMakesProgress(s: State, who: Party, at: SchedPc, choice: bool)
    requires InSched(s, who, at) && at != NoSched && SchedMove(s, who, at, choice).Ok?
    ensures Remaining(SchedMove(s, who, at, choice).s) < Remaining(s)
  {
  }

  lemma {:induction false} ResultMakesProgress(s: State)
    requires !s.ctl.producer.PIdle? && !s.ctl.producer.PSched? && ResultStep(s).Ok?
    ensures Remaining(ResultStep(s).s) < Remaining(s)
  {
  }

  lemma {:induction false} ContinuationMakesProgress(s: State)
    requires !s.ctl.consumer.CIdle? && !s.ctl.consumer.CSched? && ContinuationStep(s).Ok?
    ensures Remaining(ContinuationStep(s).s) < Remaining(s)
  {
  }

  lemma {:induction false} HandlesMakeProgress(s: State, h: HandleAction)
    requires HandleMay(s, h) && (h.CopyPromiseAttach? || h.DetachDying?) && HandleStep(s, h).Ok?
    ensures Remaining(HandleStep(s, h).s) < Remaining(s)
  {
  }

  lemma {:induction false} BreakerMakesProgress(s: State)
    requires Enabled(s, BreakerChecks) && s.ctl.producer.PIdle? && Next(s, BreakerChecks).Ok?
    ensures Remaining(Next(s, BreakerChecks).s) < Remaining(s)
  {
  }

  lemma {:induction false} ExecutorMakesProgress(s: State, x: ExecutorAction)
    requires ExecutorMay(s.exec, x) && x != CopyClosure && ExecutorStep(s, x).Ok?
    ensures Remaining(ExecutorStep(s, x).s) < Remaining(s)
  {
  }

  /** Every step that carries on strictly shortens what remains, so no schedule can go on for ever without a new call. */
  lemma {:induction false} ContinuingMakesProgress(s: State, a: Action)
    requires Inv(s) && Enabled(s, a) && Careful(s, a) && Continues(a)
    ensures Next(s, a).Ok? && Remaining(Next(s, a).s) < Remaining(s)
  {
    StepKeepsInv(s, a);
    ActorsHoldTheState(s, a);
    match a
    case ProducerMoves(choice) =>
      if s.ctl.producer.PSched? {
        assert s.ctl.producer.at != NoSched;
        SchedMakesProgress(s, Producer, s.ctl.producer.at, choice);
      } else {
        ResultMakesProgress(s);
      }
    case ConsumerMoves(choice) =>
      if s.ctl.consumer.CSched? {
        assert s.ctl.consumer.at != NoSched;
        SchedMakesProgress(s, Consumer, s.ctl.consumer.at, choice);
      } else {
        ContinuationMakesProgress(s);
      }
    case ExecutorMoves(x) => ExecutorMakesProgress(s, x);
    case HandleMoves(h) => HandlesMakeProgress(s, h);
    case BreakerChecks => BreakerMakesProgress(s);
  }

  /** As long as something started has not ended, some step carries on with it. */
  lemma {:induction false} AlwaysCanContinue(s: State) returns (a: Action)
    requires Inv(s)
    requires !(Settled(s) && s.ctl.breaker.BNone? && s.hold.dying == s.hold.copying == s.exec.closuresDown == 0)
    ensures Enabled(s, a) && Continues(a)
  {
    if !s.ctl.producer.PIdle? {
      a := ProducerMoves(!s.exec.run.NotRun? || s.exec.closures > 0);
    } else if !s.ctl.consumer.CIdle? {
      a := ConsumerMoves(!s.exec.run.NotRun? || s.exec.closures > 0);
    } else if s.exec.closuresUp > 0 {
      a := ExecutorMoves(CopyClosureRef);
    } else if s.exec.closures > 0 {
      a := ExecutorMoves(if s.exec.run.Running? then EndJob
                         else if s.exec.job.Accepted? && s.exec.run.NotRun? then RunJob else DropClosure);
    } else if s.exec.closuresDown > 0 {
      a := ExecutorMoves(DropClosureDetach);
    } else if s.ctl.breaker.BCheck? {
      a := BreakerChecks;
    } else {
      a := HandleMoves(if s.hold.dying > 0 then DetachDying else CopyPromiseAttach);
    }
  }

  // ---------------------------------------------------------------- what goes wrong without the two hypotheses

  lemma {:induction false} RunStep(s: State, a: Action, acts: seq<Action>, c: Config)
    requires Enabled(s, a) && Next(s, a).Ok? && Run(Next(s, a).s, acts, c)
    ensures Run(s, [a] + acts, c)
  {
    assert ([a] + acts)[1..] == acts;
  }

  function GetFutures(n: nat): seq<Action> {
    seq(n, _ => HandleMoves(GetFuture))
  }

  function WrappedBy(x: nat, n: nat): nat
    decreases n
  {
    if n == 0 then x else WrappedBy(Wrapped(x), n - 1)
  }

  lemma {:induction false} WrappedAround(x: nat)
    requires 1 <= x <= 255
    ensures WrappedBy(x, 257 - x) == 1
    decreases 255 - x
  {
    if x < 255 {
      WrappedAround(x + 1);
    } else {
      assert WrappedBy(255, 2) == WrappedBy(0, 1);
    }
  }

  function WithFutures(s: State, n: nat): State {
    s.(fs := s.fs.(attached := WrappedBy(s.fs.attached, n)), hold := s.hold.(futures := s.hold.futures + n))
  }

  lemma {:induction false} TakeFutures(s: State, n: nat, acts: seq<Action>, c: Config)
    requires s.log.freed == 0 && s.hold.promises > 0 && Run(WithFutures(s, n), acts, c)
    ensures Run(s, GetFutures(n) + acts, c)
    decreases n
  {
    if n == 0 {
      assert GetFutures(0) + acts == acts;
      assert WithFutures(s, 0) == s;
    } else {
      var s1 := Next(s, HandleMoves(GetFuture)).s;
      assert WithFutures(s1, n - 1) == WithFutures(s, n);
      TakeFutures(s1, n - 1, acts, c);
      RunStep(s, HandleMoves(GetFuture), GetFutures(n - 1) + acts, c);
      assert [HandleMoves(GetFuture)] + (GetFutures(n - 1) + acts) == GetFutures(n) + acts;
    }
  }

  lemma {:induction false} DropOfManyFrees(s: State)
    requires s.hold.futures > 1 && s.fs.attached == 1 && s.log.freed == 0
    ensures exists s1 :: Run(s, [HandleMoves(DropFuture)], Ok(s1)) && s1.log.freed == 1 && Holders(s1) == Holders(s) - 1
  {
    var a := HandleMoves(DropFuture);
    var s1 := Next(s, a).s;
    assert Run(s1, [], Ok(s1));
    assert [a][1..] == [];
    assert Run(s, [a], Ok(s1)) && s1.log.freed == 1 && Holders(s1) == Holders(s) - 1;
  }

  /** With 257 attachments the 8-bit counter stands at 1 again: dropping one future then frees a state that 256 handles still use. */
  lemma {:induction false} EightBitsWrapAround()
    ensures exists s :: Run(INITIAL, GetFutures(256) + [HandleMoves(DropFuture)], Ok(s)) && s.log.freed == 1 && Holders(s) == 256
  {
    var full := WithFutures(INITIAL, 256);
    WrappedAround(1);
    DropOfManyFrees(full);
    var s :| Run(full, [HandleMoves(DropFuture)], Ok(s)) && s.log.freed == 1 && Holders(s) == Holders(full) - 1;
    TakeFutures(INITIAL, 256, [HandleMoves(DropFuture)], Ok(s));
  }

  function Times(a: Action, n: nat): seq<Action> {
    seq(n, _ => a)
  }

  lemma {:induction false} RunMoves(s: State, a: Action, n: nat, acts: seq<Action>, c: Config)
    requires Enabled(s, a) && Next(s, a).Ok? && Run(Next(s, a).s, Times(a, n) + acts, c)
    ensures Run(s, Times(a, n + 1) + acts, c)
  {
    hide Next, Enabled, Run;
    RunStep(s, a, Times(a, n) + acts, c);
    assert [a] + (Times(a, n) + acts) == Times(a, n + 1) + acts;
  }

  /** Scheduling was forced under an executor that has since been replaced by null; continuation 7 is installed. */
  function Forced(pc: ProducerPc): State {
    State(Fields(if pc.PSched? then Done else OnlyContinuation, 2, 0, 1, true, if pc.PSched? then Value(1) else Nothing, Live(7), None, None),
          Threads(pc, CIdle, BNone), Handles(1, 1, 0, 0, 0, 0), Work(0, 0, 0, NotSubmitted, NotRun),
          History(if pc.PIdle? then 0 else 1, if pc.PSched? then [Stored(Value(1), false)] else [], [7],
                  if pc.PSched? then [Producer] else [], [], 0, 0, 0))
  }

  const CRASH := Crashed(NullExecutor)

  lemma {:induction false} ForcedSchedulingCrashes()
    ensures Run(Forced(PSched(Decide)), Times(ProducerMoves(false), 6), CRASH)
  {
    var m := ProducerMoves(false);
    var s0 := Forced(PSched(Decide));
    var s1 := Next(s0, m).s;
    var s2 := Next(s1, m).s;
    var s3 := Next(s2, m).s;
    var s4 := Next(s3, m).s;
    var s5 := Next(s4, m).s;
    assert Run(s5, [m], CRASH);
    assert Times(m, 1) + [] == [m];
    RunMoves(s4, m, 1, [], CRASH);
    RunMoves(s3, m, 2, [], CRASH);
    RunMoves(s2, m, 3, [], CRASH);
    RunMoves(s1, m, 4, [], CRASH);
    RunMoves(s0, m, 5, [], CRASH);
    assert Times(m, 6) + [] == Times(m, 6);
  }

  /** Four moves from SetResult's test to line 214. */
  lemma {:induction false} ForcedResultDecides(acts: seq<Action>)
    requires Run(Forced(PSched(Decide)), acts, CRASH)
    ensures Run(Forced(PCheck(Value(1))), Times(ProducerMoves(false), 4) + acts, CRASH)
  {
    var m := ProducerMoves(false);
    var s0 := Forced(PCheck(Value(1)));
    var s1 := Next(s0, m).s;
    var s2 := Next(s1, m).s;
    var s3 := Next(s2, m).s;
    assert Next(s3, m).s == Forced(PSched(Decide));
    assert Times(m, 0) + acts == acts;
    hide Run;
    RunMoves(s3, m, 0, acts, CRASH);
    RunMoves(s2, m, 1, acts, CRASH);
    RunMoves(s1, m, 2, acts, CRASH);
    RunMoves(s0, m, 3, acts, CRASH);
  }

  lemma {:induction false} ForcedBegins()
    ensures Enabled(Forced(PIdle), BeginSetResult(Value(1)))
    ensures Next(Forced(PIdle), BeginSetResult(Value(1))) == Ok(Forced(PCheck(Value(1))))
  {
  }

  lemma {:induction false} ForcedResultCrashes()
    ensures Run(Forced(PIdle), [BeginSetResult(Value(1))] + Times(ProducerMoves(false), 10), CRASH)
  {
    var m := ProducerMoves(false);
    hide Run, Next, Enabled, Forced;
    ForcedBegins();
    ForcedSchedulingCrashes();
    ForcedResultDecides(Times(m, 6));
    assert Times(m, 4) + Times(m, 6) == Times(m, 10);
    RunStep(Forced(PIdle), BeginSetResult(Value(1)), Times(m, 10), CRASH);
  }

  function ForcedEarly(pc: ConsumerPc): State {
    State(Fields(Start, 2, 0, 1, true, Nothing, Raw, None, None),
          Threads(PIdle, pc, BNone), Handles(1, 1, 0, 0, 0, 0), Work(0, 0, 0, NotSubmitted, NotRun),
          History(0, [], [], [], [], 0, 0, 0))
  }

  lemma {:induction false} ForcedContinuationCrashes(acts: seq<Action>)
    requires Run(Forced(PIdle), acts, CRASH)
    ensures Run(ForcedEarly(CIdle), [BeginSetContinuation(7)] + (Times(ConsumerMoves(false), 4) + acts), CRASH)
  {
    var m := ConsumerMoves(false);
    var s5 := ForcedEarly(CCheck(7));
    var s6 := Next(s5, m).s;
    var s7 := Next(s6, m).s;
    var s8 := Next(s7, m).s;
    assert Next(s8, m).s == Forced(PIdle);
    assert Times(m, 0) + acts == acts;
    RunMoves(s8, m, 0, acts, CRASH);
    RunMoves(s7, m, 1, acts, CRASH);
    RunMoves(s6, m, 2, acts, CRASH);
    RunMoves(s5, m, 3, acts, CRASH);
    RunStep(ForcedEarly(CIdle), BeginSetContinuation(7), Times(m, 4) + acts, CRASH);
  }

  /** ForceScheduled under an executor, then SetExecutor(nullptr), as `Future::Wait` does it: the next result crashes. */
  lemma {:induction false} ForcedWithoutExecutorCrashes()
    ensures exists acts :: Run(INITIAL, acts, CRASH)
  {
    var a0, a1 := HandleMoves(GetFuture), HandleMoves(SetExecutor(Some(0)));
    var a2, a3 := HandleMoves(ForceScheduled(true)), HandleMoves(SetExecutor(None));
    var s1 := Next(INITIAL, a0).s;
    var s2 := Next(s1, a1).s;
    var s3 := Next(s2, a2).s;
    assert Next(s3, a3).s == ForcedEarly(CIdle);
    ForcedResultCrashes();
    ForcedContinuationCrashes([BeginSetResult(Value(1))] + Times(ProducerMoves(false), 10));
    var rest := [BeginSetContinuation(7)] + (Times(ConsumerMoves(false), 4) + ([BeginSetResult(Value(1))] + Times(ProducerMoves(false), 10)));
    RunStep(s3, a3, rest, CRASH);
    RunStep(s2, a2, [a3] + rest, CRASH);
    RunStep(s1, a1, [a2] + ([a3] + rest), CRASH);
    RunStep(INITIAL, a0, [a1] + ([a2] + ([a3] + rest)), CRASH);
  }
}
