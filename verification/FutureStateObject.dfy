/** The C++ class itself: its members are fields, its methods keep the control flow of the source, and between any two
    atomic operations the rest of the world takes any number of steps. Each operation is proved to be one step of the
    machine, each ASSERT of the source is an assert here. */
module FutureStateObject {
  import opened TryModel
  import opened FutureStateMachine
  import opened FutureStateProofs

  /** Attachments the rest of the world may use, so that a method of ours can add its two guards. */
  const ROOM: nat := 252

  /** Is this a step of somebody other than the thread of `me` (which is inside its operation)? */
  predicate ByOthers(me: Party, a: Action) {
    if me.Producer? then !a.ProducerMoves? else !a.ConsumerMoves?
  }

  predicate InOperation(ctl: Threads, me: Party) {
    if me.Producer? then !ctl.producer.PIdle? else !ctl.consumer.CIdle?
  }

  /** What the thread of `me` can rely on from `s` to `s1`. */
  predicate Untouched(s: State, s1: State, me: Party) {
    && (me.Producer? ==> s1.ctl.producer == s.ctl.producer && s1.ctl.breaker.BSetting? == s.ctl.breaker.BSetting?)
    && (me.Consumer? ==> s1.ctl.consumer == s.ctl.consumer)
    && s.log.stored <= s1.log.stored && s.log.installed <= s1.log.installed
    && (HasResult(s.fs.phase) ==> HasResult(s1.fs.phase)) && (HasContinuation(s.fs.phase) ==> HasContinuation(s1.fs.phase))
    && (me.Producer? ==> (HasResult(s.fs.phase) <==> HasResult(s1.fs.phase)))
    && (me.Consumer? ==> (HasContinuation(s.fs.phase) <==> HasContinuation(s1.fs.phase)))
  }

  /** What SetResult and SetContinuation read off the invariant. */
  lemma {:induction false} InvFacts(s: State)
    requires Inv(s)
    ensures |s.log.stored| <= 1 && |s.log.installed| <= 1
    ensures InSetResult(s.ctl.producer) ==> !HasResult(s.fs.phase) && (s.ctl.producer.PWrite? <==> s.log.stored == [])
    ensures s.ctl.producer.PAssert? || s.ctl.producer.PCas2? ==> s.ctl.producer.seen == s.fs.phase == OnlyContinuation
    ensures InSetContinuation(s.ctl.consumer) ==> !HasContinuation(s.fs.phase) && (s.ctl.consumer.CWrite? <==> s.log.installed == [])
    ensures s.ctl.consumer.CAssert? || s.ctl.consumer.CCas2? ==> s.ctl.consumer.seen == s.fs.phase == OnlyResult
    ensures HasResult(s.fs.phase) ==> |s.log.stored| == 1
    ensures HasContinuation(s.fs.phase) ==> |s.log.installed| == 1
    ensures !s.ctl.producer.PIdle? && !s.ctl.breaker.BSetting? ==> s.hold.promises > 0
    ensures !s.ctl.consumer.CIdle? ==> s.hold.futures > 0
    ensures s.hold.promises > 0 ==> s.ctl.breaker.BNone?
    ensures s.ctl.producer.PSched? || s.ctl.consumer.CSched? ==> s.fs.phase.Done?
  {
  }

  lemma {:induction false} SchedLeavesOther(s: State, who: Party, at: SchedPc, choice: bool)
    requires SchedMove(s, who, at, choice).Ok?
    ensures Untouched(s, SchedMove(s, who, at, choice).s, if who.Producer? then Consumer else Producer)
  {
  }

  lemma {:induction false} ExecutorLeavesAll(s: State, x: ExecutorAction, me: Party)
    requires ExecutorMay(s.exec, x) && ExecutorStep(s, x).Ok?
    ensures Untouched(s, ExecutorStep(s, x).s, me)
  {
  }

  lemma {:induction false} HandlesLeaveAll(s: State, h: HandleAction, me: Party)
    requires HandleMay(s, h) && HandleStep(s, h).Ok? && PromisesCounted(s) && InOperation(s.ctl, me)
    ensures Untouched(s, HandleStep(s, h).s, me)
  {
  }

  lemma {:induction false} OthersLeaveMe(s: State, a: Action, me: Party)
    requires PromisesCounted(s) && Enabled(s, a) && ByOthers(me, a) && InOperation(s.ctl, me) && Next(s, a).Ok?
    requires s.ctl.producer.PCas2? ==> s.ctl.producer.seen.OnlyContinuation?
    requires s.ctl.consumer.CCas2? ==> s.ctl.consumer.seen.OnlyResult?
    ensures Untouched(s, Next(s, a).s, me)
  {
    match a
    case ProducerMoves(choice) => if s.ctl.producer.PSched? { SchedLeavesOther(s, Producer, s.ctl.producer.at, choice); }
    case ConsumerMoves(choice) => if s.ctl.consumer.CSched? { SchedLeavesOther(s, Consumer, s.ctl.consumer.at, choice); }
    case ExecutorMoves(x) => ExecutorLeavesAll(s, x, me);
    case HandleMoves(h) => HandlesLeaveAll(s, h, me);
    case _ =>
  }

  /** What the last ~Promise can rely on between counting down and looking for a result. */
  predicate BreakerKept(s: State, s1: State) {
    && s1.ctl.breaker == s.ctl.breaker && s1.fs.promiseRef == s.fs.promiseRef
    && s1.log.stored == s.log.stored && s1.fs.tryValue == s.fs.tryValue && (HasResult(s1.fs.phase) <==> HasResult(s.fs.phase))
  }

  lemma {:induction false} SchedKeepsBreaker(s: State, who: Party, at: SchedPc, choice: bool)
    requires SchedMove(s, who, at, choice).Ok? && who.Consumer?
    ensures BreakerKept(s, SchedMove(s, who, at, choice).s)
  {
  }

  lemma {:induction false} ExecutorKeepsBreaker(s: State, x: ExecutorAction)
    requires ExecutorMay(s.exec, x) && ExecutorStep(s, x).Ok?
    ensures BreakerKept(s, ExecutorStep(s, x).s)
  {
  }

  lemma {:induction false} HandlesKeepBreaker(s: State, h: HandleAction)
    requires HandleMay(s, h) && HandleStep(s, h).Ok? && s.hold.promises == s.hold.copying == 0
    ensures BreakerKept(s, HandleStep(s, h).s)
  {
  }

  lemma {:induction false} ContinuationKeepsBreaker(s: State)
    requires ContinuationStep(s).Ok? && (s.ctl.consumer.CCas2? ==> s.ctl.consumer.seen.OnlyResult? && s.fs.phase.OnlyResult?)
    ensures BreakerKept(s, ContinuationStep(s).s)
  {
  }

  lemma {:induction false} BreakerFacts(s: State)
    requires Inv(s) && s.ctl.breaker.BCheck?
    ensures s.ctl.producer.PIdle? && s.hold.promises == s.hold.copying == 0
  {
  }

  lemma {:induction false} OthersLeaveBreaker(s: State, a: Action)
    requires Inv(s) && Enabled(s, a) && !a.BreakerChecks? && s.ctl.breaker.BCheck? && Next(s, a).Ok?
    ensures BreakerKept(s, Next(s, a).s)
  {
    BreakerFacts(s);
    InvFacts(s);
    hide Inv, SchedMove, ContinuationStep, ExecutorStep, HandleStep;
    match a
    case ConsumerMoves(choice) =>
      if s.ctl.consumer.CSched? { SchedKeepsBreaker(s, Consumer, s.ctl.consumer.at, choice); } else { ContinuationKeepsBreaker(s); }
    case ExecutorMoves(x) => ExecutorKeepsBreaker(s, x);
    case HandleMoves(h) => HandlesKeepBreaker(s, h);
    case _ =>
  }

  predicate InSchedule(ctl: Threads, me: Party) {
    if me.Producer? then ctl.producer.PSched? else ctl.consumer.CSched?
  }

  /** Only one of the two parties schedules. */
  lemma {:induction false} OneSchedules(s: State)
    requires Inv(s)
    ensures !(s.ctl.producer.PSched? && s.ctl.consumer.CSched?)
  {
    hide Schedule, PromisesCounted, Counters, ExecutorKnown;
  }

  lemma {:induction false} OwnStepsLeaveJob(s: State)
    ensures ResultStep(s).Ok? ==> ResultStep(s).s.exec == s.exec
    ensures ContinuationStep(s).Ok? ==> ContinuationStep(s).s.exec == s.exec
  {
  }

  lemma {:induction false} RestLeavesJob(s: State, x: ExecutorAction)
    requires ExecutorMay(s.exec, x) && ExecutorStep(s, x).Ok?
    ensures ExecutorStep(s, x).s.exec.job == s.exec.job
  {
  }

  lemma {:induction false} HandlesLeaveJob(s: State, h: HandleAction)
    requires HandleMay(s, h) && HandleStep(s, h).Ok?
    ensures HandleStep(s, h).s.exec == s.exec
  {
  }

  /** Nobody but the scheduling thread gives the job away. */
  lemma {:induction false} OthersLeaveJob(s: State, a: Action, me: Party)
    requires Inv(s) && Enabled(s, a) && ByOthers(me, a) && InSchedule(s.ctl, me) && Next(s, a).Ok?
    ensures Next(s, a).s.exec.job == s.exec.job
  {
    OneSchedules(s);
    hide Inv, SchedMove, ExecutorStep, HandleStep, ResultStep, ContinuationStep;
    match a
    case ProducerMoves(_) => OwnStepsLeaveJob(s);
    case ConsumerMoves(_) => OwnStepsLeaveJob(s);
    case ExecutorMoves(x) => RestLeavesJob(s, x);
    case HandleMoves(h) => HandlesLeaveJob(s, h);
    case _ =>
  }

  /** SetResult's own steps keep the invariant and attach nothing. */
  lemma {:induction false} ResultIsSound(s: State)
    requires Inv(s) && !s.ctl.producer.PIdle? && !s.ctl.producer.PSched?
    ensures ResultStep(s).Ok? && Holders(ResultStep(s).s) == Holders(s) && Inv(ResultStep(s).s)
  {
    assert Holders(s) <= 255;
    hide Protocol, PromisesCounted, Counters, Holders, ResultStep;
    ActorsHoldTheState(s, ProducerMoves(false));
    ResultKeepsProtocol(s);
    ResultAttachesNothing(s);
    ResultKeepsPromises(s);
    ResultKeepsCounters(s);
  }

  lemma {:induction false} ResultAttachesNothing(s: State)
    requires !s.ctl.producer.PSched? && ResultStep(s).Ok?
    ensures Holders(ResultStep(s).s) == Holders(s)
  {
  }

  lemma {:induction false} ContinuationIsSound(s: State)
    requires Inv(s) && !s.ctl.consumer.CIdle? && !s.ctl.consumer.CSched?
    ensures ContinuationStep(s).Ok? && Holders(ContinuationStep(s).s) == Holders(s) && Inv(ContinuationStep(s).s)
  {
    assert Holders(s) <= 255;
    hide Protocol, PromisesCounted, Counters, Holders, ContinuationStep;
    ActorsHoldTheState(s, ConsumerMoves(false));
    ContinuationKeepsProtocol(s);
    ContinuationAttachesNothing(s);
    ContinuationKeepsPromises(s);
    ContinuationKeepsCounters(s);
  }

  lemma {:induction false} ContinuationAttachesNothing(s: State)
    requires !s.ctl.consumer.CSched? && ContinuationStep(s).Ok?
    ensures Holders(ContinuationStep(s).s) == Holders(s)
  {
  }

  predicate AttachesAt(at: SchedPc) {
    at.Attach? || at.FirstAttach? || at.SecondAttach?
  }

  lemma {:induction false} SchedAttaches(s: State, who: Party, at: SchedPc, choice: bool)
    requires InSched(s, who, at) && SchedMove(s, who, at, choice).Ok?
    ensures Holders(SchedMove(s, who, at, choice).s) <= Holders(s) + if AttachesAt(at) then 1 else 0
  {
  }

  lemma {:induction false} SchedMoveIsSound(s: State, who: Party, at: SchedPc, choice: bool)
    requires Inv(s) && InSched(s, who, at) && Holders(s) <= 254
    requires at.AwaitAnswer? ==> AnswerAllowed(s.exec, choice)
    ensures SchedMove(s, who, at, choice).Ok? && Inv(SchedMove(s, who, at, choice).s)
    ensures Holders(SchedMove(s, who, at, choice).s) <= Holders(s) + if AttachesAt(at) then 1 else 0
  {
    hide Inv, Holders, SchedMove;
    ActorsHoldTheState(s, if who.Producer? then ProducerMoves(choice) else ConsumerMoves(choice));
    SchedIsSound(s, who, at, choice);
    SchedAttaches(s, who, at, choice);
  }

  /** The straight-line part of ScheduleContinuation. */
  predicate Follows(at: SchedPc, next: SchedPc) {
    match at
    case Attach => next == Ref
    case Ref => next == Call
    case Call => next == Calling
    case Calling => next == Deref
    case Deref | Release => next == LastDetach
    case FirstAttach => next == FirstRef
    case FirstRef => next == SecondAttach
    case SecondAttach => next == SecondRef
    case SecondRef => next == Submit
    case Submit => next == AwaitAnswer
    case FallbackCall => next == FallbackCalling
    case FallbackCalling => next == Release
    case LastDetach => next == NoSched
    case _ => false
  }

  /** Where one operation of the scheduling thread leads, and what it leaves alone. */
  lemma {:induction false} SchedSummary(s: State, who: Party, at: SchedPc, choice: bool)
    requires InSched(s, who, at) && SchedMove(s, who, at, choice).Ok?
    ensures SchedStep(s, at, who.Consumer?, choice).Go?
    ensures var s1, next := SchedMove(s, who, at, choice).s, SchedStep(s, at, who.Consumer?, choice).at;
      && (if next.NoSched? then !InOperation(s1.ctl, who) else InSched(s1, who, next))
      && s1.log.stored == s.log.stored && s1.log.installed == s.log.installed && s1.fs.phase == s.fs.phase
      && s1.hold.futures == s.hold.futures
      && (forall n :: Follows(at, n) ==> next == n)
      && (if who.Producer? && next.NoSched? && s.ctl.breaker.BSetting? then s1.hold.dying > 0 else s1.ctl.breaker == s.ctl.breaker)
      && (at.Decide? ==> next.Attach? || next.FirstAttach?)
      && (at.Decide? ==> s1.fs == s.fs)
      && (!at.Submit? && !at.AwaitAnswer? ==> s1.exec.job == s.exec.job)
      && (at.AwaitAnswer? ==> if choice then s1.exec.job.Accepted? else s1.exec.job.Rejected?)
      && (at.AwaitAnswer? ==> next == if choice then Release else FallbackCall)
  {
  }

  lemma {:induction false} NothingGivenAway(s: State, who: Party)
    requires Inv(s) && InSched(s, who, Decide)
    ensures s.exec.job.NotSubmitted?
  {
    hide PromisesCounted, Counters, ExecutorKnown;
  }

  /** What a scheduling thread reads at line 214: force_scheduled, executor_ and CurrentThreadInExecutor(). */
  datatype Deciding = Deciding(forced: bool, executor: Option<nat>, inExecutor: bool)
  {
    /** A thread that was not told to queue calls the continuation itself if there is no executor, if it is the one that
        installed it, or if it is the executor's. */
    predicate AtOnce(who: Party) {
      !forced && (executor.None? || who.Consumer? || inExecutor)
    }
  }

  lemma {:induction false} StoredFacts(s: State)
    requires Inv(s) && HasResult(s.fs.phase)
    ensures |s.log.stored| == 1 && s.fs.tryValue == s.log.stored[0].v
  {
  }

  lemma {:induction false} InstalledFacts(s: State)
    requires Inv(s) && HasContinuation(s.fs.phase)
    ensures |s.log.installed| == 1
  {
  }

  lemma {:induction false} HandleIsSound(s: State, h: HandleAction)
    requires Inv(s) && HandleMay(s, h) && Holders(s) <= 254 && h != SetExecutor(None)
    ensures HandleStep(s, h).Ok? && Inv(HandleStep(s, h).s)
    ensures h.CopyPromise? || h.DropPromise? ==> Holders(HandleStep(s, h).s) == Holders(s)
    ensures h.DetachDying? ==> Holders(HandleStep(s, h).s) < Holders(s)
  {
    HandlesAttach(s, h);
    hide Inv, Holders, HandleStep;
    ActorsHoldTheState(s, HandleMoves(h));
    HandlesAreSound(s, h);
  }

  lemma {:induction false} HandlesAttach(s: State, h: HandleAction)
    requires PromisesCounted(s) && HandleMay(s, h) && HandleStep(s, h).Ok?
    ensures Holders(HandleStep(s, h).s) <= Holders(s) + 1
    ensures h.CopyPromise? || h.DropPromise? ==> Holders(HandleStep(s, h).s) == Holders(s)
    ensures h.DetachDying? ==> Holders(HandleStep(s, h).s) < Holders(s)
  {
  }

  lemma {:induction false} AttachedFact(s: State)
    requires Inv(s) && s.hold.dying > 0
    ensures s.fs.attached > 0
  {
  }

  lemma {:induction false} BreakerHolds(s: State)
    requires PromisesCounted(s) && s.ctl.breaker.BCheck? && s.log.freed == 0
    ensures Holders(Next(s, BreakerChecks).s) == Holders(s)
  {
  }

  lemma {:induction false} BreakFacts(s: State)
    requires Inv(s) && s.ctl.breaker.BCheck? && !HasResult(s.fs.phase)
    ensures s.log.stored == []
  {
    hide Schedule, Counters, ExecutorKnown;
  }

  lemma {:induction false} BreakerIsSound(s: State)
    requires Inv(s) && s.ctl.breaker.BCheck? && Holders(s) <= 254
    ensures s.log.freed == 0 && Inv(Next(s, BreakerChecks).s) && Holders(Next(s, BreakerChecks).s) == Holders(s)
    ensures !HasResult(s.fs.phase) ==> s.log.stored == []
  {
    assert PromisesCounted(s);
    hide Inv, PromisesCounted, Holders;
    StepKeepsInv(s, BreakerChecks);
    ActorsHoldTheState(s, BreakerChecks);
    BreakerHolds(s);
    if !HasResult(s.fs.phase) { BreakFacts(s); }
  }

  lemma {:induction false} BeginningIsSound(s: State, a: Action)
    requires Inv(s) && Enabled(s, a) && Holders(s) <= 254 && (a.BeginSetResult? || a.BeginSetContinuation?)
    ensures s.log.freed == 0 && Next(s, a).Ok? && Inv(Next(s, a).s) && Holders(Next(s, a).s) == Holders(s)
  {
    hide Inv, Holders;
    ActorsHoldTheState(s, a);
    BeginningAttachesNothing(s, a);
    StepKeepsInv(s, a);
  }

  lemma {:induction false} BeginningAttachesNothing(s: State, a: Action)
    requires Enabled(s, a) && s.log.freed == 0 && (a.BeginSetResult? || a.BeginSetContinuation?)
    ensures Next(s, a).Ok? && Holders(Next(s, a).s) == Holders(s)
  {
  }

  class FutureState {
    var state_: Phase
    var attached_: nat
    var continuation_ref_: nat
    var promise_ref_: nat
    var force_scheduled: bool
    var try_value_: Try<int>
    var continuation_: Slot
    var executor_: Option<nat>
    var context_: Option<nat>
    // the world around the object
    var ctl: Threads
    var hold: Handles
    var exec: Work
    var log: History

    function Abs(): State
      reads this
    {
      State(Fields(state_, attached_, continuation_ref_, promise_ref_, force_scheduled, try_value_, continuation_, executor_, context_),
            ctl, hold, exec, log)
    }

    ghost predicate Valid()
      reads this
    {
      Inv(Abs())
    }

    /** `Promise()`: `new FutureState` and AttachPromise. */
    constructor ()
      ensures Abs() == INITIAL
    {
      state_, attached_, continuation_ref_, promise_ref_ := Start, 1, 0, 1;
      force_scheduled, try_value_, continuation_, executor_, context_ := false, Nothing, Raw, None, None;
      ctl, hold, exec, log := INITIAL.ctl, INITIAL.hold, INITIAL.exec, INITIAL.log;
    }

    method Become(s: State)
      modifies this
      ensures Abs() == s
    {
      state_, attached_, continuation_ref_, promise_ref_ := s.fs.phase, s.fs.attached, s.fs.continuationRef, s.fs.promiseRef;
      force_scheduled, try_value_, continuation_, executor_, context_ :=
        s.fs.forced, s.fs.tryValue, s.fs.continuation, s.fs.executor, s.fs.context;
      ctl, hold, exec, log := s.ctl, s.hold, s.exec, s.log;
    }

    /** What the thread of `me`, inside its operation, can rely on while others move. */
    twostate predicate Undisturbed(me: Party)
      reads this
    {
      && Untouched(old(Abs()), Abs(), me)
      && Holders(Abs()) <= if old(Holders(Abs())) < ROOM then ROOM else old(Holders(Abs()))
    }

    /** Any number of steps of everybody else. */
    method Interfere(me: Party)
      requires Valid() && Holders(Abs()) <= 254 && InOperation(ctl, me)
      modifies this
      ensures Valid() && InOperation(ctl, me) && Undisturbed(me)
      ensures old(InSchedule(ctl, me)) ==> exec.job == old(exec.job)
    {
      var n: nat := *;
      while n > 0
        invariant Valid() && InOperation(ctl, me) && Undisturbed(me)
        invariant old(InSchedule(ctl, me)) ==> exec.job == old(exec.job)
      {
        n := n - 1;
        var a: Action := *;
        var s := Abs();
        if Enabled(s, a) && Careful(s, a) && ByOthers(me, a) {
          StepKeepsInv(s, a);
          var next := Next(s, a).s;
          if Holders(next) <= Holders(s) || Holders(next) <= ROOM {
            InvFacts(s);
            OthersLeaveMe(s, a, me);
            if InSchedule(s.ctl, me) { OthersLeaveJob(s, a, me); }
            Become(next);
          }
        }
      }
    }

    // -------------------------------------------------------------- reference counting and the call

    method AttachOne()
      modifies this
      ensures Abs() == FutureStateMachine.AttachOne(old(Abs()))
    {
      attached_ := Wrapped(attached_);
    }

    /** `delete this` is recorded in `log.freed`. */
    method DetachOne()
      requires attached_ >= 1
      modifies this
      ensures Ok(Abs()) == FutureStateMachine.DetachOne(old(Abs()))
    {
      var old_count := attached_;
      attached_ := attached_ - 1;
      if old_count == 1 {
        log := log.(freed := log.freed + 1);
      }
    }

    method RefContinuation()
      modifies this
      ensures Abs() == FutureStateMachine.RefContinuation(old(Abs()))
    {
      continuation_ref_ := Wrapped(continuation_ref_);
    }

    method DerefContinuation()
      requires continuation_ref_ >= 1
      requires continuation_ref_ == 1 ==> continuation_.Live? && log.running == 0
      modifies this
      ensures Ok(Abs()) == FutureStateMachine.DerefContinuation(old(Abs()))
    {
      var old_count := continuation_ref_;
      continuation_ref_ := continuation_ref_ - 1;
      if old_count == 1 {
        continuation_ := Dead(continuation_.id);
        log := log.(destroyed := log.destroyed + 1);
      }
    }

    method BeginCall()
      requires continuation_.Live?
      modifies this
      ensures Ok(Abs()) == FutureStateMachine.BeginCall(old(Abs()))
    {
      log := log.(invoked := log.invoked + [try_value_], running := log.running + 1);
    }

    method EndCall()
      modifies this
      ensures Abs() == FutureStateMachine.EndCall(old(Abs()))
    {
      log := log.(running := if log.running > 0 then log.running - 1 else 0);
    }

    /** Leaves SetResult; inside the last ~Promise only DetachOne is left then. */
    method ReturnFromSetResult()
      modifies this
      ensures Abs() == ProducerReturns(old(Abs()))
    {
      if ctl.breaker.BSetting? {
        hold := hold.(dying := hold.dying + 1);
        ctl := ctl.(producer := PIdle, breaker := BNone);
      } else {
        ctl := ctl.(producer := PIdle);
      }
    }

    // -------------------------------------------------------------- ScheduleContinuation

    method Arrive(who: Party, at: SchedPc)
      modifies this
      ensures Abs() == FutureStateMachine.Arrive(old(Abs()), who, at)
    {
      if who.Consumer? {
        ctl := ctl.(consumer := if at.NoSched? then CIdle else CSched(at));
      } else if at.NoSched? {
        ReturnFromSetResult();
      } else {
        ctl := ctl.(producer := PSched(at));
      }
    }

    /** One atomic operation of ScheduleContinuation; `choice` is what the executor answers. */
    method Perform(at: SchedPc, trigger_by_continuation: bool, choice: bool) returns (next: SchedPc)
      requires SchedStep(Abs(), at, trigger_by_continuation, choice).Go?
      modifies this
      ensures Go(Abs(), next) == SchedStep(old(Abs()), at, trigger_by_continuation, choice)
    {
      match at
      case NoSched => next := NoSched;
      case Decide =>
        var immediately := !force_scheduled && (executor_.None? || trigger_by_continuation || choice);
        next := if immediately then Attach else FirstAttach;
      case Attach => AttachOne(); next := Ref;
      case Ref => RefContinuation(); next := Call;
      case Call => BeginCall(); next := Calling;
      case Calling => EndCall(); next := Deref;
      case Deref => DerefContinuation(); next := LastDetach;
      case FirstAttach => AttachOne(); next := FirstRef;
      case FirstRef => RefContinuation(); next := SecondAttach;
      case SecondAttach => AttachOne(); next := SecondRef;
      case SecondRef => RefContinuation(); next := Submit;
      case Submit =>
        var how := if context_.None? then BySchedule(executor_.value)
                   else ByCheckin(executor_.value, context_.value, !force_scheduled);
        exec := exec.(job := Offered(how), closures := exec.closures + 1);
        next := AwaitAnswer;
      case AwaitAnswer =>
        exec := exec.(job := if choice then Accepted(exec.job.how) else Rejected(exec.job.how));
        next := if choice then Release else FallbackCall;
      case FallbackCall => BeginCall(); next := FallbackCalling;
      case FallbackCalling => EndCall(); next := Release;
      case Release => DerefContinuation(); next := LastDetach;
      case LastDetach => DetachOne(); next := NoSched;
    }

    method Advance(who: Party, at: SchedPc, choice: bool) returns (next: SchedPc)
      requires Valid() && InSched(Abs(), who, at) && Holders(Abs()) <= 254
      requires at.AwaitAnswer? ==> AnswerAllowed(exec, choice)
      modifies this
      ensures Valid() && Holders(Abs()) <= old(Holders(Abs())) + if AttachesAt(at) then 1 else 0
      ensures Ok(Abs()) == SchedMove(old(Abs()), who, at, choice)
      ensures SchedStep(old(Abs()), at, who.Consumer?, choice).Go?
      ensures next == SchedStep(old(Abs()), at, who.Consumer?, choice).at
    {
      SchedMoveIsSound(Abs(), who, at, choice);
      hide Inv, Holders;
      next := Perform(at, who.Consumer?, choice);
      Arrive(who, next);
    }

    /** The state is Done, with the result and the continuation it had before; a last ~Promise is still at work. */
    twostate predicate StaysDone(who: Party)
      reads this
    {
      state_ == Done && log.stored == old(log.stored) && log.installed == old(log.installed) &&
      (who.Producer? ==> ctl.breaker.BSetting? == old(ctl.breaker.BSetting?))
    }

    /** The thread of `who` has left its operation; the last ~Promise has only DetachOne before it. */
    twostate predicate HasLeft(who: Party)
      reads this
    {
      state_ == Done && log.stored == old(log.stored) && log.installed == old(log.installed) && !InOperation(ctl, who) &&
      (who.Producer? && old(ctl.breaker.BSetting?) ==> hold.dying > 0) &&
      (who.Consumer? ==> hold.futures > 0)
    }

    /** Everybody else moves while the scheduling thread stands at `at`. */
    method Preempted(who: Party, at: SchedPc)
      requires Valid() && InSched(Abs(), who, at) && Holders(Abs()) <= 254
      modifies this
      ensures Valid() && InSched(Abs(), who, at) && StaysDone(who) && exec.job == old(exec.job)
      ensures Holders(Abs()) <= if old(Holders(Abs())) < ROOM then ROOM else old(Holders(Abs()))
    {
      hide Inv, Holders;
      InvFacts(Abs());
      Interfere(who);
      InvFacts(Abs());
    }

    /** Everybody else moves, then the scheduling thread takes the operation `at` and stands at `next`. */
    method Step(who: Party, at: SchedPc, next: SchedPc)
      requires Valid() && InSched(Abs(), who, at) && Holders(Abs()) <= 254 && Follows(at, next)
      modifies this
      ensures Valid() && Holders(Abs()) <= (if old(Holders(Abs())) < ROOM then ROOM else old(Holders(Abs()))) + if AttachesAt(at) then 1 else 0
      ensures if next.NoSched? then HasLeft(who) else InSched(Abs(), who, next) && StaysDone(who)
      ensures !at.Submit? ==> exec.job == old(exec.job)
    {
      hide Inv, Holders;
      Preempted(who, at);
      InvFacts(Abs());
      ghost var s := Abs();
      var arrived := Advance(who, at, false);
      SchedSummary(s, who, at, false);
    }

    /** `if (!force_scheduled && (!executor_ || trigger_by_continuation || CurrentThreadInExecutor()))`. */
    method DecideWhere(who: Party) returns (at: SchedPc, seen: Deciding)
      requires Valid() && InSched(Abs(), who, Decide) && Holders(Abs()) <= ROOM
      modifies this
      ensures Valid() && Holders(Abs()) <= ROOM && StaysDone(who) && exec.job == old(exec.job)
      ensures at == (if seen.AtOnce(who) then Attach else FirstAttach) && InSched(Abs(), who, at)
      ensures seen.forced == force_scheduled && seen.executor == executor_
    {
      hide Inv, Holders;
      Preempted(who, Decide);
      ghost var s := Abs();
      var in_executor: bool := *;  // CurrentThreadInExecutor()
      at := Advance(who, Decide, in_executor);
      SchedSummary(s, who, Decide, in_executor);
      seen := Deciding(force_scheduled, executor_, in_executor);
    }

    /** What Schedule or Checkin returns, within the contract of Executor. */
    method ExecutorAnswers(who: Party) returns (ret: bool)
      requires Valid() && InSched(Abs(), who, AwaitAnswer) && Holders(Abs()) <= 254
      modifies this
      ensures Valid() && Holders(Abs()) <= (if old(Holders(Abs())) < ROOM then ROOM else old(Holders(Abs()))) && StaysDone(who)
      ensures InSched(Abs(), who, if ret then Release else FallbackCall)
      ensures if ret then exec.job.Accepted? else exec.job.Rejected?
    {
      hide Inv, Holders;
      Preempted(who, AwaitAnswer);
      ghost var s := Abs();
      ret := *;
      if !AnswerAllowed(exec, ret) { ret := !ret; }
      var at := Advance(who, AwaitAnswer, ret);
      SchedSummary(s, who, AwaitAnswer, ret);
    }

    method CallUnderGuard(who: Party)
      requires Valid() && InSched(Abs(), who, Attach) && Holders(Abs()) <= ROOM
      modifies this
      ensures Valid() && InSched(Abs(), who, Deref) && StaysDone(who) && Holders(Abs()) <= ROOM + 1 && exec.job == old(exec.job)
    {
      hide Inv, Holders, InSched, InOperation;
      Step(who, Attach, Ref);                  // guard
      Step(who, Ref, Call);
      Step(who, Call, Calling);                // continuation_(std::move(try_value_))
      Step(who, Calling, Deref);
    }

    method RunImmediately(who: Party)
      requires Valid() && InSched(Abs(), who, Attach) && Holders(Abs()) <= ROOM
      modifies this
      ensures Valid() && HasLeft(who) && Holders(Abs()) <= ROOM + 1 && exec.job == old(exec.job)
    {
      hide Inv, Holders, InSched, InOperation;
      CallUnderGuard(who);
      Step(who, Deref, LastDetach);            // ~guard
      Step(who, LastDetach, NoSched);
    }

    method Queue(who: Party) returns (ret: bool)
      requires Valid() && InSched(Abs(), who, FirstAttach) && Holders(Abs()) <= ROOM
      modifies this
      ensures Valid() && InSched(Abs(), who, if ret then Release else FallbackCall) && StaysDone(who) && Holders(Abs()) <= ROOM + 2
      ensures if ret then exec.job.Accepted? else exec.job.Rejected?
    {
      hide Inv, Holders, InSched, InOperation;
      Step(who, FirstAttach, FirstRef);        // guard
      Step(who, FirstRef, SecondAttach);
      Step(who, SecondAttach, SecondRef);      // guard_for_exception
      Step(who, SecondRef, Submit);
      Step(who, Submit, AwaitAnswer);          // Schedule or Checkin
      ret := ExecutorAnswers(who);
    }

    method RunQueued(who: Party)
      requires Valid() && InSched(Abs(), who, FirstAttach) && Holders(Abs()) <= ROOM
      modifies this
      ensures Valid() && InSched(Abs(), who, Release) && StaysDone(who) && Holders(Abs()) <= ROOM + 2
      ensures exec.job.Accepted? || exec.job.Rejected?
    {
      hide Inv, Holders, InSched, InOperation;
      var ret := Queue(who);
      if !ret {
        Step(who, FallbackCall, FallbackCalling);
        Step(who, FallbackCalling, Release);
      }
    }

    method LeaveQueue(who: Party)
      requires Valid() && InSched(Abs(), who, Release) && Holders(Abs()) <= ROOM + 2
      modifies this
      ensures Valid() && HasLeft(who) && Holders(Abs()) <= ROOM + 2 && exec.job == old(exec.job)
    {
      hide Inv, Holders, InSched, InOperation;
      Step(who, Release, LastDetach);          // ~guard_for_exception
      Step(who, LastDetach, NoSched);
    }

    method ScheduleContinuation(who: Party) returns (seen: Deciding)
      requires Valid() && InSched(Abs(), who, Decide) && Holders(Abs()) <= ROOM
      modifies this
      ensures Valid() && HasLeft(who) && Holders(Abs()) <= ROOM + 2
      ensures if seen.AtOnce(who) then exec.job.NotSubmitted? else exec.job.Accepted? || exec.job.Rejected?
    {
      NothingGivenAway(Abs(), who);
      hide Inv, Holders, InSched, InOperation;
      var at;
      at, seen := DecideWhere(who);
      if at.Attach? {
        RunImmediately(who);
      } else {
        RunQueued(who);
        LeaveQueue(who);
      }
    }

    // -------------------------------------------------------------- the atomic operations of SetResult

    method EnterSetResult(v: Try<int>)
      requires Valid() && ctl.producer.PIdle? && hold.promises > 0 && Holders(Abs()) <= 254
      modifies this
      ensures Abs() == old(Abs()).(ctl := ctl.(producer := PCheck(v)), log := log.(setters := old(log.setters) + 1))
      ensures Valid() && Holders(Abs()) == old(Holders(Abs())) && ctl.breaker.BNone? && ctl.producer == PCheck(v)
    {
      hide Inv, Holders;
      ghost var s := Abs();
      BeginningIsSound(s, BeginSetResult(v));
      InvFacts(s);
      ctl := ctl.(producer := PCheck(v));
      log := log.(setters := log.setters + 1);
      assert Abs() == Next(s, BeginSetResult(v)).s;
    }

    /** LOGIC_ASSERT(!HasResult(), ...) */
    method CheckNoResult(v: Try<int>) returns (refused: bool)
      requires Valid() && ctl.producer == PCheck(v)
      modifies this
      ensures Ok(Abs()) == ResultStep(old(Abs())) && Valid() && Holders(Abs()) == old(Holders(Abs()))
      ensures refused == HasResult(state_) && state_ == old(state_)
      ensures if refused then ctl.producer.PIdle? else ctl.producer == PWrite(v)
      ensures if refused && old(ctl.breaker.BSetting?) then hold.dying > 0 else ctl.breaker == old(ctl.breaker)
    {
      hide Inv, Holders;
      ResultIsSound(Abs());
      InvFacts(Abs());
      refused := HasResult(state_);
      if refused { ReturnFromSetResult(); } else { ctl := ctl.(producer := PWrite(v)); }
    }

    method WriteResult(v: Try<int>)
      requires Valid() && ctl.producer == PWrite(v)
      modifies this
      ensures Ok(Abs()) == ResultStep(old(Abs())) && Valid() && Holders(Abs()) == old(Holders(Abs()))
      ensures ctl.producer == PLoad && log.stored == [Stored(v, ctl.breaker.BSetting?)] && ctl.breaker == old(ctl.breaker)
    {
      hide Inv, Holders;
      ResultIsSound(Abs());
      InvFacts(Abs());
      try_value_ := v;
      log := log.(stored := log.stored + [Stored(v, ctl.breaker.BSetting?)]);
      ctl := ctl.(producer := PLoad);
    }

    method LoadInSetResult() returns (state: Phase)
      requires Valid() && ctl.producer == PLoad
      modifies this
      ensures Ok(Abs()) == ResultStep(old(Abs())) && Valid() && Holders(Abs()) == old(Holders(Abs()))
      ensures (state == Start || state == OnlyContinuation) && ctl.producer == if state.Start? then PCas1 else PCas2(state)
      ensures log.stored == old(log.stored) && ctl.breaker == old(ctl.breaker)
    {
      hide Inv, Holders;
      ResultIsSound(Abs());
      InvFacts(Abs());
      state := state_;
      ctl := ctl.(producer := if state.Start? then PCas1 else PCas2(state));
    }

    /** compare_exchange_strong(state, kOnlyResult) with state == kStart; a failure writes the seen phase back. */
    method ExchangeForOnlyResult() returns (ok: bool, state: Phase)
      requires Valid() && ctl.producer == PCas1
      modifies this
      ensures Ok(Abs()) == ResultStep(old(Abs())) && Valid() && Holders(Abs()) == old(Holders(Abs()))
      ensures if ok then ctl.producer.PIdle? && state_ == OnlyResult else ctl.producer == PAssert(state)
      ensures log.stored == old(log.stored)
      ensures if ok && old(ctl.breaker.BSetting?) then hold.dying > 0 else ctl.breaker == old(ctl.breaker)
    {
      hide Inv, Holders;
      ResultIsSound(Abs());
      InvFacts(Abs());
      state := state_;
      ok := state.Start?;
      if ok { state_ := OnlyResult; ReturnFromSetResult(); } else { ctl := ctl.(producer := PAssert(state)); }
    }

    method PassAssertInSetResult(state: Phase)
      requires Valid() && ctl.producer == PAssert(state)
      modifies this
      ensures Ok(Abs()) == ResultStep(old(Abs())) && Valid() && Holders(Abs()) == old(Holders(Abs()))
      ensures ctl.producer == PCas2(state) && log.stored == old(log.stored) && ctl.breaker == old(ctl.breaker)
    {
      hide Inv, Holders;
      ResultIsSound(Abs());
      InvFacts(Abs());
      assert state_ == OnlyContinuation;  // ASSERT(state_.load() == kOnlyContinuation)
      ctl := ctl.(producer := PCas2(state));
    }

    /** compare_exchange_strong(state, kDone). */
    method ExchangeForDoneByResult(state: Phase) returns (ok: bool)
      requires Valid() && ctl.producer == PCas2(state)
      modifies this
      ensures Ok(Abs()) == ResultStep(old(Abs())) && Valid() && Holders(Abs()) == old(Holders(Abs()))
      ensures ok && ctl.producer == PSched(Decide) && log.stored == old(log.stored) && ctl.breaker == old(ctl.breaker)
    {
      hide Inv, Holders;
      ResultIsSound(Abs());
      InvFacts(Abs());
      ok := state_ == state;
      state_ := Done;
      log := log.(scheduledBy := log.scheduledBy + [Producer]);
      ctl := ctl.(producer := PSched(Decide));
    }

    // -------------------------------------------------------------- and of SetContinuation

    method EnterSetContinuation(k: nat)
      requires Valid() && ctl.consumer.CIdle? && hold.futures > 0 && Holders(Abs()) <= 254
      modifies this
      ensures Abs() == old(Abs()).(ctl := ctl.(consumer := CCheck(k)))
      ensures Valid() && Holders(Abs()) == old(Holders(Abs())) && ctl.consumer == CCheck(k)
    {
      hide Inv, Holders;
      ghost var s := Abs();
      BeginningIsSound(s, BeginSetContinuation(k));
      ctl := ctl.(consumer := CCheck(k));
      assert Abs() == Next(s, BeginSetContinuation(k)).s;
    }

    /** LOGIC_ASSERT(!HasContinuation(), ...) */
    method CheckNoContinuation(k: nat) returns (refused: bool)
      requires Valid() && ctl.consumer == CCheck(k)
      modifies this
      ensures Ok(Abs()) == ContinuationStep(old(Abs())) && Valid() && Holders(Abs()) == old(Holders(Abs()))
      ensures refused == HasContinuation(state_) && state_ == old(state_) && hold == old(hold) && hold.futures > 0
      ensures ctl.consumer == if refused then CIdle else CWrite(k)
    {
      hide Inv, Holders;
      ContinuationIsSound(Abs());
      InvFacts(Abs());
      refused := HasContinuation(state_);
      ctl := ctl.(consumer := if refused then CIdle else CWrite(k));
    }

    /** new(&continuation_) Continuation(...) */
    method ConstructContinuation(k: nat)
      requires Valid() && ctl.consumer == CWrite(k)
      modifies this
      ensures Ok(Abs()) == ContinuationStep(old(Abs())) && Valid() && Holders(Abs()) == old(Holders(Abs()))
      ensures ctl.consumer == CLoad && log.installed == [k]
    {
      hide Inv, Holders;
      ContinuationIsSound(Abs());
      InvFacts(Abs());
      continuation_ := Live(k);
      log := log.(installed := log.installed + [k]);
      ctl := ctl.(consumer := CLoad);
    }

    method LoadInSetContinuation() returns (state: Phase)
      requires Valid() && ctl.consumer == CLoad
      modifies this
      ensures Ok(Abs()) == ContinuationStep(old(Abs())) && Valid() && Holders(Abs()) == old(Holders(Abs()))
      ensures (state == Start || state == OnlyResult) && ctl.consumer == (if state.Start? then CCas1 else CCas2(state)) && log.installed == old(log.installed)
    {
      hide Inv, Holders;
      ContinuationIsSound(Abs());
      InvFacts(Abs());
      state := state_;
      ctl := ctl.(consumer := if state.Start? then CCas1 else CCas2(state));
    }

    method ExchangeForOnlyContinuation() returns (ok: bool, state: Phase)
      requires Valid() && ctl.consumer == CCas1
      modifies this
      ensures Ok(Abs()) == ContinuationStep(old(Abs())) && Valid() && Holders(Abs()) == old(Holders(Abs()))
      ensures if ok then ctl.consumer.CIdle? && state_ == OnlyContinuation else ctl.consumer == CAssert(state)
      ensures hold.futures > 0
      ensures log.installed == old(log.installed)
    {
      hide Inv, Holders;
      ContinuationIsSound(Abs());
      InvFacts(Abs());
      state := state_;
      ok := state.Start?;
      if ok { state_ := OnlyContinuation; ctl := ctl.(consumer := CIdle); } else { ctl := ctl.(consumer := CAssert(state)); }
    }

    method PassAssertInSetContinuation(state: Phase)
      requires Valid() && ctl.consumer == CAssert(state)
      modifies this
      ensures Ok(Abs()) == ContinuationStep(old(Abs())) && Valid() && Holders(Abs()) == old(Holders(Abs()))
      ensures ctl.consumer == CCas2(state) && log.installed == old(log.installed)
    {
      hide Inv, Holders;
      ContinuationIsSound(Abs());
      InvFacts(Abs());
      assert state_ == OnlyResult;  // ASSERT(state_.load() == kOnlyResult)
      ctl := ctl.(consumer := CCas2(state));
    }

    method ExchangeForDoneByContinuation(state: Phase) returns (ok: bool)
      requires Valid() && ctl.consumer == CCas2(state)
      modifies this
      ensures Ok(Abs()) == ContinuationStep(old(Abs())) && Valid() && Holders(Abs()) == old(Holders(Abs()))
      ensures ok && ctl.consumer == CSched(Decide) && log.installed == old(log.installed)
    {
      hide Inv, Holders;
      ContinuationIsSound(Abs());
      InvFacts(Abs());
      ok := state_ == state;
      state_ := Done;
      log := log.(scheduledBy := log.scheduledBy + [Consumer]);
      ctl := ctl.(consumer := CSched(Decide));
    }

    // -------------------------------------------------------------- SetResult and SetContinuation

    /** Everybody else moves while the producer stands before the operation `pc`. */
    method PreemptedProducer(pc: ProducerPc)
      requires Valid() && ctl.producer == pc && !pc.PIdle? && Holders(Abs()) <= ROOM
      modifies this
      ensures Valid() && ctl.producer == pc && Holders(Abs()) <= ROOM
      ensures ctl.breaker.BSetting? == old(ctl.breaker.BSetting?)
      ensures |old(log.stored)| == 1 ==> log.stored == old(log.stored)
      ensures HasResult(state_) <==> old(HasResult(state_))
    {
      hide Inv, Holders;
      Interfere(Producer);
      InvFacts(Abs());
    }

    method PreemptedConsumer(pc: ConsumerPc)
      requires Valid() && ctl.consumer == pc && !pc.CIdle? && Holders(Abs()) <= ROOM
      modifies this
      ensures Valid() && ctl.consumer == pc && Holders(Abs()) <= ROOM
      ensures |old(log.installed)| == 1 ==> log.installed == old(log.installed)
      ensures HasContinuation(state_) <==> old(HasContinuation(state_))
    {
      hide Inv, Holders;
      Interfere(Consumer);
      InvFacts(Abs());
    }

    /** SetResult from its first check on, for a promise or for the last ~Promise. The two switch cases fall through into each
        other as in the source; the final LOGIC_ASSERT is unreachable. */
    method SetResultBody(v: Try<int>) returns (refused: bool)
      requires Valid() && Holders(Abs()) <= ROOM && ctl.producer == PCheck(v)
      modifies this
      ensures Valid() && ctl.producer.PIdle? && HasResult(state_) && Holders(Abs()) <= ROOM + 2
      ensures refused <==> old(HasResult(state_))
      ensures !refused ==> log.stored == [Stored(v, old(ctl.breaker.BSetting?))]
      ensures old(ctl.breaker.BSetting?) ==> hold.dying > 0
    {
      hide Inv, Holders, ResultStep;
      PreemptedProducer(PCheck(v));
      refused := CheckNoResult(v);
      if refused { return; }
      PreemptedProducer(PWrite(v));
      WriteResult(v);
      PreemptedProducer(PLoad);
      var state := LoadInSetResult();
      if state.Start? {
        PreemptedProducer(PCas1);
        var ok;
        ok, state := ExchangeForOnlyResult();
        if ok { return; }
        PreemptedProducer(PAssert(state));
        PassAssertInSetResult(state);
      }
      PreemptedProducer(PCas2(state));
      var done := ExchangeForDoneByResult(state);
      var seen := ScheduleContinuation(Producer);
    }

    /** `Promise::SetValue` and `Promise::SetException`: exactly one result is stored, and by this call unless it is refused. */
    method SetResult(v: Try<int>) returns (refused: bool)
      requires Valid() && Holders(Abs()) <= ROOM && ctl.producer.PIdle? && hold.promises > 0
      modifies this
      ensures Valid() && ctl.producer.PIdle? && HasResult(state_) && |log.stored| == 1
      ensures refused <==> old(HasResult(state_))
      ensures !refused ==> log.stored == [Stored(v, false)] && try_value_ == v
    {
      hide Inv, Holders;
      EnterSetResult(v);
      refused := SetResultBody(v);
      StoredFacts(Abs());
    }

    method SetContinuation(k: nat) returns (refused: bool)
      requires Valid() && Holders(Abs()) <= ROOM && ctl.consumer.CIdle? && hold.futures > 0
      modifies this
      ensures Valid() && ctl.consumer.CIdle? && HasContinuation(state_) && |log.installed| == 1
      ensures hold.futures > 0 && Holders(Abs()) <= ROOM + 2
      ensures refused <==> old(HasContinuation(state_))
      ensures !refused ==> log.installed == [k]
    {
      hide Inv, Holders, ContinuationStep;
      EnterSetContinuation(k);
      PreemptedConsumer(CCheck(k));
      refused := CheckNoContinuation(k);
      if refused { InstalledFacts(Abs()); return; }
      PreemptedConsumer(CWrite(k));
      ConstructContinuation(k);
      PreemptedConsumer(CLoad);
      var state := LoadInSetContinuation();
      if state.Start? {
        PreemptedConsumer(CCas1);
        var ok;
        ok, state := ExchangeForOnlyContinuation();
        if ok { return; }
        PreemptedConsumer(CAssert(state));
        PassAssertInSetContinuation(state);
      }
      PreemptedConsumer(CCas2(state));
      var done := ExchangeForDoneByContinuation(state);
      var seen := ScheduleContinuation(Consumer);
    }

    // -------------------------------------------------------------- handles

    /** One operation on a handle, done by `Take` on the fields, is one step of the machine. */
    ghost predicate May(h: HandleAction)
      reads this
    {
      Valid() && HandleMay(Abs(), h) && Holders(Abs()) <= 254 && h != SetExecutor(None)
    }

    twostate predicate Did(h: HandleAction)
      reads this
    {
      Valid() && HandleMay(old(Abs()), h) && Ok(Abs()) == HandleStep(old(Abs()), h)
    }

    method CountPromiseUp()
      requires May(CopyPromise)
      modifies this
      ensures Did(CopyPromise) && Holders(Abs()) == old(Holders(Abs()))
    {
      hide Inv, Holders;
      HandleIsSound(Abs(), CopyPromise);
      promise_ref_ := promise_ref_ + 1;
      hold := hold.(copying := hold.copying + 1);
    }

    method AttachCopy()
      requires May(CopyPromiseAttach)
      modifies this
      ensures Did(CopyPromiseAttach)
    {
      hide Inv, Holders;
      HandleIsSound(Abs(), CopyPromiseAttach);
      AttachOne();
      hold := hold.(copying := hold.copying - 1, promises := hold.promises + 1);
    }

    /** promise_ref_.fetch_sub(1) with its ASSERT(old >= 1). */
    method CountPromiseDown() returns (last: bool)
      requires May(DropPromise)
      modifies this
      ensures Did(DropPromise) && Holders(Abs()) == old(Holders(Abs())) && last == (old(promise_ref_) == 1)
    {
      hide Inv, Holders;
      HandleIsSound(Abs(), DropPromise);
      assert promise_ref_ >= 1;
      last := promise_ref_ == 1;
      promise_ref_ := promise_ref_ - 1;
      hold := hold.(promises := hold.promises - 1, dying := if last then hold.dying else hold.dying + 1);
      if last { ctl := ctl.(breaker := BCheck); }
    }

    method DetachDyingPromise()
      requires May(DetachDying)
      modifies this
      ensures Did(DetachDying) && Holders(Abs()) < old(Holders(Abs()))
    {
      hide Inv, Holders;
      HandleIsSound(Abs(), DetachDying);
      AttachedFact(Abs());
      hold := hold.(dying := hold.dying - 1);
      DetachOne();
    }

    /** `if (!HasResult() && old == 1)`. */
    /** Everybody else moves between the two. */
    method PreemptedBreaker()
      requires Valid() && ctl.breaker.BCheck? && Holders(Abs()) <= ROOM
      modifies this
      ensures Valid() && Holders(Abs()) <= ROOM && BreakerKept(old(Abs()), Abs())
    {
      hide Inv, Holders;
      var n: nat := *;
      while n > 0
        invariant Valid() && Holders(Abs()) <= ROOM && BreakerKept(old(Abs()), Abs())
      {
        n := n - 1;
        var a: Action := *;
        var s := Abs();
        if Enabled(s, a) && Careful(s, a) && !a.BreakerChecks? {
          StepKeepsInv(s, a);
          var next := Next(s, a).s;
          if Holders(next) <= ROOM {
            OthersLeaveBreaker(s, a);
            Become(next);
          }
        }
      }
    }

    method CheckBroken() returns (broken: bool)
      requires Valid() && ctl.breaker.BCheck? && Holders(Abs()) <= 254
      modifies this
      ensures Valid() && Holders(Abs()) == old(Holders(Abs())) && broken == !HasResult(state_)
      ensures state_ == old(state_) && log == old(log) && promise_ref_ == old(promise_ref_) && try_value_ == old(try_value_)
      ensures if broken then ctl.producer == PCheck(BROKEN) && ctl.breaker.BSetting? && log.stored == [] else hold.dying > 0 && ctl.breaker.BNone?
    {
      hide Inv, Holders;
      ghost var s := Abs();
      BreakerIsSound(s);
      broken := !HasResult(state_);
      if broken {
        ctl := ctl.(breaker := BSetting, producer := PCheck(BROKEN));
      } else {
        ctl := ctl.(breaker := BNone);
        hold := hold.(dying := hold.dying + 1);
      }
      assert Abs() == Next(s, BreakerChecks).s;
    }

    /** A second handle on this state, as the copy constructor of Promise makes it. */
    method AttachPromise()
      requires Valid() && hold.promises > 0 && Holders(Abs()) <= 254
      modifies this
      ensures Valid() && hold == old(hold).(promises := old(hold.promises) + 1) && ctl == old(ctl) && log == old(log)
      ensures promise_ref_ == old(promise_ref_) + 1 && attached_ == Wrapped(old(attached_)) && state_ == old(state_)
    {
      hide Inv, Holders;
      CountPromiseUp();
      AttachCopy();
    }

    /** ~Promise. The last handle leaves a result behind: the broken-promise exception if nobody stored one. */
    method DetachPromise()
      requires Valid() && PromiseUnused(Abs()) && Holders(Abs()) <= ROOM
      modifies this
      ensures Valid() && Holders(Abs()) <= 254
      ensures old(promise_ref_) > 1 ==> hold == old(hold).(promises := old(hold.promises) - 1) && promise_ref_ == old(promise_ref_) - 1
      ensures old(promise_ref_) > 1 ==> state_ == old(state_) && log.stored == old(log.stored)
      ensures old(promise_ref_) == 1 ==> HasResult(state_)
      ensures old(promise_ref_) == 1 && old(HasResult(state_)) ==> log.stored == old(log.stored) && try_value_ == old(try_value_)
      ensures old(promise_ref_) == 1 && !old(HasResult(state_)) ==>
        log.stored == [Stored(Exception(BrokenPromise), true)] && try_value_ == Exception(BrokenPromise)
    {
      hide Inv, Holders;
      var last := CountPromiseDown();
      if last {
        PreemptedBreaker();
        var broken := CheckBroken();
        if broken {
          var refused := SetResultBody(BROKEN);
          StoredFacts(Abs());
        }
      }
      DetachDyingPromise();
    }
  }
}
