/** The two hypotheses of the safety results, and exactly what happens without them. */
module FutureStateLimits {
  import opened TryModel
  import opened FutureStateMachine
  import opened FutureStateProofs
  import opened FutureStateTheorems
  import opened FutureStateObject

  // ---------------------------------------------------------------- more than 255 attachments

  /** The 8-bit counter is the number of holders modulo 256. */
  predicate Congruent(s: State) {
    s.fs.attached == Holders(s) % 256
  }

  /** As much of the bookkeeping of promise_ref_ as the last ~Promise needs. */
  predicate PromisesTallied(s: State) {
    && s.fs.promiseRef == s.hold.promises + s.hold.copying + s.hold.abandonedPromises
    && (!s.ctl.breaker.BNone? ==> s.fs.promiseRef == 0)
    && (s.ctl.breaker.BCheck? ==> s.ctl.producer.PIdle?)
    && (s.hold.copying > 0 ==> s.hold.promises > 0)
  }

  /** A step that gives up one attachment. */
  predicate Detaches(s: State, a: Action) {
    match a
    case ProducerMoves(_) => s.ctl.producer == PSched(LastDetach)
    case ConsumerMoves(_) => s.ctl.consumer == CSched(LastDetach)
    case ExecutorMoves(x) => x.DropClosureDetach?
    case HandleMoves(h) => h.DropFuture? || h.DetachDying?
    case _ => false
  }

  /** What a step does to the holders and to the counter. */
  predicate Recounts(s: State, c: Config, detaches: bool) {
    if detaches then
      && Holders(s) > 0
      && (c == Crashed(AssertFailed) <==> s.fs.attached == 0)
      && (c.Crashed? ==> c == Crashed(AssertFailed))
      && (c.Ok? ==> Holders(c.s) == Holders(s) - 1 && c.s.fs.attached == s.fs.attached - 1)
      && (c.Ok? ==> c.s.log.freed == s.log.freed + if s.fs.attached == 1 then 1 else 0)
    else
      c.Ok? ==>
        && c.s.log.freed == s.log.freed
        && ((Holders(c.s) == Holders(s) && c.s.fs.attached == s.fs.attached) ||
            (Holders(c.s) == Holders(s) + 1 && c.s.fs.attached == Wrapped(s.fs.attached)))
  }

  lemma {:induction false} LeavingRecounts(s: State, who: Party, choice: bool)
    requires InSched(s, who, LastDetach)
    ensures Recounts(s, SchedMove(s, who, LastDetach, choice), true)
  {
  }

  lemma {:induction false} CallingRecounts(s: State, who: Party, at: SchedPc, choice: bool)
    requires InSched(s, who, at)
    requires at.Call? || at.Calling? || at.FallbackCall? || at.FallbackCalling? || at.AwaitAnswer?
    ensures Recounts(s, SchedMove(s, who, at, choice), false)
  {
  }

  lemma {:induction false} ReleasingRecounts(s: State, who: Party, at: SchedPc, choice: bool)
    requires InSched(s, who, at) && (at.Deref? || at.Release?)
    ensures Recounts(s, SchedMove(s, who, at, choice), false)
  {
  }

  lemma {:induction false} AttachingRecounts(s: State, who: Party, at: SchedPc, choice: bool)
    requires InSched(s, who, at)
    requires at.NoSched? || at.Decide? || at.Attach? || at.FirstAttach? || at.SecondAttach?
    ensures Recounts(s, SchedMove(s, who, at, choice), false)
  {
  }

  lemma {:induction false} ReferringRecounts(s: State, who: Party, at: SchedPc, choice: bool)
    requires InSched(s, who, at)
    requires at.Ref? || at.FirstRef? || at.SecondRef? || at.Submit?
    ensures Recounts(s, SchedMove(s, who, at, choice), false)
  {
  }

  lemma {:induction false} SchedRecounts(s: State, who: Party, at: SchedPc, choice: bool)
    requires InSched(s, who, at)
    ensures Recounts(s, SchedMove(s, who, at, choice), at.LastDetach?)
  {
    hide Recounts, SchedMove;
    match at
    case LastDetach => LeavingRecounts(s, who, choice);
    case Call | Calling | FallbackCall | FallbackCalling | AwaitAnswer => CallingRecounts(s, who, at, choice);
    case Deref | Release => ReleasingRecounts(s, who, at, choice);
    case Ref | FirstRef | SecondRef | Submit => ReferringRecounts(s, who, at, choice);
    case _ => AttachingRecounts(s, who, at, choice);
  }

  lemma {:induction false} WritingRecounts(s: State)
    requires s.ctl.producer.PCheck? || s.ctl.producer.PWrite? || s.ctl.producer.PLoad?
    ensures Recounts(s, ResultStep(s), false)
  {
  }

  lemma {:induction false} ExchangingRecounts(s: State)
    requires s.ctl.producer.PCas1? || s.ctl.producer.PAssert? || s.ctl.producer.PCas2?
    ensures Recounts(s, ResultStep(s), false)
  {
  }

  lemma {:induction false} ResultRecounts(s: State)
    requires !s.ctl.producer.PSched?
    ensures Recounts(s, ResultStep(s), false)
  {
    match s.ctl.producer
    case PIdle =>
    case PCheck(_) | PWrite(_) | PLoad => hide Recounts; WritingRecounts(s);
    case _ => hide Recounts; ExchangingRecounts(s);
  }

  lemma {:induction false} ContinuationRecounts(s: State)
    requires !s.ctl.consumer.CSched?
    ensures Recounts(s, ContinuationStep(s), false)
  {
  }

  lemma {:induction false} ExecutorRecounts(s: State, x: ExecutorAction)
    requires ExecutorMay(s.exec, x)
    ensures Recounts(s, ExecutorStep(s, x), x.DropClosureDetach?)
  {
  }

  lemma {:induction false} HandlesRecount(s: State, h: HandleAction)
    requires PromisesTallied(s) && HandleMay(s, h)
    ensures Recounts(s, HandleStep(s, h), h.DropFuture? || h.DetachDying?)
  {
  }

  lemma {:induction false} BeginningsRecount(s: State, a: Action)
    requires PromisesTallied(s) && Enabled(s, a) && s.log.freed == 0
    requires a.BeginSetResult? || a.BeginSetContinuation? || a.BreakerChecks?
    ensures Recounts(s, Next(s, a), false)
  {
  }

  lemma {:induction false} StepRecounts(s: State, a: Action)
    requires PromisesTallied(s) && Enabled(s, a) && s.log.freed == 0
    ensures Recounts(s, Next(s, a), Detaches(s, a))
  {
    hide Recounts, PromisesTallied, SchedMove, ResultStep, ContinuationStep, ExecutorStep, HandleStep;
    match a
    case ProducerMoves(choice) =>
      if s.ctl.producer.PSched? { SchedRecounts(s, Producer, s.ctl.producer.at, choice); } else { ResultRecounts(s); }
    case ConsumerMoves(choice) =>
      if s.ctl.consumer.CSched? { SchedRecounts(s, Consumer, s.ctl.consumer.at, choice); } else { ContinuationRecounts(s); }
    case ExecutorMoves(x) => ExecutorRecounts(s, x);
    case HandleMoves(h) => HandlesRecount(s, h);
    case _ => BeginningsRecount(s, a);
  }

  predicate Tallied(c: Config) {
    c.Ok? ==> PromisesTallied(c.s)
  }

  lemma {:induction false} SchedKeepsTally(s: State, who: Party, at: SchedPc, choice: bool)
    requires PromisesTallied(s) && InSched(s, who, at)
    ensures Tallied(SchedMove(s, who, at, choice))
  {
  }

  lemma {:induction false} ResultKeepsTally(s: State)
    requires PromisesTallied(s) && !s.ctl.producer.PSched?
    ensures Tallied(ResultStep(s))
  {
  }

  lemma {:induction false} ExecutorKeepsTally(s: State, x: ExecutorAction)
    requires PromisesTallied(s) && ExecutorMay(s.exec, x)
    ensures Tallied(ExecutorStep(s, x))
  {
  }

  lemma {:induction false} HandlesKeepTally(s: State, h: HandleAction)
    requires PromisesTallied(s) && HandleMay(s, h)
    ensures Tallied(HandleStep(s, h))
  {
  }

  lemma {:induction false} StepKeepsTally(s: State, a: Action)
    requires PromisesTallied(s) && Enabled(s, a)
    ensures Tallied(Next(s, a))
  {
    if s.log.freed == 0 {
      match a
      case ProducerMoves(choice) =>
        hide PromisesTallied, SchedMove, ResultStep;
        if s.ctl.producer.PSched? { SchedKeepsTally(s, Producer, s.ctl.producer.at, choice); } else { ResultKeepsTally(s); }
      case ConsumerMoves(choice) =>
        if s.ctl.consumer.CSched? { SchedKeepsTally(s, Consumer, s.ctl.consumer.at, choice); }
      case ExecutorMoves(x) => ExecutorKeepsTally(s, x);
      case HandleMoves(h) => HandlesKeepTally(s, h);
      case _ =>
    }
  }

  lemma {:induction false} RecountedCongruence(s: State, c: Config, detaches: bool)
    requires Congruent(s) && Recounts(s, c, detaches) && c.Ok?
    ensures Congruent(c.s)
  {
    hide Holders;
  }

  /** In every run, careful or not: the counter is the number of holders modulo 256, as long as the state is there. */
  lemma {:induction false} RunKeepsCongruence(s: State, acts: seq<Action>, c: Config)
    requires PromisesTallied(s) && Congruent(s) && s.log.freed <= 1 && Run(s, acts, c) && c.Ok?
    ensures PromisesTallied(c.s) && Congruent(c.s) && c.s.log.freed <= 1
    decreases |acts|
  {
    if acts != [] {
      var c1 := Next(s, acts[0]);
      StepRecounts(s, acts[0]);
      StepKeepsTally(s, acts[0]);
      hide PromisesTallied, Congruent, Next, Enabled;
      RecountedCongruence(s, c1, Detaches(s, acts[0]));
      RunKeepsCongruence(c1.s, acts[1..], c);
    }
  }

  lemma {:induction false} InitialIsCongruent()
    ensures PromisesTallied(INITIAL) && Congruent(INITIAL) && INITIAL.log.freed == 0
  {
    FirstHolder();
    InitialPromises();
    hide Holders, PromisesTallied;
  }

  lemma {:induction false} InitialPromises()
    ensures PromisesTallied(INITIAL) && INITIAL.log.freed == 0 && INITIAL.fs.attached == 1
  {
  }

  lemma {:induction false} FirstHolder()
    ensures Holders(INITIAL) == 1
  {
    var s := INITIAL;
    assert s.ctl == Threads(PIdle, CIdle, BNone) && s.exec == Work(0, 0, 0, NotSubmitted, NotRun) && s.hold == Handles(0, 1, 0, 0, 0, 0);
    OnlyHandles(s);
  }

  lemma {:induction false} OnlyHandles(s: State)
    requires s.ctl == Threads(PIdle, CIdle, BNone) && s.exec == Work(0, 0, 0, NotSubmitted, NotRun)
    ensures Holders(s) == HeldBy(s.hold)
  {
  }

  lemma {:induction false} RunIsCongruent(acts: seq<Action>, s: State)
    requires Run(INITIAL, acts, Ok(s))
    ensures PromisesTallied(s) && Congruent(s)
  {
    hide Run, PromisesTallied, Congruent;
    InitialIsCongruent();
    RunKeepsCongruence(INITIAL, acts, Ok(s));
  }

  /** What the counter makes of giving up one attachment. */
  predicate DetachedBy(s: State, c: Config) {
    if Holders(s) % 256 == 0 then c == Crashed(AssertFailed) else
    c.Ok? && Holders(c.s) == Holders(s) - 1 && c.s.log.freed == if Holders(s) % 256 == 1 then 1 else 0
  }

  lemma {:induction false} CountedDetach(s: State, c: Config)
    requires Congruent(s) && Recounts(s, c, true) && s.log.freed == 0
    ensures DetachedBy(s, c)
    ensures (c.Ok? && (c.s.log.freed == 1 <==> Holders(c.s) == 0)) <==> (Holders(s) == 1 || Holders(s) % 256 > 1)
  {
    hide Holders;
  }

  /** Without the bound on attachments, for every run: the step that gives up an attachment fails its assertion exactly when
      the number of holders is a multiple of 256, frees the state exactly when it is one more than such a multiple, and
      nothing else ever frees the state. So it works, and frees the state for the last holder only, exactly when there is
      one holder or their number is not 0 or 1 modulo 256. */
  lemma {:induction false} DetachWorksExactly(acts: seq<Action>, s: State, a: Action)
    requires Run(INITIAL, acts, Ok(s)) && s.log.freed == 0 && Enabled(s, a)
    ensures s.fs.attached == Holders(s) % 256
    ensures !Detaches(s, a) && Next(s, a).Ok? ==> Next(s, a).s.log.freed == 0
    ensures Detaches(s, a) ==> Holders(s) > 0 && DetachedBy(s, Next(s, a))
    ensures Detaches(s, a) ==>
      ((Next(s, a).Ok? && (Next(s, a).s.log.freed == 1 <==> Holders(Next(s, a).s) == 0))
       <==> (Holders(s) == 1 || Holders(s) % 256 > 1))
  {
    RunIsCongruent(acts, s);
    StepRecounts(s, a);
    hide Run, Next, Enabled, Holders, Detaches, PromisesTallied, DetachedBy;
    if Detaches(s, a) { CountedDetach(s, Next(s, a)); }
  }

  // ---------------------------------------------------------------- no executor although scheduling is forced

  function MoveOf(who: Party, choice: bool): Action {
    if who.Producer? then ProducerMoves(choice) else ConsumerMoves(choice)
  }

  /** The moves of one thread alone, with the answers it gets. */
  function Moves(who: Party, choices: seq<bool>): (acts: seq<Action>)
    ensures |acts| == |choices|
  {
    seq(|choices|, i requires 0 <= i < |choices| => MoveOf(who, choices[i]))
  }

  lemma {:induction false} MovesUnfold(who: Party, choices: seq<bool>)
    requires choices != []
    ensures Moves(who, choices)[0] == MoveOf(who, choices[0]) && Moves(who, choices)[1..] == Moves(who, choices[1..])
  {
  }

  /** How many moves the queued path takes up to and with the submission. */
  function UpToSubmit(at: SchedPc): nat {
    match at
    case FirstAttach => 5
    case FirstRef => 4
    case SecondAttach => 3
    case SecondRef => 2
    case Submit => 1
    case _ => 0
  }

  predicate OnImmediatePath(at: SchedPc) {
    at.Attach? || at.Ref? || at.Call? || at.Calling? || at.Deref? || at.LastDetach?
  }

  /** The thread of `who` is on the queued path and there is no executor. */
  predicate Stranded(s: State, who: Party, at: SchedPc) {
    InSched(s, who, at) && OnQueuedPath(at) && s.fs.phase.Done? && s.fs.executor.None?
  }

  lemma {:induction false} StrandedMoves(s: State, who: Party, at: SchedPc, choice: bool)
    requires Stranded(s, who, at) && s.log.freed == 0
    ensures var c := SchedMove(s, who, at, choice);
      if at.Submit? then c == Crashed(NullExecutor) else
      c.Ok? && c.s.log.freed == 0 && exists at1 :: Stranded(c.s, who, at1) && UpToSubmit(at1) == UpToSubmit(at) - 1
  {
    var at1 := match at
      case FirstAttach => FirstRef
      case FirstRef => SecondAttach
      case SecondAttach => SecondRef
      case _ => Submit;
    if !at.Submit? {
      assert Stranded(SchedMove(s, who, at, choice).s, who, at1);
    }
  }

  lemma {:induction false} MoveIsSchedMove(s: State, who: Party, at: SchedPc, choice: bool)
    requires InSched(s, who, at) && s.log.freed == 0 && !at.AwaitAnswer?
    ensures Enabled(s, MoveOf(who, choice)) && Next(s, MoveOf(who, choice)) == SchedMove(s, who, at, choice)
  {
    hide SchedMove;
  }

  lemma {:induction false} StrandedCrashes(s: State, who: Party, at: SchedPc, choices: seq<bool>)
    requires Stranded(s, who, at) && s.log.freed == 0 && |choices| == UpToSubmit(at)
    ensures Run(s, Moves(who, choices), CRASH)
    decreases |choices|
  {
    MoveIsSchedMove(s, who, at, choices[0]);
    StrandedMoves(s, who, at, choices[0]);
    MovesUnfold(who, choices);
    hide Next, Enabled, SchedMove, Moves, Stranded;
    if at.Submit? {
      assert Moves(who, choices)[1..] == [];
    } else {
      var s1 := SchedMove(s, who, at, choices[0]).s;
      var at1 :| Stranded(s1, who, at1) && UpToSubmit(at1) == UpToSubmit(at) - 1;
      StrandedCrashes(s1, who, at1, choices[1..]);
    }
  }

  lemma {:induction false} ImmediateMoves(s: State, who: Party, at: SchedPc, choice: bool)
    requires InSched(s, who, at) && OnImmediatePath(at) && SchedMove(s, who, at, choice).Ok?
    ensures var s1 := SchedMove(s, who, at, choice).s;
      if at.LastDetach? then forall b :: !Enabled(s1, MoveOf(who, b))
      else exists at1 :: InSched(s1, who, at1) && OnImmediatePath(at1)
  {
    var s1 := SchedMove(s, who, at, choice).s;
    var at1 := match at
      case Attach => Ref
      case Ref => Call
      case Call => Calling
      case Calling => Deref
      case _ => LastDetach;
    if !at.LastDetach? {
      assert InSched(s1, who, at1);
    }
  }

  lemma {:induction false} ImmediateFaults(s: State, who: Party, at: SchedPc, choice: bool)
    requires InSched(s, who, at) && OnImmediatePath(at)
    ensures SchedMove(s, who, at, choice) != CRASH
  {
  }

  lemma {:induction false} ImmediateNeverCrashesSo(s: State, who: Party, at: SchedPc, choices: seq<bool>)
    requires InSched(s, who, at) && OnImmediatePath(at)
    ensures !Run(s, Moves(who, choices), CRASH)
    decreases |choices|
  {
    if choices != [] && s.log.freed == 0 {
      MoveIsSchedMove(s, who, at, choices[0]);
      ImmediateFaults(s, who, at, choices[0]);
      MovesUnfold(who, choices);
      if SchedMove(s, who, at, choices[0]).Ok? {
        ImmediateMoves(s, who, at, choices[0]);
        var s1 := SchedMove(s, who, at, choices[0]).s;
        hide Next, Enabled, SchedMove, Moves;
        if !at.LastDetach? {
          var at1 :| InSched(s1, who, at1) && OnImmediatePath(at1);
          ImmediateNeverCrashesSo(s1, who, at1, choices[1..]);
        } else if |choices| > 1 {
          MovesUnfold(who, choices[1..]);
        }
      }
    }
  }

  lemma {:induction false} DecideWithoutExecutor(s: State, who: Party, choice: bool)
    requires InSched(s, who, Decide) && s.fs.phase.Done? && s.fs.executor.None? && s.log.freed == 0
    ensures var c := SchedMove(s, who, Decide, choice);
      c.Ok? && c.s.log.freed == 0 && InSched(c.s, who, if s.fs.forced then FirstAttach else Attach) &&
      c.s.fs == s.fs
  {
  }

  /** The thread that enters ScheduleContinuation without an executor, whichever of the two it is and whatever the rest of the state:
      its own run ends in a call through a null pointer if and only if scheduling is forced, and then it does so in six
      moves. */
  lemma {:induction false} NullExecutorExactly(s: State, who: Party)
    requires InSched(s, who, Decide) && s.fs.phase.Done? && s.fs.executor.None? && s.log.freed == 0
    ensures (exists choices :: Run(s, Moves(who, choices), CRASH)) <==> s.fs.forced
    ensures s.fs.forced ==> forall choices :: |choices| == 6 ==> Run(s, Moves(who, choices), CRASH)
  {
    forall choices | |choices| > 0
      ensures s.fs.forced && |choices| == 6 ==> Run(s, Moves(who, choices), CRASH)
      ensures !s.fs.forced ==> !Run(s, Moves(who, choices), CRASH)
    {
      RunFromDecide(s, who, choices);
    }
    assert |[false, false, false, false, false, false]| == 6;
    hide Next, Enabled;
    if choices :| Run(s, Moves(who, choices), CRASH) {
      assert |choices| > 0;
    }
  }

  lemma {:induction false} RunFromDecide(s: State, who: Party, choices: seq<bool>)
    requires InSched(s, who, Decide) && s.fs.phase.Done? && s.fs.executor.None? && s.log.freed == 0 && choices != []
    ensures s.fs.forced && |choices| == 6 ==> Run(s, Moves(who, choices), CRASH)
    ensures !s.fs.forced ==> !Run(s, Moves(who, choices), CRASH)
  {
    MoveIsSchedMove(s, who, Decide, choices[0]);
    DecideWithoutExecutor(s, who, choices[0]);
    MovesUnfold(who, choices);
    var s1 := SchedMove(s, who, Decide, choices[0]).s;
    hide Next, Enabled, SchedMove, Moves;
    if s.fs.forced && |choices| == 6 {
      StrandedCrashes(s1, who, FirstAttach, choices[1..]);
    }
    if !s.fs.forced {
      ImmediateNeverCrashesSo(s1, who, Attach, choices[1..]);
    }
  }

  lemma {:induction false} HoldersBounded(s: State)
    requires Inv(s)
    ensures Holders(s) <= 255
  {
    hide Protocol, PromisesCounted, Holders;
  }

  lemma {:induction false} ImmediateIsSound(s: State, who: Party, at: SchedPc, choice: bool)
    requires Inv(s) && InSched(s, who, at) && OnImmediatePath(at) && (at.Attach? ==> Holders(s) <= 254)
    ensures s.log.freed == 0
    ensures var c := SchedMove(s, who, at, choice); c.Ok? && Inv(c.s)
  {
    hide Inv, Holders, SchedMove;
    HoldersBounded(s);
    ActorsHoldTheState(s, MoveOf(who, choice));
    SchedIsSound(s, who, at, choice);
    SchedAttaches(s, who, at, choice);
  }

  /** The six moves of the immediate path, from its guard on. */
  function UpToReturn(at: SchedPc): nat {
    match at
    case Attach => 6
    case Ref => 5
    case Call => 4
    case Calling => 3
    case Deref => 2
    case LastDetach => 1
    case _ => 0
  }

  predicate OutWithCall(s: State, who: Party) {
    !InOperation(s.ctl, who) && s.log.stored != [] && s.log.invoked == [s.log.stored[0].v]
  }

  /** The invariant knows the thread in ScheduleContinuation, and how far the call has got. */
  lemma {:induction false} ScheduleFacts(s: State, who: Party, at: SchedPc)
    requires Inv(s) && InSched(s, who, at)
    ensures s.fs.phase.Done? && At(s.ctl) == at
    ensures Schedule(s)
  {
    hide Schedule, PromisesCounted, Counters, ExecutorKnown;
  }

  lemma {:induction false} LastDetachKeepsLog(s: State, who: Party, choice: bool)
    requires InSched(s, who, LastDetach) && SchedMove(s, who, LastDetach, choice).Ok?
    ensures var s1 := SchedMove(s, who, LastDetach, choice).s;
      s1.log.invoked == s.log.invoked && s1.log.stored == s.log.stored && !InOperation(s1.ctl, who) && s1.exec == s.exec
  {
  }

  lemma {:induction false} CalledByTheEnd(s: State, who: Party, choice: bool)
    requires Inv(s) && InSched(s, who, LastDetach) && s.exec.job.NotSubmitted? && SchedMove(s, who, LastDetach, choice).Ok?
    ensures OutWithCall(SchedMove(s, who, LastDetach, choice).s, who) && SchedMove(s, who, LastDetach, choice).s.exec.job.NotSubmitted?
  {
    hide Inv, SchedMove;
    ScheduleFacts(s, who, LastDetach);
    assert |s.log.invoked| == 1;
    LastDetachKeepsLog(s, who, choice);
  }

  lemma {:induction false} ImmediateFollows(s: State, who: Party, at: SchedPc, choice: bool)
    requires InSched(s, who, at) && OnImmediatePath(at) && !at.LastDetach? && SchedMove(s, who, at, choice).Ok?
    ensures SchedMove(s, who, at, choice).s.exec == s.exec
    ensures exists at1 ::
      InSched(SchedMove(s, who, at, choice).s, who, at1) && OnImmediatePath(at1) && !at1.Attach? && UpToReturn(at1) == UpToReturn(at) - 1
  {
    var at1 := match at
      case Attach => Ref
      case Ref => Call
      case Call => Calling
      case Calling => Deref
      case _ => LastDetach;
    assert InSched(SchedMove(s, who, at, choice).s, who, at1);
  }

  /** The thread's own run with these answers calls the continuation with the stored result and leaves. */
  ghost predicate Delivers(s: State, who: Party, choices: seq<bool>) {
    exists s1 :: Run(s, Moves(who, choices), Ok(s1)) && OutWithCall(s1, who) && s1.exec.job.NotSubmitted?
  }

  lemma {:induction false} DeliversAtOnce(s: State, who: Party, choices: seq<bool>)
    requires |choices| == 1 && Enabled(s, MoveOf(who, choices[0]))
    requires Next(s, MoveOf(who, choices[0])).Ok? && OutWithCall(Next(s, MoveOf(who, choices[0])).s, who)
    requires Next(s, MoveOf(who, choices[0])).s.exec.job.NotSubmitted?
    ensures Delivers(s, who, choices)
  {
    MovesUnfold(who, choices);
    hide Next, Enabled, Moves, OutWithCall;
    assert Moves(who, choices)[1..] == [];
    assert Run(s, Moves(who, choices), Next(s, MoveOf(who, choices[0])));
  }

  lemma {:induction false} DeliversAfter(s: State, who: Party, choices: seq<bool>)
    requires choices != [] && Enabled(s, MoveOf(who, choices[0])) && Next(s, MoveOf(who, choices[0])).Ok?
    requires Delivers(Next(s, MoveOf(who, choices[0])).s, who, choices[1..])
    ensures Delivers(s, who, choices)
  {
    MovesUnfold(who, choices);
    hide Next, Enabled, Moves, OutWithCall;
    var s1 :| Run(Next(s, MoveOf(who, choices[0])).s, Moves(who, choices[1..]), Ok(s1)) && OutWithCall(s1, who) && s1.exec.job.NotSubmitted?;
    assert Run(s, Moves(who, choices), Ok(s1));
  }

  lemma {:induction false} ImmediateDelivers(s: State, who: Party, at: SchedPc, choices: seq<bool>)
    requires Inv(s) && InSched(s, who, at) && OnImmediatePath(at) && s.exec.job.NotSubmitted? && (at.Attach? ==> Holders(s) <= 254)
    requires |choices| == UpToReturn(at)
    ensures Delivers(s, who, choices)
    decreases |choices|
  {
    var c1 := SchedMove(s, who, at, choices[0]);
    hide Inv, Holders, Next, Enabled, SchedMove, Delivers, OutWithCall;
    ImmediateIsSound(s, who, at, choices[0]);
    MoveIsSchedMove(s, who, at, choices[0]);
    if at.LastDetach? {
      CalledByTheEnd(s, who, choices[0]);
      DeliversAtOnce(s, who, choices);
    } else {
      ImmediateFollows(s, who, at, choices[0]);
      var at1 :| InSched(c1.s, who, at1) && OnImmediatePath(at1) && !at1.Attach? && UpToReturn(at1) == UpToReturn(at) - 1;
      ImmediateDelivers(c1.s, who, at1, choices[1..]);
      DeliversAfter(s, who, choices);
    }
  }

  lemma {:induction false} DecideIsSound(s: State, who: Party, choice: bool)
    requires Inv(s) && InSched(s, who, Decide) && Holders(s) <= 254
    ensures s.log.freed == 0
    ensures var c := SchedMove(s, who, Decide, choice); c.Ok? && Inv(c.s) && Holders(c.s) <= 254
  {
    hide Inv, Holders, SchedMove;
    ActorsHoldTheState(s, MoveOf(who, choice));
    SchedMoveIsSound(s, who, Decide, choice);
  }

  lemma {:induction false} NoJobYet(s: State, who: Party, choice: bool)
    requires Inv(s) && InSched(s, who, Decide) && SchedMove(s, who, Decide, choice).Ok?
    ensures SchedMove(s, who, Decide, choice).s.exec.job.NotSubmitted?
  {
    hide Inv, SchedMove;
    ScheduleFacts(s, who, Decide);
    assert NoJob(s.exec);
    DecideLeavesWork(s, who, choice);
  }

  lemma {:induction false} DecideLeavesWork(s: State, who: Party, choice: bool)
    requires InSched(s, who, Decide) && SchedMove(s, who, Decide, choice).Ok?
    ensures SchedMove(s, who, Decide, choice).s.exec == s.exec
  {
  }

  /** And if scheduling is not forced, that run delivers: seven moves, and the continuation has been called, inline, with
      the result that was stored, and the thread is out of its operation. */
  lemma {:induction false} WithoutExecutorRunsInline(s: State, who: Party, choices: seq<bool>)
    requires Inv(s) && Holders(s) <= 254
    requires InSched(s, who, Decide) && s.fs.phase.Done? && s.fs.executor.None? && !s.fs.forced && |choices| == 7
    ensures exists s1 :: Run(s, Moves(who, choices), Ok(s1)) && OutWithCall(s1, who) && s1.exec.job.NotSubmitted?
  {
    hide Inv, Holders, Next, Enabled, SchedMove, OutWithCall, Run;
    DecideIsSound(s, who, choices[0]);
    NoJobYet(s, who, choices[0]);
    MoveIsSchedMove(s, who, Decide, choices[0]);
    DecideWithoutExecutor(s, who, choices[0]);
    ImmediateDelivers(SchedMove(s, who, Decide, choices[0]).s, who, Attach, choices[1..]);
    DeliversAfter(s, who, choices);
  }

  // ---------------------------------------------------------------- nobody can help

  predicate GivesExecutor(a: Action) {
    a.HandleMoves? && a.h.SetExecutor? && a.h.e.Some?
  }

  predicate NoneGiven(acts: seq<Action>) {
    forall i :: 0 <= i < |acts| ==> !GivesExecutor(acts[i])
  }

  function OwnMoves(who: Party, acts: seq<Action>): nat {
    if acts == [] then 0 else OwnMoves(who, acts[1..]) + if ByOthers(who, acts[0]) then 0 else 1
  }

  lemma {:induction false} SchedHelpsNobody(s: State, other: Party, at: SchedPc, choice: bool)
    requires InSched(s, other, at) && SchedMove(s, other, at, choice).Ok?
    ensures var s1 := SchedMove(s, other, at, choice).s;
      s1.fs.executor == s.fs.executor && s1.fs.phase == s.fs.phase && s1.fs.forced == s.fs.forced &&
      (other.Producer? ==> s1.ctl.consumer == s.ctl.consumer) && (other.Consumer? ==> s1.ctl.producer == s.ctl.producer)
  {
  }

  lemma {:induction false} ExecutorHelpsNobody(s: State, x: ExecutorAction)
    requires ExecutorMay(s.exec, x) && ExecutorStep(s, x).Ok?
    ensures ExecutorStep(s, x).s.ctl == s.ctl && ExecutorStep(s, x).s.fs.executor == s.fs.executor
    ensures ExecutorStep(s, x).s.fs.phase == s.fs.phase && ExecutorStep(s, x).s.fs.forced == s.fs.forced
  {
  }

  lemma {:induction false} HandlesHelpNobody(s: State, h: HandleAction)
    requires HandleMay(s, h) && HandleStep(s, h).Ok? && !GivesExecutor(HandleMoves(h)) && s.fs.executor.None?
    ensures HandleStep(s, h).s.ctl.producer == s.ctl.producer && HandleStep(s, h).s.ctl.consumer == s.ctl.consumer
    ensures HandleStep(s, h).s.fs.executor == s.fs.executor && HandleStep(s, h).s.fs.phase == s.fs.phase
  {
  }

  lemma {:induction false} OthersLeaveStranded(s: State, who: Party, at: SchedPc, a: Action)
    requires Stranded(s, who, at) && PromisesTallied(s) && Enabled(s, a) && ByOthers(who, a) && Next(s, a).Ok? && !GivesExecutor(a)
    ensures Stranded(Next(s, a).s, who, at)
  {
    match a
    case ProducerMoves(choice) => if s.ctl.producer.PSched? { hide SchedMove; SchedHelpsNobody(s, Producer, s.ctl.producer.at, choice); }
    case ConsumerMoves(choice) => if s.ctl.consumer.CSched? { hide SchedMove; SchedHelpsNobody(s, Consumer, s.ctl.consumer.at, choice); }
    case ExecutorMoves(x) => hide ExecutorStep; ExecutorHelpsNobody(s, x);
    case HandleMoves(h) => hide HandleStep; HandlesHelpNobody(s, h);
    case _ =>
  }

  ghost predicate StrandedAt(c: Config, who: Party, n: int) {
    c.Ok? ==> exists at :: Stranded(c.s, who, at) && UpToSubmit(at) == n
  }

  lemma {:induction false} StrandedSteps(s: State, who: Party, at: SchedPc, a: Action)
    requires Stranded(s, who, at) && PromisesTallied(s) && Enabled(s, a) && !GivesExecutor(a)
    ensures StrandedAt(Next(s, a), who, UpToSubmit(at) - OwnMoves(who, [a]))
    ensures Next(s, a).Ok? ==> UpToSubmit(at) > OwnMoves(who, [a])
  {
    if s.log.freed == 0 {
      if ByOthers(who, a) {
        assert OwnMoves(who, [a]) == 0;
        if Next(s, a).Ok? {
          OthersLeaveStranded(s, who, at, a);
          assert Stranded(Next(s, a).s, who, at);
        }
      } else {
        assert a == MoveOf(who, a.choice) && OwnMoves(who, [a]) == 1;
        MoveIsSchedMove(s, who, at, a.choice);
        StrandedMoves(s, who, at, a.choice);
        hide Next, SchedMove, Stranded;
        if Next(s, a).Ok? {
          var at1 :| Stranded(Next(s, a).s, who, at1) && UpToSubmit(at1) == UpToSubmit(at) - 1;
          assert Stranded(Next(s, a).s, who, at1);
        }
      }
    }
  }

  lemma {:induction false} RunUnfolds(s: State, acts: seq<Action>, c: Config)
    requires Run(s, acts, c)
    ensures acts == [] ==> c == Ok(s)
    ensures acts != [] ==> Enabled(s, acts[0]) && (if Next(s, acts[0]).Ok? then Run(Next(s, acts[0]).s, acts[1..], c) else c == Next(s, acts[0]))
  {
  }

  lemma {:induction false} StrandedFacts(s: State, who: Party, at: SchedPc)
    requires Stranded(s, who, at)
    ensures s.fs.executor.None? && UpToSubmit(at) >= 1
  {
  }

  lemma {:induction false} StaysStranded(s: State, who: Party, at: SchedPc, acts: seq<Action>, c: Config)
    requires Stranded(s, who, at) && PromisesTallied(s) && Run(s, acts, c) && NoneGiven(acts)
    ensures c.Ok? ==> OwnMoves(who, acts) < UpToSubmit(at)
    ensures StrandedAt(c, who, UpToSubmit(at) - OwnMoves(who, acts))
    decreases |acts|
  {
    hide PromisesTallied, Next, Enabled, Stranded, Run, ByOthers, GivesExecutor;
    RunUnfolds(s, acts, c);
    if acts != [] {
      var c1 := Next(s, acts[0]);
      StrandedSteps(s, who, at, acts[0]);
      StepKeepsTally(s, acts[0]);
      assert OwnMoves(who, acts) == OwnMoves(who, acts[1..]) + OwnMoves(who, [acts[0]]);
      if c1.Ok? {
        var at1 :| Stranded(c1.s, who, at1) && UpToSubmit(at1) == UpToSubmit(at) - OwnMoves(who, [acts[0]]);
        StaysStranded(c1.s, who, at1, acts[1..], c);
      }
    } else {
      StrandedFacts(s, who, at);
    }
  }

  /** Once the thread is on the queued path without an executor, no step of anybody helps it but SetExecutor with an executor:
      in every run without one it makes fewer than the five moves up to and with the submission, or the run ends in a crash. */
  lemma {:induction false} OnlySetExecutorHelps(before: seq<Action>, s: State, who: Party, at: SchedPc, acts: seq<Action>, c: Config)
    requires Run(INITIAL, before, Ok(s)) && Stranded(s, who, at) && Run(s, acts, c) && NoneGiven(acts)
    ensures c.Ok? ==> c.s.fs.executor.None? && OwnMoves(who, acts) < UpToSubmit(at) <= 5
    ensures c.Ok? ==> StrandedAt(c, who, UpToSubmit(at) - OwnMoves(who, acts))
  {
    hide Run, Stranded, PromisesTallied;
    RunIsCongruent(before, s);
    StaysStranded(s, who, at, acts, c);
    if c.Ok? {
      var at1 :| Stranded(c.s, who, at1) && UpToSubmit(at1) == UpToSubmit(at) - OwnMoves(who, acts);
      StrandedFacts(c.s, who, at1);
    }
  }

  // ---------------------------------------------------------------- waiting for a forced state

  predicate BeforeSubmission(at: SchedPc) {
    at.NoSched? || at.Decide? || OnQueuedPath(at)
  }

  /** Scheduling is forced, there is no executor, and nobody has got as far as calling the continuation. */
  predicate Hopeless(s: State) {
    && s.fs.forced && s.fs.executor.None?
    && BeforeSubmission(ProducerAt(s.ctl.producer)) && BeforeSubmission(ConsumerAt(s.ctl.consumer))
    && NoJob(s.exec) && s.log.invoked == []
  }

  /** A step of somebody who neither gives the state an executor again nor lifts the forcing. */
  predicate LeavesForced(a: Action) {
    match a
    case HandleMoves(SetExecutor(Some(_))) => false
    case HandleMoves(ForceScheduled(false)) => false
    case _ => true
  }

  lemma {:induction false} SchedIsHopeless(s: State, who: Party, at: SchedPc, choice: bool)
    requires Hopeless(s) && InSched(s, who, at) && SchedMove(s, who, at, choice).Ok?
    ensures Hopeless(SchedMove(s, who, at, choice).s)
  {
  }

  lemma {:induction false} HandlesAreHopeless(s: State, h: HandleAction)
    requires Hopeless(s) && HandleMay(s, h) && HandleStep(s, h).Ok? && LeavesForced(HandleMoves(h))
    ensures Hopeless(HandleStep(s, h).s)
  {
  }

  lemma {:induction false} StepIsHopeless(s: State, a: Action)
    requires Hopeless(s) && Enabled(s, a) && LeavesForced(a) && Next(s, a).Ok?
    ensures Hopeless(Next(s, a).s)
  {
    match a
    case ProducerMoves(choice) => if s.ctl.producer.PSched? { hide SchedMove; SchedIsHopeless(s, Producer, s.ctl.producer.at, choice); }
    case ConsumerMoves(choice) => if s.ctl.consumer.CSched? { hide SchedMove; SchedIsHopeless(s, Consumer, s.ctl.consumer.at, choice); }
    case HandleMoves(h) => hide HandleStep; HandlesAreHopeless(s, h);
    case _ =>
  }

  /** SetForceScheduled(force) forces only a state that has an executor or was forced, and always lifts it when asked to. */
  lemma {:induction false} ForcedExactly(s: State, force: bool)
    requires HandleMay(s, ForceScheduled(force))
    ensures HandleStep(s, ForceScheduled(force)) == Ok(s.(fs := s.fs.(forced := force && (s.fs.forced || s.fs.executor.Some?))))
  {
  }

  /** On a state that is forced and has no executor the continuation is never called, whatever anybody does short of setting
      an executor or lifting the forcing: who waits for the call waits for ever, or the run ends in a crash. */
  lemma {:induction false} ForcedIsNeverCalled(s: State, acts: seq<Action>, c: Config)
    requires Hopeless(s) && Run(s, acts, c) && forall a :: a in acts ==> LeavesForced(a)
    ensures c.Ok? ==> Hopeless(c.s) && c.s.log.invoked == []
    decreases |acts|
  {
    hide Next, Enabled, Run, LeavesForced;
    RunUnfolds(s, acts, c);
    if acts != [] && Next(s, acts[0]).Ok? {
      StepIsHopeless(s, acts[0]);
      hide Hopeless;
      ForcedIsNeverCalled(Next(s, acts[0]).s, acts[1..], c);
    }
    if c.Ok? {
      HopelessFacts(c.s);
    }
  }

  lemma {:induction false} HopelessFacts(s: State)
    requires Hopeless(s)
    ensures s.log.invoked == []
  {
  }

  /** Wait brings a forced state there by SetExecutor(nullptr). */
  lemma {:induction false} ClearingIsHopeless(s: State)
    requires Inv(s) && s.fs.forced && !s.fs.phase.Done?
    ensures Hopeless(s.(fs := s.fs.(executor := None)))
  {
  }
}
