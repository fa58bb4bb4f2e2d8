/** SetExecutor(nullptr), which Wait calls on a state that a producer may be scheduling at that moment: exactly when it makes
    somebody call through a null pointer. */
module FutureStateClearing {
  import opened TryModel
  import opened FutureStateMachine
  import opened FutureStateProofs
  import opened FutureStateTheorems
  import opened FutureStateLimits

  function Cleared(s: State): State {
    s.(fs := s.fs.(executor := None))
  }

  /** Some run in which nobody sets an executor again ends in a call through a null pointer. */
  ghost predicate NullAhead(s: State) {
    exists acts :: Run(s, acts, CRASH) && NoneGiven(acts)
  }

  // ---------------------------------------------------------------- where a null executor does no harm

  predicate SafeAt(at: SchedPc, forced: bool) {
    !OnQueuedPath(at) && (forced ==> !at.Decide?)
  }

  /** There is no executor, and nobody will ask for one: scheduling is not forced, or it is over. */
  predicate Inline(s: State) {
    && s.fs.executor.None?
    && SafeAt(ProducerAt(s.ctl.producer), s.fs.forced) && SafeAt(ConsumerAt(s.ctl.consumer), s.fs.forced)
    && (s.fs.forced ==> s.fs.phase.Done? && !InSetResult(s.ctl.producer) && !InSetContinuation(s.ctl.consumer))
  }

  lemma {:induction false} SchedIsInline(s: State, who: Party, at: SchedPc, choice: bool)
    requires Inline(s) && InSched(s, who, at)
    ensures SchedMove(s, who, at, choice) != CRASH
    ensures SchedMove(s, who, at, choice).Ok? ==> Inline(SchedMove(s, who, at, choice).s)
  {
  }

  lemma {:induction false} OwnStepsAreInline(s: State)
    requires Inline(s)
    ensures ResultStep(s) != CRASH && (!s.ctl.producer.PSched? && ResultStep(s).Ok? ==> Inline(ResultStep(s).s))
    ensures ContinuationStep(s) != CRASH && (!s.ctl.consumer.CSched? && ContinuationStep(s).Ok? ==> Inline(ContinuationStep(s).s))
  {
  }

  lemma {:induction false} OthersAreInline(s: State, a: Action)
    requires Inline(s) && Enabled(s, a) && !GivesExecutor(a) && (a.HandleMoves? || a.ExecutorMoves?)
    ensures Next(s, a) != CRASH && (Next(s, a).Ok? ==> Inline(Next(s, a).s))
  {
  }

  lemma {:induction false} StepIsInline(s: State, a: Action)
    requires Inline(s) && Enabled(s, a) && !GivesExecutor(a)
    ensures Next(s, a) != CRASH && (Next(s, a).Ok? ==> Inline(Next(s, a).s))
  {
    match a
    case ProducerMoves(choice) =>
      if s.ctl.producer.PSched? { SchedIsInline(s, Producer, s.ctl.producer.at, choice); } else { OwnStepsAreInline(s); }
      hide SchedMove, ResultStep, Inline;
    case ConsumerMoves(choice) =>
      if s.ctl.consumer.CSched? { SchedIsInline(s, Consumer, s.ctl.consumer.at, choice); } else { OwnStepsAreInline(s); }
      hide SchedMove, ContinuationStep, Inline;
    case ExecutorMoves(_) => OthersAreInline(s, a);
    case HandleMoves(_) => OthersAreInline(s, a);
    case _ =>
  }

  lemma {:induction false} InlineNeverCrashesSo(s: State, acts: seq<Action>, c: Config)
    requires Inline(s) && Run(s, acts, c) && NoneGiven(acts)
    ensures c != CRASH
    decreases |acts|
  {
    hide Inline, Next, Enabled, Run, GivesExecutor;
    RunUnfolds(s, acts, c);
    if acts != [] {
      StepIsInline(s, acts[0]);
      if Next(s, acts[0]).Ok? {
        InlineNeverCrashesSo(Next(s, acts[0]).s, acts[1..], c);
      }
    }
  }

  // ---------------------------------------------------------------- exactly when clearing does harm

  lemma {:induction false} ClearedIsInline(s: State)
    requires Protocol(s) && (s.fs.forced ==> s.fs.phase.Done?) && MayBeNull(s.fs, At(s.ctl))
    ensures Inline(Cleared(s))
  {
    hide Schedule;
  }

  lemma {:induction false} ScheduledBy(s: State)
    requires Protocol(s) && At(s.ctl) != NoSched
    ensures s.fs.phase.Done? && exists who :: InSched(s, who, At(s.ctl))
  {
    assert s.ctl.producer.PSched? ==> InSched(s, Producer, At(s.ctl));
    assert !s.ctl.producer.PSched? ==> InSched(s, Consumer, At(s.ctl));
    hide Schedule, ExecutorKnown;
  }

  lemma {:induction false} OwnMovesGiveNone(who: Party, choices: seq<bool>)
    ensures NoneGiven(Moves(who, choices))
  {
  }

  lemma {:induction false} StrandedIsDoomed(s: State, who: Party, at: SchedPc)
    requires s.log.freed == 0 && (Stranded(s, who, at) || (at.Decide? && InSched(s, who, at) && s.fs.phase.Done? && s.fs.executor.None? && s.fs.forced))
    ensures NullAhead(s)
  {
    hide Run, Moves;
    if at.Decide? {
      var choices := [false, false, false, false, false, false];
      NullExecutorExactly(s, who);
      assert Run(s, Moves(who, choices), CRASH);
      OwnMovesGiveNone(who, choices);
    } else {
      var choices := seq(UpToSubmit(at), _ => false);
      StrandedCrashes(s, who, at, choices);
      OwnMovesGiveNone(who, choices);
    }
  }

  /** On a state that is not forced, or is done, taking the executor away leads somebody into a call through a null pointer if
      and only if a thread is between deciding for the queue and submitting, or is about to decide under forced scheduling. */
  lemma {:induction false} ClearingExactly(s: State)
    requires Inv(s) && FutureUnused(s) && (s.fs.forced ==> s.fs.phase.Done?)
    ensures NullAhead(Cleared(s)) <==> !MayBeNull(s.fs, At(s.ctl))
  {
    ActorsHoldTheState(s, HandleMoves(SetExecutor(None)));
    hide Counters, PromisesCounted, Run;
    if MayBeNull(s.fs, At(s.ctl)) {
      ClearedIsInline(s);
      hide Protocol, Inline, NoneGiven, MayBeNull;
      if acts :| Run(Cleared(s), acts, CRASH) && NoneGiven(acts) {
        InlineNeverCrashesSo(Cleared(s), acts, CRASH);
      }
    } else {
      ScheduledBy(s);
      hide Protocol;
      var who :| InSched(s, who, At(s.ctl));
      StrandedIsDoomed(Cleared(s), who, At(s.ctl));
    }
  }

  // ---------------------------------------------------------------- the race of Wait with a producer

  /** A step of somebody who neither uses our future handle nor forces scheduling. */
  predicate Aside(a: Action) {
    !a.BeginSetContinuation? && !a.ConsumerMoves? && !(a.HandleMoves? && a.h.SetExecutor?) && a != HandleMoves(ForceScheduled(true))
  }

  predicate AllAside(acts: seq<Action>) {
    forall i :: 0 <= i < |acts| ==> Aside(acts[i])
  }

  /** Where Wait stands after HasResult() answered false, on a state that is not forced. */
  predicate AboutToClear(s: State) {
    s.hold.futures > 0 && s.ctl.consumer.CIdle? && !HasResult(s.fs.phase) && !s.fs.forced
  }

  /** Others move on to s1, then Wait clears the executor, and then others move on to the null pointer. */
  ghost predicate Races(s: State, between: seq<Action>, s1: State) {
    Run(s, between, Ok(s1)) && AllAside(between) && FutureUnused(s1) && NullAhead(Cleared(s1))
  }

  predicate ResultMayCome(s: State) {
    s.hold.promises > 0 || !s.ctl.producer.PIdle? || s.ctl.breaker.BCheck?
  }

  /** The producer is on its way to the queued path. */
  predicate OnTheWay(s: State) {
    && s.log.freed == 0 && s.hold.futures > 0 && s.ctl.consumer.CIdle? && !s.fs.forced && s.fs.executor.Some?
    && match s.ctl.producer
       case PIdle => s.fs.phase.OnlyContinuation? && (s.hold.promises > 0 || s.ctl.breaker.BCheck?)
       case PAssert(seen) => seen == s.fs.phase == OnlyContinuation
       case PCas2(seen) => seen == s.fs.phase == OnlyContinuation
       case PSched(at) => at.Decide? && s.fs.phase.Done?
       case _ => s.fs.phase.OnlyContinuation?
  }

  function StepsToDecide(p: ProducerPc): nat {
    match p
    case PIdle => 7
    case PCheck(_) => 6
    case PWrite(_) => 5
    case PLoad => 4
    case PCas1 => 3
    case PAssert(_) => 2
    case PCas2(_) => 1
    case PSched(_) => 0
  }

  function Onward(s: State): Action {
    if !s.ctl.producer.PIdle? then ProducerMoves(false)
    else if s.ctl.breaker.BCheck? then BreakerChecks
    else BeginSetResult(Value(0))
  }

  lemma {:induction false} StepsOnward(s: State)
    requires OnTheWay(s) && !s.ctl.producer.PSched?
    ensures Aside(Onward(s)) && Enabled(s, Onward(s)) && Next(s, Onward(s)).Ok?
    ensures var s1 := Next(s, Onward(s)).s; OnTheWay(s1) && StepsToDecide(s1.ctl.producer) < StepsToDecide(s.ctl.producer)
  {
  }

  lemma {:induction false} DecidesForTheQueue(s: State)
    requires OnTheWay(s) && s.ctl.producer.PSched?
    ensures Enabled(s, ProducerMoves(false)) && Next(s, ProducerMoves(false)).Ok?
    ensures var s1 := Next(s, ProducerMoves(false)).s;
      s1.log.freed == 0 && FutureUnused(s1) && Stranded(Cleared(s1), Producer, FirstAttach)
  {
  }

  ghost predicate CanRace(s: State) {
    exists between, s1 :: Races(s, between, s1)
  }

  lemma {:induction false} RacesAfter(s: State, a: Action, between: seq<Action>, s1: State)
    requires Aside(a) && Enabled(s, a) && Next(s, a).Ok? && Races(Next(s, a).s, between, s1)
    ensures Races(s, [a] + between, s1)
  {
    hide Next, Enabled, NullAhead, FutureUnused, Aside;
    RunStep(s, a, between, Ok(s1));
    hide Run;
  }

  lemma {:induction false} ReachesTheQueue(s: State)
    requires OnTheWay(s)
    ensures CanRace(s)
    decreases StepsToDecide(s.ctl.producer)
  {
    if s.ctl.producer.PSched? {
      DecidesForTheQueue(s);
      var s1 := Next(s, ProducerMoves(false)).s;
      hide Next, Enabled, OnTheWay;
      StrandedIsDoomed(Cleared(s1), Producer, FirstAttach);
      assert Run(s1, [], Ok(s1));
      hide Run, NullAhead, FutureUnused;
      assert Races(s1, [], s1);
      RacesAfter(s, ProducerMoves(false), [], s1);
    } else {
      StepsOnward(s);
      hide Next, Enabled, OnTheWay, Onward, Races;
      var s0 := Next(s, Onward(s)).s;
      ReachesTheQueue(s0);
      var between, s1 :| Races(s0, between, s1);
      RacesAfter(s, Onward(s), between, s1);
    }
  }

  /** There is no continuation, so the state cannot become done. */
  predicate NoneInstalled(s: State) {
    && s.ctl.consumer.CIdle? && !HasContinuation(s.fs.phase) && !s.fs.forced
    && !s.ctl.producer.PSched? && (s.ctl.producer.PCas2? ==> s.ctl.producer.seen.OnlyContinuation?)
  }

  /** There is no result, and nobody who could set one. */
  predicate NoneToCome(s: State) {
    && s.ctl.consumer.CIdle? && !HasResult(s.fs.phase) && !s.fs.forced
    && s.ctl.producer.PIdle? && !s.ctl.breaker.BCheck? && s.hold.promises == s.hold.copying == 0
  }

  lemma {:induction false} StepInstallsNone(s: State, a: Action)
    requires NoneInstalled(s) && Aside(a) && Enabled(s, a) && Next(s, a).Ok?
    ensures NoneInstalled(Next(s, a).s)
  {
  }

  lemma {:induction false} StepBringsNone(s: State, a: Action)
    requires NoneToCome(s) && Aside(a) && Enabled(s, a) && Next(s, a).Ok?
    ensures NoneToCome(Next(s, a).s)
  {
  }

  predicate StaysPending(s: State) {
    NoneInstalled(s) || NoneToCome(s) || Inline(s)
  }

  lemma {:induction false} RunStaysPending(s: State, acts: seq<Action>, s1: State)
    requires StaysPending(s) && Run(s, acts, Ok(s1)) && AllAside(acts)
    ensures StaysPending(s1)
    decreases |acts|
  {
    hide Next, Enabled, Run, NoneInstalled, NoneToCome, Inline;
    RunUnfolds(s, acts, Ok(s1));
    if acts != [] {
      if NoneInstalled(s) { StepInstallsNone(s, acts[0]); } else if NoneToCome(s) { StepBringsNone(s, acts[0]); } else { StepIsInline(s, acts[0]); }
      RunStaysPending(Next(s, acts[0]).s, acts[1..], s1);
    }
  }

  lemma {:induction false} PendingIsInline(s: State)
    requires StaysPending(s)
    ensures Inline(Cleared(s))
  {
  }

  lemma {:induction false} PendingOrOnTheWay(s: State)
    requires Inv(s) && AboutToClear(s) && s.log.freed == 0
    ensures if HasContinuation(s.fs.phase) && ResultMayCome(s) && s.fs.executor.Some? then OnTheWay(s) else StaysPending(s)
  {
    hide Schedule, Counters;
  }

  /** Wait on a pending state that is not forced: between its test and its SetExecutor(nullptr) others can bring it about that a
      producer calls through the null pointer, if and only if the state has an executor and a continuation already and its
      result may still come. In particular never if this handle, the only one that could, has installed no continuation. */
  lemma {:induction false} WaitRacesExactly(s: State)
    requires Inv(s) && AboutToClear(s)
    ensures CanRace(s) <==> HasContinuation(s.fs.phase) && ResultMayCome(s) && s.fs.executor.Some?
  {
    ActorsHoldTheState(s, HandleMoves(SetExecutor(None)));
    PendingOrOnTheWay(s);
    hide Inv, Run, OnTheWay, StaysPending, ResultMayCome;
    if HasContinuation(s.fs.phase) && ResultMayCome(s) && s.fs.executor.Some? {
      ReachesTheQueue(s);
    } else if between, s1 :| Races(s, between, s1) {
      RunStaysPending(s, between, s1);
      PendingIsInline(s1);
      hide Inline, NoneGiven;
      var acts :| Run(Cleared(s1), acts, CRASH) && NoneGiven(acts);
      InlineNeverCrashesSo(Cleared(s1), acts, CRASH);
    }
  }

  // ---------------------------------------------------------------- such a state arises

  /** A future with executor 0, where continuation 7 is being installed, and a promise that is not set. */
  function Awaited(pc: ConsumerPc): State {
    var written := pc.CIdle? || pc.CLoad? || pc.CCas1?;
    State(Fields(if pc.CIdle? then OnlyContinuation else Start, 2, 0, 1, false, Nothing, if written then Live(7) else Raw, Some(0), None),
          Threads(PIdle, pc, BNone), Handles(1, 1, 0, 0, 0, 0), Work(0, 0, 0, NotSubmitted, NotRun),
          History(0, [], if written then [7] else [], [], [], 0, 0, 0))
  }

  predicate Goes(s: State, a: Action, s1: State) {
    Enabled(s, a) && Next(s, a) == Ok(s1) && a != HandleMoves(ForceScheduled(true))
  }

  ghost predicate Arises(s: State, acts: seq<Action>, s1: State) {
    Run(s, acts, Ok(s1)) && forall i :: 0 <= i < |acts| ==> acts[i] != HandleMoves(ForceScheduled(true))
  }

  lemma {:induction false} ArisesAtOnce(s: State)
    ensures Arises(s, [], s)
  {
  }

  lemma {:induction false} ArisesAfter(s: State, a: Action, s1: State, acts: seq<Action>, s2: State)
    requires Goes(s, a, s1) && Arises(s1, acts, s2)
    ensures Arises(s, [a] + acts, s2)
  {
    assert ([a] + acts)[1..] == acts;
    hide Next, Enabled;
  }

  lemma {:induction false} InstallStep(pc: ConsumerPc, pc1: ConsumerPc)
    requires (pc == CCheck(7) && pc1 == CWrite(7)) || (pc == CWrite(7) && pc1 == CLoad) || (pc == CLoad && pc1 == CCas1) || (pc == CCas1 && pc1 == CIdle)
    ensures Goes(Awaited(pc), ConsumerMoves(false), Awaited(pc1))
  {
  }

  lemma {:induction false} SettingUp()
    ensures var s1 := Next(INITIAL, HandleMoves(GetFuture)).s;
      var s2 := Next(s1, HandleMoves(SetExecutor(Some(0)))).s;
      Goes(INITIAL, HandleMoves(GetFuture), s1) && Goes(s1, HandleMoves(SetExecutor(Some(0))), s2) &&
      Goes(s2, BeginSetContinuation(7), Awaited(CCheck(7)))
  {
  }

  lemma {:induction false} AwaitedArises()
    ensures exists acts :: Arises(INITIAL, acts, Awaited(CIdle))
  {
    hide Arises, Goes, Awaited, Next, Enabled;
    var m, end := ConsumerMoves(false), Awaited(CIdle);
    SettingUp();
    ArisesAtOnce(end);
    InstallStep(CCas1, CIdle);
    InstallStep(CLoad, CCas1);
    InstallStep(CWrite(7), CLoad);
    InstallStep(CCheck(7), CWrite(7));
    var s1 := Next(INITIAL, HandleMoves(GetFuture)).s;
    var s2 := Next(s1, HandleMoves(SetExecutor(Some(0)))).s;
    ArisesAfter(Awaited(CCas1), m, end, [], end);
    ArisesAfter(Awaited(CLoad), m, Awaited(CCas1), [m] + [], end);
    ArisesAfter(Awaited(CWrite(7)), m, Awaited(CLoad), [m] + ([m] + []), end);
    ArisesAfter(Awaited(CCheck(7)), m, Awaited(CWrite(7)), [m] + ([m] + ([m] + [])), end);
    var install := [m] + ([m] + ([m] + ([m] + [])));
    ArisesAfter(s2, BeginSetContinuation(7), Awaited(CCheck(7)), install, end);
    ArisesAfter(s1, HandleMoves(SetExecutor(Some(0))), s2, [BeginSetContinuation(7)] + install, end);
    ArisesAfter(INITIAL, HandleMoves(GetFuture), s1, [HandleMoves(SetExecutor(Some(0)))] + ([BeginSetContinuation(7)] + install), end);
  }

  /** SetExecutor, SetContinuation, then Wait while the result arrives: a call through a null pointer although scheduling was
      never forced. */
  lemma {:induction false} WaitMayCrash()
    ensures exists acts, s :: Arises(INITIAL, acts, s) && AboutToClear(s) && CanRace(s)
  {
    AwaitedArises();
    var s := Awaited(CIdle);
    assert AboutToClear(s) && OnTheWay(s);
    hide Arises, AboutToClear, OnTheWay, CanRace, Awaited;
    ReachesTheQueue(s);
  }
}
