/** What every run of the shared state keeps, and what follows for whole runs. */
module FutureStateProofs {
  import opened TryModel
  import opened FutureStateMachine

  predicate InSetResult(p: ProducerPc) {
    p.PWrite? || p.PLoad? || p.PCas1? || p.PAssert? || p.PCas2?
  }

  predicate ResultWritten(p: Phase, pc: ProducerPc) {
    HasResult(p) || (InSetResult(pc) && !pc.PWrite?)
  }

  predicate InSetContinuation(c: ConsumerPc) {
    c.CWrite? || c.CLoad? || c.CCas1? || c.CAssert? || c.CCas2?
  }

  predicate ContinuationWritten(p: Phase, pc: ConsumerPc) {
    HasContinuation(p) || (InSetContinuation(pc) && !pc.CWrite?)
  }

  /** The producer's half of the CAS protocol. */
  predicate ProducerHandoff(fs: Fields, p: ProducerPc, log: History) {
    && (InSetResult(p) ==> !HasResult(fs.phase))
    && (p.PAssert? || p.PCas2? ==> p.seen == fs.phase == OnlyContinuation)
    && |log.stored| == (if ResultWritten(fs.phase, p) then 1 else 0)
    && (log.stored != [] ==> fs.tryValue == log.stored[0].v)
    && (p.PSched? ==> fs.phase.Done? && p.at != NoSched && log.scheduledBy == [Producer])
  }

  /** The consumer's half. */
  predicate ConsumerHandoff(fs: Fields, c: ConsumerPc, log: History) {
    && (InSetContinuation(c) ==> !HasContinuation(fs.phase))
    && (c.CAssert? || c.CCas2? ==> c.seen == fs.phase == OnlyResult)
    && |log.installed| == (if ContinuationWritten(fs.phase, c) then 1 else 0)
    && (if log.installed == [] then fs.continuation.Raw? else !fs.continuation.Raw? && fs.continuation.id == log.installed[0])
    && (c.CSched? ==> fs.phase.Done? && c.at != NoSched && log.scheduledBy == [Consumer])
  }

  predicate Handoff(s: State) {
    && ProducerHandoff(s.fs, s.ctl.producer, s.log)
    && ConsumerHandoff(s.fs, s.ctl.consumer, s.log)
    && |s.log.scheduledBy| == (if s.fs.phase.Done? then 1 else 0)
  }

  predicate NoJob(exec: Work) {
    exec.job.NotSubmitted? && exec.run.NotRun? && exec.closures == exec.closuresUp == exec.closuresDown == 0
  }

  predicate RunsByExecutor(exec: Work, log: History) {
    && |log.invoked| == (if exec.run.NotRun? then 0 else 1)
    && log.running == (if exec.run.Running? then 1 else 0)
    && (exec.run.Running? ==> exec.closures > 0)
  }

  predicate JobAnswered(exec: Work, log: History) {
    if exec.job.Accepted? then RunsByExecutor(exec, log) && (exec.run.Ran? || exec.closures > 0)
    else exec.job.Rejected? && exec.run.NotRun? && |log.invoked| == 1 && log.running == 0
  }

  /** How far the one call of the continuation has got when the scheduling thread is at `at`. */
  predicate Progress(at: SchedPc, slot: Slot, exec: Work, log: History) {
    match at
    case Decide | Attach | Ref | Call | FirstAttach | FirstRef | SecondAttach | SecondRef | Submit =>
      NoJob(exec) && log.invoked == [] && log.running == 0 && !slot.Dead?
    case Calling => NoJob(exec) && |log.invoked| == 1 && log.running == 1 && slot.Live?
    case Deref => NoJob(exec) && |log.invoked| == 1 && log.running == 0 && slot.Live?
    case AwaitAnswer => exec.job.Offered? && RunsByExecutor(exec, log) && slot.Live?
    case FallbackCall => exec.job.Rejected? && exec.run.NotRun? && log.invoked == [] && log.running == 0 && slot.Live?
    case FallbackCalling => exec.job.Rejected? && exec.run.NotRun? && |log.invoked| == 1 && log.running == 1 && slot.Live?
    case Release => JobAnswered(exec, log) && slot.Live?
    case LastDetach | NoSched =>
      && (if exec.job.NotSubmitted? then NoJob(exec) && |log.invoked| == 1 && log.running == 0 else JobAnswered(exec, log))
      && (slot.Live? <==> exec.closures > 0)
  }

  predicate Schedule(s: State) {
    && s.log.destroyed == (if s.fs.continuation.Dead? then 1 else 0)
    && (s.log.invoked != [] ==> s.log.stored != [] && s.log.invoked == [s.log.stored[0].v])
    && (s.exec.closuresUp > 0 ==> s.exec.closures > 0)
    && Progress(if s.fs.phase.Done? then At(s.ctl) else Decide, s.fs.continuation, s.exec, s.log)
  }

  /** promise_ref_ and the last ~Promise. */
  predicate Promises(promiseRef: nat, phase: Phase, ctl: Threads, hold: Handles, stored: seq<Stored>, setters: nat) {
    && promiseRef == hold.promises + hold.copying + hold.abandonedPromises
    && (!ctl.breaker.BNone? ==> promiseRef == 0)
    && (ctl.breaker.BCheck? ==> ctl.producer.PIdle?)
    && (ctl.breaker.BSetting? ==> !ctl.producer.PIdle? && (ctl.producer.PCheck? ==> !HasResult(phase)))
    && (promiseRef == 0 && ctl.breaker.BNone? ==> HasResult(phase))
    && (!ctl.producer.PIdle? && !ctl.breaker.BSetting? ==> hold.promises > 0)
    && (hold.copying > 0 ==> hold.promises > 0)
    && (!ctl.consumer.CIdle? ==> hold.futures > 0)
    && (ctl.breaker.BSetting? && (ctl.producer.PCheck? || ctl.producer.PWrite?) ==> ctl.producer.v == BROKEN)
    && (ctl.breaker.BSetting? && stored != [] ==> stored[0].byBreaker)
    && (stored != [] && stored[0].byBreaker ==> stored[0].v == BROKEN && promiseRef == 0)
    && (setters > 0 <==> (stored != [] && !stored[0].byBreaker) || (!ctl.producer.PIdle? && !ctl.breaker.BSetting?))
  }

  /** There is an executor on the way to Submit, and before it if scheduling is forced. */
  predicate ExecutorKnown(fs: Fields, at: SchedPc) {
    fs.executor.None? ==> MayBeNull(fs, at)
  }

  /** The counters agree with what is alive; the state is freed exactly when the last holder is gone. */
  predicate Counters(s: State) {
    && s.fs.attached == Holders(s) <= 255
    && s.fs.continuationRef == Refs(s.ctl, s.exec)
    && s.log.freed == (if Holders(s) == 0 then 1 else 0)
  }

  predicate Protocol(s: State) {
    Handoff(s) && Schedule(s) && ExecutorKnown(s.fs, At(s.ctl))
  }

  predicate PromisesCounted(s: State) {
    Promises(s.fs.promiseRef, s.fs.phase, s.ctl, s.hold, s.log.stored, s.log.setters)
  }

  predicate Inv(s: State) {
    Protocol(s) && PromisesCounted(s) && Counters(s)
  }

  // ---------------------------------------------------------------- one step keeps the protocol

  predicate InSched(s: State, who: Party, at: SchedPc) {
    if who.Producer? then s.ctl.producer == PSched(at) else s.ctl.consumer == CSched(at)
  }

  predicate Kept(c: Config) {
    c.Ok? && Protocol(c.s)
  }

  /** All that the protocol needs to know about the counters. */
  predicate Counted(s: State) {
    s.fs.attached > 0 && s.fs.continuationRef == Refs(s.ctl, s.exec)
  }

  lemma {:induction false} SettingUpKeepsProtocol(s: State, who: Party, at: SchedPc, choice: bool)
    requires Protocol(s) && InSched(s, who, at)
    requires at.Decide? || at.Attach? || at.Ref? || at.FirstAttach? || at.FirstRef? || at.SecondAttach? || at.SecondRef? || at.Submit?
    ensures Kept(SchedMove(s, who, at, choice))
  {
  }

  lemma {:induction false} CallKeepsProtocol(s: State, who: Party, at: SchedPc, choice: bool)
    requires Protocol(s) && InSched(s, who, at)
    requires at.Call? || at.Calling? || at.FallbackCall? || at.FallbackCalling?
    ensures Kept(SchedMove(s, who, at, choice))
  {
  }

  lemma {:induction false} AnswerKeepsProtocol(s: State, who: Party, choice: bool)
    requires Protocol(s) && InSched(s, who, AwaitAnswer) && AnswerAllowed(s.exec, choice)
    ensures Kept(SchedMove(s, who, AwaitAnswer, choice))
  {
  }

  lemma {:induction false} CallingKeepsProtocol(s: State, who: Party, at: SchedPc, choice: bool)
    requires Protocol(s) && InSched(s, who, at)
    requires at.Call? || at.Calling? || at.FallbackCall? || at.FallbackCalling? || at.AwaitAnswer?
    requires at.AwaitAnswer? ==> AnswerAllowed(s.exec, choice)
    ensures Kept(SchedMove(s, who, at, choice))
  {
    hide Protocol, SchedMove;
    if at.AwaitAnswer? { AnswerKeepsProtocol(s, who, choice); } else { CallKeepsProtocol(s, who, at, choice); }
  }

  lemma {:induction false} ReleasingKeepsProtocol(s: State, who: Party, at: SchedPc, choice: bool)
    requires Protocol(s) && Counted(s) && InSched(s, who, at)
    requires at.Deref? || at.Release?
    ensures Kept(SchedMove(s, who, at, choice))
  {
  }

  /** Leaving SetResult or SetContinuation after LastDetach. */
  predicate Leaves(s: State, s1: State, who: Party) {
    HandlesApart(s.(ctl := s1.ctl), s1) &&
    (if who.Producer? then s1.ctl.producer.PIdle? && s1.ctl.consumer == s.ctl.consumer
     else s1.ctl.consumer.CIdle? && s1.ctl.producer == s.ctl.producer)
  }

  lemma {:induction false} LastDetachLeaves(s: State, who: Party, choice: bool)
    requires s.fs.attached > 0 && InSched(s, who, LastDetach)
    ensures SchedMove(s, who, LastDetach, choice).Ok? && Leaves(s, SchedMove(s, who, LastDetach, choice).s, who)
  {
  }

  lemma {:induction false} LeftProtocol(s: State, who: Party, ctl: Threads)
    requires Protocol(s) && InSched(s, who, LastDetach)
    requires if who.Producer? then ctl.producer.PIdle? && ctl.consumer == s.ctl.consumer else ctl.consumer.CIdle? && ctl.producer == s.ctl.producer
    ensures Protocol(s.(ctl := ctl))
  {
  }

  lemma {:induction false} LeavingKeepsProtocol(s: State, who: Party, choice: bool)
    requires Protocol(s) && s.fs.attached > 0 && InSched(s, who, LastDetach)
    ensures Kept(SchedMove(s, who, LastDetach, choice))
  {
    var c := SchedMove(s, who, LastDetach, choice);
    LastDetachLeaves(s, who, choice);
    hide Protocol, HandlesApart, SchedMove;
    LeftProtocol(s, who, c.s.ctl);
    ProtocolApart(s.(ctl := c.s.ctl), c.s);
  }

  lemma {:induction false} WritingKeepsProtocol(s: State)
    requires Protocol(s) && (s.ctl.producer.PCheck? || s.ctl.producer.PWrite? || s.ctl.producer.PLoad?)
    ensures Kept(ResultStep(s))
  {
  }

  lemma {:induction false} ExchangingKeepsProtocol(s: State)
    requires Protocol(s) && (s.ctl.producer.PCas1? || s.ctl.producer.PAssert? || s.ctl.producer.PCas2?)
    ensures Kept(ResultStep(s))
  {
  }

  lemma {:induction false} ResultKeepsProtocol(s: State)
    requires Protocol(s) && !s.ctl.producer.PSched?
    ensures Kept(ResultStep(s))
  {
    hide Protocol;
    match s.ctl.producer
    case PIdle =>
    case PCheck(_) | PWrite(_) | PLoad => WritingKeepsProtocol(s);
    case _ => ExchangingKeepsProtocol(s);
  }

  lemma {:induction false} InstallingKeepsProtocol(s: State)
    requires Protocol(s) && (s.ctl.consumer.CCheck? || s.ctl.consumer.CWrite? || s.ctl.consumer.CLoad?)
    ensures Kept(ContinuationStep(s))
  {
  }

  lemma {:induction false} InstalledKeepsProtocol(s: State)
    requires Protocol(s) && (s.ctl.consumer.CCas1? || s.ctl.consumer.CAssert? || s.ctl.consumer.CCas2?)
    ensures Kept(ContinuationStep(s))
  {
  }

  lemma {:induction false} ContinuationKeepsProtocol(s: State)
    requires Protocol(s) && !s.ctl.consumer.CSched?
    ensures Kept(ContinuationStep(s))
  {
    hide Protocol;
    match s.ctl.consumer
    case CIdle =>
    case CCheck(_) | CWrite(_) | CLoad => InstallingKeepsProtocol(s);
    case _ => InstalledKeepsProtocol(s);
  }

  lemma {:induction false} JobKeepsProtocol(s: State, x: ExecutorAction)
    requires Protocol(s) && ExecutorMay(s.exec, x)
    requires x.RunJob? || x.EndJob? || x.CopyClosure? || x.CopyClosureRef?
    ensures Kept(ExecutorStep(s, x))
  {
  }

  /** Handles and their counters are nothing to the protocol, and neither is the end of a closure's destructor. */
  predicate HandlesApart(s: State, s1: State) {
    && s1.ctl == s.ctl.(breaker := s1.ctl.breaker)
    && s1.exec == s.exec.(closuresDown := s1.exec.closuresDown) && s1.exec.closuresDown <= s.exec.closuresDown
    && s1.fs == s.fs.(attached := s1.fs.attached, promiseRef := s1.fs.promiseRef)
    && s1.log == s.log.(freed := s1.log.freed)
  }

  lemma {:induction false} ProtocolApart(s: State, s1: State)
    requires Protocol(s) && HandlesApart(s, s1)
    ensures Protocol(s1)
  {
    assert s1.fs.executor == s.fs.executor && s1.fs.forced == s.fs.forced && s1.fs.phase == s.fs.phase;
    assert s1.fs.continuation == s.fs.continuation && s1.fs.tryValue == s.fs.tryValue;
    assert s1.log.stored == s.log.stored && s1.log.installed == s.log.installed && s1.log.scheduledBy == s.log.scheduledBy;
    assert s1.log.invoked == s.log.invoked && s1.log.running == s.log.running && s1.log.destroyed == s.log.destroyed;
    hide HandlesApart;
  }

  lemma {:induction false} DropClosureKeepsProtocol(s: State)
    requires Protocol(s) && Counted(s) && ExecutorMay(s.exec, DropClosure)
    ensures Kept(ExecutorStep(s, DropClosure))
  {
  }

  lemma {:induction false} DropDetachApart(s: State)
    requires s.fs.attached > 0 && ExecutorMay(s.exec, DropClosureDetach)
    ensures ExecutorStep(s, DropClosureDetach).Ok? && HandlesApart(s, ExecutorStep(s, DropClosureDetach).s)
  {
  }

  lemma {:induction false} DropKeepsProtocol(s: State, x: ExecutorAction)
    requires Protocol(s) && Counted(s) && ExecutorMay(s.exec, x)
    requires x.DropClosure? || x.DropClosureDetach?
    ensures Kept(ExecutorStep(s, x))
  {
    hide Protocol, ExecutorStep, HandlesApart;
    if x.DropClosure? {
      DropClosureKeepsProtocol(s);
    } else {
      DropDetachApart(s);
      ProtocolApart(s, ExecutorStep(s, x).s);
    }
  }

  lemma {:induction false} FutureHandlesApart(s: State, h: HandleAction)
    requires s.fs.attached > 0 && HandleMay(s, h)
    requires h.GetFuture? || h.DropFuture? || h.AbandonFuture?
    ensures HandleStep(s, h).Ok? && HandlesApart(s, HandleStep(s, h).s)
  {
  }

  lemma {:induction false} FutureHandlesKeepProtocol(s: State, h: HandleAction)
    requires Protocol(s) && s.fs.attached > 0 && HandleMay(s, h)
    requires h.GetFuture? || h.DropFuture? || h.AbandonFuture?
    ensures Kept(HandleStep(s, h))
  {
    hide Protocol, HandleStep, HandlesApart;
    FutureHandlesApart(s, h);
    ProtocolApart(s, HandleStep(s, h).s);
  }

  lemma {:induction false} SettingsKeepProtocol(s: State, h: HandleAction)
    requires Protocol(s) && HandleMay(s, h)
    requires h.SetExecutor? || h.Checkout? || h.ForceScheduled?
    requires h == SetExecutor(None) ==> MayBeNull(s.fs, At(s.ctl))
    ensures Kept(HandleStep(s, h))
  {
  }

  lemma {:induction false} PromiseHandlesApart(s: State, h: HandleAction)
    requires s.fs.attached > 0 && HandleMay(s, h) && s.fs.promiseRef >= s.hold.promises
    requires h.CopyPromise? || h.CopyPromiseAttach? || h.DropPromise? || h.DetachDying? || h.AbandonPromise?
    ensures HandleStep(s, h).Ok? && HandlesApart(s, HandleStep(s, h).s)
  {
  }

  lemma {:induction false} PromiseHandlesKeepProtocol(s: State, h: HandleAction)
    requires Protocol(s) && s.fs.attached > 0 && HandleMay(s, h) && s.fs.promiseRef >= s.hold.promises
    requires h.CopyPromise? || h.CopyPromiseAttach? || h.DropPromise? || h.DetachDying? || h.AbandonPromise?
    ensures Kept(HandleStep(s, h))
  {
    hide Protocol, HandleStep, HandlesApart;
    PromiseHandlesApart(s, h);
    ProtocolApart(s, HandleStep(s, h).s);
  }

  lemma {:induction false} BeginningsKeepProtocol(s: State, a: Action)
    requires Protocol(s) && PromisesCounted(s) && s.log.freed == 0 && Enabled(s, a)
    requires a.BeginSetResult? || a.BeginSetContinuation? || a.BreakerChecks?
    ensures Kept(Next(s, a))
  {
  }

  // ---------------------------------------------------------------- one step keeps promise_ref_

  predicate Promised(c: Config) {
    c.Ok? ==> PromisesCounted(c.s)
  }

  lemma {:induction false} SchedKeepsPromises(s: State, who: Party, at: SchedPc, choice: bool)
    requires Protocol(s) && PromisesCounted(s) && InSched(s, who, at)
    ensures Promised(SchedMove(s, who, at, choice))
  {
    hide Schedule, ExecutorKnown;
  }

  lemma {:induction false} ResultKeepsPromises(s: State)
    requires Protocol(s) && PromisesCounted(s) && !s.ctl.producer.PSched?
    ensures Promised(ResultStep(s))
  {
    hide Schedule, ExecutorKnown;
  }

  lemma {:induction false} ContinuationKeepsPromises(s: State)
    requires Protocol(s) && PromisesCounted(s) && !s.ctl.consumer.CSched?
    ensures Promised(ContinuationStep(s))
  {
    hide Schedule, ExecutorKnown;
  }

  lemma {:induction false} ExecutorKeepsPromises(s: State, x: ExecutorAction)
    requires PromisesCounted(s) && ExecutorMay(s.exec, x)
    ensures Promised(ExecutorStep(s, x))
  {
  }

  lemma {:induction false} FutureHandlesKeepPromises(s: State, h: HandleAction)
    requires PromisesCounted(s) && HandleMay(s, h)
    requires h.GetFuture? || h.DropFuture? || h.AbandonFuture? || h.SetExecutor? || h.Checkout? || h.ForceScheduled?
    ensures Promised(HandleStep(s, h))
  {
  }

  lemma {:induction false} PromiseHandlesKeepPromises(s: State, h: HandleAction)
    requires PromisesCounted(s) && HandleMay(s, h)
    requires h.CopyPromise? || h.CopyPromiseAttach? || h.DropPromise? || h.DetachDying? || h.AbandonPromise?
    ensures Promised(HandleStep(s, h))
  {
  }

  lemma {:induction false} BeginningsKeepPromises(s: State, a: Action)
    requires Protocol(s) && PromisesCounted(s) && s.log.freed == 0 && Enabled(s, a)
    requires a.BeginSetResult? || a.BeginSetContinuation? || a.BreakerChecks?
    ensures Promised(Next(s, a))
  {
    hide Schedule, ExecutorKnown;
  }

  // ---------------------------------------------------------------- one step keeps the counters

  predicate Recounted(c: Config) {
    c.Ok? && Holders(c.s) <= 255 ==> Counters(c.s)
  }

  lemma {:induction false} SettingUpKeepsCounters(s: State, who: Party, at: SchedPc, choice: bool)
    requires Counters(s) && s.log.freed == 0 && InSched(s, who, at)
    requires at.Decide? || at.Attach? || at.FirstAttach? || at.SecondAttach?
    ensures Recounted(SchedMove(s, who, at, choice))
  {
  }

  lemma {:induction false} ReferringKeepsCounters(s: State, who: Party, at: SchedPc, choice: bool)
    requires Counters(s) && s.log.freed == 0 && InSched(s, who, at)
    requires at.Ref? || at.FirstRef? || at.SecondRef? || at.Submit?
    ensures Recounted(SchedMove(s, who, at, choice))
  {
  }

  lemma {:induction false} CallingKeepsCounters(s: State, who: Party, at: SchedPc, choice: bool)
    requires Counters(s) && s.log.freed == 0 && InSched(s, who, at)
    requires at.Call? || at.Calling? || at.FallbackCall? || at.FallbackCalling? || at.AwaitAnswer?
    ensures Recounted(SchedMove(s, who, at, choice))
  {
  }

  lemma {:induction false} ReleasingKeepsCounters(s: State, who: Party, at: SchedPc, choice: bool)
    requires Counters(s) && s.log.freed == 0 && InSched(s, who, at)
    requires at.Deref? || at.Release?
    ensures Recounted(SchedMove(s, who, at, choice))
  {
  }

  lemma {:induction false} LeavingKeepsCounters(s: State, who: Party, choice: bool)
    requires Counters(s) && s.log.freed == 0 && InSched(s, who, LastDetach)
    ensures Recounted(SchedMove(s, who, LastDetach, choice))
  {
  }

  lemma {:induction false} WritingKeepsCounters(s: State)
    requires Counters(s) && s.log.freed == 0 && (s.ctl.producer.PCheck? || s.ctl.producer.PWrite? || s.ctl.producer.PLoad?)
    ensures Recounted(ResultStep(s))
  {
  }

  lemma {:induction false} ExchangingKeepsCounters(s: State)
    requires Counters(s) && s.log.freed == 0 && (s.ctl.producer.PCas1? || s.ctl.producer.PAssert? || s.ctl.producer.PCas2?)
    ensures Recounted(ResultStep(s))
  {
  }

  lemma {:induction false} ResultKeepsCounters(s: State)
    requires Counters(s) && s.log.freed == 0 && !s.ctl.producer.PSched?
    ensures Recounted(ResultStep(s))
  {
    hide Counters;
    match s.ctl.producer
    case PIdle =>
    case PCheck(_) | PWrite(_) | PLoad => WritingKeepsCounters(s);
    case _ => ExchangingKeepsCounters(s);
  }

  lemma {:induction false} ContinuationKeepsCounters(s: State)
    requires Counters(s) && s.log.freed == 0 && !s.ctl.consumer.CSched?
    ensures Recounted(ContinuationStep(s))
  {
  }

  lemma {:induction false} ExecutorKeepsCounters(s: State, x: ExecutorAction)
    requires Counters(s) && s.log.freed == 0 && ExecutorMay(s.exec, x)
    ensures Recounted(ExecutorStep(s, x))
  {
  }

  lemma {:induction false} FutureHandlesKeepCounters(s: State, h: HandleAction)
    requires Counters(s) && s.log.freed == 0 && HandleMay(s, h)
    requires h.GetFuture? || h.DropFuture? || h.AbandonFuture? || h.SetExecutor? || h.Checkout? || h.ForceScheduled?
    ensures Recounted(HandleStep(s, h))
  {
  }

  lemma {:induction false} PromiseHandlesKeepCounters(s: State, h: HandleAction)
    requires Counters(s) && s.log.freed == 0 && HandleMay(s, h)
    requires h.CopyPromise? || h.CopyPromiseAttach? || h.DropPromise? || h.DetachDying? || h.AbandonPromise?
    requires h.DropPromise? ==> s.ctl.breaker.BNone?
    ensures Recounted(HandleStep(s, h))
  {
  }

  lemma {:induction false} HandlesKeepCounters(s: State, h: HandleAction)
    requires Counters(s) && s.log.freed == 0 && HandleMay(s, h)
    requires h.DropPromise? ==> s.ctl.breaker.BNone?
    ensures Recounted(HandleStep(s, h))
  {
    hide Counters, HandleStep, Recounted;
    match h
    case CopyPromise | CopyPromiseAttach | DropPromise | DetachDying | AbandonPromise => PromiseHandlesKeepCounters(s, h);
    case _ => FutureHandlesKeepCounters(s, h);
  }

  lemma {:induction false} BeginningsKeepCounters(s: State, a: Action)
    requires Counters(s) && s.log.freed == 0 && Enabled(s, a)
    requires a.BeginSetResult? || a.BeginSetContinuation? || (a.BreakerChecks? && s.ctl.producer.PIdle?)
    ensures Recounted(Next(s, a))
  {
  }

  // ---------------------------------------------------------------- whole runs

  predicate Sound(c: Config) {
    c.Ok? && (Holders(c.s) <= 255 ==> Inv(c.s))
  }

  lemma {:induction false} SchedIsSound(s: State, who: Party, at: SchedPc, choice: bool)
    requires Inv(s) && s.log.freed == 0 && InSched(s, who, at)
    requires at.AwaitAnswer? ==> AnswerAllowed(s.exec, choice)
    ensures Sound(SchedMove(s, who, at, choice))
  {
    SchedKeepsPromises(s, who, at, choice);
    match at
    case NoSched => assert false;
    case Decide | Attach | FirstAttach | SecondAttach =>
      SettingUpKeepsProtocol(s, who, at, choice); SettingUpKeepsCounters(s, who, at, choice);
    case Ref | FirstRef | SecondRef | Submit =>
      SettingUpKeepsProtocol(s, who, at, choice); ReferringKeepsCounters(s, who, at, choice);
    case Call | Calling | FallbackCall | FallbackCalling | AwaitAnswer =>
      CallingKeepsProtocol(s, who, at, choice); CallingKeepsCounters(s, who, at, choice);
    case Deref | Release =>
      ReleasingKeepsProtocol(s, who, at, choice); ReleasingKeepsCounters(s, who, at, choice);
    case LastDetach =>
      LeavingKeepsProtocol(s, who, choice); LeavingKeepsCounters(s, who, choice);
  }

  lemma {:induction false} ExecutorIsSound(s: State, x: ExecutorAction)
    requires Inv(s) && s.log.freed == 0 && ExecutorMay(s.exec, x)
    ensures Sound(ExecutorStep(s, x))
  {
    ExecutorKeepsPromises(s, x);
    ExecutorKeepsCounters(s, x);
    if x.DropClosure? || x.DropClosureDetach? { DropKeepsProtocol(s, x); } else { JobKeepsProtocol(s, x); }
  }

  lemma {:induction false} HandlesAreSound(s: State, h: HandleAction)
    requires Inv(s) && s.log.freed == 0 && HandleMay(s, h)
    requires h == SetExecutor(None) ==> MayBeNull(s.fs, At(s.ctl))
    ensures Sound(HandleStep(s, h))
  {
    HandlesKeepCounters(s, h);
    match h
    case GetFuture | DropFuture | AbandonFuture =>
      FutureHandlesKeepProtocol(s, h); FutureHandlesKeepPromises(s, h);
    case SetExecutor(_) => SettingsKeepProtocol(s, h); FutureHandlesKeepPromises(s, h);
    case Checkout(_) => SettingsKeepProtocol(s, h); FutureHandlesKeepPromises(s, h);
    case ForceScheduled(_) => SettingsKeepProtocol(s, h); FutureHandlesKeepPromises(s, h);
    case _ => PromiseHandlesKeepProtocol(s, h); PromiseHandlesKeepPromises(s, h);
  }

  predicate InsideOrRunning(s: State) {
    && (s.ctl.producer.PSched? ==> s.ctl.producer.at != NoSched) && (s.ctl.consumer.CSched? ==> s.ctl.consumer.at != NoSched)
    && (s.exec.run.Running? ==> s.exec.closures > 0)
  }

  lemma {:induction false} ProtocolKnowsWhere(s: State)
    requires Protocol(s)
    ensures InsideOrRunning(s)
  {
    hide ExecutorKnown;
  }

  lemma {:induction false} SomebodyHolds(s: State, a: Action)
    requires PromisesCounted(s) && Enabled(s, a) && InsideOrRunning(s)
    ensures Holders(s) > 0
  {
  }

  /** Whoever can still act on the state holds it, so it has not been freed. */
  lemma {:induction false} ActorsHoldTheState(s: State, a: Action)
    requires Inv(s) && Enabled(s, a)
    ensures s.log.freed == 0
  {
    ProtocolKnowsWhere(s);
    hide Protocol, Enabled, InsideOrRunning, Holders;
    SomebodyHolds(s, a);
  }

  /** Every step anybody can take finds the state alive, meets no failing assertion and keeps the invariant. */
  lemma {:induction false} StepKeepsInv(s: State, a: Action)
    requires Inv(s) && Enabled(s, a) && Careful(s, a)
    ensures Sound(Next(s, a))
  {
    ActorsHoldTheState(s, a);
    match a
    case ProducerMoves(choice) =>
      if s.ctl.producer.PSched? {
        SchedIsSound(s, Producer, s.ctl.producer.at, choice);
      } else {
        ResultKeepsProtocol(s); ResultKeepsPromises(s); ResultKeepsCounters(s);
      }
    case ConsumerMoves(choice) =>
      if s.ctl.consumer.CSched? {
        SchedIsSound(s, Consumer, s.ctl.consumer.at, choice);
      } else {
        ContinuationKeepsProtocol(s); ContinuationKeepsPromises(s); ContinuationKeepsCounters(s);
      }
    case ExecutorMoves(x) => ExecutorIsSound(s, x);
    case HandleMoves(h) => HandlesAreSound(s, h);
    case _ => BeginningsKeepProtocol(s, a); BeginningsKeepPromises(s, a); BeginningsKeepCounters(s, a);
  }

  lemma {:induction false} RunKeepsInv(s: State, acts: seq<Action>, c: Config)
    requires Inv(s) && CarefulRun(s, acts, c)
    ensures c.Ok? && Inv(c.s)
    decreases |acts|
  {
    if acts != [] {
      StepKeepsInv(s, acts[0]);
      RunKeepsInv(Next(s, acts[0]).s, acts[1..], c);
    }
  }
}
