/** The state shared by a promise and a future, split at its atomic operations.

    `Fields` are the members of the C++ object. The rest of `State` is the world around it: the program counters of
    the threads inside one of its methods, the live handles, the job given to the executor, and a history. */
module FutureStateMachine {
  import opened TryModel

  datatype Phase = Start | OnlyResult | OnlyContinuation | Done

  predicate HasResult(p: Phase) {
    p.OnlyResult? || p.Done?
  }

  predicate HasContinuation(p: Phase) {
    p.OnlyContinuation? || p.Done?
  }

  /** The union member `continuation_`: raw storage, a constructed callable, or a destroyed one. */
  datatype Slot = Raw | Live(id: nat) | Dead(id: nat)

  datatype Fields = Fields(
    phase: Phase,
    attached: nat,         // uint8_t
    continuationRef: nat,  // uint8_t
    promiseRef: nat,       // size_t
    forced: bool,
    tryValue: Try<int>,
    continuation: Slot,
    executor: Option<nat>,
    context: Option<nat>)

  /** Where a thread inside `ScheduleContinuation` stands. */
  datatype SchedPc =
    | NoSched
    | Decide
    | Attach | Ref | Call | Calling | Deref               // immediate path: guard, the call
    | FirstAttach | FirstRef | SecondAttach | SecondRef   // queued path: guard, guard_for_exception
    | Submit | AwaitAnswer                                // Schedule or Checkin
    | FallbackCall | FallbackCalling                      // the executor refused
    | Release                                             // guard_for_exception goes out of scope
    | LastDetach                                          // second half of a guard's destructor

  datatype ProducerPc =
    | PIdle
    | PCheck(v: Try<int>) | PWrite(v: Try<int>) | PLoad | PCas1
    | PAssert(seen: Phase) | PCas2(seen: Phase)
    | PSched(at: SchedPc)

  datatype ConsumerPc =
    | CIdle
    | CCheck(k: nat) | CWrite(k: nat) | CLoad | CCas1
    | CAssert(seen: Phase) | CCas2(seen: Phase)
    | CSched(at: SchedPc)

  /** The last `~Promise`: between dropping promise_ref_ to 0 and the end of `DetachPromise`. */
  datatype BreakerPc = BNone | BCheck | BSetting

  datatype Threads = Threads(producer: ProducerPc, consumer: ConsumerPc, breaker: BreakerPc)

  datatype Handles = Handles(
    futures: nat,
    promises: nat,
    copying: nat,            // promise copies that counted promise_ref_ but have not attached yet
    dying: nat,              // promise destructors that only have DetachOne left
    abandonedFutures: nat,   // overwritten by a move assignment, never detached
    abandonedPromises: nat)

  datatype Submission = BySchedule(e: nat) | ByCheckin(e: nat, c: nat, prompt: bool)
  datatype Job = NotSubmitted | Offered(how: Submission) | Accepted(how: Submission) | Rejected(how: Submission)
  datatype RunPc = NotRun | Running | Ran

  /** The queued closure and its copies; each owns a ContinuationReference. */
  datatype Work = Work(
    closures: nat,
    closuresUp: nat,         // copies that attached but have not counted continuation_ref_ yet
    closuresDown: nat,       // destructors that only have DetachOne left
    job: Job,
    run: RunPc)

  datatype Party = Producer | Consumer
  datatype Stored = Stored(v: Try<int>, byBreaker: bool)

  datatype History = History(
    setters: nat,            // calls of SetResult made through a promise
    stored: seq<Stored>,     // results written to try_value_
    installed: seq<nat>,     // continuations constructed in continuation_
    scheduledBy: seq<Party>, // who moved the state to Done
    invoked: seq<Try<int>>,  // arguments the continuation was called with
    running: nat,            // calls in progress
    destroyed: nat,
    freed: nat)

  datatype State = State(fs: Fields, ctl: Threads, hold: Handles, exec: Work, log: History)

  /** What must never happen: each is an assertion, an error branch or undefined behaviour of the source. */
  datatype Fault =
    | UseAfterFree | AssertFailed | TransferError | NotDone | NullExecutor
    | NoContinuation | DestroyedWhileRunning | DestroyedTwice

  datatype Config = Ok(s: State) | Crashed(why: Fault)
  {
    predicate IsFailure() { Crashed? }
    function PropagateFailure(): Config requires Crashed? { this }
    function Extract(): State requires Ok? { s }
  }

  // ---------------------------------------------------------------- primitives

  /** fetch_add on a uint8_t. */
  function Wrapped(n: nat): nat {
    if n == 255 then 0 else n + 1
  }

  function AttachOne(s: State): State {
    s.(fs := s.fs.(attached := Wrapped(s.fs.attached)))
  }

  function DetachOne(s: State): Config {
    if s.fs.attached == 0 then Crashed(AssertFailed)
    else if s.fs.attached == 1
    then Ok(s.(fs := s.fs.(attached := 0), log := s.log.(freed := s.log.freed + 1)))
    else Ok(s.(fs := s.fs.(attached := s.fs.attached - 1)))
  }

  function RefContinuation(s: State): State {
    s.(fs := s.fs.(continuationRef := Wrapped(s.fs.continuationRef)))
  }

  function DerefContinuation(s: State): Config {
    if s.fs.continuationRef == 0 then Crashed(AssertFailed)
    else if s.fs.continuationRef != 1 then Ok(s.(fs := s.fs.(continuationRef := s.fs.continuationRef - 1)))
    else if !s.fs.continuation.Live? then Crashed(DestroyedTwice)
    else if s.log.running != 0 then Crashed(DestroyedWhileRunning)
    else Ok(s.(fs := s.fs.(continuationRef := 0, continuation := Dead(s.fs.continuation.id)),
               log := s.log.(destroyed := s.log.destroyed + 1)))
  }

  function BeginCall(s: State): Config {
    if !s.fs.continuation.Live? then Crashed(NoContinuation)
    else Ok(s.(log := s.log.(invoked := s.log.invoked + [s.fs.tryValue], running := s.log.running + 1)))
  }

  function EndCall(s: State): State {
    s.(log := s.log.(running := if s.log.running > 0 then s.log.running - 1 else 0))
  }

  // ---------------------------------------------------------------- ScheduleContinuation

  datatype SchedOut = Go(s: State, at: SchedPc) | Fault(why: Fault)

  function Lift(c: Config, at: SchedPc): SchedOut {
    match c
    case Ok(s) => Go(s, at)
    case Crashed(f) => Fault(f)
  }

  /** One atomic step of ScheduleContinuation(trigger); `choice` is the answer of CurrentThreadInExecutor, of Schedule
      or of Checkin. The step to `NoSched` leaves the function. */
  function SchedStep(s: State, at: SchedPc, trigger: bool, choice: bool): SchedOut {
    match at
    case NoSched => Go(s, NoSched)
    case Decide =>
      if !s.fs.phase.Done? then Fault(NotDone)
      else Go(s, if !s.fs.forced && (s.fs.executor.None? || trigger || choice) then Attach else FirstAttach)
    case Attach => Go(AttachOne(s), Ref)
    case Ref => Go(RefContinuation(s), Call)
    case Call => Lift(BeginCall(s), Calling)
    case Calling => Go(EndCall(s), Deref)
    case Deref => Lift(DerefContinuation(s), LastDetach)
    case FirstAttach => Go(AttachOne(s), FirstRef)
    case FirstRef => Go(RefContinuation(s), SecondAttach)
    case SecondAttach => Go(AttachOne(s), SecondRef)
    case SecondRef => Go(RefContinuation(s), Submit)
    case Submit =>
      // the closure takes over the first guard's reference
      if s.fs.executor.None? then Fault(NullExecutor)
      else Go(s.(exec := s.exec.(job := Offered(HowSubmitted(s.fs)), closures := s.exec.closures + 1)), AwaitAnswer)
    case AwaitAnswer =>
      if !s.exec.job.Offered? then Fault(AssertFailed)
      else if choice then Go(s.(exec := s.exec.(job := Accepted(s.exec.job.how))), Release)
      else Go(s.(exec := s.exec.(job := Rejected(s.exec.job.how))), FallbackCall)
    case FallbackCall => Lift(BeginCall(s), FallbackCalling)
    case FallbackCalling => Go(EndCall(s), Release)
    case Release => Lift(DerefContinuation(s), LastDetach)
    case LastDetach => Lift(DetachOne(s), NoSched)
  }

  function HowSubmitted(fs: Fields): Submission
    requires fs.executor.Some?
  {
    if fs.context.None? then BySchedule(fs.executor.value)
    else ByCheckin(fs.executor.value, fs.context.value, !fs.forced)
  }

  // ---------------------------------------------------------------- SetResult and SetContinuation

  function AtProducer(s: State, pc: ProducerPc): State {
    s.(ctl := s.ctl.(producer := pc))
  }

  /** `SetResult` returns or throws; inside the last `~Promise` only DetachOne is left then. */
  function ProducerReturns(s: State): State {
    if s.ctl.breaker.BSetting?
    then s.(ctl := s.ctl.(producer := PIdle, breaker := BNone), hold := s.hold.(dying := s.hold.dying + 1))
    else AtProducer(s, PIdle)
  }

  function ResultStep(s: State): Config {
    match s.ctl.producer
    case PIdle => Ok(s)
    case PSched(_) => Ok(s)
    case PCheck(v) =>  // a second result is refused with a logic_error
      if HasResult(s.fs.phase) then Ok(ProducerReturns(s)) else Ok(AtProducer(s, PWrite(v)))
    case PWrite(v) =>
      Ok(AtProducer(s, PLoad).(fs := s.fs.(tryValue := v),
                               log := s.log.(stored := s.log.stored + [Stored(v, s.ctl.breaker.BSetting?)])))
    case PLoad =>
      (match s.fs.phase
       case Start => Ok(AtProducer(s, PCas1))
       case OnlyContinuation => Ok(AtProducer(s, PCas2(OnlyContinuation)))
       case _ => Crashed(TransferError))
    case PCas1 =>
      if s.fs.phase == Start
      then Ok(ProducerReturns(s.(fs := s.fs.(phase := OnlyResult))))
      else Ok(AtProducer(s, PAssert(s.fs.phase)))
    case PAssert(seen) =>
      if s.fs.phase == OnlyContinuation then Ok(AtProducer(s, PCas2(seen))) else Crashed(AssertFailed)
    case PCas2(seen) =>
      if s.fs.phase != seen then Crashed(TransferError) else
      Ok(AtProducer(s, PSched(Decide)).(fs := s.fs.(phase := Done),
                                               log := s.log.(scheduledBy := s.log.scheduledBy + [Producer])))
  }

  function AtConsumer(s: State, pc: ConsumerPc): State {
    s.(ctl := s.ctl.(consumer := pc))
  }

  function ContinuationStep(s: State): Config {
    match s.ctl.consumer
    case CIdle => Ok(s)
    case CSched(_) => Ok(s)
    case CCheck(k) =>
      Ok(AtConsumer(s, if HasContinuation(s.fs.phase) then CIdle else CWrite(k)))
    case CWrite(k) =>
      Ok(AtConsumer(s, CLoad).(fs := s.fs.(continuation := Live(k)),
                               log := s.log.(installed := s.log.installed + [k])))
    case CLoad =>
      (match s.fs.phase
       case Start => Ok(AtConsumer(s, CCas1))
       case OnlyResult => Ok(AtConsumer(s, CCas2(OnlyResult)))
       case _ => Crashed(TransferError))
    case CCas1 =>
      if s.fs.phase == Start
      then Ok(AtConsumer(s, CIdle).(fs := s.fs.(phase := OnlyContinuation)))
      else Ok(AtConsumer(s, CAssert(s.fs.phase)))
    case CAssert(seen) =>
      if s.fs.phase == OnlyResult then Ok(AtConsumer(s, CCas2(seen))) else Crashed(AssertFailed)
    case CCas2(seen) =>
      if s.fs.phase != seen then Crashed(TransferError) else
      Ok(AtConsumer(s, CSched(Decide)).(fs := s.fs.(phase := Done),
                                              log := s.log.(scheduledBy := s.log.scheduledBy + [Consumer])))
  }

  /** The scheduling thread arrives at `at`; `NoSched` means that it leaves SetResult or SetContinuation as well. */
  function Arrive(s: State, who: Party, at: SchedPc): State {
    match who
    case Producer => if at.NoSched? then ProducerReturns(s) else AtProducer(s, PSched(at))
    case Consumer => AtConsumer(s, if at.NoSched? then CIdle else CSched(at))
  }

  function SchedMove(s: State, who: Party, at: SchedPc, choice: bool): Config {
    match SchedStep(s, at, who.Consumer?, choice)
    case Fault(f) => Crashed(f)
    case Go(s1, at1) => Ok(Arrive(s1, who, at1))
  }

  // ---------------------------------------------------------------- everything the outside world can do

  datatype Action =
    | BeginSetResult(v: Try<int>) | ProducerMoves(choice: bool)
    | BeginSetContinuation(k: nat) | ConsumerMoves(choice: bool)
    | BreakerChecks
    | ExecutorMoves(x: ExecutorAction)
    | HandleMoves(h: HandleAction)

  datatype ExecutorAction = RunJob | EndJob | CopyClosure | CopyClosureRef | DropClosure | DropClosureDetach

  datatype HandleAction =
    | GetFuture | DropFuture | AbandonFuture
    | CopyPromise | CopyPromiseAttach | DropPromise | DetachDying | AbandonPromise
    | SetExecutor(e: Option<nat>) | Checkout(c: Option<nat>) | ForceScheduled(force: bool)

  /** What callers and the executor may do. A handle that is in use is not destroyed; at most one SetResult and one
      SetContinuation are in flight. The executor keeps a copy of a job it still has to run, runs a job it accepts and no job
      it refuses. */
  predicate Enabled(s: State, a: Action) {
    match a
    case BeginSetResult(_) => s.ctl.producer.PIdle? && s.hold.promises > 0
    case ProducerMoves(choice) =>
      !s.ctl.producer.PIdle? && (s.ctl.producer == PSched(AwaitAnswer) ==> AnswerAllowed(s.exec, choice))
    case BeginSetContinuation(_) => s.ctl.consumer.CIdle? && s.hold.futures > 0
    case ConsumerMoves(choice) =>
      !s.ctl.consumer.CIdle? && (s.ctl.consumer == CSched(AwaitAnswer) ==> AnswerAllowed(s.exec, choice))
    case BreakerChecks => s.ctl.breaker.BCheck?
    case ExecutorMoves(x) => ExecutorMay(s.exec, x)
    case HandleMoves(h) => HandleMay(s, h)
  }

  predicate AnswerAllowed(exec: Work, choice: bool) {
    if choice then !exec.run.NotRun? || exec.closures > 0 else exec.run.NotRun?
  }

  predicate ExecutorMay(exec: Work, x: ExecutorAction) {
    match x
    case RunJob => (exec.job.Offered? || exec.job.Accepted?) && exec.run.NotRun? && exec.closures > 0
    case EndJob => exec.run.Running?
    case CopyClosure => exec.closures > 0
    case CopyClosureRef => exec.closuresUp > 0
    case DropClosure =>
      || exec.closures > 1
      || (exec.closures == 1 && exec.closuresUp == 0 && !exec.run.Running? && !(exec.job.Accepted? && exec.run.NotRun?))
    case DropClosureDetach => exec.closuresDown > 0
  }

  predicate FutureUnused(s: State) {
    s.hold.futures > 1 || (s.hold.futures == 1 && s.ctl.consumer.CIdle?)
  }

  predicate PromiseUnused(s: State) {
    s.hold.promises > 1 || (s.hold.promises == 1 && s.hold.copying == 0 && s.ctl.producer.PIdle?)
  }

  predicate HandleMay(s: State, h: HandleAction) {
    match h
    case GetFuture => s.hold.promises > 0
    case DropFuture => FutureUnused(s)
    case AbandonFuture => FutureUnused(s)
    case CopyPromise => s.hold.promises > 0
    case CopyPromiseAttach => s.hold.copying > 0
    case DropPromise => PromiseUnused(s)
    case DetachDying => s.hold.dying > 0
    case AbandonPromise => PromiseUnused(s)
    case SetExecutor(_) => FutureUnused(s)
    case Checkout(_) => s.hold.promises > 0
    case ForceScheduled(_) => s.hold.promises > 0
  }

  const BROKEN: Try<int> := Exception(BrokenPromise)

  function Next(s: State, a: Action): Config
    requires Enabled(s, a)
  {
    if s.log.freed > 0 then Crashed(UseAfterFree) else
    match a
    case BeginSetResult(v) => Ok(AtProducer(s, PCheck(v)).(log := s.log.(setters := s.log.setters + 1)))
    case ProducerMoves(choice) =>
      if s.ctl.producer.PSched? then SchedMove(s, Producer, s.ctl.producer.at, choice) else ResultStep(s)
    case BeginSetContinuation(k) => Ok(AtConsumer(s, CCheck(k)))
    case ConsumerMoves(choice) =>
      if s.ctl.consumer.CSched? then SchedMove(s, Consumer, s.ctl.consumer.at, choice) else ContinuationStep(s)
    case BreakerChecks =>
      if HasResult(s.fs.phase)
      then Ok(s.(ctl := s.ctl.(breaker := BNone), hold := s.hold.(dying := s.hold.dying + 1)))
      else Ok(s.(ctl := s.ctl.(breaker := BSetting, producer := PCheck(BROKEN))))
    case ExecutorMoves(x) => ExecutorStep(s, x)
    case HandleMoves(h) => HandleStep(s, h)
  }

  function ExecutorStep(s: State, x: ExecutorAction): Config
    requires ExecutorMay(s.exec, x)
  {
    match x
    case RunJob => BeginCall(s.(exec := s.exec.(run := Running)))
    case EndJob => Ok(EndCall(s.(exec := s.exec.(run := Ran))))
    case CopyClosure => Ok(AttachOne(s.(exec := s.exec.(closuresUp := s.exec.closuresUp + 1))))
    case CopyClosureRef =>
      Ok(RefContinuation(s.(exec := s.exec.(closuresUp := s.exec.closuresUp - 1, closures := s.exec.closures + 1))))
    case DropClosure =>
      DerefContinuation(s.(exec := s.exec.(closures := s.exec.closures - 1, closuresDown := s.exec.closuresDown + 1)))
    case DropClosureDetach => DetachOne(s.(exec := s.exec.(closuresDown := s.exec.closuresDown - 1)))
  }

  function HandleStep(s: State, h: HandleAction): Config
    requires HandleMay(s, h)
  {
    match h
    case GetFuture => Ok(AttachOne(s.(hold := s.hold.(futures := s.hold.futures + 1))))
    case DropFuture => DetachOne(s.(hold := s.hold.(futures := s.hold.futures - 1)))
    case AbandonFuture =>
      Ok(s.(hold := s.hold.(futures := s.hold.futures - 1, abandonedFutures := s.hold.abandonedFutures + 1)))
    case CopyPromise =>
      Ok(s.(fs := s.fs.(promiseRef := s.fs.promiseRef + 1), hold := s.hold.(copying := s.hold.copying + 1)))
    case CopyPromiseAttach =>
      Ok(AttachOne(s.(hold := s.hold.(copying := s.hold.copying - 1, promises := s.hold.promises + 1))))
    case DropPromise =>
      if s.fs.promiseRef == 0 then Crashed(AssertFailed)
      else if s.fs.promiseRef == 1
      then Ok(s.(fs := s.fs.(promiseRef := 0), ctl := s.ctl.(breaker := BCheck),
                 hold := s.hold.(promises := s.hold.promises - 1)))
      else Ok(s.(fs := s.fs.(promiseRef := s.fs.promiseRef - 1),
                 hold := s.hold.(promises := s.hold.promises - 1, dying := s.hold.dying + 1)))
    case DetachDying => DetachOne(s.(hold := s.hold.(dying := s.hold.dying - 1)))
    case AbandonPromise =>
      Ok(s.(hold := s.hold.(promises := s.hold.promises - 1, abandonedPromises := s.hold.abandonedPromises + 1)))
    case SetExecutor(e) => Ok(s.(fs := s.fs.(executor := e)))
    case Checkout(c) => Ok(if s.fs.executor.None? then s else s.(fs := s.fs.(context := c)))
    case ForceScheduled(force) =>
      Ok(if s.fs.executor.None? && force then s else s.(fs := s.fs.(forced := force)))
  }

  /** `Promise()`: a fresh state with one promise attached. */
  const INITIAL := State(
    Fields(Start, 1, 0, 1, false, Nothing, Raw, None, None),
    Threads(PIdle, CIdle, BNone),
    Handles(0, 1, 0, 0, 0, 0),
    Work(0, 0, 0, NotSubmitted, NotRun),
    History(0, [], [], [], [], 0, 0, 0))

  // ---------------------------------------------------------------- who holds the state

  function SchedRefs(at: SchedPc): nat {
    match at
    case Call | Calling | Deref | SecondAttach | SecondRef | AwaitAnswer | FallbackCall | FallbackCalling | Release => 1
    case Submit => 2
    case _ => 0
  }

  function SchedHalves(at: SchedPc): nat {
    match at
    case Ref | FirstRef | SecondRef | LastDetach => 1
    case _ => 0
  }

  function ProducerAt(p: ProducerPc): SchedPc {
    if p.PSched? then p.at else NoSched
  }

  function ConsumerAt(c: ConsumerPc): SchedPc {
    if c.CSched? then c.at else NoSched
  }

  /** The program counter of the thread inside ScheduleContinuation, if any. */
  function At(ctl: Threads): SchedPc {
    if ctl.producer.PSched? then ctl.producer.at else ConsumerAt(ctl.consumer)
  }

  /** Live continuation references: queued closures and guards. */
  function Refs(ctl: Threads, exec: Work): nat {
    exec.closures + SchedRefs(ProducerAt(ctl.producer)) + SchedRefs(ConsumerAt(ctl.consumer))
  }

  /** References that attached to the state but are not, or no longer, counted in continuation_ref_. */
  function Halves(ctl: Threads, exec: Work): nat {
    exec.closuresUp + exec.closuresDown + SchedHalves(ProducerAt(ctl.producer)) + SchedHalves(ConsumerAt(ctl.consumer))
  }

  function HeldBy(hold: Handles): nat {
    hold.futures + hold.promises + hold.dying + hold.abandonedFutures + hold.abandonedPromises
  }

  function Breaking(b: BreakerPc): nat {
    if b.BNone? then 0 else 1
  }

  /** Everything that owes the state a DetachOne, abandoned handles included. */
  function Holders(s: State): nat {
    HeldBy(s.hold) + Breaking(s.ctl.breaker) + Refs(s.ctl, s.exec) + Halves(s.ctl, s.exec)
  }

  // ---------------------------------------------------------------- runs

  predicate OnQueuedPath(at: SchedPc) {
    at.FirstAttach? || at.FirstRef? || at.SecondAttach? || at.SecondRef? || at.Submit?
  }

  /** May executor_ be null while the thread in ScheduleContinuation is at `at`? Not on the queued path, and not, if scheduling
      is forced, before that path. */
  predicate MayBeNull(fs: Fields, at: SchedPc) {
    !OnQueuedPath(at) && (fs.forced ==> fs.phase.Done? && !at.Decide?)
  }

  /** The two hypotheses of the safety results: the executor is taken away only where it may be null, and there are at most
      255 attachments. */
  predicate Careful(s: State, a: Action) {
    Holders(s) <= 255 && (a == HandleMoves(SetExecutor(None)) ==> MayBeNull(s.fs, At(s.ctl)))
  }

  /** `c` is where the actions `acts` lead from `s`; a crash ends the run. */
  ghost predicate Run(s: State, acts: seq<Action>, c: Config)
    decreases |acts|
  {
    if acts == [] then c == Ok(s) else
    Enabled(s, acts[0]) &&
    match Next(s, acts[0])
    case Crashed(_) => c == Next(s, acts[0]) && |acts| == 1
    case Ok(s1) => Run(s1, acts[1..], c)
  }

  /** A run that keeps to the two hypotheses. */
  ghost predicate CarefulRun(s: State, acts: seq<Action>, c: Config)
    decreases |acts|
  {
    Holders(s) <= 255 &&
    if acts == [] then c == Ok(s) else
    Enabled(s, acts[0]) && Careful(s, acts[0]) &&
    match Next(s, acts[0])
    case Crashed(_) => c == Next(s, acts[0]) && |acts| == 1
    case Ok(s1) => CarefulRun(s1, acts[1..], c)
  }
}
