/** Where the thread that moved the state to Done has the continuation run: at once, or as a job of the executor. */
module FutureStatePlacement {
  import opened TryModel
  import opened FutureStateMachine
  import opened FutureStateProofs
  import opened FutureStateTheorems
  import opened FutureStateObject
  import opened FutureStateLimits

  // ---------------------------------------------------------------- at once

  predicate AtOnce(s: State, who: Party, inExecutor: bool) {
    !s.fs.forced && (s.fs.executor.None? || who.Consumer? || inExecutor)
  }

  lemma {:induction false} DecidesAtOnce(s: State, who: Party, choice: bool)
    requires InSched(s, who, Decide) && s.fs.phase.Done? && AtOnce(s, who, choice)
    ensures var c := SchedMove(s, who, Decide, choice); c.Ok? && InSched(c.s, who, Attach)
  {
  }

  /** The thread's own run calls the continuation with the stored result, and leaves without having given any job away. */
  ghost predicate CallsHere(s: State, who: Party, choices: seq<bool>) {
    exists s1 :: Run(s, Moves(who, choices), Ok(s1)) && OutWithCall(s1, who) && s1.exec.job.NotSubmitted?
  }

  lemma {:induction false} RunsAtOnce(s: State, who: Party, choices: seq<bool>)
    requires Inv(s) && Holders(s) <= 254 && |choices| == 7
    requires InSched(s, who, Decide) && AtOnce(s, who, choices[0])
    ensures CallsHere(s, who, choices)
  {
    hide Inv, Holders, Next, Enabled, SchedMove, OutWithCall, Run, AtOnce;
    ScheduleFacts(s, who, Decide);
    DecideIsSound(s, who, choices[0]);
    NoJobYet(s, who, choices[0]);
    MoveIsSchedMove(s, who, Decide, choices[0]);
    DecidesAtOnce(s, who, choices[0]);
    ImmediateDelivers(SchedMove(s, who, Decide, choices[0]).s, who, Attach, choices[1..]);
    DeliversAfter(s, who, choices);
  }

  /** SetContinuation on a state that has its result: the caller itself calls the continuation, whatever the executor and
      wherever it is, unless scheduling is forced. */
  lemma {:induction false} TriggeringRunsInline(s: State, choices: seq<bool>)
    requires Inv(s) && Holders(s) <= 254 && |choices| == 7
    requires s.ctl.consumer == CSched(Decide) && !s.fs.forced
    ensures CallsHere(s, Consumer, choices)
  {
    hide Inv, Holders, CallsHere;
    RunsAtOnce(s, Consumer, choices);
  }

  /** SetResult on a thread of the executor does the same. */
  lemma {:induction false} InsideRunsInline(s: State, choices: seq<bool>)
    requires Inv(s) && Holders(s) <= 254 && |choices| == 7 && choices[0]
    requires s.ctl.producer == PSched(Decide) && !s.fs.forced
    ensures CallsHere(s, Producer, choices)
  {
    hide Inv, Holders, CallsHere;
    RunsAtOnce(s, Producer, choices);
  }

  // ---------------------------------------------------------------- as a job

  function AttachesLeft(at: SchedPc): nat {
    match at
    case FirstAttach => 2
    case FirstRef => 1
    case SecondAttach => 1
    case _ => 0
  }

  function After(at: SchedPc, answer: bool): SchedPc {
    match at
    case FirstAttach => FirstRef
    case FirstRef => SecondAttach
    case SecondAttach => SecondRef
    case SecondRef => Submit
    case Submit => AwaitAnswer
    case AwaitAnswer => if answer then Release else FallbackCall
    case FallbackCall => FallbackCalling
    case FallbackCalling => Release
    case Release => LastDetach
    case _ => NoSched
  }

  /** How many moves it takes to leave; the answer comes two, or four, before the last. */
  function MovesLeft(at: SchedPc, answer: bool): nat {
    var last := if answer then 3 else 5;
    match at
    case FirstAttach => 5 + last
    case FirstRef => 4 + last
    case SecondAttach => 3 + last
    case SecondRef => 2 + last
    case Submit => 1 + last
    case AwaitAnswer => last
    case FallbackCall => 4
    case FallbackCalling => 3
    case Release => 2
    case LastDetach => 1
    case _ => 0
  }

  predicate JobAt(s: State, at: SchedPc, how: Submission, answer: bool) {
    match at
    case FirstAttach | FirstRef | SecondAttach | SecondRef | Submit => 
      s.exec.job.NotSubmitted? && s.exec.run.NotRun? && s.fs.executor.Some? && HowSubmitted(s.fs) == how
    case AwaitAnswer => s.exec.job == Offered(how) && s.exec.run.NotRun? && s.exec.closures > 0
    case FallbackCall | FallbackCalling => s.exec.job == Rejected(how) && s.exec.run.NotRun? && !answer
    case Release | LastDetach | NoSched => s.exec.job == (if answer then Accepted(how) else Rejected(how)) && s.exec.run.NotRun?
    case _ => false
  }

  lemma {:induction false} JobMoves(s: State, who: Party, at: SchedPc, choice: bool, how: Submission, answer: bool)
    requires InSched(s, who, at) && !at.NoSched? && JobAt(s, at, how, answer) && (at.AwaitAnswer? ==> choice == answer)
    requires SchedMove(s, who, at, choice).Ok?
    ensures var s1 := SchedMove(s, who, at, choice).s;
      JobAt(s1, After(at, answer), how, answer) &&
      if at.LastDetach? then !InOperation(s1.ctl, who) && s1.log == s.log.(freed := s1.log.freed) else InSched(s1, who, After(at, answer))
  {
  }

  /** Out, with the job given away as `how`: accepted and not begun by this thread, or rejected and called here. */
  predicate OutWithJob(s: State, who: Party, how: Submission, answer: bool) {
    && !InOperation(s.ctl, who)
    && if answer then s.exec.job == Accepted(how) && s.exec.run.NotRun? && s.log.invoked == []
       else s.exec.job == Rejected(how) && s.log.stored != [] && s.log.invoked == [s.log.stored[0].v]
  }

  ghost predicate GivesAway(s: State, who: Party, choices: seq<bool>, how: Submission, answer: bool) {
    exists s1 :: Run(s, Moves(who, choices), Ok(s1)) && OutWithJob(s1, who, how, answer)
  }

  lemma {:induction false} OutAtLast(s: State, s1: State, who: Party, how: Submission, answer: bool)
    requires Inv(s) && InSched(s, who, LastDetach) && JobAt(s, LastDetach, how, answer)
    requires !InOperation(s1.ctl, who) && JobAt(s1, NoSched, how, answer) && s1.log == s.log.(freed := s1.log.freed)
    ensures OutWithJob(s1, who, how, answer)
  {
    hide Inv;
    ScheduleFacts(s, who, LastDetach);
  }

  lemma {:induction false} GivesAwayAtLast(s: State, who: Party, choices: seq<bool>, how: Submission, answer: bool)
    requires |choices| == 1 && Enabled(s, MoveOf(who, choices[0]))
    requires Next(s, MoveOf(who, choices[0])).Ok? && OutWithJob(Next(s, MoveOf(who, choices[0])).s, who, how, answer)
    ensures GivesAway(s, who, choices, how, answer)
  {
    MovesUnfold(who, choices);
    hide Next, Enabled, Moves, OutWithJob;
    assert Moves(who, choices)[1..] == [];
    assert Run(s, Moves(who, choices), Next(s, MoveOf(who, choices[0])));
  }

  lemma {:induction false} GivesAwayAfter(s: State, who: Party, choices: seq<bool>, how: Submission, answer: bool)
    requires choices != [] && Enabled(s, MoveOf(who, choices[0])) && Next(s, MoveOf(who, choices[0])).Ok?
    requires GivesAway(Next(s, MoveOf(who, choices[0])).s, who, choices[1..], how, answer)
    ensures GivesAway(s, who, choices, how, answer)
  {
    MovesUnfold(who, choices);
    hide Next, Enabled, Moves, OutWithJob;
    var s1 :| Run(Next(s, MoveOf(who, choices[0])).s, Moves(who, choices[1..]), Ok(s1)) && OutWithJob(s1, who, how, answer);
    assert Run(s, Moves(who, choices), Ok(s1));
  }

  lemma {:induction false} OwnMoveIs(s: State, who: Party, at: SchedPc, choice: bool)
    requires InSched(s, who, at) && s.log.freed == 0 && (at.AwaitAnswer? ==> AnswerAllowed(s.exec, choice))
    ensures Enabled(s, MoveOf(who, choice)) && Next(s, MoveOf(who, choice)) == SchedMove(s, who, at, choice)
  {
    hide SchedMove;
  }

  /** The choice made when the executor answers is `answer`. */
  predicate IsAnswered(at: SchedPc, choices: seq<bool>, answer: bool) {
    var k := match at
      case FirstAttach => 5
      case FirstRef => 4
      case SecondAttach => 3
      case SecondRef => 2
      case Submit => 1
      case AwaitAnswer => 0
      case _ => |choices|;
    k < |choices| ==> choices[k] == answer
  }

  lemma {:induction false} AnswersLater(at: SchedPc, choices: seq<bool>, answer: bool)
    requires IsAnswered(at, choices, answer) && |choices| == MovesLeft(at, answer) > 0
    ensures IsAnswered(After(at, answer), choices[1..], answer) && |choices[1..]| == MovesLeft(After(at, answer), answer)
    ensures at.AwaitAnswer? ==> choices[0] == answer
    ensures |choices| == 1 <==> at.LastDetach?
  {
  }

  lemma {:induction false} QueuedRun(s: State, who: Party, at: SchedPc, choices: seq<bool>, how: Submission, answer: bool)
    requires Inv(s) && InSched(s, who, at) && JobAt(s, at, how, answer) && !at.NoSched? && Holders(s) + AttachesLeft(at) <= 254
    requires |choices| == MovesLeft(at, answer)
    requires IsAnswered(at, choices, answer)
    ensures GivesAway(s, who, choices, how, answer)
    decreases |choices|
  {
    var c := SchedMove(s, who, at, choices[0]);
    AnswersLater(at, choices, answer);
    assert at.AwaitAnswer? ==> choices[0] == answer && AnswerAllowed(s.exec, choices[0]);
    hide MovesLeft, IsAnswered, Inv, Holders, Next, Enabled, SchedMove, GivesAway, OutWithJob, InSched, AnswerAllowed;
    SchedMoveIsSound(s, who, at, choices[0]);
    HeldWhile(s, who, at, choices[0]);
    OwnMoveIs(s, who, at, choices[0]);
    JobMoves(s, who, at, choices[0], how, answer);
    hide JobAt, InOperation;
    if at.LastDetach? {
      OutAtLast(s, c.s, who, how, answer);
      GivesAwayAtLast(s, who, choices, how, answer);
    } else {
      QueuedRun(c.s, who, After(at, answer), choices[1..], how, answer);
      GivesAwayAfter(s, who, choices, how, answer);
    }
  }

  lemma {:induction false} HeldWhile(s: State, who: Party, at: SchedPc, choice: bool)
    requires Inv(s) && InSched(s, who, at) && (at.AwaitAnswer? ==> AnswerAllowed(s.exec, choice))
    ensures s.log.freed == 0
  {
    hide Inv;
    ActorsHoldTheState(s, MoveOf(who, choice));
  }

  lemma {:induction false} DecidesForAJob(s: State, who: Party, choice: bool, how: Submission, answer: bool)
    requires InSched(s, who, Decide) && s.fs.phase.Done? && s.fs.executor.Some? && !AtOnce(s, who, choice) && HowSubmitted(s.fs) == how
    requires s.exec.job.NotSubmitted? && s.exec.run.NotRun?
    ensures var c := SchedMove(s, who, Decide, choice);
      c.Ok? && InSched(c.s, who, FirstAttach) && JobAt(c.s, FirstAttach, how, answer)
  {
  }

  /** Who does not run the continuation at once gives it away: to Schedule if no context was checked out, and otherwise to
      Checkin with that context, promptly unless scheduling is forced. If the answer is true this thread does not call the
      continuation; if it is false this thread calls it, with the stored result. */
  lemma {:induction false} OtherwiseGivesAway(s: State, who: Party, choices: seq<bool>, answer: bool)
    requires Inv(s) && Holders(s) <= ROOM && InSched(s, who, Decide) && s.fs.executor.Some?
    requires |choices| == (if answer then 9 else 11) && !AtOnce(s, who, choices[0]) && choices[6] == answer
    ensures GivesAway(s, who, choices,
      if s.fs.context.None? then BySchedule(s.fs.executor.value) else ByCheckin(s.fs.executor.value, s.fs.context.value, !s.fs.forced), answer)
  {
    var how := if s.fs.context.None? then BySchedule(s.fs.executor.value) else ByCheckin(s.fs.executor.value, s.fs.context.value, !s.fs.forced);
    assert HowSubmitted(s.fs) == how;
    hide Inv, Holders, Next, Enabled, SchedMove, GivesAway, AtOnce, HowSubmitted;
    ScheduleFacts(s, who, Decide);
    assert s.exec.job.NotSubmitted? && s.exec.run.NotRun?;
    hide Schedule;
    DecideIsSound(s, who, choices[0]);
    MoveIsSchedMove(s, who, Decide, choices[0]);
    DecidesForAJob(s, who, choices[0], how, answer);
    DecideHolds(s, who, choices[0]);
    assert IsAnswered(FirstAttach, choices[1..], answer) && |choices[1..]| == MovesLeft(FirstAttach, answer);
    hide InSched, JobAt, IsAnswered, MovesLeft;
    QueuedRun(SchedMove(s, who, Decide, choices[0]).s, who, FirstAttach, choices[1..], how, answer);
    GivesAwayAfter(s, who, choices, how, answer);
  }

  lemma {:induction false} DecideHolds(s: State, who: Party, choice: bool)
    requires InSched(s, who, Decide) && SchedMove(s, who, Decide, choice).Ok?
    ensures Holders(SchedMove(s, who, Decide, choice).s) == Holders(s)
  {
  }
}
