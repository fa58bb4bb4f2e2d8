/** The shared state keeps the promise that the future-side CollectAll builds on. */
module FutureContract {
  import opened TryModel
  import opened FutureStateMachine
  import opened FutureStateProofs
  import C = FutureCollect

  /** What a future looks like from outside: how far its continuation has got. */
  function SlotOf(log: History): C.Slot {
    if log.destroyed > 0 then C.Gone
    else if log.invoked != [] then (if log.running > 0 then C.Calling else C.Called)
    else if log.installed != [] then C.Waiting
    else C.Absent
  }

  predicate Steps(log: History, log1: History) {
    SlotOf(log1) == SlotOf(log) || C.Advances(SlotOf(log), SlotOf(log1))
  }

  /** What the continuation's history can do in one step. */
  predicate Grows(log: History, log1: History) {
    || log1.(stored := log.stored, setters := log.setters, scheduledBy := log.scheduledBy, freed := log.freed) == log
    || (log1.destroyed == log.destroyed + 1 && log1.invoked == log.invoked && log1.running == log.running && log1.installed == log.installed)
    || (log1.destroyed == log.destroyed && log1.invoked == log.invoked && log1.running <= log.running && log1.installed == log.installed)
    || (log1.destroyed == log.destroyed && |log1.invoked| == |log.invoked| + 1 && log1.running == log.running + 1 && log1.installed == log.installed)
    || (log1.destroyed == log.destroyed && log1.invoked == log.invoked && log1.running == log.running && |log1.installed| == |log.installed| + 1)
  }

  lemma {:induction false} SchedGrows(s: State, who: Party, at: SchedPc, choice: bool)
    requires SchedMove(s, who, at, choice).Ok?
    ensures Grows(s.log, SchedMove(s, who, at, choice).s.log)
  {
  }

  lemma {:induction false} OwnStepsGrow(s: State)
    ensures ResultStep(s).Ok? ==> Grows(s.log, ResultStep(s).s.log)
    ensures ContinuationStep(s).Ok? ==> Grows(s.log, ContinuationStep(s).s.log)
  {
  }

  lemma {:induction false} OthersGrow(s: State, a: Action)
    requires a.ExecutorMoves? || a.HandleMoves?
    requires Enabled(s, a) && Next(s, a).Ok?
    ensures Grows(s.log, Next(s, a).s.log)
  {
  }

  lemma {:induction false} StepGrows(s: State, a: Action)
    requires Enabled(s, a) && Next(s, a).Ok?
    ensures Grows(s.log, Next(s, a).s.log)
  {
    match a
    case ProducerMoves(choice) => if s.ctl.producer.PSched? { SchedGrows(s, Producer, s.ctl.producer.at, choice); } else { OwnStepsGrow(s); }
    case ConsumerMoves(choice) => if s.ctl.consumer.CSched? { SchedGrows(s, Consumer, s.ctl.consumer.at, choice); } else { OwnStepsGrow(s); }
    case ExecutorMoves(_) => OthersGrow(s, a);
    case HandleMoves(_) => OthersGrow(s, a);
    case _ =>
  }

  predicate Sane(log: History) {
    && |log.invoked| <= 1 && |log.installed| <= 1 && log.running <= |log.invoked| <= |log.installed| && log.destroyed <= 1
    && (log.destroyed == 1 ==> |log.invoked| == 1 && log.running == 0)
  }

  lemma {:induction false} InvSane(s: State)
    requires Protocol(s)
    ensures Sane(s.log)
  {
  }

  lemma {:induction false} SaneGrowthSteps(log: History, log1: History)
    requires Sane(log) && Sane(log1) && Grows(log, log1)
    ensures Steps(log, log1)
  {
  }

  /** Whatever the executor answers and however often the job is copied, every step moves the continuation of a future at
      most one stage on: installed, called, returned, destroyed; and it is called with the result that was stored. */
  lemma {:induction false} FutureKeepsItsPromise(s: State, a: Action)
    requires Inv(s) && Enabled(s, a) && Careful(s, a)
    requires Next(s, a).Ok? ==> Holders(Next(s, a).s) <= 255
    ensures Next(s, a).Ok? && Steps(s.log, Next(s, a).s.log)
    ensures Next(s, a).s.log.invoked != [] ==> Next(s, a).s.log.stored != [] && Next(s, a).s.log.invoked == [Next(s, a).s.log.stored[0].v]
  {
    assert Protocol(s);
    hide Inv, Protocol, Next, Enabled, Careful, Holders;
    StepKeepsInv(s, a);
    var s1 := Next(s, a).s;
    InvGives(s1);
    StepGrows(s, a);
    InvSane(s);
    InvSane(s1);
    SaneGrowthSteps(s.log, s1.log);
  }

  lemma {:induction false} InvGives(s: State)
    requires Inv(s)
    ensures Protocol(s) && (s.log.invoked != [] ==> s.log.stored != [] && s.log.invoked == [s.log.stored[0].v])
  {
  }
}
