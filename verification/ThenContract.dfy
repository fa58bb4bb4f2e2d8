/** What a chain of futures takes for granted of each of its cells, and that the shared state grants it. */
module ThenContract {
  import opened TryModel
  import opened ThenChain
  import opened ThenMachine
  import T = ThenTheorems
  import F = FutureStateMachine
  import P = FutureStateProofs
  import K = FutureContract
  import Settling = FutureStateTheorems

  datatype Stage = Free | Waiting | Used

  /** A shared state seen from outside: its result, and how far its one continuation has got. */
  datatype View<V(==)> = View(result: Option<V>, stage: Stage)

  /** The result is set once and stays; a continuation is installed once, and used up once there is a result. */
  predicate Follows<V(==)>(v: View<V>, v1: View<V>) {
    || v1 == v
    || (v.result.None? && v1.result.Some? && v1.stage == v.stage)
    || (v.stage.Free? && v1 == v.(stage := Waiting))
    || (v.stage.Waiting? && v.result.Some? && v1 == v.(stage := Used))
  }

  // ---------------------------------------------------------------- what a chain does to its cells

  function ViewOfCell(cell: Cell): View<Full> {
    View(cell.result, match cell.cont case NoCont => Free case RunCallback(_, _, _) => Waiting case Forward(_) => Waiting case Spent => Used)
  }

  /** One step's effect on a cell: a continuation gives way to nothing but Spent. */
  ghost predicate CellFollows(cell: Cell, cell1: Cell) {
    Follows(ViewOfCell(cell), ViewOfCell(cell1)) && (cell1.cont == cell.cont || cell.cont.NoCont? || cell1.cont.Spent?)
  }

  lemma {:induction false} AttachFollows(cb: Callback, b: Built, c: nat)
    requires Tidy(b, 0) && c < |b.cells|
    ensures c < |Attach(cb, [], b).cells| && CellFollows(b.cells[c], Attach(cb, [], b).cells[c])
    ensures ViewOfCell(Attach(cb, [], b).cells[c]).stage.Used? ==> ViewOfCell(b.cells[c]).stage.Used?
  {
    if b.h.Ready? && !Skips(cb, b.h.t) {
      RunBodyMeans(cb.body, [] + [b.h.t], b.cells);
    }
    hide RunBody, Linked;
  }

  /** The cells there were are untouched by the callback that runs, but for its own cell c and the cell d that it resolves. */
  lemma {:induction false} FireTouches(b: Built, c: nat, d: nat, x: nat)
    requires c < |b.cells| && b.cells[c].result.Some? && Target(b.cells[c].cont) == Some(d) && x < |b.cells|
    requires d != c && d < |b.cells| && b.cells[d].result.None? && !b.cells[d].cont.Spent?
    requires b.cells[c].cont.RunCallback? && !Skips(b.cells[c].cont.cb, b.cells[c].result.value) ==>
      var cells1 := b.cells[c := b.cells[c].(cont := Spent)];
      var r := RunBody(b.cells[c].cont.cb.body, b.cells[c].cont.env + [b.cells[c].result.value], cells1);
      SameBelow(cells1, r.cells, |cells1|) && (r.h.Shared? ==> r.h.c >= |b.cells|)
    ensures x < |T.Fired(b, c).cells| && CellFollows(b.cells[x], T.Fired(b, c).cells[x])
    ensures T.Fired(b, c).cells[x].cont.Spent? <==> b.cells[x].cont.Spent? || x == c
  {
    hide RunBody;
  }

  lemma {:induction false} FireFollows(b: Built, c: nat, x: nat)
    requires Tidy(b, 0) && c < |b.cells| && b.cells[c].result.Some? && Target(b.cells[c].cont).Some? && x < |b.cells|
    ensures x < |T.Fired(b, c).cells| && CellFollows(b.cells[x], T.Fired(b, c).cells[x])
    ensures T.Fired(b, c).cells[x].cont.Spent? <==> b.cells[x].cont.Spent? || x == c
  {
    T.OnlyTheHead(b, c);
    var cell, d := b.cells[c], b.path[1];
    assert d != c && d < |b.cells| && Blank(b.cells[d]);
    assert if |b.path| == 2 then b.cells[d].cont.NoCont? else Target(b.cells[d].cont) == Some(b.path[2]);
    hide T.Fired, CellFollows, RunBody, Meaning;
    if cell.cont.RunCallback? {
      RunBodyMeans(cell.cont.cb.body, cell.cont.env + [cell.result.value], b.cells[c := cell.(cont := Spent)]);
    }
    FireTouches(b, c, d, x);
  }

  /** A callback is called with the result of the cell that it waited for. */
  lemma {:induction false} FireCalls(b: Built, c: nat)
    requires c < |b.cells| && b.cells[c].result.Some? && b.cells[c].cont.RunCallback? && !Skips(b.cells[c].cont.cb, b.cells[c].result.value)
    ensures b.log + [Call(b.cells[c].cont.cb.id, b.cells[c].result.value)] <= T.Fired(b, c).log
  {
    hide RunBody;
  }

  /** Every step of a chain moves every cell as the shared state can, and uses a continuation up exactly when its cell is
      fired, calling the callback with the result of that cell. */
  lemma {:induction false} ChainFollows(s: T.State, a: T.Action, goal: Outcome, x: nat)
    requires T.Inv(s, goal) && T.Enabled(s, a) && x < |s.b.cells|
    ensures x < |T.Next(s, a).b.cells| && CellFollows(s.b.cells[x], T.Next(s, a).b.cells[x])
    ensures T.Next(s, a).b.cells[x].cont.Spent? && !s.b.cells[x].cont.Spent? <==> a == T.Fire(x)
    ensures a == T.Fire(x) && s.b.cells[x].cont.RunCallback? && !Skips(s.b.cells[x].cont.cb, s.b.cells[x].result.value) ==>
      s.b.log + [Call(s.b.cells[x].cont.cb.id, s.b.cells[x].result.value)] <= T.Next(s, a).b.log
  {
    match a
    case Main =>
      AttachFollows(s.rest[0], s.b, x);
      hide Attach, Tidy;
    case Set(c) =>
      T.OnlyTheHead(s.b, c);
      hide Tidy;
    case Fire(c) =>
      FireFollows(s.b, c, x);
      if c == x && s.b.cells[x].cont.RunCallback? && !Skips(s.b.cells[x].cont.cb, s.b.cells[x].result.value) { FireCalls(s.b, x); }
      hide T.Fired, Tidy;
  }

  // ---------------------------------------------------------------- what the shared state does

  /** The result counts once it is written, the continuation once it is constructed, and it is used once it is called. */
  function ViewOfState(log: F.History): View<Try<int>> {
    View(if log.stored == [] then None else Some(log.stored[0].v),
         if log.invoked != [] then Used else if log.installed != [] then Waiting else Free)
  }

  predicate ResultStays(log: F.History, log1: F.History) {
    || log1.stored == log.stored
    || (|log1.stored| == |log.stored| + 1 && log1.invoked == log.invoked && log1.installed == log.installed)
  }

  lemma {:induction false} OwnStepsKeepResult(s: F.State)
    ensures F.ResultStep(s).Ok? ==> ResultStays(s.log, F.ResultStep(s).s.log)
    ensures F.ContinuationStep(s).Ok? ==> ResultStays(s.log, F.ContinuationStep(s).s.log)
  {
  }

  lemma {:induction false} OthersKeepResult(s: F.State, a: F.Action)
    requires a.ExecutorMoves? || a.HandleMoves?
    requires F.Enabled(s, a) && F.Next(s, a).Ok?
    ensures ResultStays(s.log, F.Next(s, a).s.log)
  {
  }

  lemma {:induction false} SchedKeepsResult(s: F.State, who: F.Party, at: F.SchedPc, choice: bool)
    requires F.SchedMove(s, who, at, choice).Ok?
    ensures ResultStays(s.log, F.SchedMove(s, who, at, choice).s.log)
  {
  }

  lemma {:induction false} StepKeepsResult(s: F.State, a: F.Action)
    requires F.Enabled(s, a) && F.Next(s, a).Ok?
    ensures ResultStays(s.log, F.Next(s, a).s.log)
  {
    match a
    case ProducerMoves(choice) =>
      if s.ctl.producer.PSched? { SchedKeepsResult(s, F.Producer, s.ctl.producer.at, choice); } else { OwnStepsKeepResult(s); }
    case ConsumerMoves(choice) =>
      if s.ctl.consumer.CSched? { SchedKeepsResult(s, F.Consumer, s.ctl.consumer.at, choice); } else { OwnStepsKeepResult(s); }
    case ExecutorMoves(_) => OthersKeepResult(s, a);
    case HandleMoves(_) => OthersKeepResult(s, a);
    case _ =>
  }

  lemma {:induction false} OneResult(s: F.State)
    requires P.Protocol(s)
    ensures |s.log.stored| <= 1
  {
  }

  lemma {:induction false} GrowthFollows(log: F.History, log1: F.History)
    requires K.Sane(log) && K.Sane(log1) && K.Grows(log, log1) && ResultStays(log, log1) && |log.stored| <= 1 && |log1.stored| <= 1
    requires log.stored != [] && log1.stored != [] ==> log1.stored == log.stored
    requires log1.invoked != [] ==> log1.stored != []
    ensures Follows(ViewOfState(log), ViewOfState(log1))
  {
  }

  /** Every atomic step of the shared state, of whichever party, the executor or a handle, moves it as a chain takes for
      granted, and a continuation that is used was called with its result. */
  lemma {:induction false} StateFollows(s: F.State, a: F.Action)
    requires P.Inv(s) && F.Enabled(s, a) && F.Careful(s, a)
    requires F.Next(s, a).Ok? ==> F.Holders(F.Next(s, a).s) <= 255
    ensures F.Next(s, a).Ok? && Follows(ViewOfState(s.log), ViewOfState(F.Next(s, a).s.log))
    ensures var v := ViewOfState(F.Next(s, a).s.log); v.stage.Used? ==> v.result.Some? && F.Next(s, a).s.log.invoked == [v.result.value]
  {
    hide P.Inv, P.Protocol, F.Next, F.Enabled, F.Careful, F.Holders;
    K.FutureKeepsItsPromise(s, a);
    P.StepKeepsInv(s, a);
    var s1 := F.Next(s, a).s;
    K.InvGives(s);
    K.InvGives(s1);
    K.StepGrows(s, a);
    StepKeepsResult(s, a);
    K.InvSane(s);
    K.InvSane(s1);
    OneResult(s);
    OneResult(s1);
    GrowthFollows(s.log, s1.log);
  }

  /** And the step that a chain may take next is not withheld: once every operation that was begun has ended, a continuation
      that has a result to wait for has been used. */
  lemma {:induction false} SettledIsUsed(s: F.State)
    requires P.Protocol(s) && Settling.Settled(s)
    ensures var v := ViewOfState(s.log); v.result.Some? && !v.stage.Free? ==> v.stage.Used?
  {
  }
}
