/** The pool is an executor as the shared state takes one for granted: whatever it does to a job is a step that the machine of
    the shared state allows. */
module PoolContract {
  import opened TryModel
  import opened Tallies
  import opened ThreadPoolMachine
  import opened ThreadPoolProofs
  import T = ThreadPoolTheorems
  import F = FutureStateMachine

  /** How far an item has got. */
  datatype Stage = Nowhere | Queued | Held | Executed

  function Queueings(p: Pool, x: Item): nat {
    Tally(p.queues, TimesOf(x))
  }

  function Holdings(p: Pool, x: Item): nat {
    Tally(p.held, TimesOf(x))
  }

  function Executions(p: Pool, x: Item): nat {
    Times(Items(p.log.executed), x)
  }

  function StageOf(p: Pool, x: Item): Stage {
    if Executions(p, x) > 0 then Executed else if Holdings(p, x) > 0 then Held else if Queueings(p, x) > 0 then Queued else Nowhere
  }

  // ---------------------------------------------------------------- an item moves on by one stage

  /** An item is in one place, and in none before it is accepted or after it was rejected. */
  lemma {:induction false} OnePlace(p: Pool, x: Item)
    requires Inv(p)
    ensures Queueings(p, x) + Holdings(p, x) + Executions(p, x) == Times(p.log.accepted, x) <= 1
    ensures StageOf(p, x).Nowhere? <==> x !in p.log.accepted
    ensures x.id in p.log.rejected ==> StageOf(p, x).Nowhere?
  {
    assert Accounted(p, x) && Known(p, x.id);
    T.OncePerId(p.log.accepted, x);
    hide Sized, OnTarget, Conserved, Fifo, Holding, AllLeft, LateStays, Phases, NothingLate, Pinned, Numbered;
    if x.id in p.log.rejected {
      var j :| 0 <= j < |p.log.rejected| && p.log.rejected[j] == x.id;
      TallyAtLeast(p.log.rejected, j, IdOf(x.id));
    }
  }

  predicate SamePlaces(p: Pool, p1: Pool, x: Item) {
    Queueings(p1, x) == Queueings(p, x) && Holdings(p1, x) == Holdings(p, x) && Executions(p1, x) == Executions(p, x)
  }

  function One(item: Item, x: Item): nat {
    if item == x then 1 else 0
  }

  lemma {:induction false} PushPlaces(p: Pool, q: nat, item: Item, x: Item)
    requires Sized(p) && q < Threads(p)
    ensures Queueings(Pushed(p, q, item), x) == Queueings(p, x) + One(item, x)
    ensures Holdings(Pushed(p, q, item), x) == Holdings(p, x) && Executions(Pushed(p, q, item), x) == Executions(p, x)
  {
    TallyUpdate(p.queues, q, p.queues[q] + [item], TimesOf(x));
    TimesPush(p.queues[q], item, x);
    hide Times;
  }

  lemma {:induction false} TakePlaces(p: Pool, w: nat, q: nat, x: Item)
    requires Sized(p) && w < Threads(p) && q < Threads(p) && p.queues[q] != [] && p.held[w] == []
    ensures Queueings(Taken(p, w, q), x) + One(p.queues[q][0], x) == Queueings(p, x)
    ensures Holdings(Taken(p, w, q), x) == Holdings(p, x) + One(p.queues[q][0], x)
    ensures Executions(Taken(p, w, q), x) == Executions(p, x)
  {
    var item := p.queues[q][0];
    TallyUpdate(p.queues, q, p.queues[q][1..], TimesOf(x));
    TallyUpdate(p.held, w, [item], TimesOf(x));
    TimesFront(p.queues[q], x);
    TimesPush([], item, x);
    assert [] + [item] == [item];
    hide Times;
  }

  lemma {:induction false} RunPlaces(p: Pool, w: nat, x: Item)
    requires Sized(p) && w < Threads(p) && |p.held[w]| == 1
    ensures Queueings(Ran(p, w), x) == Queueings(p, x)
    ensures Holdings(Ran(p, w), x) + One(p.held[w][0], x) == Holdings(p, x)
    ensures Executions(Ran(p, w), x) == Executions(p, x) + One(p.held[w][0], x)
  {
    var p1, item := Ran(p, w), p.held[w][0];
    assert Items(p1.log.executed) == Items(p.log.executed) + [item];
    TallyUpdate(p.held, w, [], TimesOf(x));
    TimesFront(p.held[w], x);
    TimesPush(Items(p.log.executed), item, x);
    hide Times;
  }

  /** What a step can do to an item: accept it, have a worker take it, who may be the one it is pinned to only, or run it. */
  predicate MovesOn(p: Pool, a: Action, p1: Pool, x: Item) {
    var s, s1 := StageOf(p, x), StageOf(p1, x);
    || s1 == s
    || (s.Nowhere? && s1.Queued? && a.Land?)
    || (s.Queued? && s1.Held? && (a.Scan? || a.Pop?) && PinnedTo(x, a.w))
    || (s.Held? && s1.Executed? && a.Run? && p1.log.executed == p.log.executed + [(a.w, x)])
  }

  lemma {:induction false} HoldsNothing(p: Pool, w: nat)
    requires Inv(p) && w < Threads(p)
    ensures |p.held[w]| == if p.pcs[w].Working? then 1 else 0
    ensures forall k :: 0 <= k < |p.held[w]| ==> PinnedTo(p.held[w][k], w)
  {
    assert HoldsOne(p.pcs[w], p.held[w]) && PinnedAt(p, w);
    hide OnTarget, Conserved, Fifo, AllLeft, LateStays, Phases, NothingLate, Numbered;
  }

  lemma {:induction false} LandPlaces(p: Pool, k: nat, q: nat, x: Item)
    requires Sized(p) && k < |p.flying| && q < Threads(p) && Landed(p, k, q).Ok?
    ensures Holdings(Landed(p, k, q).p, x) == Holdings(p, x) && Executions(Landed(p, k, q).p, x) == Executions(p, x)
    ensures Queueings(Landed(p, k, q).p, x) >= Queueings(p, x)
  {
    var fl := p.flying[k];
    var p0 := p.(flying := p.flying[..k] + p.flying[k + 1..]);
    assert SamePlaces(p, p0, x);
    hide Queueings, Holdings, Executions, Pushed;
    PushPlaces(p0, q, Item(fl.id, None, p.steal), x);
    if 0 <= fl.target < Threads(p) { PushPlaces(p0, fl.target, Item(fl.id, Some(fl.target), false), x); }
  }

  /** Worker w takes an item, or only moves its program counter. */
  lemma {:induction false} WorkerTakes(p: Pool, p1: Pool, w: nat, x: Item)
    requires Inv(p) && Inv(p1) && w < Threads(p) && Threads(p1) == Threads(p) && !p.pcs[w].Working?
    requires SamePlaces(p, p1, x) || exists q :: 0 <= q < Threads(p) && p.queues[q] != [] && p1 == Taken(p, w, q)
    ensures StageOf(p1, x) == StageOf(p, x) || (StageOf(p, x).Queued? && StageOf(p1, x).Held? && PinnedTo(x, w))
  {
    OnePlace(p, x);
    OnePlace(p1, x);
    HoldsNothing(p, w);
    HoldsNothing(p1, w);
    hide Inv, PinnedTo;
    if q :| 0 <= q < Threads(p) && p.queues[q] != [] && p1 == Taken(p, w, q) {
      TakePlaces(p, w, q, x);
      assert p1.held[w] == [p.queues[q][0]] && p1.held[w][0] == p.queues[q][0];
      hide Queueings, Holdings, Executions, Taken;
    }
  }

  lemma {:induction false} ScanTakes(p: Pool, w: nat, busy: bool, x: Item)
    requires Sized(p) && w < Threads(p) && p.pcs[w].Scanning?
    ensures var p1 := Scanned(p, w, busy); SamePlaces(p, p1, x) || exists q :: 0 <= q < Threads(p) && p.queues[q] != [] && p1 == Taken(p, w, q)
  {
    hide Taken;
  }

  lemma {:induction false} PopTakes(p: Pool, w: nat, x: Item)
    requires Sized(p) && w < Threads(p)
    ensures var p1 := Popped(p, w); SamePlaces(p, p1, x) || exists q :: 0 <= q < Threads(p) && p.queues[q] != [] && p1 == Taken(p, w, q)
  {
    hide Taken;
  }

  lemma {:induction false} NothingMoves(p: Pool, target: int, x: Item)
    requires Sized(p)
    ensures SamePlaces(p, Submitted(p, target), x) && SamePlaces(p, Destroyed(p), x)
  {
  }

  lemma {:induction false} RunExecutes(p: Pool, w: nat, x: Item)
    requires Inv(p) && w < Threads(p) && p.held[w] != [] && Inv(Ran(p, w))
    ensures MovesOn(p, Run(w), Ran(p, w), x)
  {
    var p1 := Ran(p, w);
    OnePlace(p, x);
    OnePlace(p1, x);
    HoldsNothing(p, w);
    RunPlaces(p, w, x);
    assert p1.log.executed == p.log.executed + [(w, p.held[w][0])];
    hide Inv, Queueings, Holdings, Executions, Ran;
  }

  lemma {:induction false} LandAccepts(p: Pool, k: nat, q: nat, x: Item)
    requires Inv(p) && k < |p.flying| && q < Threads(p) && Landed(p, k, q).Ok? && Inv(Landed(p, k, q).p)
    ensures MovesOn(p, Land(k, q), Landed(p, k, q).p, x)
  {
    OnePlace(p, x);
    OnePlace(Landed(p, k, q).p, x);
    LandPlaces(p, k, q, x);
    hide Inv, Queueings, Holdings, Executions, Landed;
  }

  lemma {:induction false} StageMoves(p: Pool, a: Action, x: Item)
    requires Inv(p) && Enabled(p, a) && Next(p, a).Ok?
    ensures MovesOn(p, a, Next(p, a).p, x)
  {
    var p1 := Next(p, a).p;
    assert Sized(p);
    StepKeepsInv(p, a);
    hide Inv, Landed, Scanned, Popped, Ran, Submitted, Destroyed;
    match a
    case Submit(target) => NothingMoves(p, target, x); hide Queueings, Holdings, Executions;
    case Land(k, q) => LandAccepts(p, k, q, x);
    case Scan(w, busy) =>
      ScanTakes(p, w, busy, x);
      hide Taken, SamePlaces, StageOf;
      WorkerTakes(p, p1, w, x);
    case Pop(w) =>
      PopTakes(p, w, x);
      hide Taken, SamePlaces, StageOf;
      WorkerTakes(p, p1, w, x);
    case Run(w) => RunExecutes(p, w, x);
    case Destroy => NothingMoves(p, 0, x); hide Queueings, Holdings, Executions;
  }

  // ---------------------------------------------------------------- which is what the shared state allows

  function RunAt(stage: Stage): F.RunPc {
    match stage
    case Held => F.Running
    case Executed => F.Ran
    case _ => F.NotRun
  }

  /** The pool keeps the job that the shared state handed over as item x, as the machine of the shared state sees it. */
  predicate Serves(p: Pool, x: Item, exec: F.Work) {
    && exec.run == RunAt(StageOf(p, x))
    && !exec.job.NotSubmitted?
    && (exec.job.Rejected? ==> x.id in p.log.rejected)
    && (exec.job.Accepted? ==> !StageOf(p, x).Nowhere?)
    && (exec.run.NotRun? && !exec.job.Rejected? ==> exec.closures > 0)
  }

  /** Nothing, or the start or the end of the job, where the machine of the shared state allows it. */
  predicate Allowed(exec: F.Work, exec1: F.Work) {
    || exec1 == exec
    || (F.ExecutorMay(exec, F.RunJob) && exec1 == exec.(run := F.Running))
    || (F.ExecutorMay(exec, F.EndJob) && exec1 == exec.(run := F.Ran))
  }

  lemma {:induction false} RejectedStays(p: Pool, a: Action, id: nat)
    requires Sized(p) && Enabled(p, a) && Next(p, a).Ok? && id in p.log.rejected
    ensures id in Next(p, a).p.log.rejected
  {
  }

  /** Every step of the pool is, for every job, a step that the shared state takes for granted. */
  lemma {:induction false} StepIsAllowed(p: Pool, a: Action, x: Item, exec: F.Work)
    requires Inv(p) && Enabled(p, a) && Next(p, a).Ok? && Serves(p, x, exec)
    ensures exists exec1 :: Allowed(exec, exec1) && Serves(Next(p, a).p, x, exec1)
  {
    var p1 := Next(p, a).p;
    StageMoves(p, a, x);
    StepKeepsInv(p, a);
    OnePlace(p1, x);
    OnePlace(p, x);
    if exec.job.Rejected? { RejectedStays(p, a, x.id); }
    hide Inv, Next, Enabled, StageOf, PinnedTo;
    var exec1 := exec.(run := RunAt(StageOf(p1, x)));
    assert Allowed(exec, exec1) && Serves(p1, x, exec1);
  }

  /** So is its answer: true for what it has accepted, false for what it has rejected. */
  lemma {:induction false} AnswerIsAllowed(p: Pool, x: Item, exec: F.Work)
    requires Inv(p) && Serves(p, x, exec) && exec.job.Offered?
    ensures x in p.log.accepted ==> F.AnswerAllowed(exec, true) && Serves(p, x, exec.(job := F.Accepted(exec.job.how)))
    ensures x.id in p.log.rejected ==> F.AnswerAllowed(exec, false) && Serves(p, x, exec.(job := F.Rejected(exec.job.how)))
  {
    OnePlace(p, x);
    hide Inv;
  }

  /** And what it has accepted has run when its workers are joined, if no submission straddled the destructor. */
  lemma {:induction false} AcceptedHasRun(n: nat, steal: bool, acts: seq<Action>, c: Config, x: Item, exec: F.Work)
    requires n > 0 && Runs(Initial(n, steal), acts, c) && c.Ok? && c.p.dtor.Joined? && !c.p.straddled
    requires Serves(c.p, x, exec) && exec.job.Accepted?
    ensures exec.run.Ran?
  {
    T.DrainTheorem(n, steal, acts, c);
    InitialInv(n, steal);
    T.RunKeepsInv(Initial(n, steal), acts, c);
    OnePlace(c.p, x);
    hide Inv, Runs, Initial;
    assert Executions(c.p, x) == Times(c.p.log.accepted, x);
  }
}
