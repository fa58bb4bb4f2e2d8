/** What holds over every run of the pool. */
module ThreadPoolTheorems {
  import opened TryModel
  import opened Tallies
  import opened ThreadPoolMachine
  import opened ThreadPoolProofs

  lemma {:induction false} RunKeepsInv(p: Pool, acts: seq<Action>, c: Config)
    requires Inv(p) && Runs(p, acts, c)
    ensures c.Ok? ==> Inv(c.p) && Fits(p, c.p)
    decreases |acts|
  {
    assert Sized(p);
    hide Inv, Next, Enabled;
    if acts != [] {
      StepKeepsInv(p, acts[0]);
      if Next(p, acts[0]).Ok? {
        RunKeepsInv(Next(p, acts[0]).p, acts[1..], c);
      }
    }
  }

  /** Conservation: every accepted item is queued, held or executed, once; every queue is FIFO; every submission is in
      flight, accepted or rejected. */
  lemma {:induction false} ConservationTheorem(n: nat, steal: bool, acts: seq<Action>, c: Config)
    requires n > 0 && Runs(Initial(n, steal), acts, c) && c.Ok?
    ensures Sized(c.p) && Threads(c.p) == n
    ensures forall x ::
      Tally(c.p.queues, TimesOf(x)) + Tally(c.p.held, TimesOf(x)) + Times(Items(c.p.log.executed), x) == Times(c.p.log.accepted, x)
    ensures forall x :: Times(c.p.log.accepted, x) <= 1
    ensures forall q :: 0 <= q < n ==> c.p.log.pushed[q] == c.p.log.popped[q] + c.p.queues[q]
    ensures forall id :: Known(c.p, id)
  {
    InitialInv(n, steal);
    RunKeepsInv(Initial(n, steal), acts, c);
    forall x
      ensures Accounted(c.p, x) && Times(c.p.log.accepted, x) <= 1
    {
      assert Accounted(c.p, x) && Known(c.p, x.id);
      OncePerId(c.p.log.accepted, x);
    }
    forall q | 0 <= q < n
      ensures c.p.log.pushed[q] == c.p.log.popped[q] + c.p.queues[q]
    {
      assert InOrder(c.p, q);
    }
  }

  lemma {:induction false} OncePerId(s: seq<Item>, x: Item)
    ensures Times(s, x) <= Tally(s, ItemOf(x.id))
  {
    if s != [] {
      TimesFront(s, x);
      OncePerId(s[1..], x);
    }
  }

  lemma {:induction false} NothingOutside(s: seq<Item>, w: nat, late: seq<(nat, Item)>)
    requires forall item :: item in s ==> (w, item) in late
    ensures late == [] ==> s == []
  {
    if s != [] { assert s[0] in s; }
  }

  /** Drain: if no submission straddled the setting of stop_, then every accepted item has been run exactly once when all
      workers are joined. */
  lemma {:induction false} DrainTheorem(n: nat, steal: bool, acts: seq<Action>, c: Config)
    requires n > 0 && Runs(Initial(n, steal), acts, c) && c.Ok? && c.p.dtor.Joined? && !c.p.straddled
    ensures forall x :: Times(Items(c.p.log.executed), x) == Times(c.p.log.accepted, x) <= 1
    ensures Sized(c.p) && Threads(c.p) == n && c.p.flying == [] && forall q :: 0 <= q < n ==> c.p.queues[q] == []
  {
    InitialInv(n, steal);
    RunKeepsInv(Initial(n, steal), acts, c);
    ConservationTheorem(n, steal, acts, c);
    forall q | 0 <= q < n
      ensures c.p.queues[q] == [] && c.p.held[q] == []
    {
      assert Left(c.p, q) && HoldsOne(c.p.pcs[q], c.p.held[q]);
      NothingOutside(c.p.queues[q], q, c.p.log.late);
    }
    forall x
      ensures Times(Items(c.p.log.executed), x) == Times(c.p.log.accepted, x) <= 1
    {
      TallyZero(c.p.queues, TimesOf(x));
      TallyZero(c.p.held, TimesOf(x));
    }
  }

  /** When all workers are joined, what was accepted and not run is what still is in the queues. */
  lemma {:induction false} LeftOver(n: nat, steal: bool, acts: seq<Action>, c: Config, x: Item)
    requires n > 0 && Runs(Initial(n, steal), acts, c) && c.Ok? && c.p.dtor.Joined?
    ensures Times(c.p.log.accepted, x) == Times(Items(c.p.log.executed), x) + Tally(c.p.queues, TimesOf(x)) <= 1
    ensures Tally(c.p.queues, TimesOf(x)) > 0 <==> exists q :: 0 <= q < |c.p.queues| && x in c.p.queues[q]
  {
    InitialInv(n, steal);
    RunKeepsInv(Initial(n, steal), acts, c);
    ConservationTheorem(n, steal, acts, c);
    forall q | 0 <= q < n
      ensures c.p.held[q] == []
    {
      assert HoldsOne(c.p.pcs[q], c.p.held[q]) && Left(c.p, q);
    }
    TallyZero(c.p.held, TimesOf(x));
    TallyZero(c.p.queues, TimesOf(x));
    if Tally(c.p.queues, TimesOf(x)) > 0 {
      var q :| 0 <= q < n && Times(c.p.queues[q], x) != 0;
      assert x in c.p.queues[q];
    }
    if q :| 0 <= q < n && x in c.p.queues[q] {
      assert Times(c.p.queues[q], x) != 0;
    }
  }

  predicate CameLate(p: Pool, x: Item, q: int) {
    0 <= q < |p.queues| && (q, x) in p.log.late
  }

  /** What a queue holds when its worker has left came late, and stays unless it may be stolen. */
  lemma {:induction false} LateItemsStay(p: Pool, x: Item, q: int)
    requires Inv(p) && p.dtor.Joined? && 0 <= q < |p.queues|
    ensures x in p.queues[q] ==> CameLate(p, x, q)
    ensures CameLate(p, x, q) && !x.canSteal ==> x in p.queues[q]
    ensures CameLate(p, x, q) ==> p.straddled
  {
    hide Conserved, Fifo, Holding, Pinned, Numbered, OnTarget;
    assert Left(p, q);
    if CameLate(p, x, q) {
      var k :| 0 <= k < |p.log.late| && p.log.late[k] == (q, x);
      assert Stays(p, p.log.late[k]);
    }
  }

  /** In any case: when all workers are joined, an accepted item has not been run if and only if it was pushed after the
      worker of its queue had left and is still there. Only a thief could have taken it, so for an item that must not be
      stolen the time of its push decides. */
  lemma {:induction false} LateTheorem(n: nat, steal: bool, acts: seq<Action>, c: Config, x: Item)
    requires n > 0 && Runs(Initial(n, steal), acts, c) && c.Ok? && c.p.dtor.Joined? && x in c.p.log.accepted
    ensures Times(Items(c.p.log.executed), x) == 0 <==> exists q :: CameLate(c.p, x, q) && x in c.p.queues[q]
    ensures !x.canSteal ==> (Times(Items(c.p.log.executed), x) == 0 <==> exists q :: CameLate(c.p, x, q))
    ensures (exists q :: CameLate(c.p, x, q)) ==> c.p.straddled
  {
    InitialInv(n, steal);
    RunKeepsInv(Initial(n, steal), acts, c);
    LeftOver(n, steal, acts, c, x);
    hide Inv, Runs, Initial;
    if Times(Items(c.p.log.executed), x) == 0 {
      var q :| 0 <= q < |c.p.queues| && x in c.p.queues[q];
      LateItemsStay(c.p, x, q);
    }
    if q :| CameLate(c.p, x, q) {
      LateItemsStay(c.p, x, q);
    }
  }

  /** A job whose submission was answered with an error is never run. */
  lemma {:induction false} RejectedNeverRuns(n: nat, steal: bool, acts: seq<Action>, c: Config, k: nat)
    requires n > 0 && Runs(Initial(n, steal), acts, c) && c.Ok? && k < |c.p.log.executed|
    ensures c.p.log.executed[k].1 in c.p.log.accepted
    ensures c.p.log.executed[k].1.id !in c.p.log.rejected
  {
    var x := c.p.log.executed[k].1;
    ConservationTheorem(n, steal, acts, c);
    assert Items(c.p.log.executed)[k] == x;
    assert x in Items(c.p.log.executed);
    assert Known(c.p, x.id);
    OncePerId(c.p.log.accepted, x);
    if x.id in c.p.log.rejected {
      var j :| 0 <= j < |c.p.log.rejected| && c.p.log.rejected[j] == x.id;
      TallyAtLeast(c.p.log.rejected, j, IdOf(x.id));
    }
  }

  /** A job submitted for worker w is run by w and no other, also when stealing is enabled. */
  lemma {:induction false} PinTheorem(n: nat, steal: bool, acts: seq<Action>, c: Config, k: nat)
    requires n > 0 && Runs(Initial(n, steal), acts, c) && c.Ok? && k < |c.p.log.executed|
    ensures var id := c.p.log.executed[k].1.id;
      id < |c.p.log.targets| && (c.p.log.targets[id] != ANY_WORKER ==> c.p.log.executed[k].0 == c.p.log.targets[id])
  {
    InitialInv(n, steal);
    RunKeepsInv(Initial(n, steal), acts, c);
    RejectedNeverRuns(n, steal, acts, c, k);
    var x := c.p.log.executed[k].1;
    var j :| 0 <= j < |c.p.log.accepted| && c.p.log.accepted[j] == x;
    assert PinnedTo(x, c.p.log.executed[k].0) && Targeted(c.p, x);
  }

  // ---------------------------------------------------------------- shutdown

  /** While the destructor waits, somebody can move: the workers are never stuck. */
  lemma {:induction false} ShutdownNeverStuck(n: nat, steal: bool, acts: seq<Action>, c: Config)
    requires n > 0 && Runs(Initial(n, steal), acts, c) && c.Ok? && c.p.stop && !c.p.dtor.Joined?
    ensures Sized(c.p) && exists a: Action :: !a.Submit? && Enabled(c.p, a)
  {
    InitialInv(n, steal);
    RunKeepsInv(Initial(n, steal), acts, c);
    var p := c.p;
    if p.dtor.Joining? && p.dtor.k < n && !p.pcs[p.dtor.k].Exited? {
      var w := p.dtor.k;
      assert HoldsOne(p.pcs[w], p.held[w]) && p.stopped[w];
      var a := match p.pcs[w]
        case Scanning(_) => Scan(w, true)
        case Waiting => Pop(w)
        case _ => Run(w);
      assert Enabled(p, a);
    } else {
      assert Enabled(p, Destroy);
    }
  }

  function Rank(threads: nat): WorkerPc -> nat {
    (pc: WorkerPc) =>
      match pc
      case Scanning(n) => if n <= threads * 2 then threads * 2 - n + 2 else 2
      case Waiting => 1
      case Working => threads * 2 + 3
      case Exited => 0
  }

  function QueueWork(threads: nat): seq<Item> -> nat {
    (queue: seq<Item>) => |queue| * (threads * 2 + 3)
  }

  function DestructorWork(dtor: DestructorPc, threads: nat): nat {
    match dtor
    case NotBegun => threads * 2 + 3
    case StoppingQueues(k) => if k <= threads then threads * 2 + 2 - k else threads + 2
    case Joining(k) => if k <= threads then threads + 1 - k else 1
    case Joined => 0
  }

  /** The work left once no more jobs are submitted. */
  function Measure(p: Pool): nat {
    var t := Threads(p);
    |p.flying| * (t * 2 + 4) + Tally(p.queues, QueueWork(t)) + Tally(p.pcs, Rank(t)) + DestructorWork(p.dtor, t)
  }

  lemma {:induction false} OneMore(a: nat, c: nat)
    ensures (a + 1) * c == a * c + c
  {
  }

  lemma {:induction false} TakeShrinks(p: Pool, w: nat, q: nat)
    requires Sized(p) && w < Threads(p) && q < Threads(p) && p.queues[q] != []
    requires Rank(Threads(p))(p.pcs[w]) >= 1
    ensures Measure(Taken(p, w, q)) < Measure(p)
  {
    var t := Threads(p);
    TallyUpdate(p.queues, q, p.queues[q][1..], QueueWork(t));
    TallyUpdate(p.pcs, w, Working, Rank(t));
    OneMore(|p.queues[q][1..]|, t * 2 + 3);
  }

  lemma {:induction false} LandShrinks(p: Pool, k: nat, q: nat)
    requires Sized(p) && k < |p.flying| && q < Threads(p) && Landed(p, k, q).Ok?
    ensures Measure(Landed(p, k, q).p) < Measure(p)
  {
    var t, p1 := Threads(p), Landed(p, k, q).p;
    var at := if p.flying[k].target == ANY_WORKER then q else p.flying[k].target;
    var queue1 := p1.queues[at];
    assert |p1.flying| + 1 == |p.flying| && |queue1| == |p.queues[at]| + 1 && p1.queues == p.queues[at := queue1];
    assert p1.pcs == p.pcs && p1.dtor == p.dtor;
    hide Landed;
    TallyUpdate(p.queues, at, queue1, QueueWork(t));
    OneMore(|p1.flying|, t * 2 + 4);
    OneMore(|p.queues[at]|, t * 2 + 3);
  }

  lemma {:induction false} RunShrinks(p: Pool, w: nat)
    requires Sized(p) && w < Threads(p) && p.held[w] != [] && p.pcs[w].Working?
    ensures Measure(Ran(p, w)) < Measure(p)
  {
    TallyUpdate(p.pcs, w, Scanning(0), Rank(Threads(p)));
  }

  lemma {:induction false} MoveShrinks(p: Pool, w: nat, pc: WorkerPc)
    requires Sized(p) && w < Threads(p) && Rank(Threads(p))(pc) < Rank(Threads(p))(p.pcs[w])
    ensures Measure(p.(pcs := p.pcs[w := pc])) < Measure(p)
  {
    TallyUpdate(p.pcs, w, pc, Rank(Threads(p)));
  }

  /** Shutdown ends: every step but a new submission leaves less to do. With ShutdownNeverStuck, the destructor returns. */
  lemma {:induction false} ShutdownEnds(p: Pool, a: Action)
    requires Inv(p) && Enabled(p, a) && !a.Submit? && Next(p, a).Ok?
    ensures Measure(Next(p, a).p) < Measure(p)
  {
    var t := Threads(p);
    match a
    case Land(k, q) => LandShrinks(p, k, q);
    case Run(w) => RunShrinks(p, w);
    case Pop(w) => if p.queues[w] != [] { TakeShrinks(p, w, w); } else { MoveShrinks(p, w, Exited); }
    case Scan(w, busy) =>
      var n := p.pcs[w].n;
      if !p.steal || n >= t * 2 {
        MoveShrinks(p, w, Waiting);
      } else if !busy && p.queues[(w + n) % t] != [] && p.queues[(w + n) % t][0].canSteal {
        TakeShrinks(p, w, (w + n) % t);
      } else {
        MoveShrinks(p, w, Scanning(n + 1));
      }
    case Destroy =>
      assert Phases(p);
  }

  // ---------------------------------------------------------------- a pool that is not being destroyed

  lemma {:induction false} OpenRejectsNothing(p: Pool, acts: seq<Action>, c: Config)
    requires Runs(p, acts, c) && c.Ok? && (p.stop || p.log.rejected == [])
    ensures c.p.stop || c.p.log.rejected == []
    decreases |acts|
  {
    if acts != [] {
      OpenRejectsNothing(Next(p, acts[0]).p, acts[1..], c);
    }
  }

  lemma {:induction false} FirstOccurs(t: seq<Item>)
    ensures t == [] || exists x :: Times(t, x) > 0
  {
    assert t == [] || Times(t, t[0]) > 0;
  }

  /** The same jobs in another order are as many of every number. */
  lemma {:induction false} SameTally(s: seq<Item>, t: seq<Item>)
    requires forall x :: Times(s, x) == Times(t, x)
    ensures forall id :: Tally(s, ItemOf(id)) == Tally(t, ItemOf(id))
  {
    if s == [] {
      FirstOccurs(t);
    } else {
      var x := s[0];
      assert Times(t, x) > 0;
      var k :| 0 <= k < |t| && t[k] == x;
      var rest := t[..k] + t[k + 1..];
      forall y
        ensures Times(s[1..], y) == Times(rest, y)
      {
        TimesFront(s, y);
        assert t == t[..k] + [x] + t[k + 1..];
      }
      SameTally(s[1..], rest);
      forall id
        ensures Tally(s, ItemOf(id)) == Tally(t, ItemOf(id))
      {
        TallyRemove(t, k, ItemOf(id));
      }
    }
  }

  /** Nothing can happen any more, but for new submissions and the destructor. */
  ghost predicate AtRest(p: Pool)
    requires Sized(p)
  {
    forall a :: Enabled(p, a) ==> a.Submit? || a.Destroy?
  }

  lemma {:induction false} RestMeansDone(p: Pool, w: nat)
    requires Inv(p) && !p.stop && AtRest(p) && w < Threads(p)
    ensures p.queues[w] == [] && p.held[w] == [] && p.flying == []
  {
    assert p.dtor.NotBegun? && Left(p, w) && HoldsOne(p.pcs[w], p.held[w]);
    assert !Enabled(p, Scan(w, true)) && !Enabled(p, Pop(w)) && !Enabled(p, Run(w)) && !Enabled(p, Land(0, 0));
  }

  /** An open pool refuses nothing, and when it has come to rest it has run every job submitted to it, exactly once. With
      ShutdownEnds, whose measure falls with every step of a worker, it does come to rest. */
  lemma {:induction false} RestTheorem(n: nat, steal: bool, acts: seq<Action>, c: Config)
    requires n > 0 && Runs(Initial(n, steal), acts, c) && c.Ok? && !c.p.stop
    ensures c.p.log.rejected == []
    ensures Sized(c.p) && (AtRest(c.p) ==> forall id :: 0 <= id < c.p.next ==> Tally(Items(c.p.log.executed), ItemOf(id)) == 1)
  {
    InitialInv(n, steal);
    RunKeepsInv(Initial(n, steal), acts, c);
    OpenRejectsNothing(Initial(n, steal), acts, c);
    var p := c.p;
    if AtRest(p) {
      forall w | 0 <= w < Threads(p)
        ensures p.queues[w] == [] && p.held[w] == []
      {
        RestMeansDone(p, w);
      }
      RestMeansDone(p, 0);
      forall x
        ensures Times(Items(p.log.executed), x) == Times(p.log.accepted, x)
      {
        assert Accounted(p, x);
        TallyZero(p.queues, TimesOf(x));
        TallyZero(p.held, TimesOf(x));
      }
      SameTally(Items(p.log.executed), p.log.accepted);
      forall id | 0 <= id < p.next
        ensures Tally(Items(p.log.executed), ItemOf(id)) == 1
      {
        assert Known(p, id) && Tally(p.flying, FlightOf(id)) == 0 && Tally(p.log.rejected, IdOf(id)) == 0;
      }
    }
  }

  // ---------------------------------------------------------------- a submission that straddles stop_

  /** When a push fails: the id is no worker's, or the pool is gone. */
  lemma {:induction false} LandingFails(p: Pool, k: nat, q: nat)
    requires Inv(p) && Enabled(p, Land(k, q))
    ensures Next(p, Land(k, q)).Ok? <==>
            !p.dtor.Joined? && (p.flying[k].target == ANY_WORKER || 0 <= p.flying[k].target < Threads(p))
    ensures p.dtor.Joined? ==> p.straddled
  {
  }

  /** The only worker is about to find its queue stopped and empty, and a submission is still in flight. */
  function AboutToLose(): Pool {
    Pool(false, [[]], [true], [Waiting], [[]], true, Joining(0), true, [Flight(0, ANY_WORKER)], 1,
         History([], [], [ANY_WORKER], [], [], [[]], [[]]))
  }

  lemma {:induction false} StraddlingBegins()
    ensures Runs(Initial(1, false), [Submit(ANY_WORKER), Destroy, Destroy, Destroy, Scan(0, false)], Ok(AboutToLose()))
  {
    var p0 := Initial(1, false);
    assert p0 == Pool(false, [[]], [false], [Scanning(0)], [[]], false, NotBegun, false, [], 0, History([], [], [], [], [], [[]], [[]]));
    hide Initial;
    var acts := [Submit(ANY_WORKER), Destroy, Destroy, Destroy, Scan(0, false)];
    var p1 := Next(p0, acts[0]).p;
    var p2 := Next(p1, acts[1]).p;
    var p3 := Next(p2, acts[2]).p;
    var p4 := Next(p3, acts[3]).p;
    assert Runs(AboutToLose(), [], Ok(AboutToLose()));
    assert Runs(p4, acts[4..], Ok(AboutToLose()));
    assert Runs(p3, acts[3..], Ok(AboutToLose()));
    assert Runs(p2, acts[2..], Ok(AboutToLose()));
    assert Runs(p1, acts[1..], Ok(AboutToLose()));
  }

  lemma {:induction false} RunsAppend(p: Pool, acts: seq<Action>, p1: Pool, more: seq<Action>, c: Config)
    requires Runs(p, acts, Ok(p1)) && Runs(p1, more, c)
    ensures Runs(p, acts + more, c)
    decreases |acts|
  {
    hide Next, Enabled;
    if acts == [] {
      assert acts + more == more;
    } else {
      assert (acts + more)[1..] == acts[1..] + more;
      RunsAppend(Next(p, acts[0]).p, acts[1..], p1, more, c);
    }
  }

  predicate LostAJob(p: Pool) {
    p.dtor.Joined? && p.straddled && |p.log.accepted| == 1 && p.log.rejected == [] && p.log.executed == []
  }

  /** The job whose submitter read stop_ == false and pushed after the only worker had left was accepted and is never run. */
  lemma {:induction false} StraddlingJobIsLost()
    ensures exists acts, p :: Runs(Initial(1, false), acts, Ok(p)) && LostAJob(p)
  {
    StraddlingBegins();
    var p5 := AboutToLose();
    var more := [Pop(0), Land(0, 0), Destroy, Destroy];
    var p6 := Next(p5, more[0]).p;
    var p7 := Next(p6, more[1]).p;
    var p8 := Next(p7, more[2]).p;
    var p9 := Next(p8, more[3]).p;
    assert Runs(p9, [], Ok(p9));
    assert Runs(p8, more[3..], Ok(p9));
    assert Runs(p7, more[2..], Ok(p9));
    assert Runs(p6, more[1..], Ok(p9));
    assert Runs(p5, more, Ok(p9));
    hide Initial;
    RunsAppend(Initial(1, false), [Submit(ANY_WORKER), Destroy, Destroy, Destroy, Scan(0, false)], p5, more, Ok(p9));
  }

  // ---------------------------------------------------------------- a late item that may be stolen

  function At(p: Pool, w: nat, pc: WorkerPc): (p1: Pool)
    requires Sized(p) && w < Threads(p)
    ensures Fits(p, p1)
  {
    p.(pcs := p.pcs[w := pc])
  }

  lemma {:induction false} FindsLockBusy(p: Pool, w: nat, n: nat)
    requires Sized(p) && Threads(p) == 2 && w < 2 && p.steal && n <= 4
    ensures Next(At(p, w, Scanning(n)), Scan(w, true)) == Ok(At(p, w, if n < 4 then Scanning(n + 1) else Waiting))
  {
    var pc1 := if n < 4 then Scanning(n + 1) else Waiting;
    assert p.pcs[w := Scanning(n)][w := pc1] == p.pcs[w := pc1];
  }

  /** A worker of a stopped pool of two that finds every lock busy gives up stealing, and leaves if its own queue is empty. */
  lemma {:induction false} GivesUp(p: Pool, w: nat)
    requires Sized(p) && Threads(p) == 2 && w < 2 && p.pcs[w] == Scanning(0) && p.steal && p.stopped[w] && p.queues[w] == []
    ensures Runs(p, [Scan(w, true), Scan(w, true), Scan(w, true), Scan(w, true), Scan(w, true), Pop(w)], Ok(At(p, w, Exited)))
  {
    var acts := [Scan(w, true), Scan(w, true), Scan(w, true), Scan(w, true), Scan(w, true), Pop(w)];
    var c := Ok(At(p, w, Exited));
    assert At(p, w, Scanning(0)).pcs == p.pcs;
    assert p.pcs[w := Waiting][w := Exited] == p.pcs[w := Exited];
    assert Next(At(p, w, Waiting), Pop(w)) == c;
    FindsLockBusy(p, w, 0);
    FindsLockBusy(p, w, 1);
    FindsLockBusy(p, w, 2);
    FindsLockBusy(p, w, 3);
    FindsLockBusy(p, w, 4);
    hide Next;
    assert Runs(c.p, [], c);
    assert Runs(At(p, w, Waiting), acts[5..], c);
    assert Runs(At(p, w, Scanning(4)), acts[4..], c);
    assert Runs(At(p, w, Scanning(3)), acts[3..], c);
    assert Runs(At(p, w, Scanning(2)), acts[2..], c);
    assert Runs(At(p, w, Scanning(1)), acts[1..], c);
  }

  lemma {:induction false} JoinsBoth(p: Pool)
    requires Sized(p) && p.pcs == [Exited, Exited] && p.dtor == Joining(0)
    ensures Runs(p, [Destroy, Destroy, Destroy], Ok(p.(dtor := Joined)))
  {
    var acts := [Destroy, Destroy, Destroy];
    var c := Ok(p.(dtor := Joined));
    assert Runs(c.p, [], c);
    assert Runs(p.(dtor := Joining(2)), acts[2..], c);
    assert Runs(p.(dtor := Joining(1)), acts[1..], c);
  }

  /** Two workers that steal, being stopped; one submission straddles that. */
  function Stopping(pcs: seq<WorkerPc>): Pool {
    Pool(true, [[], []], [true, true], pcs, [[], []], true, Joining(0), true, [Flight(0, ANY_WORKER)], 1,
         History([], [], [ANY_WORKER], [], [], [[], []], [[], []]))
  }

  lemma {:induction false} StoppingBegins()
    ensures Runs(Initial(2, true), [Submit(ANY_WORKER), Destroy, Destroy, Destroy, Destroy], Ok(Stopping([Scanning(0), Scanning(0)])))
  {
    var p0 := Initial(2, true);
    assert p0 == Pool(true, [[], []], [false, false], [Scanning(0), Scanning(0)], [[], []], false, NotBegun, false, [], 0,
                      History([], [], [], [], [], [[], []], [[], []]));
    hide Initial;
    var acts := [Submit(ANY_WORKER), Destroy, Destroy, Destroy, Destroy];
    var c := Ok(Stopping([Scanning(0), Scanning(0)]));
    var p1 := Next(p0, acts[0]).p;
    var p2 := Next(p1, acts[1]).p;
    var p3 := Next(p2, acts[2]).p;
    var p4 := Next(p3, acts[3]).p;
    assert Runs(c.p, [], c);
    assert Runs(p4, acts[4..], c);
    assert Runs(p3, acts[3..], c);
    assert Runs(p2, acts[2..], c);
    assert Runs(p1, acts[1..], c);
  }

  const LATE_ITEM := Item(0, None, true)

  /** The job has come late, on the queue of worker 0. */
  function CameTooLate(): (p: Pool)
    ensures Fits(Stopping([Exited, Scanning(0)]), p) && p.queues[0] == [LATE_ITEM] && p.queues[1] == [] && p.log.late == [(0, LATE_ITEM)]
  {
    Pushed(Stopping([Exited, Scanning(0)]).(flying := []), 0, LATE_ITEM)
  }

  ghost predicate Reached(p: Pool) {
    exists acts :: Runs(Initial(2, true), acts, Ok(p))
  }

  lemma {:induction false} ReachedMore(p: Pool, more: seq<Action>, p1: Pool)
    requires Reached(p) && Runs(p, more, Ok(p1))
    ensures Reached(p1)
  {
    var acts :| Runs(Initial(2, true), acts, Ok(p));
    RunsAppend(Initial(2, true), acts, p, more, Ok(p1));
    assert Runs(Initial(2, true), acts + more, Ok(p1));
  }

  lemma {:induction false} LateItemLands()
    ensures Runs(Stopping([Exited, Scanning(0)]), [Land(0, 0)], Ok(CameTooLate()))
  {
    var p := Stopping([Exited, Scanning(0)]);
    assert p.flying[..0] + p.flying[1..] == [];
    assert Next(p, Land(0, 0)) == Ok(CameTooLate());
    assert Runs(CameTooLate(), [], Ok(CameTooLate()));
  }

  lemma {:induction false} LateItemComes()
    ensures Reached(CameTooLate())
  {
    hide Initial;
    StoppingBegins();
    var p0 := Stopping([Scanning(0), Scanning(0)]);
    var p1 := Stopping([Exited, Scanning(0)]);
    assert Reached(p0);
    GivesUp(p0, 0);
    assert At(p0, 0, Exited).pcs == p1.pcs;
    hide Reached, Runs;
    ReachedMore(p0, [Scan(0, true), Scan(0, true), Scan(0, true), Scan(0, true), Scan(0, true), Pop(0)], p1);
    LateItemLands();
    ReachedMore(p1, [Land(0, 0)], CameTooLate());
  }

  /** Worker 1 leaves, and the destructor is done. */
  lemma {:induction false} SecondLeaves(p: Pool)
    requires Reached(p) && Sized(p) && Threads(p) == 2 && p.pcs == [Exited, Scanning(0)] && p.steal && p.stopped[1]
    requires p.queues[1] == [] && p.dtor == Joining(0)
    ensures Reached(p.(pcs := [Exited, Exited], dtor := Joined))
  {
    var p1 := p.(pcs := [Exited, Exited]);
    GivesUp(p, 1);
    assert p.pcs[1 := Exited] == [Exited, Exited];
    JoinsBoth(p1);
    hide Reached, Runs;
    ReachedMore(p, [Scan(1, true), Scan(1, true), Scan(1, true), Scan(1, true), Scan(1, true), Pop(1)], p1);
    ReachedMore(p1, [Destroy, Destroy, Destroy], p1.(dtor := Joined));
  }

  predicate Ended(p: Pool, executed: seq<(nat, Item)>) {
    p.dtor.Joined? && p.log.late == [(0, LATE_ITEM)] && p.log.executed == executed
  }

  function Stealing(): (p: Pool)
    ensures Fits(CameTooLate(), p) && p.held[1] == [LATE_ITEM] && p.queues[1] == []
  {
    Taken(At(CameTooLate(), 1, Scanning(1)), 1, 0)
  }

  lemma {:induction false} StolenRuns()
    ensures Runs(CameTooLate(), [Scan(1, false), Scan(1, false), Run(1)], Ok(Ran(Stealing(), 1)))
  {
    var acts := [Scan(1, false), Scan(1, false), Run(1)];
    var c := Ok(Ran(Stealing(), 1));
    var p1 := At(CameTooLate(), 1, Scanning(1));
    assert Next(CameTooLate(), acts[0]) == Ok(p1);
    assert Next(p1, acts[1]) == Ok(Stealing());
    assert Runs(c.p, [], c);
    assert Runs(Stealing(), acts[2..], c);
    assert Runs(p1, acts[1..], c);
  }

  /** For an item that may be stolen the time of its push does not decide: one that came late is lost if worker 1 finds the
      lock busy, and run if it does not. */
  lemma {:induction false} LateItemMayBeStolen()
    ensures exists p :: Reached(p) && Ended(p, [])
    ensures exists p :: Reached(p) && Ended(p, [(1, LATE_ITEM)])
  {
    LateItemComes();
    var p0 := CameTooLate();
    hide Reached;
    SecondLeaves(p0);
    assert Reached(p0.(pcs := [Exited, Exited], dtor := Joined)) && Ended(p0.(pcs := [Exited, Exited], dtor := Joined), []);
    StolenRuns();
    var p3 := Ran(Stealing(), 1);
    ReachedMore(p0, [Scan(1, false), Scan(1, false), Run(1)], p3);
    SecondLeaves(p3);
    assert Reached(p3.(pcs := [Exited, Exited], dtor := Joined)) && Ended(p3.(pcs := [Exited, Exited], dtor := Joined), [(1, LATE_ITEM)]);
  }
}
