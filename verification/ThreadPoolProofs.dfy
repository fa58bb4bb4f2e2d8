/** What every step of the pool keeps. */
module ThreadPoolProofs {
  import opened TryModel
  import opened Tallies
  import opened ThreadPoolMachine

  // ---------------------------------------------------------------- the invariant

  /** Accepted items are queued, held or executed. */
  predicate Accounted(p: Pool, x: Item) {
    Tally(p.queues, TimesOf(x)) + Tally(p.held, TimesOf(x)) + Times(Items(p.log.executed), x) == Times(p.log.accepted, x)
  }

  ghost predicate Conserved(p: Pool) {
    forall x :: Accounted(p, x)
  }

  predicate InOrder(p: Pool, q: nat)
    requires Sized(p) && q < Threads(p)
  {
    p.log.pushed[q] == p.log.popped[q] + p.queues[q]
  }

  /** Each queue is first in, first out. */
  predicate Fifo(p: Pool)
    requires Sized(p)
  {
    forall q :: 0 <= q < Threads(p) ==> InOrder(p, q)
  }

  predicate HoldsOne(pc: WorkerPc, held: seq<Item>) {
    |held| == if pc.Working? then 1 else 0
  }

  predicate Holding(p: Pool)
    requires Sized(p)
  {
    forall w :: 0 <= w < Threads(p) ==> HoldsOne(p.pcs[w], p.held[w])
  }

  /** A worker that has left was stopped; what its queue holds now came late. */
  predicate Left(p: Pool, w: nat)
    requires Sized(p) && w < Threads(p)
  {
    p.pcs[w].Exited? ==> p.stopped[w] && forall item :: item in p.queues[w] ==> (w, item) in p.log.late
  }

  predicate AllLeft(p: Pool)
    requires Sized(p)
  {
    forall w :: 0 <= w < Threads(p) ==> Left(p, w)
  }

  /** Nobody but a thief takes anything from the queue of a worker that has left. */
  predicate Stays(p: Pool, late: (nat, Item))
    requires Sized(p)
  {
    late.0 < Threads(p) && p.pcs[late.0].Exited? && (late.1.canSteal || late.1 in p.queues[late.0])
  }

  predicate LateStays(p: Pool)
    requires Sized(p)
  {
    forall k :: 0 <= k < |p.log.late| ==> Stays(p, p.log.late[k])
  }

  predicate Phases(p: Pool)
    requires Sized(p)
  {
    match p.dtor
    case NotBegun => !p.stop && !p.straddled && forall w :: 0 <= w < Threads(p) ==> !p.stopped[w]
    case StoppingQueues(k) => p.stop && k <= Threads(p) && forall w :: 0 <= w < Threads(p) ==> (p.stopped[w] <==> w < k)
    case Joining(k) =>
      p.stop && k <= Threads(p) && (forall w :: 0 <= w < Threads(p) ==> p.stopped[w]) &&
      forall w :: 0 <= w < k ==> p.pcs[w].Exited?
    case Joined => p.stop && forall w :: 0 <= w < Threads(p) ==> p.stopped[w] && p.pcs[w].Exited?
  }

  /** If nothing was in flight when stop_ was set, nothing is pushed after that. */
  predicate NothingLate(p: Pool) {
    !p.straddled ==> p.log.late == [] && (p.stop ==> p.flying == [])
  }

  predicate PinnedTo(item: Item, w: nat) {
    item.pin.Some? ==> item.pin.value == w && !item.canSteal
  }

  predicate PinnedAt(p: Pool, w: nat)
    requires Sized(p) && w < Threads(p)
  {
    (forall k :: 0 <= k < |p.queues[w]| ==> PinnedTo(p.queues[w][k], w)) &&
    (forall k :: 0 <= k < |p.held[w]| ==> PinnedTo(p.held[w][k], w))
  }

  /** A pinned item is only ever with its own worker. */
  predicate Pinned(p: Pool)
    requires Sized(p)
  {
    && (forall w :: 0 <= w < Threads(p) ==> PinnedAt(p, w))
    && (forall k :: 0 <= k < |p.log.executed| ==> PinnedTo(p.log.executed[k].1, p.log.executed[k].0))
  }

  /** Every submission so far is in flight, accepted or rejected: one of the three, and once. */
  predicate Known(p: Pool, id: nat) {
    Tally(p.flying, FlightOf(id)) + Tally(p.log.accepted, ItemOf(id)) + Tally(p.log.rejected, IdOf(id)) ==
    if id < p.next then 1 else 0
  }

  ghost predicate Numbered(p: Pool) {
    forall id :: Known(p, id)
  }

  predicate Targeted(p: Pool, item: Item) {
    item.id < |p.log.targets| && p.log.targets[item.id] == if item.pin.Some? then item.pin.value else ANY_WORKER
  }

  /** An item is pinned where its submission said. */
  predicate OnTarget(p: Pool) {
    && |p.log.targets| == p.next
    && (forall i :: 0 <= i < |p.flying| ==>
          p.flying[i].id < p.next && p.log.targets[p.flying[i].id] == p.flying[i].target)
    && (forall i :: 0 <= i < |p.log.accepted| ==> Targeted(p, p.log.accepted[i]))
  }

  ghost predicate Inv(p: Pool) {
    Sized(p) && OnTarget(p) && Conserved(p) && Fifo(p) && Holding(p) && AllLeft(p) && LateStays(p) && Phases(p) && NothingLate(p) && Pinned(p) && Numbered(p)
  }

  lemma {:induction false} InitialInv(n: nat, steal: bool)
    requires n > 0
    ensures Inv(Initial(n, steal))
  {
    var p := Initial(n, steal);
    forall x
      ensures Accounted(p, x)
    {
      TallyZero(p.queues, TimesOf(x));
      TallyZero(p.held, TimesOf(x));
    }
  }

  // ---------------------------------------------------------------- late items

  lemma {:induction false} PushKeepsLate(p: Pool, q: nat, item: Item)
    requires Sized(p) && q < Threads(p) && LateStays(p)
    ensures LateStays(Pushed(p, q, item))
  {
    var p1 := Pushed(p, q, item);
    forall k | 0 <= k < |p1.log.late|
      ensures Stays(p1, p1.log.late[k])
    {
      assert k < |p.log.late| ==> Stays(p, p.log.late[k]);
      assert item in p1.queues[q];
    }
  }

  lemma {:induction false} TakeKeepsLate(p: Pool, w: nat, q: nat)
    requires Sized(p) && w < Threads(p) && q < Threads(p) && p.queues[q] != [] && !p.pcs[w].Exited? && LateStays(p)
    requires w == q || p.queues[q][0].canSteal
    ensures LateStays(Taken(p, w, q))
  {
    var p1 := Taken(p, w, q);
    forall k | 0 <= k < |p1.log.late|
      ensures Stays(p1, p1.log.late[k])
    {
      assert Stays(p, p.log.late[k]);
      assert p.queues[q] == [p.queues[q][0]] + p.queues[q][1..];
    }
  }

  /** A step that leaves the queues alone and moves no worker that has left. */
  lemma {:induction false} LateApart(p: Pool, p1: Pool)
    requires Sized(p) && Sized(p1) && LateStays(p) && p1.queues == p.queues && p1.log.late == p.log.late
    requires forall w :: 0 <= w < Threads(p) && p.pcs[w].Exited? ==> p1.pcs[w].Exited?
    ensures LateStays(p1)
  {
    forall k | 0 <= k < |p1.log.late|
      ensures Stays(p1, p1.log.late[k])
    {
      assert Stays(p, p.log.late[k]);
    }
  }

  // ---------------------------------------------------------------- pushing

  lemma {:induction false} PushConserves(p: Pool, q: nat, item: Item)
    requires Sized(p) && q < Threads(p) && Conserved(p)
    ensures Conserved(Pushed(p, q, item))
  {
    forall x
      ensures Accounted(Pushed(p, q, item), x)
    {
      assert Accounted(p, x);
      TallyUpdate(p.queues, q, p.queues[q] + [item], TimesOf(x));
      TimesPush(p.queues[q], item, x);
      TimesPush(p.log.accepted, item, x);
      hide Times;
    }
  }

  lemma {:induction false} PushKeepsQueues(p: Pool, q: nat, item: Item)
    requires Sized(p) && q < Threads(p) && Fifo(p) && AllLeft(p) && Pinned(p) && PinnedTo(item, q)
    ensures var p1 := Pushed(p, q, item); Fifo(p1) && AllLeft(p1) && Pinned(p1)
  {
    var p1 := Pushed(p, q, item);
    forall w | 0 <= w < Threads(p)
      ensures InOrder(p1, w) && Left(p1, w) && PinnedAt(p1, w)
    {
      assert InOrder(p, w) && Left(p, w) && PinnedAt(p, w);
    }
  }

  lemma {:induction false} LandKeepsNumbered(p: Pool, k: nat, q: nat)
    requires Sized(p) && k < |p.flying| && q < Threads(p) && Numbered(p) && Landed(p, k, q).Ok?
    ensures Numbered(Landed(p, k, q).p)
  {
    var p1, fl := Landed(p, k, q).p, p.flying[k];
    var item := p1.log.accepted[|p.log.accepted|];
    assert p1.flying == p.flying[..k] + p.flying[k + 1..] && p1.next == p.next && p1.log.rejected == p.log.rejected;
    assert p1.log.accepted == p.log.accepted + [item] && item.id == fl.id;
    hide Landed;
    forall id
      ensures Known(p1, id)
    {
      assert Known(p, id);
      TallyRemove(p.flying, k, FlightOf(id));
      TallyPush(p.log.accepted, item, ItemOf(id));
    }
  }

  lemma {:induction false} LandKeepsTargets(p: Pool, k: nat, q: nat)
    requires Sized(p) && k < |p.flying| && q < Threads(p) && OnTarget(p) && Landed(p, k, q).Ok?
    ensures OnTarget(Landed(p, k, q).p)
  {
    var p1, fl := Landed(p, k, q).p, p.flying[k];
    var item := p1.log.accepted[|p.log.accepted|];
    assert p1.flying == p.flying[..k] + p.flying[k + 1..] && p1.next == p.next && p1.log.targets == p.log.targets;
    assert p1.log.accepted == p.log.accepted + [item] && item.id == fl.id;
    assert Targeted(p1, item);
    hide Landed;
    forall i | 0 <= i < |p1.log.accepted|
      ensures Targeted(p1, p1.log.accepted[i])
    {
      assert i < |p.log.accepted| ==> Targeted(p, p.log.accepted[i]);
    }
    assert forall i :: 0 <= i < |p1.flying| ==> p1.flying[i] == p.flying[if i < k then i else i + 1];
  }

  lemma {:induction false} TargetsApart(p: Pool, p1: Pool)
    requires OnTarget(p) && p1.flying == p.flying && p1.log.accepted == p.log.accepted && p1.log.targets == p.log.targets
    requires p1.next == p.next
    ensures OnTarget(p1)
  {
    forall i | 0 <= i < |p1.log.accepted|
      ensures Targeted(p1, p1.log.accepted[i])
    {
      assert Targeted(p, p.log.accepted[i]);
    }
  }

  lemma {:induction false} LandKeepsInv(p: Pool, k: nat, q: nat)
    requires Inv(p) && k < |p.flying| && q < Threads(p) && Landed(p, k, q).Ok?
    ensures Inv(Landed(p, k, q).p)
  {
    var fl := p.flying[k];
    var p1 := p.(flying := p.flying[..k] + p.flying[k + 1..]);
    assert !p.straddled ==> !p.stop;
    forall w | 0 <= w < Threads(p)
      ensures p.pcs[w].Exited? ==> p.stop
    {
      assert Left(p, w);
    }
    LandKeepsNumbered(p, k, q);
    LandKeepsTargets(p, k, q);
    FlyingApart(p, p1);
    SameItems(p, p1);
    LateApart(p, p1);
    hide Numbered, OnTarget, Accounted, Fifo, AllLeft, LateStays, Pinned, Conserved;
    var at := if fl.target == ANY_WORKER then q else fl.target;
    var item := if fl.target == ANY_WORKER then Item(fl.id, None, p.steal) else Item(fl.id, Some(fl.target), false);
    PushConserves(p1, at, item);
    PushKeepsQueues(p1, at, item);
    PushKeepsLate(p1, at, item);
  }

  /** The flights in the air are nothing to the queues. */
  lemma {:induction false} FlyingApart(p: Pool, p1: Pool)
    requires Sized(p) && Fifo(p) && AllLeft(p) && Pinned(p)
    requires p1.queues == p.queues && p1.held == p.held && p1.pcs == p.pcs && p1.stopped == p.stopped
    requires p1.log.(rejected := p.log.rejected, targets := p.log.targets) == p.log
    ensures Sized(p1) && Fifo(p1) && AllLeft(p1) && Pinned(p1)
  {
    forall w | 0 <= w < Threads(p)
      ensures InOrder(p1, w) && Left(p1, w) && PinnedAt(p1, w)
    {
      assert InOrder(p, w) && Left(p, w) && PinnedAt(p, w);
    }
  }

  // ---------------------------------------------------------------- taking and running

  lemma {:induction false} TakeConserves(p: Pool, w: nat, q: nat)
    requires Sized(p) && w < Threads(p) && q < Threads(p) && p.queues[q] != [] && p.held[w] == [] && Conserved(p)
    ensures Conserved(Taken(p, w, q))
  {
    var item := p.queues[q][0];
    forall x
      ensures Accounted(Taken(p, w, q), x)
    {
      assert Accounted(p, x);
      TallyUpdate(p.queues, q, p.queues[q][1..], TimesOf(x));
      TallyUpdate(p.held, w, [item], TimesOf(x));
      TimesFront(p.queues[q], x);
      TimesPush([], item, x);
      assert [] + [item] == [item];
      hide Times;
    }
  }

  lemma {:induction false} TakeKeepsQueues(p: Pool, w: nat, q: nat)
    requires Sized(p) && w < Threads(p) && q < Threads(p) && p.queues[q] != [] && p.held[w] == [] && !p.pcs[w].Exited?
    requires Fifo(p) && Holding(p) && AllLeft(p) && Pinned(p)
    requires w == q || p.queues[q][0].canSteal
    ensures var p1 := Taken(p, w, q); Fifo(p1) && Holding(p1) && AllLeft(p1) && Pinned(p1)
  {
    var p1 := Taken(p, w, q);
    assert PinnedTo(p.queues[q][0], q) by { assert PinnedAt(p, q); }
    forall v | 0 <= v < Threads(p)
      ensures InOrder(p1, v) && HoldsOne(p1.pcs[v], p1.held[v]) && Left(p1, v) && PinnedAt(p1, v)
    {
      assert InOrder(p, v) && HoldsOne(p.pcs[v], p.held[v]) && Left(p, v) && PinnedAt(p, v);
    }
  }

  lemma {:induction false} TakeKeepsInv(p: Pool, w: nat, q: nat)
    requires Inv(p) && w < Threads(p) && q < Threads(p) && p.queues[q] != [] && (p.pcs[w].Scanning? || p.pcs[w].Waiting?)
    requires w == q || p.queues[q][0].canSteal
    ensures Inv(Taken(p, w, q))
  {
    assert HoldsOne(p.pcs[w], p.held[w]);
    hide Conserved, Fifo, Holding, AllLeft, LateStays, Pinned, Numbered, OnTarget;
    TakeConserves(p, w, q);
    TakeKeepsLate(p, w, q);
    TakeKeepsQueues(p, w, q);
    NumberedApart(p, Taken(p, w, q));
    TargetsApart(p, Taken(p, w, q));
  }

  lemma {:induction false} NumberedApart(p: Pool, p1: Pool)
    requires Numbered(p) && p1.flying == p.flying && p1.log.accepted == p.log.accepted && p1.log.rejected == p.log.rejected
    requires p1.next == p.next
    ensures Numbered(p1)
  {
    forall id
      ensures Known(p1, id)
    {
      assert Known(p, id);
    }
  }

  lemma {:induction false} SameItems(p: Pool, p1: Pool)
    requires Conserved(p) && p1.queues == p.queues && p1.held == p.held
    requires p1.log.executed == p.log.executed && p1.log.accepted == p.log.accepted
    ensures Conserved(p1)
  {
    forall x
      ensures Accounted(p1, x)
    {
      assert Accounted(p, x);
    }
  }

  /** A step that only moves one worker's program counter. */
  lemma {:induction false} MoveKeepsInv(p: Pool, w: nat, pc: WorkerPc)
    requires Inv(p) && w < Threads(p) && (p.pcs[w].Scanning? || p.pcs[w].Waiting?) && !pc.Working?
    requires pc.Exited? ==> p.stopped[w] && p.queues[w] == []
    ensures Inv(p.(pcs := p.pcs[w := pc]))
  {
    var p1 := p.(pcs := p.pcs[w := pc]);
    NumberedApart(p, p1);
    TargetsApart(p, p1);
    SameItems(p, p1);
    LateApart(p, p1);
    hide Numbered, OnTarget, Conserved, LateStays;
    forall v | 0 <= v < Threads(p)
      ensures InOrder(p1, v) && HoldsOne(p1.pcs[v], p1.held[v]) && Left(p1, v) && PinnedAt(p1, v)
    {
      assert InOrder(p, v) && HoldsOne(p.pcs[v], p.held[v]) && Left(p, v) && PinnedAt(p, v);
    }
  }

  lemma {:induction false} RunConserves(p: Pool, w: nat)
    requires Sized(p) && w < Threads(p) && |p.held[w]| == 1 && Conserved(p)
    ensures Conserved(Ran(p, w))
  {
    var p1, item := Ran(p, w), p.held[w][0];
    assert Items(p1.log.executed) == Items(p.log.executed) + [item];
    forall x
      ensures Accounted(p1, x)
    {
      assert Accounted(p, x);
      TallyUpdate(p.held, w, [], TimesOf(x));
      TimesFront(p.held[w], x);
      TimesPush(Items(p.log.executed), item, x);
      hide Times;
    }
  }

  lemma {:induction false} RunKeepsInv(p: Pool, w: nat)
    requires Inv(p) && w < Threads(p) && p.pcs[w].Working? && p.held[w] != []
    ensures Inv(Ran(p, w))
  {
    var p1 := Ran(p, w);
    assert HoldsOne(p.pcs[w], p.held[w]) && PinnedAt(p, w);
    RunConserves(p, w);
    NumberedApart(p, p1);
    TargetsApart(p, p1);
    LateApart(p, p1);
    hide Numbered, OnTarget, Conserved, LateStays;
    forall v | 0 <= v < Threads(p)
      ensures InOrder(p1, v) && HoldsOne(p1.pcs[v], p1.held[v]) && Left(p1, v) && PinnedAt(p1, v)
    {
      assert InOrder(p, v) && HoldsOne(p.pcs[v], p.held[v]) && Left(p, v) && PinnedAt(p, v);
    }
  }

  // ---------------------------------------------------------------- submitting and destroying

  lemma {:induction false} SubmitKeepsInv(p: Pool, target: int)
    requires Inv(p)
    ensures Inv(Submitted(p, target))
  {
    var p1 := Submitted(p, target);
    FlyingApart(p, p1);
    SameItems(p, p1);
    LateApart(p, p1);
    assert Numbered(p1) by { SubmitKeepsNumbered(p, target); }
    assert OnTarget(p1) by { SubmitKeepsTargets(p, target); }
    hide Numbered, OnTarget, Conserved, Fifo, AllLeft, LateStays, Pinned;
  }

  lemma {:induction false} SubmitKeepsTargets(p: Pool, target: int)
    requires OnTarget(p)
    ensures OnTarget(Submitted(p, target))
  {
    var p1 := Submitted(p, target);
    forall i | 0 <= i < |p1.log.accepted|
      ensures Targeted(p1, p1.log.accepted[i])
    {
      assert Targeted(p, p.log.accepted[i]);
    }
  }

  lemma {:induction false} SubmitKeepsNumbered(p: Pool, target: int)
    requires Numbered(p)
    ensures Numbered(Submitted(p, target))
  {
    forall id
      ensures Known(Submitted(p, target), id)
    {
      assert Known(p, id);
      TallyPush(p.log.rejected, p.next, IdOf(id));
      TallyPush(p.flying, Flight(p.next, target), FlightOf(id));
    }
  }

  lemma {:induction false} DestroyKeepsPhases(p: Pool)
    requires Sized(p) && Enabled(p, Destroy) && Phases(p) && NothingLate(p)
    ensures Phases(Destroyed(p)) && NothingLate(Destroyed(p))
    ensures forall w :: 0 <= w < Threads(p) && p.stopped[w] ==> Destroyed(p).stopped[w]
  {
  }

  lemma {:induction false} DestroyKeepsInv(p: Pool)
    requires Inv(p) && Enabled(p, Destroy)
    ensures Inv(Destroyed(p))
  {
    var p1 := Destroyed(p);
    NumberedApart(p, p1);
    TargetsApart(p, p1);
    SameItems(p, p1);
    DestroyKeepsPhases(p);
    assert p1.queues == p.queues && p1.held == p.held && p1.pcs == p.pcs && p1.log == p.log;
    LateApart(p, p1);
    hide Numbered, OnTarget, Conserved, Destroyed, Phases, LateStays;
    forall v | 0 <= v < Threads(p)
      ensures InOrder(p1, v) && HoldsOne(p1.pcs[v], p1.held[v]) && Left(p1, v) && PinnedAt(p1, v)
    {
      assert InOrder(p, v) && HoldsOne(p.pcs[v], p.held[v]) && Left(p, v) && PinnedAt(p, v);
    }
  }

  lemma {:induction false} StepKeepsInv(p: Pool, a: Action)
    requires Inv(p) && Enabled(p, a)
    ensures Next(p, a).Ok? ==> Inv(Next(p, a).p)
    ensures !a.Land? ==> Next(p, a).Ok?
  {
    hide Conserved, Fifo, Holding, AllLeft, LateStays, Pinned, Numbered, OnTarget, Phases, NothingLate, Taken, Landed, Submitted, Destroyed, Ran;
    match a
    case Submit(target) => SubmitKeepsInv(p, target);
    case Land(k, q) => if Landed(p, k, q).Ok? { LandKeepsInv(p, k, q); }
    case Run(w) => RunKeepsInv(p, w);
    case Destroy => DestroyKeepsInv(p);
    case Pop(w) => if p.queues[w] != [] { TakeKeepsInv(p, w, w); } else { MoveKeepsInv(p, w, Exited); }
    case Scan(w, busy) =>
      var n := p.pcs[w].n;
      var q := (w + n) % Threads(p);
      if !p.steal || n >= Threads(p) * 2 {
        MoveKeepsInv(p, w, Waiting);
      } else if !busy && p.queues[q] != [] && p.queues[q][0].canSteal {
        TakeKeepsInv(p, w, q);
      } else {
        MoveKeepsInv(p, w, Scanning(n + 1));
      }
  }
}
