/** Future handles, and the local state a ready future carries instead of a shared one. */
module FutureObject {
  import opened TryModel
  import opened FutureStateMachine
  import opened FutureStateProofs
  import opened FutureStateObject
  import opened FutureStateTheorems
  import opened FutureStateLimits
  import opened FutureStateClearing
  import opened PromiseObject

  class LocalState {
    var try_value_: Try<int>
    var executor_: Option<nat>

    constructor (t: Try<int>)
      ensures try_value_ == t && executor_ == None
    {
      try_value_, executor_ := t, None;
    }

    /** Moving a Try leaves its tag behind: a moved-from local state still has a result. */
    constructor Move(other: LocalState)
      modifies other
      ensures try_value_ == old(other.try_value_) && executor_ == old(other.executor_)
      ensures other.try_value_ == old(other.try_value_) && other.executor_ == None
    {
      try_value_, executor_ := other.try_value_, other.executor_;
      new;
      other.executor_ := None;
    }

    predicate HasResult()
      reads this
    {
      try_value_.Available()
    }

    /** Move assignment swaps. */
    method MoveAssign(other: LocalState)
      modifies this, other
      ensures try_value_ == old(other.try_value_) && executor_ == old(other.executor_)
      ensures other.try_value_ == old(try_value_) && other.executor_ == old(executor_)
    {
      if this != other {
        try_value_, other.try_value_ := other.try_value_, try_value_;
        executor_, other.executor_ := other.executor_, executor_;
      }
    }

    method SetExecutor(e: Option<nat>)
      modifies this`executor_
      ensures executor_ == e
    {
      executor_ := e;
    }

    /** The continuation runs at once. */
    method SetContinuation<R>(f: Try<int> -> R) returns (r: R)
      requires HasResult()
      ensures r == f(try_value_)
    {
      r := f(try_value_);
    }
  }

  /** A future handle on `s` was overwritten by a move. */
  function AbandonedFuture(s: State): State
    requires s.hold.futures > 0
  {
    s.(hold := s.hold.(futures := s.hold.futures - 1, abandonedFutures := s.hold.abandonedFutures + 1))
  }

  lemma {:induction false} AbandonFutureIsSound(s: State)
    requires Inv(s) && FutureUnused(s)
    ensures Inv(AbandonedFuture(s))
  {
    assert Holders(s) <= 255;
    hide Inv, Holders;
    ActorsHoldTheState(s, HandleMoves(AbandonFuture));
    HandlesAreSound(s, AbandonFuture);
    AbandonFutureHolds(s);
  }

  lemma {:induction false} AbandonFutureHolds(s: State)
    requires FutureUnused(s)
    ensures HandleStep(s, AbandonFuture).Ok? && Holders(HandleStep(s, AbandonFuture).s) == Holders(s)
    ensures HandleStep(s, AbandonFuture).s == AbandonedFuture(s)
  {
  }

  lemma {:induction false} FutureAttached(s: State)
    requires Inv(s) && s.hold.futures > 0
    ensures s.fs.attached > 0
  {
  }

  lemma {:induction false} ClearExecutorIsSound(s: State)
    requires Inv(s) && FutureUnused(s) && MayBeNull(s.fs, At(s.ctl))
    ensures Inv(Cleared(s))
  {
    hide Inv, Holders, MayBeNull;
    HoldersBounded(s);
    ClearedHolders(s);
    ActorsHoldTheState(s, HandleMoves(SetExecutor(None)));
    HandlesAreSound(s, SetExecutor(None));
  }

  /** The continuation is called with the result that was stored. */
  lemma {:induction false} CalledWithResult(s: State)
    requires Inv(s) && s.log.invoked != []
    ensures s.log.stored != [] && s.log.invoked == [s.log.stored[0].v]
  {
  }

  /** What SetExecutor(nullptr) makes of a state: nothing bad where the executor may be null; a state that never calls if
      scheduling is forced and not over; otherwise one where a thread is about to call through the null pointer. */
  ghost predicate ClearedFrom(s: State, s1: State) {
    if MayBeNull(s.fs, At(s.ctl)) then Inv(s1) && Holders(s1) == Holders(s)
    else if s.fs.forced && !s.fs.phase.Done? then Hopeless(s1)
    else NullAhead(s1)
  }

  lemma {:induction false} ClearingMakes(s: State)
    requires Inv(s) && FutureUnused(s)
    ensures ClearedFrom(s, Cleared(s))
  {
    hide Inv, Holders, Hopeless, NullAhead, MayBeNull;
    ClearedHolders(s);
    if MayBeNull(s.fs, At(s.ctl)) {
      ClearExecutorIsSound(s);
    } else if s.fs.forced && !s.fs.phase.Done? {
      ClearingIsHopeless(s);
    } else {
      ClearingExactly(s);
    }
  }

  /** A state without a continuation is not done, and no thread is scheduling it. */
  lemma {:induction false} NotScheduledYet(s: State)
    requires Inv(s) && s.ctl.consumer.CIdle? && !HasContinuation(s.fs.phase)
    ensures MayBeNull(s.fs, At(s.ctl)) <==> !s.fs.forced
  {
    hide Schedule, PromisesCounted, Counters, ExecutorKnown;
  }

  /** A step of somebody who neither uses nor destroys our future handle. */
  predicate LeavesFuture(s: State, a: Action) {
    !a.BeginSetContinuation? && !a.ConsumerMoves? && !(a.HandleMoves? && a.h.SetExecutor?) &&
    (a == HandleMoves(DropFuture) || a == HandleMoves(AbandonFuture) ==> s.hold.futures > 1)
  }

  lemma {:induction false} SchedLeavesFuture(s: State, choice: bool)
    requires s.ctl.producer.PSched? && SchedMove(s, Producer, s.ctl.producer.at, choice).Ok?
    ensures var s1 := SchedMove(s, Producer, s.ctl.producer.at, choice).s;
      s1.hold.futures == s.hold.futures && s1.ctl.consumer == s.ctl.consumer
  {
  }

  lemma {:induction false} HandlesLeaveFuture(s: State, h: HandleAction)
    requires HandleMay(s, h) && HandleStep(s, h).Ok? && s.hold.futures > 0
    requires h == DropFuture || h == AbandonFuture ==> s.hold.futures > 1
    ensures HandleStep(s, h).s.hold.futures > 0 && HandleStep(s, h).s.ctl.consumer == s.ctl.consumer
  {
  }

  lemma {:induction false} FutureLeft(s: State, a: Action)
    requires Enabled(s, a) && LeavesFuture(s, a) && Next(s, a).Ok? && s.hold.futures > 0
    ensures Next(s, a).s.hold.futures > 0 && Next(s, a).s.ctl.consumer == s.ctl.consumer
  {
    hide SchedMove, HandleStep;
    if a.ProducerMoves? && s.ctl.producer.PSched? { SchedLeavesFuture(s, a.choice); }
    if a.HandleMoves? { HandlesLeaveFuture(s, a.h); }
  }

  /** Only our handle installs a continuation or changes the executor, and a result stays. */
  predicate OursStays(s: State, s1: State) {
    && (HasContinuation(s1.fs.phase) <==> HasContinuation(s.fs.phase)) && s1.fs.executor == s.fs.executor
    && (HasResult(s.fs.phase) ==> HasResult(s1.fs.phase))
  }

  lemma {:induction false} SchedLeavesOurs(s: State, choice: bool)
    requires s.ctl.producer.PSched? && SchedMove(s, Producer, s.ctl.producer.at, choice).Ok?
    ensures OursStays(s, SchedMove(s, Producer, s.ctl.producer.at, choice).s)
  {
  }

  lemma {:induction false} ResultLeavesOurs(s: State)
    requires ResultStep(s).Ok? && (s.ctl.producer.PCas2? ==> s.ctl.producer.seen.OnlyContinuation?)
    ensures OursStays(s, ResultStep(s).s)
  {
  }

  lemma {:induction false} ExecutorLeavesOurs(s: State, x: ExecutorAction)
    requires ExecutorMay(s.exec, x) && ExecutorStep(s, x).Ok?
    ensures OursStays(s, ExecutorStep(s, x).s)
  {
  }

  lemma {:induction false} HandlesLeaveOurs(s: State, h: HandleAction)
    requires HandleMay(s, h) && !h.SetExecutor? && HandleStep(s, h).Ok?
    ensures OursStays(s, HandleStep(s, h).s)
  {
  }

  lemma {:induction false} SeenContinuation(s: State)
    requires Inv(s) && s.ctl.producer.PCas2?
    ensures s.ctl.producer.seen.OnlyContinuation?
  {
    hide Schedule, PromisesCounted, Counters, ExecutorKnown;
  }

  lemma {:induction false} OthersLeaveOurs(s: State, a: Action)
    requires Inv(s) && Enabled(s, a) && LeavesFuture(s, a) && Next(s, a).Ok?
    ensures OursStays(s, Next(s, a).s)
  {
    hide Inv, SchedMove, ResultStep, HandleStep, ExecutorStep;
    match a
    case ProducerMoves(choice) =>
      if s.ctl.producer.PSched? {
        SchedLeavesOurs(s, choice);
      } else {
        if s.ctl.producer.PCas2? { SeenContinuation(s); }
        ResultLeavesOurs(s);
      }
    case ExecutorMoves(x) => ExecutorLeavesOurs(s, x);
    case HandleMoves(h) => HandlesLeaveOurs(s, h);
    case _ =>
  }

  /** How Wait ends: `Broken` and `SecondContinuation` are its two logic_errors, `Deadlocks` its failing assertion. It never
      returns when it is `Blocked`, at least until somebody sets a result, or when the call it waits for is `NeverCalled`. */
  datatype Outcome = Returned | Blocked | Broken | Deadlocks | SecondContinuation | NeverCalled

  class Future {
    var shared_state_: FutureState?
    const local_state_: LocalState

    /** This handle is one of those its state counts. */
    ghost predicate Live()
      reads this, shared_state_
    {
      shared_state_ != null ==> shared_state_.Valid() && shared_state_.hold.futures > 0
    }

    predicate Valid()
      reads this, local_state_
    {
      shared_state_ != null || local_state_.HasResult()
    }

    /** What Promise::GetFuture returns, attached already. */
    constructor Of(fs: FutureState)
      requires fs.Valid() && fs.hold.futures > 0
      ensures shared_state_ == fs && Live() && Valid() && fresh(local_state_) && !local_state_.HasResult()
    {
      shared_state_ := fs;
      local_state_ := new LocalState(Nothing);
    }

    /** MakeReadyFuture. */
    constructor Ready(t: Try<int>)
      ensures shared_state_ == null && fresh(local_state_) && local_state_.try_value_ == t && (Valid() <==> t.Available())
    {
      shared_state_ := null;
      local_state_ := new LocalState(t);
    }

    /** A moved-from future is invalid if it was pending, and stays valid if it was ready. */
    constructor Move(other: Future)
      modifies other, other.local_state_
      ensures shared_state_ == old(other.shared_state_) && other.shared_state_ == null && fresh(local_state_)
      ensures local_state_.try_value_ == old(other.local_state_.try_value_)
      ensures other.Valid() <==> old(other.local_state_.HasResult())
    {
      shared_state_ := other.shared_state_;
      local_state_ := new LocalState.Move(other.local_state_);
      new;
      other.shared_state_ := null;
    }

    /** ~Future. */
    method Destroy()
      requires shared_state_ != null ==> shared_state_.Valid() && FutureUnused(shared_state_.Abs()) && Holders(shared_state_.Abs()) <= 254
      modifies shared_state_
      ensures shared_state_ != null ==>
        shared_state_.Valid() && Ok(shared_state_.Abs()) == HandleStep(old(shared_state_.Abs()), DropFuture)
    {
      hide Inv, Holders;
      if shared_state_ != null {
        HandleIsSound(shared_state_.Abs(), DropFuture);
        FutureAttached(shared_state_.Abs());
        shared_state_.hold := shared_state_.hold.(futures := shared_state_.hold.futures - 1);
        shared_state_.DetachOne();
      }
    }

    /** Move assignment drops the old shared state without detaching from it. */
    method MoveAssign(other: Future)
      requires other != this && shared_state_ != null ==> shared_state_.Valid() && FutureUnused(shared_state_.Abs())
      requires other != this ==> local_state_ != other.local_state_
      modifies this, other, local_state_, other.local_state_, if shared_state_ == null then {} else {shared_state_}
      ensures other != this ==> shared_state_ == old(other.shared_state_) && other.shared_state_ == null
      ensures other != this ==>
        local_state_.try_value_ == old(other.local_state_.try_value_) && other.local_state_.try_value_ == old(local_state_.try_value_)
      ensures other != this && old(shared_state_) != null ==>
        old(shared_state_).Valid() && old(shared_state_).Abs() == AbandonedFuture(old(shared_state_.Abs()))
      ensures other == this ==> shared_state_ == old(shared_state_) && local_state_.try_value_ == old(local_state_.try_value_)
    {
      hide Inv, Holders;
      if other != this {
        if shared_state_ != null {
          AbandonFutureIsSound(shared_state_.Abs());
          shared_state_.hold := AbandonedFuture(shared_state_.Abs()).hold;
        }
        var s := other.shared_state_;
        other.shared_state_ := null;
        shared_state_ := s;
        local_state_.MoveAssign(other.local_state_);
      }
    }

    /** With neither a shared state nor a local result this would go through a null pointer. */
    predicate HasResult()
      requires Valid()
      reads this, local_state_, shared_state_
    {
      local_state_.HasResult() || FutureStateMachine.HasResult(shared_state_.state_)
    }

    /** Null is accepted as well, whatever anybody is doing with the state. */
    method SetExecutor(e: Option<nat>)
      requires shared_state_ != null ==> Live() && FutureUnused(shared_state_.Abs()) && Holders(shared_state_.Abs()) <= 254
      modifies shared_state_, local_state_
      ensures shared_state_ != null ==>
        shared_state_.Abs() == old(shared_state_.Abs()).(fs := old(shared_state_.Abs()).fs.(executor := e))
      ensures shared_state_ != null ==> if e.Some? then Live() else ClearedFrom(old(shared_state_.Abs()), shared_state_.Abs())
      ensures shared_state_ == null ==> local_state_.executor_ == e && local_state_.try_value_ == old(local_state_.try_value_)
    {
      hide Inv, Holders, ClearedFrom;
      if shared_state_ != null {
        if e.Some? {
          HandleIsSound(shared_state_.Abs(), FutureStateMachine.SetExecutor(e));
        } else {
          ClearingMakes(shared_state_.Abs());
        }
        shared_state_.executor_ := e;
      } else {
        local_state_.SetExecutor(e);
      }
    }

    /** A pending future keeps continuation `k`, unless it has one already; a ready one applies it, here `f`, at once. */
    method SetContinuation<R>(k: nat, f: Try<int> -> R) returns (refused: bool, r: Option<R>)
      requires Valid()
      requires shared_state_ != null ==> Live() && shared_state_.ctl.consumer.CIdle? && Holders(shared_state_.Abs()) <= ROOM
      modifies shared_state_
      ensures shared_state_ != null ==> Live() && HasContinuation(shared_state_.state_) && r.None?
      ensures refused <==> shared_state_ != null && old(HasContinuation(shared_state_.state_))
      ensures shared_state_ != null && !refused ==> shared_state_.log.installed == [k]
      ensures shared_state_ == null ==> !refused && r == Some(f(local_state_.try_value_))
    {
      hide Inv, Holders;
      refused, r := false, None;
      if shared_state_ != null {
        refused := shared_state_.SetContinuation(k);
      } else {
        var v := local_state_.SetContinuation(f);
        r := Some(v);
      }
    }

    /** Everybody else moves, while this handle waits. */
    method OthersMove(room: nat)
      requires shared_state_ != null && Live() && shared_state_.ctl.consumer.CIdle? && Holders(shared_state_.Abs()) <= room <= 254
      modifies shared_state_
      ensures Live() && shared_state_.ctl.consumer.CIdle? && Holders(shared_state_.Abs()) <= room
      ensures OursStays(old(shared_state_.Abs()), shared_state_.Abs())
    {
      hide Inv, Holders;
      var n: nat := *;
      while n > 0
        invariant Live() && shared_state_.ctl.consumer.CIdle? && Holders(shared_state_.Abs()) <= room
        invariant OursStays(old(shared_state_.Abs()), shared_state_.Abs())
      {
        n := n - 1;
        var a: Action := *;
        var s := shared_state_.Abs();
        if Enabled(s, a) && Careful(s, a) && LeavesFuture(s, a) {
          StepKeepsInv(s, a);
          var next := Next(s, a).s;
          if Holders(next) <= room {
            FutureLeft(s, a);
            OthersLeaveOurs(s, a);
            shared_state_.Become(next);
          }
        }
      }
    }

    /** SetExecutor(nullptr), SetContinuation, and the semaphore. A second continuation is refused after the executor is
        gone, which may have left a producer with a null pointer; under forced scheduling the continuation will never be
        called; otherwise it has been called with the result, or we are still waiting for it. */
    method AwaitCall(k: nat) returns (o: Outcome)
      requires shared_state_ != null && Live() && shared_state_.ctl.consumer.CIdle? && Holders(shared_state_.Abs()) <= ROOM
      modifies shared_state_, local_state_
      ensures o.Returned? || o.Blocked? || o.SecondContinuation? || o.NeverCalled?
      ensures o.NeverCalled? <==> old(shared_state_.force_scheduled) && !old(HasContinuation(shared_state_.state_))
      ensures o.SecondContinuation? <==> old(HasContinuation(shared_state_.state_))
      ensures o.NeverCalled? ==> Hopeless(shared_state_.Abs())
      ensures o.SecondContinuation? ==> Live() || Hopeless(shared_state_.Abs()) || NullAhead(shared_state_.Abs())
      ensures !old(MayBeNull(shared_state_.Abs().fs, At(shared_state_.ctl))) ==>
        ClearedFrom(old(shared_state_.Abs()), shared_state_.Abs())
      ensures o.Returned? || o.Blocked? ==> Live() && shared_state_.ctl.consumer.CIdle?
      ensures o.Blocked? ==> shared_state_.log.invoked == []
      ensures o.Returned? ==> shared_state_.log.stored != [] && shared_state_.log.invoked == [shared_state_.log.stored[0].v]
    {
      ghost var s := shared_state_.Abs();
      var forced, second := shared_state_.force_scheduled, HasContinuation(shared_state_.state_);
      if !second { NotScheduledYet(s); }
      hide Inv, Holders, Hopeless, NullAhead, MayBeNull;
      SetExecutor(None);
      if second {  // refused by SetContinuation's test
        return SecondContinuation;
      }
      if forced {
        return NeverCalled;
      }
      var refused := shared_state_.SetContinuation(k);
      OthersMove(254);
      if |shared_state_.log.invoked| == 0 {
        return Blocked;
      }
      CalledWithResult(shared_state_.Abs());
      return Returned;
    }

    /** Wait on a pending future: the result is moved, through a new promise, into a new shared state, which this handle then
        refers to; the old state `fs` keeps an abandoned handle. */
    method WaitPending(fs: FutureState, k: nat) returns (o: Outcome)
      requires shared_state_ == fs && Live() && fs.ctl.consumer.CIdle? && Holders(fs.Abs()) <= ROOM
      modifies this, fs, local_state_
      ensures o.Returned? || o.Blocked? || o.SecondContinuation? || o.NeverCalled?
      ensures o.NeverCalled? <==> old(fs.force_scheduled) && !old(HasContinuation(fs.state_))
      ensures o.SecondContinuation? <==> old(HasContinuation(fs.state_))
      ensures o.NeverCalled? ==> Hopeless(fs.Abs())
      ensures o.SecondContinuation? ==> fs.Valid() || Hopeless(fs.Abs()) || NullAhead(fs.Abs())
      ensures o.Blocked? ==> Live() && fs.log.invoked == []
      ensures !o.Returned? ==> shared_state_ == fs
      ensures o.Returned? ==>
        shared_state_ != null && fresh(shared_state_) && FutureStateMachine.HasResult(shared_state_.state_) &&
        fs.log.stored != [] && fs.log.invoked == [fs.log.stored[0].v] && shared_state_.try_value_ == fs.log.stored[0].v
      ensures o.Returned? ==> fs.Valid() && fs.hold.abandonedFutures > 0
    {
      hide Inv, Holders, Hopeless, NullAhead, ClearedFrom, MayBeNull;
      o := AwaitCall(k);
      if !o.Returned? { return; }
      var future := ResolvedBy(fs.log.invoked[0]);
      MoveAssign(future);
    }

    /** Wait, on the thread that `inExecutor` says is one of the executor's. Results may arrive, and producers schedule, while it
        makes its tests. */
    method Wait(k: nat, inExecutor: bool) returns (o: Outcome)
      requires Valid() && !HasResult() ==>
        Live() && shared_state_.ctl.consumer.CIdle? && Holders(shared_state_.Abs()) <= ROOM
      modifies this, shared_state_, local_state_
      ensures o.Broken? <==> !old(Valid())
      ensures o.Deadlocks? <==> old(Valid()) && !old(HasResult()) && old(shared_state_.executor_).Some? && inExecutor
      ensures o.Returned? ==> Valid() && HasResult()
      ensures old(Valid()) && old(HasResult()) ==> o.Returned? && shared_state_ == old(shared_state_)
      ensures o.SecondContinuation? <==>
        old(Valid()) && !old(HasResult()) && !o.Deadlocks? && old(HasContinuation(shared_state_.state_))
      ensures o.SecondContinuation? || o.NeverCalled? || o.Blocked? ==> old(Valid()) && !old(HasResult()) && shared_state_ == old(shared_state_)
      ensures o.Blocked? ==> Live() && shared_state_.log.invoked == []
      ensures o.Returned? && old(HasResult()) ==> local_state_.try_value_ == old(local_state_.try_value_)
      ensures o.Returned? && !old(HasResult()) ==>
        shared_state_ != null && old(shared_state_).log.stored != [] &&
        old(shared_state_).log.invoked == [old(shared_state_).log.stored[0].v] == [shared_state_.try_value_]
      ensures o.NeverCalled? ==> Hopeless(shared_state_.Abs())
      ensures o.SecondContinuation? ==> shared_state_.Valid() || Hopeless(shared_state_.Abs()) || NullAhead(shared_state_.Abs())
    {
      if !Valid() { return Broken; }
      if HasResult() { return Returned; }
      hide Inv, Holders, Hopeless, NullAhead;
      OthersMove(ROOM);
      if shared_state_.executor_.Some? && inExecutor { return Deadlocks; }
      OthersMove(ROOM);
      o := WaitPending(shared_state_, k);
    }
  }

  /** The promise and the future that Wait makes, and SetValue on them: nobody else knows their state. */
  method ResolvedBy(t: Try<int>) returns (future: Future)
    ensures fresh(future) && fresh(future.local_state_) && fresh(future.shared_state_) && future.shared_state_ != null
    ensures future.Live() && future.shared_state_.try_value_ == t && FutureStateMachine.HasResult(future.shared_state_.state_)
    ensures !future.local_state_.HasResult()
  {
    var promise := new Promise();
    InitialHolders();
    hide Inv, Holders;
    var second := promise.GetFuture();
    MoreHolders(INITIAL);
    var fs := promise.shared_state_;
    future := new Future.Of(fs);
    SetUnobserved(fs, t);
  }

  /** SetResult on a state that nobody else uses. */
  method SetUnobserved(fs: FutureState, t: Try<int>)
    requires fs.Valid() && fs.ctl.producer.PIdle? && fs.hold.promises > 0 && Holders(fs.Abs()) <= 254 && fs.state_ == Start
    modifies fs
    ensures fs.Valid() && fs.state_ == OnlyResult && fs.try_value_ == t && fs.hold == old(fs.hold)
  {
    hide Inv, Holders;
    fs.EnterSetResult(t);
    var refused := fs.CheckNoResult(t);
    fs.WriteResult(t);
    var state := fs.LoadInSetResult();
    var ok;
    ok, state := fs.ExchangeForOnlyResult();
  }

  lemma {:induction false} InitialHolders()
    ensures Inv(INITIAL) && Holders(INITIAL) == 1 && INITIAL.hold.promises == 1
  {
    InitialProtocol();
    InitialCounters();
    hide Protocol, PromisesCounted;
  }

  lemma {:induction false} MoreHolders(s: State)
    ensures Holders(WithFuture(s)) == Holders(s) + 1
  {
  }

  lemma {:induction false} ClearedHolders(s: State)
    ensures Holders(s.(fs := s.fs.(executor := None))) == Holders(s)
  {
  }
}
