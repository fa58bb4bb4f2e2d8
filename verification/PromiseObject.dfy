/** Promise handles: every copy, move and assignment is accounted for in the counters of the shared state. */
module PromiseObject {
  import opened TryModel
  import opened FutureStateMachine
  import opened FutureStateProofs
  import opened FutureStateObject

  /** A promise handle on `s` was overwritten by a move. */
  function Abandoned(s: State): State
    requires s.hold.promises > 0
  {
    s.(hold := s.hold.(promises := s.hold.promises - 1, abandonedPromises := s.hold.abandonedPromises + 1))
  }

  /** `Future(fs)` attached itself. */
  function WithFuture(s: State): State {
    s.(fs := s.fs.(attached := Wrapped(s.fs.attached)), hold := s.hold.(futures := s.hold.futures + 1))
  }

  /** The machine's move assignment over a promise: the old handle is forgotten, not detached. */
  lemma {:induction false} AbandonIsSound(s: State)
    requires Inv(s) && PromiseUnused(s)
    ensures Inv(Abandoned(s))
  {
    assert Holders(s) <= 255;
    hide Inv, Holders;
    ActorsHoldTheState(s, HandleMoves(AbandonPromise));
    HandlesAreSound(s, AbandonPromise);
    AbandonHolds(s);
  }

  lemma {:induction false} AbandonHolds(s: State)
    requires PromiseUnused(s)
    ensures HandleStep(s, AbandonPromise).Ok? && Holders(HandleStep(s, AbandonPromise).s) == Holders(s)
    ensures HandleStep(s, AbandonPromise).s == Abandoned(s)
  {
  }

  lemma {:induction false} GetFutureIsSound(s: State)
    requires Inv(s) && s.hold.promises > 0 && Holders(s) <= 254
    ensures Inv(WithFuture(s))
  {
    hide Inv, Holders;
    HandleIsSound(s, GetFuture);
  }

  lemma {:induction false} PromiseRefFacts(s: State)
    requires Inv(s)
    ensures s.fs.promiseRef >= s.hold.promises
  {
  }

  lemma {:induction false} ForcedHasExecutor(s: State)
    requires Inv(s)
    ensures s.fs.forced ==> s.fs.executor.Some? || s.fs.phase.Done?
  {
  }

  class Promise {
    var shared_state_: FutureState?
    var has_future_: bool

    /** This handle is one of those its state counts. */
    ghost predicate Live()
      reads this, shared_state_
    {
      shared_state_ != null ==> shared_state_.Valid() && shared_state_.hold.promises > 0
    }

    predicate Valid()
      reads this
    {
      shared_state_ != null
    }

    constructor ()
      ensures fresh(shared_state_) && shared_state_ != null && shared_state_.Abs() == INITIAL && !has_future_
    {
      shared_state_ := new FutureState();
      has_future_ := false;
    }

    /** Copying a moved-from promise would go through a null pointer. */
    constructor Copy(other: Promise)
      requires other.Valid() && other.Live() && Holders(other.shared_state_.Abs()) <= 254
      modifies other.shared_state_
      ensures Valid() && Live() && shared_state_ == other.shared_state_ == old(other.shared_state_) && has_future_ == other.has_future_
      ensures shared_state_.hold == old(other.shared_state_.hold).(promises := old(other.shared_state_.hold.promises) + 1)
      ensures shared_state_.promise_ref_ == old(other.shared_state_.promise_ref_) + 1 && shared_state_.log == old(other.shared_state_.log)
    {
      shared_state_ := other.shared_state_;
      has_future_ := other.has_future_;
      new;
      hide Inv, Holders;
      shared_state_.AttachPromise();
    }

    /** The source is left without a state; nothing is counted. */
    constructor Move(other: Promise)
      modifies other
      ensures shared_state_ == old(other.shared_state_) && has_future_ == old(other.has_future_)
      ensures !other.Valid() && !other.has_future_
    {
      shared_state_ := other.shared_state_;
      has_future_ := other.has_future_;
      new;
      other.shared_state_, other.has_future_ := null, false;
    }

    /** ~Promise. */
    method Destroy()
      requires Valid() ==> PromiseUnused(shared_state_.Abs()) && shared_state_.Valid() && Holders(shared_state_.Abs()) <= ROOM
      modifies shared_state_
      ensures Valid() ==> shared_state_.Valid() && Holders(shared_state_.Abs()) <= 254
      ensures Valid() && old(shared_state_.promise_ref_) == 1 ==> HasResult(shared_state_.state_)
      ensures Valid() && old(shared_state_.promise_ref_) == 1 && old(HasResult(shared_state_.state_)) ==>
        shared_state_.log.stored == old(shared_state_.log.stored) && shared_state_.try_value_ == old(shared_state_.try_value_)
      ensures Valid() && old(shared_state_.promise_ref_) == 1 && !old(HasResult(shared_state_.state_)) ==>
        shared_state_.try_value_ == Exception(BrokenPromise)
      ensures Valid() && old(shared_state_.promise_ref_) > 1 ==>
        shared_state_.hold == old(shared_state_.hold).(promises := old(shared_state_.hold.promises) - 1) &&
        shared_state_.promise_ref_ == old(shared_state_.promise_ref_) - 1
    {
      hide Inv, Holders;
      if shared_state_ != null {
        shared_state_.DetachPromise();
      }
    }

    /** Move assignment drops the old state without detaching from it: the state counts an abandoned promise for ever. */
    method MoveAssign(other: Promise)
      requires other != this && Valid() ==> shared_state_.Valid() && PromiseUnused(shared_state_.Abs())
      modifies this, other, if shared_state_ == null then {} else {shared_state_}
      ensures shared_state_ == old(other.shared_state_) && has_future_ == old(other.has_future_)
      ensures other != this ==> !other.Valid() && !other.has_future_
      ensures other != this && old(Valid()) ==> old(shared_state_).Valid()
      ensures other != this && old(Valid()) ==> old(shared_state_).Abs() == Abandoned(old(shared_state_.Abs()))
      ensures other == this && Valid() ==> shared_state_.Abs() == old(shared_state_.Abs())
    {
      hide Inv, Holders;
      if other != this && shared_state_ != null {
        AbandonIsSound(shared_state_.Abs());
        shared_state_.hold := Abandoned(shared_state_.Abs()).hold;
      }
      var s, f := other.shared_state_, other.has_future_;
      other.shared_state_, other.has_future_ := null, false;
      shared_state_, has_future_ := s, f;
    }

    /** The first future of this handle; a second one, or one of a moved-from promise, is refused with a logic_error. */
    method GetFuture() returns (refused: bool)
      requires Valid() ==> Live() && Holders(shared_state_.Abs()) <= 254
      modifies this`has_future_, if shared_state_ == null then {} else {shared_state_}
      ensures refused <==> !Valid() || old(has_future_)
      ensures Valid() ==> Live() && has_future_
      ensures Valid() ==> shared_state_.Abs() == if refused then old(shared_state_.Abs()) else WithFuture(old(shared_state_.Abs()))
    {
      hide Inv, Holders;
      refused := !Valid() || has_future_;
      if !refused {
        GetFutureIsSound(shared_state_.Abs());
        has_future_ := true;
        shared_state_.AttachOne();
        shared_state_.hold := shared_state_.hold.(futures := shared_state_.hold.futures + 1);
      }
    }

    /** Later scheduling goes back to the context `c` of the current thread; without an executor nothing happens. */
    method Checkout(c: Option<nat>)
      requires Valid() ==> Live() && Holders(shared_state_.Abs()) <= 254
      modifies shared_state_
      ensures Valid() ==> Live() && Ok(shared_state_.Abs()) == HandleStep(old(shared_state_.Abs()), FutureStateMachine.Checkout(c))
      ensures Valid() ==> var was := old(shared_state_.Abs());
        shared_state_.Abs() == was.(fs := was.fs.(context := if was.fs.executor.Some? then c else was.fs.context))
    {
      hide Inv, Holders;
      if shared_state_ != null {
        HandleIsSound(shared_state_.Abs(), FutureStateMachine.Checkout(c));
        if shared_state_.executor_.Some? {
          shared_state_.context_ := c;
        }
      }
    }

    /** Scheduling is forced from now on exactly if there is an executor, or if it was before. */
    method ForceScheduled()
      requires Valid() ==> Live() && Holders(shared_state_.Abs()) <= 254
      modifies shared_state_
      ensures Valid() ==> Live() && Ok(shared_state_.Abs()) == HandleStep(old(shared_state_.Abs()), FutureStateMachine.ForceScheduled(true))
      ensures Valid() ==> var was := old(shared_state_.Abs());
        shared_state_.Abs() == was.(fs := was.fs.(forced := was.fs.forced || was.fs.executor.Some?))
      ensures Valid() && shared_state_.force_scheduled ==> shared_state_.executor_.Some? || shared_state_.state_.Done?
    {
      hide Inv, Holders;
      if shared_state_ != null {
        HandleIsSound(shared_state_.Abs(), FutureStateMachine.ForceScheduled(true));
        if shared_state_.executor_.Some? {
          shared_state_.force_scheduled := true;
        }
        ForcedHasExecutor(shared_state_.Abs());
      }
    }

    /** SetValue and SetException: refused for a moved-from promise or when there is a result already. */
    method SetValue(v: Try<int>) returns (refused: bool)
      requires Valid() ==> Live() && shared_state_.ctl.producer.PIdle? && Holders(shared_state_.Abs()) <= ROOM
      modifies shared_state_
      ensures refused <==> !Valid() || old(HasResult(shared_state_.state_))
      ensures Valid() ==> shared_state_.Valid() && HasResult(shared_state_.state_)
      ensures !refused ==> shared_state_.try_value_ == v && shared_state_.log.stored == [Stored(v, false)]
    {
      hide Inv, Holders;
      if shared_state_ == null { return true; }
      refused := shared_state_.SetResult(v);
    }

    /** Copy assignment: destroy, then copy; assigning a promise to itself does nothing. */
    method Assign(other: Promise)
      requires other.Valid() && other.Live() && Holders(other.shared_state_.Abs()) <= ROOM
      requires Valid() ==> shared_state_.Valid() && PromiseUnused(shared_state_.Abs()) && Holders(shared_state_.Abs()) <= ROOM
      requires other != this && shared_state_ == other.shared_state_ ==> shared_state_.hold.promises > 1
      modifies this, shared_state_, other.shared_state_
      ensures shared_state_ == old(other.shared_state_) && has_future_ == old(other.has_future_)
      ensures Valid() && Live() && other.Live()
      ensures other == this ==> shared_state_.Abs() == old(shared_state_.Abs())
      ensures other != this && old(shared_state_) != old(other.shared_state_) ==>
        shared_state_.hold == old(other.shared_state_.hold).(promises := old(other.shared_state_.hold.promises) + 1)
      ensures other != this && old(shared_state_) == old(other.shared_state_) ==>
        shared_state_.hold.promises == old(shared_state_.hold.promises)
      ensures old(Valid()) && old(shared_state_) != old(other.shared_state_) && old(shared_state_.promise_ref_) == 1 ==>
        HasResult(old(shared_state_).state_)
    {
      hide Inv, Holders;
      if other != this {
        if Valid() { PromiseRefFacts(shared_state_.Abs()); }
        Destroy();
        shared_state_ := other.shared_state_;
        has_future_ := other.has_future_;
        shared_state_.AttachPromise();
      }
    }
  }
}
