/** The coroutine machine as the library runs it: promises and via coroutines are objects, updated in place through the handles
    that refer to them. Every method of `Coroutines` is one function of the library, proved to take the machine's step;
    `Start` drives a whole task to its end. */
module CoroutineRuntime {
  import opened TryModel
  import opened CoroutineCode
  import opened CoroutineMachine
  import opened CoroutineHandles
  import opened CoroutineProofs
  import opened CoroutineOwnership
  import opened CoroutineAffinity
  import opened CoroutineMeaning
  import opened CoroutineTheorems

  /** LazyPromise, with the frame around it. */
  class LazyPromise {
    var executor_: ExecutorPtr
    var continuation_: Handle
    var body: Body
    var vars: seq<Local>
    var awaiter: Awaiter
    var status: Status
    var strand: nat
    var holder: nat
    var index: nat
    var taken: bool
    var resched: bool
    var destroyed: nat

    function Abs(): Frame
      reads this
    {
      Frame(executor_, continuation_, body, vars, awaiter, status, strand, holder, index, taken, resched, destroyed)
    }

    /** Suspended at its initial suspend point, in the hands of variable `index` of frame `holder`. */
    constructor (code: Code, env: seq<int>, strand: nat, holder: nat, index: nat)
      ensures Abs() == Frame(None, NoHandle, Fresh(code, env), [], NoAwait, Created, strand, holder, index, false, false, 0)
    {
      executor_, continuation_, body, vars, awaiter := None, NoHandle, Fresh(code, env), [], NoAwait;
      status, this.strand, this.holder, this.index := Created, strand, holder, index;
      taken, resched, destroyed := false, false, 0;
    }

    /** The root, in the hands of the detached coroutine of Start. */
    constructor Root(code: Code, entry: Entry)
      ensures Abs() == RootFrame(code, entry)
    {
      executor_, continuation_, body, vars, awaiter := None, RootH, Fresh(code, []), [], NoAwait;
      status, strand, holder, index := Running, 0, 0, 0;
      taken, resched, destroyed := true, false, 0;
      if entry.AsReschedule? {
        executor_, status, resched := entry.ex, Suspended, true;
      }
    }

    /** `auto x = f()`: a variable for the new coroutine. */
    method Declare(v: Local)
      requires body.code.Make?
      modifies this
      ensures Abs() == old(Abs()).(body := Declared(old(body)), vars := old(vars) + [v])
    {
      vars := vars + [v];
      body := Declared(body);
    }

    /** `auto x = std::move(x_i)`, with or without Via: coro_ is exchanged for null. */
    method DeclareMoved(i: nat, v: Local)
      requires (body.code.Move? || body.code.Via?) && i < |vars|
      modifies this
      ensures Abs() == old(Abs()).(body := Declared(old(body)), vars := Gone(old(vars), i) + [v])
    {
      vars := vars[i := vars[i].(coro := None)];
      vars := vars + [v];
      body := Declared(body);
    }

    /** A variable of frame f is its handle from now on. */
    method HandTo(f: nat, n: nat, reschedule: bool)
      modifies this
      ensures Abs() == old(Abs()).(holder := f, index := n, resched := reschedule)
    {
      holder, index, resched := f, n, reschedule;
    }

    method SetExecutor(ex: ExecutorPtr)
      modifies this
      ensures Abs() == old(Abs()).(executor := ex)
    {
      executor_ := ex;
    }

    method Throw(e: Exn)
      modifies this
      ensures Abs() == old(Abs()).(body := Raise(old(body), e))
    {
      body := Raise(body, e);
    }

    method ForgetLast() returns (v: Local)
      requires vars != []
      modifies this
      ensures Abs() == old(Abs()).(vars := Pop(old(vars))) && v == old(vars)[|old(vars)| - 1]
    {
      v := vars[|vars| - 1];
      vars := Pop(vars);
    }

    /** The awaiter takes the handle out of variable i, and the coroutine suspends. */
    method SuspendOn(i: nat, a: Awaiter)
      requires body.code.Await? && i < |vars|
      modifies this
      ensures Abs() == Parent(old(Abs()), i, a)
    {
      vars := vars[i := vars[i].(coro := None)];
      body := body.(code := body.code.next);
      awaiter := a;
      status := Suspended;
    }

    /** Any other awaiter. */
    method Await(a: Awaiter, suspend: bool)
      requires body.code.Await?
      modifies this
      ensures Abs() == Advanced(old(Abs())).(awaiter := a, status := if suspend then Suspended else old(status))
    {
      body := body.(code := body.code.next);
      awaiter := a;
      if suspend {
        status := Suspended;
      }
    }

    /** Lazy::CoAwait, AwaiterBase::await_suspend and the symmetric transfer. */
    method EnterFrom(f: nat, ex: ExecutorPtr, s: nat)
      modifies this
      ensures Abs() == old(Abs()).(executor := ex, continuation := LazyH(f), status := Running, strand := s, taken := true)
    {
      executor_ := ex;
      continuation_ := LazyH(f);
      strand, taken := s, true;
      status := Running;
    }

    /** The continuation is the via coroutine v. */
    method EnterVia(v: nat, now: bool)
      modifies this
      ensures Abs() == old(Abs()).(continuation := ViaH(v), status := if now then Running else Suspended, taken := true)
    {
      continuation_ := ViaH(v);
      taken := true;
      status := if now then Running else Suspended;
    }

    method SetStatus(s: Status)
      modifies this
      ensures Abs() == old(Abs()).(status := s)
    {
      status := s;
    }

    method Bind(asTry: bool, r: Try<int>)
      modifies this
      ensures Abs() == old(Abs()).(body := Deliver(old(body), asTry, r), awaiter := NoAwait)
    {
      body := Deliver(body, asTry, r);
      awaiter := NoAwait;
    }

    method SetBody(b: Body)
      modifies this
      ensures Abs() == old(Abs()).(body := b)
    {
      body := b;
    }

    method Destroy()
      requires status.AtFinal? || status.Created?
      modifies this
      ensures Abs() == old(Abs()).(status := Destroyed, destroyed := old(destroyed) + 1)
    {
      status := Destroyed;
      destroyed := destroyed + 1;
    }
  }

  /** ViaCoroutine::promise_type. */
  class ViaPromise {
    var executor: ExecutorPtr
    var context: Option<nat>
    var continuation: Handle
    var status: Status
    const owner: nat
    var destroyed: nat

    function Abs(): ViaFrame
      reads this
    {
      ViaFrame(executor, context, continuation, status, owner, destroyed)
    }

    /** ViaCoroutine::Create. */
    constructor (ex: ExecutorPtr, owner: nat)
      ensures Abs() == ViaFrame(ex, None, NoHandle, Suspended, owner, 0)
    {
      executor, context, continuation, status, this.owner, destroyed := ex, None, NoHandle, Suspended, owner, 0;
    }

    /** Checkout on worker i, if there is an executor, and the continuation. */
    method WrapContinuation(i: nat, f: nat)
      modifies this
      ensures Abs() == old(Abs()).(context := if old(executor).Some? then Some(i) else old(context), continuation := LazyH(f))
    {
      if executor.Some? {
        context := Some(i);
      }
      continuation := LazyH(f);
    }

    method Finish()
      modifies this
      ensures Abs() == old(Abs()).(status := AtFinal)
    {
      status := AtFinal;
    }

    method Destroy()
      requires !status.Destroyed? && !status.Running?
      modifies this
      ensures Abs() == old(Abs()).(status := Destroyed, destroyed := old(destroyed) + 1)
    {
      status := Destroyed;
      destroyed := destroyed + 1;
    }
  }

  /** The parts of a wrapped await that follow GetWrappedContinuation. */
  function SuspendPart(t: Task, f: nat, i: nat, c: nat, v: nat, asTry: bool, now: bool): Task
    requires f < |t.frames| && c < |t.frames| && t.frames[f].body.code.Await? && i < |t.frames[f].vars|
  {
    t.(frames := t.frames[f := Parent(t.frames[f], i, ForChildVia(c, v, asTry))]
                         [c := t.frames[c].(continuation := ViaH(v), status := if now then Running else Suspended, taken := true)],
       stack := t.stack + [c])
  }

  function WithVia(t: Task, f: nat, via: ViaFrame): (t1: Task)
    requires f < |t.frames|
    ensures t1.frames == t.frames
  {
    t.(vias := t.vias + [via], checkouts := t.checkouts + Checkouts(t, f))
  }

  lemma {:induction false} AwaitsInParts(t: Task, f: nat, th: Thread, i: nat, c: nat, via: ViaFrame, asTry: bool)
    requires f < c < |t.frames| && t.frames[f].body.code.Await? && i < |t.frames[f].vars|
    ensures Rescheduled(t, f, i, c, via, asTry) == SuspendPart(WithVia(t, f, via), f, i, c, |t.vias|, asTry, false)
    ensures AwaitTry(t, f, th, i, c, via) ==
      SuspendPart(WithVia(t, f, via), f, i, c, |t.vias|, true, true).(
        ctl := Exec(c, th), trace := t.trace + [Resumed(c, t.frames[c].strand, t.frames[c].executor, th)])
    ensures SuspendPart(WithVia(t, f, via), f, i, c, |t.vias|, asTry, false).frames[c].executor == t.frames[c].executor
  {
  }

  lemma {:induction false} DeclinedInParts(t: Task, f: nat, th: Thread, r: Try<int>)
    requires f < |t.frames| && t.frames[f].body.code.Await? && Wrap(t, f, th).Some?
    ensures AwaitForeign(t, f, th, r, Declined) == Ok(
              WithFrame(WithVia(t, f, Wrap(t, f, th).value), f,
                        Advanced(t.frames[f]).(awaiter := ForForeign(|t.vias|, r), status := t.frames[f].status)).(
                ctl := Resuming(f, th), checkins := t.checkins + Checkouts(t, f)))
    ensures var t1 := WithFrame(WithVia(t, f, Wrap(t, f, th).value), f,
                                Advanced(t.frames[f]).(awaiter := ForForeign(|t.vias|, r), status := t.frames[f].status));
      Checkouts(t1, f) == Checkouts(t, f) && t1.checkins == t.checkins
  {
  }

  lemma {:induction false} DeferredInParts(t: Task, f: nat, th: Thread, r: Try<int>)
    requires f < |t.frames| && t.frames[f].body.code.Await? && Wrap(t, f, th).Some?
    ensures AwaitForeign(t, f, th, r, Deferred) == Ok(
              WithFrame(WithVia(t, f, Wrap(t, f, th).value), f, Advanced(t.frames[f]).(awaiter := ForForeign(|t.vias|, r), status := Suspended)).(
                ctl := Waiting(|t.vias|)))
  {
  }

  lemma {:induction false} ChildInParts(t: Task, f: nat, th: Thread, i: nat, c: nat)
    requires f < c < |t.frames| && t.frames[f].body.code.Await? && i < |t.frames[f].vars|
    ensures var ex, s := t.frames[f].executor, t.frames[f].strand;
      AwaitChild(t, f, th, i, c) ==
      t.(frames := t.frames[f := Parent(t.frames[f], i, ForChild(c))]
                           [c := t.frames[c].(executor := ex, continuation := LazyH(f), status := Running, strand := s, taken := true)],
         ctl := Exec(c, th), stack := t.stack + [c], trace := t.trace + [Resumed(c, s, ex, th)])
  {
  }

  lemma {:induction false} ViaInParts(t: Task, v: nat, th: Thread, accepted: bool)
    requires v < |t.vias| && ViaStep(t, v, th, accepted).Ok?
    ensures t.vias[v].continuation.LazyH? && (t.vias[v].executor.Some? ==> t.vias[v].context.Some?)
    ensures var via, t1 := t.vias[v], t.(vias := t.vias[v := t.vias[v].(status := AtFinal)]);
      ViaStep(t, v, th, accepted) ==
      if via.executor.None? then Resume(t1, via.continuation.f, th)
      else if th == Worker(via.executor.value, via.context.value) then Resume(t1.(checkins := t.checkins + 1), via.continuation.f, th)
      else Ok(Enqueued(t1.(checkins := t.checkins + 1), via.continuation.f, via.executor.value, via.context, accepted))
  {
  }

  lemma {:induction false} SuspendsFinally(t: Task, f: nat, th: Thread)
    requires Inv(t) && t.ctl == Exec(f, th) && f < |t.frames| && t.frames[f].body.result.Available()
    ensures t.stack != [] && FinalSuspend(t, f, th).Ok?
  {
    hide HandlesOk, Owned, Balanced, Homely;
    FinalSuspendNears(t, f, th);
  }

  /** Outside bodies nothing fails, but for a root without an executor. */
  lemma {:induction false} StepSucceeds(t: Task, a: Action)
    requires Inv(t) && Enabled(t, a)
    ensures t.ctl.Queued? ==> t.ctl.f < |t.frames| && t.frames[t.ctl.f].status.Suspended?
    ensures !t.ctl.Exec? && !t.ctl.Starting? ==> Next(t, a).Ok?
  {
    hide HandlesOk, Owned, Balanced, Homely;
    match t.ctl
    case Resuming(f, th) => AwaitResumeNears(t, f, th);
    case ExecVia(v, th) => ViaStepNears(t, v, th, a.accepted);
    case Queued(f, e, pin) => PickNears(t, f, e, pin, a.i);
    case AtRoot(th) => RootStepNears(t, th);
    case _ =>
  }

  lemma {:induction false} CanStep(t: Task, a: Action)
    requires Inv(t) && !t.ctl.Over? && !t.ctl.Dropped?
    requires match t.ctl
             case Queued(_, _, pin) => a.Pick? && (pin.Some? ==> pin.value == a.i)
             case Waiting(_) => a.Fire?
             case _ => a.Proceed?
    ensures Enabled(t, a)
  {
    assert |t.frames| > 0 && (t.stack != [] ==> Top(t) < |t.frames|);
    hide Spine, HandlesOk, Owned, Balanced, Homely, Leveled;
  }

  lemma {:induction false} GoodFacts(t: Task, c: Config)
    requires Good(t, c)
    ensures Shape(t)
    ensures c.Ok? ==> Inv(c.t) && Shape(c.t) && Destiny(c.t) == Destiny(t) && Measure(c.t) < Measure(t)
    ensures c.Crashed? ==> Destiny(t) == Doomed(c.why)
  {
    hide Inv, Shape, Destiny, Measure;
  }

  lemma {:induction false} EnabledExec(t: Task, a: Action)
    requires Enabled(t, a)
    ensures t.ctl.Exec? ==>
      a.Proceed? && t.ctl.f < |t.frames| && t.stack != [] && Next(t, a) == BodyStep(t, t.ctl.f, t.ctl.th, a.path, a.accepted)
  {
    hide BodyStep;
  }

  /** Who accepts is not counted as refusing. */
  lemma {:induction false} ObligedStep(t: Task, a: Action)
    requires Enabled(t, a) && (a.Proceed? ==> a.accepted)
    ensures Next(t, a).Ok? ==> Next(t, a).t.refusals == t.refusals
  {
    hide BodyStep, AwaitResume, ViaStep, RootStep, Resume;
    match t.ctl
    case Exec(f, th) => ObligedBody(t, f, th, a.path);
    case Resuming(f, th) => ObligedResume(t, f, th);
    case ExecVia(v, th) => ObligedVia(t, v, th);
    case AtRoot(th) => ObligedRoot(t);
    case Queued(f, e, _) => ObligedPick(t, f, Worker(e, a.i));
    case _ =>
  }

  lemma {:induction false} ObligedPick(t: Task, f: nat, th: Thread)
    ensures Resume(t, f, th).Ok? ==> Resume(t, f, th).t.refusals == t.refusals
  {
  }

  lemma {:induction false} ObligedResume(t: Task, f: nat, th: Thread)
    requires f < |t.frames|
    ensures AwaitResume(t, f, th).Ok? ==> AwaitResume(t, f, th).t.refusals == t.refusals
  {
    hide Deliver;
  }

  lemma {:induction false} ObligedVia(t: Task, v: nat, th: Thread)
    requires v < |t.vias|
    ensures ViaStep(t, v, th, true).Ok? ==> ViaStep(t, v, th, true).t.refusals == t.refusals
  {
  }

  lemma {:induction false} ObligedRoot(t: Task)
    ensures RootStep(t).Ok? ==> RootStep(t).t.refusals == t.refusals
  {
  }

  lemma {:induction false} ObligedAwait(t: Task, f: nat, th: Thread, path: Path)
    requires f < |t.frames| && t.frames[f].body.code.Await?
    ensures AwaitStep(t, f, th, path, true).Ok? ==> AwaitStep(t, f, th, path, true).t.refusals == t.refusals
  {
    hide Deliver, Wrap, Parent, ForeignResult;
  }

  lemma {:induction false} ObligedBody(t: Task, f: nat, th: Thread, path: Path)
    requires f < |t.frames| && t.stack != []
    ensures BodyStep(t, f, th, path, true).Ok? ==> BodyStep(t, f, th, path, true).t.refusals == t.refusals
  {
    if t.frames[f].body.code.Await? { ObligedAwait(t, f, th, path); }
    hide AwaitStep, LocalStep;
  }

  lemma {:induction false} NowhereToGo(t: Task, f: nat, i: nat, c: nat, via: ViaFrame, asTry: bool, accepted: bool)
    requires f < c < |t.frames| && t.frames[f].body.code.Await? && i < |t.frames[f].vars| && t.frames[c].executor.None?
    ensures AwaitReschedule(t, f, i, c, via, asTry, accepted) == Crashed(NullExecutor)
  {
  }

  /** What the variables of the running frame refer to is there, and so is its executor's context. */
  lemma {:induction false} HandlesThere(t: Task, f: nat, th: Thread)
    requires Inv(t) && t.ctl == Exec(f, th) && f < |t.frames|
    ensures forall i :: 0 <= i < |t.frames[f].vars| && t.frames[f].vars[i].coro.Some? ==>
      f < t.frames[f].vars[i].coro.value < |t.frames| && t.frames[t.frames[f].vars[i].coro.value].status.Created?
    ensures Wrap(t, f, th).Some?
  {
    TopFacts(t, f, th);
    hide Shape, Owned, Balanced, Homely, Leveled;
    forall i | 0 <= i < |t.frames[f].vars| && t.frames[f].vars[i].coro.Some?
      ensures f < t.frames[f].vars[i].coro.value < |t.frames| && t.frames[t.frames[f].vars[i].coro.value].status.Created?
    {
      VarHolds(t.frames, f, i);
    }
  }

  lemma {:induction false} ChildThere(t: Task, c: nat, asTry: bool)
    requires TakeChild(t, c, asTry).Ok?
    ensures c < |t.frames| && t.frames[c].body.result.Available() && (t.frames[c].status.AtFinal? || t.frames[c].status.Created?)
  {
  }

  class Coroutines {
    var frames: seq<LazyPromise>
    var vias: seq<ViaPromise>
    var ctl: Control
    var stack: seq<nat>
    var trace: seq<Event>
    var checkouts: nat
    var checkins: nat
    var refusals: nat
    var results: seq<Try<int>>

    ghost predicate Valid()
      reads this`frames, this`vias
    {
      && (forall i, j :: 0 <= i < j < |frames| ==> frames[i] != frames[j])
      && (forall i, j :: 0 <= i < j < |vias| ==> vias[i] != vias[j])
    }

    ghost function Frames(): (r: seq<Frame>)
      reads this`frames, frames
      ensures |r| == |frames| && forall i :: 0 <= i < |frames| ==> r[i] == frames[i].Abs()
    {
      var all := frames;
      seq(|all|, i requires 0 <= i < |all| reads all => all[i].Abs())
    }

    ghost function Vias(): (r: seq<ViaFrame>)
      reads this`vias, vias
      ensures |r| == |vias| && forall i :: 0 <= i < |vias| ==> r[i] == vias[i].Abs()
    {
      var all := vias;
      seq(|all|, i requires 0 <= i < |all| reads all => all[i].Abs())
    }

    ghost function Abs(): Task
      reads this, frames, vias
    {
      Task(Frames(), Vias(), ctl, stack, trace, checkouts, checkins, refusals, results)
    }

    /** Objects are added, and none is replaced. */
    twostate predicate Grown()
      reads this
    {
      && (forall p :: p in frames ==> p in old(frames) || fresh(p))
      && (forall p :: p in vias ==> p in old(vias) || fresh(p))
    }

    /** Only two frames changed. */
    twostate lemma FramesChanged(two: (nat, nat))
      requires frames == old(frames) && two.0 < |frames| && two.1 < |frames|
      requires forall g :: 0 <= g < |frames| && g != two.0 && g != two.1 ==> unchanged(frames[g])
      ensures Frames() == old(Frames())[two.0 := frames[two.0].Abs()][two.1 := frames[two.1].Abs()]
    {
    }

    twostate lemma FrameChanged(f: nat)
      requires frames == old(frames) && f < |frames|
      requires forall g :: 0 <= g < |frames| && g != f ==> unchanged(frames[g])
      ensures Frames() == old(Frames())[f := frames[f].Abs()]
    {
    }

    twostate lemma ViasChanged(v: nat)
      requires vias == old(vias) && v < |vias|
      requires forall w :: 0 <= w < |vias| && w != v ==> unchanged(vias[w])
      ensures Vias() == old(Vias())[v := vias[v].Abs()]
    {
    }

    constructor (prog: Code, entry: Entry, th: Thread)
      ensures Valid() && Abs() == Initial(prog, entry, th) && fresh(frames) && fresh(vias)
    {
      var root := new LazyPromise.Root(prog, entry);
      frames, vias, stack := [root], [], [0];
      ctl := if entry.AsLazy? then Exec(0, th) else Starting(th);
      trace := if entry.AsLazy? then [Resumed(0, 0, None, th)] else [];
      checkouts, checkins, refusals, results := 0, 0, 0, [];
      new;
      assert Frames() == [root.Abs()] && Vias() == [];
    }

    // -------------------------------------------------------------- coroutine_handle

    method ResumeHandle(f: nat, th: Thread)
      requires Valid() && f < |frames| && frames[f].status.Suspended?
      modifies this`trace, this`ctl, frames[f]
      ensures Valid() && Ok(Abs()) == Resume(old(Abs()), f, th)
    {
      trace := trace + [Resumed(f, frames[f].strand, frames[f].executor_, th)];
      ctl := if frames[f].awaiter.NoAwait? then Exec(f, th) else Resuming(f, th);
      frames[f].SetStatus(Running);
      FrameChanged(f);
    }

    method DestroyHandle(f: nat)
      requires Valid() && f < |frames| && (frames[f].status.AtFinal? || frames[f].status.Created?)
      modifies frames[f]
      ensures Valid() && Ok(Abs()) == DestroyFrame(old(Abs()), f)
    {
      frames[f].Destroy();
      FrameChanged(f);
    }

    method DestroyViaHandle(v: nat)
      requires Valid() && v < |vias| && !vias[v].status.Destroyed? && !vias[v].status.Running?
      modifies vias[v]
      ensures Valid() && Ok(Abs()) == DestroyVia(old(Abs()), v)
    {
      vias[v].Destroy();
      ViasChanged(v);
    }

    /** Executor::Schedule or Checkin with a closure that resumes f; the caller does not look at the answer. */
    method Submit(f: nat, e: nat, pin: Option<nat>, accepted: bool)
      modifies this`ctl, this`refusals
      ensures Abs() == Enqueued(old(Abs()), f, e, pin, accepted)
    {
      if accepted {
        ctl := Queued(f, e, pin);
      } else {
        refusals := refusals + 1;
        ctl := Dropped(f, e, pin);
      }
    }

    // -------------------------------------------------------------- handles

    /** get_return_object: the new coroutine belongs to a new Lazy. */
    method Create(f: nat)
      requires Valid() && f < |frames| && frames[f].body.code.Make?
      modifies this`frames, frames[f]
      ensures Valid() && Grown() && Abs() == MakeStep(old(Abs()), f)
    {
      var fr, c := frames[f], |frames|;
      var code, env := fr.body.code.body, fr.body.env;
      var child := new LazyPromise(code, env, c, f, |fr.vars|);
      fr.Declare(Local(false, Some(c), Closure(code, env, None)));
      FrameChanged(f);
      ghost var before := Frames();
      frames := frames + [child];
      assert Frames() == before + [child.Abs()];
    }

    /** The move constructor of Lazy or RescheduleLazy. */
    method MoveVariable(f: nat)
      requires Valid() && f < |frames| && frames[f].body.code.Move? && frames[f].body.code.i < |frames[f].vars|
      requires frames[f].vars[frames[f].body.code.i].coro.Some? ==> f < frames[f].vars[frames[f].body.code.i].coro.value < |frames|
      modifies frames
      ensures Valid() && Ok(Abs()) == MoveStep(old(Abs()), f)
    {
      var fr, n := frames[f], |frames[f].vars|;
      var i := fr.body.code.i;
      var v := fr.vars[i];
      fr.DeclareMoved(i, v);
      if v.coro.Some? {
        frames[v.coro.value].HandTo(f, n, v.resched);
        FramesChanged((f, v.coro.value));
      } else {
        FrameChanged(f);
      }
    }

    /** Lazy::Via: LOGIC_ASSERT, executor_, and std::exchange of the handle into a RescheduleLazy. */
    method ViaVariable(f: nat)
      requires Valid() && f < |frames| && frames[f].body.code.Via? && frames[f].body.code.i < |frames[f].vars|
      requires !frames[f].vars[frames[f].body.code.i].resched
      requires frames[f].vars[frames[f].body.code.i].coro.Some? ==> f < frames[f].vars[frames[f].body.code.i].coro.value < |frames|
      modifies frames
      ensures Valid() && Ok(Abs()) == RescheduleStep(old(Abs()), f)
    {
      var fr, n := frames[f], |frames[f].vars|;
      var i, ex := fr.body.code.i, fr.body.code.ex;
      var v := fr.vars[i];
      if v.coro.None? {
        fr.Throw(LogicError);
        FrameChanged(f);
      } else {
        frames[v.coro.value].SetExecutor(ex);
        fr.DeclareMoved(i, Local(true, v.coro, v.what.(ex := ex)));
        frames[v.coro.value].HandTo(f, n, true);
        FramesChanged((f, v.coro.value));
      }
    }

    /** ~Lazy of the last variable of f. */
    method DropLazy(f: nat, c: nat)
      requires Valid() && f < |frames| && frames[f].vars != [] && f < c < |frames| && frames[c].status.Created?
      requires frames[f].vars[|frames[f].vars| - 1].coro == Some(c) && !frames[f].vars[|frames[f].vars| - 1].resched
      modifies frames
      ensures Valid() && Ok(Abs()) == DropStep(old(Abs()), f)
    {
      var v := frames[f].ForgetLast();
      frames[c].Destroy();
      FramesChanged((f, c));
    }

    /** RescheduleLazy has no destructor: nothing will resume or destroy c. */
    method DropRescheduleLazy(f: nat, c: nat)
      requires Valid() && f < |frames| && frames[f].vars != [] && f < c < |frames| && frames[c].status.Created?
      requires frames[f].vars[|frames[f].vars| - 1].coro == Some(c) && frames[f].vars[|frames[f].vars| - 1].resched
      modifies frames
      ensures Valid() && Ok(Abs()) == DropStep(old(Abs()), f)
    {
      var v := frames[f].ForgetLast();
      frames[c].SetStatus(Leaked);
      FramesChanged((f, c));
    }

    /** The end of a variable. */
    method DropVariable(f: nat)
      requires Valid() && f < |frames| && frames[f].vars != []
      requires var v := frames[f].vars[|frames[f].vars| - 1];
        v.coro.Some? ==> f < v.coro.value < |frames| && frames[v.coro.value].status.Created?
      modifies frames
      ensures Valid() && Ok(Abs()) == DropStep(old(Abs()), f)
    {
      var v := frames[f].vars[|frames[f].vars| - 1];
      if v.coro.None? {
        v := frames[f].ForgetLast();
        FrameChanged(f);
      } else if v.resched {
        DropRescheduleLazy(f, v.coro.value);
      } else {
        DropLazy(f, v.coro.value);
      }
    }

    // -------------------------------------------------------------- awaiting

    /** What await_suspend may rely on: variable i of f refers to a coroutine created after f. */
    predicate Refers(f: nat, i: nat, c: nat)
      reads this, frames
    {
      f < c < |frames| && frames[f].body.code.Await? && i < |frames[f].vars| && frames[f].vars[i].coro == Some(c)
    }

    /** Lazy::CoAwait and AwaiterBase::await_suspend. */
    method LazyAwaitSuspend(f: nat, th: Thread, i: nat, c: nat)
      requires Valid() && Refers(f, i, c)
      modifies this`ctl, this`stack, this`trace, frames
      ensures Valid() && Abs() == AwaitChild(old(Abs()), f, th, i, c)
    {
      ChildInParts(Abs(), f, th, i, c);
      hide Parent, AwaitChild;
      var ex, s := frames[f].executor_, frames[f].strand;
      frames[f].SuspendOn(i, ForChild(c));
      frames[c].EnterFrom(f, ex, s);
      FramesChanged((f, c));
      Transfer(c, Resumed(c, s, ex, th), th);
    }

    /** Symmetric transfer: th goes on in c. */
    method Transfer(c: nat, ev: Event, th: Thread)
      requires Valid()
      modifies this`ctl, this`stack, this`trace
      ensures Valid() && Abs() == old(Abs()).(ctl := Exec(c, th), stack := old(stack) + [c], trace := old(trace) + [ev])
    {
      stack := stack + [c];
      trace := trace + [ev];
      ctl := Exec(c, th);
    }

    /** ViaCoroutine::GetWrappedContinuation, on a fresh via coroutine for frame f. */
    method GetWrappedContinuation(f: nat, th: Thread) returns (v: nat)
      requires Valid() && f < |frames| && Wrap(Abs(), f, th).Some?
      modifies this`vias, this`checkouts
      ensures Valid() && v == old(|vias|) && Grown()
      ensures Abs() == WithVia(old(Abs()), f, Wrap(old(Abs()), f, th).value)
    {
      v := |vias|;
      var via := new ViaPromise(frames[f].executor_, f);
      if via.executor.Some? {
        checkouts := checkouts + 1;
      }
      via.WrapContinuation(if th.Worker? then th.i else 0, f);
      ghost var before := Vias();
      vias := vias + [via];
      assert Vias() == before + [via.Abs()];
    }

    /** What both wrapped awaits do then. */
    method SuspendWrapped(f: nat, i: nat, c: nat, v: nat, asTry: bool, now: bool)
      requires Valid() && Refers(f, i, c)
      modifies this`stack, frames
      ensures Valid() && Abs() == SuspendPart(old(Abs()), f, i, c, v, asTry, now)
    {
      hide Parent;
      frames[f].SuspendOn(i, ForChildVia(c, v, asTry));
      frames[c].EnterVia(v, now);
      FramesChanged((f, c));
      stack := stack + [c];
    }

    /** ViaAsyncAwaiter around Lazy::TryAwaiter. */
    method TryAwaitSuspend(f: nat, th: Thread, i: nat, c: nat)
      requires Valid() && Refers(f, i, c) && Wrap(Abs(), f, th).Some?
      modifies this`vias, this`checkouts, this`ctl, this`stack, this`trace, this`refusals, frames
      ensures Valid() && Grown()
      ensures Abs() == AwaitTry(old(Abs()), f, th, i, c, Wrap(old(Abs()), f, th).value)
    {
      hide Wrap, AwaitTry, SuspendPart, Rescheduled;
      AwaitsInParts(Abs(), f, th, i, c, Wrap(Abs(), f, th).value, true);
      var ev := Resumed(c, frames[c].strand, frames[c].executor_, th);
      var v := GetWrappedContinuation(f, th);
      SuspendWrapped(f, i, c, v, true, true);
      trace := trace + [ev];
      ctl := Exec(c, th);
    }

    /** ViaAsyncAwaiter around RescheduleLazy::AwaiterBase::await_suspend. */
    method RescheduleAwaitSuspend(f: nat, th: Thread, i: nat, c: nat, asTry: bool, accepted: bool)
      requires Valid() && Refers(f, i, c) && Wrap(Abs(), f, th).Some? && frames[c].executor_.Some?
      modifies this`vias, this`checkouts, this`ctl, this`stack, this`trace, this`refusals, frames
      ensures Valid() && Grown()
      ensures Ok(Abs()) == AwaitReschedule(old(Abs()), f, i, c, Wrap(old(Abs()), f, th).value, asTry, accepted)
    {
      hide Wrap, AwaitTry, SuspendPart, Rescheduled;
      AwaitsInParts(Abs(), f, th, i, c, Wrap(Abs(), f, th).value, asTry);
      var e := frames[c].executor_.value;
      var v := GetWrappedContinuation(f, th);
      SuspendWrapped(f, i, c, v, asTry, false);
      Submit(c, e, None, accepted);
    }

    /** co_await on variable i: the failures are a null coroutine handle and a null executor. */
    method AwaitVariable(f: nat, th: Thread, i: nat, asTry: bool, accepted: bool) returns (fault: Option<Fault>)
      requires Valid() && f < |frames| && frames[f].body.code.Await? && Wrap(Abs(), f, th).Some?
      requires i < |frames[f].vars| && frames[f].vars[i].coro.Some? ==> f < frames[f].vars[i].coro.value < |frames|
      modifies this`vias, this`checkouts, this`ctl, this`stack, this`trace, this`refusals, frames
      ensures Valid() && Grown() && Outcome(fault) == AwaitHandle(old(Abs()), f, th, i, asTry, accepted)
    {
      fault := None;
      hide Wrap, AwaitReschedule, AwaitTry, AwaitChild;
      if i >= |frames[f].vars| {
        return Some(NoVariable);
      }
      if frames[f].vars[i].coro.None? {
        return Some(NullHandle);
      }
      var c := frames[f].vars[i].coro.value;
      if frames[f].vars[i].resched {
        if frames[c].executor_.None? {
          NowhereToGo(Abs(), f, i, c, Wrap(Abs(), f, th).value, asTry, accepted);
          return Some(NullExecutor);
        }
        RescheduleAwaitSuspend(f, th, i, c, asTry, accepted);
      } else if asTry {
        TryAwaitSuspend(f, th, i, c);
      } else {
        LazyAwaitSuspend(f, th, i, c);
      }
    }

    /** ViaCoroutine::Create, for an await that will not suspend. */
    method CreateVia(f: nat)
      requires Valid() && f < |frames|
      modifies this`vias
      ensures Valid() && Grown()
      ensures Abs() == old(Abs()).(vias := old(Vias()) + [ViaFrame(frames[f].executor_, None, NoHandle, Suspended, f, 0)])
    {
      var via := new ViaPromise(frames[f].executor_, f);
      ghost var before := Vias();
      vias := vias + [via];
      assert Vias() == before + [via.Abs()];
    }

    /** The await expression with its awaiter as a temporary. */
    method BeginAwait(f: nat, a: Awaiter, suspend: bool)
      requires Valid() && f < |frames| && frames[f].body.code.Await?
      modifies frames[f]
      ensures Valid()
      ensures Abs() == WithFrame(old(Abs()), f, Advanced(old(frames[f].Abs())).(awaiter := a, status := if suspend then Suspended else old(frames[f].status)))
    {
      frames[f].Await(a, suspend);
      FrameChanged(f);
    }

    /** ViaAsyncAwaiter around a foreign awaiter: await_ready, await_suspend, and Checkin when that returned false. */
    method ForeignAwait(f: nat, th: Thread, r: Try<int>, path: Path)
      requires Valid() && f < |frames| && frames[f].body.code.Await? && Wrap(Abs(), f, th).Some?
      modifies this`vias, this`checkouts, this`checkins, this`ctl, frames
      ensures Valid() && Grown() && Ok(Abs()) == AwaitForeign(old(Abs()), f, th, r, path)
    {
      hide Wrap, AwaitForeign;
      match path
      case Ready => ForeignReady(f, th, r);
      case Declined => ForeignDeclined(f, th, r);
      case Deferred => ForeignDeferred(f, th, r);
    }

    method ForeignReady(f: nat, th: Thread, r: Try<int>)
      requires Valid() && f < |frames| && frames[f].body.code.Await?
      modifies this`vias, this`ctl, frames
      ensures Valid() && Grown() && Ok(Abs()) == AwaitForeign(old(Abs()), f, th, r, Path.Ready)
    {
      BeginAwait(f, ForForeign(|vias|, r), false);
      CreateVia(f);
      ctl := Resuming(f, th);
    }

    /** What the awaiter of a foreign awaitable does before that may suspend. */
    method WrapAndAwait(f: nat, th: Thread, r: Try<int>, suspend: bool) returns (v: nat)
      requires Valid() && f < |frames| && frames[f].body.code.Await? && Wrap(Abs(), f, th).Some?
      modifies this`vias, this`checkouts, frames
      ensures Valid() && Grown() && v == old(|vias|)
      ensures var t := old(Abs());
        Abs() == WithFrame(WithVia(t, f, Wrap(t, f, th).value), f,
                           Advanced(t.frames[f]).(awaiter := ForForeign(v, r), status := if suspend then Suspended else t.frames[f].status))
    {
      hide Wrap, Advanced;
      v := GetWrappedContinuation(f, th);
      BeginAwait(f, ForForeign(v, r), suspend);
    }

    /** The foreign await_suspend returned false: ViaCoroutine::Checkin with an empty job. */
    method ForeignDeclined(f: nat, th: Thread, r: Try<int>)
      requires Valid() && f < |frames| && frames[f].body.code.Await? && Wrap(Abs(), f, th).Some?
      modifies this`vias, this`checkouts, this`checkins, this`ctl, frames
      ensures Valid() && Grown() && Ok(Abs()) == AwaitForeign(old(Abs()), f, th, r, Declined)
    {
      DeclinedInParts(Abs(), f, th, r);
      hide Wrap, AwaitForeign, Advanced, WithVia;
      var v := WrapAndAwait(f, th, r, false);
      CheckinEmpty(f, th);
    }

    /** ViaCoroutine::Checkin, whose job does nothing, and on with the body. */
    method CheckinEmpty(f: nat, th: Thread)
      requires Valid() && f < |frames|
      modifies this`checkins, this`ctl
      ensures Valid() && Abs() == old(Abs()).(ctl := Resuming(f, th), checkins := old(checkins) + Checkouts(old(Abs()), f))
    {
      if frames[f].executor_.Some? {
        checkins := checkins + 1;
      }
      ctl := Resuming(f, th);
    }

    method ForeignDeferred(f: nat, th: Thread, r: Try<int>)
      requires Valid() && f < |frames| && frames[f].body.code.Await? && Wrap(Abs(), f, th).Some?
      modifies this`vias, this`checkouts, this`ctl, frames
      ensures Valid() && Grown() && Ok(Abs()) == AwaitForeign(old(Abs()), f, th, r, Deferred)
    {
      DeferredInParts(Abs(), f, th, r);
      hide Wrap, AwaitForeign, Advanced, WithVia;
      var v := WrapAndAwait(f, th, r, true);
      ctl := Waiting(v);
    }

    /** YieldAwaiter::await_suspend. */
    method YieldAwaitSuspend(f: nat, accepted: bool) returns (fault: Option<Fault>)
      requires Valid() && f < |frames| && frames[f].body.code.Await?
      modifies this`trace, this`ctl, this`refusals, frames
      ensures Valid() && Outcome(fault) == AwaitYield(old(Abs()), f, accepted)
    {
      var ex, strand := frames[f].executor_, frames[f].strand;
      if ex.None? {
        return Some(NullExecutor);
      }
      BeginAwait(f, ForYield, true);
      trace := trace + [Yielded(f, strand)];
      Submit(f, ex.value, None, accepted);
      return None;
    }

    // -------------------------------------------------------------- finishing

    method Uncover(f: nat)
      requires Valid() && f < |frames| && stack != []
      modifies this`stack, frames[f]
      ensures Valid() && Abs() == Uncovered(old(Abs()), f)
    {
      frames[f].SetStatus(AtFinal);
      FrameChanged(f);
      stack := Pop(stack);
    }

    /** LazyPromiseBase::FinalAwaiter::await_suspend. */
    method FinalAwaitSuspend(f: nat, th: Thread)
      requires Valid() && f < |frames| && stack != [] && FinalSuspend(Abs(), f, th).Ok?
      modifies this`stack, this`ctl, this`trace, frames
      ensures Valid() && Ok(Abs()) == FinalSuspend(old(Abs()), f, th)
    {
      var continuation := frames[f].continuation_;
      hide Uncovered;
      Uncover(f);
      match continuation
      case LazyH(p) => ResumeHandle(p, th);
      case ViaH(v) => ctl := ExecVia(v, th);
      case RootH => ctl := AtRoot(th);
    }

    method FinishVia(v: nat)
      requires Valid() && v < |vias|
      modifies vias[v]
      ensures Valid() && Abs() == old(Abs()).(vias := old(Vias())[v := old(vias[v].Abs()).(status := AtFinal)])
    {
      vias[v].Finish();
      ViasChanged(v);
    }

    /** ViaCoroutine::promise_type::FinalAwaiter::await_suspend and the executor's Checkin. */
    method ViaFinalAwaitSuspend(v: nat, th: Thread, accepted: bool)
      requires Valid() && v < |vias| && ViaStep(Abs(), v, th, accepted).Ok?
      modifies this`checkins, this`ctl, this`trace, this`refusals, frames, vias
      ensures Valid() && Ok(Abs()) == ViaStep(old(Abs()), v, th, accepted)
    {
      var ex, context, f := vias[v].executor, vias[v].context, vias[v].continuation.f;
      ViaInParts(Abs(), v, th, accepted);
      hide ViaStep;
      FinishVia(v);
      if ex.Some? {
        checkins := checkins + 1;
        if th == Worker(ex.value, context.value) {
          ResumeHandle(f, th);
        } else {
          Submit(f, ex.value, context, accepted);
        }
      } else {
        ResumeHandle(f, th);
      }
    }

    /** AwaitResumeTry; or AwaitResume and the destructor of the awaiter: `handle` is nulled when the child was destroyed already. */
    method AwaitResumeChild(c: nat, asTry: bool) returns (r: Try<int>)
      requires Valid() && c < |frames| && frames[c].body.result.Available() && (frames[c].status.AtFinal? || frames[c].status.Created?)
      modifies frames[c]
      ensures Valid() && Ok(Abs()) == TakeChild(old(Abs()), c, asTry) && r == old(frames[c].body.result)
      ensures var was := old(Abs()).frames[c];
        Abs() == WithFrame(old(Abs()), c, was.(status := Destroyed, destroyed := was.destroyed + 1))
    {
      var handle := LazyH(c);
      r := frames[c].body.result;
      if asTry || r.Value? {
        DestroyHandle(c);
        handle := NoHandle;
      }
      if handle.LazyH? {
        DestroyHandle(handle.f);
      }
    }

    /** The rest of the await expression. */
    method Resumes(f: nat, th: Thread, asTry: bool, r: Try<int>)
      requires Valid() && f < |frames|
      modifies this`ctl, frames[f]
      ensures Valid() && Abs() == Delivered(old(Abs()), f, asTry, r, th)
    {
      frames[f].Bind(asTry, r);
      FrameChanged(f);
      ctl := Exec(f, th);
    }

    method AwaitResumes(f: nat, th: Thread)
      requires Valid() && f < |frames| && AwaitResume(Abs(), f, th).Ok?
      modifies this`ctl, frames, vias
      ensures Valid() && Ok(Abs()) == AwaitResume(old(Abs()), f, th)
    {
      hide Delivered;
      match frames[f].awaiter {
        case ForYield =>
          Resumes(f, th, false, Value(0));
        case ForForeign(v, r) =>
          DestroyViaHandle(v);
          Resumes(f, th, false, r);
        case ForChild(c) =>
          ChildThere(Abs(), c, false);
          var r := AwaitResumeChild(c, false);
          hide TakeChild;
          Resumes(f, th, false, r);
        case ForChildVia(c, v, asTry) =>
          ChildThere(Abs(), c, asTry);
          var r := AwaitResumeChild(c, asTry);
          hide TakeChild;
          DestroyViaHandle(v);
          Resumes(f, th, asTry, r);
      }
    }

    /** The detached coroutine of Start after co_await lazy.CoAwaitTry(). */
    method RootResumes()
      requires Valid() && RootStep(Abs()).Ok?
      modifies this`results, this`ctl, frames
      ensures Valid() && Ok(Abs()) == RootStep(old(Abs()))
    {
      var r := frames[0].body.result;
      DestroyHandle(0);
      results := results + [r];
      ctl := Over;
    }

    // -------------------------------------------------------------- bodies

    /** How the step ended. */
    ghost function Outcome(fault: Option<Fault>): Config
      reads this, frames, vias
    {
      if fault.None? then Ok(Abs()) else Crashed(fault.value)
    }

    /** A step that neither awaits nor declares anything, or co_await CurrentExecutor{}. */
    method ReplaceBody(f: nat, b: Body)
      requires Valid() && f < |frames|
      modifies frames[f]
      ensures Valid() && Abs() == WithFrame(old(Abs()), f, old(frames[f].Abs()).(body := b))
    {
      frames[f].SetBody(b);
      FrameChanged(f);
    }

    method AwaitSomething(f: nat, th: Thread, path: Path, accepted: bool) returns (fault: Option<Fault>)
      requires Valid() && Poised(Abs(), f, th) && frames[f].body.code.Await?
      modifies this`vias, this`checkouts, this`checkins, this`ctl, this`stack, this`trace, this`refusals, frames
      ensures Valid() && Grown() && Outcome(fault) == AwaitStep(old(Abs()), f, th, path, accepted)
    {
      var what := frames[f].body.code.what;
      HandlesThere(Abs(), f, th);
      hide Poised, AwaitHandle, Wrap, AwaitForeign;
      if what.ValueOf? || what.TryOf? {
        fault := AwaitVariable(f, th, what.i, what.TryOf?, accepted);
      } else {
        fault := AwaitOther(f, th, path, accepted);
      }
    }

    method AwaitOther(f: nat, th: Thread, path: Path, accepted: bool) returns (fault: Option<Fault>)
      requires Valid() && f < |frames| && frames[f].body.code.Await? && Wrap(Abs(), f, th).Some?
      requires !frames[f].body.code.what.ValueOf? && !frames[f].body.code.what.TryOf?
      modifies this`vias, this`checkouts, this`checkins, this`ctl, this`trace, this`refusals, frames
      ensures Valid() && Grown() && Outcome(fault) == AwaitStep(old(Abs()), f, th, path, accepted)
    {
      fault := None;
      hide AwaitForeign, AwaitYield, Wrap, Deliver, ForeignResult;
      match frames[f].body.code.what
      case Foreign(x, fails) => ForeignAwait(f, th, ForeignResult(x, fails, frames[f].body.env), path);
      case Yield => fault := YieldAwaitSuspend(f, accepted);
      case Current =>
        ReplaceBody(f, Deliver(Advanced(frames[f].Abs()).body, false, Value(Encode(frames[f].executor_))));
    }

    method Declare(f: nat, th: Thread) returns (fault: Option<Fault>)
      requires Valid() && Poised(Abs(), f, th) && (frames[f].body.code.Make? || frames[f].body.code.Move? || frames[f].body.code.Via?)
      modifies this`frames, frames
      ensures Valid() && Grown()
      ensures Outcome(fault) == if old(frames[f].body.code).Make? then Ok(MakeStep(old(Abs()), f))
                                else if old(frames[f].body.code).Move? then MoveStep(old(Abs()), f)
                                else RescheduleStep(old(Abs()), f)
    {
      HandlesThere(Abs(), f, th);
      fault := None;
      hide Poised;
      var code, vars := frames[f].body.code, frames[f].vars;
      if code.Make? {
        Create(f);
      } else if code.i >= |vars| {
        fault := Some(NoVariable);
      } else if code.Move? {
        MoveVariable(f);
      } else if vars[code.i].resched {
        fault := Some(NotLazy);
      } else {
        ViaVariable(f);
      }
    }

    /** A body runs on, on th. */
    method RunBody(f: nat, th: Thread, path: Path, accepted: bool) returns (fault: Option<Fault>)
      requires Valid() && Inv(Abs()) && ctl == Exec(f, th) && f < |frames| && stack != []
      modifies this, frames, vias
      ensures Valid() && Grown() && Outcome(fault) == BodyStep(old(Abs()), f, th, path, accepted)
    {
      fault := None;
      TopFacts(Abs(), f, th);
      if |frames[f].vars| > frames[f].body.live {
        HandlesThere(Abs(), f, th);
        hide Inv, DropStep;
        DropVariable(f);
      } else if frames[f].body.result.Available() {
        SuspendsFinally(Abs(), f, th);
        hide Inv, FinalSuspend;
        FinalAwaitSuspend(f, th);
      } else {
        assert Poised(Abs(), f, th);
        hide Inv, Poised, DropStep, FinalSuspend;
        fault := RunCode(f, th, path, accepted);
      }
    }

    method RunCode(f: nat, th: Thread, path: Path, accepted: bool) returns (fault: Option<Fault>)
      requires Valid() && Poised(Abs(), f, th) && stack != []
      modifies this, frames, vias
      ensures Valid() && Grown() && Outcome(fault) == BodyStep(old(Abs()), f, th, path, accepted)
    {
      fault := None;
      assert f < |frames| && |frames[f].vars| == frames[f].body.live && frames[f].body.result == Nothing;
      hide Poised, MakeStep, MoveStep, RescheduleStep, AwaitStep, LocalStep, DropStep, FinalSuspend;
      if IsLocal(frames[f].body.code) {
        ReplaceBody(f, LocalStep(frames[f].body));
      } else if frames[f].body.code.Await? {
        fault := AwaitSomething(f, th, path, accepted);
      } else {
        fault := Declare(f, th);
      }
    }

    /** A step of the rest of the library, on whichever thread `a` names. */
    method StepOutside(a: Action) returns (fault: Option<Fault>)
      requires Valid() && Inv(Abs()) && Enabled(Abs(), a) && !ctl.Exec?
      modifies this`ctl, this`trace, this`checkins, this`refusals, this`results, frames, vias
      ensures Valid() && Outcome(fault) == Next(old(Abs()), a)
    {
      fault := None;
      StepSucceeds(Abs(), a);
      hide Inv, AwaitResume, ViaStep, RootStep, Resume;
      match ctl
      case Starting(_) =>
        if frames[0].executor_.None? {
          fault := Some(NullExecutor);
        } else {
          Submit(0, frames[0].executor_.value, None, a.accepted);
        }
      case Resuming(f, th) => AwaitResumes(f, th);
      case ExecVia(v, th) => ViaFinalAwaitSuspend(v, th, a.accepted);
      case Queued(f, e, _) => ResumeHandle(f, Worker(e, a.i));
      case Waiting(v) => ctl := ExecVia(v, a.th);
      case AtRoot(_) => RootResumes();
    }

    method Dispatch(a: Action) returns (fault: Option<Fault>)
      requires Valid() && Inv(Abs()) && Enabled(Abs(), a)
      modifies this, frames, vias
      ensures Valid() && Grown() && Outcome(fault) == Next(old(Abs()), a)
    {
      EnabledExec(Abs(), a);
      hide Inv, BodyStep, Next, Enabled;
      if ctl.Exec? {
        fault := RunBody(ctl.f, ctl.th, a.path, a.accepted);
      } else {
        fault := StepOutside(a);
      }
    }

    /** Workers, threads, foreign awaitables and executors do what they like. */
    method Choose(obliging: bool) returns (a: Action)
      requires Valid() && Inv(Abs()) && !ctl.Over? && !ctl.Dropped?
      ensures Enabled(Abs(), a) && (a.Proceed? && obliging ==> a.accepted)
    {
      var path: Path, i: nat, other: Thread, accepted: bool := *, *, *, *;
      a := match ctl
        case Queued(_, _, pin) => Pick(if pin.Some? then pin.value else i)
        case Waiting(_) => Fire(other)
        case _ => Proceed(path, obliging || accepted);
      hide Inv, Enabled;
      CanStep(Abs(), a);
    }

    /** One step: the invariant is kept, the destiny of the task is the same, and it is nearer by a step; or the step fails,
        as destined. */
    method Step(a: Action) returns (fault: Option<Fault>)
      requires Valid() && Inv(Abs()) && Enabled(Abs(), a)
      modifies this, frames, vias
      ensures Valid() && Grown() && Outcome(fault) == Next(old(Abs()), a)
      ensures Shape(old(Abs())) && (fault.None? ==> Inv(Abs()) && Shape(Abs()) && Destiny(Abs()) == Destiny(old(Abs())))
      ensures fault.None? ==> Measure(Abs()) < Measure(old(Abs()))
      ensures fault.Some? ==> Destiny(old(Abs())) == Doomed(fault.value)
      ensures fault.None? && (a.Proceed? ==> a.accepted) ==> refusals == old(refusals)
    {
      StepKeepsInv(Abs(), a);
      GoodFacts(Abs(), Next(Abs(), a));
      if a.Proceed? ==> a.accepted { ObligedStep(Abs(), a); }
      hide Inv, Shape, Destiny, Measure, Good, Next, Enabled;
      fault := Dispatch(a);
    }
  }

  /** How `Start` ends: with a call of the callback, with a job that was refused, or in undefined behaviour. */
  datatype Ending = Called(t: Try<int>) | NeverCalled | Failed(why: Fault)

  /** `handle.Start(callback)` to the end, whatever workers, threads and foreign awaitables do: the callback is called once,
      with the Try that direct evaluation yields, unless evaluation fails or an executor refuses a job, which those that
      are `obliging` do not. */
  method Start(prog: Code, entry: Entry, th: Thread, obliging: bool) returns (r: Ending)
    ensures r.Called? ==> StartFate(prog, entry) == Gives(r.t)
    ensures r.Failed? ==> StartFate(prog, entry) == Doomed(r.why)
    ensures r.NeverCalled? ==> !obliging
  {
    var c := new Coroutines(prog, entry, th);
    InitialInv(prog, entry, th);
    hide StartFate, Inv, Shape, Measure, Destiny, Next, Enabled;
    while !c.ctl.Over? && !c.ctl.Dropped?
      invariant fresh(c) && (forall p :: p in c.frames ==> fresh(p)) && (forall p :: p in c.vias ==> fresh(p)) && c.Valid()
      invariant Inv(c.Abs()) && Shape(c.Abs()) && Destiny(c.Abs()) == StartFate(prog, entry)
      invariant obliging ==> c.refusals == 0
      decreases Measure(c.Abs())
    {
      var a := c.Choose(obliging);
      forall k | 0 <= k < |c.frames|
        ensures fresh(c.frames[k])
      {
        assert c.frames[k] in c.frames;
      }
      forall k | 0 <= k < |c.vias|
        ensures fresh(c.vias[k])
      {
        assert c.vias[k] in c.vias;
      }
      var fault := c.Step(a);
      if fault.Some? {
        return Failed(fault.value);
      }
    }
    StuckControl(c.Abs(), th);
    OverFacts(c.Abs());
    if c.ctl.Dropped? {
      return NeverCalled;
    }
    return Called(c.results[0]);
  }
}
