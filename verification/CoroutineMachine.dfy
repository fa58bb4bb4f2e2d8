/** Frames, handles, continuations and awaiters of one task: everything started by one `Start`, hopping between threads.

    A frame is resumed only through the handle stored somewhere: `continuation_`, a via coroutine, or a queued job.
    `stack` is a ghost of that pointer structure: the unfinished coroutines from the root to the innermost one. */
module CoroutineMachine {
  import opened TryModel
  import opened CoroutineCode

  datatype Thread = Worker(e: nat, i: nat) | Outside(n: nat)

  datatype Handle = NoHandle | LazyH(f: nat) | ViaH(v: nat) | RootH

  /** `Created`: suspended at its initial suspend point. `Leaked`: nobody refers to it any more, and nobody destroyed it. */
  datatype Status = Created | Suspended | Running | AtFinal | Destroyed | Leaked

  /** A local variable of type Lazy or RescheduleLazy, with its member coro_. `what` remembers what was created there. */
  datatype Local = Local(resched: bool, coro: Option<nat>, what: Closure)

  /** The awaiter object inside a suspended frame; it owns the child's handle and the via coroutine. */
  datatype Awaiter =
    | NoAwait
    | ForChild(child: nat)
    | ForChildVia(child: nat, via: nat, asTry: bool)
    | ForForeign(via: nat, r: Try<int>)
    | ForYield

  /** A LazyPromise and its coroutine. `strand` is shared by a coroutine and the children whose value it awaits without Via.
      A created coroutine belongs to variable `index` of frame `holder`. `taken` says that it was awaited or started, `resched`
      that its last handle was a RescheduleLazy. */
  datatype Frame = Frame(
    executor: ExecutorPtr,
    continuation: Handle,
    body: Body,
    vars: seq<Local>,
    awaiter: Awaiter,
    status: Status,
    strand: nat,
    holder: nat,
    index: nat,
    taken: bool,
    resched: bool,
    destroyed: nat)

  /** A ViaCoroutine, owned by the awaiter in frame `owner`. */
  datatype ViaFrame = ViaFrame(
    executor: ExecutorPtr,
    context: Option<nat>,
    continuation: Handle,
    status: Status,
    owner: nat,
    destroyed: nat)

  datatype Event =
    | Resumed(f: nat, strand: nat, ex: ExecutorPtr, th: Thread)
    | Yielded(f: nat, strand: nat)

  datatype Control =
    | Starting(th: Thread)                 // th is about to schedule the root, a RescheduleLazy
    | Exec(f: nat, th: Thread)             // th runs the body of f
    | Resuming(f: nat, th: Thread)         // th is in await_resume of f's awaiter
    | ExecVia(v: nat, th: Thread)          // th runs the via coroutine v
    | Queued(f: nat, e: nat, pin: Option<nat>)  // a job of executor e, for one worker if pinned, that resumes f
    | Dropped(f: nat, e: nat, pin: Option<nat>) // e answered false, and nobody looked: the job does not exist
    | Waiting(v: nat)                      // a foreign awaitable holds the handle of v
    | AtRoot(th: Thread)                   // th resumes the detached coroutine of Start
    | Over

  datatype Task = Task(
    frames: seq<Frame>,
    vias: seq<ViaFrame>,
    ctl: Control,
    stack: seq<nat>,
    trace: seq<Event>,
    checkouts: nat,
    checkins: nat,
    refusals: nat,              // jobs that resume a coroutine and were answered false
    results: seq<Try<int>>)     // what the Start callback was called with

  datatype Config = Ok(t: Task) | Crashed(why: Fault)
  {
    predicate IsFailure() { Crashed? }
    function PropagateFailure(): Config requires Crashed? { this }
    function Extract(): Task requires Ok? { t }
  }

  // ---------------------------------------------------------------- handles as values

  function ValOf(v: Local): Val {
    Val(v.resched, if v.coro.None? then None else Some(v.what))
  }

  function Vals(vars: seq<Local>): (r: seq<Val>)
    ensures |r| == |vars| && forall i :: 0 <= i < |vars| ==> r[i] == ValOf(vars[i])
  {
    seq(|vars|, i requires 0 <= i < |vars| => ValOf(vars[i]))
  }

  /** std::exchange(coro_, nullptr) */
  function Gone(vars: seq<Local>, i: nat): (r: seq<Local>)
    requires i < |vars|
    ensures |r| == |vars|
  {
    vars[i := vars[i].(coro := None)]
  }

  // ---------------------------------------------------------------- Start

  /** `prog().Start(cb)`, or `prog().Via(ex).Start(cb)`. */
  datatype Entry = AsLazy | AsReschedule(ex: ExecutorPtr)

  function RootFrame(prog: Code, entry: Entry): Frame {
    Frame(if entry.AsLazy? then None else entry.ex, RootH, Fresh(prog, []), [], NoAwait,
          if entry.AsLazy? then Running else Suspended, 0, 0, 0, true, entry.AsReschedule?, 0)
  }

  /** `Start` has moved the handle into its detached coroutine, which awaits it on thread `th`: a Lazy is entered at once. */
  function Initial(prog: Code, entry: Entry, th: Thread): Task {
    Task([RootFrame(prog, entry)], [], if entry.AsLazy? then Exec(0, th) else Starting(th),
         [0], if entry.AsLazy? then [Resumed(0, 0, None, th)] else [], 0, 0, 0, [])
  }

  /** A job that resumes f. What the executor answers is not looked at. */
  function Enqueued(t: Task, f: nat, e: nat, pin: Option<nat>, accepted: bool): Task {
    if accepted then t.(ctl := Queued(f, e, pin)) else t.(ctl := Dropped(f, e, pin), refusals := t.refusals + 1)
  }

  function StartStep(t: Task, accepted: bool): Config
    requires |t.frames| > 0
  {
    match t.frames[0].executor
    case None => Crashed(NullExecutor)
    case Some(e) => Ok(Enqueued(t, 0, e, None, accepted))
  }

  // ---------------------------------------------------------------- resuming and destroying

  function Top(t: Task): nat
    requires t.stack != []
  {
    t.stack[|t.stack| - 1]
  }

  function Pop<T>(s: seq<T>): seq<T>
    requires s != []
  {
    s[..|s| - 1]
  }

  function WithFrame(t: Task, f: nat, fr: Frame): Task
    requires f < |t.frames|
  {
    t.(frames := t.frames[f := fr])
  }

  /** handle.resume() on thread `th`. */
  function Resume(t: Task, f: nat, th: Thread): Config {
    if f >= |t.frames| then Crashed(Dangling)
    else if t.frames[f].status != Suspended then Crashed(NotSuspended)
    else
      var fr := t.frames[f];
      Ok(t.(frames := t.frames[f := fr.(status := Running)],
            ctl := if fr.awaiter.NoAwait? then Exec(f, th) else Resuming(f, th),
            trace := t.trace + [Resumed(f, fr.strand, fr.executor, th)]))
  }

  /** handle.destroy(): a coroutine at its initial or final suspend point, and only once. */
  function DestroyFrame(t: Task, f: nat): Config {
    if f >= |t.frames| then Crashed(Dangling)
    else if t.frames[f].status != AtFinal && t.frames[f].status != Created then Crashed(BadDestroy)
    else Ok(WithFrame(t, f, t.frames[f].(status := Destroyed, destroyed := t.frames[f].destroyed + 1)))
  }

  function DestroyVia(t: Task, v: nat): Config {
    if v >= |t.vias| then Crashed(Dangling)
    else if t.vias[v].status == Destroyed || t.vias[v].status == Running then Crashed(BadDestroy)
    else Ok(t.(vias := t.vias[v := t.vias[v].(status := Destroyed, destroyed := t.vias[v].destroyed + 1)]))
  }

  // ---------------------------------------------------------------- the executor's contexts

  /** `GetWrappedContinuation` and `Create`: the via coroutine for frame f, with the context of the current worker. */
  function Wrap(t: Task, f: nat, th: Thread): (r: Option<ViaFrame>)
    requires f < |t.frames|
  {
    match t.frames[f].executor
    case None => Some(ViaFrame(None, None, LazyH(f), Suspended, f, 0))
    case Some(e) =>
      if th.Worker? && th.e == e then Some(ViaFrame(Some(e), Some(th.i), LazyH(f), Suspended, f, 0)) else None
  }

  function Checkouts(t: Task, f: nat): nat
    requires f < |t.frames|
  {
    if t.frames[f].executor.Some? then 1 else 0
  }

  // ---------------------------------------------------------------- handles

  /** The call of a coroutine function: the new coroutine is suspended at once, and belongs to the Lazy that get_return_object makes. */
  function MakeStep(t: Task, f: nat): Task
    requires f < |t.frames| && t.frames[f].body.code.Make?
  {
    var fr, c := t.frames[f], |t.frames|;
    var what := Closure(fr.body.code.body, fr.body.env, None);
    var child := Frame(None, NoHandle, Fresh(what.body, what.env), [], NoAwait, Created, c, f, |fr.vars|, false, false, 0);
    t.(frames := t.frames[f := fr.(body := Declared(fr.body), vars := fr.vars + [Local(false, Some(c), what)])] + [child])
  }

  /** The coroutine of variable i, if any, belongs to a new variable of frame f from now on. */
  function Moved(t: Task, f: nat, i: nat, v: Local): Task
    requires f < |t.frames| && (t.frames[f].body.code.Move? || t.frames[f].body.code.Via?) && i < |t.frames[f].vars|
  {
    var fr := t.frames[f];
    var t1 := WithFrame(t, f, fr.(body := Declared(fr.body), vars := Gone(fr.vars, i) + [v]));
    if v.coro.Some? && v.coro.value < |t.frames|
    then var c := v.coro.value;
         WithFrame(t1, c, t1.frames[c].(executor := if v.resched && !fr.vars[i].resched then v.what.ex else t1.frames[c].executor,
                                        holder := f, index := |fr.vars|, resched := v.resched))
    else t1
  }

  /** The move constructors. */
  function MoveStep(t: Task, f: nat): Config
    requires f < |t.frames| && t.frames[f].body.code.Move?
  {
    var fr, i := t.frames[f], t.frames[f].body.code.i;
    if i >= |fr.vars| then Crashed(NoVariable) else Ok(Moved(t, f, i, fr.vars[i]))
  }

  /** Lazy::Via: a logic_error for a moved-from Lazy; otherwise executor_ is set, and a RescheduleLazy takes over. */
  function RescheduleStep(t: Task, f: nat): Config
    requires f < |t.frames| && t.frames[f].body.code.Via?
  {
    var fr, i := t.frames[f], t.frames[f].body.code.i;
    if i >= |fr.vars| then Crashed(NoVariable)
    else if fr.vars[i].resched then Crashed(NotLazy)
    else if fr.vars[i].coro.None? then Ok(WithFrame(t, f, fr.(body := Raise(fr.body, LogicError))))
    else Ok(Moved(t, f, i, Local(true, fr.vars[i].coro, fr.vars[i].what.(ex := fr.body.code.ex))))
  }

  /** The last variable of frame f dies: ~Lazy destroys the coroutine, if it still has one; RescheduleLazy has no destructor. */
  function DropStep(t: Task, f: nat): Config
    requires f < |t.frames| && t.frames[f].vars != []
  {
    var fr := t.frames[f];
    var v := fr.vars[|fr.vars| - 1];
    var t1 := WithFrame(t, f, fr.(vars := Pop(fr.vars)));
    match v.coro
    case None => Ok(t1)
    case Some(c) =>
      if c >= |t.frames| then Crashed(Dangling)
      else if v.resched then Ok(WithFrame(t1, c, t1.frames[c].(status := Leaked)))
      else DestroyFrame(t1, c)
  }

  // ---------------------------------------------------------------- await expressions

  function Advanced(fr: Frame): Frame
    requires fr.body.code.Await?
  {
    fr.(body := fr.body.(code := fr.body.code.next))
  }

  /** Frame f waits with awaiter `a`, which has taken the coroutine out of variable i. */
  function Parent(fr: Frame, i: nat, a: Awaiter): Frame
    requires fr.body.code.Await? && i < |fr.vars|
  {
    Advanced(fr).(vars := Gone(fr.vars, i), awaiter := a, status := Suspended)
  }

  /** `co_await lazy`: the child is given executor_ and is entered by symmetric transfer. */
  function AwaitChild(t: Task, f: nat, th: Thread, i: nat, c: nat): Task
    requires f < |t.frames| && c < |t.frames| && t.frames[f].body.code.Await? && i < |t.frames[f].vars|
  {
    var fr := t.frames[f];
    var child := t.frames[c].(executor := fr.executor, continuation := LazyH(f), status := Running, strand := fr.strand, taken := true);
    t.(frames := t.frames[f := Parent(fr, i, ForChild(c))][c := child],
       ctl := Exec(c, th), stack := t.stack + [c], trace := t.trace + [Resumed(c, fr.strand, fr.executor, th)])
  }

  /** What both wrapped awaits of the coroutine c of variable i do to the parent. */
  function Wrapped(t: Task, f: nat, i: nat, c: nat, via: ViaFrame, asTry: bool): Task
    requires f < |t.frames| && c < |t.frames| && t.frames[f].body.code.Await? && i < |t.frames[f].vars|
  {
    t.(frames := t.frames[f := Parent(t.frames[f], i, ForChildVia(c, |t.vias|, asTry))],
       vias := t.vias + [via], stack := t.stack + [c], checkouts := t.checkouts + Checkouts(t, f))
  }

  /** `co_await lazy.CoAwaitTry()`: the continuation is wrapped in a via coroutine, and the child is entered by symmetric
      transfer, with the executor_ it has. */
  function AwaitTry(t: Task, f: nat, th: Thread, i: nat, c: nat, via: ViaFrame): Task
    requires f < |t.frames| && c < |t.frames| && t.frames[f].body.code.Await? && i < |t.frames[f].vars|
  {
    var t1 := Wrapped(t, f, i, c, via, true);
    var child := t1.frames[c].(continuation := ViaH(|t.vias|), status := Running, taken := true);
    WithFrame(t1, c, child).(ctl := Exec(c, th), trace := t.trace + [Resumed(c, child.strand, child.executor, th)])
  }

  /** Awaiting a RescheduleLazy, for its value or its Try: the child is scheduled on its executor_. */
  function AwaitReschedule(t: Task, f: nat, i: nat, c: nat, via: ViaFrame, asTry: bool, accepted: bool): Config
    requires f < |t.frames| && c < |t.frames| && t.frames[f].body.code.Await? && i < |t.frames[f].vars|
  {
    var t1 := Rescheduled(t, f, i, c, via, asTry);
    match t1.frames[c].executor
    case None => Crashed(NullExecutor)
    case Some(e) => Ok(Enqueued(t1, c, e, None, accepted))
  }

  function Rescheduled(t: Task, f: nat, i: nat, c: nat, via: ViaFrame, asTry: bool): (t1: Task)
    requires f < |t.frames| && c < |t.frames| && t.frames[f].body.code.Await? && i < |t.frames[f].vars|
    ensures |t1.frames| == |t.frames|
  {
    var t1 := Wrapped(t, f, i, c, via, asTry);
    WithFrame(t1, c, t1.frames[c].(continuation := ViaH(|t.vias|), status := Suspended, taken := true))
  }

  function AwaitHandle(t: Task, f: nat, th: Thread, i: nat, asTry: bool, accepted: bool): Config
    requires f < |t.frames| && t.frames[f].body.code.Await?
  {
    var vars := t.frames[f].vars;
    if i >= |vars| then Crashed(NoVariable)
    else if vars[i].coro.None? then Crashed(NullHandle)
    else if vars[i].coro.value >= |t.frames| then Crashed(Dangling)
    else
      var c := vars[i].coro.value;
      if !vars[i].resched && !asTry then Ok(AwaitChild(t, f, th, i, c)) else
      match Wrap(t, f, th)
      case None => Crashed(BadContext)
      case Some(via) =>
        if vars[i].resched then AwaitReschedule(t, f, i, c, via, asTry, accepted) else Ok(AwaitTry(t, f, th, i, c, via))
  }

  datatype Path = Ready | Declined | Deferred

  /** Awaiting something foreign: await_ready is true, await_suspend returns false, or it is resumed later. */
  function AwaitForeign(t: Task, f: nat, th: Thread, r: Try<int>, path: Path): Config
    requires f < |t.frames| && t.frames[f].body.code.Await?
  {
    var fr, v := Advanced(t.frames[f]).(awaiter := ForForeign(|t.vias|, r)), |t.vias|;
    if path.Ready? then
      Ok(WithFrame(t, f, fr).(vias := t.vias + [ViaFrame(fr.executor, None, NoHandle, Suspended, f, 0)], ctl := Resuming(f, th)))
    else
      match Wrap(t, f, th)
      case None => Crashed(BadContext)
      case Some(via) =>
        var t1 := t.(vias := t.vias + [via], checkouts := t.checkouts + Checkouts(t, f));
        if path.Declined?
        then Ok(WithFrame(t1, f, fr).(ctl := Resuming(f, th), checkins := t.checkins + Checkouts(t, f)))
        else Ok(WithFrame(t1, f, fr.(status := Suspended)).(ctl := Waiting(v)))
  }

  /** `co_await Yield{}`: back into the executor's queue. */
  function AwaitYield(t: Task, f: nat, accepted: bool): Config
    requires f < |t.frames| && t.frames[f].body.code.Await?
  {
    var fr := Advanced(t.frames[f]);
    match fr.executor
    case None => Crashed(NullExecutor)
    case Some(e) =>
      var t1 := WithFrame(t, f, fr.(awaiter := ForYield, status := Suspended)).(trace := t.trace + [Yielded(f, fr.strand)]);
      Ok(Enqueued(t1, f, e, None, accepted))
  }

  function Uncovered(t: Task, f: nat): Task
    requires f < |t.frames| && t.stack != []
  {
    WithFrame(t, f, t.frames[f].(status := AtFinal)).(stack := Pop(t.stack))
  }

  /** FinalAwaiter: symmetric transfer to continuation_. */
  function FinalSuspend(t: Task, f: nat, th: Thread): Config
    requires f < |t.frames| && t.stack != []
  {
    var t1 := Uncovered(t, f);
    match t.frames[f].continuation
    case NoHandle => Crashed(Dangling)
    case LazyH(p) => Resume(t1, p, th)
    case ViaH(v) =>
      if v < |t.vias| && t.vias[v].status.Suspended? then Ok(t1.(ctl := ExecVia(v, th))) else Crashed(NotSuspended)
    case RootH => Ok(t1.(ctl := AtRoot(th)))
  }

  function AwaitStep(t: Task, f: nat, th: Thread, path: Path, accepted: bool): Config
    requires f < |t.frames| && t.frames[f].body.code.Await?
  {
    var fr := t.frames[f];
    match fr.body.code.what
    case ValueOf(i) => AwaitHandle(t, f, th, i, false, accepted)
    case TryOf(i) => AwaitHandle(t, f, th, i, true, accepted)
    case Foreign(x, fails) => AwaitForeign(t, f, th, ForeignResult(x, fails, fr.body.env), path)
    case Yield => AwaitYield(t, f, accepted)
    case Current => Ok(WithFrame(t, f, fr.(body := Deliver(Advanced(fr).body, false, Value(Encode(fr.executor))))))
  }

  /** One step of the body of f on th: first the variables that have gone out of scope. */
  function BodyStep(t: Task, f: nat, th: Thread, path: Path, accepted: bool): Config
    requires f < |t.frames| && t.stack != []
  {
    var fr := t.frames[f];
    if |fr.vars| > fr.body.live then DropStep(t, f)
    else if fr.body.result.Available() then FinalSuspend(t, f, th)
    else if IsLocal(fr.body.code) then Ok(WithFrame(t, f, fr.(body := LocalStep(fr.body))))
    else if fr.body.code.Make? then Ok(MakeStep(t, f))
    else if fr.body.code.Move? then MoveStep(t, f)
    else if fr.body.code.Via? then RescheduleStep(t, f)
    else AwaitStep(t, f, th, path, accepted)
  }

  /** The via coroutine's FinalAwaiter: Checkin runs the continuation at once on the worker it belongs to, or queues it there. */
  function ViaStep(t: Task, v: nat, th: Thread, accepted: bool): Config
    requires v < |t.vias|
  {
    var via := t.vias[v];
    var t1 := t.(vias := t.vias[v := via.(status := AtFinal)]);
    if !via.continuation.LazyH? then Crashed(Dangling) else
    match via.executor
    case None => Resume(t1, via.continuation.f, th)
    case Some(e) =>
      if via.context.None? then Crashed(BadContext)
      else
        var t2 := t1.(checkins := t.checkins + 1);
        if th == Worker(e, via.context.value) then Resume(t2, via.continuation.f, th)
        else Ok(Enqueued(t2, via.continuation.f, e, via.context, accepted))
  }

  /** await_resume of a child. For its Try: the result is moved out and the child destroyed. For its value: a value is moved out
      and the child destroyed at once; an exception is rethrown first and the awaiter's destructor destroys the child. */
  function TakeChild(t: Task, c: nat, asTry: bool): Config {
    if c >= |t.frames| || !t.frames[c].body.result.Available() then Crashed(NoResult) else
    var handle := if asTry || t.frames[c].body.result.Value? then NoHandle else LazyH(c);
    var t1 :- if handle.NoHandle? then DestroyFrame(t, c) else Ok(t);
    if handle.LazyH? then DestroyFrame(t1, handle.f) else Ok(t1)
  }

  /** `Resuming(f, th)`: the await expression yields its result and its temporaries die. */
  function AwaitResume(t: Task, f: nat, th: Thread): Config
    requires f < |t.frames|
  {
    var fr := t.frames[f];
    match fr.awaiter
    case NoAwait => Crashed(Dangling)
    case ForYield => Ok(Delivered(t, f, false, Value(0), th))
    case ForForeign(v, r) =>
      var t1 :- DestroyVia(t, v);
      Ok(Delivered(t1, f, false, r, th))
    case ForChild(c) =>
      var t1 :- TakeChild(t, c, false);
      Ok(Delivered(t1, f, false, t.frames[c].body.result, th))
    case ForChildVia(c, v, asTry) =>
      var t1 :- TakeChild(t, c, asTry);
      var t2 :- DestroyVia(t1, v);
      Ok(Delivered(t2, f, asTry, t.frames[c].body.result, th))
  }

  function Delivered(t: Task, f: nat, asTry: bool, r: Try<int>, th: Thread): Task {
    if f >= |t.frames| then t else
    WithFrame(t, f, t.frames[f].(body := Deliver(t.frames[f].body, asTry, r), awaiter := NoAwait)).(ctl := Exec(f, th))
  }

  /** The detached coroutine: AwaitResumeTry destroys the root frame, then the callback gets its Try. */
  function RootStep(t: Task): Config {
    if |t.frames| == 0 || !t.frames[0].body.result.Available() then Crashed(NoResult) else
    var t1 :- DestroyFrame(t, 0);
    Ok(t1.(ctl := Over, results := t.results + [t.frames[0].body.result]))
  }

  // ---------------------------------------------------------------- steps

  /** The running thread moves on (`path` is what a foreign awaitable does, `accepted` what an executor answers), worker i
      takes the queued job, or the foreign event happens on some thread. */
  datatype Action = Proceed(path: Path, accepted: bool) | Pick(i: nat) | Fire(th: Thread)

  predicate Enabled(t: Task, a: Action) {
    match t.ctl
    case Starting(_) => a.Proceed? && |t.frames| > 0
    case Exec(f, th) => a.Proceed? && f < |t.frames| && t.stack != []
    case Resuming(f, th) => a.Proceed? && f < |t.frames|
    case ExecVia(v, th) => a.Proceed? && v < |t.vias|
    case Queued(f, e, pin) => a.Pick? && (pin.Some? ==> pin.value == a.i)
    case Dropped(_, _, _) => false
    case Waiting(v) => a.Fire?
    case AtRoot(th) => a.Proceed?
    case Over => false
  }

  function Next(t: Task, a: Action): Config
    requires Enabled(t, a)
  {
    match t.ctl
    case Starting(_) => StartStep(t, a.accepted)
    case Exec(f, th) => BodyStep(t, f, th, a.path, a.accepted)
    case Resuming(f, th) => AwaitResume(t, f, th)
    case ExecVia(v, th) => ViaStep(t, v, th, a.accepted)
    case Queued(f, e, pin) => Resume(t, f, Worker(e, a.i))
    case Dropped(_, _, _) => Ok(t)
    case Waiting(v) => Ok(t.(ctl := ExecVia(v, a.th)))
    case AtRoot(th) => RootStep(t)
    case Over => Ok(t)
  }

  ghost predicate Runs(t: Task, acts: seq<Action>, c: Config)
    decreases |acts|
  {
    if acts == [] then c == Ok(t) else
    Enabled(t, acts[0]) &&
    match Next(t, acts[0])
    case Crashed(_) => c == Next(t, acts[0]) && |acts| == 1
    case Ok(t1) => Runs(t1, acts[1..], c)
  }
}
