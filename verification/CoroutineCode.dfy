/** Coroutine bodies as first-order programs, their direct evaluation, and one frame of a running body. */
module CoroutineCode {
  import opened TryModel
  import opened Tallies

  /** Values flow through an environment of the values bound so far, addressed from the outermost one. */
  datatype Exp = Const(n: int) | Var(i: nat) | Plus(a: Exp, b: Exp)

  function Ev(x: Exp, env: seq<int>): int {
    match x
    case Const(n) => n
    case Var(i) => if i < |env| then env[i] else 0
    case Plus(a, b) => Ev(a, env) + Ev(b, env)
  }

  type ExecutorPtr = Option<nat>

  /** `Return` is co_return, out of any enclosing try; `Finish` ends a block with a value: a try block or handler then
      goes on with what follows it, the body of the coroutine returns.

      Handles are local variables, numbered in order of declaration; those of a block die with it, the last one first. `Make` calls a
      coroutine function: `auto x = f()`. `Move` is `auto x = std::move(x_i)`, `Via` is `auto x = std::move(x_i).Via(ex)`. */
  datatype Code =
    | Return(x: Exp)
    | Throw(x: Exp)
    | Finish(x: Exp)
    | If(x: Exp, yes: Code, no: Code)
    | TryCatch(body: Code, handler: Code, next: Code)
    | Make(body: Code, next: Code)
    | Move(i: nat, next: Code)
    | Via(i: nat, ex: ExecutorPtr, next: Code)
    | Await(what: Awaitable, next: Code)

  datatype Awaitable =
    | ValueOf(i: nat)                    // co_await x_i: the value, or the exception thrown
    | TryOf(i: nat)                      // co_await x_i.CoAwaitTry(): which of the two, and its payload
    | Foreign(x: Exp, fails: bool)       // an awaitable without CoAwait, resumed by whoever completes it
    | Yield
    | Current                            // co_await CurrentExecutor{}

  // ---------------------------------------------------------------- direct recursive evaluation

  /** What must never happen: undefined behaviour of the library. The last two are not programs: there is no variable x_i,
      or it has no Via. */
  datatype Fault =
    | NullExecutor | NullHandle
    | BadContext | NotSuspended | Dangling | NoResult | BadDestroy
    | NoVariable | NotLazy

  /** A coroutine that was created and not started, `ex` being its executor_. */
  datatype Closure = Closure(body: Code, env: seq<int>, ex: ExecutorPtr)

  /** A Lazy or a RescheduleLazy; moved-from if it has no coroutine. */
  datatype Val = Val(resched: bool, coro: Option<Closure>)

  datatype Flow = Returned(v: int) | Raised(e: Exn) | Finished(v: int) | Fails(why: Fault)

  /** How a piece of code ends, and the handles then in scope. */
  datatype Outcome = Outcome(flow: Flow, vars: seq<Val>)

  /** What a whole coroutine comes to. */
  datatype Fate = Gives(t: Try<int>) | Doomed(why: Fault)

  function FateOf(o: Flow): Fate {
    match o
    case Returned(v) => Gives(Value(v))
    case Finished(v) => Gives(Value(v))
    case Raised(e) => Gives(Exception(e))
    case Fails(why) => Doomed(why)
  }

  /** What an await expression hands over: values are bound, or an exception is thrown. */
  datatype Handover = Bound(vs: seq<int>) | Thrown(e: Exn)

  function Payload(e: Exn): int {
    match e
    case User(code) => code
    case LogicError => -1
    case BrokenPromise => -2
  }

  function HandOver(asTry: bool, t: Try<int>): Handover {
    match t
    case Value(v) => Bound(if asTry then [0, v] else [v])
    case Exception(e) => if asTry then Bound([1, Payload(e)]) else Thrown(e)
    case Nothing => Thrown(LogicError)
  }

  function Encode(ex: ExecutorPtr): int {
    match ex
    case None => 0
    case Some(e) => e + 1
  }

  function Take<T>(s: seq<T>, n: nat): (r: seq<T>)
    ensures |r| == if n < |s| then n else |s|
  {
    if n < |s| then s[..n] else s
  }

  function Min(a: nat, b: nat): nat {
    if a < b then a else b
  }

  lemma TakeTake<T>(s: seq<T>, m: nat, n: nat)
    ensures Take(Take(s, m), n) == Take(s, Min(n, m))
  {
  }

  /** Variable i has been moved from. */
  function Emptied(vars: seq<Val>, i: nat): (r: seq<Val>)
    requires i < |vars|
    ensures |r| == |vars|
  {
    vars[i := vars[i].(coro := None)]
  }

  function Consumed(what: Awaitable, vars: seq<Val>): (r: seq<Val>)
    ensures |r| == |vars|
  {
    match what
    case ValueOf(i) => if i < |vars| then Emptied(vars, i) else vars
    case TryOf(i) => if i < |vars| then Emptied(vars, i) else vars
    case _ => vars
  }

  /** What Via returns. */
  function AfterVia(v: Val, ex: ExecutorPtr): Val
    requires v.coro.Some?
  {
    Val(true, Some(v.coro.value.(ex := ex)))
  }

  function Eval(c: Code, env: seq<int>, vars: seq<Val>, ex: ExecutorPtr): (r: Outcome)
    ensures |r.vars| >= |vars| && ValsSize(r.vars) + 1 <= ValsSize(vars) + Size(c)
    decreases ValsSize(vars) + Size(c)
  {
    match c
    case Return(x) => Outcome(Returned(Ev(x, env)), vars)
    case Throw(x) => Outcome(Raised(User(Ev(x, env))), vars)
    case Finish(x) => Outcome(Finished(Ev(x, env)), vars)
    case If(x, yes, no) => if Ev(x, env) != 0 then Eval(yes, env, vars, ex) else Eval(no, env, vars, ex)
    case Make(body, next) =>
      var v := Val(false, Some(Closure(body, env, None)));
      TallyPush(vars, v, ValSize);
      Eval(next, env, vars + [v], ex)
    case Move(i, next) =>
      if i >= |vars| then Outcome(Fails(NoVariable), vars) else
      MovedSize(vars, i, vars[i]);
      Eval(next, env, Emptied(vars, i) + [vars[i]], ex)
    case Via(i, e, next) =>
      if i >= |vars| then Outcome(Fails(NoVariable), vars)
      else if vars[i].resched then Outcome(Fails(NotLazy), vars)
      else if vars[i].coro.None? then Outcome(Raised(LogicError), vars)
      else
        MovedSize(vars, i, AfterVia(vars[i], e));
        Eval(next, env, Emptied(vars, i) + [AfterVia(vars[i], e)], ex)
    case Await(what, next) =>
      ConsumedSize(what, vars);
      (match AwaitFate(what, env, vars, ex)
       case Doomed(why) => Outcome(Fails(why), Consumed(what, vars))
       case Gives(t) =>
         match HandOver(what.TryOf?, t)
         case Thrown(e) => Outcome(Raised(e), Consumed(what, vars))
         case Bound(vs) => Eval(next, env + vs, Consumed(what, vars), ex))
    case TryCatch(body, handler, next) =>
      var o := Eval(body, env, vars, ex);
      TakeSize(o.vars, |vars|);
      match o.flow
      case Finished(v) => Eval(next, env + [v], Take(o.vars, |vars|), ex)
      case Raised(e) =>
        (var o2 := Eval(handler, env + [Payload(e)], Take(o.vars, |vars|), ex);
         TakeSize(o2.vars, |vars|);
         match o2.flow
         case Finished(v) => Eval(next, env + [v], Take(o2.vars, |vars|), ex)
         case _ => o2)
      case _ => o
  }

  /** What an await expression comes to. A Lazy that is awaited for its value is given the executor_ of the awaiting coroutine; in all
      other cases a coroutine keeps its own. */
  function AwaitFate(what: Awaitable, env: seq<int>, vars: seq<Val>, ex: ExecutorPtr): Fate
    decreases ValsSize(vars) + 2
  {
    match what
    case ValueOf(i) =>
      if i < |vars| && vars[i].coro.Some? then ChildFate(vars, i, if vars[i].resched then vars[i].coro.value.ex else ex)
      else Doomed(if i < |vars| then NullHandle else NoVariable)
    case TryOf(i) =>
      if i < |vars| && vars[i].coro.Some? then ChildFate(vars, i, vars[i].coro.value.ex)
      else Doomed(if i < |vars| then NullHandle else NoVariable)
    case Foreign(x, fails) => Gives(ForeignResult(x, fails, env))
    case Yield => if ex.None? then Doomed(NullExecutor) else Gives(Value(0))
    case Current => Gives(Value(Encode(ex)))
  }

  /** The coroutine behind x_i, run under `ex`; a RescheduleLazy schedules it there. */
  function ChildFate(vars: seq<Val>, i: nat, ex: ExecutorPtr): Fate
    requires i < |vars| && vars[i].coro.Some?
    decreases ValsSize(vars) + 1
  {
    TallyAtLeast(vars, i, ValSize);
    if vars[i].resched && ex.None? then Doomed(NullExecutor)
    else FateOf(Eval(vars[i].coro.value.body, vars[i].coro.value.env, [], ex).flow)
  }

  function ForeignResult(x: Exp, fails: bool, env: seq<int>): Try<int> {
    if fails then Exception(User(Ev(x, env))) else Value(Ev(x, env))
  }

  // ---------------------------------------------------------------- how much is left to do

  function Size(c: Code): (n: nat)
    ensures n >= 1
  {
    match c
    case Return(_) => 1
    case Throw(_) => 1
    case Finish(_) => 1
    case If(_, yes, no) => 1 + Size(yes) + Size(no)
    case TryCatch(body, handler, next) => 5 + Size(body) + Size(handler) + Size(next)
    case Make(body, next) => 10 + Size(body) + Size(next)
    case Move(_, next) => 5 + Size(next)
    case Via(_, _, next) => 5 + Size(next)
    case Await(_, next) => 40 + Size(next)
  }

  function ValSize(v: Val): nat {
    3 + if v.coro.Some? then 1 + Size(v.coro.value.body) else 0
  }

  function ValsSize(vars: seq<Val>): nat {
    Tally(vars, ValSize)
  }

  lemma {:induction false} TakeSize(vars: seq<Val>, n: nat)
    ensures ValsSize(Take(vars, n)) <= ValsSize(vars)
  {
    if n < |vars| {
      assert vars == vars[..n] + vars[n..];
      TallyAppend(vars[..n], vars[n..], ValSize);
    }
  }

  lemma {:induction false} EmptiedSize(vars: seq<Val>, i: nat)
    requires i < |vars|
    ensures ValsSize(Emptied(vars, i)) == ValsSize(vars) - ValSize(vars[i]) + 3
  {
    TallyUpdate(vars, i, vars[i].(coro := None), ValSize);
  }

  lemma {:induction false} ConsumedSize(what: Awaitable, vars: seq<Val>)
    ensures ValsSize(Consumed(what, vars)) <= ValsSize(vars)
  {
    match what
    case ValueOf(i) => if i < |vars| { EmptiedSize(vars, i); }
    case TryOf(i) => if i < |vars| { EmptiedSize(vars, i); }
    case _ =>
  }

  /** x_i is moved into a new variable. */
  lemma {:induction false} MovedSize(vars: seq<Val>, i: nat, v: Val)
    requires i < |vars| && ValSize(v) == ValSize(vars[i])
    ensures ValsSize(Emptied(vars, i) + [v]) == ValsSize(vars) + 3
  {
    EmptiedSize(vars, i);
    TallyPush(Emptied(vars, i), v, ValSize);
  }

  // ---------------------------------------------------------------- one frame

  /** What follows the block being executed: the try block's handler and successor, or the handler's successor. Of the variables the
      first `n` outlive the block. */
  datatype Block =
    | InTry(handler: Code, env: seq<int>, next: Code, n: nat)
    | InCatch(env: seq<int>, next: Code, n: nat)

  /** The running body of one coroutine: `result` is set by return_value or unhandled_exception; the variables beyond the first `live` have
      gone out of scope and are destroyed next. */
  datatype Body = Body(code: Code, env: seq<int>, blocks: seq<Block>, live: nat, result: Try<int>)

  function Fresh(c: Code, env: seq<int>): Body {
    Body(c, env, [], 0, Nothing)
  }

  /** An exception unwinds to the innermost try block. */
  function Raise(b: Body, e: Exn): (b1: Body)
    ensures b1.live <= b.live
    decreases |b.blocks|
  {
    if b.blocks == [] then b.(live := 0, result := Exception(e)) else
    match b.blocks[0]
    case InTry(h, env, next, n) => Body(h, env + [Payload(e)], [InCatch(env, next, n)] + b.blocks[1..], Min(n, b.live), b.result)
    case InCatch(_, _, _) => Raise(b.(blocks := b.blocks[1..]), e)
  }

  predicate IsLocal(c: Code) {
    c.Return? || c.Throw? || c.Finish? || c.If? || c.TryCatch?
  }

  /** One step that neither awaits nor declares anything. */
  function LocalStep(b: Body): (b1: Body)
    requires IsLocal(b.code)
    ensures b1.live <= b.live
  {
    match b.code
    case Return(x) => b.(blocks := [], live := 0, result := Value(Ev(x, b.env)))
    case Throw(x) => Raise(b, User(Ev(x, b.env)))
    case Finish(x) =>
      if b.blocks == [] then b.(live := 0, result := Value(Ev(x, b.env)))
      else b.(code := b.blocks[0].next, env := b.blocks[0].env + [Ev(x, b.env)], blocks := b.blocks[1..], live := Min(b.blocks[0].n, b.live))
    case If(x, yes, no) => b.(code := if Ev(x, b.env) != 0 then yes else no)
    case TryCatch(body, handler, next) =>
      b.(code := body, blocks := [InTry(handler, b.env, next, b.live)] + b.blocks)
  }

  /** One more variable is in scope. */
  function Declared(b: Body): Body
    requires b.code.Make? || b.code.Move? || b.code.Via?
  {
    b.(code := b.code.next, live := b.live + 1)
  }

  /** The await expression before `b.code` hands over `t`. */
  function Deliver(b: Body, asTry: bool, t: Try<int>): (b1: Body)
    ensures b1.live <= b.live
  {
    match HandOver(asTry, t)
    case Bound(vs) => b.(env := b.env + vs)
    case Thrown(e) => Raise(b, e)
  }

  // ---------------------------------------------------------------- what a frame will compute

  function Plug(o: Outcome, blocks: seq<Block>, ex: ExecutorPtr): Flow
    decreases |blocks|, if blocks != [] && blocks[0].InTry? then 1 else 0
  {
    if blocks == [] then o.flow else
    match blocks[0]
    case InTry(h, env, next, n) =>
      (match o.flow
       case Finished(v) => Plug(Eval(next, env + [v], Take(o.vars, n), ex), blocks[1..], ex)
       case Raised(e) => Plug(Eval(h, env + [Payload(e)], Take(o.vars, n), ex), [InCatch(env, next, n)] + blocks[1..], ex)
       case _ => o.flow)
    case InCatch(env, next, n) =>
      match o.flow
      case Finished(v) => Plug(Eval(next, env + [v], Take(o.vars, n), ex), blocks[1..], ex)
      case Raised(e) => Plug(o, blocks[1..], ex)
      case _ => o.flow
  }

  function Meaning(b: Body, vars: seq<Val>, ex: ExecutorPtr): Fate {
    if b.result.Available() then Gives(b.result) else FateOf(Plug(Eval(b.code, b.env, Take(vars, b.live), ex), b.blocks, ex))
  }

  /** What the frame will compute once its pending await expression comes to `r`. */
  function MeaningAfter(b: Body, vars: seq<Val>, asTry: bool, r: Fate, ex: ExecutorPtr): Fate {
    match r
    case Doomed(why) => r
    case Gives(t) =>
      match HandOver(asTry, t)
      case Bound(vs) => FateOf(Plug(Eval(b.code, b.env + vs, Take(vars, b.live), ex), b.blocks, ex))
      case Thrown(e) => FateOf(Plug(Outcome(Raised(e), Take(vars, b.live)), b.blocks, ex))
  }

  lemma {:induction false} PlugEnds(o: Outcome, blocks: seq<Block>, ex: ExecutorPtr)
    requires o.flow.Returned? || o.flow.Fails?
    ensures Plug(o, blocks, ex) == o.flow
  {
  }

  lemma {:induction false} RaiseMeans(b: Body, vars: seq<Val>, e: Exn, ex: ExecutorPtr)
    requires b.result == Nothing
    ensures Meaning(Raise(b, e), vars, ex) == FateOf(Plug(Outcome(Raised(e), Take(vars, b.live)), b.blocks, ex))
    decreases |b.blocks|
  {
    if b.blocks != [] {
      TakeTake(vars, b.live, b.blocks[0].n);
      if b.blocks[0].InCatch? {
        RaiseMeans(b.(blocks := b.blocks[1..]), vars, e, ex);
      }
    }
  }

  /** Entering and leaving blocks, tests, returning and throwing compute what direct evaluation does. */
  lemma {:induction false} LocalStepMeans(b: Body, vars: seq<Val>, ex: ExecutorPtr)
    requires IsLocal(b.code) && b.result == Nothing && b.live <= |vars|
    ensures Meaning(LocalStep(b), vars, ex) == Meaning(b, vars, ex)
  {
    var vs := Take(vars, b.live);
    match b.code
    case Return(x) => PlugEnds(Outcome(Returned(Ev(x, b.env)), vs), b.blocks, ex);
    case Throw(x) => RaiseMeans(b, vars, User(Ev(x, b.env)), ex);
    case Finish(x) => if b.blocks != [] { TakeTake(vars, b.live, b.blocks[0].n); }
    case If(_, _, _) =>
    case TryCatch(_, _, _) => TryCatchMeans(b, vars, ex);
  }

  lemma {:induction false} TryCatchMeans(b: Body, vars: seq<Val>, ex: ExecutorPtr)
    requires b.code.TryCatch? && b.result == Nothing && b.live <= |vars|
    ensures Meaning(LocalStep(b), vars, ex) == Meaning(b, vars, ex)
  {
    var handler, next, vs := b.code.handler, b.code.next, Take(vars, b.live);
    var blocks := [InTry(handler, b.env, next, b.live)] + b.blocks;
    assert blocks[0] == InTry(handler, b.env, next, b.live) && blocks[1..] == b.blocks && |vs| == b.live;
    var o := Eval(b.code.body, b.env, vs, ex);
    match o.flow {
      case Finished(v) =>
      case Raised(e) =>
        var rest := [InCatch(b.env, next, b.live)] + b.blocks;
        assert rest[0] == InCatch(b.env, next, b.live) && rest[1..] == b.blocks;
        var o2 := Eval(handler, b.env + [Payload(e)], Take(o.vars, b.live), ex);
        assert Plug(o, blocks, ex) == Plug(o2, rest, ex);
        if o2.flow.Returned? || o2.flow.Fails? { PlugEnds(o2, b.blocks, ex); }
      case _ => PlugEnds(o, b.blocks, ex); PlugEnds(o, blocks, ex);
    }
  }

  lemma {:induction false} DeliverMeans(b: Body, vars: seq<Val>, asTry: bool, t: Try<int>, ex: ExecutorPtr)
    requires b.result == Nothing
    ensures Meaning(Deliver(b, asTry, t), vars, ex) == MeaningAfter(b, vars, asTry, Gives(t), ex)
  {
    match HandOver(asTry, t)
    case Thrown(e) => RaiseMeans(b, vars, e, ex);
    case _ =>
  }

  lemma {:induction false} AwaitMeans(b: Body, vars: seq<Val>, ex: ExecutorPtr)
    requires b.code.Await? && b.result == Nothing && b.live == |vars|
    ensures Meaning(b, vars, ex) ==
      MeaningAfter(b.(code := b.code.next), Consumed(b.code.what, vars), b.code.what.TryOf?, AwaitFate(b.code.what, b.env, vars, ex), ex)
  {
    var r := AwaitFate(b.code.what, b.env, vars, ex);
    if r.Doomed? { PlugEnds(Outcome(Fails(r.why), Consumed(b.code.what, vars)), b.blocks, ex); }
  }

  lemma {:induction false} MakeMeans(b: Body, vars: seq<Val>, ex: ExecutorPtr)
    requires b.code.Make? && b.result == Nothing && b.live == |vars|
    ensures Meaning(Declared(b), vars + [Val(false, Some(Closure(b.code.body, b.env, None)))], ex) == Meaning(b, vars, ex)
  {
  }

  lemma {:induction false} MoveMeans(b: Body, vars: seq<Val>, ex: ExecutorPtr)
    requires b.code.Move? && b.result == Nothing && b.live == |vars| && b.code.i < |vars|
    ensures Meaning(Declared(b), Emptied(vars, b.code.i) + [vars[b.code.i]], ex) == Meaning(b, vars, ex)
  {
  }

  lemma {:induction false} ViaMeans(b: Body, vars: seq<Val>, ex: ExecutorPtr)
    requires b.code.Via? && b.result == Nothing && b.live == |vars| && b.code.i < |vars| && !vars[b.code.i].resched
    ensures var v := vars[b.code.i];
      Meaning(b, vars, ex) ==
      if v.coro.None? then Meaning(Raise(b, LogicError), vars, ex)
      else Meaning(Declared(b), Emptied(vars, b.code.i) + [AfterVia(v, b.code.ex)], ex)
  {
    if vars[b.code.i].coro.None? { RaiseMeans(b, vars, LogicError, ex); }
  }

  /** Code that cannot be executed dooms the coroutine. */
  lemma {:induction false} FailureMeans(b: Body, vars: seq<Val>, ex: ExecutorPtr, why: Fault)
    requires b.result == Nothing && Eval(b.code, b.env, Take(vars, b.live), ex).flow == Fails(why)
    ensures Meaning(b, vars, ex) == Doomed(why)
  {
    PlugEnds(Eval(b.code, b.env, Take(vars, b.live), ex), b.blocks, ex);
  }

  // ---------------------------------------------------------------- how much a frame has left to do

  function BlocksSize(blocks: seq<Block>): nat {
    if blocks == [] then 0 else
    BlocksSize(blocks[1..]) +
    match blocks[0]
    case InTry(h, _, next, _) => 4 + Size(h) + Size(next)
    case InCatch(_, next, _) => 2 + Size(next)
  }

  function BodySize(b: Body): nat {
    if b.result.Available() then 0 else 5 + Size(b.code) + BlocksSize(b.blocks)
  }

  lemma {:induction false} RaiseShrinks(b: Body, e: Exn)
    requires b.result == Nothing
    ensures BodySize(Raise(b, e)) < BodySize(b)
    decreases |b.blocks|
  {
    if b.blocks != [] {
      match b.blocks[0]
      case InTry(h, env, next, n) =>
        var blocks := [InCatch(env, next, n)] + b.blocks[1..];
        assert blocks[0] == InCatch(env, next, n) && blocks[1..] == b.blocks[1..];
      case InCatch(_, _, _) => RaiseShrinks(b.(blocks := b.blocks[1..]), e);
    }
  }

  lemma {:induction false} LocalStepShrinks(b: Body)
    requires IsLocal(b.code) && b.result == Nothing
    ensures BodySize(LocalStep(b)) < BodySize(b)
  {
    match b.code
    case Throw(x) => RaiseShrinks(b, User(Ev(x, b.env)));
    case TryCatch(body, handler, next) =>
      var blocks := [InTry(handler, b.env, next, b.live)] + b.blocks;
      assert blocks[0] == InTry(handler, b.env, next, b.live) && blocks[1..] == b.blocks;
    case _ =>
  }

  lemma {:induction false} DeliverDoesNotGrow(b: Body, asTry: bool, t: Try<int>)
    requires b.result == Nothing
    ensures BodySize(Deliver(b, asTry, t)) <= BodySize(b)
  {
    match HandOver(asTry, t)
    case Thrown(e) => RaiseShrinks(b, e);
    case _ =>
  }
}
