/** What co_await, try, Via and Start mean for whole programs, whatever the child coroutine is: the laws that direct evaluation
    obeys, and with it the machine. */
module CoroutineLaws {
  import opened TryModel
  import opened CoroutineCode
  import opened CoroutineMachine
  import opened CoroutineProofs
  import opened CoroutineTheorems

  // ---------------------------------------------------------------- what an await expression does to a body

  /** Result() of a value: it is the value of the expression; AwaitResumeTry of a value: a Try that holds it. */
  lemma {:induction false} ValueIsBound(b: Body, v: int)
    ensures Deliver(b, false, Value(v)) == b.(env := b.env + [v])
    ensures Deliver(b, true, Value(v)) == b.(env := b.env + [0, v])
  {
  }

  /** Result() of an exception rethrows that exception; AwaitResumeTry of one throws nothing and holds it. */
  lemma {:induction false} ExceptionIsRethrown(b: Body, e: Exn, code: int)
    ensures Deliver(b, false, Exception(e)) == Raise(b, e)
    ensures Deliver(b, true, Exception(User(code))) == b.(env := b.env + [1, code])
    ensures Deliver(b, true, Exception(e)).code == b.code && Deliver(b, true, Exception(e)).result == b.result
  {
  }

  /** An exception leaves the blocks up to the innermost try, whose handler gets its payload, or ends the coroutine. */
  lemma {:induction false} RaiseUnwinds(b: Body, e: Exn, h: Code, env: seq<int>, next: Code, n: nat, rest: seq<Block>, code: int)
    ensures b.blocks == [] ==> Raise(b, e) == b.(live := 0, result := Exception(e))
    ensures b.blocks == [InTry(h, env, next, n)] + rest ==>
      Raise(b, User(code)) == Body(h, env + [code], [InCatch(env, next, n)] + rest, if n < b.live then n else b.live, b.result)
    ensures b.blocks == [InCatch(env, next, n)] + rest ==> Raise(b, e) == Raise(b.(blocks := rest), e)
  {
    assert ([InTry(h, env, next, n)] + rest)[1..] == rest && ([InCatch(env, next, n)] + rest)[1..] == rest;
  }

  // ---------------------------------------------------------------- what it means for the parent

  /** The flow of the whole when the child came to `f`, and the parent, if it goes on, goes on with `next`. */
  predicate Passes(whole: Flow, f: Flow, next: Code, env: seq<int>, vars: seq<Val>, ex: ExecutorPtr) {
    match f
    case Returned(v) => whole == Eval(next, env + [v], vars, ex).flow
    case Finished(v) => whole == Eval(next, env + [v], vars, ex).flow
    case Raised(e) => whole == Raised(e)
    case Fails(why) => whole == Fails(why)
  }

  const GONE := Val(false, None)

  lemma {:induction false} AwaitPasses(i: nat, next: Code, env: seq<int>, vars: seq<Val>, ex: ExecutorPtr, f: Flow)
    requires i < |vars| && AwaitFate(ValueOf(i), env, vars, ex) == FateOf(f)
    ensures Passes(Eval(Await(ValueOf(i), next), env, vars, ex).flow, f, next, env, vars[i := vars[i].(coro := None)], ex)
  {
  }

  lemma {:induction false} MakeIs(body: Code, next: Code, env: seq<int>, vars: seq<Val>, ex: ExecutorPtr)
    ensures Eval(Make(body, next), env, vars, ex) == Eval(next, env, vars + [Val(false, Some(Closure(body, env, None)))], ex)
  {
  }

  /** `co_await f()`: the child runs under the parent's executor_; its value goes on in the parent, its exception is the parent's. */
  lemma {:induction false} PlainAwait(body: Code, next: Code, env: seq<int>, vars: seq<Val>, ex: ExecutorPtr)
    ensures Passes(Eval(Make(body, Await(ValueOf(|vars|), next)), env, vars, ex).flow, Eval(body, env, [], ex).flow,
                   next, env, vars + [GONE], ex)
  {
    var all := vars + [Val(false, Some(Closure(body, env, None)))];
    assert all[|vars| := all[|vars|].(coro := None)] == vars + [GONE];
    MakeIs(body, Await(ValueOf(|vars|), next), env, vars, ex);
    var f := Eval(body, env, [], ex).flow;
    assert AwaitFate(ValueOf(|vars|), env, all, ex) == FateOf(f);
    hide Eval, AwaitFate, Passes;
    AwaitPasses(|vars|, next, env, all, ex, f);
  }

  /** `co_await f().CoAwaitTry()`: the child keeps its own executor_, null here; the parent goes on either way. */
  lemma {:induction false} TryAwait(body: Code, next: Code, env: seq<int>, vars: seq<Val>, ex: ExecutorPtr)
    ensures var whole, f := Eval(Make(body, Await(TryOf(|vars|), next)), env, vars, ex).flow, Eval(body, env, [], None).flow;
      && (f.Returned? || f.Finished? ==> whole == Eval(next, env + [0, f.v], vars + [GONE], ex).flow)
      && (f.Raised? && f.e.User? ==> whole == Eval(next, env + [1, f.e.code], vars + [GONE], ex).flow)
      && (f.Fails? ==> whole == f)
  {
    var child := Val(false, Some(Closure(body, env, None)));
    assert Consumed(TryOf(|vars|), vars + [child]) == vars + [GONE];
    assert Eval(Make(body, Await(TryOf(|vars|), next)), env, vars, ex) == Eval(Await(TryOf(|vars|), next), env, vars + [child], ex);
    assert AwaitFate(TryOf(|vars|), env, vars + [child], ex) == FateOf(Eval(body, env, [], None).flow);
  }

  lemma {:induction false} ViaIs(n: nat, e: ExecutorPtr, next: Code, env: seq<int>, vars: seq<Val>, child: Closure, ex: ExecutorPtr)
    requires n == |vars|
    ensures Eval(Via(n, e, next), env, vars + [Val(false, Some(child))], ex) ==
            Eval(next, env, (vars + [GONE]) + [Val(true, Some(child.(ex := e)))], ex)
  {
    assert Emptied(vars + [Val(false, Some(child))], n) == vars + [GONE];
  }

  lemma {:induction false} MoveIs(n: nat, next: Code, env: seq<int>, vars: seq<Val>, child: Closure, ex: ExecutorPtr)
    requires n == |vars|
    ensures Eval(Move(n, next), env, vars + [Val(false, Some(child))], ex) ==
            Eval(next, env, (vars + [GONE]) + [Val(false, Some(child))], ex)
  {
    assert Emptied(vars + [Val(false, Some(child))], n) == vars + [GONE];
  }

  /** `co_await f().Via(e)`: the child runs under e, and never under a null one. */
  lemma {:induction false} ViaAwait(body: Code, e: ExecutorPtr, next: Code, env: seq<int>, vars: seq<Val>, ex: ExecutorPtr)
    ensures var whole := Eval(Make(body, Via(|vars|, e, Await(ValueOf(|vars| + 1), next))), env, vars, ex).flow;
      if e.None? then whole == Fails(NullExecutor)
      else Passes(whole, Eval(body, env, [], e).flow, next, env, (vars + [GONE]) + [Val(true, None)], ex)
  {
    var n := |vars|;
    var both := (vars + [GONE]) + [Val(true, Some(Closure(body, env, e)))];
    MakeIs(body, Via(n, e, Await(ValueOf(n + 1), next)), env, vars, ex);
    ViaIs(n, e, Await(ValueOf(n + 1), next), env, vars, Closure(body, env, None), ex);
    assert both[n + 1 := both[n + 1].(coro := None)] == (vars + [GONE]) + [Val(true, None)];
    var f := if e.None? then Fails(NullExecutor) else Eval(body, env, [], e).flow;
    assert AwaitFate(ValueOf(n + 1), env, both, ex) == FateOf(f);
    hide Eval, AwaitFate;
    AwaitPasses(n + 1, next, env, both, ex, f);
  }

  /** A moved handle is awaited under its new name; under the old one it is a null handle. */
  lemma {:induction false} MovedAwait(body: Code, next: Code, env: seq<int>, vars: seq<Val>, ex: ExecutorPtr)
    ensures Eval(Make(body, Move(|vars|, Await(ValueOf(|vars|), next))), env, vars, ex).flow == Fails(NullHandle)
    ensures Passes(Eval(Make(body, Move(|vars|, Await(ValueOf(|vars| + 1), next))), env, vars, ex).flow, Eval(body, env, [], ex).flow,
                   next, env, (vars + [GONE]) + [GONE], ex)
  {
    var n := |vars|;
    var child := Closure(body, env, None);
    var both := (vars + [GONE]) + [Val(false, Some(child))];
    var stale, renamed := Await(ValueOf(n), next), Await(ValueOf(n + 1), next);
    MakeIs(body, Move(n, stale), env, vars, ex);
    MakeIs(body, Move(n, renamed), env, vars, ex);
    MoveIs(n, stale, env, vars, child, ex);
    MoveIs(n, renamed, env, vars, child, ex);
    assert both[n + 1 := both[n + 1].(coro := None)] == (vars + [GONE]) + [GONE];
    var f := Eval(body, env, [], ex).flow;
    assert AwaitFate(ValueOf(n + 1), env, both, ex) == FateOf(f) && AwaitFate(ValueOf(n), env, both, ex) == FateOf(Fails(NullHandle));
    hide Eval, AwaitFate;
    AwaitPasses(n, next, env, both, ex, Fails(NullHandle));
    AwaitPasses(n + 1, next, env, both, ex, f);
  }

  /** Via of a moved-from Lazy throws the logic_error of its LOGIC_ASSERT. */
  lemma {:induction false} ViaOfMoved(body: Code, e: ExecutorPtr, next: Code, env: seq<int>, vars: seq<Val>, ex: ExecutorPtr)
    ensures Eval(Make(body, Move(|vars|, Via(|vars|, e, next))), env, vars, ex).flow == Raised(LogicError)
  {
    var n := |vars|;
    var child := Val(false, Some(Closure(body, env, None)));
    var both := (vars + [GONE]) + [child];
    assert Emptied(vars + [child], n) == vars + [GONE];
    assert Eval(Make(body, Move(n, Via(n, e, next))), env, vars, ex) == Eval(Move(n, Via(n, e, next)), env, vars + [child], ex)
           == Eval(Via(n, e, next), env, both, ex);
  }

  /** try { body } catch (code) { handler }: a value of either goes on after the block, whose handles are gone; the handler runs
      exactly if the body throws, with the payload of what it throws. */
  lemma {:induction false} TryMeans(body: Code, handler: Code, next: Code, env: seq<int>, vars: seq<Val>, ex: ExecutorPtr)
    ensures var whole, o := Eval(TryCatch(body, handler, next), env, vars, ex).flow, Eval(body, env, vars, ex);
      && (o.flow.Finished? ==> whole == Eval(next, env + [o.flow.v], o.vars[..|vars|], ex).flow)
      && (o.flow.Returned? || o.flow.Fails? ==> whole == o.flow)
      && (o.flow.Raised? && o.flow.e.User? ==>
            var o2 := Eval(handler, env + [o.flow.e.code], o.vars[..|vars|], ex);
            if o2.flow.Finished? then whole == Eval(next, env + [o2.flow.v], o2.vars[..|vars|], ex).flow else whole == o2.flow)
  {
    var o := Eval(body, env, vars, ex);
    assert Take(o.vars, |vars|) == o.vars[..|vars|];
    if o.flow.Raised? {
      var o2 := Eval(handler, env + [Payload(o.flow.e)], Take(o.vars, |vars|), ex);
      assert Take(o2.vars, |vars|) == o2.vars[..|vars|];
    }
  }

  /** So a child's exception can be caught where it is awaited. */
  lemma {:induction false} CaughtAwait(body: Code, code: int, env: seq<int>, vars: seq<Val>, ex: ExecutorPtr)
    requires Eval(body, env, [], ex).flow == Raised(User(code))
    ensures var inside := Make(body, Await(ValueOf(|vars|), Return(Const(0))));
      Eval(TryCatch(inside, Return(Var(|env|)), Return(Const(0))), env, vars, ex).flow == Returned(code)
  {
    var inside := Make(body, Await(ValueOf(|vars|), Return(Const(0))));
    PlainAwait(body, Return(Const(0)), env, vars, ex);
    assert Eval(inside, env, vars, ex).flow == Raised(User(code));
    TryMeans(inside, Return(Var(|env|)), Return(Const(0)), env, vars, ex);
    assert (env + [code])[|env|] == code;
  }

  /** A foreign awaitable gives its value or throws its exception; Yield goes on exactly under an executor. */
  lemma {:induction false} OtherAwaits(x: Exp, next: Code, env: seq<int>, vars: seq<Val>, ex: ExecutorPtr)
    ensures Eval(Await(Foreign(x, false), next), env, vars, ex) == Eval(next, env + [Ev(x, env)], vars, ex)
    ensures Eval(Await(Foreign(x, true), next), env, vars, ex).flow == Raised(User(Ev(x, env)))
    ensures ex.Some? ==> Eval(Await(Yield, next), env, vars, ex) == Eval(next, env + [0], vars, ex)
    ensures ex.None? ==> Eval(Await(Yield, next), env, vars, ex).flow == Fails(NullExecutor)
  {
    assert AwaitFate(Yield, env, vars, ex) == if ex.None? then Doomed(NullExecutor) else Gives(Value(0));
  }

  lemma {:induction false} CurrentIs(env: seq<int>, vars: seq<Val>, ex: ExecutorPtr)
    ensures Eval(Await(Current, Return(Var(|env|))), env, vars, ex).flow == Returned(Encode(ex))
  {
    assert Eval(Await(Current, Return(Var(|env|))), env, vars, ex) == Eval(Return(Var(|env|)), env + [Encode(ex)], vars, ex);
    assert (env + [Encode(ex)])[|env|] == Encode(ex);
  }

  /** CurrentExecutor tells the executors apart, the null one included. */
  lemma {:induction false} CurrentTells(env: seq<int>, vars: seq<Val>, ex: ExecutorPtr, ex1: ExecutorPtr)
    ensures Eval(Await(Current, Return(Var(|env|))), env, vars, ex).flow == Eval(Await(Current, Return(Var(|env|))), env, vars, ex1).flow
            <==> ex == ex1
  {
    hide Eval;
    CurrentIs(env, vars, ex);
    CurrentIs(env, vars, ex1);
  }

  /** A variable is what was bound there, whatever was bound since; addition adds. */
  lemma {:induction false} ExpressionsMean(env: seq<int>, v: int, rest: seq<int>, w: int)
    ensures Ev(Var(|env|), (env + [v]) + rest) == v
    ensures Ev(Plus(Const(w), Var(|env|)), (env + [v]) + rest) == w + v
  {
    assert ((env + [v]) + rest)[|env|] == v;
  }

  /** return, throw and if, of the value of an expression. */
  lemma {:induction false} StatementsMean(v: int, yes: Code, no: Code, env: seq<int>, vars: seq<Val>, ex: ExecutorPtr)
    ensures Eval(Return(Var(|env|)), env + [v], vars, ex).flow == Returned(v)
    ensures Eval(Throw(Var(|env|)), env + [v], vars, ex).flow == Raised(User(v))
    ensures Eval(If(Var(|env|), yes, no), env + [v], vars, ex) == Eval(if v == 0 then no else yes, env + [v], vars, ex)
  {
    ExpressionsMean(env, v, [], 0);
    assert (env + [v]) + [] == env + [v];
  }

  // ---------------------------------------------------------------- and for the callback of Start

  /** When no job is refused and nothing undefined is met, a run that cannot go on has called the callback with a Try that holds
      what the coroutine returned, or the exception it let out. */
  lemma {:induction false} CallbackGets(prog: Code, entry: Entry, th: Thread, acts: seq<Action>, c: Config)
    requires Runs(Initial(prog, entry, th), acts, c) && Complete(c) && (c.Ok? ==> c.t.refusals == 0)
    requires entry != AsReschedule(None)
    ensures var f := Eval(prog, [], [], if entry.AsLazy? then None else entry.ex).flow;
      && (f.Returned? || f.Finished? ==> c.Ok? && c.t.results == [Value(f.v)])
      && (f.Raised? ==> c.Ok? && c.t.results == [Exception(f.e)])
      && (f.Fails? ==> c == Crashed(f.why))
  {
    hide Runs, Complete;
    CrashesExactly(prog, entry, th, acts, c);
    ComputesEval(prog, entry, th, acts, c);
  }

  /** A child's exception that the parent does not catch reaches the callback. */
  lemma {:induction false} ThrownReachesTheCallback(body: Code, next: Code, e: Exn, th: Thread, acts: seq<Action>, c: Config)
    requires Eval(body, [], [], None).flow == Raised(e)
    requires Runs(Initial(Make(body, Await(ValueOf(0), next)), AsLazy, th), acts, c) && Complete(c) && (c.Ok? ==> c.t.refusals == 0)
    ensures c.Ok? && c.t.results == [Exception(e)]
  {
    var none: seq<Val> := [];
    PlainAwait(body, next, [], none, None);
    hide Eval, Runs, Complete;
    CallbackGets(Make(body, Await(ValueOf(0), next)), AsLazy, th, acts, c);
  }
}
