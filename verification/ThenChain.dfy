/** Chains of ThenTry and ThenValue: what they compute, and how ready futures and futures set later come to compute it. */
module ThenChain {
  import opened TryModel

  /** A result: a value or an exception. */
  type Full = t: Try<int> | t.Available() witness Value(0)

  type Env = seq<Full>

  /** Functions of the captured variables; a callback finds its argument last. */
  type ValueOf = Env -> int
  type ErrorOf = Env -> Exn
  type ResultOf = Env -> Full
  type TestOf = Env -> bool

  datatype Kind = Local | AlreadySet | SetLater

  /** A future with the callbacks chained to it. */
  datatype Chain =
    | Source(kind: Kind, result: ResultOf)
    | Then(prev: Chain, cb: Callback)

  /** ThenTry if `onTry`, ThenValue otherwise. */
  datatype Callback = Callback(id: nat, onTry: bool, body: Body)

  datatype Body =
    | Return(v: ValueOf)
    | Throw(e: ErrorOf)
    | Branch(test: TestOf, yes: Body, no: Body)
    | Future(chain: Chain)

  // ---------------------------------------------------------------- direct evaluation

  datatype Call = Call(id: nat, arg: Full)

  /** A result and the callbacks run to get it. */
  datatype Outcome = Outcome(t: Full, log: seq<Call>)

  function Eval(ch: Chain, env: Env): Outcome {
    match ch
    case Source(_, result) => Outcome(result(env), [])
    case Then(prev, cb) =>
      var r := Eval(prev, env);
      var q := EvalCallback(cb, r.t, env);
      Outcome(q.t, r.log + q.log)
  }

  /** ThenValue passes an exception on without running the callback. */
  predicate Skips(cb: Callback, t: Full) {
    !cb.onTry && t.Exception?
  }

  function EvalCallback(cb: Callback, t: Full, env: Env): Outcome {
    if Skips(cb, t) then Outcome(t, []) else
    var r := EvalBody(cb.body, env + [t]);
    Outcome(r.t, [Call(cb.id, t)] + r.log)
  }

  function EvalBody(b: Body, env: Env): Outcome {
    match b
    case Return(v) => Outcome(Value(v(env)), [])
    case Throw(e) => Outcome(Exception(e(env)), [])
    case Branch(test, yes, no) => if test(env) then EvalBody(yes, env) else EvalBody(no, env)
    case Future(chain) => Eval(chain, env)
  }

  // ---------------------------------------------------------------- the laws of ThenTry and ThenValue

  /** ThenValue does not run its callback on an exception: it passes the exception on. */
  lemma {:induction false} ThenValuePassesExceptions(prev: Chain, id: nat, b: Body, env: Env)
    requires Eval(prev, env).t.Exception?
    ensures Eval(Then(prev, Callback(id, false, b)), env) == Eval(prev, env)
  {
    var r := Eval(prev, env);
    assert r.log + [] == r.log;
  }

  /** ThenTry runs its callback on whatever result there is. */
  lemma {:induction false} ThenTryRuns(prev: Chain, id: nat, b: Body, env: Env)
    ensures var r := Eval(prev, env);
      Calls(Eval(Then(prev, Callback(id, true, b)), env), r.log + [Call(id, r.t)], b, env + [r.t])
  {
    CallbackRuns(prev, Callback(id, true, b), env);
  }

  /** ThenValue runs its callback on a value. */
  lemma {:induction false} ThenValueRuns(prev: Chain, id: nat, b: Body, env: Env)
    requires Eval(prev, env).t.Value?
    ensures var r := Eval(prev, env);
      Calls(Eval(Then(prev, Callback(id, false, b)), env), r.log + [Call(id, r.t)], b, env + [r.t])
  {
    CallbackRuns(prev, Callback(id, false, b), env);
  }

  /** The chain comes to what the callback gives, after the calls in `before`: the value it returns, the exception it throws, or
      the result of the future it returns, whose callbacks run next. */
  predicate Calls(whole: Outcome, before: seq<Call>, b: Body, env: Env)
    decreases b
  {
    match b
    case Return(v) => whole == Outcome(Value(v(env)), before)
    case Throw(e) => whole == Outcome(Exception(e(env)), before)
    case Branch(test, yes, no) => if test(env) then Calls(whole, before, yes, env) else Calls(whole, before, no, env)
    case Future(Source(_, result)) => whole == Outcome(result(env), before)
    case Future(chain) => whole.t == Eval(chain, env).t && whole.log == before + Eval(chain, env).log
  }

  lemma {:induction false} BodyCalls(b: Body, env: Env, before: seq<Call>)
    ensures var r := EvalBody(b, env); Calls(Outcome(r.t, before + r.log), before, b, env)
    decreases b
  {
    assert before + [] == before;
    match b
    case Branch(_, yes, no) => BodyCalls(yes, env, before); BodyCalls(no, env, before);
    case _ =>
  }

  lemma {:induction false} CallbackRuns(prev: Chain, cb: Callback, env: Env)
    requires cb.onTry || Eval(prev, env).t.Value?
    ensures var r := Eval(prev, env);
      Calls(Eval(Then(prev, cb), env), r.log + [Call(cb.id, r.t)], cb.body, env + [r.t])
  {
    var r := Eval(prev, env);
    var q := EvalBody(cb.body, env + [r.t]);
    assert r.log + ([Call(cb.id, r.t)] + q.log) == (r.log + [Call(cb.id, r.t)]) + q.log;
    BodyCalls(cb.body, env + [r.t], r.log + [Call(cb.id, r.t)]);
  }

  // ---------------------------------------------------------------- kinds do not matter

  function Erase(ch: Chain): Chain {
    match ch
    case Source(_, result) => Source(Local, result)
    case Then(prev, cb) => Then(Erase(prev), EraseCallback(cb))
  }

  function EraseCallback(cb: Callback): Callback {
    cb.(body := EraseBody(cb.body))
  }

  function EraseBody(b: Body): Body {
    match b
    case Branch(test, yes, no) => Branch(test, EraseBody(yes), EraseBody(no))
    case Future(chain) => Future(Erase(chain))
    case _ => b
  }

  lemma {:induction false} EraseKeepsEval(ch: Chain, env: Env)
    ensures Eval(Erase(ch), env) == Eval(ch, env)
  {
    if ch.Then? {
      EraseKeepsEval(ch.prev, env);
      EraseKeepsBody(ch.cb.body, env + [Eval(ch.prev, env).t]);
    }
  }

  lemma {:induction false} EraseKeepsBody(b: Body, env: Env)
    ensures EvalBody(EraseBody(b), env) == EvalBody(b, env)
  {
    match b
    case Branch(_, yes, no) => EraseKeepsBody(yes, env); EraseKeepsBody(no, env);
    case Future(chain) => EraseKeepsEval(chain, env);
    case _ =>
  }

  // ---------------------------------------------------------------- associativity

  function Cut(env: Env, n: nat): Env {
    if n < |env| then env[..n] + env[n + 1..] else env
  }

  /** The same callback in a place where one more variable, number n, is in scope. */
  function Shift(cb: Callback, n: nat): Callback {
    cb.(body := ShiftBody(cb.body, n))
  }

  function ShiftBody(b: Body, n: nat): Body {
    match b
    case Return(v) => Return((env: Env) => v(Cut(env, n)))
    case Throw(e) => Throw((env: Env) => e(Cut(env, n)))
    case Branch(test, yes, no) => Branch((env: Env) => test(Cut(env, n)), ShiftBody(yes, n), ShiftBody(no, n))
    case Future(chain) => Future(ShiftChain(chain, n))
  }

  function ShiftChain(ch: Chain, n: nat): Chain {
    match ch
    case Source(kind, result) => Source(kind, (env: Env) => result(Cut(env, n)))
    case Then(prev, cb) => Then(ShiftChain(prev, n), Shift(cb, n))
  }

  lemma {:induction false} ShiftMeans(cb: Callback, n: nat, t: Full, env: Env)
    requires n < |env|
    ensures EvalCallback(Shift(cb, n), t, env) == EvalCallback(cb, t, Cut(env, n))
    decreases cb
  {
    assert Cut(env + [t], n) == Cut(env, n) + [t];
    ShiftBodyMeans(cb.body, n, env + [t]);
  }

  lemma {:induction false} ShiftBodyMeans(b: Body, n: nat, env: Env)
    requires n < |env|
    ensures EvalBody(ShiftBody(b, n), env) == EvalBody(b, Cut(env, n))
    decreases b
  {
    match b
    case Branch(_, yes, no) => ShiftBodyMeans(yes, n, env); ShiftBodyMeans(no, n, env);
    case Future(chain) => ShiftChainMeans(chain, n, env);
    case _ =>
  }

  lemma {:induction false} ShiftChainMeans(ch: Chain, n: nat, env: Env)
    requires n < |env|
    ensures Eval(ShiftChain(ch, n), env) == Eval(ch, Cut(env, n))
    decreases ch
  {
    if ch.Then? {
      ShiftChainMeans(ch.prev, n, env);
      ShiftMeans(ch.cb, n, Eval(ch.prev, Cut(env, n)).t, env);
    }
  }

  /** A callback that returns a future, unless it throws. */
  predicate ReturnsFuture(b: Body) {
    match b
    case Return(_) => false
    case Throw(_) => true
    case Branch(_, yes, no) => ReturnsFuture(yes) && ReturnsFuture(no)
    case Future(_) => true
  }

  predicate Throws(b: Body, env: Env) {
    match b
    case Throw(_) => true
    case Branch(test, yes, no) => if test(env) then Throws(yes, env) else Throws(no, env)
    case _ => false
  }

  /** `g` chained to the future inside the callback that returns it. */
  function Nest(b: Body, g: Callback): Body {
    match b
    case Branch(test, yes, no) => Branch(test, Nest(yes, g), Nest(no, g))
    case Future(chain) => Future(Then(chain, g))
    case _ => b
  }

  lemma {:induction false} NestMeans(b: Body, g: Callback, env: Env)
    requires ReturnsFuture(b)
    ensures var r := EvalBody(b, env);
      EvalBody(Nest(b, g), env) ==
      (if Throws(b, env) then r else Outcome(EvalCallback(g, r.t, env).t, r.log + EvalCallback(g, r.t, env).log))
    ensures Throws(b, env) ==> EvalBody(b, env).t.Exception? && EvalBody(b, env).log == []
  {
    if b.Branch? {
      if b.test(env) { NestMeans(b.yes, g, env); } else { NestMeans(b.no, g, env); }
    }
  }

  /** (m.Then(f)).Then(g) and m.Then(x => f(x).Then(g)). */
  function Flat(m: Chain, f: Callback, g: Callback): Chain {
    Then(Then(m, f), g)
  }

  function Nested(m: Chain, f: Callback, g: Callback, env: Env): Chain {
    Then(m, f.(body := Nest(f.body, Shift(g, |env|))))
  }

  /** Nested future-returning binds are associative, running the same callbacks on the same arguments for the same result,
      exactly when g is a ThenValue, or f is run and returns a future; a ThenTry also sees the exception of an f that threw
      instead, or was skipped. */
  lemma {:induction false} AssociativeExactly(m: Chain, f: Callback, g: Callback, env: Env)
    requires ReturnsFuture(f.body)
    ensures var t := Eval(m, env).t;
      Eval(Flat(m, f, g), env) == Eval(Nested(m, f, g, env), env) <==>
      !g.onTry || (!Skips(f, t) && !Throws(f.body, env + [t]))
  {
    var r := Eval(m, env);
    var inner := env + [r.t];
    assert Cut(inner, |env|) == env;
    NestMeans(f.body, Shift(g, |env|), inner);
    var q := EvalBody(f.body, inner);
    ShiftMeans(g, |env|, q.t, inner);
    var f1 := f.(body := Nest(f.body, Shift(g, |env|)));
    var first := EvalCallback(f, r.t, env);
    var after := EvalCallback(g, first.t, env);
    var flat := Eval(Then(m, f), env);
    assert flat == Outcome(first.t, r.log + first.log);
    var here, there := Eval(Flat(m, f, g), env), Eval(Nested(m, f, g, env), env);
    assert here == Outcome(after.t, flat.log + after.log);
    var second := EvalCallback(f1, r.t, env);
    assert there == Outcome(second.t, r.log + second.log);
    if Skips(f, r.t) || Throws(f.body, inner) {
      assert second == first && first.t.Exception?;
      assert here.log == there.log + after.log;
      assert g.onTry ==> after.log != [];
    } else {
      assert second.log == [Call(f.id, r.t)] + (q.log + after.log);
      assert first.log == [Call(f.id, r.t)] + q.log;
      assert here.log == there.log;
    }
  }

  /** Where it fails: f throws, and g, a ThenTry, handles the exception only in the flat chain. */
  lemma {:induction false} FlatHandlesWhatNestedMisses(code: int, v: int)
    ensures var m := Source(Local, (env: Env) => Value(0));
      var f, g := Callback(0, true, Throw((env: Env) => User(code))), Callback(1, true, Return((env: Env) => v));
      Eval(Flat(m, f, g), []).t == Value(v) && Eval(Nested(m, f, g, []), []).t == Exception(User(code))
  {
  }
}
