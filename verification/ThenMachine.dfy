/** How a chain of futures comes to its result: local futures run their callbacks at once, shared ones keep a continuation
    in a cell until there is a result; who sets what first is left open. */
module ThenMachine {
  import opened TryModel
  import opened ThenChain

  /** What a shared state keeps for its result: a callback whose outcome goes to another cell, or that cell itself. */
  datatype Cont = NoCont | RunCallback(cb: Callback, env: Env, target: nat) | Forward(target: nat) | Spent

  /** A shared state; `owed` is what the owner of its promise has yet to set. */
  datatype Cell = Cell(result: Option<Full>, owed: Option<Full>, cont: Cont)

  datatype Handle = Ready(t: Full) | Shared(c: nat)

  /** `h` is the future at the end of the chain built so far; `path` is a ghost of the pointer structure: the cells still to
      be resolved, each waiting for the one before. `refused` is set when a second result or continuation is refused. */
  datatype Built = Built(cells: seq<Cell>, h: Handle, path: seq<nat>, log: seq<Call>, refused: bool)

  function NewCell(cells: seq<Cell>, result: Option<Full>, owed: Option<Full>): Built {
    Built(cells + [Cell(result, owed, NoCont)], Shared(|cells|), [|cells|], [], false)
  }

  /** FutureState::SetContinuation. */
  function Continue(b: Built, c: nat, cont: Cont): Built {
    if c >= |b.cells| || !b.cells[c].cont.NoCont? then b.(refused := true)
    else b.(cells := b.cells[c := b.cells[c].(cont := cont)])
  }

  /** Promise::SetValue. */
  function Resolve(b: Built, c: nat, t: Full): Built {
    if c >= |b.cells| || b.cells[c].result.Some? then b.(refused := true)
    else b.(cells := b.cells[c := b.cells[c].(result := Some(t), owed := None)])
  }

  /** The expression that builds a chain. */
  function Build(ch: Chain, env: Env, cells: seq<Cell>): Built {
    match ch
    case Source(Local, result) => Built(cells, Ready(result(env)), [], [], false)
    case Source(AlreadySet, result) => NewCell(cells, Some(result(env)), None)
    case Source(SetLater, result) => NewCell(cells, None, Some(result(env)))
    case Then(prev, cb) => Attach(cb, env, Build(prev, env, cells))
  }

  /** ThenImpl: at once on a local future, through a new promise on a shared one. */
  function Attach(cb: Callback, env: Env, b: Built): Built {
    match b.h
    case Ready(t) =>
      if Skips(cb, t) then b else
      var r := RunBody(cb.body, env + [t], b.cells);
      r.(log := b.log + [Call(cb.id, t)] + r.log, refused := b.refused || r.refused)
    case Shared(c) =>
      var d := |b.cells|;
      Continue(b.(cells := b.cells + [Cell(None, None, NoCont)], h := Shared(d), path := b.path + [d]), c, RunCallback(cb, env, d))
  }

  /** MakeTryCall, or the try block of the future-returning overload. */
  function RunBody(b: Body, env: Env, cells: seq<Cell>): Built {
    match b
    case Return(v) => Built(cells, Ready(Value(v(env))), [], [], false)
    case Throw(e) => Built(cells, Ready(Exception(e(env))), [], [], false)
    case Branch(test, yes, no) => if test(env) then RunBody(yes, env, cells) else RunBody(no, env, cells)
    case Future(chain) => Build(chain, env, cells)
  }

  // ---------------------------------------------------------------- what a path of cells will compute

  function Target(cont: Cont): Option<nat> {
    match cont
    case RunCallback(_, _, d) => Some(d)
    case Forward(d) => Some(d)
    case _ => None
  }

  predicate Blank(cell: Cell) {
    cell.result.None? && cell.owed.None?
  }

  /** Each cell of the path hands its result to the next; the last one is the future's own. */
  predicate Linked(cells: seq<Cell>, path: seq<nat>) {
    && (forall i :: 0 <= i < |path| ==> path[i] < |cells|)
    && (forall i, j :: 0 <= i < j < |path| ==> path[i] != path[j])
    && (forall i :: 0 <= i < |path| - 1 ==> Target(cells[path[i]].cont) == Some(path[i + 1]))
    && (path != [] ==> cells[path[|path| - 1]].cont.NoCont?)
  }

  /** Only the first cell of the path has a result, or is owed one. */
  predicate PathOk(cells: seq<Cell>, path: seq<nat>) {
    && Linked(cells, path)
    && (forall i :: 0 < i < |path| ==> Blank(cells[path[i]]))
    && (path != [] ==> (cells[path[0]].result.Some? <==> cells[path[0]].owed.None?))
  }

  function Pass(cont: Cont, t: Full): Outcome {
    match cont
    case RunCallback(cb, env, _) => EvalCallback(cb, t, env)
    case _ => Outcome(t, [])
  }

  function Follow(cells: seq<Cell>, path: seq<nat>, t: Full): Outcome {
    if |path| <= 1 || path[0] >= |cells| then Outcome(t, []) else
    var r := Pass(cells[path[0]].cont, t);
    var q := Follow(cells, path[1..], r.t);
    Outcome(q.t, r.log + q.log)
  }

  function Expected(cell: Cell): Full {
    if cell.result.Some? then cell.result.value else if cell.owed.Some? then cell.owed.value else Value(0)
  }

  function Meaning(b: Built): Outcome {
    match b.h
    case Ready(t) => Outcome(t, [])
    case Shared(_) =>
      if b.path == [] || b.path[0] >= |b.cells| then Outcome(Value(0), [])
      else Follow(b.cells, b.path, Expected(b.cells[b.path[0]]))
  }

  lemma {:induction false} FollowSame(cells: seq<Cell>, cells1: seq<Cell>, path: seq<nat>, t: Full)
    requires forall i :: 0 <= i < |path| ==> path[i] < |cells| && path[i] < |cells1|
    requires forall i :: 0 <= i < |path| - 1 ==> cells1[path[i]].cont == cells[path[i]].cont
    ensures Follow(cells1, path, t) == Follow(cells, path, t)
    decreases |path|
  {
    if |path| > 1 {
      FollowSame(cells, cells1, path[1..], Pass(cells[path[0]].cont, t).t);
    }
  }

  lemma {:induction false} Assoc(a: seq<Call>, b: seq<Call>, c: seq<Call>)
    ensures (a + b) + c == a + (b + c) && [] + a == a && a + [] == a
  {
  }

  /** Two paths joined: the last cell of the first now passes its result on to the second. */
  lemma {:induction false} FollowJoin(cells: seq<Cell>, p: seq<nat>, tail: seq<nat>, t: Full)
    requires p != [] && tail != [] && forall i :: 0 <= i < |p| ==> p[i] < |cells|
    ensures var r := Follow(cells, p, t);
      var q := Pass(cells[p[|p| - 1]].cont, r.t);
      var f := Follow(cells, tail, q.t);
      Follow(cells, p + tail, t) == Outcome(f.t, r.log + (q.log + f.log))
    decreases |p|
  {
    var r0 := Pass(cells[p[0]].cont, t);
    if |p| == 1 {
      assert (p + tail)[1..] == tail;
      var f := Follow(cells, tail, r0.t);
      assert Follow(cells, p + tail, t) == Outcome(f.t, r0.log + f.log);
      hide Follow, Pass;
      Assoc(r0.log + f.log, [], []);
    } else {
      assert (p + tail)[1..] == p[1..] + tail && p[1..][|p| - 2] == p[|p| - 1];
      FollowJoin(cells, p[1..], tail, r0.t);
      var r := Follow(cells, p[1..], r0.t);
      var q := Pass(cells[p[|p| - 1]].cont, r.t);
      var f := Follow(cells, tail, q.t);
      assert Follow(cells, p + tail, t) == Outcome(f.t, r0.log + (r.log + (q.log + f.log)));
      assert Follow(cells, p, t) == Outcome(r.t, r0.log + r.log);
      hide Follow, Pass;
      Assoc(r0.log, r.log, q.log + f.log);
    }
  }

  // ---------------------------------------------------------------- building

  predicate Idle(cell: Cell) {
    cell.cont.Spent? && cell.owed.None?
  }

  /** From cell `base` on, everything is on the path or done with. */
  predicate Tidy(b: Built, base: nat) {
    && base <= |b.cells| && !b.refused && PathOk(b.cells, b.path)
    && (b.h.Ready? <==> b.path == []) && (b.h.Shared? ==> b.h.c == b.path[|b.path| - 1])
    && (forall i :: 0 <= i < |b.path| ==> base <= b.path[i])
    && (forall c :: base <= c < |b.cells| ==> c in b.path || Idle(b.cells[c]))
  }

  ghost predicate SameBelow(cells: seq<Cell>, cells1: seq<Cell>, base: nat) {
    base <= |cells| <= |cells1| && forall c :: 0 <= c < base ==> cells1[c] == cells[c]
  }

  /** `b` stands for `o`: what was run so far and what is still to come. */
  predicate StandsFor(b: Built, o: Outcome) {
    Meaning(b).t == o.t && b.log + Meaning(b).log == o.log
  }

  lemma {:induction false} BuildMeans(ch: Chain, env: Env, cells: seq<Cell>)
    ensures Tidy(Build(ch, env, cells), |cells|) && SameBelow(cells, Build(ch, env, cells).cells, |cells|)
    ensures StandsFor(Build(ch, env, cells), Eval(ch, env))
    decreases ch
  {
    match ch
    case Source(_, _) =>
    case Then(prev, cb) =>
      BuildMeans(prev, env, cells);
      AttachMeans(cb, env, Build(prev, env, cells), |cells|, Eval(prev, env));
  }

  lemma {:induction false} RunBodyMeans(b: Body, env: Env, cells: seq<Cell>)
    ensures Tidy(RunBody(b, env, cells), |cells|) && SameBelow(cells, RunBody(b, env, cells).cells, |cells|)
    ensures StandsFor(RunBody(b, env, cells), EvalBody(b, env))
    decreases b
  {
    match b
    case Branch(test, yes, no) => if test(env) { RunBodyMeans(yes, env, cells); } else { RunBodyMeans(no, env, cells); }
    case Future(chain) => BuildMeans(chain, env, cells);
    case _ =>
  }

  lemma {:induction false} AttachMeans(cb: Callback, env: Env, b: Built, base: nat, o: Outcome)
    requires Tidy(b, base) && StandsFor(b, o)
    ensures Tidy(Attach(cb, env, b), base) && SameBelow(b.cells, Attach(cb, env, b).cells, base)
    ensures StandsFor(Attach(cb, env, b), Outcome(EvalCallback(cb, o.t, env).t, o.log + EvalCallback(cb, o.t, env).log))
    decreases cb
  {
    if b.h.Shared? {
      AttachSharedTidy(cb, env, b, base);
      AttachSharedMeans(cb, env, b, base, o);
    } else if !Skips(cb, b.h.t) {
      RunBodyMeans(cb.body, env + [b.h.t], b.cells);
      AttachLocal(cb, env, b, base, o, RunBody(cb.body, env + [b.h.t], b.cells));
    } else {
      assert o.log + [] == o.log;
      hide Tidy;
    }
  }

  lemma {:induction false} AttachLocal(cb: Callback, env: Env, b: Built, base: nat, o: Outcome, r: Built)
    requires Tidy(b, base) && StandsFor(b, o) && b.h.Ready? && !Skips(cb, b.h.t)
    requires r == RunBody(cb.body, env + [b.h.t], b.cells) && Tidy(r, |b.cells|) && SameBelow(b.cells, r.cells, |b.cells|)
    requires StandsFor(r, EvalBody(cb.body, env + [b.h.t]))
    ensures Tidy(Attach(cb, env, b), base) && SameBelow(b.cells, Attach(cb, env, b).cells, base)
    ensures StandsFor(Attach(cb, env, b), Outcome(EvalCallback(cb, o.t, env).t, o.log + EvalCallback(cb, o.t, env).log))
  {
    var a, call := Attach(cb, env, b), Call(cb.id, b.h.t);
    assert a == r.(log := b.log + [call] + r.log, refused := false);
    assert Tidy(a, base) && SameBelow(b.cells, a.cells, base) by { hide Attach, RunBody, Meaning, Linked, EvalBody, StandsFor; }
    assert Meaning(b) == Outcome(b.h.t, []) && Meaning(a) == Meaning(r);
    hide Attach, RunBody, Meaning, EvalBody, Tidy, SameBelow;
    assert b.h.t == o.t && b.log + [] == o.log;
    LocalLogs(b.log, o.log, call, r.log, Meaning(r).log);
  }

  lemma {:induction false} LocalLogs(before: seq<Call>, all: seq<Call>, call: Call, ran: seq<Call>, left: seq<Call>)
    requires before + [] == all
    ensures (before + [call] + ran) + left == all + ([call] + (ran + left))
  {
  }

  lemma {:induction false} AttachSharedTidy(cb: Callback, env: Env, b: Built, base: nat)
    requires Tidy(b, base) && b.h.Shared?
    ensures Tidy(Attach(cb, env, b), base) && SameBelow(b.cells, Attach(cb, env, b).cells, base)
  {
    var a, c, d := Attach(cb, env, b), b.h.c, |b.cells|;
    assert c in b.path && b.cells[c].cont.NoCont?;
    assert a.cells == b.cells[c := b.cells[c].(cont := RunCallback(cb, env, d))] + [Cell(None, None, NoCont)];
    assert a.path == b.path + [d] && a.h == Shared(d) && !a.refused;
    hide Attach;
    LinkedPush(b.cells, a.cells, b.path, d);
    forall x | base <= x < |a.cells|
      ensures x in a.path || Idle(a.cells[x])
    {
      InPush(b.path, d, x);
      assert x < d ==> x in b.path || Idle(b.cells[x]);
    }
    hide Linked;
  }

  lemma {:induction false} InPush(path: seq<nat>, d: nat, x: nat)
    ensures x in path + [d] <==> x in path || x == d
  {
  }

  lemma {:induction false} LinkedPush(cells: seq<Cell>, cells1: seq<Cell>, path: seq<nat>, d: nat)
    requires path != [] && Linked(cells, path) && d == |cells| && |cells1| == d + 1 && cells1[d].cont.NoCont?
    requires forall x :: 0 <= x < d && x != path[|path| - 1] ==> cells1[x].cont == cells[x].cont
    requires Target(cells1[path[|path| - 1]].cont) == Some(d)
    ensures Linked(cells1, path + [d])
  {
    var path1 := path + [d];
    forall i | 0 <= i < |path1| - 1
      ensures Target(cells1[path1[i]].cont) == Some(path1[i + 1])
    {
      if i < |path| - 1 {
        assert path[i] != path[|path| - 1] && Target(cells[path[i]].cont) == Some(path[i + 1]);
      }
    }
  }

  lemma {:induction false} AttachSharedMeans(cb: Callback, env: Env, b: Built, base: nat, o: Outcome)
    requires Tidy(b, base) && StandsFor(b, o) && b.h.Shared?
    ensures StandsFor(Attach(cb, env, b), Outcome(EvalCallback(cb, o.t, env).t, o.log + EvalCallback(cb, o.t, env).log))
  {
    var a, c, d := Attach(cb, env, b), b.h.c, |b.cells|;
    assert a.cells == b.cells[c := b.cells[c].(cont := RunCallback(cb, env, d))] + [Cell(None, None, NoCont)];
    assert a.path == b.path + [d] && a.h == Shared(d) && a.log == b.log;
    hide Attach;
    var t := Expected(b.cells[b.path[0]]);
    assert Expected(a.cells[b.path[0]]) == t;
    FollowSame(b.cells, a.cells, b.path, t);
    FollowJoin(a.cells, b.path, [d], t);
    var r := Follow(b.cells, b.path, t);
    var q := EvalCallback(cb, r.t, env);
    assert Follow(a.cells, [d], q.t) == Outcome(q.t, []);
    assert Pass(a.cells[c].cont, r.t) == q && Meaning(b) == r;
    assert Meaning(a) == Follow(a.cells, a.path, t);
    hide Follow, Linked, EvalCallback, Tidy, Meaning, Pass;
    Assoc(q.log, [], []);
    Assoc(b.log, r.log, q.log);
  }
}
