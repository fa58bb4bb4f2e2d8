/** Ready and pending futures agree, over every order in which results are set, callbacks run and the chain is built. */
module ThenTheorems {
  import opened TryModel
  import opened Tallies
  import opened ThenChain
  import opened ThenMachine

  /** A chain under construction: `rest` are the callbacks its builder has yet to attach. */
  datatype State = State(b: Built, rest: seq<Callback>)

  /** The builder attaches the next callback, the owner of a promise sets it, or a resolved cell runs its continuation. */
  datatype Action = Main | Set(c: nat) | Fire(c: nat)

  predicate Enabled(s: State, a: Action) {
    match a
    case Main => s.rest != []
    case Set(c) => c < |s.b.cells| && s.b.cells[c].owed.Some?
    case Fire(c) => c < |s.b.cells| && s.b.cells[c].result.Some? && Target(s.b.cells[c].cont).Some?
  }

  function Rest(path: seq<nat>): seq<nat> {
    if path == [] then [] else path[1..]
  }

  /** The result of cell c goes where its continuation takes it. */
  function Fired(b: Built, c: nat): Built
    requires c < |b.cells| && b.cells[c].result.Some?
  {
    var cell := b.cells[c];
    var t := cell.result.value;
    var b1 := b.(cells := b.cells[c := cell.(cont := Spent)], path := Rest(b.path));
    match cell.cont
    case Forward(d) => Resolve(b1, d, t)
    case RunCallback(cb, env, d) =>
      if Skips(cb, t) then Resolve(b1, d, t) else
      var r := RunBody(cb.body, env + [t], b1.cells);
      var b2 := b1.(cells := r.cells, path := r.path + b1.path, log := b.log + [Call(cb.id, t)] + r.log, refused := b.refused || r.refused);
      (match r.h
       case Ready(t2) => Resolve(b2, d, t2)
       case Shared(e) => Continue(b2, e, Forward(d)))
    case _ => b
  }

  function Next(s: State, a: Action): State
    requires Enabled(s, a)
  {
    match a
    case Main => State(Attach(s.rest[0], [], s.b), s.rest[1..])
    case Set(c) => s.(b := Resolve(s.b, c, s.b.cells[c].owed.value))
    case Fire(c) => s.(b := Fired(s.b, c))
  }

  ghost predicate Runs(s: State, acts: seq<Action>, s1: State)
    decreases |acts|
  {
    if acts == [] then s1 == s else Enabled(s, acts[0]) && Runs(Next(s, acts[0]), acts[1..], s1)
  }

  /** The whole chain: the first part is built, the callbacks in `rest` are attached while others run. */
  function Whole(ch: Chain, rest: seq<Callback>): Chain
    decreases |rest|
  {
    if rest == [] then ch else Whole(Then(ch, rest[0]), rest[1..])
  }

  function Begin(ch: Chain, rest: seq<Callback>): State {
    State(Build(ch, [], []), rest)
  }

  // ---------------------------------------------------------------- what every step keeps

  function EvalRest(o: Outcome, rest: seq<Callback>): Outcome
    decreases |rest|
  {
    if rest == [] then o else
    var q := EvalCallback(rest[0], o.t, []);
    EvalRest(Outcome(q.t, o.log + q.log), rest[1..])
  }

  lemma {:induction false} WholeMeans(ch: Chain, rest: seq<Callback>)
    ensures Eval(Whole(ch, rest), []) == EvalRest(Eval(ch, []), rest)
    decreases |rest|
  {
    if rest != [] {
      WholeMeans(Then(ch, rest[0]), rest[1..]);
    }
  }

  /** Only the head of the path can have a result and a continuation waiting for it. */
  lemma {:induction false} OnlyTheHead(b: Built, c: nat)
    requires Tidy(b, 0) && c < |b.cells|
    ensures b.cells[c].owed.Some? ==> b.path != [] && c == b.path[0] && b.cells[c].result.None?
    ensures b.cells[c].result.Some? && Target(b.cells[c].cont).Some? ==>
      |b.path| >= 2 && c == b.path[0] && Target(b.cells[c].cont) == Some(b.path[1]) && b.cells[c].owed.None?
  {
    if c in b.path {
      var i :| 0 <= i < |b.path| && b.path[i] == c;
    }
  }

  lemma {:induction false} TailLinked(cells: seq<Cell>, path: seq<nat>)
    requires |path| >= 2 && PathOk(cells, path)
    ensures Linked(cells, path[1..]) && path[0] !in path[1..]
    ensures forall i :: 0 <= i < |path[1..]| ==> Blank(cells[path[1..][i]])
    ensures forall x :: x in path ==> x == path[0] || x in path[1..]
  {
    forall i | 0 <= i < |path[1..]|
      ensures path[1..][i] == path[i + 1] && Blank(cells[path[1..][i]]) && path[1..][i] != path[0]
    {
    }
    forall x | x in path
      ensures x == path[0] || x in path[1..]
    {
      var i :| 0 <= i < |path| && path[i] == x;
      assert i > 0 ==> path[1..][i - 1] == x;
    }
  }

  lemma {:induction false} LinkedSame(cells: seq<Cell>, cells1: seq<Cell>, path: seq<nat>)
    requires Linked(cells, path) && |cells| <= |cells1|
    requires forall i :: 0 <= i < |path| ==> cells1[path[i]].cont == cells[path[i]].cont
    ensures Linked(cells1, path)
  {
  }

  /** The owner sets the first cell. */
  lemma {:induction false} SetIsTidy(b: Built, c: nat, v: Full)
    requires Tidy(b, 0) && c < |b.cells| && b.path != [] && c == b.path[0] && b.cells[c].owed == Some(v)
    ensures Tidy(Resolve(b, c, v), 0) && Resolve(b, c, v) == b.(cells := b.cells[c := b.cells[c].(result := Some(v), owed := None)])
  {
    var b1 := Resolve(b, c, v);
    assert b1 == b.(cells := b.cells[c := b.cells[c].(result := Some(v), owed := None)]);
    LinkedSame(b.cells, b1.cells, b.path);
    assert forall i :: 0 < i < |b.path| ==> b.path[i] != c && Blank(b.cells[b.path[i]]);
    hide Linked, Resolve;
    forall x | 0 <= x < |b1.cells|
      ensures x in b1.path || Idle(b1.cells[x])
    {
      assert x in b.path || Idle(b.cells[x]);
    }
  }

  lemma {:induction false} SetKeeps(b: Built, c: nat)
    requires Tidy(b, 0) && c < |b.cells| && b.cells[c].owed.Some?
    ensures var b1 := Resolve(b, c, b.cells[c].owed.value); Tidy(b1, 0) && b1.log == b.log && Meaning(b1) == Meaning(b)
  {
    OnlyTheHead(b, c);
    var v := b.cells[c].owed.value;
    SetIsTidy(b, c, v);
    var b1 := Resolve(b, c, v);
    assert b.h.Shared? && forall i :: 0 <= i < |b.path| ==> b.path[i] < |b.cells|;
    hide Tidy, Resolve;
    FollowSame(b.cells, b1.cells, b.path, v);
    hide Follow;
  }

  /** `cells2` is what became of the cells while the head's continuation ran. */
  ghost predicate RanHead(b: Built, cells2: seq<Cell>) {
    && |b.path| >= 2 && |b.cells| <= |cells2|
    && (forall x :: 0 <= x < |b.cells| && x != b.path[0] ==> cells2[x] == b.cells[x])
    && b.path[0] < |b.cells| && Idle(cells2[b.path[0]])
  }

  /** What is left of the path once its head is done with. */
  predicate TailOk(cells: seq<Cell>, h: Handle, tail: seq<nat>, c: nat) {
    && tail != [] && Linked(cells, tail) && c !in tail && h == Shared(tail[|tail| - 1])
    && (forall i :: 0 <= i < |tail| ==> Blank(cells[tail[i]]))
  }

  lemma {:induction false} TailFacts(b: Built, cells2: seq<Cell>)
    requires Tidy(b, 0) && RanHead(b, cells2)
    ensures TailOk(cells2, b.h, b.path[1..], b.path[0])
    ensures forall x :: 0 <= x < |b.cells| ==> x in b.path[1..] || Idle(cells2[x])
  {
    var tail := b.path[1..];
    TailLinked(b.cells, b.path);
    assert b.h == Shared(tail[|tail| - 1]);
    forall x | 0 <= x < |b.cells|
      ensures x in tail || Idle(cells2[x])
    {
      assert x in b.path || Idle(b.cells[x]);
    }
    hide Tidy, Idle, PathOk;
    TailKept(b.cells, cells2, tail, b.path[0]);
    hide Linked, Blank;
  }

  lemma {:induction false} TailKept(cells: seq<Cell>, cells2: seq<Cell>, tail: seq<nat>, c: nat)
    requires Linked(cells, tail) && c !in tail && |cells| <= |cells2|
    requires forall x :: 0 <= x < |cells| && x != c ==> cells2[x] == cells[x]
    requires forall i :: 0 <= i < |tail| ==> Blank(cells[tail[i]])
    ensures Linked(cells2, tail) && forall i :: 0 <= i < |tail| ==> Blank(cells2[tail[i]])
  {
    assert forall i :: 0 <= i < |tail| ==> tail[i] in tail && tail[i] < |cells|;
    assert forall i :: 0 <= i < |tail| ==> cells2[tail[i]] == cells[tail[i]];
    LinkedSame(cells, cells2, tail);
    hide Linked;
  }

  /** The head's result is known: the rest of the path goes on with it. */
  lemma {:induction false} ResolveTailTidy(b2: Built, c: nat, d: nat, t: Full)
    requires TailOk(b2.cells, b2.h, b2.path, c) && d == b2.path[0] && !b2.refused
    requires forall x :: 0 <= x < |b2.cells| ==> x in b2.path || Idle(b2.cells[x])
    ensures var b3 := Resolve(b2, d, t);
      Tidy(b3, 0) && b3 == b2.(cells := b2.cells[d := b2.cells[d].(result := Some(t), owed := None)])
  {
    var b3 := Resolve(b2, d, t);
    assert b3 == b2.(cells := b2.cells[d := b2.cells[d].(result := Some(t), owed := None)]);
    LinkedSame(b2.cells, b3.cells, b2.path);
    assert forall i :: 0 < i < |b2.path| ==> b2.path[i] != d;
    hide Linked, Resolve;
    forall x | 0 <= x < |b3.cells|
      ensures x in b3.path || Idle(b3.cells[x])
    {
      assert x in b2.path || Idle(b2.cells[x]);
    }
  }

  lemma {:induction false} ResolveTail(b: Built, b2: Built, t: Full)
    requires Tidy(b, 0) && RanHead(b, b2.cells) && b2.h == b.h && b2.path == b.path[1..] && !b2.refused
    requires forall x :: |b.cells| <= x < |b2.cells| ==> Idle(b2.cells[x])
    ensures var b3 := Resolve(b2, b.path[1], t); Tidy(b3, 0) && b3.log == b2.log && Meaning(b3) == Follow(b.cells, b.path[1..], t)
  {
    var d, tail := b.path[1], b.path[1..];
    TailFacts(b, b2.cells);
    ResolveTailTidy(b2, b.path[0], d, t);
    var b3 := Resolve(b2, d, t);
    assert forall i :: 0 <= i < |tail| ==> tail[i] == b.path[i + 1] && tail[i] < |b.cells|;
    hide Resolve, Idle, Tidy, Linked, Blank;
    ResolvedMeans(b, b2, b3, t);
  }

  lemma {:induction false} ResolvedMeans(b: Built, b2: Built, b3: Built, t: Full)
    requires RanHead(b, b2.cells) && b2.path == b.path[1..] && TailOk(b2.cells, b2.h, b2.path, b.path[0])
    requires b3 == b2.(cells := b2.cells[b.path[1] := b2.cells[b.path[1]].(result := Some(t), owed := None)])
    requires forall i :: 0 <= i < |b2.path| ==> b2.path[i] < |b.cells|
    ensures Meaning(b3) == Follow(b.cells, b.path[1..], t)
  {
    var tail := b2.path;
    assert tail[0] == b.path[1] && b3.h.Shared? && Expected(b3.cells[tail[0]]) == t;
    assert forall i :: 0 <= i < |tail| ==> tail[i] in tail && tail[i] != b.path[0];
    assert forall i :: 0 <= i < |tail| ==> b2.cells[tail[i]] == b.cells[tail[i]];
    hide TailOk, RanHead, Linked, Blank, Idle;
    FollowSame(b.cells, b3.cells, tail, t);
    hide Follow;
  }

  lemma {:induction false} LinkedJoin(cells: seq<Cell>, p: seq<nat>, tail: seq<nat>)
    requires p != [] && tail != [] && Linked(cells, tail)
    requires forall i :: 0 <= i < |p| ==> p[i] < |cells| && p[i] !in tail
    requires forall i, j :: 0 <= i < j < |p| ==> p[i] != p[j]
    requires forall i :: 0 <= i < |p| - 1 ==> Target(cells[p[i]].cont) == Some(p[i + 1])
    requires Target(cells[p[|p| - 1]].cont) == Some(tail[0])
    ensures Linked(cells, p + tail)
  {
    var path := p + tail;
    forall i, j | 0 <= i < j < |path|
      ensures path[i] != path[j]
    {
      assert j >= |p| ==> path[j] == tail[j - |p|] && path[j] in tail;
    }
    forall i | 0 <= i < |path| - 1
      ensures Target(cells[path[i]].cont) == Some(path[i + 1])
    {
      assert i >= |p| ==> path[i] == tail[i - |p|] && path[i + 1] == tail[i - |p| + 1];
    }
  }

  /** The callback returned a pending future: its path now leads into the rest. */
  lemma {:induction false} JoinTailTidy(b2: Built, r: Built, n: nat, c: nat, tail: seq<nat>)
    requires Tidy(r, n) && r.h.Shared? && b2.cells == r.cells && b2.path == r.path + tail && !b2.refused
    requires TailOk(r.cells, b2.h, tail, c) && forall i :: 0 <= i < |tail| ==> tail[i] < n
    requires forall x :: 0 <= x < n ==> x in tail || Idle(r.cells[x])
    ensures var b3 := Continue(b2, r.h.c, Forward(tail[0]));
      Tidy(b3, 0) && b3 == b2.(cells := b2.cells[r.h.c := b2.cells[r.h.c].(cont := Forward(tail[0]))])
  {
    var e, p := r.h.c, r.path;
    assert e in p && e < |r.cells| && r.cells[e].cont.NoCont?;
    var b3 := Continue(b2, e, Forward(tail[0]));
    assert b3 == b2.(cells := b2.cells[e := b2.cells[e].(cont := Forward(tail[0]))]);
    Apart(p, tail, n);
    assert PathOk(r.cells, p) && forall i :: 0 <= i < |p| - 1 ==> p[i] != e;
    hide Continue, Idle, Linked, Blank;
    JoinLinked(r.cells, b3.cells, p, tail, e);
    JoinBlank(r.cells, b3.cells, p, tail, e);
    forall x | 0 <= x < |b3.cells|
      ensures x in b3.path || Idle(b3.cells[x])
    {
      assert x in p || x in tail || Idle(r.cells[x]);
      assert x in p + tail <==> x in p || x in tail;
    }
  }

  lemma {:induction false} Apart(p: seq<nat>, tail: seq<nat>, n: nat)
    requires forall i :: 0 <= i < |p| ==> n <= p[i]
    requires forall i :: 0 <= i < |tail| ==> tail[i] < n
    ensures forall i :: 0 <= i < |p| ==> p[i] !in tail
    ensures forall i :: 0 <= i < |tail| ==> tail[i] !in p
  {
  }

  lemma {:induction false} JoinLinked(cells: seq<Cell>, cells1: seq<Cell>, p: seq<nat>, tail: seq<nat>, e: nat)
    requires p != [] && tail != [] && Linked(cells, p) && Linked(cells, tail) && e == p[|p| - 1]
    requires cells1 == cells[e := cells[e].(cont := Forward(tail[0]))]
    requires forall i :: 0 <= i < |p| ==> p[i] !in tail
    ensures Linked(cells1, p + tail)
  {
    assert forall i :: 0 <= i < |tail| ==> tail[i] in tail && tail[i] != e;
    LinkedSame(cells, cells1, tail);
    assert forall i :: 0 <= i < |p| - 1 ==> p[i] != e;
    LinkedJoin(cells1, p, tail);
    hide Linked;
  }

  lemma {:induction false} JoinBlank(cells: seq<Cell>, cells1: seq<Cell>, p: seq<nat>, tail: seq<nat>, e: nat)
    requires PathOk(cells, p) && p != [] && tail != [] && Linked(cells, tail) && e < |cells| && Linked(cells1, p + tail)
    requires cells1 == cells[e := cells[e].(cont := Forward(tail[0]))]
    requires forall i :: 0 <= i < |tail| ==> Blank(cells[tail[i]])
    ensures PathOk(cells1, p + tail)
  {
    forall i | 0 < i < |p + tail|
      ensures Blank(cells1[(p + tail)[i]])
    {
      assert i >= |p| ==> (p + tail)[i] == tail[i - |p|];
    }
  }

  lemma {:induction false} JoinTail(b: Built, b2: Built, r: Built)
    requires Tidy(b, 0) && RanHead(b, r.cells) && Tidy(r, |b.cells|) && r.h.Shared?
    requires b2.cells == r.cells && b2.h == b.h && b2.path == r.path + b.path[1..] && !b2.refused
    ensures var b3 := Continue(b2, r.h.c, Forward(b.path[1]));
      var m := Meaning(r);
      var q := Follow(b.cells, b.path[1..], m.t);
      Tidy(b3, 0) && b3.log == b2.log && Meaning(b3) == Outcome(q.t, m.log + q.log)
  {
    var tail, e := b.path[1..], r.h.c;
    TailFacts(b, r.cells);
    assert forall i :: 0 <= i < |tail| ==> tail[i] == b.path[i + 1] && tail[i] < |b.cells| && tail[i] in tail && tail[i] != b.path[0];
    JoinTailTidy(b2, r, |b.cells|, b.path[0], tail);
    var b3 := Continue(b2, e, Forward(tail[0]));
    JoinMeans(b, r, b3, tail);
  }

  lemma {:induction false} JoinMeans(b: Built, r: Built, b3: Built, tail: seq<nat>)
    requires Tidy(r, |b.cells|) && r.h.Shared? && tail != [] && b3.path == r.path + tail && b3.h.Shared? && r.h.c < |r.cells|
    requires b3.cells == r.cells[r.h.c := r.cells[r.h.c].(cont := Forward(tail[0]))]
    requires forall i :: 0 <= i < |tail| ==> tail[i] < |b.cells| && r.cells[tail[i]] == b.cells[tail[i]]
    ensures var m := Meaning(r);
      var q := Follow(b.cells, tail, m.t);
      Meaning(b3) == Outcome(q.t, m.log + q.log)
  {
    var t := Expected(r.cells[r.path[0]]);
    assert Expected(b3.cells[b3.path[0]]) == t && Meaning(b3) == Follow(b3.cells, b3.path, t);
    assert forall i :: 0 <= i < |r.path| - 1 ==> r.path[i] != r.h.c;
    assert forall i :: 0 <= i < |r.path| ==> r.path[i] < |r.cells|;
    assert |b.cells| <= r.h.c == r.path[|r.path| - 1];
    assert Meaning(r) == Follow(r.cells, r.path, t);
    hide Tidy, Idle, Meaning, Follow, Linked, PathOk;
    JoinFollow(b.cells, r.cells, b3.cells, r.path, tail, t);
  }

  lemma {:induction false} JoinFollow(cells: seq<Cell>, cells2: seq<Cell>, cells3: seq<Cell>, p: seq<nat>, tail: seq<nat>, t: Full)
    requires p != [] && tail != [] && forall i :: 0 <= i < |p| ==> p[i] < |cells2|
    requires cells3 == cells2[p[|p| - 1] := cells2[p[|p| - 1]].(cont := Forward(tail[0]))]
    requires forall i :: 0 <= i < |p| - 1 ==> p[i] != p[|p| - 1]
    requires |cells| <= p[|p| - 1] && forall i :: 0 <= i < |tail| ==> tail[i] < |cells| && cells2[tail[i]] == cells[tail[i]]
    ensures var m := Follow(cells2, p, t);
      var q := Follow(cells, tail, m.t);
      Follow(cells3, p + tail, t) == Outcome(q.t, m.log + q.log)
  {
    var e, m := p[|p| - 1], Follow(cells2, p, t);
    assert Pass(cells3[e].cont, m.t) == Outcome(m.t, []);
    hide Follow, Pass;
    FollowSame(cells2, cells3, p, t);
    FollowJoin(cells3, p, tail, t);
    FollowSame(cells, cells3, tail, m.t);
    Assoc(Follow(cells, tail, m.t).log, [], []);
  }

  /** The head c has a result and a callback for it, and the callback, run on that result, gave `r`. */
  ghost predicate RanCallback(b: Built, c: nat, r: Built) {
    && |b.path| >= 2 && c == b.path[0] && c < |b.cells| && b.cells[c].result.Some? && b.cells[c].owed.None?
    && b.cells[c].cont.RunCallback? && b.cells[c].cont.target == b.path[1]
    && !Skips(b.cells[c].cont.cb, b.cells[c].result.value)
    && r == RunBody(b.cells[c].cont.cb.body, b.cells[c].cont.env + [b.cells[c].result.value],
                    b.cells[c := b.cells[c].(cont := Spent)])
  }

  function CallOf(cell: Cell): Call
    requires cell.cont.RunCallback? && cell.result.Some?
  {
    Call(cell.cont.cb.id, cell.result.value)
  }

  /** Where the rest of the path starts after the callback. */
  function Continued(b: Built, c: nat, r: Built): Built
    requires c < |b.cells| && b.cells[c].cont.RunCallback? && b.cells[c].result.Some? && b.path != []
  {
    Built(r.cells, b.h, r.path + b.path[1..], b.log + [CallOf(b.cells[c])] + r.log, false)
  }

  lemma {:induction false} FiredIs(b: Built, c: nat, r: Built)
    requires RanCallback(b, c, r) && !b.refused && !r.refused
    ensures Fired(b, c) == if r.h.Ready? then Resolve(Continued(b, c, r), b.path[1], r.h.t)
                           else Continue(Continued(b, c, r), r.h.c, Forward(b.path[1]))
  {
    hide RunBody;
  }

  lemma {:induction false} HeadMeans(b: Built, c: nat, r: Built)
    requires RanCallback(b, c, r) && b.h.Shared?
    ensures var cell := b.cells[c];
      var o := EvalBody(cell.cont.cb.body, cell.cont.env + [cell.result.value]);
      var q := Follow(b.cells, b.path[1..], o.t);
      Meaning(b) == Outcome(q.t, [CallOf(cell)] + o.log + q.log)
  {
    hide EvalBody, RunBody;
  }

  lemma {:induction false} RanFacts(b: Built, c: nat, r: Built)
    requires Tidy(b, 0) && RanCallback(b, c, r) && Tidy(r, |b.cells|)
    requires SameBelow(b.cells[c := b.cells[c].(cont := Spent)], r.cells, |b.cells|)
    ensures RanHead(b, r.cells) && b.h.Shared? && !b.refused && !r.refused
    ensures r.h.Ready? ==> r.path == [] && forall x :: |b.cells| <= x < |r.cells| ==> Idle(r.cells[x])
  {
    hide RunBody, Linked;
  }

  lemma {:induction false} ReadyLogs(before: seq<Call>, call: Call, ran: seq<Call>, all: seq<Call>, after: seq<Call>)
    requires ran + [] == all
    ensures (before + [call] + ran) + after == before + ([call] + all + after)
  {
  }

  lemma {:induction false} PendingLogs(before: seq<Call>, call: Call, ran: seq<Call>, left: seq<Call>, all: seq<Call>, after: seq<Call>)
    requires ran + left == all
    ensures (before + [call] + ran) + (left + after) == before + ([call] + all + after)
  {
  }

  lemma {:induction false} FireToReady(b: Built, c: nat, r: Built, o: Outcome)
    requires Tidy(b, 0) && RanCallback(b, c, r) && RanHead(b, r.cells) && !b.refused && !r.refused && b.h.Shared?
    requires r.h.Ready? && r.path == [] && forall x :: |b.cells| <= x < |r.cells| ==> Idle(r.cells[x])
    requires StandsFor(r, o) && o == EvalBody(b.cells[c].cont.cb.body, b.cells[c].cont.env + [b.cells[c].result.value])
    ensures Tidy(Fired(b, c), 0)
    ensures StandsFor(Fired(b, c), Outcome(Meaning(b).t, b.log + Meaning(b).log))
  {
    var call, tail, b2 := CallOf(b.cells[c]), b.path[1..], Continued(b, c, r);
    assert Meaning(r) == Outcome(r.h.t, []) && b2.path == tail;
    FiredIs(b, c, r);
    HeadMeans(b, c, r);
    hide Tidy, Fired, RanHead, RanCallback, Follow, Idle, EvalBody, RunBody, Resolve, Continue, Meaning;
    ResolveTail(b, b2, r.h.t);
    ReadyLogs(b.log, call, r.log, o.log, Follow(b.cells, tail, r.h.t).log);
  }

  lemma {:induction false} FireToPending(b: Built, c: nat, r: Built, o: Outcome)
    requires Tidy(b, 0) && RanCallback(b, c, r) && RanHead(b, r.cells) && !b.refused && !r.refused && b.h.Shared?
    requires r.h.Shared? && Tidy(r, |b.cells|)
    requires StandsFor(r, o) && o == EvalBody(b.cells[c].cont.cb.body, b.cells[c].cont.env + [b.cells[c].result.value])
    ensures Tidy(Fired(b, c), 0)
    ensures StandsFor(Fired(b, c), Outcome(Meaning(b).t, b.log + Meaning(b).log))
  {
    var call, tail, m, b2 := CallOf(b.cells[c]), b.path[1..], Meaning(r), Continued(b, c, r);
    FiredIs(b, c, r);
    HeadMeans(b, c, r);
    hide Tidy, Fired, RanHead, RanCallback, Follow, Idle, EvalBody, RunBody, Resolve, Continue, Meaning;
    JoinTail(b, b2, r);
    PendingLogs(b.log, call, r.log, m.log, o.log, Follow(b.cells, tail, m.t).log);
  }

  lemma {:induction false} FireRan(b: Built, c: nat, r: Built)
    requires Tidy(b, 0) && RanCallback(b, c, r) && Tidy(r, |b.cells|)
    requires SameBelow(b.cells[c := b.cells[c].(cont := Spent)], r.cells, |b.cells|)
    requires StandsFor(r, EvalBody(b.cells[c].cont.cb.body, b.cells[c].cont.env + [b.cells[c].result.value]))
    ensures Tidy(Fired(b, c), 0)
    ensures StandsFor(Fired(b, c), Outcome(Meaning(b).t, b.log + Meaning(b).log))
  {
    var o := EvalBody(b.cells[c].cont.cb.body, b.cells[c].cont.env + [b.cells[c].result.value]);
    RanFacts(b, c, r);
    hide Tidy, Fired, Meaning, RunBody, EvalBody;
    if r.h.Ready? { FireToReady(b, c, r, o); } else { FireToPending(b, c, r, o); }
  }

  lemma {:induction false} PassedLogs(before: seq<Call>, after: seq<Call>)
    ensures before + ([] + after) == before + after
  {
  }

  /** The result is forwarded, or an exception passes a ThenValue by. */
  lemma {:induction false} FirePassed(b: Built, c: nat)
    requires Tidy(b, 0) && |b.path| >= 2 && c == b.path[0] && c < |b.cells| && b.cells[c].result.Some? && b.cells[c].owed.None?
    requires Target(b.cells[c].cont) == Some(b.path[1]) && b.h.Shared?
    requires b.cells[c].cont.Forward? || Skips(b.cells[c].cont.cb, b.cells[c].result.value)
    ensures Tidy(Fired(b, c), 0)
    ensures StandsFor(Fired(b, c), Outcome(Meaning(b).t, b.log + Meaning(b).log))
  {
    var t, tail := b.cells[c].result.value, b.path[1..];
    var b1 := b.(cells := b.cells[c := b.cells[c].(cont := Spent)], path := tail);
    assert Fired(b, c) == Resolve(b1, b.path[1], t) && RanHead(b, b1.cells) && !b1.refused;
    var q := Follow(b.cells, tail, t);
    assert Meaning(b) == Outcome(q.t, [] + q.log);
    hide Tidy, Fired, RanHead, Follow, Idle, Resolve, Meaning;
    ResolveTail(b, b1, t);
    PassedLogs(b.log, q.log);
  }

  /** The continuation of a resolved cell runs. */
  lemma {:induction false} FireKeeps(b: Built, c: nat)
    requires Tidy(b, 0) && c < |b.cells| && b.cells[c].result.Some? && Target(b.cells[c].cont).Some?
    ensures Tidy(Fired(b, c), 0)
    ensures StandsFor(Fired(b, c), Outcome(Meaning(b).t, b.log + Meaning(b).log))
  {
    OnlyTheHead(b, c);
    var cont, t := b.cells[c].cont, b.cells[c].result.value;
    assert b.h.Shared?;
    if cont.Forward? || Skips(cont.cb, t) {
      hide Tidy, Fired, Meaning;
      FirePassed(b, c);
    } else {
      var cells1 := b.cells[c := b.cells[c].(cont := Spent)];
      RunBodyMeans(cont.cb.body, cont.env + [t], cells1);
      hide Tidy, Fired, Meaning, RunBody;
      FireRan(b, c, RunBody(cont.cb.body, cont.env + [t], cells1));
    }
  }

  // ---------------------------------------------------------------- work left

  function SizeOf(ch: Chain): nat {
    match ch
    case Source(_, _) => 1
    case Then(prev, cb) => SizeOf(prev) + SizeOfCallback(cb)
  }

  function SizeOfCallback(cb: Callback): nat {
    2 + SizeOfBody(cb.body)
  }

  function SizeOfBody(b: Body): nat {
    match b
    case Branch(_, yes, no) => SizeOfBody(yes) + SizeOfBody(no)
    case Future(chain) => 1 + SizeOf(chain)
    case _ => 0
  }

  function CellWork(cell: Cell): nat {
    (if cell.owed.Some? then 1 else 0) +
    match cell.cont
    case RunCallback(cb, _, _) => SizeOfCallback(cb)
    case Forward(_) => 1
    case _ => 0
  }

  function RestWork(rest: seq<Callback>): nat {
    if rest == [] then 0 else SizeOfCallback(rest[0]) + 1 + RestWork(rest[1..])
  }

  function Work(s: State): nat {
    Tally(s.b.cells, CellWork) + RestWork(s.rest)
  }

  lemma {:induction false} BuildWork(ch: Chain, env: Env, cells: seq<Cell>)
    requires !Build(ch, env, cells).refused
    ensures Tally(Build(ch, env, cells).cells, CellWork) <= Tally(cells, CellWork) + SizeOf(ch)
    decreases ch
  {
    match ch
    case Source(kind, result) =>
      TallyPush(cells, Cell(Some(result(env)), None, NoCont), CellWork);
      TallyPush(cells, Cell(None, Some(result(env)), NoCont), CellWork);
    case Then(prev, cb) =>
      BuildWork(prev, env, cells);
      AttachWork(cb, env, Build(prev, env, cells));
  }

  lemma {:induction false} AttachWork(cb: Callback, env: Env, b: Built)
    requires !Attach(cb, env, b).refused
    ensures !b.refused && Tally(Attach(cb, env, b).cells, CellWork) <= Tally(b.cells, CellWork) + SizeOfCallback(cb)
    decreases cb
  {
    if b.h.Shared? {
      var d, c := |b.cells|, b.h.c;
      var cells1 := b.cells + [Cell(None, None, NoCont)];
      TallyPush(b.cells, Cell(None, None, NoCont), CellWork);
      if c < |cells1| {
        TallyUpdate(cells1, c, cells1[c].(cont := RunCallback(cb, env, d)), CellWork);
      }
    } else if !Skips(cb, b.h.t) {
      BodyWork(cb.body, env + [b.h.t], b.cells);
    }
  }

  lemma {:induction false} BodyWork(b: Body, env: Env, cells: seq<Cell>)
    requires !RunBody(b, env, cells).refused
    ensures Tally(RunBody(b, env, cells).cells, CellWork) + (if RunBody(b, env, cells).h.Shared? then 1 else 0)
            <= Tally(cells, CellWork) + SizeOfBody(b)
    decreases b
  {
    match b
    case Branch(test, yes, no) => if test(env) { BodyWork(yes, env, cells); } else { BodyWork(no, env, cells); }
    case Future(chain) => BuildWork(chain, env, cells);
    case _ =>
  }

  lemma {:induction false} ResolveWork(b: Built, d: nat, t: Full)
    requires !Resolve(b, d, t).refused
    ensures Tally(Resolve(b, d, t).cells, CellWork) <= Tally(b.cells, CellWork)
    ensures b.cells[d].owed.Some? ==> Tally(Resolve(b, d, t).cells, CellWork) < Tally(b.cells, CellWork)
  {
    TallyUpdate(b.cells, d, b.cells[d].(result := Some(t), owed := None), CellWork);
  }

  lemma {:induction false} FireWork(b: Built, c: nat)
    requires c < |b.cells| && b.cells[c].result.Some? && Target(b.cells[c].cont).Some? && !Fired(b, c).refused
    ensures Tally(Fired(b, c).cells, CellWork) < Tally(b.cells, CellWork)
  {
    var cell := b.cells[c];
    var t := cell.result.value;
    var cells1 := b.cells[c := cell.(cont := Spent)];
    var b1 := b.(cells := cells1, path := Rest(b.path));
    TallyUpdate(b.cells, c, cell.(cont := Spent), CellWork);
    match cell.cont
    case Forward(d) => ResolveWork(b1, d, t);
    case RunCallback(cb, env, d) =>
      if Skips(cb, t) {
        ResolveWork(b1, d, t);
      } else {
        var r := RunBody(cb.body, env + [t], cells1);
        BodyWork(cb.body, env + [t], cells1);
        var b2 := b1.(cells := r.cells, path := r.path + b1.path, log := b.log + [Call(cb.id, t)] + r.log, refused := b.refused || r.refused);
        match r.h
        case Ready(t2) => ResolveWork(b2, d, t2);
        case Shared(e) => TallyUpdate(r.cells, e, r.cells[e].(cont := Forward(d)), CellWork);
      }
  }

  // ---------------------------------------------------------------- every run

  /** `goal` is what direct evaluation of the whole chain gives. */
  ghost predicate Inv(s: State, goal: Outcome) {
    Tidy(s.b, 0) && exists o :: StandsFor(s.b, o) && EvalRest(o, s.rest) == goal
  }

  lemma {:induction false} StepKeepsInv(s: State, a: Action, goal: Outcome)
    requires Inv(s, goal) && Enabled(s, a)
    ensures Inv(Next(s, a), goal) && Work(Next(s, a)) < Work(s)
  {
    var o :| StandsFor(s.b, o) && EvalRest(o, s.rest) == goal;
    var b1 := Next(s, a).b;
    match a
    case Main =>
      var cb := s.rest[0];
      AttachMeans(cb, [], s.b, 0, o);
      AttachWork(cb, [], s.b);
      assert StandsFor(b1, Outcome(EvalCallback(cb, o.t, []).t, o.log + EvalCallback(cb, o.t, []).log));
      hide Tidy, Attach, Meaning, EvalCallback;
    case Set(c) =>
      SetKeeps(s.b, c);
      assert !b1.refused;
      ResolveWork(s.b, c, s.b.cells[c].owed.value);
      assert StandsFor(b1, o);
      hide Tidy, Resolve, Meaning;
    case Fire(c) =>
      FireKeeps(s.b, c);
      assert !b1.refused;
      FireWork(s.b, c);
      assert StandsFor(b1, o);
      hide Tidy, Fired, Meaning;
  }

  lemma {:induction false} RunKeepsInv(s: State, acts: seq<Action>, s1: State, goal: Outcome)
    requires Inv(s, goal) && Runs(s, acts, s1)
    ensures Inv(s1, goal) && Work(s1) + |acts| <= Work(s)
    decreases |acts|
  {
    hide Inv, Next, Work, Enabled;
    if acts != [] {
      StepKeepsInv(s, acts[0], goal);
      RunKeepsInv(Next(s, acts[0]), acts[1..], s1, goal);
    }
  }

  lemma {:induction false} BeginInv(ch: Chain, rest: seq<Callback>)
    ensures Inv(Begin(ch, rest), Eval(Whole(ch, rest), []))
  {
    BuildMeans(ch, [], []);
    WholeMeans(ch, rest);
    assert StandsFor(Build(ch, [], []), Eval(ch, [])) && EvalRest(Eval(ch, []), rest) == Eval(Whole(ch, rest), []);
    hide Tidy, Build, Eval, StandsFor;
  }

  lemma {:induction false} EvalRestExtends(o: Outcome, rest: seq<Callback>)
    ensures o.log <= EvalRest(o, rest).log
    decreases |rest|
  {
    if rest != [] {
      var q := EvalCallback(rest[0], o.t, []);
      EvalRestExtends(Outcome(q.t, o.log + q.log), rest[1..]);
    }
  }

  /** The last future of the chain is complete. */
  predicate Complete(s: State) {
    s.rest == [] && (s.b.h.Ready? || (s.b.h.c < |s.b.cells| && s.b.cells[s.b.h.c].result.Some?))
  }

  function ResultOfChain(s: State): Full
    requires Complete(s)
  {
    match s.b.h
    case Ready(t) => t
    case Shared(c) => s.b.cells[c].result.value
  }

  /** For every chain, whichever of its sources are local, already set or set later, and in whatever order results are set,
      continuations run and further callbacks are attached: nothing is set twice, the callbacks run so far are those that
      direct evaluation runs first, with the same arguments and in the same order; the run is finite, and when nothing is left
      to do the chain's future holds the result of direct evaluation and all of its callbacks have been run, once. */
  lemma {:induction false} ReadyAndPendingAgree(ch: Chain, rest: seq<Callback>, acts: seq<Action>, s: State)
    requires Runs(Begin(ch, rest), acts, s)
    ensures var o := Eval(Whole(ch, rest), []);
      && !s.b.refused && s.b.log <= o.log && |acts| <= Work(Begin(ch, rest))
      && (Complete(s) <==> forall a :: !Enabled(s, a))
      && (Complete(s) ==> ResultOfChain(s) == o.t && s.b.log == o.log)
  {
    var goal := Eval(Whole(ch, rest), []);
    BeginInv(ch, rest);
    RunKeepsInv(Begin(ch, rest), acts, s, goal);
    var o :| StandsFor(s.b, o) && EvalRest(o, s.rest) == goal;
    EvalRestExtends(o, s.rest);
    Finishes(s);
    hide Work, Eval, Whole, Begin;
    if Complete(s) { CompleteMeans(s); }
  }

  lemma {:induction false} CompleteMeans(s: State)
    requires Tidy(s.b, 0) && Complete(s)
    ensures Meaning(s.b) == Outcome(ResultOfChain(s), [])
  {
    if s.b.h.Shared? {
      assert s.b.h.c == s.b.path[|s.b.path| - 1];
      assert |s.b.path| > 1 ==> Blank(s.b.cells[s.b.h.c]);
    }
  }

  lemma {:induction false} Finishes(s: State)
    requires Tidy(s.b, 0)
    ensures Complete(s) <==> forall a :: !Enabled(s, a)
  {
    if Complete(s) {
      forall a
        ensures !Enabled(s, a)
      {
        if !a.Main? && a.c < |s.b.cells| { NothingLeft(s, a.c); }
      }
    } else if s.rest != [] {
      assert Enabled(s, Main);
    } else {
      var c := s.b.path[0];
      assert s.b.h.c == s.b.path[|s.b.path| - 1];
      assert |s.b.path| > 1 ==> Target(s.b.cells[c].cont) == Some(s.b.path[1]);
      assert s.b.cells[c].result.Some? ==> Enabled(s, Fire(c));
      assert s.b.cells[c].owed.Some? ==> Enabled(s, Set(c));
    }
  }

  lemma {:induction false} NothingLeft(s: State, c: nat)
    requires Tidy(s.b, 0) && Complete(s) && c < |s.b.cells|
    ensures !Enabled(s, Set(c)) && !Enabled(s, Fire(c))
  {
    OnlyTheHead(s.b, c);
    if s.b.h.Shared? {
      assert |s.b.path| > 1 ==> Blank(s.b.cells[s.b.h.c]);
    }
  }
}
