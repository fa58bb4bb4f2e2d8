/** Who holds the coroutines that were not started yet: each is referred to by exactly one variable, in a frame created
    before it. */
module CoroutineHandles {
  import opened TryModel
  import opened CoroutineCode
  import opened CoroutineMachine

  /** Variable i of frame p refers to c, which waits there as it was created. */
  predicate Holds(frames: seq<Frame>, p: nat, i: nat, v: Local, c: nat) {
    && p < c < |frames|
    && frames[c].status.Created? && frames[c].holder == p && frames[c].index == i
    && frames[c].body == Fresh(v.what.body, v.what.env) && frames[c].executor == v.what.ex && frames[c].strand == c
    && frames[c].vars == [] && frames[c].awaiter.NoAwait?
    && frames[c].destroyed == 0 && !frames[c].taken && frames[c].resched == v.resched
    && (!v.resched ==> v.what.ex.None?)
  }

  predicate VarOk(frames: seq<Frame>, p: nat, i: nat)
    requires p < |frames| && i < |frames[p].vars|
  {
    frames[p].vars[i].coro.Some? ==> Holds(frames, p, i, frames[p].vars[i], frames[p].vars[i].coro.value)
  }

  predicate FrameVarsOk(frames: seq<Frame>, p: nat)
    requires p < |frames|
  {
    forall i :: 0 <= i < |frames[p].vars| ==> VarOk(frames, p, i)
  }

  /** A created coroutine is referred to by the variable it names. */
  predicate HolderOk(frames: seq<Frame>, c: nat)
    requires c < |frames|
  {
    frames[c].status.Created? ==>
      frames[c].holder < |frames| && frames[c].index < |frames[frames[c].holder].vars| &&
      frames[frames[c].holder].vars[frames[c].index].coro == Some(c)
  }

  predicate HandlesOk(frames: seq<Frame>) {
    forall f :: 0 <= f < |frames| ==> FrameVarsOk(frames, f) && HolderOk(frames, f)
  }

  /** No two variables refer to one coroutine. */
  lemma {:induction false} OneHolder(frames: seq<Frame>, p: nat, i: nat, q: nat, j: nat)
    requires HandlesOk(frames) && p < |frames| && q < |frames| && i < |frames[p].vars| && j < |frames[q].vars|
    requires frames[p].vars[i].coro.Some? && frames[p].vars[i].coro == frames[q].vars[j].coro
    ensures p == q && i == j
  {
    assert FrameVarsOk(frames, p) && FrameVarsOk(frames, q);
    assert VarOk(frames, p, i) && VarOk(frames, q, j);
  }

  lemma {:induction false} VarHolds(frames: seq<Frame>, p: nat, i: nat)
    requires HandlesOk(frames) && p < |frames| && i < |frames[p].vars| && frames[p].vars[i].coro.Some?
    ensures Holds(frames, p, i, frames[p].vars[i], frames[p].vars[i].coro.value)
  {
    assert FrameVarsOk(frames, p) && VarOk(frames, p, i);
  }

  // ---------------------------------------------------------------- steps that touch no handle

  predicate SameHandles(frames: seq<Frame>, frames1: seq<Frame>) {
    |frames1| == |frames| &&
    forall f :: 0 <= f < |frames| ==>
      frames1[f].vars == frames[f].vars && (frames[f].status.Created? <==> frames1[f].status.Created?) &&
      (frames[f].status.Created? ==> frames1[f] == frames[f])
  }

  lemma {:induction false} HandlesApart(frames: seq<Frame>, frames1: seq<Frame>)
    requires HandlesOk(frames) && SameHandles(frames, frames1)
    ensures HandlesOk(frames1)
  {
    forall f | 0 <= f < |frames1|
      ensures FrameVarsOk(frames1, f) && HolderOk(frames1, f)
    {
      assert FrameVarsOk(frames, f) && HolderOk(frames, f);
      forall i | 0 <= i < |frames1[f].vars|
        ensures VarOk(frames1, f, i)
      {
        assert VarOk(frames, f, i);
      }
    }
  }

  // ---------------------------------------------------------------- steps that do

  /** Frame p and the coroutine c change, and no other; c is, or was, in variable i of p. */
  predicate Touches(frames: seq<Frame>, frames1: seq<Frame>, p: nat, c: nat) {
    p < c < |frames| && |frames1| == |frames| && forall f :: 0 <= f < |frames| && f != p && f != c ==> frames1[f] == frames[f]
  }

  /** What another frame, or another variable of p, holds is not c, so it is as before. */
  lemma {:induction false} OthersHold(frames: seq<Frame>, frames1: seq<Frame>, p: nat, i: nat, c: nat, q: nat, j: nat)
    requires HandlesOk(frames) && Touches(frames, frames1, p, c) && i < |frames[p].vars| && frames[p].vars[i].coro == Some(c)
    requires q < |frames| && j < |frames[q].vars| && (q != p || i != j)
    requires !frames[p].status.Created?
    ensures frames[q].vars[j].coro.Some? ==> Holds(frames1, q, j, frames[q].vars[j], frames[q].vars[j].coro.value)
  {
    if frames[q].vars[j].coro.Some? {
      if frames[q].vars[j].coro.value == c { OneHolder(frames, p, i, q, j); }
      VarHolds(frames, q, j);
    }
  }

  /** The coroutine c leaves variable i of p and is created no longer; the variables after `keep` are gone. */
  lemma {:induction false} TakeKeepsHandles(frames: seq<Frame>, frames1: seq<Frame>, p: nat, i: nat, c: nat)
    requires HandlesOk(frames) && Touches(frames, frames1, p, c) && i < |frames[p].vars| && frames[p].vars[i].coro == Some(c)
    requires !frames[p].status.Created? && !frames1[p].status.Created? && !frames1[c].status.Created?
    requires frames1[p].vars == Gone(frames[p].vars, i) || (i == |frames[p].vars| - 1 && frames1[p].vars == Pop(frames[p].vars))
    requires frames1[c].vars == []
    ensures HandlesOk(frames1)
  {
    VarHolds(frames, p, i);
    forall f | 0 <= f < |frames1|
      ensures FrameVarsOk(frames1, f) && HolderOk(frames1, f)
    {
      assert FrameVarsOk(frames, f) && HolderOk(frames, f);
      forall j | 0 <= j < |frames1[f].vars|
        ensures VarOk(frames1, f, j)
      {
        if f != c && (f != p || j != i) { OthersHold(frames, frames1, p, i, c, f, j); }
      }
    }
  }

  /** The coroutine c moves from variable i of p to a new one. */
  lemma {:induction false} MoveKeepsHandles(frames: seq<Frame>, frames1: seq<Frame>, p: nat, i: nat, c: nat, v: Local)
    requires HandlesOk(frames) && Touches(frames, frames1, p, c) && i < |frames[p].vars| && frames[p].vars[i].coro == Some(c)
    requires !frames[p].status.Created? && !frames1[p].status.Created?
    requires frames1[p].vars == Gone(frames[p].vars, i) + [v] && v.coro == Some(c)
    requires Holds(frames1, p, |frames[p].vars|, v, c)
    ensures HandlesOk(frames1)
  {
    VarHolds(frames, p, i);
    forall f | 0 <= f < |frames1|
      ensures FrameVarsOk(frames1, f) && HolderOk(frames1, f)
    {
      assert FrameVarsOk(frames, f) && HolderOk(frames, f);
      forall j | 0 <= j < |frames1[f].vars|
        ensures VarOk(frames1, f, j)
      {
        if f != c && (f != p || (j != i && j < |frames[p].vars|)) { OthersHold(frames, frames1, p, i, c, f, j); }
      }
    }
  }

  lemma {:induction false} MovedKeepsHandles(t: Task, f: nat, i: nat, v: Local)
    requires HandlesOk(t.frames) && f < |t.frames| && (t.frames[f].body.code.Move? || t.frames[f].body.code.Via?) && i < |t.frames[f].vars|
    requires !t.frames[f].status.Created? && v.coro == t.frames[f].vars[i].coro
    requires v == t.frames[f].vars[i] || (!t.frames[f].vars[i].resched && v.resched && v.what == t.frames[f].vars[i].what.(ex := v.what.ex))
    ensures HandlesOk(Moved(t, f, i, v).frames) && |Moved(t, f, i, v).frames| == |t.frames|
    ensures v.coro.Some? ==> Touches(t.frames, Moved(t, f, i, v).frames, f, v.coro.value)
    ensures v.coro.None? ==> Moved(t, f, i, v).frames == t.frames[f := Moved(t, f, i, v).frames[f]]
  {
    var t1 := Moved(t, f, i, v);
    if v.coro.Some? {
      VarHolds(t.frames, f, i);
      MoveKeepsHandles(t.frames, t1.frames, f, i, v.coro.value, v);
    } else {
      MovedNothing(t.frames, t1.frames, f, i, v);
    }
  }

  lemma {:induction false} MovedNothing(frames: seq<Frame>, frames1: seq<Frame>, p: nat, i: nat, v: Local)
    requires HandlesOk(frames) && p < |frames| && i < |frames[p].vars| && v.coro.None? && frames[p].vars[i].coro.None?
    requires |frames1| == |frames| && frames1 == frames[p := frames1[p]] && frames1[p].vars == Gone(frames[p].vars, i) + [v]
    requires !frames[p].status.Created? && !frames1[p].status.Created?
    ensures HandlesOk(frames1)
  {
    forall f | 0 <= f < |frames1|
      ensures FrameVarsOk(frames1, f) && HolderOk(frames1, f)
    {
      assert FrameVarsOk(frames, f) && HolderOk(frames, f);
      forall j | 0 <= j < |frames1[f].vars|
        ensures VarOk(frames1, f, j)
      {
        assert j < |frames[f].vars| ==> VarOk(frames, f, j);
      }
    }
  }

  lemma {:induction false} MakeKeepsHandles(t: Task, f: nat)
    requires HandlesOk(t.frames) && f < |t.frames| && t.frames[f].body.code.Make? && !t.frames[f].status.Created?
    ensures HandlesOk(MakeStep(t, f).frames)
  {
    var frames, frames1 := t.frames, MakeStep(t, f).frames;
    forall g | 0 <= g < |frames1|
      ensures FrameVarsOk(frames1, g) && HolderOk(frames1, g)
    {
      assert g < |frames| ==> FrameVarsOk(frames, g) && HolderOk(frames, g);
      forall j | 0 <= j < |frames1[g].vars|
        ensures VarOk(frames1, g, j)
      {
        assert g < |frames| && j < |frames[g].vars| ==> VarOk(frames, g, j);
      }
    }
  }

  /** A variable that dies with a coroutine: destroyed or leaked, it is nobody's any more. */
  lemma {:induction false} DropKeepsHandles(t: Task, f: nat)
    requires HandlesOk(t.frames) && f < |t.frames| && t.frames[f].vars != [] && !t.frames[f].status.Created?
    ensures DropStep(t, f).Ok? && HandlesOk(DropStep(t, f).t.frames)
    ensures var v := t.frames[f].vars[|t.frames[f].vars| - 1];
      if v.coro.Some? then Touches(t.frames, DropStep(t, f).t.frames, f, v.coro.value)
      else DropStep(t, f).t.frames == t.frames[f := t.frames[f].(vars := Pop(t.frames[f].vars))]
  {
    var fr := t.frames[f];
    var n := |fr.vars| - 1;
    if fr.vars[n].coro.Some? {
      VarHolds(t.frames, f, n);
      TakeKeepsHandles(t.frames, DropStep(t, f).t.frames, f, n, fr.vars[n].coro.value);
    } else {
      DroppedNothing(t.frames, DropStep(t, f).t.frames, f);
    }
  }

  lemma {:induction false} DroppedNothing(frames: seq<Frame>, frames1: seq<Frame>, p: nat)
    requires HandlesOk(frames) && p < |frames| && frames[p].vars != [] && frames[p].vars[|frames[p].vars| - 1].coro.None?
    requires frames1 == frames[p := frames[p].(vars := Pop(frames[p].vars))]
    ensures HandlesOk(frames1)
  {
    forall f | 0 <= f < |frames1|
      ensures FrameVarsOk(frames1, f) && HolderOk(frames1, f)
    {
      assert FrameVarsOk(frames, f) && HolderOk(frames, f);
      forall j | 0 <= j < |frames1[f].vars|
        ensures VarOk(frames1, f, j)
      {
        assert VarOk(frames, f, j);
      }
    }
  }
}
