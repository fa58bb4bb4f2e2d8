/** The future-side CollectAll as code: the scan, the loop that installs continuations, and the context whose destructor
    sets the promise, while results arrive and continuations run at any moment. */
module FutureCollectObject {
  import opened TryModel
  import opened Tallies
  import opened FutureCollect

  function Stages(slot: Slot): nat {
    match slot
    case Waiting => 3
    case Calling => 2
    case Called => 1
    case _ => 0
  }

  class Collector {
    const vals: seq<Try<int>>
    const results: array<Try<int>>      // the context's members
    var refs: nat
    var alive: bool
    var ready: seq<bool>
    var conts: seq<Slot>
    var delivered: seq<seq<Try<int>>>
    var main: MainPc

    ghost function Abs(): State
      reads this, results
    {
      State(vals, ready, main, conts, results[..], refs, alive, delivered)
    }

    ghost predicate Valid()
      reads this, results
    {
      Inv(Abs()) && |ready| == |conts| == |vals| == results.Length
    }

    constructor (vals: seq<Try<int>>, ready: seq<bool>)
      requires |ready| == |vals|
      ensures Valid() && Abs() == Initial(vals, ready) && fresh(results)
    {
      this.vals, this.ready := vals, ready;
      results := new Try<int>[|vals|](i => Nothing);
      refs, alive, delivered := 0, false, [];
      conts := seq(|vals|, i => Absent);
      main := Scanning(0);
      new;
      assert results[..] == Initial(vals, ready).results;
    }

    /** A shared_ptr to the context dies; the last one runs ~Context. */
    method Drop()
      requires alive && refs > 0
      modifies this`refs, this`alive, this`delivered
      ensures Ok(Abs()) == Release(old(Abs()))
    {
      refs := refs - 1;
      if refs == 0 {
        alive := false;
        delivered := delivered + [results[..]];
      }
    }

    /** A result arrives at future i. */
    method SetResult(i: nat)
      requires Valid() && i < |vals| && !ready[i]
      modifies this`ready
      ensures Ok(Abs()) == Next(old(Abs()), Arrive(i)) && Valid()
      ensures Tally(ready, Missing) < Tally(old(ready), Missing)
    {
      ArriveKeepsInv(Abs(), i);
      TallyUpdate(ready, i, true, Missing);
      ready := ready[i := true];
    }

    /** The continuation of future i moves on: it is called, stores the result, returns, is destroyed. */
    method Continue(i: nat)
      requires Valid() && Enabled(Abs(), Advance(i), false)
      modifies this`conts, this`refs, this`alive, this`delivered, results
      ensures Ok(Abs()) == Next(old(Abs()), Advance(i)) && Valid()
      ensures Tally(conts, Stages) < Tally(old(conts), Stages)
    {
      StepKeepsInv(Abs(), Advance(i));
      ghost var s1 := Next(Abs(), Advance(i)).s;
      assert s1.conts == conts[i := s1.conts[i]] && Stages(s1.conts[i]) < Stages(conts[i]);
      TallyUpdate(conts, i, s1.conts[i], Stages);
      hide Inv;
      match conts[i] {
        case Waiting =>
          conts := conts[i := Calling];
        case Calling =>
          conts := conts[i := Called];
          results[i] := vals[i];
        case Called =>
          conts := conts[i := Gone];
          Drop();
      }
    }

    /** Any number of other threads do anything they can. */
    method Others()
      requires Valid()
      modifies this`ready, this`conts, this`refs, this`alive, this`delivered, results
      ensures Valid()
      ensures forall i :: 0 <= i < |vals| && old(ready)[i] ==> ready[i]
    {
      hide Inv;
      var steps: nat := *;
      while steps > 0
        invariant Valid()
        invariant forall i :: 0 <= i < |vals| && old(ready)[i] ==> ready[i]
        decreases steps
      {
        var i: nat, arrive: bool := *, *;
        if i < |vals| {
          if arrive && !ready[i] {
            SetResult(i);
          } else if conts[i].Calling? || conts[i].Called? || (conts[i].Waiting? && ready[i]) {
            Continue(i);
          }
        }
        steps := steps - 1;
      }
    }

    /** The next operation of the scan. */
    method Scan(i: nat) returns (more: bool)
      requires Valid() && main == Scanning(i) && i <= |vals|
      modifies this
      ensures Valid() && Ok(Abs()) == MainStep(old(Abs())) && (more <==> main == Scanning(i + 1))
    {
      MainKeepsInv(Abs());
      hide Inv;
      more := false;
      if i >= |vals| {
        delivered := delivered + [vals];
        main := Finished;
      } else if ready[i] {
        more := true;
        main := Scanning(i + 1);
      } else {
        refs, alive := 1, true;
        main := Looping(0);
      }
    }

    /** The next operation of the loop, for future i. */
    method Collect(i: nat)
      requires Valid() && i < |vals| && !main.Scanning? && !main.Leaving? && !main.Finished? && main.i == i
      modifies this, results
      ensures Valid() && Ok(Abs()) == MainStep(old(Abs()))
    {
      MainKeepsInv(Abs());
      hide Inv;
      match main {
        case Looping(_) =>
          if ready[i] {
            results[i] := vals[i];
            main := Looping(i + 1);
          } else {
            main := Wrapping(i);
          }
        case Wrapping(_) =>
          refs := refs + 1;
          main := Installing(i);
        case Installing(_) =>
          conts := conts[i := Waiting];
          refs := refs + 1;
          main := Unwrapping(i);
        case Unwrapping(_) =>
          Drop();
          main := Looping(i + 1);
      }
    }

    /** The loop body for future i. */
    method CollectOne(i: nat)
      requires Valid() && i < |vals| && main == Looping(i)
      modifies this, results
      ensures Valid() && main == Looping(i + 1)
    {
      hide Inv;
      Others();
      Collect(i);
      if main.Wrapping? {
        Others();
        Collect(i);
        Others();
        Collect(i);
        Others();
        Collect(i);
      }
    }

    /** CollectAll(begin, end): the future it returns is ready at once, or `delivered` later. */
    method CollectAll()
      requires Valid() && main == Scanning(0)
      modifies this, results
      ensures Valid() && main == Finished
    {
      hide Inv;
      var i, more := 0, true;
      while more
        invariant Valid() && i <= |vals|
        invariant if more then main == Scanning(i) else main == Finished || main == Looping(0)
        decreases |vals| - i, more
      {
        Others();
        more := Scan(i);
        if more {
          i := i + 1;
        }
      }
      if main == Finished {
        return;
      }
      i := 0;
      while i < |vals|
        invariant Valid() && i <= |vals| && main == Looping(i)
      {
        CollectOne(i);
        i := i + 1;
      }
      Others();
      Leave();
    }

    method Leave()
      requires Valid() && main == Looping(|vals|)
      modifies this, results
      ensures Valid() && main == Finished
    {
      MainKeepsInv(Abs());
      main := Leaving;
      Others();
      MainKeepsInv(Abs());
      hide Inv;
      Drop();
      main := Finished;
    }
  }

  lemma {:induction false} Collected(s: State)
    requires Inv(s) && Sized(s) && s.main.Finished? && forall i :: 0 <= i < |s.vals| ==> s.ready[i] && Stages(s.conts[i]) == 0
    ensures s.delivered == [s.vals]
  {
    TallyZero(s.conts, Holds);
  }

  /** CollectAll to the end: the results arrive in any order and at any time, every continuation runs whenever it likes, and
      the collected promise is set once, with every result in its place. */
  method CollectAll(vals: seq<Try<int>>, ready: seq<bool>) returns (delivered: seq<seq<Try<int>>>)
    requires |ready| == |vals|
    ensures delivered == [vals]
  {
    var c := new Collector(vals, ready);
    c.CollectAll();
    hide Inv;
    while exists i :: 0 <= i < |c.vals| && (!c.ready[i] || Stages(c.conts[i]) > 0)
      invariant c.Valid() && c.main == Finished
      decreases Tally(c.ready, Missing), Tally(c.conts, Stages)
    {
      var i :| 0 <= i < |c.vals| && (!c.ready[i] || Stages(c.conts[i]) > 0);
      if !c.ready[i] {
        c.SetResult(i);
      } else {
        c.Continue(i);
      }
    }
    Collected(c.Abs());
    delivered := c.delivered;
  }
}
