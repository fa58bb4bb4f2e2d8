/** What an observer of the collect combinators sees of their tasks. */
module TaskLog {

  /** The loop launched a task, a task has finished, the loop gave way. */
  datatype Event = Launched(i: nat) | Finished(i: nat) | GaveWay

  /** The tasks in flight after `log`. */
  function InFlight(log: seq<Event>): int {
    if log == [] then 0 else
    InFlight(log[..|log| - 1]) +
    match log[|log| - 1]
    case Launched(_) => 1
    case Finished(_) => -1
    case GaveWay => 0
  }

  function Launches(log: seq<Event>): seq<nat> {
    if log == [] then [] else
    Launches(log[..|log| - 1]) + if log[|log| - 1].Launched? then [log[|log| - 1].i] else []
  }

  function Yields(log: seq<Event>): nat {
    if log == [] then 0 else Yields(log[..|log| - 1]) + if log[|log| - 1].GaveWay? then 1 else 0
  }

  /** The tasks launched before, between and after the times the loop gave way. */
  function Segments(log: seq<Event>): (s: seq<seq<nat>>)
    ensures |s| == Yields(log) + 1
  {
    if log == [] then [[]] else
    var s := Segments(log[..|log| - 1]);
    match log[|log| - 1]
    case Launched(i) => Longer(s, [i])
    case Finished(_) => s
    case GaveWay => s + [[]]
  }

  /** The last segment goes on. */
  function Longer(s: seq<seq<nat>>, more: seq<nat>): seq<seq<nat>>
    requires s != []
  {
    s[..|s| - 1] + [s[|s| - 1] + more]
  }

  /** Never more than `bound` tasks in flight. */
  predicate Bounded(log: seq<Event>, bound: int) {
    forall k :: 0 <= k <= |log| ==> InFlight(log[..k]) <= bound
  }

  function UpTo(a: nat, b: nat): seq<nat>
    requires a <= b
  {
    seq(b - a, k requires 0 <= k < b - a => a + k)
  }

  lemma {:induction false} LogPush(log: seq<Event>, ev: Event)
    ensures InFlight(log + [ev]) == InFlight(log) + (if ev.Launched? then 1 else if ev.Finished? then -1 else 0)
    ensures Launches(log + [ev]) == Launches(log) + (if ev.Launched? then [ev.i] else [])
    ensures Yields(log + [ev]) == Yields(log) + (if ev.GaveWay? then 1 else 0)
    ensures Segments(log + [ev]) ==
      if ev.Launched? then Longer(Segments(log), [ev.i]) else if ev.GaveWay? then Segments(log) + [[]] else Segments(log)
  {
    assert (log + [ev])[..|log|] == log;
  }

  lemma {:induction false} BoundedPush(log: seq<Event>, ev: Event, bound: int)
    requires Bounded(log, bound) && InFlight(log + [ev]) <= bound
    ensures Bounded(log + [ev], bound)
  {
    forall k | 0 <= k <= |log| + 1
      ensures InFlight((log + [ev])[..k]) <= bound
    {
      if k <= |log| {
        assert (log + [ev])[..k] == log[..k];
      } else {
        assert (log + [ev])[..k] == log + [ev];
      }
    }
  }

  function Shifted(ev: Event, base: nat): Event {
    match ev
    case Launched(i) => Launched(base + i)
    case Finished(i) => Finished(base + i)
    case GaveWay => GaveWay
  }

  /** The log of a group whose first task is number `base`. */
  function Renumbered(log: seq<Event>, base: nat): seq<Event> {
    seq(|log|, k requires 0 <= k < |log| => Shifted(log[k], base))
  }

  function Plus(s: seq<nat>, base: nat): seq<nat> {
    seq(|s|, k requires 0 <= k < |s| => base + s[k])
  }

  /** One log after another, the first of which left nothing in flight. */
  lemma {:induction false} LogAppend(log: seq<Event>, more: seq<Event>, base: nat)
    ensures InFlight(log + Renumbered(more, base)) == InFlight(log) + InFlight(more)
    ensures Launches(log + Renumbered(more, base)) == Launches(log) + Plus(Launches(more), base)
    ensures Yields(log + Renumbered(more, base)) == Yields(log) + Yields(more)
    decreases |more|
  {
    if more == [] {
      assert log + Renumbered(more, base) == log;
    } else {
      var older, ev := more[..|more| - 1], more[|more| - 1];
      LogAppend(log, older, base);
      RenumberedPush(log, older, ev, base);
      LogPush(log + Renumbered(older, base), Shifted(ev, base));
      assert more == older + [ev];
      LogPush(older, ev);
      hide InFlight, Launches, Yields;
      PlusPush(Launches(older), ev, base);
    }
  }

  lemma {:induction false} PlusOne(s: seq<nat>, i: nat, base: nat)
    ensures Plus(s + [i], base) == Plus(s, base) + [base + i]
  {
  }

  lemma {:induction false} LongerTwice(s: seq<seq<nat>>, more: seq<nat>, i: nat)
    requires s != []
    ensures Longer(Longer(s, more), [i]) == Longer(s, more + [i])
    ensures Longer(s, []) == s
  {
    var t := Longer(s, more);
    assert t[..|t| - 1] == s[..|s| - 1] && t[|t| - 1] == s[|s| - 1] + more;
    assert (s[|s| - 1] + more) + [i] == s[|s| - 1] + (more + [i]);
    assert s[|s| - 1] + [] == s[|s| - 1];
  }

  /** One more event, which is not GaveWay, after a log whose last segment got longer by p. */
  lemma {:induction false} SegmentPush(log: seq<Event>, s: seq<seq<nat>>, p: seq<nat>, ev: Event, base: nat)
    requires s != [] && Segments(log) == Longer(s, Plus(p, base)) && !ev.GaveWay?
    ensures Segments(log + [Shifted(ev, base)]) == Longer(s, Plus(p + (if ev.Launched? then [ev.i] else []), base))
  {
    LogPush(log, Shifted(ev, base));
    hide Segments, Launches, Yields, InFlight, Longer;
    if ev.Launched? {
      PlusOne(p, ev.i, base);
      LongerTwice(s, Plus(p, base), base + ev.i);
    } else {
      assert p + [] == p;
    }
  }

  /** A log that never gives way makes the last segment longer. */
  lemma {:induction false} SegmentAppend(log: seq<Event>, more: seq<Event>, base: nat)
    requires Yields(more) == 0
    ensures Segments(log + Renumbered(more, base)) == Longer(Segments(log), Plus(Launches(more), base))
    decreases |more|
  {
    if more == [] {
      assert log + Renumbered(more, base) == log && Plus(Launches(more), base) == [];
      hide Segments;
      LongerTwice(Segments(log), [], 0);
    } else {
      var older, ev := more[..|more| - 1], more[|more| - 1];
      assert more == older + [ev];
      LogPush(older, ev);
      hide Segments, Launches, Yields, InFlight, Longer, Renumbered, Plus, Shifted;
      SegmentAppend(log, older, base);
      RenumberedPush(log, older, ev, base);
      SegmentPush(log + Renumbered(older, base), Segments(log), Launches(older), ev, base);
    }
  }

  lemma {:induction false} RenumberedPush(log: seq<Event>, older: seq<Event>, ev: Event, base: nat)
    ensures log + Renumbered(older + [ev], base) == (log + Renumbered(older, base)) + [Shifted(ev, base)]
  {
  }

  lemma {:induction false} PlusPush(s: seq<nat>, ev: Event, base: nat)
    ensures ev.Launched? ==> Plus(s + [ev.i], base) == Plus(s, base) + [base + ev.i]
    ensures forall a: seq<nat>, i: nat :: (a + Plus(s, base)) + [i] == a + (Plus(s, base) + [i])
  {
  }

  lemma {:induction false} BoundedAppend(log: seq<Event>, more: seq<Event>, base: nat, bound: int)
    requires Bounded(log, bound) && Bounded(more, bound) && InFlight(log) == 0
    ensures Bounded(log + Renumbered(more, base), bound)
  {
    var all := log + Renumbered(more, base);
    forall k | 0 <= k <= |all|
      ensures InFlight(all[..k]) <= bound
    {
      if k <= |log| {
        assert all[..k] == log[..k];
      } else {
        assert all[..k] == log + Renumbered(more[..k - |log|], base);
        LogAppend(log, more[..k - |log|], base);
      }
    }
  }
}
