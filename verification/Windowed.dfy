/** `CollectAllWindowed`: at most `max_concurrency` tasks at a time, group after group. */
module Windowed {
  import opened TryModel
  import opened TaskLog
  import opened CollectObjects

  /** The answers for the tasks from `base` on. */
  function From(answers: nat -> bool, base: nat): nat -> bool {
    (i: nat) => answers(base + i)
  }

  lemma {:induction false} RefusedFrom(answers: nat -> bool, base: nat, n: nat)
    ensures SomeRefused(From(answers, base), 0, n) <==> SomeRefused(answers, base, base + n)
  {
    var shifted := From(answers, base);
    if SomeRefused(answers, base, base + n) {
      var i: nat :| base <= i < base + n && !answers(i);
      var k: nat := i - base;
      assert !shifted(k);
    }
    if SomeRefused(shifted, 0, n) {
      var k: nat :| k < n && !shifted(k);
      assert !answers(base + k);
    }
  }

  /** `co_await AT(group)`: CollectAll of the tasks base, base + 1, ..., launched when nothing else is in flight. */
  method AwaitGroup(group: seq<Try<int>>, base: nat, para: bool, answers: nat -> bool, log0: seq<Event>, ghost bound: int)
      returns (output: Option<seq<Try<int>>>, log: seq<Event>)
    requires |group| <= VECTOR_MAX && InFlight(log0) == 0 && |group| <= bound && Bounded(log0, bound)
    ensures output.None? <==> para && |group| > 1 && SomeRefused(answers, base, base + |group|)
    ensures output.Some? ==> output.value == group && InFlight(log) == 0 && Bounded(log, bound)
    ensures output.Some? ==> Launches(log) == Launches(log0) + UpTo(base, base + |group|) && Yields(log) == Yields(log0)
    ensures output.Some? ==> Segments(log) == Longer(Segments(log0), UpTo(base, base + |group|))
  {
    log := log0;
    if |group| == 0 {
      LongerTwice(Segments(log0), [], 0);
      return Some([]), log;
    }
    var resumed, lost, events := CollectAll(group, para, From(answers, base));
    RefusedFrom(answers, base, |group|);
    if lost {
      return None, log;
    }
    LogAppend(log0, events, base);
    SegmentAppend(log0, events, base);
    BoundedAppend(log0, events, base, bound);
    assert Plus(UpTo(0, |group|), base) == UpTo(base, base + |group|);
    log := log0 + Renumbered(events, base);
    output := Some(resumed[0]);
  }

  function Min(a: nat, b: nat): nat {
    if a <= b then a else b
  }

  /** How many groups the loop makes of n tasks. */
  function Groups(n: nat, window: nat): nat {
    if n == 0 || window == 0 then 0 else if n <= window then 1 else 1 + Groups(n - window, window)
  }

  /** The groups from task `start` on, and the empty rest after the last Yield. */
  function Slices(n: nat, window: nat, start: nat): (s: seq<seq<nat>>)
    requires window > 0 && start <= n
    ensures |s| == Groups(n - start, window) + 1
    decreases n - start
  {
    if start == n then [[]] else
    var end := Min(n, start + window);
    [UpTo(start, end)] + Slices(n, window, end)
  }

  lemma {:induction false} SliceOut(s: seq<seq<nat>>, group: seq<nat>, rest: seq<seq<nat>>)
    requires s != [] && s[|s| - 1] == []
    ensures var s1 := Longer(s, group) + [[]];
      s1[|s1| - 1] == [] && s1[..|s1| - 1] + rest == s[..|s| - 1] + ([group] + rest)
  {
    var s1 := Longer(s, group) + [[]];
    assert [] + group == group;
    assert s1[..|s1| - 1] == s[..|s| - 1] + [group];
  }

  /** The groups before task `start` have been launched, one Yield after each, or all in one go. */
  predicate Sliced(log: seq<Event>, giveWay: bool, n: nat, window: nat, start: nat)
    requires window > 0 && start <= n
  {
    var s := Segments(log);
    if giveWay
    then s[|s| - 1] == [] && s[..|s| - 1] + Slices(n, window, start) == Slices(n, window, 0)
    else s == [UpTo(0, start)]
  }

  lemma {:induction false} SlicedAtFirst(giveWay: bool, n: nat, window: nat)
    requires window > 0
    ensures Sliced([], giveWay, n, window, 0)
  {
    assert Segments([]) == [[]] && UpTo(0, 0) == [];
    assert [[]][..0] + Slices(n, window, 0) == Slices(n, window, 0);
    hide Slices;
  }

  lemma {:induction false} SlicedOn(log0: seq<Event>, log: seq<Event>, giveWay: bool, n: nat, window: nat, start: nat)
    requires window > 0 && start < n && Sliced(log0, giveWay, n, window, start)
    requires Segments(log) == Longer(Segments(log0), UpTo(start, Min(n, start + window)))
    ensures Sliced(if giveWay then log + [GaveWay] else log, giveWay, n, window, Min(n, start + window))
  {
    var end := Min(n, start + window);
    var group := UpTo(start, end);
    LogPush(log, GaveWay);
    if giveWay {
      assert Slices(n, window, start) == [group] + Slices(n, window, end);
      hide Slices, Segments, Longer;
      SliceOut(Segments(log0), group, Slices(n, window, end));
    } else {
      UpToJoin(start, end);
      hide Slices;
    }
  }

  /** At the end the segments are the slices, whose number is that of the Yields and one more. */
  lemma {:induction false} SlicedAtLast(log: seq<Event>, giveWay: bool, n: nat, window: nat)
    requires window > 0 && Sliced(log, giveWay, n, window, n)
    ensures Segments(log) == if giveWay then Slices(n, window, 0) else [UpTo(0, n)]
    ensures Yields(log) == if giveWay then Groups(n, window) else 0
  {
    assert Slices(n, window, n) == [[]];
    var s, all := Segments(log), Slices(n, window, 0);
    assert |s| == Yields(log) + 1;
    if giveWay {
      assert s[..|s| - 1] + [[]] == s;
      assert |all| == Groups(n, window) + 1;
    }
    hide Slices, Segments, Groups, Yields;
  }

  /** Does the executor refuse a task of a group that is scheduled? That is one of at least two tasks. */
  predicate Refused(n: nat, window: nat, start: nat, answers: nat -> bool)
    decreases n - start
  {
    if start >= n || window == 0 then false else
    var end := Min(n, start + window);
    (end - start > 1 && SomeRefused(answers, start, end)) || Refused(n, window, end, answers)
  }

  lemma {:induction false} RefusedOn(n: nat, window: nat, start: nat, answers: nat -> bool)
    requires window > 0 && start < n
    ensures var end := Min(n, start + window);
      Refused(n, window, start, answers) <==> (end - start > 1 && SomeRefused(answers, start, end)) || Refused(n, window, end, answers)
    ensures !Refused(n, window, n, answers)
  {
    hide SomeRefused;
  }

  /** Moves the tasks start, ..., end - 1 out of the input, each for the first time. */
  method TakeGroup(tasks: seq<Try<int>>, moved: array<bool>, start: nat, end: nat) returns (group: seq<Try<int>>)
    requires start <= end <= |tasks| == moved.Length
    requires forall i :: start <= i < end ==> !moved[i]
    modifies moved
    ensures group == tasks[start..end]
    ensures forall i :: 0 <= i < moved.Length ==> moved[i] == if start <= i < end then true else old(moved[i])
  {
    group := [];
    for i := start to end
      invariant group == tasks[start..i]
      invariant forall k :: 0 <= k < moved.Length ==> moved[k] == if start <= k < i then true else old(moved[k])
    {
      assert !moved[i];
      group := group + [tasks[i]];
      moved[i] := true;
    }
  }

  lemma {:induction false} EmptyLog(bound: int)
    requires bound >= 0
    ensures InFlight([]) == 0 && Launches([]) == UpTo(0, 0) && Yields([]) == 0 && Bounded([], bound) && Segments([]) == [[]]
  {
  }

  lemma {:induction false} TakenMore(tasks: seq<Try<int>>, start: nat, end: nat)
    requires start <= end <= |tasks|
    ensures tasks[..start] + tasks[start..end] == tasks[..end]
  {
  }

  lemma {:induction false} UpToJoin(a: nat, b: nat)
    requires a <= b
    ensures UpTo(0, a) + UpTo(a, b) == UpTo(0, b)
  {
  }

  /** `if (yield) co_await Yield{};` */
  method GiveWayIf(giveWay: bool, log0: seq<Event>, ghost bound: nat) returns (log: seq<Event>)
    requires InFlight(log0) == 0 && Bounded(log0, bound)
    ensures log == (if giveWay then log0 + [GaveWay] else log0)
    ensures InFlight(log) == 0 && Launches(log) == Launches(log0) && Bounded(log, bound)
  {
    log := log0;
    if giveWay {
      LogPush(log, GaveWay);
      BoundedPush(log, GaveWay, bound);
      assert Launches(log0) + [] == Launches(log0);
      log := log + [GaveWay];
    }
  }

  /** The log of the groups before task `start`. */
  predicate GroupsRun(log: seq<Event>, giveWay: bool, n: nat, window: nat, start: nat)
    requires window > 0 && start <= n
  {
    InFlight(log) == 0 && Bounded(log, window) && Launches(log) == UpTo(0, start) && Sliced(log, giveWay, n, window, start)
  }

  /** One turn of the loop: the tasks start, ..., end - 1 are moved out and awaited, and then it may give way. */
  method RunGroup(window: nat, giveWay: bool, tasks: seq<Try<int>>, para: bool, answers: nat -> bool, moved: array<bool>,
                  start: nat, end: nat, log0: seq<Event>)
      returns (part: Option<seq<Try<int>>>, log: seq<Event>)
    requires window > 0 && start < |tasks| == moved.Length <= VECTOR_MAX && end == Min(|tasks|, start + window)
    requires GroupsRun(log0, giveWay, |tasks|, window, start)
    requires forall i :: start <= i < |tasks| ==> !moved[i]
    modifies moved
    ensures part.None? <==> para && end - start > 1 && SomeRefused(answers, start, end)
    ensures part.Some? ==> part.value == tasks[start..end] && GroupsRun(log, giveWay, |tasks|, window, end)
    ensures forall i :: end <= i < |tasks| ==> !moved[i]
  {
    var group := TakeGroup(tasks, moved, start, end);
    hide InFlight, Launches, Yields, Segments, Longer, Bounded, UpTo, Sliced, SomeRefused;
    part, log := AwaitGroup(group, start, para, answers, log0, window);
    if part.Some? {
      UpToJoin(start, end);
      SlicedOn(log0, log, giveWay, |tasks|, window, start);
      log := GiveWayIf(giveWay, log, window);
    }
  }

  lemma {:induction false} NoneRun(giveWay: bool, n: nat, window: nat)
    requires window > 0
    ensures GroupsRun([], giveWay, n, window, 0)
  {
    EmptyLog(window);
    SlicedAtFirst(giveWay, n, window);
  }

  /** The looping path. `moved` says which lazies were moved out. */
  method GroupByGroup(window: nat, giveWay: bool, tasks: seq<Try<int>>, para: bool, answers: nat -> bool)
      returns (output: Option<seq<Try<int>>>, log: seq<Event>)
    requires 0 < window < |tasks| <= VECTOR_MAX
    ensures output.None? <==> para && Refused(|tasks|, window, 0, answers)
    ensures output.Some? ==> output.value == tasks && GroupsRun(log, giveWay, |tasks|, window, |tasks|)
  {
    var input_size := |tasks|;
    NoneRun(giveWay, input_size, window);
    hide GroupsRun, Refused, SomeRefused;
    var collected: seq<Try<int>> := [];
    var moved := new bool[input_size](i => false);
    log := [];
    var start := 0;
    while start < input_size
      invariant start <= input_size && collected == tasks[..start] && GroupsRun(log, giveWay, input_size, window, start)
      invariant forall i :: start <= i < input_size ==> !moved[i]
      invariant para ==> (Refused(input_size, window, 0, answers) <==> Refused(input_size, window, start, answers))
    {
      assert start + window < WORD;
      var base, end := start, Min(input_size, start + window);
      start := end;
      RefusedOn(input_size, window, base, answers);
      var part: Option<seq<Try<int>>>;
      part, log := RunGroup(window, giveWay, tasks, para, answers, moved, base, end, log);
      if part.None? {
        return None, log;
      }
      TakenMore(tasks, base, end);
      collected := collected + part.value;
    }
    NoneLeft(input_size, window, answers);
    output := Some(collected);
  }

  lemma {:induction false} NoneLeft(n: nat, window: nat, answers: nat -> bool)
    ensures !Refused(n, window, n, answers)
  {
  }

  /** CollectAllWindowedImpl returns what plain CollectAll returns, launches each task once and in order, keeps at most
      `window` of them in flight, and gives way once a group if asked to. It never comes to its end if and only if the executor
      refuses a task that is scheduled. */
  method CollectAllWindowed(window: nat, giveWay: bool, tasks: seq<Try<int>>, para: bool, answers: nat -> bool)
      returns (output: Option<seq<Try<int>>>, log: seq<Event>)
    requires |tasks| <= VECTOR_MAX && window < WORD
    ensures output.None? <==> para && Refused(|tasks|, if window == 0 then |tasks| else window, 0, answers)
    ensures output.Some? ==> output.value == tasks && Launches(log) == UpTo(0, |tasks|)
    ensures output.Some? ==> Bounded(log, if window == 0 then |tasks| else window)
    ensures output.Some? ==> Yields(log) == if giveWay && window != 0 && |tasks| > window then Groups(|tasks|, window) else 0
    ensures output.Some? ==>
      Segments(log) == if giveWay && window != 0 && |tasks| > window then Slices(|tasks|, window, 0) else [UpTo(0, |tasks|)]
  {
    var input_size := |tasks|;
    ghost var bound: nat := if window == 0 then |tasks| else window;
    if window == 0 || input_size <= window {
      if input_size > 0 { RefusedOn(input_size, bound, 0, answers); }
      EmptyLog(bound);
      output, log := AwaitGroup(tasks, 0, para, answers, [], bound);
    } else {
      output, log := GroupByGroup(window, giveWay, tasks, para, answers);
      if output.Some? { SlicedAtLast(log, giveWay, input_size, window); }
    }
  }
}
