/** The latch and the two awaiters as objects: their members are updated in place by the launching loop and by the
    callbacks, and between any two atomic operations every other party may take any number of steps. */
module CollectObjects {
  import opened TryModel
  import opened Tallies
  import opened TaskLog
  import A = CollectAllMachine
  import Y = CollectAnyMachine

  /** std::size_t wraps around. */
  const WORD: nat := 0x1_0000_0000_0000_0000

  /** What std::vector can hold at most. */
  const VECTOR_MAX: nat := 0x7fff_ffff_ffff_ffff

  class CountEvent {
    var count: nat
    var awaiting: bool     // is awaiting_coroutine_ set?

    constructor (n: nat)
      requires n < WORD
      ensures count == (n + 1) % WORD && !awaiting
    {
      count := if n + 1 == WORD then 0 else n + 1;
      awaiting := false;
    }

    method SetAwaitingCoroutine()
      modifies this`awaiting
      ensures awaiting
    {
      awaiting := true;
    }

    /** count_.fetch_sub(n). */
    method DownCount(n: nat) returns (before: nat)
      requires count < WORD && n < WORD
      modifies this`count
      ensures before == old(count) && count == if n <= before then before - n else before + WORD - n
    {
      before := count;
      count := if n <= count then count - n else count + WORD - n;
    }

    /** std::exchange(awaiting_coroutine_, nullptr). */
    method TakeAwaitingCoroutine() returns (h: bool)
      modifies this`awaiting
      ensures h == old(awaiting) && !awaiting
    {
      h := awaiting;
      awaiting := false;
    }
  }

  // ---------------------------------------------------------------- CollectAllAwaiter

  lemma {:induction false} TallyBelow(pcs: seq<A.Pc>)
    ensures Tally(pcs, A.Weight) <= |pcs|
  {
    if pcs != [] { TallyBelow(pcs[1..]); }
  }

  /** What the code of one step reads off the invariant. */
  lemma {:induction false} MoveFacts(s: A.State, p: nat)
    requires A.Inv(s) && A.Enabled(s, p)
    ensures s.alive && s.count <= |s.pcs| && A.Sized(s)
    ensures s.pcs[p].Running? ==> p < |s.results|
    ensures s.pcs[p].Counting? ==> s.count > 0
  {
    if s.pcs[p].Counting? { TallyAtLeast(s.pcs, p, A.Weight); }
    A.StepKeepsInv(s, p, true);
    assert p < |s.results| ==> A.TaskPc(s.pcs[p], s.pcs[|s.results|], p);
    TallyBelow(s.pcs);
  }

  lemma {:induction false} MovesWhere(s: A.State, p: nat)
    requires A.Inv(s) && A.Enabled(s, p)
    ensures A.Sized(s) && (s.pcs[p].Looping? ==> p == |s.results|)
    ensures s.pcs[p].Looping? && s.pcs[p].i < |s.results| ==> s.pcs[s.pcs[p].i].Unlaunched?
  {
    assert p < |s.results| ==> A.TaskPc(s.pcs[p], s.pcs[|s.results|], p);
    assert A.Launching(s, p) ==> A.TaskPc(s.pcs[s.pcs[p].i], s.pcs[|s.results|], s.pcs[p].i);
    hide A.LastOnly, A.Outputs, A.LostByRefusal, A.Logged;
  }

  lemma {:induction false} OthersLeaveMe(s: A.State, p: nat, accepted: bool, me: nat)
    requires A.Inv(s) && A.Enabled(s, p) && me < |s.pcs| && me != p && !s.pcs[me].Unlaunched?
    ensures A.Next(s, p, accepted).Ok? && A.Next(s, p, accepted).s.pcs[me] == s.pcs[me]
  {
    hide A.Inv;
    MovesWhere(s, p);
    A.StepKeepsInv(s, p, accepted);
  }

  lemma {:induction false} AllLaunched(s: A.State)
    requires A.Inv(s) && A.Sized(s) && s.pcs[|s.results|].Done?
    ensures forall i :: 0 <= i < |s.results| ==> !s.pcs[i].Unlaunched?
  {
    assert forall i :: 0 <= i < |s.results| ==> A.TaskPc(s.pcs[i], s.pcs[|s.results|], i);
  }

  /** The answer that party p gets in its next step, if it schedules a task. */
  function Answer(s: A.State, p: nat, answers: nat -> bool): bool
    requires p < |s.pcs|
  {
    if s.pcs[p].Looping? then answers(s.pcs[p].i) else true
  }

  /** Is scheduling task `from`, or one after it below `to`, refused? */
  predicate SomeRefused(answers: nat -> bool, from: nat, to: nat) {
    exists i: nat :: from <= i < to && !answers(i)
  }

  /** Of the tasks launched, those are lost whose scheduling was refused. */
  predicate Answered(s: A.State, answers: nat -> bool) {
    |s.pcs| == |s.results| + 1 &&
    forall p :: 0 <= p < |s.results| && !s.pcs[p].Unlaunched? ==> (s.pcs[p].Lost? <==> s.para && |s.results| > 1 && !answers(p))
  }

  lemma {:induction false} AnsweredKept(s: A.State, p: nat, answers: nat -> bool)
    requires A.Inv(s) && A.Enabled(s, p) && Answered(s, answers) && A.Sized(s) && A.Next(s, p, Answer(s, p, answers)).Ok?
    ensures Answered(A.Next(s, p, Answer(s, p, answers)).s, answers)
  {
    hide A.Inv;
    MovesWhere(s, p);
  }

  /** When every task has been launched, one is lost exactly if a Schedule that was made was refused. */
  lemma {:induction false} LostIfRefused(s: A.State, answers: nat -> bool)
    requires A.Inv(s) && Answered(s, answers) && s.pcs[|s.results|].Done?
    ensures (exists p :: 0 <= p < |s.pcs| && s.pcs[p].Lost?) <==>
            s.para && |s.results| > 1 && SomeRefused(answers, 0, |s.results|)
  {
    AllLaunched(s);
    hide A.Inv;
    if SomeRefused(answers, 0, |s.results|) && s.para && |s.results| > 1 {
      var i: nat :| i < |s.results| && !answers(i);
      assert s.pcs[i].Lost?;
    }
  }

  class CollectAllAwaiter {
    const results: seq<Try<int>>       // what the callback of task i will be called with
    const para: bool                   // Para and an executor
    const answers: nat -> bool         // what the executor answers when task i is scheduled
    const output: array<Try<int>>
    const event: CountEvent
    var alive: bool
    var pcs: seq<A.Pc>
    var last: Option<nat>
    var log: seq<Event>                // tasks launched and finished
    var resumed: seq<seq<Try<int>>>

    ghost function Abs(): A.State
      reads this, output, event
    {
      A.State(results, para, output[..], event.count, event.awaiting, alive, pcs, last, log, resumed)
    }

    ghost predicate Valid()
      reads this, output, event
    {
      A.Inv(Abs()) && |pcs| == |results| + 1 && output.Length == |results| <= VECTOR_MAX && Answered(Abs(), answers)
    }

    constructor (tasks: seq<Try<int>>, para: bool, answers: nat -> bool)
      requires 0 < |tasks| <= VECTOR_MAX
      ensures Valid() && Abs() == A.Initial(tasks, para) && fresh(output) && fresh(event) && this.answers == answers
    {
      results, this.para, this.answers := tasks, para, answers;
      output := new Try<int>[|tasks|](i => Nothing);
      event := new CountEvent(|tasks|);
      alive, last, log, resumed := true, None, [], [];
      pcs := seq(|tasks|, i => A.Unlaunched) + [A.Looping(0)];
      new;
      assert output[..] == A.Initial(tasks, para).output;
      A.InitialInv(tasks, para);
    }

    /** One turn of the launching loop. */
    method LaunchNext(p: nat, accepted: bool)
      requires A.Sized(Abs()) && alive && p < |pcs| && pcs[p].Looping?
      modifies this
      ensures A.Ok(Abs()) == A.Next(old(Abs()), p, accepted)
    {
      var i := pcs[p].i;
      if i < |results| {
        var how := A.Running;
        if para && |results| > 1 {
          how := if accepted then A.Scheduled else A.Lost;
        }
        pcs := pcs[i := how];
        log := log + [Launched(i)];
        pcs := pcs[p := A.Looping(i + 1)];
      } else {
        pcs := pcs[p := A.Setting];
      }
    }

    /** The start of a scheduled task, the store of a result and SetAwaitingCoroutine. */
    method Work(p: nat)
      requires A.Sized(Abs()) && alive && p < |pcs| && (pcs[p].Scheduled? || pcs[p].Running? || pcs[p].Setting?)
      requires pcs[p].Running? ==> p < |results|
      modifies this, output, event
      ensures A.Ok(Abs()) == A.Next(old(Abs()), p, true)
    {
      match pcs[p] {
        case Setting =>
          event.SetAwaitingCoroutine();
          pcs := pcs[p := A.Counting];
        case Scheduled =>
          pcs := pcs[p := A.Running];
        case Running =>
          output[p] := results[p];
          pcs := pcs[p := A.Counting];
      }
    }

    /** The parts of Down, and the resumption, which moves the output away and destroys the awaiter. */
    method CountDown(p: nat)
      requires A.Sized(Abs()) && alive && p < |pcs| && (pcs[p].Counting? || pcs[p].Taking? || pcs[p].Resuming?)
      requires 0 < event.count < WORD || !pcs[p].Counting?
      modifies this, event
      ensures A.Ok(Abs()) == A.Next(old(Abs()), p, true)
    {
      match pcs[p] {
        case Counting =>
          var before := event.DownCount(1);
          pcs := pcs[p := if before == 1 then A.Taking else A.Done];
          if before == 1 {
            last := Some(p);
          }
          if p < |results| {
            log := log + [Finished(p)];
          }
        case Taking =>
          var h := event.TakeAwaitingCoroutine();
          pcs := pcs[p := if h then A.Resuming else A.Done];
        case Resuming =>
          resumed := resumed + [output[..]];
          alive := false;
          pcs := pcs[p := A.Done];
      }
    }

    /** Party p does its next atomic operation. */
    method Move(p: nat)
      requires Valid() && A.Enabled(Abs(), p)
      modifies this, output, event
      ensures A.Ok(Abs()) == A.Next(old(Abs()), p, Answer(old(Abs()), p, answers)) && Valid()
      ensures Tally(pcs, A.Rank) < old(Tally(pcs, A.Rank))
    {
      var accepted := if pcs[p].Looping? then answers(pcs[p].i) else true;
      A.StepKeepsInv(Abs(), p, accepted);
      AnsweredKept(Abs(), p, answers);
      A.StepShrinks(Abs(), p, accepted);
      MoveFacts(Abs(), p);
      hide A.Inv, Answered;
      if pcs[p].Looping? {
        LaunchNext(p, accepted);
      } else if pcs[p].Counting? || pcs[p].Taking? || pcs[p].Resuming? {
        CountDown(p);
      } else {
        Work(p);
      }
    }

    /** Everyone but `me` takes any number of steps. */
    method Interfere(me: nat)
      requires Valid() && me < |pcs| && !pcs[me].Unlaunched?
      modifies this, output, event
      ensures Valid() && |pcs| == |old(pcs)| && pcs[me] == old(pcs[me])
      ensures Tally(pcs, A.Rank) <= old(Tally(pcs, A.Rank))
    {
      hide A.Inv, A.Next;
      var p: nat := *;
      while p < |pcs| && p != me && !pcs[p].Unlaunched? && !pcs[p].Lost? && !pcs[p].Done?
        invariant Valid() && |pcs| == |old(pcs)| && pcs[me] == old(pcs[me])
        invariant Tally(pcs, A.Rank) <= old(Tally(pcs, A.Rank))
        decreases Tally(pcs, A.Rank)
      {
        OthersLeaveMe(Abs(), p, Answer(Abs(), p, answers), me);
        Move(p);
        p := *;
      }
    }

    /** `auto awaiting_coro = event.Down(); if (awaiting_coro) awaiting_coro.resume();` */
    method Down(me: nat)
      requires Valid() && me < |pcs| && pcs[me].Counting?
      modifies this, output, event
      ensures Valid() && |pcs| == |old(pcs)| && pcs[me].Done?
    {
      hide A.Inv;
      Move(me);
      if pcs[me].Taking? {
        Interfere(me);
        Move(me);
        if pcs[me].Resuming? {
          Interfere(me);
          Move(me);
        }
      }
    }

    /** The launching loop, SetAwaitingCoroutine and the loop's own Down. */
    method AwaitSuspend()
      requires Valid() && pcs[|results|] == A.Looping(0)
      modifies this, output, event
      ensures Valid() && pcs[|results|].Done? && forall i :: 0 <= i < |results| ==> !pcs[i].Unlaunched?
    {
      var n := |results|;
      hide A.Inv;
      for i := 0 to n
        invariant Valid() && pcs[n] == A.Looping(i)
      {
        Interfere(n);
        Move(n);
      }
      Interfere(n);
      Move(n);
      Interfere(n);
      Move(n);
      Interfere(n);
      Down(n);
      AllLaunched(Abs());
    }

    /** The callback of task i. */
    method OnTask(i: nat)
      requires Valid() && i < |results| && pcs[i].Running?
      modifies this, output, event
      ensures Valid() && pcs[i].Done?
    {
      Move(i);
      assert pcs[i].Counting?;
      Interfere(i);
      Down(i);
    }
  }

  lemma {:induction false} CollectAllEnds(s: A.State)
    requires A.Inv(s) && A.Sized(s) && s.pcs[|s.results|].Done?
    requires forall p :: 0 <= p < |s.pcs| ==> s.pcs[p].Unlaunched? || s.pcs[p].Lost? || s.pcs[p].Done?
    ensures s.resumed == if exists p :: 0 <= p < |s.pcs| && s.pcs[p].Lost? then [] else [s.results]
    ensures !s.para || |s.results| == 1 ==> forall p :: 0 <= p < |s.pcs| ==> !s.pcs[p].Lost?
    ensures Bounded(s.log, |s.results|) && Launches(s.log) == UpTo(0, |s.results|) && Yields(s.log) == 0
    ensures (forall p :: 0 <= p < |s.pcs| ==> !s.pcs[p].Lost?) ==> InFlight(s.log) == 0
  {
    A.StuckIsResumed(s);
    AllLaunched(s);
    TallyZero(s.pcs[..|s.results|], A.Flying);
  }

  /** CollectAll to the end, whatever the interleaving and whichever jobs the executor accepts: the awaiting coroutine gets
      every task's result, in order and once, unless a job was refused; then it is never resumed. Every task is launched
      once, in order, and none is in flight when the coroutine has been resumed. */
  method CollectAll(tasks: seq<Try<int>>, para: bool, answers: nat -> bool)
      returns (resumed: seq<seq<Try<int>>>, lost: bool, log: seq<Event>)
    requires 0 < |tasks| <= VECTOR_MAX
    ensures resumed == if lost then [] else [tasks]
    ensures lost <==> para && |tasks| > 1 && SomeRefused(answers, 0, |tasks|)
    ensures Launches(log) == UpTo(0, |tasks|) && Bounded(log, |tasks|) && Yields(log) == 0 && (!lost ==> InFlight(log) == 0)
  {
    var a := new CollectAllAwaiter(tasks, para, answers);
    a.AwaitSuspend();
    hide A.Inv, A.Next, Bounded, Launches, InFlight;
    while exists p :: 0 <= p < |a.pcs| && !a.pcs[p].Unlaunched? && !a.pcs[p].Lost? && !a.pcs[p].Done?
      invariant a.Valid() && a.pcs[|tasks|].Done?
      decreases Tally(a.pcs, A.Rank)
    {
      var p :| 0 <= p < |a.pcs| && !a.pcs[p].Unlaunched? && !a.pcs[p].Lost? && !a.pcs[p].Done?;
      OthersLeaveMe(a.Abs(), p, Answer(a.Abs(), p, answers), |tasks|);
      a.Move(p);
    }
    CollectAllEnds(a.Abs());
    LostIfRefused(a.Abs(), answers);
    resumed, log := a.resumed, a.log;
    lost := exists p :: 0 <= p < |a.pcs| && a.pcs[p].Lost?;
  }

  // ---------------------------------------------------------------- CollectAnyAwaiter

  lemma {:induction false} AnyFacts(s: Y.State, p: nat)
    requires Y.Inv(s) && Y.Enabled(s, p)
    ensures s.count <= |s.pcs| + 1 && Y.Sized(s) && (s.pcs[p].Running? ==> s.count > 0) && (p == |s.results| <==> s.pcs[p].Looping?)
    ensures Y.Next(s, p).Ok? && Y.Inv(Y.Next(s, p).s) && Tally(Y.Next(s, p).s.pcs, Y.Rank) < Tally(s.pcs, Y.Rank)
  {
    Y.StepKeepsInv(s, p);
    Y.TallyAtMost(s.pcs);
    assert p < |s.results| ==> Y.TaskPc(s, p);
  }

  lemma {:induction false} AnyOthersLeaveMe(s: Y.State, p: nat, me: nat)
    requires Y.Inv(s) && Y.Enabled(s, p) && me < |s.pcs| && me != p && !s.pcs[me].Unlaunched?
    ensures Y.Next(s, p).Ok? && Y.Next(s, p).s.pcs[me] == s.pcs[me]
  {
    Y.StepKeepsInv(s, p);
    assert p < |s.results| ==> Y.TaskPc(s, p);
    assert Y.Launching(s, p) ==> Y.TaskPc(s, s.pcs[p].i);
  }

  class CollectAnyAwaiter {
    const results: seq<Try<int>>
    const noResult: bool
    const resched: bool
    const event: CountEvent
    var input: seq<Y.Element>
    var index: int           // *res
    var value: Try<int>
    var pcs: seq<Y.Pc>
    var first: Option<nat>
    var resumed: seq<(int, Try<int>)>

    ghost function Abs(): Y.State
      reads this, event
    {
      Y.State(results, noResult, resched, input, index, value, event.count, pcs, first, resumed)
    }

    ghost predicate Valid()
      reads this, event
    {
      Y.Inv(Abs()) && |pcs| == |results| + 1 <= VECTOR_MAX + 1
    }

    constructor (tasks: seq<Try<int>>, noResult: bool, resched: bool)
      requires 0 < |tasks| <= VECTOR_MAX
      ensures Valid() && Y.Ok(Abs()) == Y.Await(tasks, noResult, resched) && fresh(event)
    {
      results, this.noResult, this.resched := tasks, noResult, resched;
      input := seq(|tasks|, i => Y.InVector);
      event := new CountEvent(|tasks|);
      index, value, first, resumed := Y.NO_INDEX, Nothing, None, [];
      pcs := seq(|tasks|, i => Y.Unlaunched) + [Y.Looping(0)];
      new;
      Y.AwaitInv(tasks, noResult, resched);
    }

    /** One turn of the loop: start task i unless the result is there already; when the loop is over the vector dies. */
    method LaunchNext(p: nat)
      requires Y.Sized(Abs()) && p < |pcs| && pcs[p].Looping?
      modifies this`pcs, this`input
      ensures Y.Ok(Abs()) == Y.Next(old(Abs()), p)
    {
      var i := pcs[p].i;
      if i < |results| && index == Y.NO_INDEX {
        pcs := pcs[i := Y.Running];
        pcs := pcs[p := Y.Looping(i + 1)];
        input := input[i := Y.Started];
      } else {
        pcs := pcs[p := Y.Done];
        DestroyVector();
      }
    }

    /** The destructor of each element: ~Lazy destroys a coroutine that was not moved out, RescheduleLazy has none. */
    method DestroyVector()
      modifies this`input
      ensures input == Y.Dropped(old(input), resched)
    {
      for k := 0 to |input|
        invariant |input| == |old(input)| && input[k..] == old(input)[k..]
        invariant input[..k] == Y.Dropped(old(input), resched)[..k]
      {
        assert old(input)[k] == old(input)[k..][0];
        if input[k].InVector? {
          input := input[k := if resched then Y.Leaked else Y.Destroyed];
        }
      }
    }

    /** The parts of the callback of task p: DownCount, and for the first the two stores and the resumption. */
    method Callback(p: nat)
      requires Y.Sized(Abs()) && p < |results| && Y.Enabled(Abs(), p) && !pcs[p].Looping?
      requires event.count < WORD && |results| < WORD && (pcs[p].Running? ==> event.count > 0)
      modifies this, event
      ensures Y.Ok(Abs()) == Y.Next(old(Abs()), p)
    {
      match pcs[p] {
        case Running =>
          var count := event.DownCount(1);
          pcs := pcs[p := if count == |results| + 1 then Y.SettingIndex else Y.Done];
          if count == |results| + 1 {
            first := Some(p);
          }
        case SettingIndex =>
          index := p;
          pcs := pcs[p := Y.SettingValue];
        case SettingValue =>
          value := results[p];
          pcs := pcs[p := Y.Resuming];
        case Resuming =>
          resumed := resumed + [(index, value)];
          if !noResult {
            index := Y.NO_INDEX;
          }
          pcs := pcs[p := Y.Done];
      }
    }

    method Move(p: nat)
      requires Valid() && Y.Enabled(Abs(), p)
      modifies this, event
      ensures Y.Ok(Abs()) == Y.Next(old(Abs()), p) && Valid()
      ensures Tally(pcs, Y.Rank) < old(Tally(pcs, Y.Rank))
    {
      AnyFacts(Abs(), p);
      hide Y.Inv;
      if pcs[p].Looping? {
        LaunchNext(p);
      } else {
        Callback(p);
      }
    }

    method Interfere(me: nat)
      requires Valid() && me < |pcs| && !pcs[me].Unlaunched?
      modifies this, event
      ensures Valid() && pcs[me] == old(pcs[me]) && Tally(pcs, Y.Rank) <= old(Tally(pcs, Y.Rank))
    {
      hide Y.Inv, Y.Next;
      var p: nat := *;
      while p < |pcs| && p != me && !pcs[p].Unlaunched? && !pcs[p].Done?
        invariant Valid() && pcs[me] == old(pcs[me]) && Tally(pcs, Y.Rank) <= old(Tally(pcs, Y.Rank))
        decreases Tally(pcs, Y.Rank)
      {
        AnyOthersLeaveMe(Abs(), p, me);
        Move(p);
        p := *;
      }
    }

    method AwaitSuspend()
      requires Valid() && pcs[|results|] == Y.Looping(0)
      modifies this, event
      ensures Valid() && pcs[|results|].Done?
    {
      hide Y.Inv;
      var n := |results|;
      while pcs[n].Looping?
        invariant Valid() && (pcs[n].Looping? || pcs[n].Done?)
        decreases Tally(pcs, Y.Rank)
      {
        Interfere(n);
        Move(n);
      }
    }
  }

  lemma {:induction false} CollectAnyEnds(s: Y.State)
    requires Y.Inv(s) && forall p :: 0 <= p < |s.pcs| ==> s.pcs[p].Unlaunched? || s.pcs[p].Done?
    ensures |s.resumed| == 1 && 0 <= s.resumed[0].0 < |s.results| && s.resumed[0].1 == s.results[s.resumed[0].0]
  {
    assert Y.TaskPc(s, 0);
  }

  /** How `co_await CollectAny` ends; `AssertFailed` is the assertion of await_resume. */
  datatype AnyOutcome = Resumed(index: nat, value: Try<int>) | AssertFailed

  /** CollectAny to the end, whatever the interleaving: the awaiting coroutine is resumed once, with one task's result and
      its index. On an empty input await_ready is true, and await_resume, which follows at once, finds no result object. */
  method CollectAny(tasks: seq<Try<int>>, noResult: bool, resched: bool) returns (r: AnyOutcome)
    requires |tasks| <= VECTOR_MAX
    ensures r.AssertFailed? <==> Y.Await(tasks, noResult, resched) == Y.Crashed(Y.NoResultObject)
    ensures r.AssertFailed? <==> tasks == []
    ensures r.Resumed? ==> r.index < |tasks| && r.value == tasks[r.index]
  {
    var result: Option<int> := None;
    if Y.AwaitReady(|tasks|, result) {
      return AssertFailed;
    }
    var a := new CollectAnyAwaiter(tasks, noResult, resched);
    a.AwaitSuspend();
    hide Y.Inv, Y.Next;
    while exists p :: 0 <= p < |a.pcs| && !a.pcs[p].Unlaunched? && !a.pcs[p].Done?
      invariant a.Valid()
      decreases Tally(a.pcs, Y.Rank)
    {
      var p :| 0 <= p < |a.pcs| && !a.pcs[p].Unlaunched? && !a.pcs[p].Done?;
      a.Move(p);
    }
    CollectAnyEnds(a.Abs());
    r := Resumed(a.resumed[0].0, a.resumed[0].1);
  }
}
