/** `co_await CollectAny(tasks)`: the same latch used the other way round; the first Down wins. */
module CollectAnyMachine {
  import opened TryModel
  import opened Tallies

  /** Where a party is: the task of an index below n, or the launching loop, which is party n. */
  datatype Pc =
    | Unlaunched
    | Running
    | Looping(i: nat)        // about to test i < in.size() && res->index == -1
    | SettingIndex           // DownCount returned n + 1: about to store the index,
    | SettingValue           // the value,
    | Resuming               // and to resume the awaiting coroutine
    | Done

  const NO_INDEX: int := -1

  /** What became of a coroutine of the input: still in the vector, moved out by Start, destroyed by ~Lazy, or lost because
      RescheduleLazy has no destructor. */
  datatype Element = InVector | Started | Destroyed | Leaked

  /** `index` and `value` are `*res`, shared by the callbacks, the loop and the awaiter; `noResult` is T = void, and
      `resched` says that the vector holds RescheduleLazy elements. */
  datatype State = State(
    results: seq<Try<int>>,
    noResult: bool,
    resched: bool,
    input: seq<Element>,
    index: int,
    value: Try<int>,
    count: nat,
    pcs: seq<Pc>,
    first: Option<nat>,                 // the task whose DownCount returned n + 1
    resumed: seq<(int, Try<int>)>)      // what each resumption of the awaiting coroutine was handed

  datatype Fault = NoResultObject | Underflow

  datatype Config = Ok(s: State) | Crashed(why: Fault)

  /** `input.empty() || (result && result->index != -1)`; `result` is null before the coroutine was suspended. */
  predicate AwaitReady(n: nat, result: Option<int>) {
    n == 0 || (result.Some? && result.value != NO_INDEX)
  }

  /** `co_await` of a fresh awaiter: without suspension await_resume follows at once, and it asserts that `result` is set. */
  function Await(results: seq<Try<int>>, noResult: bool, resched: bool): Config {
    var result: Option<int> := None;
    if AwaitReady(|results|, result) then
      if result.None? then Crashed(NoResultObject) else Ok(Suspended(results, noResult, resched))
    else Ok(Suspended(results, noResult, resched))
  }

  /** `*res` and the latch as await_suspend sets them up, before its loop. */
  function Suspended(results: seq<Try<int>>, noResult: bool, resched: bool): State {
    State(results, noResult, resched, seq(|results|, i => InVector), NO_INDEX, Nothing, |results| + 1,
          seq(|results|, i => Unlaunched) + [Looping(0)], None, [])
  }

  predicate Sized(s: State) {
    |s.pcs| == |s.results| + 1 && |s.input| == |s.results|
  }

  /** The vector goes out of scope with what is left in it. */
  function Dropped(input: seq<Element>, resched: bool): (left: seq<Element>)
    ensures |left| == |input|
    ensures forall p :: 0 <= p < |input| ==>
      left[p] == if input[p].InVector? then (if resched then Leaked else Destroyed) else input[p]
  {
    seq(|input|, p requires 0 <= p < |input| =>
      if input[p].InVector? then (if resched then Leaked else Destroyed) else input[p])
  }

  predicate Enabled(s: State, p: nat) {
    p < |s.pcs| && !s.pcs[p].Unlaunched? && !s.pcs[p].Done?
  }

  function At(s: State, p: nat, pc: Pc): State
    requires p < |s.pcs|
  {
    s.(pcs := s.pcs[p := pc])
  }

  /** One atomic step of party p. Moving the result out resets the index, unless T is void. */
  function Next(s: State, p: nat): (c: Config)
    requires Enabled(s, p) && Sized(s)
    ensures c.Ok? ==> Sized(c.s) && c.s.results == s.results && c.s.noResult == s.noResult && c.s.resched == s.resched
  {
    match s.pcs[p]
    case Looping(i) =>
      if i < |s.results| && s.index == NO_INDEX
      then Ok(At(At(s, i, Running), p, Looping(i + 1)).(input := s.input[i := Started]))
      else Ok(At(s, p, Done).(input := Dropped(s.input, s.resched)))
    case Running =>
      if s.count == 0 then Crashed(Underflow)
      else if s.count == |s.results| + 1 then Ok(At(s, p, SettingIndex).(count := s.count - 1, first := Some(p)))
      else Ok(At(s, p, Done).(count := s.count - 1))
    case SettingIndex => Ok(At(s, p, SettingValue).(index := p))
    case SettingValue => Ok(At(s, p, Resuming).(value := if p < |s.results| then s.results[p] else s.value))
    case Resuming =>
      Ok(At(s, p, Done).(resumed := s.resumed + [(s.index, s.value)], index := if s.noResult then s.index else NO_INDEX))
    case _ => Ok(s)
  }

  ghost predicate Runs(s: State, ps: seq<nat>, c: Config)
    decreases |ps|
  {
    if ps == [] then c == Ok(s) else
    Enabled(s, ps[0]) && Sized(s) &&
    match Next(s, ps[0])
    case Crashed(_) => c == Next(s, ps[0]) && |ps| == 1
    case Ok(s1) => Runs(s1, ps[1..], c)
  }

  // ---------------------------------------------------------------- the invariant

  predicate IsPending(pc: Pc) {
    pc.Unlaunched? || pc.Running?
  }

  function Weight(pc: Pc): nat {
    if IsPending(pc) then 1 else 0
  }

  function Rank(pc: Pc): nat {
    match pc
    case Unlaunched => 6
    case Looping(_) => 5
    case Running => 4
    case SettingIndex => 3
    case SettingValue => 2
    case Resuming => 1
    case Done => 0
  }

  predicate TaskPc(s: State, p: nat)
    requires Sized(s) && p < |s.results|
  {
    var launcher := s.pcs[|s.results|];
    && !s.pcs[p].Looping?
    && (s.first != Some(p) ==> IsPending(s.pcs[p]) || (s.pcs[p].Done? && s.first.Some?))
    && (launcher.Looping? ==> (s.pcs[p].Unlaunched? <==> launcher.i <= p))
  }

  predicate Tasks(s: State)
    requires Sized(s)
  {
    var launcher := s.pcs[|s.results|];
    && (forall p :: 0 <= p < |s.results| ==> TaskPc(s, p))
    && (launcher.Done? || (launcher.Looping? && launcher.i <= |s.results|))
    && (launcher.Done? ==> s.results != [] && !s.pcs[0].Unlaunched?)
  }

  predicate Kept(s: State, p: nat)
    requires Sized(s) && p < |s.results|
  {
    s.input[p] == if !s.pcs[p].Unlaunched? then Started
                  else if s.pcs[|s.results|].Looping? then InVector
                  else if s.resched then Leaked else Destroyed
  }

  /** The elements that were not started are in the vector while the loop runs. */
  predicate Vector(s: State)
    requires Sized(s)
  {
    forall p :: 0 <= p < |s.results| ==> Kept(s, p)
  }

  /** What the first completer has done so far, to `*res` and to the awaiting coroutine. */
  predicate FirstOnly(s: State)
    requires Sized(s)
  {
    match s.first
    case None => s.index == NO_INDEX && s.resumed == []
    case Some(f) =>
      f < |s.results| && !IsPending(s.pcs[f]) && !s.pcs[f].Looping? &&
      s.index == (if s.pcs[f].SettingIndex? || (s.pcs[f].Done? && !s.noResult) then NO_INDEX else f) &&
      (s.pcs[f].Resuming? ==> s.value == s.results[f]) &&
      s.resumed == if s.pcs[f].Done? then [(f, s.results[f])] else []
  }

  predicate Inv(s: State) {
    && s.results != [] && Sized(s)
    && s.count == Tally(s.pcs, Weight) + 1
    && (s.first.None? <==> s.count == |s.results| + 1)
    && Tasks(s) && FirstOnly(s) && Vector(s)
  }

  predicate Launching(s: State, p: nat) {
    Sized(s) && p < |s.pcs| && s.pcs[p].Looping? && s.pcs[p].i < |s.results| && s.index == NO_INDEX
  }

  /** What a step does to the program counters and the count. */
  lemma {:induction false} StepMoves(s: State, p: nat)
    requires Sized(s) && Enabled(s, p) && Next(s, p).Ok?
    requires Launching(s, p) ==> s.pcs[s.pcs[p].i].Unlaunched?
    ensures if Launching(s, p)
            then s.pcs[p].i != p && Next(s, p).s.pcs == s.pcs[s.pcs[p].i := Running][p := Looping(s.pcs[p].i + 1)]
            else Next(s, p).s.pcs == s.pcs[p := Next(s, p).s.pcs[p]] && Rank(Next(s, p).s.pcs[p]) < Rank(s.pcs[p])
    ensures Launching(s, p) ==> Next(s, p).s.count == s.count
    ensures !Launching(s, p) ==> Next(s, p).s.count + Weight(s.pcs[p]) == s.count + Weight(Next(s, p).s.pcs[p])
  {
  }

  lemma {:induction false} StepCounts(s: State, p: nat)
    requires Sized(s) && Enabled(s, p) && Next(s, p).Ok? && s.count == Tally(s.pcs, Weight) + 1
    requires Launching(s, p) ==> s.pcs[s.pcs[p].i].Unlaunched?
    ensures Next(s, p).s.count == Tally(Next(s, p).s.pcs, Weight) + 1
  {
    StepMoves(s, p);
    hide Next;
    if Launching(s, p) {
      var i := s.pcs[p].i;
      TallyUpdate(s.pcs, i, Running, Weight);
      TallyUpdate(s.pcs[i := Running], p, Looping(i + 1), Weight);
    } else {
      TallyUpdate(s.pcs, p, Next(s, p).s.pcs[p], Weight);
    }
  }

  lemma {:induction false} StepShrinks(s: State, p: nat)
    requires Sized(s) && Enabled(s, p) && Next(s, p).Ok?
    requires Launching(s, p) ==> s.pcs[s.pcs[p].i].Unlaunched?
    ensures Tally(Next(s, p).s.pcs, Rank) < Tally(s.pcs, Rank)
  {
    StepMoves(s, p);
    hide Next;
    if Launching(s, p) {
      var i := s.pcs[p].i;
      TallyUpdate(s.pcs, i, Running, Rank);
      TallyUpdate(s.pcs[i := Running], p, Looping(i + 1), Rank);
    } else {
      TallyUpdate(s.pcs, p, Next(s, p).s.pcs[p], Rank);
    }
  }

  lemma {:induction false} TasksKept(s: State, p: nat)
    requires Sized(s) && Enabled(s, p) && Next(s, p).Ok? && Tasks(s) && FirstOnly(s) && s.results != []
    requires s.first.None? <==> s.count == |s.results| + 1
    ensures Tasks(Next(s, p).s)
  {
    var s1 := Next(s, p).s;
    assert p < |s.results| ==> TaskPc(s, p);
    assert TaskPc(s, 0);
    assert s.index != NO_INDEX && s.pcs[p].Looping? ==> s.first.Some? && TaskPc(s, s.first.value);
    hide FirstOnly;
    forall q | 0 <= q < |s.results|
      ensures TaskPc(s1, q)
    {
      assert TaskPc(s, q);
    }
  }

  lemma {:induction false} VectorKept(s: State, p: nat)
    requires Sized(s) && Enabled(s, p) && Next(s, p).Ok? && Tasks(s) && Vector(s)
    requires p < |s.results| ==> !s.pcs[p].Looping?
    ensures Vector(Next(s, p).s)
  {
    var s1 := Next(s, p).s;
    forall q | 0 <= q < |s.results|
      ensures Kept(s1, q)
    {
      assert Kept(s, q) && TaskPc(s, q);
    }
  }

  lemma {:induction false} FirstKept(s: State, p: nat)
    requires Sized(s) && Enabled(s, p) && Next(s, p).Ok? && FirstOnly(s)
    requires s.first.None? <==> s.count == |s.results| + 1
    requires p < |s.results| ==> TaskPc(s, p)
    requires p == |s.results| ==> s.pcs[p].Looping?
    requires Launching(s, p) ==> s.pcs[s.pcs[p].i].Unlaunched?
    ensures FirstOnly(Next(s, p).s)
  {
  }

  lemma {:induction false} StepKeepsInv(s: State, p: nat)
    requires Inv(s) && Enabled(s, p)
    ensures Next(s, p).Ok? && Inv(Next(s, p).s) && Tally(Next(s, p).s.pcs, Rank) < Tally(s.pcs, Rank)
  {
    assert p < |s.results| ==> TaskPc(s, p);
    assert Launching(s, p) ==> p == |s.results| && TaskPc(s, s.pcs[p].i);
    if s.first.Some? && s.pcs[p].Running? { FirstHasCounted(s, p); }
    hide Tasks, FirstOnly, Vector;
    TasksKept(s, p);
    VectorKept(s, p);
    FirstKept(s, p);
    StepCounts(s, p);
    StepShrinks(s, p);
    TallyAtMost(Next(s, p).s.pcs);
  }

  lemma {:induction false} TallyAtMost(pcs: seq<Pc>)
    ensures Tally(pcs, Weight) <= |pcs|
  {
    if pcs != [] { TallyAtMost(pcs[1..]); }
  }

  lemma {:induction false} FirstHasCounted(s: State, p: nat)
    requires Inv(s) && s.first.Some? && p < |s.pcs|
    ensures s.count < |s.results| + 1
  {
    var n := |s.results|;
    TallyUpdate(s.pcs, n, Unlaunched, Weight);
    TallyAtMost(s.pcs[n := Unlaunched]);
  }

  lemma {:induction false} AwaitInv(results: seq<Try<int>>, noResult: bool, resched: bool)
    requires Await(results, noResult, resched).Ok?
    ensures Inv(Await(results, noResult, resched).s)
  {
    var s := Suspended(results, noResult, resched);
    TallyPush(s.pcs[..|results|], Looping(0), Weight);
    TallyOnes(s.pcs[..|results|], Weight);
    assert s.pcs == s.pcs[..|results|] + [Looping(0)];
    forall q | 0 <= q < |s.results|
      ensures TaskPc(s, q)
    {
    }
  }

  // ---------------------------------------------------------------- every run

  lemma {:induction false} RunKeepsInv(s: State, ps: seq<nat>, c: Config)
    requires Inv(s) && Runs(s, ps, c)
    ensures c.Ok? && Inv(c.s) && c.s.results == s.results && c.s.noResult == s.noResult && c.s.resched == s.resched
    ensures Tally(c.s.pcs, Rank) + |ps| <= Tally(s.pcs, Rank)
    decreases |ps|
  {
    hide Inv, Next;
    if ps != [] {
      assert Sized(s);
      StepKeepsInv(s, ps[0]);
      RunKeepsInv(Next(s, ps[0]).s, ps[1..], c);
    }
  }

  /** The await fails exactly on an empty input. */
  lemma {:induction false} NeedsInput(results: seq<Try<int>>, noResult: bool, resched: bool)
    ensures Await(results, noResult, resched) == Crashed(NoResultObject) <==> results == []
  {
  }

  /** The awaiting coroutine is resumed at most once, with the index and the value of the one task that counted down
      first; the count never drops below 1; every run ends, and then the coroutine was resumed. */
  lemma {:induction false} CollectAnyTheorem(results: seq<Try<int>>, noResult: bool, resched: bool, ps: seq<nat>, c: Config)
    requires results != [] && Runs(Await(results, noResult, resched).s, ps, c)
    ensures c.Ok? && c.s.count >= 1 && |ps| <= Tally(Await(results, noResult, resched).s.pcs, Rank)
    ensures c.s.resumed == [] || (c.s.first.Some? && c.s.first.value < |results| &&
                                  c.s.resumed == [(c.s.first.value as int, results[c.s.first.value])])
    ensures (forall p :: !Enabled(c.s, p)) ==> |c.s.resumed| == 1
  {
    AwaitInv(results, noResult, resched);
    RunKeepsInv(Await(results, noResult, resched).s, ps, c);
    var s := c.s;
    if forall p :: !Enabled(s, p) {
      assert !Enabled(s, |results|) && !Enabled(s, 0) && TaskPc(s, 0);
      assert s.pcs[0].Done? && s.first.Some?;
      assert !Enabled(s, s.first.value);
    }
  }

  /** Only the first completer writes to the result; everyone else leaves it alone. */
  lemma {:induction false} LatecomersWriteNothing(s: State, p: nat)
    requires Inv(s) && Enabled(s, p) && s.first.Some? && s.first != Some(p)
    ensures Next(s, p).Ok? && Next(s, p).s.first == s.first
    ensures Next(s, p).s.index == s.index && Next(s, p).s.value == s.value && Next(s, p).s.resumed == s.resumed
  {
    StepKeepsInv(s, p);
    FirstHasCounted(s, p);
    assert p < |s.results| ==> TaskPc(s, p);
  }

  /** Does the loop start further tasks once the result was handed over? Exactly when the result is not void: moving it
      out has reset the index. */
  lemma {:induction false} StartsAfterResumption(s: State)
    requires Inv(s) && s.resumed != [] && s.pcs[|s.results|].Looping? && s.pcs[|s.results|].i < |s.results|
    ensures var s1, i := Next(s, |s.results|).s, s.pcs[|s.results|].i;
      if s.noResult then s1.pcs[|s.results|].Done? && s1.pcs[i].Unlaunched? else s1.pcs[i].Running?
  {
    StepKeepsInv(s, |s.results|);
    assert TaskPc(s, s.pcs[|s.results|].i);
  }

  /** The coroutines that the loop never started: once it is over, and for ever, they are destroyed with the vector if they
      are held by Lazy, and leaked if they are held by RescheduleLazy; all others were handed to Start. */
  lemma {:induction false} NeverStarted(results: seq<Try<int>>, noResult: bool, resched: bool, ps: seq<nat>, c: Config, p: nat)
    requires results != [] && Runs(Await(results, noResult, resched).s, ps, c) && p < |results|
    ensures c.Ok? && Sized(c.s) && |c.s.pcs| == |results| + 1
    ensures c.s.input[p].Started? <==> !c.s.pcs[p].Unlaunched?
    ensures c.s.input[p].InVector? <==> c.s.pcs[|results|].Looping? && c.s.pcs[p].Unlaunched?
    ensures c.s.input[p].Leaked? <==> c.s.pcs[|results|].Done? && c.s.pcs[p].Unlaunched? && resched
    ensures c.s.input[p].Destroyed? <==> c.s.pcs[|results|].Done? && c.s.pcs[p].Unlaunched? && !resched
  {
    AwaitInv(results, noResult, resched);
    RunKeepsInv(Await(results, noResult, resched).s, ps, c);
    assert Kept(c.s, p);
  }

  // ---------------------------------------------------------------- two runs

  function FirstCounted(results: seq<Try<int>>, noResult: bool, resched: bool): State {
    State(results, noResult, resched, [Started, InVector], NO_INDEX, Nothing, 2, [SettingIndex, Unlaunched, Looping(1)], Some(0), [])
  }

  function AfterFirst(results: seq<Try<int>>, noResult: bool, resched: bool): State
    requires |results| == 2
  {
    State(results, noResult, resched, [Started, InVector], if noResult then 0 else NO_INDEX, results[0], 2,
          [Done, Unlaunched, Looping(1)], Some(0), [(0, results[0])])
  }

  lemma {:induction false} FirstCounts(results: seq<Try<int>>, noResult: bool, resched: bool, more: seq<nat>, c: Config)
    requires |results| == 2 && Runs(FirstCounted(results, noResult, resched), more, c)
    ensures Runs(Suspended(results, noResult, resched), [2, 0] + more, c)
  {
    var s0 := Suspended(results, noResult, resched);
    assert s0.pcs == [Unlaunched, Unlaunched, Looping(0)] && s0.input == [InVector, InVector];
    hide Suspended;
    var ps := [2, 0] + more;
    var s1 := s0.(pcs := [Running, Unlaunched, Looping(1)], input := [Started, InVector]);
    assert Next(s0, 2) == Ok(s1) && Next(s1, 0) == Ok(FirstCounted(results, noResult, resched));
    hide Next;
    assert ps[2..] == more;
    assert Runs(s1, ps[1..], c);
  }

  lemma {:induction false} FirstHandsOver(results: seq<Try<int>>, noResult: bool, resched: bool, more: seq<nat>, c: Config)
    requires |results| == 2 && Runs(AfterFirst(results, noResult, resched), more, c)
    ensures Runs(FirstCounted(results, noResult, resched), [0, 0, 0] + more, c)
  {
    var ps := [0, 0, 0] + more;
    var s2 := FirstCounted(results, noResult, resched);
    var s3 := s2.(pcs := [SettingValue, Unlaunched, Looping(1)], index := 0);
    var s4 := s3.(pcs := [Resuming, Unlaunched, Looping(1)], value := results[0]);
    assert Next(s2, 0) == Ok(s3) && Next(s3, 0) == Ok(s4) && Next(s4, 0) == Ok(AfterFirst(results, noResult, resched));
    hide Next, AfterFirst, FirstCounted;
    assert ps[3..] == more;
    assert Runs(s4, ps[2..], c);
    assert Runs(s3, ps[1..], c);
  }

  /** Two tasks, the first of which completes at once. */
  lemma {:induction false} FirstCompletes(results: seq<Try<int>>, noResult: bool, resched: bool, more: seq<nat>, c: Config)
    requires |results| == 2 && Await(results, noResult, resched).Ok?
    requires Runs(AfterFirst(results, noResult, resched), more, c)
    ensures Runs(Await(results, noResult, resched).s, [2, 0, 0, 0, 0] + more, c)
  {
    hide Runs, AfterFirst, FirstCounted, Suspended;
    FirstHandsOver(results, noResult, resched, more, c);
    FirstCounts(results, noResult, resched, [0, 0, 0] + more, c);
    assert [2, 0] + ([0, 0, 0] + more) == [2, 0, 0, 0, 0] + more;
  }

  predicate ResumedWhileLooping(s: State) {
    |s.results| == 2 && s.resumed == [(0, s.results[0])] && s.pcs == [Done, Running, Looping(2)]
  }

  /** A run that starts a task after the result was handed over. */
  lemma {:induction false} StartsAnotherTask(results: seq<Try<int>>, resched: bool)
    requires |results| == 2
    ensures exists ps, s :: Runs(Await(results, false, resched).s, ps, Ok(s)) && ResumedWhileLooping(s)
  {
    var s5 := AfterFirst(results, false, resched);
    var s6 := s5.(pcs := [Done, Running, Looping(2)], input := [Started, Started]);
    assert Next(s5, 2) == Ok(s6);
    assert Runs(s6, [], Ok(s6));
    assert Runs(s5, [2], Ok(s6));
    FirstCompletes(results, false, resched, [2], Ok(s6));
    assert ResumedWhileLooping(s6);
  }

  ghost predicate StuckWithLeak(s: State) {
    s.input == [Started, Leaked] && |s.resumed| == 1 && forall p :: !Enabled(s, p)
  }

  /** A run that leaks: with results of type void, RescheduleLazy elements and a first task that completes at once, the second
      coroutine is neither started nor destroyed. */
  lemma {:induction false} LeaksTheRest(results: seq<Try<int>>)
    requires |results| == 2
    ensures exists ps, s :: Runs(Await(results, true, true).s, ps, Ok(s)) && StuckWithLeak(s)
  {
    var s5 := AfterFirst(results, true, true);
    var s6 := s5.(pcs := [Done, Unlaunched, Done], input := [Started, Leaked]);
    assert Dropped([Started, InVector], true) == [Started, Leaked];
    assert Next(s5, 2) == Ok(s6);
    assert Runs(s6, [], Ok(s6));
    assert Runs(s5, [2], Ok(s6));
    FirstCompletes(results, true, true, [2], Ok(s6));
    assert StuckWithLeak(s6);
  }
}
