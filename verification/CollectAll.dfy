/** `co_await CollectAll(tasks)`: a launching loop, n callbacks and one count-down latch, interleaved at will.

    A task counts as a single actor: its callback is called once, with `results[i]`, some time after it was started. */
module CollectAllMachine {
  import opened TryModel
  import opened Tallies
  import opened TaskLog

  /** Where a party is: the task of an index below n, or the launching loop, which is party n. */
  datatype Pc =
    | Unlaunched
    | Scheduled             // its start is a job of the executor (Para)
    | Lost                  // Schedule answered false and the job was dropped
    | Running
    | Looping(i: nat)       // about to test i < input.size()
    | Setting               // about to call SetAwaitingCoroutine
    | Counting              // about to call Down: fetch_sub
    | Taking                // fetch_sub returned 1: about to exchange awaiting_coroutine_
    | Resuming              // about to resume the awaiting coroutine
    | Done

  datatype State = State(
    results: seq<Try<int>>,
    para: bool,                     // CollectAllPara under an executor
    output: seq<Try<int>>,          // the awaiter's members
    count: nat,
    awaiting: bool,
    alive: bool,                    // it is destroyed when the awaiting coroutine is resumed
    pcs: seq<Pc>,
    last: Option<nat>,              // the party whose fetch_sub returned 1
    log: seq<Event>,                // tasks launched and finished
    resumed: seq<seq<Try<int>>>)    // what each resumption of the awaiting coroutine was handed

  datatype Fault = UseAfterFree | Underflow

  datatype Config = Ok(s: State) | Crashed(why: Fault)

  function Initial(results: seq<Try<int>>, para: bool): State {
    State(results, para, seq(|results|, i => Nothing), |results| + 1, false, true,
          seq(|results|, i => Unlaunched) + [Looping(0)], None, [], [])
  }

  predicate Sized(s: State) {
    |s.pcs| == |s.results| + 1 && |s.output| == |s.results|
  }

  predicate Enabled(s: State, p: nat) {
    p < |s.pcs| && !s.pcs[p].Unlaunched? && !s.pcs[p].Lost? && !s.pcs[p].Done?
  }

  function At(s: State, p: nat, pc: Pc): State
    requires p < |s.pcs|
  {
    s.(pcs := s.pcs[p := pc])
  }

  /** The launching loop starts task i: at once, or as a job that the executor accepts or not. */
  function Launch(s: State, p: nat, i: nat, accepted: bool): State
    requires p < |s.pcs| && i < |s.results| && i < |s.pcs|
  {
    var how := if s.para && |s.results| > 1 then (if accepted then Scheduled else Lost) else Running;
    At(At(s, i, how), p, Looping(i + 1)).(log := s.log + [Launched(i)])
  }

  /** One atomic step of party p; each reads or writes the awaiter. */
  function Next(s: State, p: nat, accepted: bool): (c: Config)
    requires Enabled(s, p) && Sized(s)
    ensures c.Ok? ==> Sized(c.s) && c.s.results == s.results && c.s.para == s.para
  {
    if !s.alive then Crashed(UseAfterFree) else
    match s.pcs[p]
    case Looping(i) => Ok(if i < |s.results| then Launch(s, p, i, accepted) else At(s, p, Setting))
    case Setting => Ok(At(s, p, Counting).(awaiting := true))
    case Scheduled => Ok(At(s, p, Running))
    case Running => Ok(At(s, p, Counting).(output := if p < |s.output| then s.output[p := s.results[p]] else s.output))
    case Counting =>
      var log := if p < |s.results| then s.log + [TaskLog.Finished(p)] else s.log;
      if s.count == 0 then Crashed(Underflow)
      else if s.count == 1 then Ok(At(s, p, Taking).(count := 0, last := Some(p), log := log))
      else Ok(At(s, p, Done).(count := s.count - 1, log := log))
    case Taking => Ok(At(s, p, if s.awaiting then Resuming else Done).(awaiting := false))
    case Resuming => Ok(At(s, p, Done).(resumed := s.resumed + [s.output], alive := false))
    case _ => Ok(s)
  }

  ghost predicate Runs(s: State, ps: seq<(nat, bool)>, c: Config)
    decreases |ps|
  {
    if ps == [] then c == Ok(s) else
    Enabled(s, ps[0].0) && Sized(s) &&
    match Next(s, ps[0].0, ps[0].1)
    case Crashed(_) => c == Next(s, ps[0].0, ps[0].1) && |ps| == 1
    case Ok(s1) => Runs(s1, ps[1..], c)
  }

  // ---------------------------------------------------------------- counting the parties still to come

  predicate IsPending(pc: Pc) {
    !pc.Taking? && !pc.Resuming? && !pc.Done?
  }

  function Weight(pc: Pc): nat {
    if IsPending(pc) then 1 else 0
  }

  function Pending(pcs: seq<Pc>): nat {
    Tally(pcs, Weight)
  }

  // ---------------------------------------------------------------- the invariant

  predicate LauncherPc(pc: Pc, n: nat) {
    (pc.Looping? && pc.i <= n) || pc.Setting? || pc.Counting? || pc.Taking? || pc.Resuming? || pc.Done?
  }

  predicate TaskPc(pc: Pc, launcher: Pc, p: nat) {
    !pc.Looping? && !pc.Setting? && (pc.Unlaunched? <==> launcher.Looping? && launcher.i <= p)
  }

  /** Tasks are launched in order. */
  predicate Sequenced(s: State)
    requires |s.pcs| == |s.results| + 1
  {
    var n := |s.results|;
    && LauncherPc(s.pcs[n], n)
    && (forall p :: 0 <= p < n ==> TaskPc(s.pcs[p], s.pcs[n], p))
  }

  /** Nobody but the last party gets past its Down with something to do. */
  predicate LastOnly(s: State)
    requires |s.pcs| == |s.results| + 1
  {
    var launcher := s.pcs[|s.results|];
    && (s.last.None? <==> s.count > 0)
    && (forall p :: 0 <= p < |s.pcs| && Some(p) != s.last ==> !s.pcs[p].Taking? && !s.pcs[p].Resuming?)
    && (s.last.Some? ==> s.last.value < |s.pcs| && (s.pcs[s.last.value].Taking? || s.pcs[s.last.value].Resuming? || s.pcs[s.last.value].Done?))
    && (s.alive <==> s.last.None? || !s.pcs[s.last.value].Done?)
    && (s.awaiting <==>
        !launcher.Looping? && !launcher.Setting? && (s.last.None? || s.pcs[s.last.value].Taking?))
  }

  /** A task that has come to its Down has stored its result. */
  predicate Filled(s: State, p: nat)
    requires Sized(s) && p < |s.results|
  {
    s.pcs[p].Counting? || !IsPending(s.pcs[p]) ==> s.output[p] == s.results[p]
  }

  predicate Outputs(s: State)
    requires |s.pcs| == |s.results| + 1 && |s.output| == |s.results|
  {
    && (forall p :: 0 <= p < |s.results| ==> Filled(s, p))
    && s.resumed == if s.alive then [] else [s.results]
  }

  predicate NothingLost(s: State) {
    forall p :: 0 <= p < |s.pcs| ==> s.pcs[p] != Lost
  }

  /** Outside Para, without an executor, or for a single task, nothing is scheduled here, so nothing is lost. */
  predicate LostByRefusal(s: State) {
    (s.para && |s.results| > 1) || NothingLost(s)
  }

  function Flying(pc: Pc): nat {
    if pc.Scheduled? || pc.Lost? || pc.Running? || pc.Counting? then 1 else 0
  }

  /** How many tasks the loop has launched. */
  function Cursor(launcher: Pc, n: nat): nat {
    if launcher.Looping? && launcher.i <= n then launcher.i else n
  }

  /** The log tells which tasks were launched, in order, and how many are in flight: at most all of them. */
  predicate Logged(s: State)
    requires Sized(s)
  {
    var n := |s.results|;
    && InFlight(s.log) == Tally(s.pcs[..n], Flying)
    && Launches(s.log) == UpTo(0, Cursor(s.pcs[n], n)) && Yields(s.log) == 0
    && Bounded(s.log, n)
  }

  predicate Inv(s: State) {
    && |s.results| > 0 && Sized(s)
    && s.count == Pending(s.pcs)
    && Sequenced(s) && LastOnly(s) && Outputs(s) && LostByRefusal(s) && Logged(s)
  }

  /** When the count is down to zero, every slot is filled. */
  lemma {:induction false} AllFilled(s: State)
    requires Inv(s) && s.count == 0
    ensures s.output == s.results && !s.pcs[|s.results|].Looping? && !s.pcs[|s.results|].Setting?
    ensures forall p :: 0 <= p < |s.pcs| ==> !IsPending(s.pcs[p])
  {
    TallyZero(s.pcs, Weight);
    forall p | 0 <= p < |s.results|
      ensures s.output[p] == s.results[p]
    {
      assert Filled(s, p);
    }
  }

  lemma {:induction false} InitialInv(results: seq<Try<int>>, para: bool)
    requires results != []
    ensures Inv(Initial(results, para))
  {
    TallyZero(Initial(results, para).pcs[..|results|], Flying);
    TallyOnes(Initial(results, para).pcs, Weight);
  }

  function Rank(pc: Pc): nat {
    match pc
    case Unlaunched => 7
    case Looping(_) => 6
    case Scheduled => 5
    case Setting => 5
    case Running => 4
    case Counting => 3
    case Taking => 2
    case Resuming => 1
    case _ => 0
  }

  predicate Launching(s: State, p: nat) {
    p < |s.pcs| && s.pcs[p].Looping? && s.pcs[p].i < |s.results|
  }

  /** What launching a task does to the program counters. */
  lemma {:induction false} LaunchMoves(s: State, p: nat, accepted: bool)
    requires Sized(s) && Launching(s, p) && s.pcs[s.pcs[p].i].Unlaunched? && Next(s, p, accepted).Ok?
    ensures var s1, i := Next(s, p, accepted).s, s.pcs[p].i;
      && i != p && s1.pcs == s.pcs[i := s1.pcs[i]][p := s1.pcs[p]] && s1.count == s.count
      && Weight(s1.pcs[i]) == 1 && Rank(s1.pcs[i]) < 6 && !s1.pcs[i].Setting? && s1.pcs[p] == Looping(i + 1)
  {
  }

  /** What any other step does to them. */
  lemma {:induction false} StepMoves(s: State, p: nat, accepted: bool)
    requires Sized(s) && Enabled(s, p) && !Launching(s, p) && Next(s, p, accepted).Ok?
    ensures var s1 := Next(s, p, accepted).s;
      && s1.pcs == s.pcs[p := s1.pcs[p]] && Rank(s1.pcs[p]) < Rank(s.pcs[p])
      && s1.count + Weight(s.pcs[p]) == s.count + Weight(s1.pcs[p])
      && (s1.pcs[p].Setting? ==> s.pcs[p].Looping?) && Rank(s1.pcs[p]) < 6
  {
  }

  lemma {:induction false} CountKept(s: State, p: nat, accepted: bool)
    requires Sized(s) && Enabled(s, p) && Next(s, p, accepted).Ok? && s.count == Pending(s.pcs) && Sequenced(s)
    ensures Next(s, p, accepted).s.count == Pending(Next(s, p, accepted).s.pcs)
  {
    var s1 := Next(s, p, accepted).s;
    assert Launching(s, p) ==> TaskPc(s.pcs[s.pcs[p].i], s.pcs[|s.results|], s.pcs[p].i);
    if p < |s.results| { assert TaskPc(s.pcs[p], s.pcs[|s.results|], p); }
    hide Sequenced, Next;
    if Launching(s, p) {
      LaunchMoves(s, p, accepted);
      var i := s.pcs[p].i;
      TallyUpdate(s.pcs, i, s1.pcs[i], Weight);
      TallyUpdate(s.pcs[i := s1.pcs[i]], p, s1.pcs[p], Weight);
    } else {
      StepMoves(s, p, accepted);
      TallyUpdate(s.pcs, p, s1.pcs[p], Weight);
    }
  }

  lemma {:induction false} LauncherKept(s: State, p: nat, accepted: bool)
    requires Sized(s) && Enabled(s, p) && Next(s, p, accepted).Ok? && LauncherPc(s.pcs[|s.results|], |s.results|)
    requires p < |s.results| ==> !s.pcs[p].Looping?
    ensures LauncherPc(Next(s, p, accepted).s.pcs[|s.results|], |s.results|)
  {
  }

  lemma {:induction false} SequencedKept(s: State, p: nat, accepted: bool)
    requires Sized(s) && Enabled(s, p) && Next(s, p, accepted).Ok? && Sequenced(s)
    ensures Sequenced(Next(s, p, accepted).s)
  {
    var s1 := Next(s, p, accepted).s;
    assert p < |s.results| ==> TaskPc(s.pcs[p], s.pcs[|s.results|], p);
    assert Launching(s, p) ==> p == |s.results| && TaskPc(s.pcs[s.pcs[p].i], s.pcs[p], s.pcs[p].i);
    assert LauncherPc(s1.pcs[|s.results|], |s.results|) by { LauncherKept(s, p, accepted); }
    if Launching(s, p) { LaunchMoves(s, p, accepted); } else { StepMoves(s, p, accepted); }
    hide Next;
    forall q | 0 <= q < |s.results|
      ensures TaskPc(s1.pcs[q], s1.pcs[|s.results|], q)
    {
      assert TaskPc(s.pcs[q], s.pcs[|s.results|], q);
    }
  }

  lemma {:induction false} LastKept(s: State, p: nat, accepted: bool)
    requires Sized(s) && Enabled(s, p) && Next(s, p, accepted).Ok? && Sequenced(s) && LastOnly(s)
    requires s.count == 0 ==> !s.pcs[|s.results|].Looping? && !s.pcs[|s.results|].Setting? && !IsPending(s.pcs[p])
    ensures LastOnly(Next(s, p, accepted).s)
  {
  }

  lemma {:induction false} OutputsKept(s: State, p: nat, accepted: bool)
    requires Sized(s) && Enabled(s, p) && Next(s, p, accepted).Ok? && Sequenced(s) && Outputs(s)
    requires s.pcs[p].Resuming? ==> s.output == s.results
    ensures Outputs(Next(s, p, accepted).s)
  {
    var s1 := Next(s, p, accepted).s;
    assert Launching(s, p) ==> s.pcs[s.pcs[p].i].Unlaunched? && p == |s.results|;
    hide Sequenced;
    forall q | 0 <= q < |s.results|
      ensures Filled(s1, q)
    {
      assert Filled(s, q);
    }
  }

  lemma {:induction false} FlyingAtMost(pcs: seq<Pc>)
    ensures Tally(pcs, Flying) <= |pcs|
  {
    if pcs != [] { FlyingAtMost(pcs[1..]); }
  }

  /** A launch: one more task in flight. */
  lemma {:induction false} LaunchLogged(s: State, p: nat, accepted: bool)
    requires Sized(s) && Sequenced(s) && Logged(s) && Launching(s, p) && p == |s.results| && Next(s, p, accepted).Ok?
    ensures Logged(Next(s, p, accepted).s)
  {
    var n, i, s1 := |s.results|, s.pcs[p].i, Next(s, p, accepted).s;
    assert TaskPc(s.pcs[i], s.pcs[n], i);
    LaunchMoves(s, p, accepted);
    assert s1.log == s.log + [Launched(i)] && Flying(s1.pcs[i]) == 1 && s1.results == s.results && p == n;
    hide Next, Sequenced, InFlight, Launches, Yields, Bounded, UpTo;
    assert s1.pcs[..n] == s.pcs[..n][i := s1.pcs[i]];
    TallyUpdate(s.pcs[..n], i, s1.pcs[i], Flying);
    FlyingAtMost(s1.pcs[..n]);
    LogPush(s.log, Launched(i));
    BoundedPush(s.log, Launched(i), n);
    UpToPush(i);
  }

  lemma {:induction false} UpToPush(i: nat)
    ensures UpTo(0, i) + [i] == UpTo(0, i + 1)
  {
  }

  /** Any other step: a task that counts down is in flight no longer. */
  lemma {:induction false} StepLogged(s: State, p: nat, accepted: bool)
    requires Sized(s) && Sequenced(s) && Logged(s) && Enabled(s, p) && !Launching(s, p) && Next(s, p, accepted).Ok?
    ensures Logged(Next(s, p, accepted).s)
  {
    var n, s1 := |s.results|, Next(s, p, accepted).s;
    if p < n { assert TaskPc(s.pcs[p], s.pcs[n], p); }
    StepMoves(s, p, accepted);
    assert s1.results == s.results;
    assert Cursor(s1.pcs[n], n) == Cursor(s.pcs[n], n);
    if p < n {
      assert s1.log == if s.pcs[p].Counting? then s.log + [TaskLog.Finished(p)] else s.log;
      assert Flying(s1.pcs[p]) == Flying(s.pcs[p]) - if s.pcs[p].Counting? then 1 else 0;
      hide Next, Sequenced;
      assert s1.pcs[..n] == s.pcs[..n][p := s1.pcs[p]];
      TallyUpdate(s.pcs[..n], p, s1.pcs[p], Flying);
      LogPush(s.log, TaskLog.Finished(p));
      if s.pcs[p].Counting? { BoundedPush(s.log, TaskLog.Finished(p), n); }
    } else {
      assert s1.log == s.log && s1.pcs[..n] == s.pcs[..n];
    }
  }

  lemma {:induction false} StepLosesOnlyRejected(s: State, p: nat, accepted: bool)
    requires Sized(s) && Enabled(s, p) && Next(s, p, accepted).Ok? && NothingLost(s)
    requires s.para && |s.results| > 1 ==> accepted
    ensures NothingLost(Next(s, p, accepted).s)
  {
  }

  lemma {:induction false} StepKeepsInv(s: State, p: nat, accepted: bool)
    requires Inv(s) && Enabled(s, p)
    ensures Next(s, p, accepted).Ok? && Inv(Next(s, p, accepted).s)
  {
    assert Sized(s);
    assert s.alive && (s.pcs[p].Resuming? ==> s.count == 0) by {
      assert Some(p) != s.last ==> !s.pcs[p].Taking? && !s.pcs[p].Resuming?;
      if !s.alive { AllFilled(s); }
    }
    if s.count == 0 { AllFilled(s); }
    if s.pcs[p].Counting? { TallyAtLeast(s.pcs, p, Weight); }
    assert Next(s, p, accepted).Ok?;
    if p < |s.results| { assert TaskPc(s.pcs[p], s.pcs[|s.results|], p); }
    if Launching(s, p) { LaunchLogged(s, p, accepted); } else { StepLogged(s, p, accepted); }
    hide Sequenced, LastOnly, Outputs, Next, NothingLost, Logged;
    if NothingLost(s) && !(s.para && |s.results| > 1) { StepLosesOnlyRejected(s, p, accepted); }
    CountKept(s, p, accepted);
    SequencedKept(s, p, accepted);
    LastKept(s, p, accepted);
    OutputsKept(s, p, accepted);
  }

  // ---------------------------------------------------------------- termination

  function Measure(pcs: seq<Pc>): nat {
    Tally(pcs, Rank)
  }

  lemma {:induction false} StepShrinks(s: State, p: nat, accepted: bool)
    requires Sized(s) && Enabled(s, p) && Next(s, p, accepted).Ok? && Sequenced(s)
    ensures Measure(Next(s, p, accepted).s.pcs) < Measure(s.pcs)
    ensures Next(s, p, accepted).s.results == s.results && Next(s, p, accepted).s.para == s.para
  {
    var s1 := Next(s, p, accepted).s;
    assert Launching(s, p) ==> TaskPc(s.pcs[s.pcs[p].i], s.pcs[|s.results|], s.pcs[p].i);
    if p < |s.results| { assert TaskPc(s.pcs[p], s.pcs[|s.results|], p); }
    hide Sequenced, Next;
    if Launching(s, p) {
      LaunchMoves(s, p, accepted);
      var i := s.pcs[p].i;
      TallyUpdate(s.pcs, i, s1.pcs[i], Rank);
      TallyUpdate(s.pcs[i := s1.pcs[i]], p, s1.pcs[p], Rank);
    } else {
      StepMoves(s, p, accepted);
      TallyUpdate(s.pcs, p, s1.pcs[p], Rank);
    }
  }

  // ---------------------------------------------------------------- every run

  lemma {:induction false} RunKeepsInv(s: State, ps: seq<(nat, bool)>, c: Config)
    requires Inv(s) && Runs(s, ps, c)
    ensures c.Ok? && Inv(c.s) && c.s.results == s.results && c.s.para == s.para && Measure(c.s.pcs) + |ps| <= Measure(s.pcs)
    decreases |ps|
  {
    hide Sequenced, LastOnly, Outputs, Next, LostByRefusal, Logged;
    if ps != [] {
      StepKeepsInv(s, ps[0].0, ps[0].1);
      StepShrinks(s, ps[0].0, ps[0].1);
      RunKeepsInv(Next(s, ps[0].0, ps[0].1).s, ps[1..], c);
    }
  }

  /** No party touches the awaiter after it was destroyed; the coroutine is resumed at most once, after the loop ended and
      every slot holds its task's result; every run ends. */
  lemma {:induction false} CollectAllTheorem(results: seq<Try<int>>, para: bool, ps: seq<(nat, bool)>, c: Config)
    requires results != [] && Runs(Initial(results, para), ps, c)
    ensures c.Ok? && |ps| <= Measure(Initial(results, para).pcs)
    ensures c.s.resumed == [] || c.s.resumed == [results]
    ensures c.s.resumed != [] ==> forall p :: 0 <= p <= |results| && p < |c.s.pcs| ==> c.s.pcs[p].Done?
    ensures Bounded(c.s.log, |results|)
    ensures c.s.resumed != [] ==> Launches(c.s.log) == UpTo(0, |results|) && InFlight(c.s.log) == 0
  {
    InitialInv(results, para);
    RunKeepsInv(Initial(results, para), ps, c);
    if c.s.resumed != [] {
      AllFilled(c.s);
      TallyZero(c.s.pcs[..|results|], Flying);
    }
  }

  lemma {:induction false} StuckIsResumed(s: State)
    requires Inv(s) && forall p :: !Enabled(s, p)
    ensures s.resumed == [s.results] <==> NothingLost(s)
  {
    assert forall p :: 0 <= p < |s.pcs| && !Enabled(s, p) ==> s.pcs[p].Unlaunched? || s.pcs[p].Lost? || s.pcs[p].Done?;
    assert forall p :: 0 <= p < |s.pcs| ==> !Enabled(s, p);
    assert s.pcs[|s.results|].Done?;
    forall p | 0 <= p < |s.results|
      ensures !s.pcs[p].Unlaunched?
    {
      assert TaskPc(s.pcs[p], s.pcs[|s.results|], p);
    }
    TallyZero(s.pcs, Weight);
  }

  /** A run that cannot go on has resumed the awaiting coroutine if and only if no Schedule was answered false. */
  lemma {:induction false} ResumedUnlessLost(results: seq<Try<int>>, para: bool, ps: seq<(nat, bool)>, c: Config)
    requires results != [] && Runs(Initial(results, para), ps, c)
    requires c.Ok? ==> forall p :: !Enabled(c.s, p)
    ensures c.Ok? && (c.s.resumed == [results] <==> NothingLost(c.s))
  {
    InitialInv(results, para);
    RunKeepsInv(Initial(results, para), ps, c);
    StuckIsResumed(c.s);
  }

  lemma {:induction false} OnlyParaLoses(s: State, ps: seq<(nat, bool)>, c: Config)
    requires Inv(s) && NothingLost(s) && Runs(s, ps, c)
    requires s.para && |s.results| > 1 ==> forall k :: 0 <= k < |ps| ==> ps[k].1
    ensures c.Ok? && NothingLost(c.s)
    decreases |ps|
  {
    if ps != [] {
      StepKeepsInv(s, ps[0].0, ps[0].1);
      StepShrinks(s, ps[0].0, ps[0].1);
      StepLosesOnlyRejected(s, ps[0].0, ps[0].1);
      hide Inv, Measure, Next, NothingLost;
      OnlyParaLoses(Next(s, ps[0].0, ps[0].1).s, ps[1..], c);
    }
  }

  // ---------------------------------------------------------------- a run that loses a task

  ghost predicate StuckUnresumed(s: State) {
    s.resumed == [] && s.count == 1 && forall p :: !Enabled(s, p)
  }

  /** Two tasks, with the parties at these places and both launched. */
  function BothLaunched(results: seq<Try<int>>, pcs: seq<Pc>, awaiting: bool, count: nat): State {
    State(results, true, [Nothing, Nothing], count, awaiting, true, pcs, None, [Launched(0), Launched(1)], [])
  }

  lemma {:induction false} LaunchesBoth(results: seq<Try<int>>)
    requires |results| == 2
    ensures Runs(Initial(results, true), [(2, true), (2, false)], Ok(BothLaunched(results, [Scheduled, Lost, Looping(2)], false, 3)))
  {
    var s0 := Initial(results, true);
    assert s0.pcs == [Unlaunched, Unlaunched, Looping(0)] && s0.output == [Nothing, Nothing];
    hide Initial;
    var ps := [(2, true), (2, false)];
    var s1 := s0.(pcs := [Scheduled, Unlaunched, Looping(1)], log := [Launched(0)]);
    var s2 := BothLaunched(results, [Scheduled, Lost, Looping(2)], false, 3);
    assert Next(s0, 2, true) == Ok(s1) && Next(s1, 2, false) == Ok(s2);
    hide Next;
    assert Runs(s2, [], Ok(s2));
    assert Runs(s1, ps[1..], Ok(s2));
  }

  lemma {:induction false} LoopEnds(results: seq<Try<int>>)
    requires |results| == 2
    ensures Runs(BothLaunched(results, [Scheduled, Lost, Looping(2)], false, 3), [(2, true), (2, true), (2, true)],
                 Ok(BothLaunched(results, [Scheduled, Lost, Done], true, 2)))
  {
    var ps := [(2, true), (2, true), (2, true)];
    var s2 := BothLaunched(results, [Scheduled, Lost, Looping(2)], false, 3);
    var s3 := BothLaunched(results, [Scheduled, Lost, Setting], false, 3);
    var s4 := BothLaunched(results, [Scheduled, Lost, Counting], true, 3);
    var s5 := BothLaunched(results, [Scheduled, Lost, Done], true, 2);
    assert Next(s2, 2, true) == Ok(s3) && Next(s3, 2, true) == Ok(s4) && Next(s4, 2, true) == Ok(s5);
    hide Next, BothLaunched;
    assert Runs(s5, [], Ok(s5));
    assert Runs(s4, ps[2..], Ok(s5));
    assert Runs(s3, ps[1..], Ok(s5));
  }

  lemma {:induction false} RunsAppend(s: State, ps: seq<(nat, bool)>, s1: State, more: seq<(nat, bool)>, c: Config)
    requires Runs(s, ps, Ok(s1)) && Runs(s1, more, c)
    ensures Runs(s, ps + more, c)
    decreases |ps|
  {
    hide Next;
    if ps == [] {
      assert ps + more == more;
    } else {
      assert (ps + more)[1..] == ps[1..] + more;
      RunsAppend(Next(s, ps[0].0, ps[0].1).s, ps[1..], s1, more, c);
    }
  }

  lemma {:induction false} FirstEnds(results: seq<Try<int>>, s8: State)
    requires |results| == 2
    requires s8 == BothLaunched(results, [Done, Lost, Done], true, 1).(
      output := [results[0], Nothing], log := [Launched(0), Launched(1), TaskLog.Finished(0)])
    ensures Runs(BothLaunched(results, [Scheduled, Lost, Done], true, 2), [(0, true), (0, true), (0, true)], Ok(s8))
  {
    var ps := [(0, true), (0, true), (0, true)];
    var s5 := BothLaunched(results, [Scheduled, Lost, Done], true, 2);
    var s6 := BothLaunched(results, [Running, Lost, Done], true, 2);
    var s7 := BothLaunched(results, [Counting, Lost, Done], true, 2).(output := [results[0], Nothing]);
    assert Next(s5, 0, true) == Ok(s6) && Next(s6, 0, true) == Ok(s7) && Next(s7, 0, true) == Ok(s8);
    hide Next, BothLaunched;
    assert Runs(s8, [], Ok(s8));
    assert Runs(s7, ps[2..], Ok(s8));
    assert Runs(s6, ps[1..], Ok(s8));
  }

  /** CollectAllPara of two tasks, the second of which is refused: the first one comes to its end, and so does the loop, but
      the count stands at 1 for ever and the awaiting coroutine is not resumed. */
  lemma {:induction false} RefusalLosesTheCoroutine(results: seq<Try<int>>)
    requires |results| == 2
    ensures exists ps, s :: Runs(Initial(results, true), ps, Ok(s)) && StuckUnresumed(s)
  {
    var s2 := BothLaunched(results, [Scheduled, Lost, Looping(2)], false, 3);
    var s5 := BothLaunched(results, [Scheduled, Lost, Done], true, 2);
    var s8 := BothLaunched(results, [Done, Lost, Done], true, 1).(
      output := [results[0], Nothing], log := [Launched(0), Launched(1), TaskLog.Finished(0)]);
    LaunchesBoth(results);
    LoopEnds(results);
    FirstEnds(results, s8);
    assert StuckUnresumed(s8);
    hide Initial, Runs, BothLaunched;
    var ps := [(2, true), (2, false)];
    RunsAppend(Initial(results, true), ps, s2, [(2, true), (2, true), (2, true)], Ok(s5));
    RunsAppend(Initial(results, true), ps + [(2, true), (2, true), (2, true)], s5, [(0, true), (0, true), (0, true)], Ok(s8));
  }
}
