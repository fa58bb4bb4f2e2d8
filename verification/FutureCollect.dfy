/** `CollectAll(begin, end)` over futures: the collected promise is set by the destructor of a context that the caller and
    the n continuations share.

    A future appears here as what the shared state guarantees about its continuation: it is called once there is a result,
    with that result, and it is destroyed once, after that call. `Advances` says so, and is discharged below. */
module FutureCollect {
  import opened TryModel
  import opened Tallies

  /** The continuation installed in one future. */
  datatype Slot = Absent | Waiting | Calling | Called | Gone

  predicate Advances(a: Slot, b: Slot) {
    match a
    case Absent => b.Waiting?
    case Waiting => b.Calling?
    case Calling => b.Called?
    case Called => b.Gone?
    case Gone => false
  }

  datatype MainPc =
    | Scanning(i: nat)      // std::all_of HasResult
    | Looping(i: nat)       // if (cur->HasResult())
    | Wrapping(i: nat)      // a lambda that shares the context
    | Installing(i: nat)    // SetContinuation keeps a copy of it
    | Unwrapping(i: nat)    // the temporary lambda dies
    | Leaving               // the local shared_ptr dies
    | Finished

  datatype State = State(
    vals: seq<Try<int>>,        // the results of the futures,
    ready: seq<bool>,           // and whether they have arrived
    main: MainPc,
    conts: seq<Slot>,
    results: seq<Try<int>>,     // the context's members
    refs: nat,
    alive: bool,
    delivered: seq<seq<Try<int>>>)

  datatype Fault = UseAfterFree

  datatype Config = Ok(s: State) | Crashed(why: Fault)

  datatype Action = Main | Arrive(i: nat) | Advance(i: nat) | Lose(i: nat)

  predicate Sized(s: State) {
    |s.ready| == |s.vals| == |s.conts| == |s.results|
  }

  function Initial(vals: seq<Try<int>>, ready: seq<bool>): State {
    State(vals, ready, Scanning(0), seq(|vals|, i => Absent), seq(|vals|, i => Nothing), 0, false, [])
  }

  /** `Lose` destroys a continuation that has not been called: the shared state never does that, unless `careless`. */
  predicate Enabled(s: State, a: Action, careless: bool)
    requires Sized(s)
  {
    match a
    case Main => !s.main.Finished?
    case Arrive(i) => i < |s.vals| && !s.ready[i]
    case Advance(i) => i < |s.vals| && (s.conts[i].Calling? || s.conts[i].Called? || (s.conts[i].Waiting? && s.ready[i]))
    case Lose(i) => careless && i < |s.vals| && s.conts[i].Waiting?
  }

  /** A shared_ptr dies; the last one runs ~Context, which sets the promise. */
  function Release(s: State): Config {
    if !s.alive || s.refs == 0 then Crashed(UseAfterFree)
    else if s.refs > 1 then Ok(s.(refs := s.refs - 1))
    else Ok(s.(refs := 0, alive := false, delivered := s.delivered + [s.results]))
  }

  function Store(s: State, i: nat): Config
    requires Sized(s) && i < |s.vals|
  {
    if !s.alive then Crashed(UseAfterFree) else Ok(s.(results := s.results[i := s.vals[i]]))
  }

  function MainStep(s: State): Config
    requires Sized(s)
  {
    var n := |s.vals|;
    match s.main
    case Scanning(i) =>
      if i >= n then Ok(s.(main := Finished, delivered := s.delivered + [s.vals]))
      else if s.ready[i] then Ok(s.(main := Scanning(i + 1)))
      else Ok(s.(main := Looping(0), refs := 1, alive := true))
    case Looping(i) =>
      if i >= n then Ok(s.(main := Leaving))
      else if s.ready[i] then Store(s.(main := Looping(i + 1)), i)
      else Ok(s.(main := Wrapping(i)))
    case Wrapping(i) => Ok(s.(main := Installing(i), refs := s.refs + 1))
    case Installing(i) =>
      Ok(s.(main := Unwrapping(i), refs := s.refs + 1, conts := if i < n then s.conts[i := Waiting] else s.conts))
    case Unwrapping(i) => Release(s.(main := Looping(i + 1)))
    case Leaving => Release(s.(main := Finished))
    case Finished => Ok(s)
  }

  function ContStep(s: State, i: nat): Config
    requires Sized(s) && i < |s.vals|
  {
    match s.conts[i]
    case Waiting => Ok(s.(conts := s.conts[i := Calling]))
    case Calling => Store(s.(conts := s.conts[i := Called]), i)
    case Called => Release(s.(conts := s.conts[i := Gone]))
    case _ => Ok(s)
  }

  function Next(s: State, a: Action): Config
    requires Sized(s) && Enabled(s, a, true)
  {
    match a
    case Main => MainStep(s)
    case Arrive(i) => Ok(s.(ready := s.ready[i := true]))
    case Advance(i) => ContStep(s, i)
    case Lose(i) => Release(s.(conts := s.conts[i := Gone]))
  }

  ghost predicate Runs(s: State, acts: seq<Action>, careless: bool, c: Config)
    decreases |acts|
  {
    if acts == [] then c == Ok(s) else
    Sized(s) && Enabled(s, acts[0], careless) &&
    match Next(s, acts[0])
    case Crashed(_) => c == Next(s, acts[0]) && |acts| == 1
    case Ok(s1) => Runs(s1, acts[1..], careless, c)
  }

  // ---------------------------------------------------------------- the invariant

  function Holds(slot: Slot): nat {
    if slot.Waiting? || slot.Calling? || slot.Called? then 1 else 0
  }

  function MainHolds(main: MainPc): nat {
    match main
    case Scanning(_) => 0
    case Finished => 0
    case Installing(_) => 2
    case Unwrapping(_) => 2
    case _ => 1
  }

  /** The futures the loop has dealt with. */
  function Cursor(main: MainPc, n: nat): nat {
    match main
    case Scanning(_) => 0
    case Looping(i) => i
    case Wrapping(i) => i
    case Installing(i) => i
    case Unwrapping(i) => i + 1
    case _ => n
  }

  predicate SlotOk(s: State, i: nat)
    requires Sized(s) && i < |s.vals|
  {
    && (i >= Cursor(s.main, |s.vals|) ==> s.conts[i].Absent?)
    && (i < Cursor(s.main, |s.vals|) && !s.conts[i].Waiting? && !s.conts[i].Calling? ==> s.results[i] == s.vals[i])
    && (i < Cursor(s.main, |s.vals|) && !s.conts[i].Waiting? ==> s.ready[i])
  }

  predicate MainOk(main: MainPc, n: nat) {
    match main
    case Scanning(_) => false
    case Looping(i) => i <= n
    case Wrapping(i) => i < n
    case Installing(i) => i < n
    case Unwrapping(i) => i < n
    case _ => true
  }

  predicate AllSlotsOk(s: State)
    requires Sized(s)
  {
    forall i :: 0 <= i < |s.vals| ==> SlotOk(s, i)
  }

  /** In the loop, or after it, the context lives as long as somebody shares it, and the promise is set when nobody does. */
  predicate Collecting(s: State) {
    && Sized(s) && MainOk(s.main, |s.vals|) && AllSlotsOk(s)
    && s.refs == MainHolds(s.main) + Tally(s.conts, Holds)
    && (s.alive <==> s.refs > 0)
    && s.delivered == if s.alive then [] else [s.vals]
  }

  predicate Untouched(s: State) {
    Sized(s) && s.refs == 0 && !s.alive && forall i :: 0 <= i < |s.vals| ==> s.conts[i].Absent?
  }

  predicate ReadyBelow(s: State, n: nat)
    requires Sized(s)
  {
    forall i :: 0 <= i < n && i < |s.vals| ==> s.ready[i]
  }

  predicate Inv(s: State) {
    || (Untouched(s) && s.main.Scanning? && s.delivered == [] && ReadyBelow(s, s.main.i))
    || (Untouched(s) && s.main.Finished? && s.delivered == [s.vals] && ReadyBelow(s, |s.vals|))
    || Collecting(s)
  }

  /** Slots whose future is left alone stay as they are. */
  lemma {:induction false} SlotsKept(s: State, s1: State)
    requires Sized(s) && Sized(s1) && s1.vals == s.vals && AllSlotsOk(s)
    requires forall i :: 0 <= i < |s.vals| && s1.conts[i] == s.conts[i] && i >= Cursor(s.main, |s.vals|) ==>
      i >= Cursor(s1.main, |s.vals|) || (s1.results[i] == s.vals[i] && s1.ready[i])
    requires forall i :: 0 <= i < |s.vals| && s.ready[i] ==> s1.ready[i]
    requires forall i :: 0 <= i < |s.vals| && s1.conts[i] == s.conts[i] ==> s1.results[i] == s.results[i] || s1.results[i] == s.vals[i]
    requires forall i :: 0 <= i < |s.vals| && s1.conts[i] != s.conts[i] ==> SlotOk(s1, i)
    requires Cursor(s1.main, |s.vals|) >= Cursor(s.main, |s.vals|)
    ensures AllSlotsOk(s1)
  {
    forall i | 0 <= i < |s.vals|
      ensures SlotOk(s1, i)
    {
      assert SlotOk(s, i);
    }
  }

  /** A reference goes: either others remain, or every slot is filled. */
  lemma {:induction false} ReleaseDelivers(s: State)
    requires Sized(s) && s.alive && s.delivered == [] && s.refs == MainHolds(s.main) + Tally(s.conts, Holds) + 1
    requires MainOk(s.main, |s.vals|) && AllSlotsOk(s)
    ensures Release(s).Ok? && Collecting(Release(s).s) && Release(s).s.vals == s.vals
  {
    TallyZero(s.conts, Holds);
    var s1 := Release(s).s;
    forall i | 0 <= i < |s.vals|
      ensures SlotOk(s1, i) && (s.refs == 1 ==> s.results[i] == s.vals[i])
    {
      assert SlotOk(s, i);
      assert s.refs == 1 ==> Holds(s.conts[i]) == 0 && s.main.Finished?;
    }
    assert s.refs == 1 ==> s.results == s.vals;
  }

  lemma {:induction false} LoopKeepsInv(s: State)
    requires Collecting(s) && (s.main.Looping? || s.main.Wrapping?)
    ensures MainStep(s).Ok? && Collecting(MainStep(s).s)
  {
    SlotsKept(s, MainStep(s).s);
  }

  lemma {:induction false} InstallKeepsInv(s: State)
    requires Collecting(s) && s.main.Installing?
    ensures Collecting(MainStep(s).s)
  {
    assert SlotOk(s, s.main.i);
    TallyUpdate(s.conts, s.main.i, Waiting, Holds);
    SlotsKept(s, MainStep(s).s);
  }

  lemma {:induction false} UnwrapKeepsInv(s: State)
    requires Collecting(s) && (s.main.Unwrapping? || s.main.Leaving?)
    ensures MainStep(s).Ok? && Collecting(MainStep(s).s)
  {
    var s0 := s.(main := if s.main.Leaving? then Finished else Looping(s.main.i + 1));
    SlotsKept(s, s0);
    ReleaseDelivers(s0);
  }

  lemma {:induction false} MainKeepsInv(s: State)
    requires Inv(s) && !s.main.Finished?
    ensures MainStep(s).Ok? && Inv(MainStep(s).s)
  {
    if Collecting(s) {
      hide Collecting, MainStep;
      if s.main.Looping? || s.main.Wrapping? { LoopKeepsInv(s); }
      else if s.main.Installing? { InstallKeepsInv(s); assert MainStep(s).Ok? by { NeverScanning(s); } }
      else { assert !s.main.Scanning? by { NeverScanning(s); } UnwrapKeepsInv(s); }
    } else {
      TallyZero(s.conts, Holds);
    }
  }

  lemma {:induction false} NeverScanning(s: State)
    requires Collecting(s)
    ensures !s.main.Scanning? && (s.main.Installing? ==> MainStep(s).Ok?)
  {
  }

  lemma {:induction false} ContKeepsInv(s: State, i: nat)
    requires Inv(s) && Sized(s) && i < |s.vals| && Enabled(s, Advance(i), false)
    ensures ContStep(s, i).Ok? && Collecting(ContStep(s, i).s)
  {
    assert Collecting(s) && SlotOk(s, i);
    TallyAtLeast(s.conts, i, Holds);
    match s.conts[i]
    case Waiting =>
      TallyUpdate(s.conts, i, Calling, Holds);
      SlotsKept(s, ContStep(s, i).s);
    case Calling =>
      TallyUpdate(s.conts, i, Called, Holds);
      SlotsKept(s, ContStep(s, i).s);
    case Called =>
      TallyUpdate(s.conts, i, Gone, Holds);
      var s0 := s.(conts := s.conts[i := Gone]);
      SlotsKept(s, s0);
      ReleaseDelivers(s0);
  }

  lemma {:induction false} ArriveKeepsInv(s: State, i: nat)
    requires Inv(s) && Sized(s) && i < |s.vals|
    ensures Inv(s.(ready := s.ready[i := true]))
  {
    if Collecting(s) { SlotsKept(s, s.(ready := s.ready[i := true])); }
  }

  lemma {:induction false} StepKeepsInv(s: State, a: Action)
    requires Inv(s) && Sized(s) && Enabled(s, a, false)
    ensures Next(s, a).Ok? && Inv(Next(s, a).s) && Next(s, a).s.vals == s.vals
  {
    hide Inv, MainStep, ContStep, Collecting;
    match a
    case Main => MainKeepsInv(s); KeepsVals(s, a);
    case Arrive(i) => ArriveKeepsInv(s, i);
    case Advance(i) => ContKeepsInv(s, i); KeepsVals(s, a); IsInv(Next(s, a).s);
  }

  lemma {:induction false} IsInv(s: State)
    requires Collecting(s)
    ensures Inv(s)
  {
  }

  lemma {:induction false} KeepsVals(s: State, a: Action)
    requires Sized(s) && Enabled(s, a, true) && Next(s, a).Ok?
    ensures Next(s, a).s.vals == s.vals && Sized(Next(s, a).s)
  {
  }

  lemma {:induction false} RunKeepsInv(s: State, acts: seq<Action>, c: Config)
    requires Inv(s) && Runs(s, acts, false, c)
    ensures c.Ok? && Inv(c.s) && c.s.vals == s.vals
    decreases |acts|
  {
    hide Inv, Next;
    if acts != [] {
      StepKeepsInv(s, acts[0]);
      RunKeepsInv(Next(s, acts[0]).s, acts[1..], c);
    }
  }

  // ---------------------------------------------------------------- every run ends

  function Missing(ready: bool): nat {
    if ready then 0 else 1
  }

  function ToGo(slot: Slot): nat {
    match slot
    case Absent => 4
    case Waiting => 3
    case Calling => 2
    case Called => 1
    case Gone => 0
  }

  function Left(i: nat, n: nat): nat {
    if i < n then n - i else 0
  }

  function MainToGo(main: MainPc, n: nat): nat {
    match main
    case Scanning(i) => Left(i, n) + 4 * n + 4
    case Looping(i) => 4 * Left(i, n) + 3
    case Wrapping(i) => 4 * Left(i, n) + 2
    case Installing(i) => 4 * Left(i, n) + 1
    case Unwrapping(i) => 4 * Left(i, n)
    case Leaving => 1
    case Finished => 0
  }

  function Measure(s: State): nat {
    MainToGo(s.main, |s.vals|) + Tally(s.conts, ToGo) + Tally(s.ready, Missing)
  }

  lemma {:induction false} MainShrinks(s: State)
    requires Inv(s) && !s.main.Finished? && MainStep(s).Ok?
    ensures Measure(MainStep(s).s) < Measure(s)
  {
    if s.main.Installing? && s.main.i < |s.vals| { TallyUpdate(s.conts, s.main.i, Waiting, ToGo); }
    if s.main.Installing? { assert SlotOk(s, s.main.i); }
  }

  lemma {:induction false} ContShrinks(s: State, i: nat)
    requires Sized(s) && i < |s.vals| && Enabled(s, Advance(i), false) && ContStep(s, i).Ok?
    ensures Measure(ContStep(s, i).s) < Measure(s)
  {
    TallyUpdate(s.conts, i, ContStep(s, i).s.conts[i], ToGo);
  }

  /** Every step leaves less to do. */
  lemma {:induction false} StepShrinks(s: State, a: Action)
    requires Inv(s) && Sized(s) && Enabled(s, a, false) && Next(s, a).Ok?
    ensures Measure(Next(s, a).s) < Measure(s)
  {
    match a
    case Main => MainShrinks(s);
    case Arrive(i) => TallyUpdate(s.ready, i, true, Missing);
    case Advance(i) => ContShrinks(s, i);
  }

  lemma {:induction false} RunShrinks(s: State, acts: seq<Action>, c: Config)
    requires Inv(s) && Runs(s, acts, false, c) && c.Ok?
    ensures Measure(c.s) + |acts| <= Measure(s)
    decreases |acts|
  {
    hide Inv, Next, Measure;
    if acts != [] {
      StepKeepsInv(s, acts[0]);
      StepShrinks(s, acts[0]);
      RunShrinks(Next(s, acts[0]).s, acts[1..], c);
    }
  }

  // ---------------------------------------------------------------- every run

  /** The collected promise is set at most once and then with every future's result in its place, for any number of futures,
      whichever have a result beforehand and in whatever order the others get theirs, also between the test and
      SetContinuation; when nothing more can happen it has been set. */
  lemma {:induction false} FutureCollectTheorem(vals: seq<Try<int>>, ready: seq<bool>, acts: seq<Action>, c: Config)
    requires |ready| == |vals| && Runs(Initial(vals, ready), acts, false, c)
    ensures c.Ok? && (c.s.delivered == [] || c.s.delivered == [vals])
    ensures c.s.delivered != [] ==> forall i :: 0 <= i < |c.s.ready| ==> c.s.ready[i]
    ensures Sized(c.s) && ((forall a :: !Enabled(c.s, a, false)) ==> c.s.delivered == [vals])
  {
    RunKeepsInv(Initial(vals, ready), acts, c);
    var s := c.s;
    if Collecting(s) && forall a :: !Enabled(s, a, false) {
      assert !Enabled(s, Main, false);
      forall i | 0 <= i < |s.vals|
        ensures Holds(s.conts[i]) == 0
      {
        assert !Enabled(s, Arrive(i), false) && !Enabled(s, Advance(i), false);
      }
      TallyZero(s.conts, Holds);
    } else if !Collecting(s) {
      assert Enabled(s, Main, false) || s.main.Finished?;
    }
    if Collecting(s) && s.delivered != [] {
      TallyZero(s.conts, Holds);
      forall i | 0 <= i < |s.ready|
        ensures s.ready[i]
      {
        assert SlotOk(s, i) && Holds(s.conts[i]) == 0;
      }
    }
  }

  /** No run is longer than ten steps a future and four more. */
  lemma {:induction false} RunsEnd(vals: seq<Try<int>>, ready: seq<bool>, acts: seq<Action>, c: Config)
    requires |ready| == |vals| && Runs(Initial(vals, ready), acts, false, c)
    ensures |acts| <= 10 * |vals| + 4
  {
    var s := Initial(vals, ready);
    RunKeepsInv(s, acts, c);
    RunShrinks(s, acts, c);
    TallyBounded(s.conts, ToGo, 4);
    TallyBounded(s.ready, Missing, 1);
  }

  /** Future i had its result before, and the loop is not about to give it a continuation. */
  predicate Passed(s: State, i: nat) {
    Sized(s) && i < |s.vals| && s.ready[i] && s.conts[i].Absent? && s.main != Wrapping(i) && s.main != Installing(i)
  }

  lemma {:induction false} PassedStep(s: State, a: Action, careless: bool, i: nat)
    requires Passed(s, i) && Enabled(s, a, careless) && Next(s, a).Ok?
    ensures Passed(Next(s, a).s, i)
  {
  }

  lemma {:induction false} PassedKeeps(s: State, acts: seq<Action>, careless: bool, c: Config, i: nat)
    requires Passed(s, i) && Runs(s, acts, careless, c) && c.Ok?
    ensures Passed(c.s, i)
    decreases |acts|
  {
    hide Passed, Next;
    if acts != [] {
      PassedStep(s, acts[0], careless, i);
      PassedKeeps(Next(s, acts[0]).s, acts[1..], careless, c, i);
    }
  }

  /** A future that has its result beforehand gets no continuation, whatever the others do. */
  lemma {:induction false} ReadyNeedsNoContinuation(vals: seq<Try<int>>, ready: seq<bool>, acts: seq<Action>, careless: bool, c: Config, i: nat)
    requires |ready| == |vals| && Runs(Initial(vals, ready), acts, careless, c) && c.Ok? && i < |vals| && ready[i]
    ensures Sized(c.s) && i < |c.s.conts| && c.s.conts[i].Absent?
  {
    PassedKeeps(Initial(vals, ready), acts, careless, c, i);
  }

  /** The scan has met nothing but results. */
  predicate AllReady(s: State) {
    Sized(s) && (s.main.Scanning? || s.main.Finished?) && !s.alive && s.refs == 0 && forall i :: 0 <= i < |s.vals| ==> Passed(s, i)
  }

  lemma {:induction false} AllReadyStep(s: State, a: Action, careless: bool)
    requires AllReady(s) && Enabled(s, a, careless)
    ensures Next(s, a).Ok? && AllReady(Next(s, a).s)
  {
    forall i | 0 <= i < |s.vals|
      ensures s.conts[i].Absent?
    {
      assert Passed(s, i);
    }
    if s.main.Scanning? && s.main.i < |s.vals| { assert Passed(s, s.main.i); }
    forall i | 0 <= i < |s.vals|
      ensures Passed(Next(s, a).s, i)
    {
      assert Passed(s, i);
    }
  }

  lemma {:induction false} AllReadyKeeps(s: State, acts: seq<Action>, careless: bool, c: Config)
    requires AllReady(s) && Runs(s, acts, careless, c)
    ensures c.Ok? && AllReady(c.s)
    decreases |acts|
  {
    hide AllReady, Next;
    if acts != [] {
      AllReadyStep(s, acts[0], careless);
      AllReadyKeeps(Next(s, acts[0]).s, acts[1..], careless, c);
    }
  }

  /** If all have their results beforehand, no context is ever made: CollectAll itself hands out a ready future. */
  lemma {:induction false} ReadyAtOnce(vals: seq<Try<int>>, ready: seq<bool>, acts: seq<Action>, careless: bool, c: Config)
    requires |ready| == |vals| && (forall i :: 0 <= i < |ready| ==> ready[i]) && Runs(Initial(vals, ready), acts, careless, c)
    ensures c.Ok? && !c.s.alive && c.s.refs == 0 && (c.s.main.Scanning? || c.s.main.Finished?)
  {
    AllReadyKeeps(Initial(vals, ready), acts, careless, c);
  }

  /** The guarantee is needed: if a continuation may die uncalled, the promise is set with an empty slot. */
  lemma {:induction false} CarelessStateBreaksIt()
    ensures exists acts, s :: Runs(Initial([Value(7)], [false]), acts, true, Ok(s)) && s.delivered == [[Nothing]]
  {
    var s0 := Initial([Value(7)], [false]);
    assert s0 == State([Value(7)], [false], Scanning(0), [Absent], [Nothing], 0, false, []);
    hide Initial;
    var acts := [Main, Main, Main, Main, Main, Main, Main, Lose(0)];
    var s1 := Next(s0, Main).s;
    var s2 := Next(s1, Main).s;
    var s3 := Next(s2, Main).s;
    var s4 := Next(s3, Main).s;
    var s5 := Next(s4, Main).s;
    var s6 := Next(s5, Main).s;
    var s7 := Next(s6, Main).s;
    var s8 := Next(s7, Lose(0)).s;
    assert Runs(s8, [], true, Ok(s8));
    assert Runs(s7, acts[7..], true, Ok(s8));
    assert Runs(s6, acts[6..], true, Ok(s8));
    assert Runs(s5, acts[5..], true, Ok(s8));
    assert Runs(s4, acts[4..], true, Ok(s8));
    assert Runs(s3, acts[3..], true, Ok(s8));
    assert Runs(s2, acts[2..], true, Ok(s8));
    assert Runs(s1, acts[1..], true, Ok(s8));
    assert Runs(s0, acts, true, Ok(s8));
  }
}
