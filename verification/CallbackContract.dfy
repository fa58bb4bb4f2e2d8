/** A task of the collect combinators is a coroutine that was started: its callback is called once, with the Try that it comes
    to, which is all that the machines of the combinators take for granted. */
module CallbackContract {
  import opened TryModel
  import opened CoroutineCode
  import opened CoroutineMachine
  import opened CoroutineMeaning
  import opened CoroutineProofs
  import T = CoroutineTheorems
  import All = CollectAllMachine
  import Any = CollectAnyMachine

  /** Coroutine t was started as task p of CollectAll and has not called back yet. */
  predicate RunsFor(s: All.State, p: nat, t: Task) {
    T.Inv(t) && t.results == [] && All.Sized(s) && p < |s.results| && s.pcs[p].Running? && Shape(t) && Destiny(t) == Gives(s.results[p])
  }

  /** It has called back, with the value that the combinator knows. */
  predicate CalledFor(s: All.State, p: nat, t: Task) {
    All.Sized(s) && p < |s.results| && s.pcs[p].Counting? && t.results == [s.results[p]] && s.output[p] == s.results[p]
  }

  lemma {:induction false} GoodSteps(t: Task, c: Config)
    requires T.Good(t, c) && c.Ok?
    ensures Shape(t) && T.Inv(c.t) && Shape(c.t) && Destiny(c.t) == Destiny(t)
  {
    hide T.Inv, Shape, Destiny, Measure;
  }

  lemma {:induction false} NotOver(t: Task, a: Action)
    requires Enabled(t, a)
    ensures !t.ctl.Over?
  {
  }

  /** A step of a task calls back at most, and then with what the task was heading for; a task that has called back is over. */
  lemma {:induction false} CallsOnce(t: Task, a: Action)
    requires T.Inv(t) && Enabled(t, a) && Next(t, a).Ok?
    ensures T.Inv(Next(t, a).t) && Shape(t) && Shape(Next(t, a).t) && Destiny(Next(t, a).t) == Destiny(t)
    ensures t.results == []
    ensures var t1 := Next(t, a).t; t1.results != [] ==> |t1.results| == 1 && Destiny(t) == Gives(t1.results[0])
  {
    NotOver(t, a);
    hide T.Inv, T.Good, Next, Enabled, Destiny, Shape;
    T.StepKeepsInv(t, a);
    GoodSteps(t, Next(t, a));
    T.StuckControl(t, Outside(0));
    T.OverFacts(Next(t, a).t);
  }

  /** Whatever a started task does is nothing to CollectAll, or the one step by which party p stores the result that the task
      has called back with. */
  lemma {:induction false} CallbackIsAStep(s: All.State, p: nat, t: Task, a: Action, accepted: bool)
    requires All.Inv(s) && RunsFor(s, p, t) && Enabled(t, a) && Next(t, a).Ok?
    ensures All.Enabled(s, p) && All.Next(s, p, accepted).Ok?
    ensures RunsFor(s, p, Next(t, a).t) || CalledFor(All.Next(s, p, accepted).s, p, Next(t, a).t)
  {
    hide T.Inv, Next, Enabled, Destiny, Shape;
    CallsOnce(t, a);
    All.StepKeepsInv(s, p, accepted);
    var t1 := Next(t, a).t;
    hide All.Inv;
    if t1.results != [] { assert t1.results == [t1.results[0]]; }
  }

  predicate RunsForAny(s: Any.State, p: nat, t: Task) {
    T.Inv(t) && t.results == [] && Any.Sized(s) && p < |s.results| && s.pcs[p].Running? && Shape(t) && Destiny(t) == Gives(s.results[p])
  }

  /** The same for CollectAny, whose party p counts down when the task calls back. */
  lemma {:induction false} CallbackIsAStepOfAny(s: Any.State, p: nat, t: Task, a: Action)
    requires Any.Inv(s) && RunsForAny(s, p, t) && Enabled(t, a) && Next(t, a).Ok?
    ensures Any.Enabled(s, p) && Any.Next(s, p).Ok?
    ensures RunsForAny(s, p, Next(t, a).t) ||
      (Next(t, a).t.results == [s.results[p]] && Any.Next(s, p).s.count == s.count - 1 && !Any.Next(s, p).s.pcs[p].Running?)
  {
    hide T.Inv, Next, Enabled, Destiny, Shape;
    CallsOnce(t, a);
    Any.StepKeepsInv(s, p);
    var t1 := Next(t, a).t;
    hide Any.Inv;
    if t1.results != [] { assert t1.results == [t1.results[0]]; }
  }

  /** A task that cannot go on has called back, unless an executor refused one of its jobs. */
  lemma {:induction false} StuckHasCalled(t: Task)
    requires T.Inv(t) && (forall a :: !Enabled(t, a))
    ensures t.results != [] <==> t.refusals == 0
  {
    T.StuckControl(t, Outside(0));
    hide T.Inv, Enabled;
  }
}
