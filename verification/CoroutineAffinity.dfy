/** Executor affinity: where the frames of a task run.

    The unit that stays on one worker is the strand, a coroutine together with the children whose value it awaits without
    Via. Only coroutines that were awaited or started have been anywhere. */
module CoroutineAffinity {
  import opened TryModel
  import opened CoroutineCode
  import opened CoroutineMachine
  import opened CoroutineHandles
  import opened CoroutineProofs

  // ---------------------------------------------------------------- where a strand last ran

  /** The thread of the strand's latest segment, unless it yielded since. */
  function Home(trace: seq<Event>, s: nat): Option<Thread>
    decreases |trace|
  {
    if trace == [] then None else
    match trace[|trace| - 1]
    case Resumed(_, s1, _, th) => if s1 == s then Some(th) else Home(trace[..|trace| - 1], s)
    case Yielded(_, s1) => if s1 == s then None else Home(trace[..|trace| - 1], s)
  }

  predicate OnWorkerOf(th: Thread, e: nat) {
    th.Worker? && th.e == e
  }

  /** The event at position k keeps to the strand's executor and home. */
  predicate EventOk(frames: seq<Frame>, trace: seq<Event>, k: nat)
    requires k < |trace|
  {
    trace[k].f < |frames| && frames[trace[k].f].taken && trace[k].strand == frames[trace[k].f].strand &&
    trace[k].strand < |frames| && frames[trace[k].strand].taken &&
    (trace[k].Resumed? ==>
      trace[k].ex == frames[trace[k].strand].executor &&
      (trace[k].ex.Some? ==>
        OnWorkerOf(trace[k].th, trace[k].ex.value) &&
        (Home(trace[..k], trace[k].strand) == None || Home(trace[..k], trace[k].strand) == Some(trace[k].th))))
  }

  predicate TraceOk(frames: seq<Frame>, trace: seq<Event>) {
    forall k :: 0 <= k < |trace| ==> EventOk(frames, trace, k)
  }

  lemma {:induction false} HomePush(trace: seq<Event>, ev: Event, s: nat)
    ensures Home(trace + [ev], s) ==
      (if ev.strand != s then Home(trace, s) else if ev.Resumed? then Some(ev.th) else None)
  {
    assert (trace + [ev])[..|trace|] == trace;
  }

  lemma {:induction false} NoHomeYet(frames: seq<Frame>, trace: seq<Event>, s: nat)
    requires TraceOk(frames, trace) && s < |frames| && !frames[s].taken
    ensures Home(trace, s) == None
    decreases |trace|
  {
    if trace != [] {
      var older := trace[..|trace| - 1];
      forall k | 0 <= k < |older|
        ensures EventOk(frames, older, k)
      {
        assert EventOk(frames, trace, k) && older[..k] == trace[..k];
      }
      assert EventOk(frames, trace, |trace| - 1);
      NoHomeYet(frames, older, s);
    }
  }

  /** Once taken, frames keep their strands and executors. */
  predicate SamePlaces(frames: seq<Frame>, frames1: seq<Frame>) {
    |frames| <= |frames1| &&
    forall f :: 0 <= f < |frames| && frames[f].taken ==>
      frames1[f].taken && frames1[f].strand == frames[f].strand && frames1[f].executor == frames[f].executor
  }

  /** No frame but c is awaited or started. */
  predicate TakesOnly(frames: seq<Frame>, frames1: seq<Frame>, c: int) {
    forall f :: 0 <= f < |frames1| && frames1[f].taken && f != c ==> f < |frames| && frames[f].taken
  }

  lemma {:induction false} TraceKept(frames: seq<Frame>, frames1: seq<Frame>, trace: seq<Event>)
    requires TraceOk(frames, trace) && SamePlaces(frames, frames1)
    ensures TraceOk(frames1, trace)
  {
    forall k | 0 <= k < |trace|
      ensures EventOk(frames1, trace, k)
    {
      assert EventOk(frames, trace, k);
    }
    hide Home;
  }

  lemma {:induction false} TracePush(frames: seq<Frame>, trace: seq<Event>, ev: Event)
    requires TraceOk(frames, trace)
    requires ev.f < |frames| && frames[ev.f].taken && ev.strand == frames[ev.f].strand && ev.strand < |frames| && frames[ev.strand].taken
    requires ev.Resumed? ==>
      ev.ex == frames[ev.strand].executor &&
      (ev.ex.Some? ==>
        OnWorkerOf(ev.th, ev.ex.value) && (Home(trace, ev.strand) == None || Home(trace, ev.strand) == Some(ev.th)))
    ensures TraceOk(frames, trace + [ev])
  {
    var trace1 := trace + [ev];
    forall k | 0 <= k < |trace1|
      ensures EventOk(frames, trace1, k)
    {
      assert k < |trace| ==> EventOk(frames, trace, k);
      assert trace1[..k] == trace[..k];
      assert k == |trace| ==> trace[..k] == trace;
    }
    hide Home;
  }

  // ---------------------------------------------------------------- the strands of the stack

  /** A strand is named after the coroutine that started it, and shares its executor. */
  predicate StrandOk(frames: seq<Frame>, f: nat)
    requires f < |frames|
  {
    frames[f].taken ==>
      frames[f].strand <= f && frames[frames[f].strand].taken && frames[f].executor == frames[frames[f].strand].executor
  }

  predicate StrandsOk(frames: seq<Frame>) {
    forall f :: 0 <= f < |frames| ==> StrandOk(frames, f)
  }

  /** Strands never decrease towards the top, and a child awaited with Via starts a new one. */
  predicate Nested(frames: seq<Frame>, stack: seq<nat>) {
    && (forall k :: 0 <= k < |stack| ==> stack[k] < |frames| && frames[stack[k]].taken)
    && (forall j, k :: 0 <= j < k < |stack| ==>
          frames[stack[j]].strand <= frames[stack[k]].strand &&
          (frames[stack[j]].awaiter.ForChildVia? ==> frames[stack[j]].strand < frames[stack[k]].strand))
    && (forall k :: 0 <= k < |stack| - 1 ==>
          frames[stack[k]].awaiter.ForChild? ==> frames[stack[k]].strand == frames[stack[k + 1]].strand)
  }

  /** The via coroutine v remembers where frame p's strand ran. */
  predicate Remembers(frames: seq<Frame>, vias: seq<ViaFrame>, trace: seq<Event>, p: nat, v: nat)
    requires p < |frames| && v < |vias|
  {
    vias[v].executor.Some? ==>
      vias[v].context.Some? &&
      Home(trace, frames[p].strand) == Some(Worker(vias[v].executor.value, vias[v].context.value))
  }

  predicate BelowRemembered(frames: seq<Frame>, vias: seq<ViaFrame>, trace: seq<Event>, stack: seq<nat>) {
    forall k :: 0 <= k < |stack| - 1 && stack[k] < |frames| && frames[stack[k]].awaiter.ForChildVia? ==>
      frames[stack[k]].awaiter.via < |vias| && Remembers(frames, vias, trace, stack[k], frames[stack[k]].awaiter.via)
  }

  predicate AtHome(trace: seq<Event>, ex: ExecutorPtr, s: nat, th: Thread) {
    ex.Some? ==> OnWorkerOf(th, ex.value) && Home(trace, s) == Some(th)
  }

  predicate ControlAtHome(frames: seq<Frame>, vias: seq<ViaFrame>, trace: seq<Event>, p: nat, ctl: Control)
    requires p < |frames|
  {
    match ctl
    case Exec(_, th) => AtHome(trace, frames[p].executor, frames[p].strand, th)
    case Resuming(_, th) => AtHome(trace, frames[p].executor, frames[p].strand, th)
    case ExecVia(v, _) => v < |vias| && Remembers(frames, vias, trace, p, v)
    case Waiting(v) => v < |vias| && Remembers(frames, vias, trace, p, v)
    case Starting(_) => Home(trace, frames[p].strand) == None
    case Queued(_, e, pin) => Home(trace, frames[p].strand) == (if pin.None? then None else Some(Worker(e, pin.value)))
    case _ => true
  }

  predicate Homely(t: Task) {
    && StrandsOk(t.frames) && Nested(t.frames, t.stack) && TraceOk(t.frames, t.trace)
    && BelowRemembered(t.frames, t.vias, t.trace, t.stack)
    && (t.stack != [] ==> ControlAtHome(t.frames, t.vias, t.trace, Top(t), t.ctl))
  }

  // ---------------------------------------------------------------- what happens at the top

  /** The trace grows, if at all, by one event of strand s. */
  predicate Grows(trace: seq<Event>, trace1: seq<Event>, s: nat) {
    trace1 == trace || (|trace1| == |trace| + 1 && trace1[..|trace|] == trace && trace1[|trace|].strand == s)
  }

  lemma {:induction false} HomeElsewhere(trace: seq<Event>, trace1: seq<Event>, s: nat, s1: nat)
    requires Grows(trace, trace1, s) && s1 != s
    ensures Home(trace1, s1) == Home(trace, s1)
  {
    if trace1 != trace {
      assert trace1 == trace + [trace1[|trace|]];
      HomePush(trace, trace1[|trace|], s1);
    }
  }

  lemma {:induction false} NestedKept(frames: seq<Frame>, frames1: seq<Frame>, stack: seq<nat>)
    requires stack != [] && Nested(frames, stack) && Increasing(stack, |frames|) && SamePlaces(frames, frames1)
    requires forall f :: 0 <= f < |frames| && f < stack[|stack| - 1] ==> frames1[f] == frames[f]
    ensures Nested(frames1, stack)
  {
  }

  /** The trace grows by nothing that the frames below the top remember. */
  predicate Elsewhere(frames: seq<Frame>, stack: seq<nat>, s: nat) {
    forall k :: 0 <= k < |stack| - 1 && stack[k] < |frames| && frames[stack[k]].awaiter.ForChildVia? ==> frames[stack[k]].strand != s
  }

  lemma {:induction false} BelowKept(frames: seq<Frame>, vias: seq<ViaFrame>, trace: seq<Event>,
                                     frames1: seq<Frame>, vias1: seq<ViaFrame>, trace1: seq<Event>, stack: seq<nat>, s: nat)
    requires stack != [] && Spine(frames, vias, stack) && OnlyTop(frames, vias, frames1, vias1, stack[|stack| - 1])
    requires Elsewhere(frames, stack, s) && BelowRemembered(frames, vias, trace, stack)
    requires Grows(trace, trace1, s)
    ensures BelowRemembered(frames1, vias1, trace1, stack)
  {
    var p := stack[|stack| - 1];
    forall k | 0 <= k < |stack| - 1 && stack[k] < |frames1| && frames1[stack[k]].awaiter.ForChildVia?
      ensures frames1[stack[k]].awaiter.via < |vias1| && Remembers(frames1, vias1, trace1, stack[k], frames1[stack[k]].awaiter.via)
    {
      assert Link(frames, vias, stack[k], stack[k + 1]) && stack[k] < p && frames1[stack[k]] == frames[stack[k]];
      var v := frames[stack[k]].awaiter.via;
      assert vias1[v] == vias[v];
      HomeElsewhere(trace, trace1, s, frames[stack[k]].strand);
    }
    hide Home;
  }

  predicate Quiet(t: Task, stack: seq<nat>) {
    && stack != [] && Spine(t.frames, t.vias, stack)
    && StrandsOk(t.frames) && Nested(t.frames, stack) && TraceOk(t.frames, t.trace)
    && BelowRemembered(t.frames, t.vias, t.trace, stack)
  }

  /** A step at the top frame p that keeps the stack. */
  lemma {:induction false} HomelyAtTop(t: Task, t1: Task, p: nat)
    requires Quiet(t, t1.stack) && p == Top(t1)
    requires OnlyTop(t.frames, t.vias, t1.frames, t1.vias, p) && SamePlaces(t.frames, t1.frames)
    requires StrandsOk(t1.frames) && Grows(t.trace, t1.trace, t.frames[p].strand) && TraceOk(t1.frames, t1.trace)
    requires ControlAtHome(t1.frames, t1.vias, t1.trace, p, t1.ctl)
    ensures Homely(t1)
  {
    NestedKept(t.frames, t1.frames, t1.stack);
    assert Elsewhere(t.frames, t1.stack, t.frames[p].strand);
    BelowKept(t.frames, t.vias, t.trace, t1.frames, t1.vias, t1.trace, t1.stack, t.frames[p].strand);
    hide Spine, Nested, BelowRemembered, TraceOk, OnlyTop, ControlAtHome, TopControl, StrandsOk, Elsewhere;
  }

  lemma {:induction false} StrandsKept(frames: seq<Frame>, frames1: seq<Frame>)
    requires StrandsOk(frames) && SamePlaces(frames, frames1) && TakesOnly(frames, frames1, -1)
    ensures StrandsOk(frames1)
  {
    forall f | 0 <= f < |frames1|
      ensures StrandOk(frames1, f)
    {
      assert f < |frames| ==> StrandOk(frames, f);
    }
  }

  lemma {:induction false} StrandsTake(frames: seq<Frame>, frames1: seq<Frame>, c: nat)
    requires StrandsOk(frames) && SamePlaces(frames, frames1) && TakesOnly(frames, frames1, c) && c < |frames1| && StrandOk(frames1, c)
    ensures StrandsOk(frames1)
  {
    forall f | 0 <= f < |frames1|
      ensures StrandOk(frames1, f)
    {
      assert f < |frames| ==> StrandOk(frames, f);
    }
  }

  /** A step at the top that starts no segment: LocalStep, a foreign await, taking a result. */
  lemma {:induction false} QuietKeepsHomes(t: Task, t1: Task, p: nat)
    requires Shape(t) && Homely(t) && t.stack != [] && t1.stack == t.stack && p == Top(t)
    requires OnlyTop(t.frames, t.vias, t1.frames, t1.vias, p) && SamePlaces(t.frames, t1.frames) && TakesOnly(t.frames, t1.frames, -1)
    requires t1.trace == t.trace && ControlAtHome(t1.frames, t1.vias, t1.trace, p, t1.ctl)
    ensures Homely(t1)
  {
    assert Quiet(t, t.stack);
    StrandsKept(t.frames, t1.frames);
    TraceKept(t.frames, t1.frames, t.trace);
    hide Quiet, TraceOk, OnlyTop, ControlAtHome, StrandsOk;
    HomelyAtTop(t, t1, p);
  }

  /** A segment of the top frame p begins on `th`. */
  lemma {:induction false} SegmentKeepsHomes(t: Task, t1: Task, p: nat, th: Thread)
    requires Quiet(t, t1.stack) && p == Top(t1) && TakesOnly(t.frames, t1.frames, -1)
    requires OnlyTop(t.frames, t.vias, t1.frames, t1.vias, p) && SamePlaces(t.frames, t1.frames)
    requires t1.trace == t.trace + [Resumed(p, t.frames[p].strand, t.frames[p].executor, th)]
    requires t1.ctl == Exec(p, th) || t1.ctl == Resuming(p, th)
    requires t.frames[p].executor.Some? ==>
      OnWorkerOf(th, t.frames[p].executor.value) &&
      (Home(t.trace, t.frames[p].strand) == None || Home(t.trace, t.frames[p].strand) == Some(th))
    ensures Homely(t1)
  {
    var s := t.frames[p].strand;
    var ev := Resumed(p, s, t.frames[p].executor, th);
    assert StrandOk(t.frames, p) && t.frames[p].taken && TraceOk(t.frames, t.trace) && StrandsOk(t.frames);
    hide Quiet, Home, OnlyTop, OnWorkerOf;
    StrandsKept(t.frames, t1.frames);
    TraceKept(t.frames, t1.frames, t.trace);
    TracePush(t1.frames, t.trace, ev);
    HomePush(t.trace, ev, s);
    assert t1.trace[..|t.trace|] == t.trace;
    hide TraceOk, StrandsOk;
    HomelyAtTop(t, t1, p);
  }

  /** The top frame leaves the stack. */
  lemma {:induction false} PopKeepsHomes(frames: seq<Frame>, vias: seq<ViaFrame>, trace: seq<Event>, stack: seq<nat>)
    requires stack != [] && Nested(frames, stack) && BelowRemembered(frames, vias, trace, stack)
    ensures Nested(frames, Pop(stack)) && BelowRemembered(frames, vias, trace, Pop(stack))
  {
    hide Home;
  }

  lemma {:induction false} IncreasingMore(stack: seq<nat>, n: nat, m: nat)
    requires Increasing(stack, n) && n <= m
    ensures Increasing(stack, m)
  {
  }

  /** A child c is put on top of p. */
  lemma {:induction false} HomelyPush(frames: seq<Frame>, vias: seq<ViaFrame>, trace: seq<Event>, stack: seq<nat>, p: nat, c: nat)
    requires stack != [] && p == stack[|stack| - 1] && Increasing(stack, |frames|) && p < c < |frames| && frames[c].taken
    requires Nested(frames, stack) && BelowRemembered(frames, vias, trace, stack)
    requires frames[p].awaiter.ForChildVia? ==>
      frames[p].awaiter.via < |vias| && Remembers(frames, vias, trace, p, frames[p].awaiter.via) && frames[p].strand < frames[c].strand
    requires frames[p].awaiter.ForChild? ==> frames[p].strand == frames[c].strand
    requires frames[p].strand <= frames[c].strand
    ensures Nested(frames, stack + [c]) && BelowRemembered(frames, vias, trace, stack + [c])
  {
    hide Home;
  }

  /** The strands below belong to earlier frames. */
  lemma {:induction false} NewStrandElsewhere(frames: seq<Frame>, stack: seq<nat>, c: nat)
    requires StrandsOk(frames) && Nested(frames, stack) && Increasing(stack, |frames|) && stack != [] && stack[|stack| - 1] < c
    ensures Elsewhere(frames, stack, c)
  {
    forall k | 0 <= k < |stack| - 1
      ensures frames[stack[k]].strand != c
    {
      assert StrandOk(frames, stack[k]) && stack[k] < stack[|stack| - 1];
    }
  }

  /** The top frame f awaits a child c, which is put on top; the trace grows, if at all, by an event of strand s. */
  lemma {:induction false} ChildKeepsHomes(t: Task, t1: Task, f: nat, c: nat, s: nat)
    requires Quiet(t, t.stack) && f == Top(t) && f < c < |t.frames| == |t1.frames| && t1.stack == t.stack + [c]
    requires OnlyTop(t.frames, t.vias, t1.frames, t1.vias, f) && SamePlaces(t.frames, t1.frames) && TakesOnly(t.frames, t1.frames, c)
    requires t1.frames[c].taken && StrandOk(t1.frames, c)
    requires Grows(t.trace, t1.trace, s) && TraceOk(t1.frames, t1.trace) && (s == t.frames[f].strand || s == c)
    requires t1.frames[f].awaiter.ForChildVia? ==>
      t1.frames[f].awaiter.via < |t1.vias| && Remembers(t1.frames, t1.vias, t1.trace, f, t1.frames[f].awaiter.via) &&
      t1.frames[f].strand < t1.frames[c].strand
    requires t1.frames[f].awaiter.ForChild? ==> t1.frames[f].strand == t1.frames[c].strand
    requires t1.frames[f].strand <= t1.frames[c].strand
    requires ControlAtHome(t1.frames, t1.vias, t1.trace, c, t1.ctl)
    ensures Homely(t1)
  {
    assert Increasing(t.stack, |t.frames|);
    if s == c { NewStrandElsewhere(t.frames, t.stack, c); } else { assert Elsewhere(t.frames, t.stack, s); }
    StrandsTake(t.frames, t1.frames, c);
    NestedKept(t.frames, t1.frames, t.stack);
    BelowKept(t.frames, t.vias, t.trace, t1.frames, t1.vias, t1.trace, t.stack, s);
    HomelyPush(t1.frames, t1.vias, t1.trace, t.stack, f, c);
    hide Quiet, Spine, Increasing, Nested, BelowRemembered, TraceOk, StrandsOk, StrandOk, ControlAtHome, Home, OnlyTop;
  }

  // ---------------------------------------------------------------- every step keeps the homes

  /** A step of the body of f that neither suspends it nor ends it. */
  lemma {:induction false} BodyMoveKeepsHomes(t: Task, t1: Task, f: nat, th: Thread)
    requires Shape(t) && Homely(t) && t.ctl == Exec(f, th) && t1.ctl == t.ctl && t1.stack == t.stack && t1.trace == t.trace
    requires OnlyTop(t.frames, t.vias, t1.frames, t1.vias, f) && SamePlaces(t.frames, t1.frames) && TakesOnly(t.frames, t1.frames, -1)
    requires t1.frames[f].strand == t.frames[f].strand
    ensures Homely(t1)
  {
    assert f == Top(t) && f < |t.frames| && ControlAtHome(t.frames, t.vias, t.trace, f, t.ctl);
    assert t1.frames[f].executor == t.frames[f].executor;
    hide Shape, Homely, Home, OnlyTop;
    QuietKeepsHomes(t, t1, f);
  }

  lemma {:induction false} StartKeepsHomes(t: Task, th: Thread, accepted: bool)
    requires Shape(t) && Homely(t) && t.ctl == Starting(th) && |t.frames| > 0 && StartStep(t, accepted).Ok?
    ensures Homely(StartStep(t, accepted).t)
  {
  }

  lemma {:induction false} AwaitForeignKeepsHomes(t: Task, f: nat, th: Thread, r: Try<int>, path: Path)
    requires Shape(t) && Homely(t) && t.ctl == Exec(f, th) && t.frames[f].body.code.Await? && Wrap(t, f, th).Some?
    ensures AwaitForeign(t, f, th, r, path).Ok? && Homely(AwaitForeign(t, f, th, r, path).t)
  {
    assert f == Top(t) && f < |t.frames| && ControlAtHome(t.frames, t.vias, t.trace, f, t.ctl);
    hide Shape, Homely, Home;
    QuietKeepsHomes(t, AwaitForeign(t, f, th, r, path).t, f);
  }

  lemma {:induction false} AwaitResumeKeepsHomes(t: Task, f: nat, th: Thread)
    requires Shape(t) && Homely(t) && t.ctl == Resuming(f, th) && f < |t.frames| && AwaitResume(t, f, th).Ok?
    ensures Homely(AwaitResume(t, f, th).t)
  {
    AwaitResumeDelivers(t, f, th);
    AwaitResumeSpares(t, f, th);
    assert f == Top(t) && ControlAtHome(t.frames, t.vias, t.trace, f, t.ctl);
    hide Shape, Homely, Home, AwaitResume, OnlyTop;
    QuietKeepsHomes(t, AwaitResume(t, f, th).t, f);
  }

  lemma {:induction false} FireKeepsHomes(t: Task, v: nat, th: Thread)
    requires Shape(t) && Homely(t) && t.ctl == Waiting(v)
    ensures Homely(t.(ctl := ExecVia(v, th)))
  {
  }

  lemma {:induction false} AwaitYieldKeepsHomes(t: Task, f: nat, th: Thread, accepted: bool)
    requires Shape(t) && Homely(t) && t.ctl == Exec(f, th) && t.frames[f].body.code.Await? && t.frames[f].executor.Some?
    ensures Homely(AwaitYield(t, f, accepted).t)
  {
    var t1, s := AwaitYield(t, f, accepted).t, t.frames[f].strand;
    var ev := Yielded(f, s);
    assert f == Top(t) && f < |t.frames| && StrandOk(t.frames, f) && Quiet(t, t.stack);
    assert TraceOk(t.frames, t.trace) && StrandsOk(t.frames) && t.frames[f].taken;
    hide Shape, Homely, Home, Quiet;
    StrandsKept(t.frames, t1.frames);
    TraceKept(t.frames, t1.frames, t.trace);
    TracePush(t1.frames, t.trace, ev);
    HomePush(t.trace, ev, s);
    assert t1.trace[..|t.trace|] == t.trace;
    hide TraceOk, StrandsOk;
    HomelyAtTop(t, t1, f);
  }

  lemma {:induction false} PickKeepsHomes(t: Task, f: nat, e: nat, pin: Option<nat>, i: nat)
    requires Shape(t) && Homely(t) && t.ctl == Queued(f, e, pin) && Resume(t, f, Worker(e, i)).Ok?
    requires pin.Some? ==> pin.value == i
    ensures Homely(Resume(t, f, Worker(e, i)).t)
  {
    assert f == Top(t) && f < |t.frames| && Quiet(t, t.stack);
    hide Shape, Quiet, Home;
    SegmentKeepsHomes(t, Resume(t, f, Worker(e, i)).t, f, Worker(e, i));
  }

  lemma {:induction false} ViaStepKeepsHomes(t: Task, v: nat, th: Thread, accepted: bool)
    requires Shape(t) && Homely(t) && t.ctl == ExecVia(v, th) && v < |t.vias| && ViaStep(t, v, th, accepted).Ok?
    ensures Homely(ViaStep(t, v, th, accepted).t)
  {
    var t1, p := ViaStep(t, v, th, accepted).t, Top(t);
    assert p < |t.frames| && Quiet(t, t.stack);
    assert OnVia(t.frames, t.vias, p, v) && Remembers(t.frames, t.vias, t.trace, p, v);
    hide Shape, Homely, Quiet, Home, Served;
    if t1.ctl.Queued? || t1.ctl.Dropped? {
      QuietKeepsHomes(t, t1, p);
    } else {
      SegmentKeepsHomes(t, t1, p, th);
    }
  }

  lemma {:induction false} RunningAtHome(t: Task, f: nat, th: Thread)
    requires Shape(t) && Homely(t) && t.ctl == Exec(f, th)
    ensures t.stack != [] && f == Top(t) && f < |t.frames| && t.frames[f].taken && Quiet(t, t.stack)
    ensures StrandOk(t.frames, f) && TraceOk(t.frames, t.trace) && AtHome(t.trace, t.frames[f].executor, t.frames[f].strand, th)
  {
    hide Home;
  }

  lemma {:induction false} AwaitChildKeepsHomes(t: Task, f: nat, th: Thread, i: nat, c: nat)
    requires Shape(t) && Homely(t) && Awaits(t, f, th, i, c)
    ensures Homely(AwaitChild(t, f, th, i, c))
  {
    var t1, s := AwaitChild(t, f, th, i, c), t.frames[f].strand;
    var ev := Resumed(c, s, t.frames[f].executor, th);
    hide Shape, Homely, Quiet, Home, OnWorkerOf;
    RunningAtHome(t, f, th);
    TraceKept(t.frames, t1.frames, t.trace);
    HomePush(t.trace, ev, s);
    TracePush(t1.frames, t.trace, ev);
    assert t1.trace[..|t.trace|] == t.trace;
    hide TraceOk;
    ChildKeepsHomes(t, t1, f, c, s);
  }

  /** A child that is entered with no executor_ is a strand of its own. */
  lemma {:induction false} AwaitTryKeepsHomes(t: Task, f: nat, th: Thread, i: nat, c: nat)
    requires Shape(t) && Homely(t) && Awaits(t, f, th, i, c) && Wrap(t, f, th).Some? && t.frames[c].executor.None?
    ensures Homely(AwaitTry(t, f, th, i, c, Wrap(t, f, th).value))
  {
    var t1, s := AwaitTry(t, f, th, i, c, Wrap(t, f, th).value), t.frames[f].strand;
    var ev := Resumed(c, c, None, th);
    hide Shape, Homely, Quiet, Home, OnWorkerOf;
    RunningAtHome(t, f, th);
    TraceKept(t.frames, t1.frames, t.trace);
    HomePush(t.trace, ev, s);
    TracePush(t1.frames, t.trace, ev);
    assert t1.trace[..|t.trace|] == t.trace;
    hide TraceOk;
    ChildKeepsHomes(t, t1, f, c, c);
  }

  lemma {:induction false} ReschedulePlaces(t: Task, f: nat, th: Thread, i: nat, c: nat, asTry: bool, accepted: bool)
    requires Awaits(t, f, th, i, c) && f < c && c < |t.frames| && Wrap(t, f, th).Some? && t.frames[c].executor.Some? && !t.frames[c].taken
    requires t.frames[c].strand == c
    ensures var t1 := AwaitReschedule(t, f, i, c, Wrap(t, f, th).value, asTry, accepted).t;
      && |t1.frames| == |t.frames| && t1.stack == t.stack + [c] && t1.trace == t.trace && t1.vias == t.vias + [Wrap(t, f, th).value]
      && OnlyTop(t.frames, t.vias, t1.frames, t1.vias, f) && SamePlaces(t.frames, t1.frames) && TakesOnly(t.frames, t1.frames, c)
      && t1.frames[c].taken && t1.frames[c].strand == c && t1.frames[f].strand == t.frames[f].strand
      && t1.frames[f].awaiter == ForChildVia(c, |t.vias|, asTry)
      && (t1.ctl.Queued? ==> t1.ctl.pin == None) && (t1.ctl.Queued? || t1.ctl.Dropped?)
  {
  }

  lemma {:induction false} AwaitRescheduleKeepsHomes(t: Task, f: nat, th: Thread, i: nat, c: nat, asTry: bool, accepted: bool)
    requires Shape(t) && Homely(t) && Awaits(t, f, th, i, c) && Wrap(t, f, th).Some? && t.frames[c].executor.Some?
    ensures Homely(AwaitReschedule(t, f, i, c, Wrap(t, f, th).value, asTry, accepted).t)
  {
    var t1 := AwaitReschedule(t, f, i, c, Wrap(t, f, th).value, asTry, accepted).t;
    hide Shape, Homely, Quiet, Home, AwaitReschedule, OnlyTop;
    RunningAtHome(t, f, th);
    ReschedulePlaces(t, f, th, i, c, asTry, accepted);
    NoHomeYet(t.frames, t.trace, c);
    TraceKept(t.frames, t1.frames, t.trace);
    hide TraceOk, SamePlaces, TakesOnly;
    ChildKeepsHomes(t, t1, f, c, c);
  }

  /** With the finished f gone from the stack, the frame below takes over the strand or remembers its own. */
  lemma {:induction false} FinalUncoversHome(t: Task, f: nat, th: Thread)
    requires Shape(t) && Homely(t) && t.ctl == Exec(f, th)
    ensures t.stack != [] && f < |t.frames|
    ensures var t0 := Uncovered(t, f);
      && StrandsOk(t0.frames) && TraceOk(t0.frames, t0.trace) && Nested(t0.frames, t0.stack)
      && BelowRemembered(t0.frames, t0.vias, t0.trace, t0.stack)
      && (t0.stack != [] ==>
            var p := Top(t0);
            Quiet(t0, t0.stack) && p < f && Link(t.frames, t.vias, p, f) && t0.frames[p] == t.frames[p] &&
            (t.frames[p].awaiter.ForChildVia? ==> Remembers(t0.frames, t0.vias, t0.trace, p, t.frames[p].awaiter.via)) &&
            (t.frames[p].awaiter.ForChild? ==> AtHome(t0.trace, t0.frames[p].executor, t0.frames[p].strand, th)))
  {
    assert f == Top(t) && f < |t.frames|;
    var t0 := Uncovered(t, f);
    SpinePop(t.frames, t.vias, t.stack);
    SpineBelow(t.frames, t.vias, t0.frames, t0.stack, f);
    StrandsKept(t.frames, t0.frames);
    TraceKept(t.frames, t0.frames, t.trace);
    NestedKept(t.frames, t0.frames, t.stack);
    assert Elsewhere(t.frames, t.stack, t.frames[f].strand);
    BelowKept(t.frames, t.vias, t.trace, t0.frames, t.vias, t.trace, t.stack, t.frames[f].strand);
    PopKeepsHomes(t0.frames, t.vias, t.trace, t.stack);
    assert t0.stack != [] ==> Top(t0) == t.stack[|t.stack| - 2];
    hide Home, TraceOk, StrandsOk, Spine;
  }

  lemma {:induction false} FinalSuspendKeepsHomes(t: Task, f: nat, th: Thread)
    requires Shape(t) && Homely(t) && t.ctl == Exec(f, th) && f < |t.frames| && FinalSuspend(t, f, th).Ok?
    ensures Homely(FinalSuspend(t, f, th).t)
  {
    var t1 := FinalSuspend(t, f, th).t;
    FinalUncoversHome(t, f, th);
    var t0 := Uncovered(t, f);
    hide Shape, Homely, Home, Nested, BelowRemembered, TraceOk, StrandsOk, Quiet;
    if t0.stack != [] {
      var p := Top(t0);
      if t.frames[f].continuation.LazyH? {
        SegmentKeepsHomes(t0, t1, p, th);
      } else {
        assert ControlAtHome(t1.frames, t1.vias, t1.trace, p, t1.ctl);
        QuietIsHomely(t0, t1, p);
      }
    } else {
      QuietIsHomely(t0, t1, 0);
    }
  }

  lemma {:induction false} QuietIsHomely(t0: Task, t1: Task, p: nat)
    requires StrandsOk(t0.frames) && TraceOk(t0.frames, t0.trace) && Nested(t0.frames, t0.stack)
    requires BelowRemembered(t0.frames, t0.vias, t0.trace, t0.stack)
    requires t1.frames == t0.frames && t1.vias == t0.vias && t1.trace == t0.trace && t1.stack == t0.stack
    requires t0.stack != [] ==> p == Top(t0) && p < |t0.frames| && ControlAtHome(t1.frames, t1.vias, t1.trace, p, t1.ctl)
    ensures Homely(t1)
  {
  }
}
