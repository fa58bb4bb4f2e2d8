/** Several yielding batches on an executor with one worker and a FIFO queue, all enqueued before the worker starts. */
module RoundRobin {
  import opened TryModel
  import TaskLog
  import CollectObjects
  import Windowed

  /** A `CollectAllWindowed(window, true, tasks)` of n tasks that complete synchronously: if it takes the looping path it
      gives way after every group, also the last; otherwise it runs its one group and returns. */
  datatype Batch = Batch(n: nat, window: nat)
  {
    predicate Looping() {
      window != 0 && n > window
    }

    function Groups(): nat {
      if Looping() then Windowed.Groups(n, window) else 1
    }

    /** How often the batch is taken from the queue; on the looping path it only returns the last time. */
    function Turns(): nat {
      if Looping() then Groups() + 1 else 1
    }

    /** The tasks it launches each time it runs, until it gives way or returns. */
    function Segments(): (s: seq<seq<nat>>)
      ensures |s| == Turns()
    {
      if Looping() then Windowed.Slices(n, window, 0) else [TaskLog.UpTo(0, n)]
    }

    /** The round in which the batch launches its task i. */
    function Round(i: nat): nat {
      if Looping() then RoundOf(i, window) else 0
    }
  }

  /** i divided by the window. */
  function RoundOf(i: nat, window: nat): nat
    requires window > 0
  {
    if i < window then 0 else 1 + RoundOf(i - window, window)
  }

  /** So it is for the loop itself: its log falls into these segments at its Yields. */
  method RunAlone(batch: Batch, tasks: seq<Try<int>>) returns (log: seq<TaskLog.Event>)
    requires |tasks| == batch.n <= CollectObjects.VECTOR_MAX && batch.window < CollectObjects.WORD
    ensures TaskLog.Segments(log) == batch.Segments()
  {
    var output;
    output, log := Windowed.CollectAllWindowed(batch.window, true, tasks, false, _ => true);
  }

  /** Batch b is about to run its group r, or to return if it has no more. */
  datatype Job = Job(b: nat, r: nat)

  /** Is the batch in the queue in round r, and does it run a group then? */
  predicate Takes(batch: Batch, r: nat, running: bool) {
    r < if running then batch.Groups() else batch.Turns()
  }

  /** The jobs of round r among the batches below b: those in the queue, or only those that run a group. */
  function Below(batches: seq<Batch>, r: nat, b: nat, running: bool): seq<Job>
    requires b <= |batches|
  {
    if b == 0 then [] else
    Below(batches, r, b - 1, running) + if Takes(batches[b - 1], r, running) then [Job(b - 1, r)] else []
  }

  /** And from b on. */
  function From(batches: seq<Batch>, r: nat, b: nat): seq<Job>
    requires b <= |batches|
    decreases |batches| - b
  {
    if b == |batches| then [] else (if Takes(batches[b], r, false) then [Job(b, r)] else []) + From(batches, r, b + 1)
  }

  /** The groups run in the first r rounds. */
  function Rounds(batches: seq<Batch>, r: nat): seq<Job> {
    if r == 0 then [] else Rounds(batches, r - 1) + Below(batches, r - 1, |batches|, true)
  }

  function MaxTurns(batches: seq<Batch>): nat {
    if batches == [] then 0 else
    var m := MaxTurns(batches[..|batches| - 1]);
    if batches[|batches| - 1].Turns() > m then batches[|batches| - 1].Turns() else m
  }

  // ---------------------------------------------------------------- the order of the rounds

  predicate Before(j: Job, k: Job) {
    j.r < k.r || (j.r == k.r && j.b < k.b)
  }

  predicate Ordered(jobs: seq<Job>) {
    forall i, k :: 0 <= i < k < |jobs| ==> Before(jobs[i], jobs[k])
  }

  predicate InRound(batches: seq<Batch>, r: nat, b: nat, j: Job) {
    j.r == r && j.b < b <= |batches| && Takes(batches[j.b], r, true)
  }

  lemma {:induction false} BelowOrdered(batches: seq<Batch>, r: nat, b: nat)
    requires b <= |batches|
    ensures Ordered(Below(batches, r, b, true))
    ensures forall j :: j in Below(batches, r, b, true) <==> InRound(batches, r, b, j)
  {
    if b > 0 {
      BelowOrdered(batches, r, b - 1);
      var older := Below(batches, r, b - 1, true);
      assert forall i :: 0 <= i < |older| ==> older[i] in older && InRound(batches, r, b - 1, older[i]);
    }
  }

  lemma {:induction false} RoundsOrdered(batches: seq<Batch>, r: nat)
    ensures Ordered(Rounds(batches, r))
    ensures forall j :: j in Rounds(batches, r) <==> j.r < r && j.b < |batches| && Takes(batches[j.b], j.r, true)
  {
    if r > 0 {
      RoundsOrdered(batches, r - 1);
      BelowOrdered(batches, r - 1, |batches|);
      var older, last := Rounds(batches, r - 1), Below(batches, r - 1, |batches|, true);
      forall i, k | 0 <= i < k < |older + last|
        ensures Before((older + last)[i], (older + last)[k])
      {
        if i < |older| <= k {
          assert older[i] in older && last[k - |older|] in last;
        }
      }
    }
  }

  lemma {:induction false} MaxTurnsIsMax(batches: seq<Batch>, b: nat)
    requires b < |batches|
    ensures batches[b].Turns() <= MaxTurns(batches)
  {
    if b < |batches| - 1 {
      MaxTurnsIsMax(batches[..|batches| - 1], b);
    }
  }

  // ---------------------------------------------------------------- the queue

  /** The front of the queue: the next batch of this round that is still there. */
  lemma {:induction false} Front(batches: seq<Batch>, r: nat, b: nat) returns (c: nat)
    requires b <= |batches| && From(batches, r, b) != []
    ensures b <= c < |batches| && Takes(batches[c], r, false) && From(batches, r, b) == [Job(c, r)] + From(batches, r, c + 1)
    ensures Below(batches, r, c, true) == Below(batches, r, b, true)
    ensures Below(batches, r + 1, c, false) == Below(batches, r + 1, b, false)
    decreases |batches| - b
  {
    if Takes(batches[b], r, false) {
      c := b;
    } else {
      c := Front(batches, r, b + 1);
    }
  }

  /** A round is over when nobody is left in it. */
  lemma {:induction false} RoundOver(batches: seq<Batch>, r: nat, b: nat)
    requires b <= |batches| && From(batches, r, b) == []
    ensures Below(batches, r, |batches|, true) == Below(batches, r, b, true)
    ensures Below(batches, r + 1, |batches|, false) == Below(batches, r + 1, b, false)
    ensures forall c :: b <= c < |batches| ==> !Takes(batches[c], r, false)
    decreases |batches| - b
  {
    if b < |batches| {
      RoundOver(batches, r, b + 1);
    }
  }

  lemma {:induction false} FromIsBelow(batches: seq<Batch>, r: nat, b: nat)
    requires b <= |batches|
    ensures Below(batches, r, b, false) + From(batches, r, b) == Below(batches, r, |batches|, false)
    decreases |batches| - b
  {
    if b < |batches| {
      FromIsBelow(batches, r, b + 1);
      var here := if Takes(batches[b], r, false) then [Job(b, r)] else [];
      assert Below(batches, r, b, false) + (here + From(batches, r, b + 1)) ==
             (Below(batches, r, b, false) + here) + From(batches, r, b + 1);
    }
  }

  predicate Reached(batches: seq<Batch>, queue: seq<Job>, trace: seq<Job>, r: nat, b: nat) {
    && b <= |batches| && r <= MaxTurns(batches)
    && queue == From(batches, r, b) + Below(batches, r + 1, b, false)
    && trace == Rounds(batches, r) + Below(batches, r, b, true)
  }

  lemma {:induction false} NextRound(batches: seq<Batch>, queue: seq<Job>, trace: seq<Job>, r: nat, b: nat)
    requires Reached(batches, queue, trace, r, b) && queue != [] && From(batches, r, b) == []
    ensures queue == From(batches, r + 1, 0) + Below(batches, r + 2, 0, false) && From(batches, r + 1, 0) != []
    ensures trace == Rounds(batches, r + 1) + Below(batches, r + 1, 0, true)
  {
    RoundOver(batches, r, b);
    FromIsBelow(batches, r + 1, 0);
    assert Rounds(batches, r + 1) == Rounds(batches, r) + Below(batches, r, |batches|, true);
    assert Below(batches, r + 2, 0, false) == [] && Below(batches, r + 1, 0, true) == [] && Below(batches, r + 1, 0, false) == [];
    hide Rounds, Below, From;
    assert [] + From(batches, r + 1, 0) == From(batches, r + 1, 0);
  }

  /** Whose turn it is. */
  lemma {:induction false} Turn(batches: seq<Batch>, queue: seq<Job>, trace: seq<Job>, r: nat, b: nat) returns (r1: nat, c: nat)
    requires Reached(batches, queue, trace, r, b) && queue != []
    ensures c < |batches| && r1 < batches[c].Turns() <= MaxTurns(batches)
    ensures r < r1 || (r == r1 && b <= c)
    ensures queue == [Job(c, r1)] + (From(batches, r1, c + 1) + Below(batches, r1 + 1, c, false))
    ensures trace == Rounds(batches, r1) + Below(batches, r1, c, true)
  {
    r1, c := r, b;
    if From(batches, r, b) == [] {
      NextRound(batches, queue, trace, r, b);
      r1, c := r + 1, 0;
    }
    hide Rounds, Below, From, MaxTurns;
    c := Front(batches, r1, c);
    MaxTurnsIsMax(batches, c);
  }

  /** The worker takes the job at the front, runs the group and, if the batch gave way, finds it again at the end of the
      queue; then the first R rounds have been run, for an R after which no batch has a group left. */
  method Worker(batches: seq<Batch>) returns (trace: seq<Job>, ghost rounds: nat)
    ensures trace == Rounds(batches, rounds)
    ensures forall b :: 0 <= b < |batches| ==> batches[b].Groups() <= rounds
  {
    hide Windowed.Groups;
    trace := [];
    var queue := Enqueue(batches);
    ghost var r, b := 0, 0;
    while queue != []
      invariant Reached(batches, queue, trace, r, b)
      decreases MaxTurns(batches) - r, |batches| - b
    {
      ghost var r1, c := Turn(batches, queue, trace, r, b);
      hide Rounds, MaxTurns, From;
      var job := queue[0];
      queue := queue[1..];
      if job.r < batches[job.b].Groups() {
        trace := trace + [job];
      }
      if job.r + 1 < batches[job.b].Turns() {
        queue := queue + [Job(job.b, job.r + 1)];
      }
      r, b := r1, c + 1;
    }
    RoundOver(batches, r, b);
    rounds := r + 1;
    forall c | 0 <= c < |batches|
      ensures batches[c].Groups() <= rounds
    {
      if Takes(batches[c], r + 1, false) { BelowHas(batches, r + 1, |batches|, c); }
    }
  }

  lemma {:induction false} BelowHas(batches: seq<Batch>, r: nat, b: nat, c: nat)
    requires c < b <= |batches| && Takes(batches[c], r, false)
    ensures Below(batches, r, b, false) != []
  {
    if c < b - 1 { BelowHas(batches, r, b - 1, c); }
  }

  /** Start of every batch, in order. */
  method Enqueue(batches: seq<Batch>) returns (queue: seq<Job>)
    ensures queue == From(batches, 0, 0)
  {
    queue := [];
    for b := 0 to |batches|
      invariant queue == Below(batches, 0, b, false)
    {
      queue := queue + [Job(b, 0)];
    }
    FromIsBelow(batches, 0, 0);
  }

  // ---------------------------------------------------------------- the order of the tasks

  lemma {:induction false} SliceAt(n: nat, window: nat, start: nat, r: nat)
    requires window > 0 && start <= n && r < Windowed.Groups(n - start, window)
    ensures start + r * window < n
    ensures Windowed.Slices(n, window, start)[r] == TaskLog.UpTo(start + r * window, Windowed.Min(n, start + r * window + window))
    decreases r
  {
    if r > 0 {
      var end := Windowed.Min(n, start + window);
      assert end == start + window && Windowed.Slices(n, window, start)[r] == Windowed.Slices(n, window, end)[r - 1];
      SliceAt(n, window, end, r - 1);
      assert end + (r - 1) * window == start + r * window;
    }
  }

  lemma {:induction false} RoundBounds(i: nat, window: nat)
    requires window > 0
    ensures RoundOf(i, window) * window <= i < RoundOf(i, window) * window + window
  {
    if i >= window {
      RoundBounds(i - window, window);
      assert (RoundOf(i - window, window) + 1) * window == RoundOf(i - window, window) * window + window;
    }
  }

  lemma {:induction false} QuotientIs(i: nat, window: nat, r: nat)
    requires window > 0 && r * window <= i < r * window + window
    ensures RoundOf(i, window) == r
    decreases r
  {
    if r > 0 {
      assert r * window == (r - 1) * window + window && (r - 1) * window >= 0;
      QuotientIs(i - window, window, r - 1);
    }
  }

  lemma {:induction false} LastGroup(m: nat, window: nat, r: nat)
    requires window > 0 && r * window < m
    ensures r < Windowed.Groups(m, window)
    decreases r
  {
    if r > 0 {
      assert (r - 1) * window == r * window - window && (r - 1) * window >= 0;
      LastGroup(m - window, window, r - 1);
    }
  }

  lemma {:induction false} InSlice(from: nat, to: nat, i: nat)
    requires from <= to
    ensures i in TaskLog.UpTo(from, to) <==> from <= i < to
    ensures forall j, k :: 0 <= j < k < to - from ==> TaskLog.UpTo(from, to)[j] < TaskLog.UpTo(from, to)[k]
  {
    if from <= i < to {
      assert TaskLog.UpTo(from, to)[i - from] == i;
    }
  }

  lemma {:induction false} RoundIs(batch: Batch, r: nat, i: nat)
    requires batch.Looping() && r < batch.Groups()
    ensures r * batch.window < batch.n
    ensures i in batch.Segments()[r] <==> i < batch.n && batch.Round(i) == r
    ensures forall j, k :: 0 <= j < k < |batch.Segments()[r]| ==> batch.Segments()[r][j] < batch.Segments()[r][k]
  {
    SliceAt(batch.n, batch.window, 0, r);
    var from := r * batch.window;
    InSlice(from, Windowed.Min(batch.n, from + batch.window), i);
    hide Windowed.Slices, Windowed.Groups, TaskLog.UpTo, RoundOf;
    if from <= i < from + batch.window {
      QuotientIs(i, batch.window, r);
    }
    RoundBounds(i, batch.window);
  }

  /** The r-th group of a batch is made of its tasks of round r, in order. */
  lemma {:induction false} GroupIsRound(batch: Batch, r: nat)
    requires r < batch.Groups()
    ensures r < batch.Turns()
    ensures forall i: nat :: i in batch.Segments()[r] <==> i < batch.n && batch.Round(i) == r
    ensures forall j, k :: 0 <= j < k < |batch.Segments()[r]| ==> batch.Segments()[r][j] < batch.Segments()[r][k]
  {
    if batch.Looping() {
      forall i: nat
        ensures i in batch.Segments()[r] <==> i < batch.n && batch.Round(i) == r
      {
        RoundIs(batch, r, i);
      }
      RoundIs(batch, r, 0);
    } else {
      forall i: nat
        ensures i in batch.Segments()[r] <==> i < batch.n
      {
        InSlice(0, batch.n, i);
      }
      InSlice(0, batch.n, 0);
    }
  }

  /** What a job launches. */
  function LaunchedBy(batches: seq<Batch>, j: Job): seq<(nat, nat)> {
    if j.b < |batches| && j.r < batches[j.b].Turns() then
      var s := batches[j.b].Segments()[j.r];
      seq(|s|, k requires 0 <= k < |s| => (j.b, s[k]))
    else []
  }

  /** The tasks launched by the jobs of a trace: the batch, and the number of the task in it. */
  function Tasks(batches: seq<Batch>, trace: seq<Job>): seq<(nat, nat)> {
    if trace == [] then [] else Tasks(batches, trace[..|trace| - 1]) + LaunchedBy(batches, trace[|trace| - 1])
  }

  predicate TaskOk(batches: seq<Batch>, t: (nat, nat)) {
    t.0 < |batches| && t.1 < batches[t.0].n
  }

  predicate TaskBefore(batches: seq<Batch>, t: (nat, nat), u: (nat, nat))
    requires TaskOk(batches, t) && TaskOk(batches, u)
  {
    var r, q := batches[t.0].Round(t.1), batches[u.0].Round(u.1);
    r < q || (r == q && (t.0 < u.0 || (t.0 == u.0 && t.1 < u.1)))
  }

  predicate TasksOrdered(batches: seq<Batch>, tasks: seq<(nat, nat)>) {
    && (forall i :: 0 <= i < |tasks| ==> TaskOk(batches, tasks[i]))
    && (forall i, k :: 0 <= i < k < |tasks| ==> TaskBefore(batches, tasks[i], tasks[k]))
  }

  predicate JobOk(batches: seq<Batch>, j: Job) {
    j.b < |batches| && j.r < batches[j.b].Groups()
  }

  predicate JobHas(batches: seq<Batch>, j: Job, t: (nat, nat)) {
    j.b == t.0 && TaskOk(batches, t) && batches[t.0].Round(t.1) == j.r
  }

  lemma {:induction false} LaunchedInOrder(batches: seq<Batch>, j: Job)
    requires JobOk(batches, j)
    ensures TasksOrdered(batches, LaunchedBy(batches, j))
    ensures forall t: (nat, nat) :: t in LaunchedBy(batches, j) <==> JobHas(batches, j, t)
  {
    GroupIsRound(batches[j.b], j.r);
    var s := batches[j.b].Segments()[j.r];
    var l := LaunchedBy(batches, j);
    assert |l| == |s| && forall k :: 0 <= k < |s| ==> l[k] == (j.b, s[k]) && s[k] in s;
    forall t: (nat, nat) | JobHas(batches, j, t)
      ensures t in l
    {
      assert t.1 in s;
      var k :| 0 <= k < |s| && s[k] == t.1;
      assert l[k] == t;
    }
    hide LaunchedBy;
  }

  lemma {:induction false} TasksInOrder(batches: seq<Batch>, trace: seq<Job>)
    requires Ordered(trace) && forall k :: 0 <= k < |trace| ==> JobOk(batches, trace[k])
    ensures TasksOrdered(batches, Tasks(batches, trace))
    ensures forall t: (nat, nat) :: t in Tasks(batches, trace) <==> exists k :: 0 <= k < |trace| && JobHas(batches, trace[k], t)
    decreases |trace|
  {
    if trace != [] {
      var older, j := trace[..|trace| - 1], trace[|trace| - 1];
      TasksInOrder(batches, older);
      LaunchedInOrder(batches, j);
      var before, now := Tasks(batches, older), LaunchedBy(batches, j);
      hide Tasks, LaunchedBy, JobOk;
      forall t: (nat, nat)
        ensures t in before + now <==> exists k :: 0 <= k < |trace| && JobHas(batches, trace[k], t)
      {
        if k :| 0 <= k < |trace| && JobHas(batches, trace[k], t) {
          assert k < |older| ==> JobHas(batches, older[k], t);
        }
        if t in before {
          var k :| 0 <= k < |older| && JobHas(batches, older[k], t);
          assert JobHas(batches, trace[k], t);
        } else if t in now {
          assert JobHas(batches, trace[|trace| - 1], t);
        }
      }
      forall x, y | 0 <= x < |before| && 0 <= y < |now|
        ensures TaskOk(batches, before[x]) && TaskOk(batches, now[y]) && TaskBefore(batches, before[x], now[y])
      {
        assert before[x] in before && now[y] in now;
        var k :| 0 <= k < |older| && JobHas(batches, older[k], before[x]);
        assert Before(trace[k], j);
      }
      OrderedJoin(batches, before, now);
    }
  }

  lemma {:induction false} OrderedJoin(batches: seq<Batch>, a: seq<(nat, nat)>, b: seq<(nat, nat)>)
    requires TasksOrdered(batches, a) && TasksOrdered(batches, b)
    requires forall x, y :: 0 <= x < |a| && 0 <= y < |b| ==> TaskBefore(batches, a[x], b[y])
    ensures TasksOrdered(batches, a + b)
  {
    hide TaskBefore, TaskOk;
  }

  /** Round robin: every batch runs all its groups, in order; the r-th groups are run in the order of enqueueing, and all of
      them before the first (r + 1)-th group. So every task of every batch is launched once, by rounds of `window` tasks of
      each batch, in a round by batches, and in order within a batch. */
  method RoundRobinOrder(batches: seq<Batch>) returns (trace: seq<Job>)
    ensures Ordered(trace)
    ensures forall j :: j in trace <==> JobOk(batches, j)
    ensures TasksOrdered(batches, Tasks(batches, trace))
    ensures forall t: (nat, nat) :: t in Tasks(batches, trace) <==> TaskOk(batches, t)
  {
    ghost var rounds: nat;
    trace, rounds := Worker(batches);
    RoundsOrdered(batches, rounds);
    TasksInRounds(batches, trace);
  }

  lemma {:induction false} TasksInRounds(batches: seq<Batch>, trace: seq<Job>)
    requires Ordered(trace) && forall j :: j in trace <==> JobOk(batches, j)
    ensures TasksOrdered(batches, Tasks(batches, trace))
    ensures forall t: (nat, nat) :: t in Tasks(batches, trace) <==> TaskOk(batches, t)
  {
    forall k | 0 <= k < |trace|
      ensures JobOk(batches, trace[k])
    {
      assert trace[k] in trace;
    }
    TasksInOrder(batches, trace);
    hide Tasks, Ordered, TasksOrdered;
    forall t: (nat, nat)
      ensures t in Tasks(batches, trace) <==> TaskOk(batches, t)
    {
      if TaskOk(batches, t) {
        var j := Job(t.0, batches[t.0].Round(t.1));
        RoundHasGroup(batches[t.0], t.1);
        assert JobOk(batches, j) && j in trace;
        var k :| 0 <= k < |trace| && trace[k] == j;
        assert JobHas(batches, trace[k], t);
      }
    }
  }

  lemma {:induction false} RoundHasGroup(batch: Batch, i: nat)
    requires i < batch.n
    ensures batch.Round(i) < batch.Groups()
  {
    if batch.Looping() {
      RoundBounds(i, batch.window);
      LastGroup(batch.n, batch.window, RoundOf(i, batch.window));
    }
  }
}
