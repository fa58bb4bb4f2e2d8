/** SimpleExecutor on top of the pool: contexts are tagged worker ids, and lead back to the worker they name. */
module SimpleExecutorModel {
  import opened TryModel
  import opened ThreadPoolMachine
  import opened ThreadPoolProofs
  import opened ThreadPoolTheorems

  /** kContextMask, a single bit. */
  const CONTEXT_BIT: int := 0x4000_0000
  const NULL_CONTEXT: int := 0

  // ---------------------------------------------------------------- that bit of a two's complement integer

  predicate Tagged(x: int) {
    (x / CONTEXT_BIT) % 2 == 1
  }

  /** `x | kContextMask` */
  function Tag(x: int): int {
    if Tagged(x) then x else x + CONTEXT_BIT
  }

  /** `x & ~kContextMask` */
  function Untag(x: int): int {
    if Tagged(x) then x - CONTEXT_BIT else x
  }

  /** Tag and Untag are the bitwise operations: the bits above and below the context bit stay, that bit is set or cleared. */
  lemma {:induction false} OnlyTheContextBit(x: int)
    ensures Tagged(Tag(x)) && Tag(x) / (2 * CONTEXT_BIT) == x / (2 * CONTEXT_BIT) && Tag(x) % CONTEXT_BIT == x % CONTEXT_BIT
    ensures !Tagged(Untag(x)) && Untag(x) / (2 * CONTEXT_BIT) == x / (2 * CONTEXT_BIT) && Untag(x) % CONTEXT_BIT == x % CONTEXT_BIT
  {
    var high, bit, low := x / (2 * CONTEXT_BIT), (x / CONTEXT_BIT) % 2, x % CONTEXT_BIT;
    assert x == high * (2 * CONTEXT_BIT) + bit * CONTEXT_BIT + low;
    assert Tag(x) == high * (2 * CONTEXT_BIT) + CONTEXT_BIT + low;
    assert Untag(x) == high * (2 * CONTEXT_BIT) + low;
  }

  // ---------------------------------------------------------------- Checkout and Checkin

  /** GetCurrentId: the worker's id, or -1 on a thread that is not the pool's. */
  function CurrentId(thread: Option<nat>): int {
    match thread
    case Some(w) => w
    case None => ANY_WORKER
  }

  function Checkout(thread: Option<nat>): int {
    Tag(CurrentId(thread))
  }

  datatype Placement = Inline | Submitted(target: int)

  /** Checkin runs the job at once if this is the thread the context names, and otherwise submits it with that id. */
  function Checkin(thread: Option<nat>, context: int, prompt: bool): Placement {
    if CurrentId(thread) == Untag(context) && prompt then Inline else Submitted(Untag(context))
  }

  /** The context of a worker is never null and leads back to it exactly when its id leaves the context bit free. */
  lemma {:induction false} ContextRoundTrip(w: nat)
    ensures Checkout(Some(w)) != NULL_CONTEXT
    ensures Untag(Checkout(Some(w))) == w <==> !Tagged(w)
    ensures w < CONTEXT_BIT ==> !Tagged(w)
  {
  }

  /** A context taken outside the pool is no worker's: giving it back fails, on every thread. */
  lemma {:induction false} OutsiderDoesNotRoundTrip(thread: Option<nat>, prompt: bool, threads: nat)
    requires thread.Some? ==> thread.value < threads
    ensures Checkin(thread, Checkout(None), prompt).Submitted?
    ensures var target := Checkin(thread, Checkout(None), prompt).target; target != ANY_WORKER && !(0 <= target < threads)
  {
    assert (-1) / CONTEXT_BIT == -1;
  }

  /** Pinning: with at most 2^30 workers, a job checked in with a context taken on worker w runs inline if and only if it is
      prompt and this is w; otherwise it is submitted for w, and then nobody but w ever runs it, also when stealing is enabled. */
  lemma {:induction false} PinningTheorem(n: nat, steal: bool, acts: seq<Action>, c: Config, w: nat, thread: Option<nat>,
                                          prompt: bool, k: nat)
    requires 0 < n <= CONTEXT_BIT && w < n && (thread.Some? ==> thread.value < n)
    requires Runs(Initial(n, steal), acts, c) && c.Ok? && k < |c.p.log.executed|
    ensures var place := Checkin(thread, Checkout(Some(w)), prompt);
      (place.Inline? <==> prompt && thread == Some(w)) &&
      if place.Inline? then thread == Some(w) else
        place.target == w &&
        (c.p.log.executed[k].1.id < |c.p.log.targets| && c.p.log.targets[c.p.log.executed[k].1.id] == place.target ==>
          c.p.log.executed[k].0 == w)
  {
    ContextRoundTrip(w);
    PinTheorem(n, steal, acts, c, k);
  }
}
