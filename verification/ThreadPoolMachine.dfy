/** The thread pool as interleaved atomic steps: submitters, workers and the destructor.

    A lock-protected section is one step; a failing try_lock and the choice by rand() are left open. */
module ThreadPoolMachine {
  import opened TryModel
  import opened Tallies

  /** `pin` is the worker id the item was submitted for. */
  datatype Item = Item(id: nat, pin: Option<nat>, canSteal: bool)

  /** A ScheduleById that has read stop_ == false and has not pushed yet. */
  datatype Flight = Flight(id: nat, target: int)

  const ANY_WORKER: int := -1

  datatype WorkerPc = Scanning(n: nat) | Waiting | Working | Exited

  datatype DestructorPc = NotBegun | StoppingQueues(k: nat) | Joining(k: nat) | Joined

  /** What happened to each submission and each queue so far. */
  datatype History = History(
    accepted: seq<Item>,
    rejected: seq<nat>,
    targets: seq<int>,            // of every submission, by its number
    executed: seq<(nat, Item)>,
    late: seq<(nat, Item)>,       // pushed on a queue after its worker had left
    pushed: seq<seq<Item>>,
    popped: seq<seq<Item>>)

  datatype Pool = Pool(
    steal: bool,
    queues: seq<seq<Item>>,
    stopped: seq<bool>,
    pcs: seq<WorkerPc>,
    held: seq<seq<Item>>,         // the item each worker is running, if any
    stop: bool,
    dtor: DestructorPc,
    straddled: bool,              // some submission was in flight when stop_ was set
    flying: seq<Flight>,
    next: nat,
    log: History)

  datatype Fault = BadId | UseAfterFree

  datatype Config = Ok(p: Pool) | Crashed(why: Fault)

  function Threads(p: Pool): nat {
    |p.queues|
  }

  predicate Sized(p: Pool) {
    |p.queues| == |p.stopped| == |p.pcs| == |p.held| == |p.log.pushed| == |p.log.popped| && |p.queues| > 0
  }

  predicate Fits(p: Pool, p1: Pool) {
    Sized(p1) && Threads(p1) == Threads(p) && p1.steal == p.steal
  }

  function Initial(n: nat, steal: bool): Pool
    requires n > 0
  {
    Pool(steal, seq(n, i => []), seq(n, i => false), seq(n, i => Scanning(0)), seq(n, i => []), false, NotBegun, false, [], 0,
         History([], [], [], [], [], seq(n, i => []), seq(n, i => [])))
  }

  // ---------------------------------------------------------------- steps

  datatype Action =
    | Submit(target: int)
    | Land(k: nat, q: nat)          // flight k pushes, on queue q if it may choose
    | Scan(w: nat, busy: bool)      // one TryPopIf of the stealing loop, or its end
    | Pop(w: nat)
    | Run(w: nat)
    | Destroy

  predicate Enabled(p: Pool, a: Action)
    requires Sized(p)
  {
    match a
    case Submit(_) => !p.dtor.Joined?
    case Land(k, q) => k < |p.flying| && q < Threads(p)
    case Scan(w, _) => w < Threads(p) && p.pcs[w].Scanning?
    case Pop(w) => w < Threads(p) && p.pcs[w].Waiting? && (p.queues[w] != [] || p.stopped[w])
    case Run(w) => w < Threads(p) && p.pcs[w].Working? && p.held[w] != []
    case Destroy =>
      match p.dtor
      case Joining(k) => k < Threads(p) ==> p.pcs[k].Exited?
      case Joined => false
      case _ => true
  }

  /** ScheduleById up to its test of stop_. */
  function Submitted(p: Pool, target: int): Pool {
    var targets := p.log.targets + [target];
    if p.stop then p.(log := p.log.(rejected := p.log.rejected + [p.next], targets := targets), next := p.next + 1)
    else p.(flying := p.flying + [Flight(p.next, target)], log := p.log.(targets := targets), next := p.next + 1)
  }

  function Pushed(p: Pool, q: nat, item: Item): (p1: Pool)
    requires Sized(p) && q < Threads(p)
    ensures Fits(p, p1)
  {
    p.(queues := p.queues[q := p.queues[q] + [item]],
       log := p.log.(accepted := p.log.accepted + [item],
                     late := if p.pcs[q].Exited? then p.log.late + [(q, item)] else p.log.late,
                     pushed := p.log.pushed[q := p.log.pushed[q] + [item]]))
  }

  /** The rest of ScheduleById. */
  function Landed(p: Pool, k: nat, q: nat): (c: Config)
    requires Sized(p) && k < |p.flying| && q < Threads(p)
    ensures c.Ok? ==> Fits(p, c.p)
  {
    var fl := p.flying[k];
    var p0 := p.(flying := p.flying[..k] + p.flying[k + 1..]);
    if p.dtor.Joined? then Crashed(UseAfterFree)
    else if fl.target == ANY_WORKER then Ok(Pushed(p0, q, Item(fl.id, None, p.steal)))
    else if 0 <= fl.target < Threads(p) then Ok(Pushed(p0, fl.target, Item(fl.id, Some(fl.target), false)))
    else Crashed(BadId)
  }

  /** Worker w takes the front of queue q. */
  function Taken(p: Pool, w: nat, q: nat): (p1: Pool)
    requires Sized(p) && w < Threads(p) && q < Threads(p) && p.queues[q] != []
    ensures Fits(p, p1)
  {
    var item := p.queues[q][0];
    p.(queues := p.queues[q := p.queues[q][1..]], held := p.held[w := [item]], pcs := p.pcs[w := Working],
       log := p.log.(popped := p.log.popped[q := p.log.popped[q] + [item]]))
  }

  function Scanned(p: Pool, w: nat, busy: bool): (p1: Pool)
    requires Sized(p) && w < Threads(p) && p.pcs[w].Scanning?
    ensures Fits(p, p1)
  {
    var n := p.pcs[w].n;
    if !p.steal || n >= Threads(p) * 2 then p.(pcs := p.pcs[w := Waiting])
    else
      var q := (w + n) % Threads(p);
      if !busy && p.queues[q] != [] && p.queues[q][0].canSteal then Taken(p, w, q)
      else p.(pcs := p.pcs[w := Scanning(n + 1)])
  }

  function Popped(p: Pool, w: nat): (p1: Pool)
    requires Sized(p) && w < Threads(p)
    ensures Fits(p, p1)
  {
    if p.queues[w] != [] then Taken(p, w, w) else p.(pcs := p.pcs[w := Exited])
  }

  function Ran(p: Pool, w: nat): (p1: Pool)
    requires Sized(p) && w < Threads(p) && p.held[w] != []
    ensures Fits(p, p1)
  {
    p.(held := p.held[w := []], pcs := p.pcs[w := Scanning(0)],
       log := p.log.(executed := p.log.executed + [(w, p.held[w][0])]))
  }

  function Destroyed(p: Pool): (p1: Pool)
    requires Sized(p)
    ensures Fits(p, p1)
  {
    match p.dtor
    case NotBegun => p.(stop := true, straddled := p.flying != [], dtor := StoppingQueues(0))
    case StoppingQueues(k) =>
      if k < Threads(p) then p.(stopped := p.stopped[k := true], dtor := StoppingQueues(k + 1)) else p.(dtor := Joining(0))
    case Joining(k) => if k < Threads(p) then p.(dtor := Joining(k + 1)) else p.(dtor := Joined)
    case Joined => p
  }

  function Next(p: Pool, a: Action): (c: Config)
    requires Sized(p) && Enabled(p, a)
    ensures c.Ok? ==> Fits(p, c.p)
  {
    match a
    case Submit(target) => Ok(Submitted(p, target))
    case Land(k, q) => Landed(p, k, q)
    case Scan(w, busy) => Ok(Scanned(p, w, busy))
    case Pop(w) => Ok(Popped(p, w))
    case Run(w) => Ok(Ran(p, w))
    case Destroy => Ok(Destroyed(p))
  }

  ghost predicate Runs(p: Pool, acts: seq<Action>, c: Config)
    decreases |acts|
  {
    if acts == [] then c == Ok(p) else
    Sized(p) && Enabled(p, acts[0]) &&
    match Next(p, acts[0])
    case Crashed(_) => c == Next(p, acts[0]) && |acts| == 1
    case Ok(p1) => Runs(p1, acts[1..], c)
  }

  // ---------------------------------------------------------------- how often an item occurs

  function Times(s: seq<Item>, x: Item): nat {
    multiset(s)[x]
  }

  function TimesOf(x: Item): seq<Item> -> nat {
    s => Times(s, x)
  }

  lemma {:induction false} TimesPush(s: seq<Item>, item: Item, x: Item)
    ensures Times(s + [item], x) == Times(s, x) + if item == x then 1 else 0
  {
  }

  lemma {:induction false} TimesFront(s: seq<Item>, x: Item)
    requires s != []
    ensures Times(s, x) == Times(s[1..], x) + if s[0] == x then 1 else 0
  {
    assert s == [s[0]] + s[1..];
  }

  function FlightOf(id: nat): Flight -> nat {
    (f: Flight) => if f.id == id then 1 else 0
  }

  function ItemOf(id: nat): Item -> nat {
    (item: Item) => if item.id == id then 1 else 0
  }

  function IdOf(id: nat): nat -> nat {
    (i: nat) => if i == id then 1 else 0
  }

  function Items(executed: seq<(nat, Item)>): seq<Item> {
    seq(|executed|, k requires 0 <= k < |executed| => executed[k].1)
  }
}
