/** The queue and the pool as objects. Which try_lock finds its lock free and what rand() says are parameters. */
module ThreadPoolObject {
  import opened TryModel
  import opened Tallies
  import opened ThreadPoolMachine

  class ThreadsafeQueue {
    var items: seq<Item>
    var stop: bool

    /** As an element of a std::vector the queue is value-initialized, so stop_ is false. */
    constructor ()
      ensures items == [] && !stop
    {
      items, stop := [], false;
    }

    method Push(item: Item)
      modifies this
      ensures items == old(items) + [item] && stop == old(stop)
    {
      items := items + [item];
    }

    method TryPush(item: Item, free: bool) returns (ok: bool)
      modifies this
      ensures ok == free && items == (if free then old(items) + [item] else old(items)) && stop == old(stop)
    {
      if !free {
        return false;
      }
      items := items + [item];
      return true;
    }

    /** Waits until the queue has an item or was stopped. */
    method Pop() returns (item: Option<Item>)
      requires items != [] || stop
      modifies this
      ensures item == if old(items) == [] then None else Some(old(items)[0])
      ensures items == (if old(items) == [] then [] else old(items)[1..]) && stop == old(stop)
    {
      if |items| == 0 {
        return None;
      }
      item := Some(items[0]);
      items := items[1..];
    }

    method TryPop(free: bool) returns (item: Option<Item>)
      modifies this
      ensures item.Some? <==> free && old(items) != []
      ensures item.Some? ==> item.value == old(items)[0] && items == old(items)[1..]
      ensures item.None? ==> items == old(items)
      ensures stop == old(stop)
    {
      if !free || |items| == 0 {
        return None;
      }
      item := Some(items[0]);
      items := items[1..];
    }

    /** Only the front item is offered to the predicate. */
    method TryPopIf(predict: Item -> bool, free: bool) returns (item: Option<Item>)
      modifies this
      ensures item.Some? <==> free && old(items) != [] && predict(old(items)[0])
      ensures item.Some? ==> item.value == old(items)[0] && items == old(items)[1..]
      ensures item.None? ==> items == old(items)
      ensures stop == old(stop)
    {
      if !free || |items| == 0 {
        return None;
      }
      if !predict(items[0]) {
        return None;
      }
      item := Some(items[0]);
      items := items[1..];
    }

    method Stop()
      modifies this`stop
      ensures stop
    {
      stop := true;
    }
  }

  datatype ErrorType = ErrorNone | ErrorPoolHasStop | ErrorPoolItemIsNull

  class ThreadPool {
    const threadNum: nat
    const steal: bool
    const queues: seq<ThreadsafeQueue>
    var stop: bool

    ghost predicate Valid()
      reads this
    {
      && |queues| == threadNum > 0
      && (forall i, j :: 0 <= i < j < |queues| ==> queues[i] != queues[j])
    }

    ghost function Contents(): (c: seq<seq<Item>>)
      reads this, queues
      ensures |c| == |queues| && forall i :: 0 <= i < |queues| ==> c[i] == queues[i].items
    {
      seq(|queues|, i requires 0 <= i < |queues| reads this, queues => queues[i].items)
    }

    ghost function Stopped(): (c: seq<bool>)
      reads this, queues
      ensures |c| == |queues| && forall i :: 0 <= i < |queues| ==> c[i] == queues[i].stop
    {
      seq(|queues|, i requires 0 <= i < |queues| reads this, queues => queues[i].stop)
    }

    constructor (threads: nat, steal: bool)
      requires threads > 0
      ensures Valid() && threadNum == threads && this.steal == steal && !stop
      ensures fresh(queues) && Contents() == seq(threads, i => [])
    {
      var qs: seq<ThreadsafeQueue> := [];
      for i := 0 to threads
        invariant |qs| == i && fresh(qs)
        invariant forall j :: 0 <= j < i ==> qs[j].items == []
        invariant forall j, k :: 0 <= j < k < i ==> qs[j] != qs[k]
      {
        var q := new ThreadsafeQueue();
        qs := qs + [q];
      }
      threadNum, this.steal, queues, stop := threads, steal, qs, false;
    }

    /** One queue got the item at its end: the one the submission named, or any. */
    predicate EnqueuedAt(before: seq<seq<Item>>, after: seq<seq<Item>>, fn: nat, id: int, q: nat) {
      q < |before| && (id == ANY_WORKER || q == id) &&
      after == before[q := before[q] + [Item(fn, if id == ANY_WORKER then None else Some(q), id == ANY_WORKER && steal)]]
    }

    /** Attempt n is the first to find its lock free. */
    ghost predicate FirstFree(free: nat -> bool, n: nat) {
      free(n) && forall m: nat :: m < n ==> !free(m)
    }

    /** Where an item for any worker goes: with stealing enabled every queue is tried in turn, twice; failing that, rand() decides. */
    ghost predicate Placed(free: nat -> bool, rand: nat, q: nat)
      requires threadNum > 0
    {
      && (steal ==> forall n: nat :: n < threadNum * 2 && FirstFree(free, n) ==> q == n % threadNum)
      && (!steal || (forall n: nat :: n < threadNum * 2 ==> !free(n)) ==> q == rand % threadNum)
    }

    /** A null function and a stopped pool are answered with an error; otherwise the item ends up at the end of one queue:
        the one named by `id`, for that worker alone, or any, and then it may be stolen if stealing is enabled. */
    method ScheduleById(fn: Option<nat>, id: int, free: nat -> bool, rand: nat) returns (error: ErrorType)
      requires Valid() && (fn.Some? && !stop ==> id == ANY_WORKER || 0 <= id < threadNum)
      modifies queues
      ensures error == if fn.None? then ErrorPoolItemIsNull else if stop then ErrorPoolHasStop else ErrorNone
      ensures Stopped() == old(Stopped())
      ensures error.ErrorNone? ==>
        exists q :: EnqueuedAt(old(Contents()), Contents(), fn.value, id, q) && (id == ANY_WORKER ==> Placed(free, rand, q))
      ensures !error.ErrorNone? ==> Contents() == old(Contents())
    {
      if fn.None? {
        return ErrorPoolItemIsNull;
      }
      if stop {
        return ErrorPoolHasStop;
      }
      if id == ANY_WORKER {
        PushAnywhere(fn.value, free, rand);
      } else {
        queues[id].Push(Item(fn.value, Some(id), false));
        assert EnqueuedAt(old(Contents()), Contents(), fn.value, id, id);
      }
      return ErrorNone;
    }

    lemma PlacedFirst(free: nat -> bool, rand: nat, n: nat)
      requires threadNum > 0 && n < threadNum * 2 && FirstFree(free, n)
      ensures Placed(free, rand, n % threadNum) || !steal
    {
      if steal {
        forall k: nat | k < threadNum * 2 && FirstFree(free, k)
          ensures k == n
        {
          assert !(k < n) && !(n < k);
        }
      }
    }

    lemma PlacedAtRandom(free: nat -> bool, rand: nat)
      requires threadNum > 0 && (!steal || forall n: nat :: n < threadNum * 2 ==> !free(n))
      ensures Placed(free, rand, rand % threadNum)
    {
    }

    method PushAttempt(fn: nat, n: nat, free: bool) returns (ok: bool)
      requires Valid() && steal
      modifies queues
      ensures Stopped() == old(Stopped()) && ok == free
      ensures if ok then EnqueuedAt(old(Contents()), Contents(), fn, ANY_WORKER, n % threadNum) else Contents() == old(Contents())
    {
      ok := queues[n % threadNum].TryPush(Item(fn, None, true), free);
    }

    /** Every queue is tried in turn, twice, if stealing is enabled; failing that, rand() picks one. */
    method PushAnywhere(fn: nat, free: nat -> bool, rand: nat)
      requires Valid()
      modifies queues
      ensures Stopped() == old(Stopped())
      ensures exists q :: EnqueuedAt(old(Contents()), Contents(), fn, ANY_WORKER, q) && Placed(free, rand, q)
    {
      if steal {
        for n := 0 to threadNum * 2
          invariant Contents() == old(Contents()) && Stopped() == old(Stopped())
          invariant forall m: nat :: m < n ==> !free(m)
        {
          hide EnqueuedAt, Placed;
          var ok := PushAttempt(fn, n, free(n));
          if ok {
            PlacedFirst(free, rand, n);
            return;
          }
        }
      }
      hide Placed;
      var q := rand % threadNum;
      queues[q].Push(Item(fn, None, steal));
      assert EnqueuedAt(old(Contents()), Contents(), fn, ANY_WORKER, q);
      PlacedAtRandom(free, rand);
    }

    /** Attempt n of the stealing loop of worker id finds something to take. */
    predicate Offers(c: seq<seq<Item>>, id: nat, free: nat -> bool, n: nat) {
      threadNum == |c| > 0 && n < threadNum * 2 && free(n) && c[(id + n) % threadNum] != [] && c[(id + n) % threadNum][0].canSteal
    }

    /** The first attempt that does is at queue q. */
    ghost predicate StealsFrom(c: seq<seq<Item>>, id: nat, free: nat -> bool, q: nat) {
      threadNum > 0 &&
      exists n: nat :: Offers(c, id, free, n) && q == (id + n) % threadNum && forall m: nat :: m < n ==> !Offers(c, id, free, m)
    }

    ghost predicate NothingToSteal(c: seq<seq<Item>>, id: nat, free: nat -> bool) {
      forall n: nat :: !Offers(c, id, free, n)
    }

    /** One turn of WorkerThreadMain up to the item: steal if stealing is enabled and possible, else wait for the own queue. The
        wait has no end, as far as this worker can see, when the own queue is empty and not stopped. */
    method TakeItem(id: nat, free: nat -> bool) returns (item: Option<Item>, blocked: bool, ghost from: nat)
      requires Valid() && id < threadNum
      modifies queues
      ensures Stopped() == old(Stopped()) && from < threadNum
      ensures item.None? ==> Contents() == old(Contents()) && queues[id].items == [] && (blocked <==> !queues[id].stop)
      ensures item.Some? ==> old(Contents())[from] == [item.value] + Contents()[from]
      ensures item.Some? ==> Contents() == old(Contents())[from := Contents()[from]] && (from == id || item.value.canSteal)
      ensures if steal && !NothingToSteal(old(Contents()), id, free) then item.Some? && StealsFrom(old(Contents()), id, free, from)
              else from == id
    {
      from, blocked := id, false;
      if steal {
        item, from := Steal(id, free);
        if item.Some? {
          return;
        }
      }
      from := id;
      if queues[id].items == [] && !queues[id].stop {
        return None, true, id;
      }
      ghost var before := Contents();
      item := queues[id].Pop();
      assert Contents() == before[id := queues[id].items];
    }

    /** TryPopIf of the stealing loop. */
    method StealAttempt(id: nat, free: nat -> bool, n: nat) returns (item: Option<Item>)
      requires Valid() && id < threadNum && n < threadNum * 2
      modifies queues
      ensures Stopped() == old(Stopped()) && (item.Some? <==> Offers(old(Contents()), id, free, n))
      ensures item.None? ==> Contents() == old(Contents())
      ensures item.Some? ==> var q := (id + n) % threadNum;
        old(Contents())[q] == [item.value] + Contents()[q] && item.value.canSteal && Contents() == old(Contents())[q := Contents()[q]]
    {
      var q := (id + n) % threadNum;
      item := queues[q].TryPopIf((i: Item) => i.canSteal, free(n));
      assert Contents() == old(Contents())[q := queues[q].items];
    }

    /** The stealing loop; only the front of a queue is looked at, and only if its lock is free. */
    method Steal(id: nat, free: nat -> bool) returns (item: Option<Item>, ghost from: nat)
      requires Valid() && id < threadNum
      modifies queues
      ensures Stopped() == old(Stopped()) && from < threadNum
      ensures item.None? ==> Contents() == old(Contents()) && NothingToSteal(old(Contents()), id, free)
      ensures item.Some? ==> old(Contents())[from] == [item.value] + Contents()[from] && item.value.canSteal
      ensures item.Some? ==> Contents() == old(Contents())[from := Contents()[from]] && StealsFrom(old(Contents()), id, free, from)
    {
      item, from := None, id;
      for n := 0 to threadNum * 2
        invariant Contents() == old(Contents()) && Stopped() == old(Stopped()) && item.None? && from == id
        invariant forall m: nat :: m < n ==> !Offers(old(Contents()), id, free, m)
      {
        hide Offers;
        item := StealAttempt(id, free, n);
        if item.Some? {
          from := (id + n) % threadNum;
          return;
        }
      }
    }

    /** WorkerThreadMain while no new jobs come in: it runs what leaves the queues until its own queue is empty, and then
        returns if that queue is stopped and is blocked in Pop if not. Without stealing that is its own queue, in order. */
    method WorkerThreadMain(id: nat, free: nat -> nat -> bool) returns (ran: seq<Item>, blocked: bool)
      requires Valid() && id < threadNum
      modifies queues
      ensures Stopped() == old(Stopped()) && queues[id].items == [] && (blocked <==> !queues[id].stop)
      ensures forall q :: 0 <= q < threadNum && old(Contents())[q] == [] ==> Contents()[q] == []
      ensures forall x :: Moved(old(Contents()), Contents(), ran, x)
      ensures !steal ==> Served(old(Contents()), Contents(), ran, id) && Contents()[id] == []
    {
      ran, blocked := [], false;
      while true
        invariant Stopped() == old(Stopped())
        invariant forall q :: 0 <= q < threadNum && old(Contents())[q] == [] ==> Contents()[q] == []
        invariant forall x :: Moved(old(Contents()), Contents(), ran, x)
        invariant !steal ==> Served(old(Contents()), Contents(), ran, id)
        decreases Tally(Contents(), Length)
      {
        ghost var before := Contents();
        var item, wait, from := TakeItem(id, free(|ran|));
        hide Moved, Served, Offers, StealsFrom, NothingToSteal;
        if item.None? {
          blocked := wait;
          break;
        }
        forall x
          ensures Moved(old(Contents()), Contents(), ran + [item.value], x)
        {
          MovedOne(old(Contents()), before, Contents(), ran, from, item.value, x);
        }
        if !steal { ServedOne(old(Contents()), before, Contents(), ran, id, item.value); }
        TallyUpdate(before, from, Contents()[from], Length);
        ran := ran + [item.value];
      }
    }

    method StopAll()
      requires Valid()
      modifies queues
      ensures Contents() == old(Contents()) && forall q :: 0 <= q < threadNum ==> queues[q].stop
    {
      for k := 0 to threadNum
        invariant Contents() == old(Contents()) && forall q :: 0 <= q < k ==> queues[q].stop
      {
        queues[k].Stop();
      }
    }

    method JoinAll(free: nat -> nat -> nat -> bool) returns (ran: seq<Item>)
      requires Valid() && forall q :: 0 <= q < threadNum ==> Stopped()[q]
      modifies queues
      ensures Stopped() == old(Stopped()) && forall q :: 0 <= q < threadNum ==> Contents()[q] == []
      ensures forall x :: Moved(old(Contents()), Contents(), ran, x)
    {
      ran := [];
      for w := 0 to threadNum
        invariant Stopped() == old(Stopped())
        invariant forall q :: 0 <= q < w ==> Contents()[q] == []
        invariant forall x :: Moved(old(Contents()), Contents(), ran, x)
      {
        assert Stopped()[w];
        ghost var before := Contents();
        var more, blocked := WorkerThreadMain(w, free(w));
        assert Contents()[w] == queues[w].items;
        MovedTwice(old(Contents()), before, Contents(), ran, more);
        hide Moved;
        ran := ran + more;
      }
    }

    /** The destructor, when no submission is in flight: every queue is stopped, every worker is joined, and by then every
        accepted item has been run, as often as it was queued. */
    method Destroy(free: nat -> nat -> nat -> bool) returns (ran: seq<Item>)
      requires Valid()
      modifies this`stop, queues
      ensures stop && forall q :: 0 <= q < threadNum ==> Contents()[q] == [] && Stopped()[q]
      ensures forall x :: Times(ran, x) == Tally(old(Contents()), TimesOf(x))
    {
      stop := true;
      assert Contents() == old(Contents());
      StopAll();
      ghost var before := Contents();
      ran := JoinAll(free);
      assert before == old(Contents());
      forall x
        ensures Times(ran, x) == Tally(old(Contents()), TimesOf(x))
      {
        assert Moved(old(Contents()), Contents(), ran, x);
        TallyZero(Contents(), TimesOf(x));
      }
    }
  }

  /** The items missing from `after` are those in `ran`. */
  predicate Moved(before: seq<seq<Item>>, after: seq<seq<Item>>, ran: seq<Item>, x: Item) {
    Tally(after, TimesOf(x)) + Times(ran, x) == Tally(before, TimesOf(x))
  }

  /** What was run left the front of queue w, in order, and nothing else left. */
  predicate Served(before: seq<seq<Item>>, after: seq<seq<Item>>, ran: seq<Item>, w: nat) {
    w < |before| == |after| && before[w] == ran + after[w] && after == before[w := after[w]]
  }

  lemma {:induction false} ServedOne(start: seq<seq<Item>>, before: seq<seq<Item>>, after: seq<seq<Item>>, ran: seq<Item>, w: nat,
                                     item: Item)
    requires Served(start, before, ran, w) && |after| == |before| && before[w] == [item] + after[w] && after == before[w := after[w]]
    ensures Served(start, after, ran + [item], w)
  {
    assert ran + ([item] + after[w]) == (ran + [item]) + after[w];
  }

  lemma {:induction false} MovedOne(start: seq<seq<Item>>, before: seq<seq<Item>>, after: seq<seq<Item>>, ran: seq<Item>,
                                    q: nat, item: Item, x: Item)
    requires Moved(start, before, ran, x)
    requires q < |before| == |after| && before[q] == [item] + after[q] && after == before[q := after[q]]
    ensures Moved(start, after, ran + [item], x)
  {
    TallyUpdate(before, q, after[q], TimesOf(x));
    TimesFront(before[q], x);
    TimesPush(ran, item, x);
  }

  lemma {:induction false} MovedTwice(start: seq<seq<Item>>, before: seq<seq<Item>>, after: seq<seq<Item>>,
                                      ran: seq<Item>, more: seq<Item>)
    requires forall x :: Moved(start, before, ran, x)
    requires forall x :: Moved(before, after, more, x)
    ensures forall x :: Moved(start, after, ran + more, x)
  {
    forall x
      ensures Moved(start, after, ran + more, x)
    {
      assert Moved(start, before, ran, x) && Moved(before, after, more, x);
      TimesAppend(ran, more, x);
      hide Times;
    }
  }

  lemma {:induction false} TimesAppend(s: seq<Item>, t: seq<Item>, x: Item)
    ensures Times(s + t, x) == Times(s, x) + Times(t, x)
  {
  }

  function Length(s: seq<Item>): nat {
    |s|
  }
}
