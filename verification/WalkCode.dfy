/**
  The walk code itself: submit, process and walk as they are written, run by one worker without
  interference. WalkTheorems has the same promises for every interleaving.
*/
module WalkCode {
  import opened Base
  import opened Sums
  import opened DirTree
  import opened WalkPool

  /** errAgg: counts every error, retains the first maxRetainedWalkErrors of them. */
  class ErrAgg {
    var errs: seq<string>
    var total: nat

    ghost predicate Valid()
      reads this
    {
      |errs| == if total < MAX_RETAINED then total else MAX_RETAINED
    }

    static const MAX_RETAINED: nat := 16

    constructor ()
      ensures Valid() && total == 0 && errs == []
    {
      errs, total := [], 0;
    }

    method Add(err: string)
      requires Valid()
      modifies this
      ensures Valid() && total == old(total) + 1
      ensures errs == if old(total) < MAX_RETAINED then old(errs) + [err] else old(errs)
    {
      total := total + 1;
      if |errs| < MAX_RETAINED {
        errs := errs + [err];
      }
    }
  }

  class WalkJob {
    var cancelled: bool
    var seen: Tally
    var wg: int
    const errs: ErrAgg

    constructor (cancelled: bool)
      ensures this.cancelled == cancelled && seen == ZERO && wg == 0
      ensures fresh(errs) && errs.Valid() && errs.total == 0
    {
      this.cancelled, seen, wg := cancelled, ZERO, 0;
      errs := new ErrAgg();
    }
  }

  ghost function ListingCount(k: Kind): Listing -> nat
  {
    (l: Listing) => Count(k, l)
  }

  /** Entries of kind `k` below the queued directories. */
  ghost function Queued(k: Kind, queue: seq<Listing>): nat
  {
    SumBy(ListingCount(k), queue)
  }

  lemma QueuedPush(k: Kind, queue: seq<Listing>, dir: Listing)
    ensures Queued(k, queue + [dir]) == Queued(k, queue) + Count(k, dir)
  {
    SumAppend(ListingCount(k), queue, [dir]);
    SumOne(ListingCount(k), dir);
  }

  lemma CountSteps(dir: Listing)
    ensures forall k :: CountFrom(k, dir, |dir|) == 0
    ensures forall k, i :: 0 <= i < |dir| ==>
              CountFrom(k, dir, i) == Own(k, dir[i]) + Inside(k, dir[i]) + CountFrom(k, dir, i + 1)
  {
  }

  class Pool {
    var queue: seq<Listing>
    var closed: bool

    constructor (closed: bool)
      ensures queue == [] && this.closed == closed
    {
      queue, this.closed := [], closed;
    }

    method Submit(j: WalkJob, dir: Listing)
      modifies this`queue, j`wg
      ensures closed ==> queue == old(queue) && j.wg == old(j.wg) - 1
      ensures !closed ==> queue == old(queue) + [dir] && j.wg == old(j.wg)
    {
      if closed {
        j.wg := j.wg - 1;
        return;
      }
      queue := queue + [dir];
    }

    /** Looks at every entry of `dir`; the deferred Done is the last statement. */
    method Process(j: WalkJob, dir: Listing)
      requires j.errs.Valid()
      modifies this`queue, j`wg, j`seen, j.errs
      ensures j.errs.Valid() && j.errs.total >= old(j.errs.total)
      ensures j.wg == old(j.wg) - 1 + |queue| - |old(queue)|
      ensures forall k :: j.seen.Get(k) + Queued(k, queue)
                          <= old(j.seen).Get(k) + Queued(k, old(queue)) + Count(k, dir)
      ensures !closed && !j.cancelled && j.errs.total == old(j.errs.total) ==>
                forall k :: j.seen.Get(k) + Queued(k, queue)
                            == old(j.seen).Get(k) + Queued(k, old(queue)) + Count(k, dir)
      ensures |queue| + Queued(KindDir, queue) <= |old(queue)| + Queued(KindDir, old(queue)) + Count(KindDir, dir)
    {
      if j.cancelled {
        j.wg := j.wg - 1;
        return;
      }
      var readable: bool := *;
      if !readable {
        j.errs.Add("readdir");
        j.wg := j.wg - 1;
        return;
      }
      hide CountFrom, SumBy;
      CountSteps(dir);
      var i := 0;
      while i < |dir|
        invariant 0 <= i <= |dir|
        invariant j.errs.Valid() && j.errs.total == old(j.errs.total)
        invariant j.wg == old(j.wg) + |queue| - |old(queue)|
        invariant forall k :: j.seen.Get(k) + Queued(k, queue) + CountFrom(k, dir, i)
                              <= old(j.seen).Get(k) + Queued(k, old(queue)) + Count(k, dir)
        invariant !closed ==> forall k :: j.seen.Get(k) + Queued(k, queue) + CountFrom(k, dir, i)
                                          == old(j.seen).Get(k) + Queued(k, old(queue)) + Count(k, dir)
        invariant |queue| + Queued(KindDir, queue) + CountFrom(KindDir, dir, i)
                  <= |old(queue)| + Queued(KindDir, old(queue)) + Count(KindDir, dir)
      {
        ghost var before := queue;
        var k := Classify(dir[i]);
        j.seen := j.seen.Bump(k);
        if k == KindDir {
          j.wg := j.wg + 1;
          Submit(j, dir[i].below);
          forall c
            ensures Queued(c, before + [dir[i].below]) == Queued(c, before) + Inside(c, dir[i])
          {
            QueuedPush(c, before, dir[i].below);
          }
        }
        i := i + 1;
      }
      j.wg := j.wg - 1;
    }

    /** walk, with this goroutine also doing the workers' part while it waits. */
    method Walk(cancelled: bool, root: Listing) returns (r: WalkResult)
      requires queue == []
      modifies this`queue
      ensures queue == []
      ensures forall k :: r.seen.Get(k) <= Count(k, root)
      ensures r.err.None? && !closed ==> forall k :: r.seen.Get(k) == Count(k, root)
      ensures cancelled ==> r.err == Some(CtxErr)
    {
      var j := new WalkJob(cancelled);
      j.wg := j.wg + 1;
      Submit(j, root);
      forall k
        ensures Queued(k, [root]) == Count(k, root)
      {
        SumOne(ListingCount(k), root);
      }
      assert [] + [root] == [root];
      while queue != []
        invariant j.errs.Valid() && j.cancelled == cancelled && j.wg == |queue|
        invariant fresh(j) && fresh(j.errs)
        invariant forall k :: j.seen.Get(k) + Queued(k, queue) <= Count(k, root)
        invariant !closed && !cancelled && j.errs.total == 0 ==>
                    forall k :: j.seen.Get(k) + Queued(k, queue) == Count(k, root)
        decreases |queue| + Queued(KindDir, queue)
      {
        var dir := queue[0];
        queue := queue[1..];
        Process(j, dir);
      }
      assert j.wg == 0;
      r := WalkResult(j.seen, if j.cancelled then Some(CtxErr)
                              else if j.errs.total > 0 then Some(DirErrs(j.errs.total)) else None);
    }
  }
}
