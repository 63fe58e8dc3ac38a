/**
  What every step of the walk pool keeps: the WaitGroup of a job is exactly the number of its
  outstanding items, and counted + pending + skipped is the recursive count of its tree.
*/
module WalkInvariant {
  import opened Base
  import opened Sums
  import opened DirTree
  import opened WalkPool

  // ----- Shape -----

  ghost predicate ItemsOk(jobs: nat, items: seq<Item>)
  {
    forall i :: 0 <= i < |items| ==> items[i].job < jobs
  }

  ghost predicate WorkerOk(jobs: nat, wk: Worker)
  {
    && (OnItem(wk) ==> wk.it.job < jobs && PlaceOk(wk))
    && (wk.Draining? ==> ItemsOk(jobs, wk.rest))
  }

  ghost predicate WorkersOk(s: State)
  {
    forall w :: 0 <= w < |s.workers| ==> WorkerOk(|s.jobs|, s.workers[w])
  }

  ghost predicate Awake(wk: Worker)
  {
    !wk.Asleep?
  }

  /** No lost wake-up: a queued item always has a worker that is not asleep to find it. */
  ghost predicate NoLostWakeup(s: State)
  {
    && |s.workers| >= 1
    && (s.queue != [] ==> exists w :: 0 <= w < |s.workers| && Awake(s.workers[w]))
    && (s.closed ==> forall w :: 0 <= w < |s.workers| ==> Awake(s.workers[w]))
  }

  /** Once a worker drains, the queue is empty for good. */
  ghost predicate DrainedQueue(s: State)
  {
    forall w :: 0 <= w < |s.workers| && (s.workers[w].Draining? || s.workers[w].Exited?) ==>
      s.closed && s.queue == []
  }

  ghost predicate Shape(s: State)
  {
    ItemsOk(|s.jobs|, s.queue) && WorkersOk(s) && NoLostWakeup(s) && DrainedQueue(s)
  }

  lemma SkipAllKeeps(jobs: seq<Job>, items: seq<Item>)
    ensures |SkipAll(jobs, items)| == |jobs|
    decreases |items|
  {
    if items != [] {
      var it := items[0];
      SkipAllKeeps(if it.job < |jobs| then jobs[it.job := Skip(jobs[it.job], TallyFrom(it.dir, 0))]
                   else jobs, items[1..]);
    }
  }

  lemma StepSizes(s: State, ev: Event)
    requires Enabled(s, ev)
    ensures |Apply(s, ev).workers| == |s.workers|
    ensures |Apply(s, ev).jobs| == |s.jobs| + if ev.Walk? then 1 else 0
    ensures s.closed ==> Apply(s, ev).closed
  {
    SkipAllKeeps(s.jobs, s.queue);
  }

  lemma StepItems(s: State, ev: Event)
    requires ItemsOk(|s.jobs|, s.queue) && WorkersOk(s) && Enabled(s, ev)
    ensures ItemsOk(|Apply(s, ev).jobs|, Apply(s, ev).queue)
    ensures WorkersOk(Apply(s, ev))
  {
    StepSizes(s, ev);
  }

  lemma StepWakeup(s: State, ev: Event)
    requires NoLostWakeup(s) && Enabled(s, ev)
    ensures NoLostWakeup(Apply(s, ev))
  {
    StepSizes(s, ev);
    var s' := Apply(s, ev);
    match ev
    case CallerStep(j, wake) =>
      if s.jobs[j].caller.Calling? && !s.closed {
        var w: nat := if wake.Some? then wake.value else 0;
        assert Awake(s'.workers[w]);
      }
    case WorkerStep(w, _, _) =>
      assert s'.queue != [] ==> Awake(s'.workers[w]);
    case Close =>
      assert Awake(s'.workers[0]);
    case _ =>
  }

  lemma StepDrained(s: State, ev: Event)
    requires DrainedQueue(s) && Enabled(s, ev)
    ensures DrainedQueue(Apply(s, ev))
  {
    StepSizes(s, ev);
  }

  lemma StepShape(s: State, ev: Event)
    requires Shape(s) && Enabled(s, ev)
    ensures Shape(Apply(s, ev))
  {
    StepItems(s, ev);
    StepWakeup(s, ev);
    StepDrained(s, ev);
  }

  // ----- What is outstanding -----

  /** The sum of a weight over the queue and of another over the workers. */
  ghost function Held(fi: Item -> nat, fw: Worker -> nat, s: State): nat
  {
    SumBy(fi, s.queue) + SumBy(fw, s.workers)
  }

  ghost function WakeGain(fw: Worker -> nat, wake: Option<nat>): int
  {
    if wake.Some? then fw(Idle) - fw(Asleep) else 0
  }

  lemma HeldEnqueue(fi: Item -> nat, fw: Worker -> nat, s: State, it: Item, wake: Option<nat>)
    requires wake.Some? ==> wake.value < |s.workers| && s.workers[wake.value].Asleep?
    ensures Held(fi, fw, Enqueue(s, it, wake)) == Held(fi, fw, s) + fi(it) + WakeGain(fw, wake)
  {
    SumAppend(fi, s.queue, [it]);
    SumOne(fi, it);
    if wake.Some? {
      SumUpdate(fw, s.workers, wake.value, Idle);
    }
  }

  /** A move changes what is held only by the worker's own place and the item it queues. */
  lemma HeldLand(fi: Item -> nat, fw: Worker -> nat, s: State, w: nat, m: Moved, wake: Option<nat>)
    requires w < |s.workers| && OnItem(s.workers[w]) && s.workers[w].it.job < |s.jobs|
    requires m.push.Some? && wake.Some? ==> wake.value < |s.workers| && s.workers[wake.value].Asleep?
    ensures Held(fi, fw, Land(s, w, m, wake)) == Held(fi, fw, s) - fw(s.workers[w]) + fw(m.wk)
              + (if m.push.Some? then fi(m.push.value) + WakeGain(fw, wake) else 0)
  {
    var s1 := s.(workers := s.workers[w := m.wk], jobs := s.jobs[s.workers[w].it.job := m.job]);
    SumUpdate(fw, s.workers, w, m.wk);
    if m.push.Some? {
      HeldEnqueue(fi, fw, s1, m.push.value, wake);
    }
  }

  lemma HeldLoop(fi: Item -> nat, fw: Worker -> nat, s: State, w: nat)
    requires WorkerEnabled(s, w, None) && !OnItem(s.workers[w])
    ensures var s' := LoopStep(s, w);
            && |s'.workers| == |s.workers|
            && Held(fi, fw, s') == Held(fi, fw, s) - fw(s.workers[w]) + fw(s'.workers[w])
                 + SumBy(fi, s'.queue) - SumBy(fi, s.queue)
  {
    SumUpdate(fw, s.workers, w, LoopStep(s, w).workers[w]);
  }

  lemma HeldClose(fi: Item -> nat, fw: Worker -> nat, s: State)
    requires fw(Idle) == fw(Asleep)
    ensures Held(fi, fw, CloseAll(s)) == Held(fi, fw, s)
  {
    SumSame(fw, s.workers, CloseAll(s).workers);
  }

  lemma {:induction false} SumSame(fw: Worker -> nat, xs: seq<Worker>, ys: seq<Worker>)
    requires |xs| == |ys| && forall i :: 0 <= i < |xs| ==> fw(xs[i]) == fw(ys[i])
    ensures SumBy(fw, xs) == SumBy(fw, ys)
  {
    if xs != [] {
      SumSame(fw, xs[1..], ys[1..]);
    }
  }

  // ----- The WaitGroup counts exactly what is outstanding -----

  ghost function ItemTokens(j: nat): Item -> nat
  {
    (it: Item) => if it.job == j then 1 else 0
  }

  ghost function WorkerTokens(j: nat): Worker -> nat
  {
    (wk: Worker) =>
      if wk.Draining? then SumBy(ItemTokens(j), wk.rest)
      else if !OnItem(wk) || wk.it.job != j then 0
      else if wk.Submitting? || wk.Refused? then 2
      else 1
  }

  ghost function CallerTokens(c: Caller): nat
  {
    if c.Calling? || c.CallRefused? then 1 else 0
  }

  /** Items of job `j` queued, being processed, about to be submitted or about to be released. */
  ghost function Tokens(s: State, j: nat): nat
    requires j < |s.jobs|
  {
    Held(ItemTokens(j), WorkerTokens(j), s) + CallerTokens(s.jobs[j].caller)
  }

  // ----- Counted, pending and skipped -----

  ghost function ItemPending(k: Kind, j: nat): Item -> nat
  {
    (it: Item) => if it.job == j then CountFrom(k, it.dir, 0) else 0
  }

  /** Entries of kind `k` that a worker at this place still has to look at or hand on. */
  ghost function PlacePending(k: Kind, wk: Worker): nat
    requires OnItem(wk) && PlaceOk(wk)
  {
    match wk
    case Start(it) => CountFrom(k, it.dir, 0)
    case Reading(it) => CountFrom(k, it.dir, 0)
    case Scan(it, i) => CountFrom(k, it.dir, i)
    case Counted(it, i) => Inside(k, it.dir[i]) + CountFrom(k, it.dir, i + 1)
    case Submitting(it, i) => Inside(k, it.dir[i]) + CountFrom(k, it.dir, i + 1)
    case Refused(it, i) => CountFrom(k, it.dir, i + 1)
    case Finishing(it) => 0
  }

  ghost function WorkerPending(k: Kind, j: nat): Worker -> nat
  {
    (wk: Worker) => if OnItem(wk) && PlaceOk(wk) && wk.it.job == j then PlacePending(k, wk) else 0
  }

  ghost function CallerPending(k: Kind, job: Job): nat
  {
    if job.caller.Calling? then Count(k, job.root) else 0
  }

  /** Entries of kind `k` of job `j` that are still to be looked at. */
  ghost function Pending(s: State, j: nat, k: Kind): nat
    requires j < |s.jobs|
  {
    Held(ItemPending(k, j), WorkerPending(k, j), s) + CallerPending(k, s.jobs[j])
  }

  lemma SkipAllJob(jobs: seq<Job>, items: seq<Item>, j: nat, k: Kind)
    requires j < |jobs|
    ensures |SkipAll(jobs, items)| == |jobs|
    ensures var a, b := jobs[j], SkipAll(jobs, items)[j];
            && b == a.(skipped := b.skipped)
            && b.skipped.Get(k) == a.skipped.Get(k) + SumBy(ItemPending(k, j), items)
    decreases |items|
  {
    SkipAllKeeps(jobs, items);
    if items != [] {
      var it := items[0];
      SkipAllJob(if it.job < |jobs| then jobs[it.job := Skip(jobs[it.job], TallyFrom(it.dir, 0))] else jobs,
                 items[1..], j, k);
    }
  }

  // ----- The invariant -----

  /** Counted + skipped + pending is the recursive count of the job's tree. */
  ghost predicate TallyHolds(s: State, j: nat, k: Kind)
    requires j < |s.jobs|
  {
    s.jobs[j].seen.Get(k) + s.jobs[j].skipped.Get(k) + Pending(s, j, k) == Count(k, s.jobs[j].root)
  }

  ghost predicate Balanced(s: State, j: nat)
    requires j < |s.jobs|
  {
    var job := s.jobs[j];
    && job.wg == Tokens(s, j)
    && (forall k :: TallyHolds(s, j, k))
    && (!s.closed && !job.cancelled && job.errs == 0 ==> job.skipped == ZERO)
    && (job.caller.Returned? ==>
          && job.wg == 0
          && job.caller.result.seen == job.seen
          && (job.caller.result.err.None? && !s.closed ==> job.skipped == ZERO))
  }

  ghost predicate Inv(s: State)
  {
    Shape(s) && forall j :: 0 <= j < |s.jobs| ==> Balanced(s, j)
  }

  // ----- One local step -----

  ghost predicate Lands(wk: Worker, job: Job, closed: bool, m: Moved)
    requires OnItem(wk)
  {
    && (m.push.Some? ==> m.push.value.job == wk.it.job && wk.Submitting? && !closed)
    && (OnItem(m.wk) ==> m.wk.it == wk.it && PlaceOk(m.wk))
    && !m.wk.Draining?
    && m.job == job.(wg := m.job.wg, seen := m.job.seen, errs := m.job.errs, skipped := m.job.skipped)
    && m.job.wg == job.wg + WorkerTokens(wk.it.job)(m.wk) + (if m.push.Some? then 1 else 0)
                     - WorkerTokens(wk.it.job)(wk)
    && m.job.errs >= job.errs
    && (m.job.skipped == job.skipped || closed || job.cancelled || m.job.errs > 0)
  }

  /** What a process step does to its job, and to the tokens it holds for it. */
  lemma ProcessLands(wk: Worker, job: Job, closed: bool, ok: bool)
    requires OnItem(wk) && PlaceOk(wk)
    ensures Lands(wk, job, closed, ProcessStep(wk, job, closed, ok))
  {
  }

  lemma TallyGet(t: Tally, u: Tally, l: Listing, i: nat, c: Kind, k: Kind)
    ensures TallyFrom(l, i).Get(k) == CountFrom(k, l, i)
    ensures t.Plus(u).Get(k) == t.Get(k) + u.Get(k)
    ensures t.Bump(c).Get(k) == t.Get(k) + if c == k then 1 else 0
  {
  }

  ghost predicate Moves(wk: Worker, job: Job, m: Moved, k: Kind)
    requires OnItem(wk) && PlaceOk(wk)
    requires OnItem(m.wk) ==> PlaceOk(m.wk)
  {
    m.job.seen.Get(k) + m.job.skipped.Get(k) + (if OnItem(m.wk) then PlacePending(k, m.wk) else 0)
      + (if m.push.Some? then CountFrom(k, m.push.value.dir, 0) else 0)
    == job.seen.Get(k) + job.skipped.Get(k) + PlacePending(k, wk)
  }

  lemma LookMoves(it: Item, i: nat, job: Job, closed: bool, ok: bool, k: Kind)
    requires i <= |it.dir|
    ensures Moves(Scan(it, i), job, ProcessStep(Scan(it, i), job, closed, ok), k)
  {
    if i < |it.dir| {
      TallyGet(job.skipped, TallyFrom(it.dir, i), it.dir, i, KindFile, k);
      TallyGet(job.seen, ZERO, it.dir, i, Classify(it.dir[i]), k);
    }
  }

  lemma SubmitMoves(it: Item, i: nat, job: Job, closed: bool, ok: bool, k: Kind)
    requires PlaceOk(Submitting(it, i))
    ensures Moves(Submitting(it, i), job, ProcessStep(Submitting(it, i), job, closed, ok), k)
  {
    TallyGet(job.skipped, TallyFrom(it.dir[i].below, 0), it.dir[i].below, 0, KindFile, k);
  }

  lemma OtherMoves(wk: Worker, job: Job, closed: bool, ok: bool, k: Kind)
    requires OnItem(wk) && PlaceOk(wk) && !wk.Scan? && !wk.Submitting?
    ensures Moves(wk, job, ProcessStep(wk, job, closed, ok), k)
  {
    TallyGet(job.skipped, TallyFrom(wk.it.dir, 0), wk.it.dir, 0, KindFile, k);
  }

  /** A process step moves entries between counted, skipped and pending, and loses none. */
  lemma ProcessMoves(wk: Worker, job: Job, closed: bool, ok: bool, k: Kind)
    requires OnItem(wk) && PlaceOk(wk)
    ensures var m := ProcessStep(wk, job, closed, ok); (OnItem(m.wk) ==> PlaceOk(m.wk)) && Moves(wk, job, m, k)
  {
    if wk.Scan? {
      LookMoves(wk.it, wk.i, job, closed, ok, k);
    } else if wk.Submitting? {
      SubmitMoves(wk.it, wk.i, job, closed, ok, k);
    } else {
      OtherMoves(wk, job, closed, ok, k);
    }
  }

  // ----- One global step -----

  lemma NothingHeld(s: State, j: nat, k: Kind)
    requires ItemsOk(|s.jobs|, s.queue) && WorkersOk(s) && |s.jobs| <= j
    ensures Held(ItemTokens(j), WorkerTokens(j), s) == 0
    ensures Held(ItemPending(k, j), WorkerPending(k, j), s) == 0
  {
    SumZero(ItemTokens(j), s.queue);
    SumZero(ItemPending(k, j), s.queue);
    forall w | 0 <= w < |s.workers|
      ensures WorkerTokens(j)(s.workers[w]) == 0
    {
      if s.workers[w].Draining? {
        SumZero(ItemTokens(j), s.workers[w].rest);
      }
    }
    SumZero(WorkerTokens(j), s.workers);
    SumZero(WorkerPending(k, j), s.workers);
  }

  lemma LandTally(s: State, w: nat, m: Moved, wake: Option<nat>, j: nat, k: Kind)
    requires WorkerEnabled(s, w, wake) && OnItem(s.workers[w]) && j < |s.jobs| && TallyHolds(s, j, k)
    requires Lands(s.workers[w], s.jobs[s.workers[w].it.job], s.closed, m)
    requires Moves(s.workers[w], s.jobs[s.workers[w].it.job], m, k)
    ensures TallyHolds(Land(s, w, m, wake), j, k)
  {
    hide CountFrom, SumBy, Land, Held, Lands, PlacePending, WorkersOk;
    LandJobs(s, w, m, wake);
    HeldLand(ItemPending(k, j), WorkerPending(k, j), s, w, m, wake);
    LandWeights(s.workers[w], s.jobs[s.workers[w].it.job], s.closed, m, j, k);
  }

  lemma LandJobs(s: State, w: nat, m: Moved, wake: Option<nat>)
    requires WorkerEnabled(s, w, wake) && OnItem(s.workers[w])
    requires Lands(s.workers[w], s.jobs[s.workers[w].it.job], s.closed, m)
    ensures m.push.Some? && wake.Some? ==> wake.value < |s.workers| && s.workers[wake.value].Asleep?
    ensures Land(s, w, m, wake).jobs == s.jobs[s.workers[w].it.job := m.job]
  {
  }

  /** What a move weighs for its own job and for any other; the caller and the root stay. */
  lemma LandWeights(wk: Worker, job: Job, closed: bool, m: Moved, j: nat, k: Kind)
    requires OnItem(wk) && PlaceOk(wk) && Lands(wk, job, closed, m)
    ensures wk.it.job == j ==>
              && WorkerPending(k, j)(wk) == PlacePending(k, wk)
              && WorkerPending(k, j)(m.wk) == (if OnItem(m.wk) then PlacePending(k, m.wk) else 0)
              && (m.push.Some? ==> ItemPending(k, j)(m.push.value) == CountFrom(k, m.push.value.dir, 0))
    ensures forall wake :: WakeGain(WorkerPending(k, j), wake) == 0
    ensures wk.it.job != j ==>
              && WorkerPending(k, j)(wk) == 0 == WorkerPending(k, j)(m.wk)
              && (m.push.Some? ==> ItemPending(k, j)(m.push.value) == 0)
    ensures m.job.root == job.root && CallerPending(k, m.job) == CallerPending(k, job)
  {
    hide CountFrom, PlacePending;
  }

  /** A move that balances its own job balances every job. */
  lemma LandKeeps(s: State, w: nat, m: Moved, wake: Option<nat>, j: nat)
    requires Inv(s) && WorkerEnabled(s, w, wake) && OnItem(s.workers[w]) && j < |s.jobs|
    requires Lands(s.workers[w], s.jobs[s.workers[w].it.job], s.closed, m)
    requires forall k :: Moves(s.workers[w], s.jobs[s.workers[w].it.job], m, k)
    ensures Balanced(Land(s, w, m, wake), j)
  {
    hide CountFrom, TallyHolds, Moves, SumBy, Shape;
    assert Balanced(s, j);
    HeldLand(ItemTokens(j), WorkerTokens(j), s, w, m, wake);
    SumAtLeast(WorkerTokens(j), s.workers, w);
    forall k
      ensures TallyHolds(Land(s, w, m, wake), j, k)
    {
      LandTally(s, w, m, wake, j, k);
    }
  }

  lemma ProcessKeeps(s: State, w: nat, ok: bool, wake: Option<nat>, j: nat)
    requires Inv(s) && WorkerEnabled(s, w, wake) && OnItem(s.workers[w]) && j < |s.jobs|
    ensures var s' := ApplyWorker(s, w, ok, wake); j < |s'.jobs| && Balanced(s', j)
  {
    var wk := s.workers[w];
    var job := s.jobs[wk.it.job];
    ProcessLands(wk, job, s.closed, ok);
    forall k
      ensures Moves(wk, job, ProcessStep(wk, job, s.closed, ok), k)
    {
      ProcessMoves(wk, job, s.closed, ok, k);
    }
    LandKeeps(s, w, ProcessStep(wk, job, s.closed, ok), wake, j);
  }

  lemma LoopTally(s: State, w: nat, j: nat, k: Kind)
    requires WorkerEnabled(s, w, None) && !OnItem(s.workers[w]) && j < |s.jobs| && TallyHolds(s, j, k)
    ensures var s' := LoopStep(s, w); j < |s'.jobs| && TallyHolds(s', j, k)
  {
    hide CountFrom, TallyFrom, SkipAll;
    SkipAllJob(s.jobs, s.queue, j, k);
    HeldLoop(ItemPending(k, j), WorkerPending(k, j), s, w);
  }

  lemma LoopKeeps(s: State, w: nat, j: nat)
    requires Inv(s) && WorkerEnabled(s, w, None) && !OnItem(s.workers[w]) && j < |s.jobs|
    ensures var s' := LoopStep(s, w); j < |s'.jobs| && Balanced(s', j)
  {
    hide CountFrom, TallyFrom, SkipAll, TallyHolds;
    assert Balanced(s, j);
    SkipAllJob(s.jobs, s.queue, j, KindFile);
    HeldLoop(ItemTokens(j), WorkerTokens(j), s, w);
    if s.jobs[j].caller.Returned? {
      SumAtLeast(WorkerTokens(j), s.workers, w);
    }
    forall k
      ensures TallyHolds(LoopStep(s, w), j, k)
    {
      LoopTally(s, w, j, k);
    }
  }

  lemma CallerKeeps(s: State, i: nat, wake: Option<nat>, j: nat)
    requires Inv(s) && CallerEnabled(s, i, wake) && j < |s.jobs|
    ensures var s' := ApplyCaller(s, i, wake); j < |s'.jobs| && Balanced(s', j)
  {
    var s' := ApplyCaller(s, i, wake);
    assert Balanced(s, j);
    var submits := s.jobs[i].caller.Calling? && !s.closed;
    var s1 := s.(jobs := s.jobs[i := s.jobs[i].(caller := Waiting)]);
    if submits {
      HeldEnqueue(ItemTokens(j), WorkerTokens(j), s1, Item(s.jobs[i].root, i), wake);
    }
    forall k
      ensures TallyHolds(s', j, k)
    {
      assert TallyHolds(s, j, k);
      if submits {
        HeldEnqueue(ItemPending(k, j), WorkerPending(k, j), s1, Item(s.jobs[i].root, i), wake);
      }
    }
  }

  lemma OutsideKeeps(s: State, ev: Event, j: nat)
    requires Inv(s) && Enabled(s, ev) && !Internal(ev) && j < |Apply(s, ev).jobs|
    ensures Balanced(Apply(s, ev), j)
  {
    if j < |s.jobs| {
      assert Balanced(s, j);
    }
    forall k
      ensures TallyHolds(Apply(s, ev), j, k)
    {
      if j == |s.jobs| {
        NothingHeld(s, j, k);
      } else {
        assert TallyHolds(s, j, k);
      }
      HeldClose(ItemPending(k, j), WorkerPending(k, j), s);
    }
    if j == |s.jobs| {
      NothingHeld(s, j, KindFile);
    }
    HeldClose(ItemTokens(j), WorkerTokens(j), s);
  }

  /** Every step keeps the invariant. */
  lemma StepKeeps(s: State, ev: Event)
    requires Inv(s) && Enabled(s, ev)
    ensures Inv(Apply(s, ev))
  {
    StepShape(s, ev);
    StepSizes(s, ev);
    forall j | 0 <= j < |Apply(s, ev).jobs|
      ensures Balanced(Apply(s, ev), j)
    {
      match ev
      case CallerStep(i, wake) => CallerKeeps(s, i, wake, j);
      case WorkerStep(w, ok, wake) =>
        if OnItem(s.workers[w]) {
          ProcessKeeps(s, w, ok, wake, j);
        } else {
          LoopKeeps(s, w, j);
        }
      case _ => OutsideKeeps(s, ev, j);
    }
  }

  lemma {:induction false} RunKeeps(s: State, evs: seq<Event>)
    requires Inv(s) && Exec(s, evs).Some?
    ensures Inv(Exec(s, evs).value)
    decreases |evs|
  {
    if evs != [] {
      StepKeeps(s, evs[0]);
      RunKeeps(Apply(s, evs[0]), evs[1..]);
    }
  }

  lemma InitInv(workers: int)
    ensures Inv(Init(workers))
  {
  }
}
