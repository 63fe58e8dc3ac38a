/**
  What the walk pool promises over whole runs: exact counts, no early return, and a clean drain,
  for every number of workers and every interleaving of any number of walks.
*/
module WalkTheorems {
  import opened Base
  import opened Sums
  import opened DirTree
  import opened WalkPool
  import opened WalkInvariant

  ghost predicate Reached(workers: int, evs: seq<Event>, s: State)
  {
    Exec(Init(workers), evs) == Some(s)
  }

  lemma ReachedInv(workers: int, evs: seq<Event>, s: State)
    requires Reached(workers, evs, s)
    ensures Inv(s)
  {
    InitInv(workers);
    RunKeeps(Init(workers), evs);
  }

  /** A job without outstanding items has nothing left to look at. */
  lemma NoTokensNothingPending(s: State, j: nat, k: Kind)
    requires j < |s.jobs| && Tokens(s, j) == 0
    ensures Pending(s, j, k) == 0
  {
    forall i | 0 <= i < |s.queue|
      ensures ItemPending(k, j)(s.queue[i]) == 0
    {
      SumAtLeast(ItemTokens(j), s.queue, i);
    }
    forall w | 0 <= w < |s.workers|
      ensures WorkerPending(k, j)(s.workers[w]) == 0
    {
      SumAtLeast(WorkerTokens(j), s.workers, w);
    }
    SumZero(ItemPending(k, j), s.queue);
    SumZero(WorkerPending(k, j), s.workers);
  }

  /** The WaitGroup of a job is its number of outstanding items: never negative, and zero, so
      that the waiting caller may go on, exactly when nothing of the walk is left anywhere. */
  lemma WaitGroupIsOutstanding(workers: int, evs: seq<Event>, s: State, j: nat)
    requires Reached(workers, evs, s) && j < |s.jobs|
    ensures s.jobs[j].wg == Tokens(s, j) >= 0
    ensures s.jobs[j].caller.Waiting? ==> (Enabled(s, CallerStep(j, None)) <==> Tokens(s, j) == 0)
  {
    ReachedInv(workers, evs, s);
    assert Balanced(s, j);
  }

  /** Counts never exceed the tree, and a walk that returned no error on an open pool reports
      exactly the recursive counts of its own tree. */
  lemma WalkReportsItsTree(workers: int, evs: seq<Event>, s: State, j: nat, k: Kind)
    requires Reached(workers, evs, s) && j < |s.jobs| && s.jobs[j].caller.Returned?
    ensures var r := s.jobs[j].caller.result;
            && r.seen.Get(k) + s.jobs[j].skipped.Get(k) == Count(k, s.jobs[j].root)
            && (r.err.None? && !s.closed ==> r.seen.Get(k) == Count(k, s.jobs[j].root))
  {
    ReachedInv(workers, evs, s);
    assert Balanced(s, j) && TallyHolds(s, j, k);
    NoTokensNothingPending(s, j, k);
  }

  /** Once a walk has nothing outstanding, no later step changes its counters, so the separate
      loads after wg.Wait read one consistent value. */
  lemma SettledStays(s: State, ev: Event, j: nat)
    requires Inv(s) && Enabled(s, ev) && j < |s.jobs| && Tokens(s, j) == 0
    ensures var s' := Apply(s, ev);
            && j < |s'.jobs|
            && s'.jobs[j].seen == s.jobs[j].seen
            && s'.jobs[j].errs == s.jobs[j].errs
            && s'.jobs[j].wg == 0 == Tokens(s', j)
  {
    StepSizes(s, ev);
    StepKeeps(s, ev);
    assert Balanced(s, j) && Balanced(Apply(s, ev), j);
    if ev.WorkerStep? {
      SumAtLeast(WorkerTokens(j), s.workers, ev.w);
      SkipAllJob(s.jobs, s.queue, j, KindFile);
      assert s.workers[ev.w].Draining? && s.workers[ev.w].rest != [] ==> s.workers[ev.w].rest[0].job != j;
    }
  }

  /** Without the open pool the exactness claim fails: a closed pool lets a walk return no error
      and no counts, whatever its tree holds. */
  lemma ClosedPoolUndercounts()
    ensures exists evs, s :: Reached(1, evs, s) && |s.jobs| == 1 && s.jobs[0].caller.Returned?
                             && s.jobs[0].caller.result == WalkResult(ZERO, None)
                             && Count(KindFile, s.jobs[0].root) == 1
  {
    hide CountFrom, TallyFrom;
    var root := ONE_FILE;
    var step := CallerStep(0, None);
    var s0 := Apply(Init(1), Walk(root));
    var s1 := Apply(s0, Close);
    var s2 := Apply(s1, step);
    var s3 := Apply(s2, step);
    var s4 := Apply(s3, step);
    Chain(s3, [], step);
    Chain(s2, [step], step);
    Chain(s1, [step, step], step);
    Chain(s0, [step, step, step], Close);
    Chain(Init(1), [Close, step, step, step], Walk(root));
    assert Reached(1, [Walk(root)] + [Close, step, step, step], s4);
    OneFileCount();
  }

  const ONE_FILE: Listing := [DirEntry(Some(ModeRegular), None, [])]

  lemma OneFileCount()
    ensures Count(KindFile, ONE_FILE) == 1
  {
    assert CountFrom(KindFile, ONE_FILE, 1) == 0;
  }

  lemma Chain(s: State, evs: seq<Event>, ev: Event)
    requires Enabled(s, ev)
    ensures Exec(s, [ev] + evs) == Exec(Apply(s, ev), evs)
  {
    hide Apply, Enabled;
    assert ([ev] + evs)[1..] == evs;
  }

  // ----- Draining -----

  /** Steps a worker takes over a listing from entry `i`, including those of all items below. */
  ghost function Effort(l: Listing, i: nat): nat
    decreases l, |l| - i
  {
    if i >= |l| then 0
    else if Classify(l[i]) == KindDir then 9 + Effort(l[i].below, 0) + Effort(l, i + 1)
    else 1 + Effort(l, i + 1)
  }

  ghost function ItemEffort(): Item -> nat
  {
    (it: Item) => 5 + Effort(it.dir, 0)
  }

  ghost function PlaceEffort(wk: Worker): nat
    requires OnItem(wk) && PlaceOk(wk)
  {
    match wk
    case Start(it) => 4 + Effort(it.dir, 0)
    case Reading(it) => 3 + Effort(it.dir, 0)
    case Scan(it, i) => 2 + Effort(it.dir, i)
    case Counted(it, i) => 2 + Effort(it.dir, i + 1) + 8 + Effort(it.dir[i].below, 0)
    case Submitting(it, i) => 2 + Effort(it.dir, i + 1) + 7 + Effort(it.dir[i].below, 0)
    case Refused(it, i) => 2 + Effort(it.dir, i + 1) + 1
    case Finishing(it) => 1
  }

  ghost function WorkerEffort(): Worker -> nat
  {
    (wk: Worker) =>
      match wk
      case Idle => 3
      case Asleep => 2
      case Exited => 0
      case Draining(rest) => 1 + SumBy(ItemEffort(), rest)
      case _ => if PlaceOk(wk) then 3 + PlaceEffort(wk) else 3
  }

  ghost function CallerEffort(): Job -> nat
  {
    (job: Job) =>
      match job.caller
      case Calling => 8 + Effort(job.root, 0)
      case CallRefused => 2
      case Waiting => 1
      case Returned(_) => 0
  }

  /** A bound on the worker and caller steps still to come. */
  ghost function Work(s: State): nat
  {
    Held(ItemEffort(), WorkerEffort(), s) + SumBy(CallerEffort(), s.jobs)
  }

  lemma ProcessEffort(wk: Worker, job: Job, closed: bool, ok: bool)
    requires OnItem(wk) && PlaceOk(wk)
    ensures var m := ProcessStep(wk, job, closed, ok);
            WorkerEffort()(m.wk) + (if m.push.Some? then ItemEffort()(m.push.value) + 1 else 0) < WorkerEffort()(wk)
  {
    if wk.Scan? && wk.i < |wk.it.dir| {
      assert Effort(wk.it.dir, wk.i) >= 1;
    }
  }

  lemma {:induction false} SkipAllEffort(jobs: seq<Job>, items: seq<Item>)
    ensures SumBy(CallerEffort(), SkipAll(jobs, items)) == SumBy(CallerEffort(), jobs)
    decreases |items|
  {
    if items != [] {
      var it := items[0];
      if it.job < |jobs| {
        SumUpdate(CallerEffort(), jobs, it.job, Skip(jobs[it.job], TallyFrom(it.dir, 0)));
        SkipAllEffort(jobs[it.job := Skip(jobs[it.job], TallyFrom(it.dir, 0))], items[1..]);
      } else {
        SkipAllEffort(jobs, items[1..]);
      }
    }
  }

  lemma ProcessLowers(s: State, w: nat, ok: bool, wake: Option<nat>)
    requires Shape(s) && WorkerEnabled(s, w, wake) && OnItem(s.workers[w])
    ensures Work(ApplyWorker(s, w, ok, wake)) < Work(s)
  {
    var wk := s.workers[w];
    var job := s.jobs[wk.it.job];
    var m := ProcessStep(wk, job, s.closed, ok);
    ProcessLands(wk, job, s.closed, ok);
    ProcessEffort(wk, job, s.closed, ok);
    HeldLand(ItemEffort(), WorkerEffort(), s, w, m, wake);
    SumUpdate(CallerEffort(), s.jobs, wk.it.job, m.job);
  }

  lemma LoopLowers(s: State, w: nat)
    requires Shape(s) && WorkerEnabled(s, w, None) && !OnItem(s.workers[w])
    ensures Work(LoopStep(s, w)) < Work(s)
  {
    HeldLoop(ItemEffort(), WorkerEffort(), s, w);
    match s.workers[w]
    case Idle => SkipAllEffort(s.jobs, s.queue);
    case Draining(rest) =>
      if rest != [] {
        SumUpdate(CallerEffort(), s.jobs, rest[0].job, LoopStep(s, w).jobs[rest[0].job]);
      }
  }

  lemma CallerLowers(s: State, j: nat, wake: Option<nat>)
    requires CallerEnabled(s, j, wake)
    ensures Work(ApplyCaller(s, j, wake)) < Work(s)
  {
    var s' := ApplyCaller(s, j, wake);
    SumUpdate(CallerEffort(), s.jobs, j, s'.jobs[j]);
    if s.jobs[j].caller.Calling? && !s.closed {
      var s1 := s.(jobs := s.jobs[j := s.jobs[j].(caller := Waiting)]);
      HeldEnqueue(ItemEffort(), WorkerEffort(), s1, Item(s.jobs[j].root, j), wake);
    }
  }

  /** Every worker and caller step lowers the work left. */
  lemma StepLowersWork(s: State, ev: Event)
    requires Inv(s) && Enabled(s, ev) && Internal(ev)
    ensures Work(Apply(s, ev)) < Work(s)
  {
    match ev
    case CallerStep(j, wake) => CallerLowers(s, j, wake);
    case WorkerStep(w, ok, wake) =>
      if OnItem(s.workers[w]) {
        ProcessLowers(s, w, ok, wake);
      } else {
        LoopLowers(s, w);
      }
  }

  ghost predicate AllInternal(evs: seq<Event>)
  {
    forall i :: 0 <= i < |evs| ==> Internal(evs[i])
  }

  lemma {:induction false} RunIsBounded(s: State, evs: seq<Event>)
    requires Inv(s) && AllInternal(evs) && Exec(s, evs).Some?
    ensures Inv(Exec(s, evs).value)
    ensures |evs| + Work(Exec(s, evs).value) <= Work(s)
    decreases |evs|
  {
    if evs != [] {
      assert Internal(evs[0]);
      StepKeeps(s, evs[0]);
      StepLowersWork(s, evs[0]);
      assert forall i :: 0 <= i < |evs[1..]| ==> evs[1..][i] == evs[i + 1];
      RunIsBounded(Apply(s, evs[0]), evs[1..]);
    }
  }

  /** Somebody can be woken, or nobody needs to be. */
  lemma SomeWake(workers: seq<Worker>) returns (wake: Option<nat>)
    ensures ValidWake(workers, wake)
  {
    if i :| 0 <= i < |workers| && workers[i].Asleep? {
      wake := Some(i);
    } else {
      wake := None;
    }
  }

  ghost predicate Quiet(wk: Worker)
  {
    wk.Asleep? || wk.Exited?
  }

  /** With every worker asleep or gone and no item queued, only callers hold tokens. */
  lemma QuietHoldsNothing(s: State, j: nat)
    requires s.queue == [] && forall w :: 0 <= w < |s.workers| ==> Quiet(s.workers[w])
    ensures Held(ItemTokens(j), WorkerTokens(j), s) == 0
  {
    forall w | 0 <= w < |s.workers|
      ensures WorkerTokens(j)(s.workers[w]) == 0
    {
      assert Quiet(s.workers[w]);
    }
    SumZero(WorkerTokens(j), s.workers);
  }

  /** No deadlock: while a walk has not returned, some worker or caller can take a step. */
  lemma SomeStepEnabled(s: State, j: nat) returns (ev: Event)
    requires Inv(s) && j < |s.jobs| && !s.jobs[j].caller.Returned?
    ensures Internal(ev) && Enabled(s, ev)
  {
    var wake := SomeWake(s.workers);
    if w :| 0 <= w < |s.workers| && !Quiet(s.workers[w]) {
      assert WorkerOk(|s.jobs|, s.workers[w]);
      ev := WorkerStep(w, true, wake);
    } else {
      assert Balanced(s, j);
      QuietHoldsNothing(s, j);
      ev := CallerStep(j, wake);
    }
  }

  /** In a closed pool a worker that has not exited can take a step. */
  lemma ClosedWorkersExit(s: State)
    requires Inv(s) && s.closed && forall ev :: Internal(ev) ==> !Enabled(s, ev)
    ensures forall w :: 0 <= w < |s.workers| ==> s.workers[w].Exited?
  {
    forall w | 0 <= w < |s.workers|
      ensures s.workers[w].Exited?
    {
      assert Awake(s.workers[w]) && WorkerOk(|s.jobs|, s.workers[w]);
      assert !Enabled(s, WorkerStep(w, true, None));
    }
  }

  /** From every reachable state, whatever was closed or cancelled before, worker and caller steps
      come to an end within `Work` steps; where none is left, every walk has returned, its
      WaitGroup is at zero, the queue is empty, and after a close every worker has exited. */
  lemma EveryRunDrains(workers: int, before: seq<Event>, s: State, evs: seq<Event>, s': State)
    requires Reached(workers, before, s)
    requires AllInternal(evs) && Exec(s, evs) == Some(s')
    ensures |evs| <= Work(s)
    ensures (forall ev :: Internal(ev) ==> !Enabled(s', ev)) ==>
              && s'.queue == []
              && (forall j :: 0 <= j < |s'.jobs| ==> s'.jobs[j].caller.Returned? && s'.jobs[j].wg == 0)
              && (s'.closed ==> forall w :: 0 <= w < |s'.workers| ==> s'.workers[w].Exited?)
  {
    ReachedInv(workers, before, s);
    RunIsBounded(s, evs);
    if forall ev :: Internal(ev) ==> !Enabled(s', ev) {
      forall j | 0 <= j < |s'.jobs|
        ensures s'.jobs[j].caller.Returned? && s'.jobs[j].wg == 0
      {
        assert Balanced(s', j);
        if !s'.jobs[j].caller.Returned? {
          var ev := SomeStepEnabled(s', j);
        }
      }
      if s'.closed {
        ClosedWorkersExit(s');
      }
      if s'.queue != [] {
        var j := s'.queue[0].job;
        assert Balanced(s', j);
        SumAtLeast(ItemTokens(j), s'.queue, 0);
      }
    }
  }
}
