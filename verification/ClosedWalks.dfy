/** The other half of the walk pool's count: a walk whose root is submitted to a closed pool. */
module ClosedWalks {
  import opened Base
  import opened DirTree
  import opened WalkPool
  import opened WalkInvariant
  import opened WalkTheorems

  ghost predicate NoItemOf(items: seq<Item>, j: nat)
  {
    forall i :: 0 <= i < |items| ==> items[i].job != j
  }

  ghost predicate NotOn(wk: Worker, j: nat)
  {
    (OnItem(wk) ==> wk.it.job != j) && (wk.Draining? ==> NoItemOf(wk.rest, j))
  }

  /** Nothing of walk `j` was ever queued, and nothing of it was counted. */
  ghost predicate Untouched(s: State, j: nat)
  {
    && j < |s.jobs| && s.jobs[j].seen == ZERO && s.jobs[j].errs == 0
    && NoItemOf(s.queue, j)
    && (forall w :: 0 <= w < |s.workers| ==> NotOn(s.workers[w], j))
    && (s.jobs[j].caller.Returned? ==> s.jobs[j].caller.result.seen == ZERO
                                       && (s.jobs[j].caller.result.err.Some? ==>
                                           s.jobs[j].caller.result.err.value.CtxErr?))
  }

  /** What a worker step changes of walk `j`: nothing it is not on but the count of owed releases. */
  lemma WorkerJob(s: State, w: nat, ok: bool, wake: Option<nat>, j: nat)
    requires WorkerEnabled(s, w, wake) && j < |s.jobs|
    ensures var s' := ApplyWorker(s, w, ok, wake);
            && j < |s'.jobs| && s'.jobs[j].caller == s.jobs[j].caller && s'.jobs[j].root == s.jobs[j].root
            && (NotOn(s.workers[w], j) ==> s'.jobs[j].seen == s.jobs[j].seen && s'.jobs[j].errs == s.jobs[j].errs)
  {
    hide ProcessStep, TallyFrom, SkipAll;
    SkipAllJob(s.jobs, s.queue, j, KindFile);
    if OnItem(s.workers[w]) {
      ProcessLands(s.workers[w], s.jobs[s.workers[w].it.job], s.closed, ok);
    }
  }

  lemma WorkerItems(s: State, w: nat, ok: bool, wake: Option<nat>, j: nat)
    requires WorkerEnabled(s, w, wake) && NoItemOf(s.queue, j)
    requires forall v :: 0 <= v < |s.workers| ==> NotOn(s.workers[v], j)
    ensures var s' := ApplyWorker(s, w, ok, wake);
            NoItemOf(s'.queue, j) && forall v :: 0 <= v < |s'.workers| ==> NotOn(s'.workers[v], j)
  {
    hide ProcessStep, TallyFrom, SkipAll;
    assert NotOn(s.workers[w], j);
    if OnItem(s.workers[w]) {
      ProcessLands(s.workers[w], s.jobs[s.workers[w].it.job], s.closed, ok);
    }
  }

  /** Only a submit to an open pool by the walk itself ends that. */
  lemma StepLeavesUntouched(s: State, ev: Event, j: nat)
    requires Enabled(s, ev) && Untouched(s, j)
    requires ev.CallerStep? && ev.j == j && s.jobs[j].caller.Calling? ==> s.closed
    ensures Untouched(Apply(s, ev), j)
  {
    hide ApplyWorker, TallyFrom;
    if ev.WorkerStep? {
      WorkerJob(s, ev.w, ev.ok, ev.wake, j);
      WorkerItems(s, ev.w, ev.ok, ev.wake, j);
    }
  }

  ghost predicate CallingUntouched(s: State)
  {
    forall j :: 0 <= j < |s.jobs| && s.jobs[j].caller.Calling? ==> Untouched(s, j)
  }

  lemma NewJobUntouched(s: State, root: Listing)
    requires Shape(s)
    ensures Untouched(Apply(s, Walk(root)), |s.jobs|)
  {
  }

  lemma StepKeepsCalling(s: State, ev: Event)
    requires Shape(s) && Enabled(s, ev) && CallingUntouched(s)
    ensures CallingUntouched(Apply(s, ev))
  {
    hide Untouched;
    StepSizes(s, ev);
    var s' := Apply(s, ev);
    forall j | 0 <= j < |s'.jobs| && s'.jobs[j].caller.Calling?
      ensures Untouched(s', j)
    {
      if j == |s.jobs| {
        NewJobUntouched(s, ev.root);
      } else {
        CallingBefore(s, ev, j);
        StepLeavesUntouched(s, ev, j);
      }
    }
  }

  lemma CallingBefore(s: State, ev: Event, j: nat)
    requires Enabled(s, ev) && j < |s.jobs| && j < |Apply(s, ev).jobs| && Apply(s, ev).jobs[j].caller.Calling?
    ensures s.jobs[j].caller.Calling? && !(ev.CallerStep? && ev.j == j)
  {
    hide ApplyWorker, TallyFrom;
    if ev.WorkerStep? {
      WorkerJob(s, ev.w, ev.ok, ev.wake, j);
    }
  }

  lemma {:induction false} RunKeepsCalling(s: State, evs: seq<Event>)
    requires Inv(s) && CallingUntouched(s) && Exec(s, evs).Some?
    ensures CallingUntouched(Exec(s, evs).value)
    decreases |evs|
  {
    hide CallingUntouched, Inv, Apply;
    if evs != [] {
      StepKeepsCalling(s, evs[0]) by {
        assert Shape(s) by {
          ShapeOf(s);
        }
      }
      StepKeeps(s, evs[0]);
      RunKeepsCalling(Apply(s, evs[0]), evs[1..]);
    }
  }

  lemma ShapeOf(s: State)
    requires Inv(s)
    ensures Shape(s)
  {
  }

  lemma {:induction false} RunLeavesUntouched(s: State, evs: seq<Event>, j: nat)
    requires j < |s.jobs| && Untouched(s, j) && s.closed && Exec(s, evs).Some?
    ensures j < |Exec(s, evs).value.jobs| && Untouched(Exec(s, evs).value, j)
        && Exec(s, evs).value.jobs[j].root == s.jobs[j].root
    decreases |evs|
  {
    hide Untouched;
    if evs != [] {
      StepLeavesUntouched(s, evs[0], j);
      StepSizes(s, evs[0]);
      SameRoot(s, evs[0], j);
      RunLeavesUntouched(Apply(s, evs[0]), evs[1..], j);
    }
  }

  lemma SameRoot(s: State, ev: Event, j: nat)
    requires Enabled(s, ev) && j < |s.jobs|
    ensures j < |Apply(s, ev).jobs| && Apply(s, ev).jobs[j].root == s.jobs[j].root
  {
    hide ApplyWorker, TallyFrom;
    if ev.WorkerStep? {
      WorkerJob(s, ev.w, ev.ok, ev.wake, j);
    }
  }

  /** A tree has no entry of any kind exactly when its root lists nothing. */
  lemma EmptyTree(root: Listing)
    ensures (forall k :: Count(k, root) == 0) <==> root == []
  {
    if root != [] {
      assert Count(Classify(root[0]), root) >= 1;
    }
  }

  /** A walk whose root is submitted to a closed pool, in any run and whatever happens after:
      it reports nothing and no directory error, so without a cancellation it is exact if and
      only if its tree is empty. */
  lemma ClosedPoolCountsNothing(workers: int, evs: seq<Event>, s: State, j: nat, more: seq<Event>, s': State)
    requires Reached(workers, evs, s) && s.closed && j < |s.jobs| && s.jobs[j].caller.Calling?
    requires Exec(s, more) == Some(s') && j < |s'.jobs| && s'.jobs[j].caller.Returned?
    ensures var r := s'.jobs[j].caller.result;
            && r.seen == ZERO && (r.err.Some? ==> r.err.value.CtxErr?)
            && ((forall k :: r.seen.Get(k) == Count(k, s.jobs[j].root)) <==> s.jobs[j].root == [])
  {
    hide Inv, Exec;
    InitInv(workers);
    RunKeepsCalling(Init(workers), evs);
    RunLeavesUntouched(s, more, j);
    EmptyTree(s.jobs[j].root);
    assert forall k :: ZERO.Get(k) == 0;
  }
}
