/**
  The shared directory-walk pool as a transition system. One step is one atomic action of the
  source: a critical section, an atomic add, a WaitGroup operation, a readdir, a context check.
  Any number of walks run at once, workers interleave arbitrarily, contexts may be cancelled and
  the pool closed at any moment.
*/
module WalkPool {
  import opened Base
  import opened DirTree

  datatype Item = Item(dir: Listing, job: nat)

  datatype WalkErr = CtxErr | DirErrs(total: nat)

  datatype WalkResult = WalkResult(seen: Tally, err: Option<WalkErr>)

  /** Where the goroutine that called walk is. */
  datatype Caller =
    | Calling                       // wg.Add(1) done, about to submit the root
    | CallRefused                   // submit saw a closed pool, wg.Done still owed
    | Waiting
    | Returned(result: WalkResult)

  /** One walkJob. `skipped` is a history variable: what was dropped unread. */
  datatype Job = Job(root: Listing, wg: int, seen: Tally, errs: nat, cancelled: bool,
                     caller: Caller, skipped: Tally)

  /** Where a pool worker is in its loop; each place has one next action. */
  datatype Worker =
    | Idle                          // at the top of the loop
    | Asleep                        // in cond.Wait
    | Start(it: Item)               // took an item
    | Reading(it: Item)             // context checked, about to ReadDir
    | Scan(it: Item, i: nat)        // about to look at entry i
    | Counted(it: Item, i: nat)     // entry i is a directory, counted
    | Submitting(it: Item, i: nat)  // wg.Add(1) done for entry i
    | Refused(it: Item, i: nat)     // submit saw a closed pool, wg.Done owed for entry i
    | Finishing(it: Item)           // about to run the deferred wg.Done
    | Draining(rest: seq<Item>)     // took the whole queue after close
    | Exited

  datatype State = State(queue: seq<Item>, closed: bool, workers: seq<Worker>, jobs: seq<Job>)

  /** `ok` is whether a ReadDir made in this step succeeds; `wake` is whom a Signal wakes. */
  datatype Event =
    | Walk(root: Listing)
    | Cancel(j: nat)
    | Close
    | CallerStep(j: nat, wake: Option<nat>)
    | WorkerStep(w: nat, ok: bool, wake: Option<nat>)

  /** Steps of workers and callers, as opposed to those of the surroundings. */
  predicate Internal(ev: Event)
  {
    ev.CallerStep? || ev.WorkerStep?
  }

  predicate OnItem(wk: Worker)
  {
    !wk.Idle? && !wk.Asleep? && !wk.Draining? && !wk.Exited?
  }

  /** Entry indexes are in range, and only directories are submitted. */
  predicate PlaceOk(wk: Worker)
  {
    && (wk.Scan? ==> wk.i <= |wk.it.dir|)
    && (wk.Counted? || wk.Submitting? || wk.Refused? ==>
          wk.i < |wk.it.dir| && Classify(wk.it.dir[wk.i]) == KindDir)
  }

  predicate ValidWake(workers: seq<Worker>, wake: Option<nat>)
  {
    match wake
    case Some(i) => i < |workers| && workers[i].Asleep?
    case None => forall i :: 0 <= i < |workers| ==> !workers[i].Asleep?
  }

  predicate WorkerEnabled(s: State, w: nat, wake: Option<nat>)
  {
    && w < |s.workers|
    && var wk := s.workers[w];
       && !wk.Asleep? && !wk.Exited?
       && (OnItem(wk) ==> PlaceOk(wk) && wk.it.job < |s.jobs|)
       && (wk.Draining? && wk.rest != [] ==> wk.rest[0].job < |s.jobs|)
       && (wk.Submitting? && !s.closed ==> ValidWake(s.workers, wake))
  }

  predicate CallerEnabled(s: State, j: nat, wake: Option<nat>)
  {
    && j < |s.jobs|
    && var c := s.jobs[j].caller;
       && (c.Calling? && !s.closed ==> ValidWake(s.workers, wake))
       && (c.Waiting? ==> s.jobs[j].wg == 0)
       && !c.Returned?
  }

  predicate Enabled(s: State, ev: Event)
  {
    match ev
    case Walk(_) => true
    case Cancel(j) => j < |s.jobs|
    case Close => true
    case CallerStep(j, wake) => CallerEnabled(s, j, wake)
    case WorkerStep(w, _, wake) => WorkerEnabled(s, w, wake)
  }

  function Skip(job: Job, t: Tally): Job
  {
    job.(skipped := job.skipped.Plus(t))
  }

  /** What one action of a worker on an item does: its next place, its job, and any item it queues. */
  datatype Moved = Moved(wk: Worker, job: Job, push: Option<Item>)

  /** walkPool.process, one atomic action at a time. */
  function ProcessStep(wk: Worker, job: Job, closed: bool, ok: bool): Moved
    requires OnItem(wk) && PlaceOk(wk)
  {
    var it := wk.it;
    match wk
    case Start(_) =>
      if job.cancelled then Moved(Finishing(it), Skip(job, TallyFrom(it.dir, 0)), None)
      else Moved(Reading(it), job, None)
    case Reading(_) =>
      if ok then Moved(Scan(it, 0), job, None)
      else Moved(Finishing(it), Skip(job, TallyFrom(it.dir, 0)).(errs := job.errs + 1), None)
    case Scan(_, i) =>
      if i == |it.dir| then Moved(Finishing(it), job, None)
      else if job.cancelled then Moved(Finishing(it), Skip(job, TallyFrom(it.dir, i)), None)
      else
        var k := Classify(it.dir[i]);
        Moved(if k == KindDir then Counted(it, i) else Scan(it, i + 1),
              job.(seen := job.seen.Bump(k)), None)
    case Counted(_, i) => Moved(Submitting(it, i), job.(wg := job.wg + 1), None)
    case Submitting(_, i) =>
      var child := it.dir[i].below;
      if closed then Moved(Refused(it, i), Skip(job, TallyFrom(child, 0)), None)
      else Moved(Scan(it, i + 1), job, Some(Item(child, it.job)))
    case Refused(_, i) => Moved(Scan(it, i + 1), job.(wg := job.wg - 1), None)
    case Finishing(_) => Moved(Idle, job.(wg := job.wg - 1), None)
  }

  function Woken(workers: seq<Worker>, wake: Option<nat>): seq<Worker>
    requires wake.Some? ==> wake.value < |workers|
  {
    if wake.Some? then workers[wake.value := Idle] else workers
  }

  /** walkPool.submit's locked section on an open pool: append and Signal. */
  function Enqueue(s: State, it: Item, wake: Option<nat>): State
    requires wake.Some? ==> wake.value < |s.workers|
  {
    s.(queue := s.queue + [it], workers := Woken(s.workers, wake))
  }

  function SkipAll(jobs: seq<Job>, items: seq<Item>): seq<Job>
    decreases |items|
  {
    if items == [] then jobs
    else
      var it := items[0];
      SkipAll(if it.job < |jobs| then jobs[it.job := Skip(jobs[it.job], TallyFrom(it.dir, 0))] else jobs, items[1..])
  }

  /** walkPool.run outside process: sleep, take an item, or drain a closed pool. */
  function LoopStep(s: State, w: nat): State
    requires WorkerEnabled(s, w, None) && !OnItem(s.workers[w])
  {
    match s.workers[w]
    case Idle =>
      if s.closed then
        s.(workers := s.workers[w := Draining(s.queue)], queue := [], jobs := SkipAll(s.jobs, s.queue))
      else if s.queue == [] then s.(workers := s.workers[w := Asleep])
      else s.(workers := s.workers[w := Start(s.queue[0])], queue := s.queue[1..])
    case Draining(rest) =>
      if rest == [] then s.(workers := s.workers[w := Exited])
      else
        var j := rest[0].job;
        s.(workers := s.workers[w := Draining(rest[1..])],
           jobs := s.jobs[j := s.jobs[j].(wg := s.jobs[j].wg - 1)])
  }

  /** What walk reads and returns once wg.Wait lets it through. */
  function ResultOf(job: Job): WalkResult
  {
    WalkResult(job.seen,
               if job.cancelled then Some(CtxErr)
               else if job.errs > 0 then Some(DirErrs(job.errs))
               else None)
  }

  /** The pool after worker `w`, busy on an item, has made the move `m`. */
  function Land(s: State, w: nat, m: Moved, wake: Option<nat>): State
    requires w < |s.workers| && OnItem(s.workers[w]) && s.workers[w].it.job < |s.jobs|
    requires m.push.Some? && wake.Some? ==> wake.value < |s.workers|
  {
    var s1 := s.(workers := s.workers[w := m.wk], jobs := s.jobs[s.workers[w].it.job := m.job]);
    if m.push.Some? then Enqueue(s1, m.push.value, wake) else s1
  }

  function ApplyWorker(s: State, w: nat, ok: bool, wake: Option<nat>): State
    requires WorkerEnabled(s, w, wake)
  {
    if OnItem(s.workers[w]) then
      Land(s, w, ProcessStep(s.workers[w], s.jobs[s.workers[w].it.job], s.closed, ok), wake)
    else LoopStep(s, w)
  }

  function ApplyCaller(s: State, j: nat, wake: Option<nat>): State
    requires CallerEnabled(s, j, wake)
  {
    var job := s.jobs[j];
    match job.caller
    case Calling =>
      if s.closed then
        s.(jobs := s.jobs[j := Skip(job, TallyFrom(job.root, 0)).(caller := CallRefused)])
      else
        Enqueue(s.(jobs := s.jobs[j := job.(caller := Waiting)]), Item(job.root, j), wake)
    case CallRefused => s.(jobs := s.jobs[j := job.(wg := job.wg - 1, caller := Waiting)])
    case Waiting => s.(jobs := s.jobs[j := job.(caller := Returned(ResultOf(job)))])
  }

  /** Cancelling the backend context marks the pool closed and broadcasts. */
  function CloseAll(s: State): State
  {
    s.(closed := true,
       workers := seq(|s.workers|, i requires 0 <= i < |s.workers| =>
                        if s.workers[i].Asleep? then Idle else s.workers[i]))
  }

  function Apply(s: State, ev: Event): State
    requires Enabled(s, ev)
  {
    match ev
    case Walk(root) => s.(jobs := s.jobs + [Job(root, 1, ZERO, 0, false, Calling, ZERO)])
    case Cancel(j) => s.(jobs := s.jobs[j := s.jobs[j].(cancelled := true)])
    case Close => CloseAll(s)
    case CallerStep(j, wake) => ApplyCaller(s, j, wake)
    case WorkerStep(w, ok, wake) => ApplyWorker(s, w, ok, wake)
  }

  /** A fresh pool: newWalkPool starts DefaultWalkWorkers (4) when asked for none. */
  function Init(workers: int): State
  {
    State([], false, seq(if workers <= 0 then 4 else workers, _ => Idle), [])
  }

  /** The state after running `evs` from `s`, or None when some event is not possible. */
  function Exec(s: State, evs: seq<Event>): Option<State>
    decreases |evs|
  {
    if evs == [] then Some(s)
    else if Enabled(s, evs[0]) then Exec(Apply(s, evs[0]), evs[1..])
    else None
  }
}
