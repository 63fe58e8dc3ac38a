/** Whole runs of the stats registry: who is evicted, when, and where repeated passes lead. */
module RegistryHistory {
  import opened StatsRegistry

  datatype Event =
    | Track(spec: TrackSpec)
    | Untrack(id: string)
    | Update(id: string, measured: int)
    | Reconcile(desired: seq<TrackSpec>, evict: bool, grace: int)

  ghost function Apply(r: Reg, ev: Event): Reg
  {
    match ev
    case Track(d) => Tracked(r, d)
    case Untrack(id) => Untracked(r, id)
    case Update(id, m) => Updated(r, id, m)
    case Reconcile(ds, evict, grace) => Reconciled(r, ds, evict, grace)
  }

  /** The registry after the first `n` events of a run. */
  ghost function At(evs: seq<Event>, n: nat): Reg
    requires n <= |evs|
  {
    if n == 0 then EMPTY else Apply(At(evs, n - 1), evs[n - 1])
  }

  lemma ApplyKeepsValid(r: Reg, ev: Event)
    requires Valid(r)
    ensures Valid(Apply(r, ev))
  {
    if ev.Reconcile? {
      TrackedAllKeeps(r, ev.desired);
    }
  }

  /** In every run, a cached volume has a worker exactly when its access type is not block. */
  lemma {:induction false} WorkersMatchAccess(evs: seq<Event>, n: nat)
    requires n <= |evs|
    ensures Valid(At(evs, n))
  {
    if n > 0 {
      WorkersMatchAccess(evs, n - 1);
      ApplyKeepsValid(At(evs, n - 1), evs[n - 1]);
    }
  }

  // ----- Eviction -----

  ghost predicate Evicting(ev: Event)
  {
    ev.Reconcile? && ev.evict
  }

  /** Event `i` is an evicting pass that finds `id` cached and not desired. */
  ghost predicate MissingAt(evs: seq<Event>, i: nat, id: string)
    requires i < |evs|
  {
    Evicting(evs[i]) && Missing(At(evs, i), evs[i].desired, id)
  }

  ghost predicate EvictedAt(evs: seq<Event>, i: nat, id: string)
    requires i < |evs|
  {
    Evicting(evs[i]) && Evicts(At(evs, i), evs[i].desired, evs[i].grace, id)
  }

  /** Evicting passes among the events m..n. */
  ghost function Passes(evs: seq<Event>, m: nat, n: nat): nat
    requires m <= n <= |evs|
  {
    if m == n then 0 else Passes(evs, m, n - 1) + if Evicting(evs[n - 1]) then 1 else 0
  }

  /** Every evicting pass among the events m..n missed `id` and spared it. */
  ghost predicate Spared(evs: seq<Event>, m: nat, n: nat, id: string)
    requires m <= n <= |evs|
  {
    forall i :: m <= i < n && Evicting(evs[i]) ==> MissingAt(evs, i, id) && !EvictedAt(evs, i, id)
  }

  /** The grace counter is the length of the longest stretch of passes that missed and spared `id`. */
  lemma {:induction false} CounterIsStretch(evs: seq<Event>, n: nat, id: string) returns (m: nat)
    requires n <= |evs|
    ensures m <= n && Spared(evs, m, n, id) && Passes(evs, m, n) == CountOf(At(evs, n).absent, id)
    ensures forall k: nat :: k <= n && Spared(evs, k, n, id) ==> Passes(evs, k, n) <= CountOf(At(evs, n).absent, id)
  {
    hide TrackedAll, Wanted;
    m := n;
    if n > 0 {
      var r, ev := At(evs, n - 1), evs[n - 1];
      var m0 := CounterIsStretch(evs, n - 1, id);
      if ev.Reconcile? {
        TrackedAllKeeps(r, ev.desired);
      } else if ev.Track? {
        TrackedKeeps(r, ev.spec);
      }
      if !Evicting(ev) || (MissingAt(evs, n - 1, id) && !EvictedAt(evs, n - 1, id)) {
        m := m0;
      }
      forall k: nat | k <= n && Spared(evs, k, n, id)
        ensures Passes(evs, k, n) <= CountOf(At(evs, n).absent, id)
      {
        if k < n {
          assert Spared(evs, k, n - 1, id);
          assert Evicting(evs[n - 1]) ==> MissingAt(evs, n - 1, id) && !EvictedAt(evs, n - 1, id);
        }
      }
    }
  }

  /** An evicting pass with grace g evicts `id` exactly when it is at least the g-th consecutive
      evicting pass, since the last one that evicted it, to find it cached and not desired. */
  lemma EvictedExactlyAfterGrace(evs: seq<Event>, n: nat, id: string)
    requires n < |evs| && Evicting(evs[n])
    ensures EvictedAt(evs, n, id) <==>
              MissingAt(evs, n, id) && exists m: nat :: m <= n && Spared(evs, m, n, id)
                                                        && Passes(evs, m, n) + 1 >= Grace(evs[n].grace)
  {
    var m := CounterIsStretch(evs, n, id);
  }

  /** An add-only pass drops nothing. */
  lemma AddOnlyDropsNothing(r: Reg, ds: seq<TrackSpec>, grace: int)
    requires Valid(r)
    ensures Reconciled(r, ds, false, grace).cache.Keys == r.cache.Keys + Wanted(ds)
  {
    TrackedAllKeeps(r, ds);
  }

  /** No pass drops a cached volume that is desired, and an add-only pass drops none. */
  lemma PassKeepsWanted(r: Reg, ds: seq<TrackSpec>, evict: bool, grace: int, id: string)
    requires Valid(r) && id in r.cache && (evict ==> id in Wanted(ds))
    ensures id in Reconciled(r, ds, evict, grace).cache
    ensures Valid(Reconciled(r, ds, evict, grace))
  {
    hide TrackedAll, Wanted;
    TrackedAllKeeps(r, ds);
  }

  /** On an empty registry any pass tracks exactly what is desired. */
  lemma FreshPassTracksWanted(ds: seq<TrackSpec>, evict: bool, grace: int)
    ensures Reconciled(EMPTY, ds, evict, grace).cache.Keys == Wanted(ds)
  {
    hide TrackedAll, Wanted;
    TrackedAllKeeps(EMPTY, ds);
  }

  // ----- Convergence -----

  ghost function Repeated(r: Reg, ds: seq<TrackSpec>, grace: int, k: nat): Reg
  {
    if k == 0 then r else Reconciled(Repeated(r, ds, grace, k - 1), ds, true, grace)
  }

  lemma {:induction false} RepeatedPasses(r: Reg, ds: seq<TrackSpec>, grace: int, k: nat)
    requires Valid(r)
    ensures var q := Repeated(r, ds, grace, k);
            && Valid(q)
            && (k >= 1 ==> Wanted(ds) <= q.cache.Keys
                           && forall id :: id in q.cache && id !in Wanted(ds) ==>
                               k <= CountOf(q.absent, id) < Grace(grace))
  {
    hide TrackedAll, Wanted;
    if k > 0 {
      var p := Repeated(r, ds, grace, k - 1);
      RepeatedPasses(r, ds, grace, k - 1);
      TrackedAllKeeps(p, ds);
    }
  }

  /** From any valid registry, as many evicting passes as the grace, with the same desired set and
      nothing in between, leave exactly the desired volumes cached. */
  lemma GracePassesConverge(r: Reg, ds: seq<TrackSpec>, grace: int)
    requires Valid(r)
    ensures Repeated(r, ds, grace, Grace(grace)).cache.Keys == Wanted(ds)
  {
    RepeatedPasses(r, ds, grace, Grace(grace));
  }

  /** Counting the passes before its last eviction as well would be wrong: a volume tracked again
      after it was evicted starts over. */
  lemma RetrackedStartsOver()
    ensures var pass := Reconcile([], true, 2);
            var evs := [Track(TrackSpec("v", "/s", "mount")), pass, pass, Track(TrackSpec("v", "/s", "mount")), pass];
            && EvictedAt(evs, 2, "v")
            && MissingAt(evs, 1, "v") && MissingAt(evs, 2, "v") && MissingAt(evs, 4, "v")
            && !EvictedAt(evs, 4, "v")
  {
    var pass := Reconcile([], true, 2);
    var track := Track(TrackSpec("v", "/s", "mount"));
    var evs := [track, pass, pass, track, pass];
    NothingDesired();
    AtNext(evs, 0);
    AtNext(evs, 1);
    assert CountOf(At(evs, 2).absent, "v") == 1 && "v" in At(evs, 2).cache;
    AtNext(evs, 2);
    assert CountOf(At(evs, 3).absent, "v") == 0 && "v" !in At(evs, 3).vols;
    AtNext(evs, 3);
  }

  lemma AtNext(evs: seq<Event>, n: nat)
    requires n < |evs|
    ensures At(evs, n + 1) == Apply(At(evs, n), evs[n])
  {
  }

  lemma NothingDesired()
    ensures Wanted([]) == {} && forall r :: TrackedAll(r, []) == r
  {
  }
}
