/** The qnap stats reconciler: rehydrating the registry from the staged sessions of the host. */
module StatsSweep {
  import opened Base
  import opened Text
  import opened StagedSessions
  import opened StatsRegistry
  import H = RegistryHistory
  import Q = QnapIdentity

  const EVICT_GRACE_SWEEPS := 2

  /** What one sweep sees: the staged sessions (None when the host listing failed) and the SAN
      resolutions that would succeed. */
  datatype Input = Input(listing: Option<seq<Staged>>, san: map<Key, string>)

  type Memo = map<string, string>

  function MemoKey(iqn: string, lun: int): string
  {
    iqn + "/" + Itoa(lun)
  }

  /** Distinct sessions never share a memo entry, even for IQNs that contain slashes. */
  lemma MemoKeyInjective(a: Key, b: Key)
    requires MemoKey(a.0, a.1) == MemoKey(b.0, b.1)
    ensures a == b
  {
    ItoaFree(a.1, '/');
    ItoaFree(b.1, '/');
    CutLast(a.0, Itoa(a.1));
    CutLast(b.0, Itoa(b.1));
    ItoaInjective(a.1, b.1);
  }

  /** The external id of a session: the memo first, then the SAN. */
  function Resolve(memo: Memo, san: map<Key, string>, s: Staged): Option<string>
  {
    if MemoKey(s.iqn, s.lun) in memo then Some(memo[MemoKey(s.iqn, s.lun)])
    else if (s.iqn, s.lun) in san then Some(san[(s.iqn, s.lun)])
    else None
  }

  datatype Gathered = Gathered(memo: Memo, desired: seq<TrackSpec>, resolvedAll: bool)

  function Visit(g: Gathered, san: map<Key, string>, s: Staged): Gathered
  {
    match Resolve(g.memo, san, s)
    case None => g.(resolvedAll := false)
    case Some(id) =>
      g.(memo := g.memo[MemoKey(s.iqn, s.lun) := id], desired := g.desired + [TrackSpec(id, s.path, s.access)])
  }

  function Gather(memo: Memo, san: map<Key, string>, ss: seq<Staged>): Gathered
    decreases |ss|
  {
    if ss == [] then Gathered(memo, [], true) else Visit(Gather(memo, san, ss[..|ss| - 1]), san, ss[|ss| - 1])
  }

  datatype State = State(memo: Memo, reg: Reg)

  /** A sweep: nothing on a failed listing, and add-only unless every session was resolved. */
  ghost function Swept(st: State, input: Input): State
  {
    if input.listing.None? then st
    else
      var g := Gather(st.memo, input.san, input.listing.value);
      State(g.memo, Reconciled(st.reg, g.desired, g.resolvedAll, EVICT_GRACE_SWEEPS))
  }

  class StatsReconciler {
    const reg: Registry
    var resolved: Memo

    constructor (reg: Registry)
      ensures this.reg == reg && resolved == map[]
    {
      this.reg := reg;
      resolved := map[];
    }

    method Sweep(input: Input)
      modifies this, reg
      ensures resolved == Swept(old(State(resolved, reg.View())), input).memo
      ensures reg.View() == if reg.enabled then Swept(old(State(resolved, reg.View())), input).reg else old(reg.View())
    {
      hide MemoKey, Reconciled;
      if input.listing.None? {
        return;
      }
      var sessions := input.listing.value;
      var desired: seq<TrackSpec> := [];
      var resolvedAll := true;
      for n := 0 to |sessions|
        invariant Gather(old(resolved), input.san, sessions[..n]) == Gathered(resolved, desired, resolvedAll)
        invariant reg.View() == old(reg.View())
      {
        var s := sessions[n];
        assert sessions[..n + 1][..n] == sessions[..n];
        var key := MemoKey(s.iqn, s.lun);
        var extID := "";
        if key in resolved {
          extID := resolved[key];
          assert resolved == resolved[key := extID];
        } else if (s.iqn, s.lun) in input.san {
          extID := input.san[(s.iqn, s.lun)];
          resolved := resolved[key := extID];
        } else {
          resolvedAll := false;
          continue;
        }
        desired := desired + [TrackSpec(extID, s.path, s.access)];
      }
      assert sessions[..|sessions|] == sessions;
      var evicted := reg.Reconcile(desired, resolvedAll, EVICT_GRACE_SWEEPS);
    }
  }

  // ----- A staged volume stays -----

  /** Whenever the session `k` is resolved, from the memo or else by the SAN, the answer is `id`. */
  ghost predicate Stable(memo: Memo, san: map<Key, string>, k: Key, id: string)
  {
    if MemoKey(k.0, k.1) in memo then memo[MemoKey(k.0, k.1)] == id else (k in san ==> san[k] == id)
  }

  ghost predicate Listed(ss: seq<Staged>, k: Key)
  {
    exists i :: 0 <= i < |ss| && (ss[i].iqn, ss[i].lun) == k
  }

  lemma {:induction false} GatherKeeps(memo: Memo, san: map<Key, string>, ss: seq<Staged>, k: Key, id: string)
    requires Stable(memo, san, k, id)
    ensures var g := Gather(memo, san, ss);
            && Stable(g.memo, san, k, id)
            && (MemoKey(k.0, k.1) in memo ==> MemoKey(k.0, k.1) in g.memo)
            && (Listed(ss, k) && g.resolvedAll ==> exists i :: 0 <= i < |g.desired| && g.desired[i].id == id)
    decreases |ss|
  {
    hide MemoKey;
    if ss != [] {
      var init, s := ss[..|ss| - 1], ss[|ss| - 1];
      GatherKeeps(memo, san, init, k, id);
      var g0, g := Gather(memo, san, init), Gather(memo, san, ss);
      if MemoKey(s.iqn, s.lun) == MemoKey(k.0, k.1) {
        MemoKeyInjective((s.iqn, s.lun), k);
      }
      if Listed(ss, k) && g.resolvedAll {
        if Listed(init, k) {
          var i :| 0 <= i < |g0.desired| && g0.desired[i].id == id;
          assert g.desired[i].id == id;
        } else {
          assert (s.iqn, s.lun) == k;
          assert g.desired[|g0.desired|].id == id;
        }
      }
    }
  }

  /** Everything that can happen between two looks at the registry, short of untracking `id` or an
      evicting pass from elsewhere. */
  datatype Event = Sweep(input: Input) | Other(ev: H.Event)

  ghost predicate Harmless(ev: Event, k: Key, id: string)
  {
    match ev
    case Sweep(input) => input.listing.Some? ==> Listed(input.listing.value, k)
    case Other(e) => e != H.Untrack(id) && !H.Evicting(e)
  }

  /** A SAN that knows the session knows it by this id. */
  ghost predicate SanAgrees(ev: Event, k: Key, id: string)
  {
    ev.Sweep? && k in ev.input.san ==> ev.input.san[k] == id
  }

  ghost predicate Memoised(st: State, k: Key)
  {
    MemoKey(k.0, k.1) in st.memo
  }

  ghost function Apply(st: State, ev: Event): State
  {
    match ev
    case Sweep(input) => Swept(st, input)
    case Other(e) => st.(reg := H.Apply(st.reg, e))
  }

  ghost function Run(st: State, evs: seq<Event>): State
    decreases |evs|
  {
    if evs == [] then st else Run(Apply(st, evs[0]), evs[1..])
  }

  ghost predicate Holding(st: State, k: Key, id: string)
  {
    && Valid(st.reg)
    && id in st.reg.cache
    && (MemoKey(k.0, k.1) in st.memo ==> st.memo[MemoKey(k.0, k.1)] == id)
  }

  lemma SweepKeepsListed(st: State, input: Input, k: Key, id: string)
    requires id != "" && Holding(st, k, id) && Harmless(Sweep(input), k, id)
    requires Memoised(st, k) || SanAgrees(Sweep(input), k, id)
    ensures Holding(Swept(st, input), k, id) && (Memoised(st, k) ==> Memoised(Swept(st, input), k))
  {
    hide TrackedAll, MemoKey, Reconciled, Gather;
    if input.listing.Some? {
      var g := Gather(st.memo, input.san, input.listing.value);
      GatherKeeps(st.memo, input.san, input.listing.value, k, id);
      if g.resolvedAll {
        var i :| 0 <= i < |g.desired| && g.desired[i].id == id;
        assert g.desired[i] in g.desired;
      }
      H.PassKeepsWanted(st.reg, g.desired, g.resolvedAll, EVICT_GRACE_SWEEPS, id);
    }
  }

  lemma OtherKeepsListed(st: State, e: H.Event, k: Key, id: string)
    requires Holding(st, k, id) && Harmless(Other(e), k, id)
    ensures Holding(Apply(st, Other(e)), k, id) && (Memoised(st, k) ==> Memoised(Apply(st, Other(e)), k))
  {
    H.ApplyKeepsValid(st.reg, e);
    match e
    case Track(d) => TrackedKeeps(st.reg, d);
    case Reconcile(ds, _, _) => TrackedAllKeeps(st.reg, ds);
    case _ =>
  }

  /** A tracked volume whose session appears in every successful host listing is never evicted,
      whatever listings and SAN resolutions fail and whatever else is tracked in between. Once the
      session was resolved to it the SAN may say what it likes; before, it must not name another. */
  lemma {:induction false} ListedVolumeStaysTracked(st: State, evs: seq<Event>, k: Key, id: string)
    requires id != "" && Holding(st, k, id)
    requires forall i :: 0 <= i < |evs| ==> Harmless(evs[i], k, id)
    requires Memoised(st, k) || forall i :: 0 <= i < |evs| ==> SanAgrees(evs[i], k, id)
    ensures id in Run(st, evs).reg.cache
    decreases |evs|
  {
    if evs != [] {
      assert Harmless(evs[0], k, id) && (Memoised(st, k) || SanAgrees(evs[0], k, id));
      match evs[0] {
        case Sweep(input) => SweepKeepsListed(st, input, k, id);
        case Other(e) => OtherKeepsListed(st, e, k, id);
      }
      ListedVolumeStaysTracked(Apply(st, evs[0]), evs[1..], k, id);
    }
  }

  // ----- Rehydration -----

  ghost predicate AllResolve(memo: Memo, san: map<Key, string>, ss: seq<Staged>)
  {
    forall i :: 0 <= i < |ss| ==> Resolve(memo, san, ss[i]).Some? && Resolve(memo, san, ss[i]).value != ""
  }

  lemma {:induction false} GatherResolves(memo: Memo, san: map<Key, string>, ss: seq<Staged>)
    requires AllResolve(memo, san, ss)
    ensures var g := Gather(memo, san, ss);
            && g.resolvedAll && |g.desired| == |ss|
            && (forall i :: 0 <= i < |ss| ==> g.desired[i] == TrackSpec(Resolve(memo, san, ss[i]).value, ss[i].path,
                                                                        ss[i].access))
            && (forall s :: Resolve(g.memo, san, s) == Resolve(memo, san, s))
    decreases |ss|
  {
    hide MemoKey;
    if ss != [] {
      var init, s := ss[..|ss| - 1], ss[|ss| - 1];
      GatherResolves(memo, san, init);
      var g0 := Gather(memo, san, init);
      forall u
        ensures Resolve(Gather(memo, san, ss).memo, san, u) == Resolve(memo, san, u)
      {
        if MemoKey(u.iqn, u.lun) == MemoKey(s.iqn, s.lun) {
          MemoKeyInjective((u.iqn, u.lun), (s.iqn, s.lun));
        }
      }
    }
  }

  /** From an empty registry, one fully resolved sweep tracks exactly the staged sessions. */
  lemma SweepRehydrates(memo: Memo, input: Input)
    requires input.listing.Some? && AllResolve(memo, input.san, input.listing.value)
    ensures Swept(State(memo, EMPTY), input).reg.cache.Keys
         == set i | 0 <= i < |input.listing.value| :: Resolve(memo, input.san, input.listing.value[i]).value
  {
    hide TrackedAll, Gather, Resolve, Reconciled, Wanted;
    var ss := input.listing.value;
    GatherResolves(memo, input.san, ss);
    var g := Gather(memo, input.san, ss);
    H.FreshPassTracksWanted(g.desired, g.resolvedAll, EVICT_GRACE_SWEEPS);
    WantedIds(g.desired);
  }

  lemma WantedIds(ds: seq<TrackSpec>)
    requires forall i :: 0 <= i < |ds| ==> ds[i].id != ""
    ensures Wanted(ds) == set i | 0 <= i < |ds| :: ds[i].id
  {
    forall i | 0 <= i < |ds|
      ensures ds[i].id in Wanted(ds)
    {
      assert ds[i] in ds;
    }
  }

  /** The volumes the listed sessions resolve to. */
  ghost function Resolutions(memo: Memo, input: Input): set<string>
    requires input.listing.Some? && AllResolve(memo, input.san, input.listing.value)
  {
    set i | 0 <= i < |input.listing.value| :: Resolve(memo, input.san, input.listing.value[i]).value
  }

  /** From any valid registry, two like sweeps that resolve every session leave exactly the volumes
      they resolve to: a tracked volume stays if and only if some session is resolved to it. */
  lemma TwoSweepsConverge(st: State, input: Input)
    requires Valid(st.reg) && input.listing.Some? && AllResolve(st.memo, input.san, input.listing.value)
    ensures Swept(Swept(st, input), input).reg.cache.Keys == Resolutions(st.memo, input)
  {
    hide TrackedAll, Gather, Resolve, Reconciled, Wanted;
    var ss := input.listing.value;
    GatherResolves(st.memo, input.san, ss);
    var g := Gather(st.memo, input.san, ss);
    assert AllResolve(g.memo, input.san, ss);
    GatherResolves(g.memo, input.san, ss);
    var again := Gather(g.memo, input.san, ss);
    assert again.desired == g.desired;
    H.GracePassesConverge(st.reg, g.desired, EVICT_GRACE_SWEEPS);
    TwoPasses(st.reg, g.desired);
    WantedIds(g.desired);
  }

  lemma TwoPasses(r: Reg, ds: seq<TrackSpec>)
    ensures H.Repeated(r, ds, EVICT_GRACE_SWEEPS, Grace(EVICT_GRACE_SWEEPS))
         == Reconciled(Reconciled(r, ds, true, EVICT_GRACE_SWEEPS), ds, true, EVICT_GRACE_SWEEPS)
  {
    hide Reconciled;
    assert H.Repeated(r, ds, EVICT_GRACE_SWEEPS, 0) == r;
  }

  // ----- Where the resolutions come from -----

  /** What the SAN identity cache, filled from a listing, resolves of these sessions. */
  function SanOf(l: Q.Listing, keys: set<Key>): map<Key, string>
  {
    map k | k in keys && Q.IdOf(Q.Hydrated(l), k.0, k.1).Some? :: Q.IdOf(Q.Hydrated(l), k.0, k.1).value
  }

  /** A sweep resolves a staged volume's session to the very id the volume was created, and so tracked,
      under if and only if its target lists its LUN at the session's number and the alias tells an
      owned target from a shared one as the creation did. */
  lemma SweepResolvesStagedIdExactly(l: Q.Listing, lun: Q.LunRow, t: Q.TargetRow, own: bool, n: int, keys: set<Key>)
    requires Q.Tidy(l) && Q.Served(l, lun, t) && t.iqn != "" && Q.AllEncodable(l) && (t.iqn, n) in keys
    ensures (t.iqn, n) in SanOf(l, keys) && SanOf(l, keys)[(t.iqn, n)] == Q.CreatedId(lun, t, own) <==>
            Q.LunAt(t, n) == Some(lun.index) && (own <==> t.alias == lun.name)
  {
    hide Q.IdOf, Q.Hydrated, Q.CreatedId;
    Q.CreatedIdIsRebuiltExactly(l, lun, t, own, n);
  }
}
