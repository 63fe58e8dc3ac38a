/** What every run of local operations keeps, with any ZFS command failing at any point. */
module LocalRuns {
  import opened Text
  import opened LocalId
  import opened Zfs
  import opened LocalOps

  // ----- The state invariant -----

  ghost predicate GoodVol(ds: string, v: Vol)
  {
    '@' !in ds && v.size > 0 && v.block > 0
  }

  /** A snapshot is filed under its own dataset's name, and that dataset lives. */
  ghost predicate GoodSnap(vols: map<string, Vol>, full: string, s: Snap)
  {
    && s.dataset in vols && s.size > 0
    && '@' in full && full[..IndexOf(full, '@')] == s.dataset
    && (IndexOf(full, '@') < |full| ==> '@' !in full[IndexOf(full, '@') + 1..])
  }

  ghost predicate Inv(z: Z)
  {
    && (forall ds :: ds in z.vols ==> GoodVol(ds, z.vols[ds]))
    && (forall full :: full in z.snaps ==> GoodSnap(z.vols, full, z.snaps[full]))
  }

  ghost predicate SnapshotOf(z: Z, full: string, ds: string)
  {
    full in z.snaps && z.snaps[full].dataset == ds
  }

  // ----- What one operation may do -----

  ghost predicate NoLess(v: Vol, w: Vol)
  {
    v.size <= w.size && v.block == w.block && v.source == w.source
  }

  /** Every volume is still there, no smaller, made from the same source. */
  ghost predicate Grows(z: Z, z': Z)
  {
    forall ds :: ds in z.vols ==> ds in z'.vols && NoLess(z.vols[ds], z'.vols[ds])
  }

  /** A volume that lives on is no smaller and keeps its source; one with a snapshot lives on. */
  ghost predicate Kept(z: Z, z': Z)
  {
    && (forall ds :: ds in z.vols && ds in z'.vols ==> NoLess(z.vols[ds], z'.vols[ds]))
    && (forall full :: full in z.snaps ==> z.snaps[full].dataset in z'.vols)
  }

  /** Every old snapshot is still there, unchanged, and the new ones are among `extra`. */
  ghost predicate SnapsWithin(z: Z, z': Z, extra: set<string>)
  {
    && (forall full :: full in z.snaps ==> full in z'.snaps && z'.snaps[full] == z.snaps[full])
    && (forall full :: full in z'.snaps && full !in z.snaps ==> full in extra)
  }

  /** No volume but `ds` came, went or changed. */
  ghost predicate OnlyTouches(z: Z, z': Z, ds: string)
  {
    forall d :: d != ds ==> (d in z'.vols <==> d in z.vols) && (d in z.vols ==> z'.vols[d] == z.vols[d])
  }

  // ----- Commands -----

  ghost predicate Like(z: Z, e: Z)
  {
    z == e.(faults := z.faults)
  }

  lemma ChangeIs(z: Z, allowed: bool, effect: Z)
    requires effect.faults == z.faults
    ensures var (z', ok) := Change(z, allowed, effect);
            || (Like(z', z) && !ok)
            || (Like(z', effect) && allowed)
  {
  }

  lemma FullNameParts(ds: string, name: string)
    requires '@' !in ds
    ensures var full := FullName(ds, name);
            '@' in full && IndexOf(full, '@') == |ds| && full[..|ds|] == ds && full[|ds| + 1..] == name
  {
    IndexOfAfter(ds, '@', name);
    assert FullName(ds, name)[|ds|] == '@';
  }

  lemma RoundUpBounds(size: int, block: int)
    requires block > 0
    ensures size <= RoundUp(size, block) < size + block
  {
    var q := (size + block - 1) / block;
    assert (size + block - 1) == q * block + (size + block - 1) % block;
  }

  lemma CreateZvolKeeps(z: Z, ds: string, size: int, block: int)
    requires Inv(z)
    ensures var (z', ok) := CreateZvolDo(z, ds, size, block);
            && Inv(z') && Grows(z, z') && z'.snaps == z.snaps
            && (ok ==> ds !in z.vols && ds in z'.vols && z'.vols[ds] == Vol(RoundUp(size, block), block, "")
                       && size <= RoundUp(size, block))
  {
    if size > 0 && block > 0 {
      RoundUpBounds(size, block);
      var v := Vol(RoundUp(size, block), block, "");
      ChangeIs(z, !HasDataset(z, ds) && '@' !in ds && Room(z, ds, v.size), WithVol(z, ds, v));
    }
  }

  lemma SnapshotKeeps(z: Z, ds: string, name: string)
    requires Inv(z)
    ensures var (z', ok) := SnapshotDo(z, ds, name);
            && Inv(z') && z'.vols == z.vols && SnapsWithin(z, z', {FullName(ds, name)})
            && (ok ==> ds in z.vols && FullName(ds, name) !in z.snaps && SnapshotOf(z', FullName(ds, name), ds)
                       && z'.snaps[FullName(ds, name)].size == z.vols[ds].size && '@' !in name)
  {
    if ds in z.vols {
      FullNameParts(ds, name);
      ChangeIs(z, FullName(ds, name) !in z.snaps && '@' !in name,
               z.(snaps := z.snaps[FullName(ds, name) := Snap(ds, z.vols[ds].size, z.clock)]));
    }
  }

  lemma DestroySnapshotKeeps(z: Z, full: string)
    requires Inv(z) && '@' in full
    ensures var (z', ok) := DestroyDo(z, full);
            && Inv(z') && z'.vols == z.vols && SnapsWithin(z', z, {full})
            && (z.faults == [] && full in z.snaps ==> ok)
            && (ok ==> full !in z'.snaps)
  {
    ChangeIs(z, true, z.(snaps := z.snaps - {full}));
    assert full !in z.vols;
  }

  lemma DestroyZvolTouches(z: Z, ds: string)
    requires ds !in z.snaps
    ensures var (z', ok) := DestroyDo(z, ds);
            && OnlyTouches(z, z', ds) && z'.snaps == z.snaps
            && (ds in z'.vols ==> ds in z.vols && z'.vols[ds] == z.vols[ds])
            && (ds in z.vols && ds !in z'.vols ==> SnapshotsUnder(z, ds) == {})
            && (ok && ds in z.vols ==> ds !in z'.vols)
  {
    hide SnapshotsUnder, PoolOf;
  }

  /** Destroying a zvol: refused while it has a snapshot, so no snapshot is ever left behind. */
  lemma DestroyZvolKeeps(z: Z, ds: string)
    requires Inv(z)
    ensures var (z', ok) := DestroyDo(z, ds);
            && Inv(z') && Kept(z, z') && OnlyTouches(z, z', ds)
            && (forall d :: d in z'.vols ==> d in z.vols)
            && (ds in z.vols ==> z'.snaps == z.snaps)
            && (ok && ds in z.vols ==> ds !in z'.vols)
  {
    hide DestroyDo, PoolOf, GoodVol;
    if ds in z.snaps {
      assert GoodSnap(z.vols, ds, z.snaps[ds]);
      DestroySnapshotKeeps(z, ds);
      if ds in z.vols {
        VolNameClean(z, ds);
      }
    } else {
      DestroyZvolTouches(z, ds);
      forall full | full in z.snaps
        ensures z.snaps[full].dataset == ds ==> full in SnapshotsUnder(z, ds)
      {
      }
    }
  }

  lemma SendRecvKeeps(z: Z, src: string, name: string, dest: string)
    requires Inv(z)
    ensures var (z', ok) := SendRecvDo(z, src, name, dest);
            && Inv(z') && OnlyTouches(z, z', dest) && Grows(z, z') && SnapsWithin(z, z', {FullName(dest, name)})
            && (ok ==> && dest !in z.vols && dest in z'.vols && FullName(src, name) in z.snaps && src in z.vols
                       && z'.vols == z.vols[dest := Vol(z.snaps[FullName(src, name)].size, z.vols[src].block, "")])
  {
    var full := FullName(src, name);
    if full in z.snaps && src in z.vols {
      var v := Vol(z.snaps[full].size, z.vols[src].block, "");
      var z1 := WithVol(z, dest, v);
      if '@' !in dest {
        FullNameParts(dest, name);
      }
      ChangeIs(z, !HasDataset(z, dest) && '@' !in dest && '@' !in name && Room(z, dest, v.size),
               z1.(snaps := z1.snaps[FullName(dest, name) := Snap(dest, v.size, z.clock)]));
    }
  }

  lemma NoSnapshotOfAbsent(z: Z, ds: string, name: string)
    requires Inv(z) && ds !in z.vols && '@' !in ds
    ensures FullName(ds, name) !in z.snaps && forall full :: !SnapshotOf(z, full, ds)
  {
    FullNameParts(ds, name);
  }

  /** A finished independent clone is a new volume without any snapshot, and nothing else changed. */
  lemma CloneIndependentKeeps(z: Z, src: string, name: string, dest: string)
    requires Inv(z)
    ensures var (z', ok) := CloneIndependentDo(z, src, name, dest);
            && Inv(z') && OnlyTouches(z, z', dest) && Grows(z, z') && SnapsWithin(z, z', {FullName(dest, name)})
            && (ok ==> && dest !in z.vols && FullName(src, name) in z.snaps && src in z.vols
                       && z'.vols == z.vols[dest := Vol(z.snaps[FullName(src, name)].size, z.vols[src].block, "")]
                       && z'.snaps == z.snaps && (forall full :: !SnapshotOf(z', full, dest)))
  {
    hide SendRecvDo, DestroyDo, GoodSnap, GoodVol, FullName;
    SendRecvKeeps(z, src, name, dest);
    var (z1, ok) := SendRecvDo(z, src, name, dest);
    if ok {
      VolNameClean(z1, dest);
      NoSnapshotOfAbsent(z, dest, name);
      FullNameParts(dest, name);
      DestroySnapshotKeeps(z1, FullName(dest, name));
      var (z2, dropped) := DestroyDo(z1, FullName(dest, name));
      if dropped {
        SnapsEqual(z, z2, FullName(dest, name));
        assert forall full :: SnapshotOf(z2, full, dest) ==> SnapshotOf(z, full, dest);
      }
    }
  }

  lemma VolNameClean(z: Z, ds: string)
    requires Inv(z) && ds in z.vols
    ensures '@' !in ds
  {
    assert GoodVol(ds, z.vols[ds]);
  }

  lemma SnapsEqual(z: Z, z': Z, name: string)
    requires SnapsWithin(z, z', {name}) && name !in z'.snaps
    ensures z'.snaps == z.snaps
  {
    assert forall full :: full in z'.snaps <==> full in z.snaps;
  }

  lemma SetVolsizeKeeps(z: Z, ds: string, size: int)
    requires Inv(z) && (ds in z.vols ==> z.vols[ds].size <= size)
    ensures var (z', ok) := SetVolsizeDo(z, ds, size);
            && Inv(z') && Grows(z, z') && z'.snaps == z.snaps
            && (ok ==> ds in z.vols && z'.vols == z.vols[ds := z.vols[ds].(size := RoundUp(size, z.vols[ds].block))]
                       && size <= z'.vols[ds].size)
  {
    if ds in z.vols && z.vols[ds].block > 0 {
      var v := z.vols[ds];
      var rounded := RoundUp(size, v.block);
      RoundUpBounds(size, v.block);
      ChangeIs(z, Room(z, ds, rounded - v.size),
               z.(vols := z.vols[ds := v.(size := rounded)], pools := Charge(z.pools, PoolOf(ds), rounded - v.size)));
    }
  }

  // ----- Operations -----

  lemma TickKeeps(z: Z)
    ensures Like(Tick(z), z) && (Inv(z) ==> Inv(Tick(z)))
  {
  }

  lemma GrowIfNeededKeeps(z: Z, ds: string, want: int)
    requires Inv(z)
    ensures var (z', r) := GrowIfNeededDo(z, ds, want);
            && Inv(z') && Grows(z, z') && z'.snaps == z.snaps
            && OnlyTouches(z, z', ds)
            && (r.Ok? ==> ds in z'.vols && z'.vols[ds].size >= want && z'.vols.Keys == z.vols.Keys)
  {
    hide SetVolsizeDo;
    TickKeeps(z);
    if VolOut(z, ds).Done? && VolOut(z, ds).value.size < want {
      SetVolsizeKeeps(Tick(z), ds, want);
      SetVolsizeTouches(Tick(z), ds, want);
    }
  }

  lemma SetVolsizeTouches(z: Z, ds: string, size: int)
    ensures var (z', ok) := SetVolsizeDo(z, ds, size);
            OnlyTouches(z, z', ds)
  {
  }

  lemma StampAndGrowKeeps(z: Z, ds: string, source: string, want: int)
    requires Inv(z) && ds in z.vols
    ensures var (z', r) := StampAndGrowDo(z, ds, source, want);
            && Inv(z') && OnlyTouches(z, z', ds) && ds in z'.vols && z'.snaps == z.snaps
            && (r.Ok? ==> z'.vols[ds].source == source && z'.vols[ds].size >= want)
  {
    hide GrowIfNeededDo;
    var e := z.(vols := z.vols[ds := z.vols[ds].(source := source)]);
    ChangeIs(z, true, e);
    var (z1, ok) := SetSourceDo(z, ds, source);
    if ok {
      GrowIfNeededKeeps(z1, ds, want);
    }
  }

  // ----- Creating -----

  /** Whatever happened, no volume but `ds` was touched, no old snapshot was lost, and only the
      transient snapshot and the one received along with the copy may be new. */
  ghost predicate CopyFrame(z: Z, z': Z, ds: string, transient: string, inherited: string)
  {
    Inv(z') && OnlyTouches(z, z', ds) && Grows(z, z') && SnapsWithin(z, z', {transient, inherited})
  }

  lemma CheckCapacityKeeps(cfg: NodeConfig, z: Z, pool: string, size: int)
    ensures Like(CheckCapacityDo(cfg, z, pool, size).0, z)
  {
  }

  /** The transient snapshot is gone after a copy unless dropping it failed, and it was not there before. */
  lemma CopyVolumeKeeps(z: Z, src: string, name: string, ds: string)
    requires Inv(z)
    ensures var (z', r) := CopyVolumeDo(z, src, name, ds);
            && CopyFrame(z, z', ds, FullName(src, name), FullName(ds, name))
            && (r.Ok? ==> && src in z.vols && ds !in z.vols
                          && z'.vols == z.vols[ds := Vol(z.vols[src].size, z.vols[src].block, "")]
                          && SnapsWithin(z, z', {FullName(src, name)})
                          && (forall full :: !SnapshotOf(z', full, ds)))
  {
    hide SnapshotDo, CloneIndependentDo, DestroyDo, GoodSnap;
    SnapshotKeeps(z, src, name);
    var (z1, snapped) := SnapshotDo(z, src, name);
    if snapped {
      CloneIndependentKeeps(z1, src, name, ds);
      var (z2, ok) := CloneIndependentDo(z1, src, name, ds);
      assert '@' in FullName(src, name) by {
        assert FullName(src, name)[|src|] == '@';
      }
      DestroySnapshotKeeps(z2, FullName(src, name));
      var (z3, _) := DestroyDo(z2, FullName(src, name));
      assert forall full :: SnapshotOf(z3, full, ds) ==> SnapshotOf(z2, full, ds);
    }
  }

  /** What a restore or clone does, whether or not it succeeds. */
  ghost predicate MakesCopy(z: Z, z': Z, r: Status, a: CreateArgs, ds: string, src: string, name: string)
  {
    && CopyFrame(z, z', ds, FullName(src, name), FullName(ds, name))
    && (r.Ok? ==>
          && src in z.vols && ds !in z.vols && ds in z'.vols
          && z'.vols[ds].source == ContentSource(a) && z'.vols[ds].size >= a.size
          && (forall full :: !SnapshotOf(z', full, ds))
          && SnapsWithin(z, z', {FullName(src, name)}))
  }

  /** Stamping and growing a volume that was not there before keeps the copy's frame. */
  lemma StampFrame(z: Z, z1: Z, a: CreateArgs, ds: string, src: string, name: string)
    requires Inv(z) && CopyFrame(z, z1, ds, FullName(src, name), FullName(ds, name))
    requires src in z.vols && ds !in z.vols && ds in z1.vols
    requires SnapsWithin(z, z1, {FullName(src, name)}) && forall full :: !SnapshotOf(z1, full, ds)
    ensures var (z', r) := StampAndGrowDo(z1, ds, ContentSource(a), a.size);
            MakesCopy(z, z', r, a, ds, src, name)
  {
    hide StampAndGrowDo, GoodSnap, GoodVol;
    StampAndGrowKeeps(z1, ds, ContentSource(a), a.size);
    var (z', r) := StampAndGrowDo(z1, ds, ContentSource(a), a.size);
    assert Grows(z, z');
    assert CopyFrame(z, z', ds, FullName(src, name), FullName(ds, name));
    assert forall full :: SnapshotOf(z', full, ds) ==> SnapshotOf(z1, full, ds);
    assert SnapsWithin(z, z', {FullName(src, name)});
  }

  lemma CloneKeeps(cfg: NodeConfig, z: Z, a: CreateArgs, ds: string)
    requires Inv(z) && a.snapshotID == ""
    ensures var (z', r) := CloneDo(cfg, z, a, ds);
            && (ParseExternalID(a.volumeID).Ok? ==>
                MakesCopy(z, z', r, a, ds, ParseExternalID(a.volumeID).value.dataset, TransientName(a)))
            && (ParseExternalID(a.volumeID).Err? ==> z' == z && r.Err?)
  {
    hide StampAndGrowDo, CopyVolumeDo, CheckCapacityDo, ParseExternalID, GoodSnap, GoodVol, FullName;
    var src := ParseExternalID(a.volumeID);
    if src.Ok? && src.value.node == cfg.name {
      CheckCapacityKeeps(cfg, z, a.pool, a.size);
      var (z1, cap) := CheckCapacityDo(cfg, z, a.pool, a.size);
      CopyVolumeKeeps(z1, src.value.dataset, TransientName(a), ds);
      var (z2, copied) := CopyVolumeDo(z1, src.value.dataset, TransientName(a), ds);
      if cap.Ok? && copied.Ok? {
        StampFrame(z, z2, a, ds, src.value.dataset, TransientName(a));
      }
    }
  }

  lemma RestoreKeeps(cfg: NodeConfig, z: Z, a: CreateArgs, ds: string)
    requires Inv(z) && a.snapshotID != ""
    ensures var (z', r) := RestoreDo(cfg, z, a, ds);
            && (ParseSnapshotID(a.snapshotID).Ok? ==>
                  && MakesCopy(z, z', r, a, ds, ParseSnapshotID(a.snapshotID).value.dataset,
                               ParseSnapshotID(a.snapshotID).value.snapName)
                  && (r.Ok? ==> z'.snaps == z.snaps))
            && (ParseSnapshotID(a.snapshotID).Err? ==> z' == z && r.Err?)
  {
    hide StampAndGrowDo, CloneIndependentDo, CheckCapacityDo, ParseSnapshotID, GoodSnap, GoodVol, FullName;
    var sid := ParseSnapshotID(a.snapshotID);
    if sid.Ok? && sid.value.node == cfg.name {
      CheckCapacityKeeps(cfg, z, a.pool, a.size);
      var (z1, cap) := CheckCapacityDo(cfg, z, a.pool, a.size);
      CloneIndependentKeeps(z1, sid.value.dataset, sid.value.snapName, ds);
      var (z2, ok) := CloneIndependentDo(z1, sid.value.dataset, sid.value.snapName, ds);
      if cap.Ok? && ok {
        StampFrame(z, z2, a, ds, sid.value.dataset, sid.value.snapName);
        StampAndGrowKeeps(z2, ds, a.snapshotID, a.size);
      }
    }
  }

  lemma MakeKeeps(cfg: NodeConfig, z: Z, a: CreateArgs, ds: string)
    requires Inv(z)
    ensures var (z', r) := MakeDo(cfg, z, a, ds);
            && Inv(z') && Grows(z, z')
            && (r.Ok? ==> ds !in z.vols && ds in z'.vols && z'.vols[ds].size >= a.size
                          && z'.vols[ds].source == ContentSource(a)
                          && forall full :: !SnapshotOf(z', full, ds))
  {
    hide RestoreDo, CloneDo, CheckCapacityDo, CreateZvolDo, ParseExternalID, ParseSnapshotID, GoodSnap;
    if a.snapshotID != "" {
      RestoreKeeps(cfg, z, a, ds);
    } else if a.volumeID != "" {
      CloneKeeps(cfg, z, a, ds);
    } else {
      CheckCapacityKeeps(cfg, z, a.pool, a.size);
      var (z1, cap) := CheckCapacityDo(cfg, z, a.pool, a.size);
      if cap.Ok? {
        CreateZvolKeeps(z1, ds, a.size, a.block);
        var (z2, ok) := CreateZvolDo(z1, ds, a.size, a.block);
        if ok {
          NoSnapshotOfAbsent(z1, ds, "");
          assert forall full :: SnapshotOf(z2, full, ds) ==> SnapshotOf(z1, full, ds);
        }
      }
    }
  }

  lemma ReuseKeeps(z: Z, a: CreateArgs, ds: string)
    ensures var (z', r) := ReuseDo(z, a, ds);
            && Like(z', z)
            && (r.Ok? ==> ds in z.vols && z.vols[ds].size == a.size
                          && (ContentSource(a) != "" ==> z.vols[ds].source == ContentSource(a)))
  {
  }

  lemma CreateKeeps(cfg: NodeConfig, z: Z, a: CreateArgs)
    requires Inv(z)
    ensures Inv(CreateDo(cfg, z, a).0) && Grows(z, CreateDo(cfg, z, a).0)
  {
    hide MakeDo, ReuseDo, DatasetFor, PrintExternalID, PoolStatusOut, ExistsOut, Tick, GoodSnap, GoodVol;
    TickKeeps(z);
    TickKeeps(Tick(z));
    var z2 := Tick(Tick(z));
    MakeKeeps(cfg, z2, a, DatasetFor(cfg, a.pool, a.name));
    ReuseKeeps(z2, a, DatasetFor(cfg, a.pool, a.name));
  }
}
