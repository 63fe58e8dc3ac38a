/** Thick accounting: what every run conserves, and how placement agrees with the capacity guard. */
module LocalCapacity {
  import opened Text
  import opened Driver
  import opened LocalId
  import opened Zfs
  import opened LocalOps
  import opened LocalRuns
  import opened LocalTheorems

  // ----- Provisioned bytes -----

  ghost function Share(vols: map<string, Vol>, pool: string, ds: string): int
    requires ds in vols
  {
    if PoolOf(ds) == pool then vols[ds].size else 0
  }

  ghost function SumOver(keys: set<string>, vols: map<string, Vol>, pool: string): int
    requires keys <= vols.Keys
  {
    if keys == {} then 0
    else
      var ds :| ds in keys;
      Share(vols, pool, ds) + SumOver(keys - {ds}, vols, pool)
  }

  /** The sizes of the volumes of one pool, added up. */
  ghost function Provisioned(vols: map<string, Vol>, pool: string): int
  {
    SumOver(vols.Keys, vols, pool)
  }

  lemma {:induction false} SumOverTakes(keys: set<string>, vols: map<string, Vol>, pool: string, ds: string)
    requires keys <= vols.Keys && ds in keys
    ensures SumOver(keys, vols, pool) == Share(vols, pool, ds) + SumOver(keys - {ds}, vols, pool)
    decreases |keys|
  {
    var first :| first in keys
                 && SumOver(keys, vols, pool) == Share(vols, pool, first) + SumOver(keys - {first}, vols, pool);
    if first != ds {
      SumOverTakes(keys - {first}, vols, pool, ds);
      SumOverTakes(keys - {ds}, vols, pool, first);
      assert keys - {first} - {ds} == keys - {ds} - {first};
    }
  }

  lemma {:induction false} SumOverSame(keys: set<string>, v: map<string, Vol>, w: map<string, Vol>, pool: string)
    requires keys <= v.Keys && keys <= w.Keys && forall ds :: ds in keys ==> v[ds].size == w[ds].size
    ensures SumOver(keys, v, pool) == SumOver(keys, w, pool)
    decreases |keys|
  {
    if keys != {} {
      var ds :| ds in keys;
      SumOverTakes(keys, v, pool, ds);
      SumOverTakes(keys, w, pool, ds);
      SumOverSame(keys - {ds}, v, w, pool);
    }
  }

  lemma ProvisionedPut(vols: map<string, Vol>, pool: string, ds: string, v: Vol)
    ensures Provisioned(vols[ds := v], pool)
         == Provisioned(vols, pool) - (if ds in vols then Share(vols, pool, ds) else 0)
            + (if PoolOf(ds) == pool then v.size else 0)
  {
    var w := vols[ds := v];
    SumOverTakes(w.Keys, w, pool, ds);
    assert w.Keys - {ds} == vols.Keys - {ds};
    SumOverSame(vols.Keys - {ds}, vols, w, pool);
    if ds in vols {
      SumOverTakes(vols.Keys, vols, pool, ds);
    } else {
      assert vols.Keys - {ds} == vols.Keys;
    }
  }

  lemma ProvisionedDrop(vols: map<string, Vol>, pool: string, ds: string)
    requires ds in vols
    ensures Provisioned(vols - {ds}, pool) == Provisioned(vols, pool) - Share(vols, pool, ds)
  {
    var w := vols - {ds};
    assert w.Keys == vols.Keys - {ds};
    SumOverTakes(vols.Keys, vols, pool, ds);
    SumOverSame(w.Keys, vols, w, pool);
  }

  // ----- Conservation -----

  /** Pools stay, keep their size and state, and available plus provisioned does not change. */
  ghost predicate Conserves(z: Z, z': Z)
  {
    && z'.pools.Keys == z.pools.Keys
    && forall p :: p in z.pools ==>
         && z'.pools[p].online == z.pools[p].online && z'.pools[p].size == z.pools[p].size
         && z'.pools[p].avail + Provisioned(z'.vols, p) == z.pools[p].avail + Provisioned(z.vols, p)
  }

  lemma PutConserves(z: Z, z': Z, ds: string, v: Vol)
    requires z'.vols == z.vols[ds := v]
    requires z'.pools == Charge(z.pools, PoolOf(ds), v.size - if ds in z.vols then z.vols[ds].size else 0)
    ensures Conserves(z, z')
  {
    hide PoolOf, SumOver;
    forall p | p in z.pools
      ensures p in z'.pools && z'.pools[p].avail + Provisioned(z'.vols, p) == z.pools[p].avail + Provisioned(z.vols, p)
    {
      ProvisionedPut(z.vols, p, ds, v);
    }
  }

  lemma CreateZvolConserves(z: Z, ds: string, size: int, block: int)
    ensures Conserves(z, CreateZvolDo(z, ds, size, block).0)
  {
    hide PoolOf, Provisioned, RoundUp;
    if size > 0 && block > 0 {
      var v := Vol(RoundUp(size, block), block, "");
      if ds !in z.vols {
        PutConserves(z, WithVol(z, ds, v), ds, v);
      }
    }
  }

  lemma SetVolsizeConserves(z: Z, ds: string, size: int)
    ensures Conserves(z, SetVolsizeDo(z, ds, size).0)
  {
    hide PoolOf, Provisioned, RoundUp;
    if ds in z.vols && z.vols[ds].block > 0 {
      var v := z.vols[ds];
      var rounded := RoundUp(size, v.block);
      PutConserves(z,
                   z.(vols := z.vols[ds := v.(size := rounded)],
                      pools := Charge(z.pools, PoolOf(ds), rounded - v.size)),
                   ds, v.(size := rounded));
    }
  }

  lemma SetSourceConserves(z: Z, ds: string, source: string)
    ensures Conserves(z, SetSourceDo(z, ds, source).0)
  {
    hide PoolOf, Provisioned;
    if ds in z.vols {
      var v := z.vols[ds].(source := source);
      assert Charge(z.pools, PoolOf(ds), 0) == z.pools;
      PutConserves(z, z.(vols := z.vols[ds := v]), ds, v);
    }
  }

  lemma DestroyConserves(z: Z, name: string)
    ensures Conserves(z, DestroyDo(z, name).0)
  {
    hide PoolOf, SumOver;
    if name in z.vols {
      var e := z.(vols := z.vols - {name}, pools := Charge(z.pools, PoolOf(name), -z.vols[name].size));
      forall p | p in z.pools
        ensures p in e.pools && e.pools[p].avail + Provisioned(e.vols, p) == z.pools[p].avail + Provisioned(z.vols, p)
      {
        ProvisionedDrop(z.vols, p, name);
      }
    }
  }

  lemma SnapshotConserves(z: Z, ds: string, name: string)
    ensures Conserves(z, SnapshotDo(z, ds, name).0)
  {
    hide Provisioned;
  }

  lemma SendRecvConserves(z: Z, src: string, name: string, dest: string)
    ensures Conserves(z, SendRecvDo(z, src, name, dest).0)
  {
    hide PoolOf, Provisioned, FullName;
    if FullName(src, name) in z.snaps && src in z.vols && dest !in z.vols {
      var v := Vol(z.snaps[FullName(src, name)].size, z.vols[src].block, "");
      PutConserves(z, WithVol(z, dest, v), dest, v);
    }
  }

  lemma CloneIndependentConserves(z: Z, src: string, name: string, dest: string)
    ensures Conserves(z, CloneIndependentDo(z, src, name, dest).0)
  {
    hide SendRecvDo, DestroyDo, Provisioned;
    SendRecvConserves(z, src, name, dest);
    DestroyConserves(SendRecvDo(z, src, name, dest).0, FullName(dest, name));
  }

  lemma StampAndGrowConserves(z: Z, ds: string, source: string, want: int)
    ensures Conserves(z, StampAndGrowDo(z, ds, source, want).0)
  {
    hide SetSourceDo, SetVolsizeDo, Provisioned;
    SetSourceConserves(z, ds, source);
    var z1 := SetSourceDo(z, ds, source).0;
    SetVolsizeConserves(Tick(z1), ds, want);
  }

  lemma CopyVolumeConserves(z: Z, src: string, name: string, ds: string)
    ensures Conserves(z, CopyVolumeDo(z, src, name, ds).0)
  {
    hide SnapshotDo, CloneIndependentDo, DestroyDo, Provisioned;
    SnapshotConserves(z, src, name);
    var z1 := SnapshotDo(z, src, name).0;
    CloneIndependentConserves(z1, src, name, ds);
    DestroyConserves(CloneIndependentDo(z1, src, name, ds).0, FullName(src, name));
  }

  lemma MakeConserves(cfg: NodeConfig, z: Z, a: CreateArgs, ds: string)
    ensures Conserves(z, MakeDo(cfg, z, a, ds).0)
  {
    hide CheckCapacityDo, CloneIndependentDo, CopyVolumeDo, StampAndGrowDo, CreateZvolDo, ParseExternalID,
        ParseSnapshotID, Provisioned;
    CheckCapacityKeeps(cfg, z, a.pool, a.size);
    var z1 := CheckCapacityDo(cfg, z, a.pool, a.size).0;
    if a.snapshotID != "" {
      var sid := ParseSnapshotID(a.snapshotID);
      if sid.Ok? {
        CloneIndependentConserves(z1, sid.value.dataset, sid.value.snapName, ds);
        StampAndGrowConserves(CloneIndependentDo(z1, sid.value.dataset, sid.value.snapName, ds).0, ds, a.snapshotID,
                              a.size);
      }
    } else if a.volumeID != "" {
      var src := ParseExternalID(a.volumeID);
      if src.Ok? {
        CopyVolumeConserves(z1, src.value.dataset, TransientName(a), ds);
        StampAndGrowConserves(CopyVolumeDo(z1, src.value.dataset, TransientName(a), ds).0, ds, a.volumeID, a.size);
      }
    } else {
      CreateZvolConserves(z1, ds, a.size, a.block);
    }
  }

  lemma CreateConserves(cfg: NodeConfig, z: Z, a: CreateArgs)
    ensures Conserves(z, CreateDo(cfg, z, a).0)
  {
    hide MakeDo, ReuseDo, DatasetFor, PrintExternalID, PoolStatusOut, ExistsOut, Tick, Provisioned;
    TickKeeps(z);
    TickKeeps(Tick(z));
    var z2 := Tick(Tick(z));
    MakeConserves(cfg, z2, a, DatasetFor(cfg, a.pool, a.name));
    ReuseKeeps(z2, a, DatasetFor(cfg, a.pool, a.name));
  }

  lemma DeleteConserves(cfg: NodeConfig, z: Z, id: string)
    ensures Conserves(z, DeleteDo(cfg, z, id).0)
  {
    hide DestroyDo, ParseExternalID, ExistsOut, ListSnapshotsOut, Provisioned;
    if ParseExternalID(id).Ok? {
      DestroyConserves(Tick(Tick(z)), ParseExternalID(id).value.dataset);
    }
  }

  lemma ExpandConserves(z: Z, id: string, required: int, limit: int)
    ensures Conserves(z, ExpandDo(z, id, required, limit).0)
  {
    hide SetVolsizeDo, ParseExternalID, RoundedRequest, Provisioned;
    var eid := ParseExternalID(id);
    if eid.Ok? && VolOut(z, eid.value.dataset).Done? && VolOut(z, eid.value.dataset).value.block > 0 {
      SetVolsizeConserves(Tick(Tick(z)), eid.value.dataset,
                          RoundedRequest(required, VolOut(z, eid.value.dataset).value.block));
    }
  }

  lemma SnapshotVolumeConserves(cfg: NodeConfig, z: Z, source: string, name: string)
    ensures Conserves(z, SnapshotVolumeDo(cfg, z, source, name).0)
  {
    hide SnapshotDo, ParseExternalID, Sanitized, FullName, PrintSnapshotID, Provisioned;
    if ParseExternalID(source).Ok? {
      SnapshotConserves(z, ParseExternalID(source).value.dataset, Sanitized(name));
    }
  }

  lemma DeleteSnapshotConserves(z: Z, id: string)
    ensures Conserves(z, DeleteSnapshotDo(z, id).0)
  {
    hide DestroyDo, ParseSnapshotID, ExistsOut, Provisioned;
    var sid := ParseSnapshotID(id);
    if sid.Ok? {
      DestroyConserves(Tick(z), FullName(sid.value.dataset, sid.value.snapName));
    }
  }

  lemma StepConserves(cfg: NodeConfig, z: Z, op: Op)
    ensures Conserves(z, Apply(cfg, z, op))
  {
    hide CreateDo, DeleteDo, ExpandDo, SnapshotVolumeDo, DeleteSnapshotDo, ExistsDo, StatsDo, Provisioned;
    match op
    case Create(a) => CreateConserves(cfg, z, a);
    case Delete(id) => DeleteConserves(cfg, z, id);
    case Expand(id, required, limit) => ExpandConserves(z, id, required, limit);
    case Snapshot(source, name) => SnapshotVolumeConserves(cfg, z, source, name);
    case DeleteSnapshot(id) => DeleteSnapshotConserves(z, id);
    case Exists(id) => ExistsKeeps(z, id);
    case GetStats(pool) => StatsKeeps(cfg, z, pool);
  }

  /** Over every run of operations, with any command failing at any point, available plus the sum
      of volume sizes is the same in every pool. */
  lemma {:induction false} RunConserves(cfg: NodeConfig, z: Z, ops: seq<Op>, n: nat)
    requires n <= |ops|
    ensures Conserves(z, StateAt(cfg, z, ops, n))
  {
    hide Apply, Provisioned;
    if n > 0 {
      RunConserves(cfg, z, ops, n - 1);
      StepConserves(cfg, StateAt(cfg, z, ops, n - 1), ops[n - 1]);
    }
  }

  // ----- The reserve floor -----

  ghost predicate AboveReserve(cfg: NodeConfig, z: Z, pool: string)
  {
    pool in z.pools && z.pools[pool].avail >= ReserveBytes(z.pools[pool].size, ReserveFor(cfg, pool))
  }

  /** A fresh create as the controller sends it: a bare pool name and a size rounded to the block. */
  ghost predicate FreshCreate(a: CreateArgs)
  {
    a.snapshotID == "" && a.volumeID == "" && Free(a.pool, '/') && (a.block > 0 ==> RoundUp(a.size, a.block) == a.size)
  }

  lemma PoolOfDataset(cfg: NodeConfig, pool: string, name: string)
    requires Free(pool, '/')
    ensures PoolOf(DatasetFor(cfg, pool, name)) == pool
  {
    var rest := (if pool in cfg.parents then cfg.parents[pool] else cfg.defaultParent) + "/" + name;
    assert DatasetFor(cfg, pool, name) == pool + "/" + rest;
    IndexOfAfter(pool, '/', rest);
  }

  /** Nothing but growing and creating takes space away. */
  ghost predicate FreesOnly(z: Z, z': Z)
  {
    forall p :: p in z.pools ==> p in z'.pools && z'.pools[p].size == z.pools[p].size
                                 && z.pools[p].avail <= z'.pools[p].avail
  }

  lemma DestroyFreesOnly(z: Z, name: string)
    requires Inv(z)
    ensures FreesOnly(z, DestroyDo(z, name).0)
  {
    hide PoolOf;
    if name in z.vols {
      assert GoodVol(name, z.vols[name]);
    }
  }

  lemma OthersFreeOnly(cfg: NodeConfig, z: Z, op: Op)
    requires Inv(z) && !op.Expand? && !op.Create?
    ensures FreesOnly(z, Apply(cfg, z, op))
  {
    hide DestroyDo, SnapshotDo, ParseExternalID, ParseSnapshotID, ExistsOut, ListSnapshotsOut, StatsDo, ExistsDo,
        Sanitized, FullName, Inv;
    TickKeeps(z);
    TickKeeps(Tick(z));
    match op
    case Delete(id) =>
      if ParseExternalID(id).Ok? {
        DestroyFreesOnly(Tick(Tick(z)), ParseExternalID(id).value.dataset);
      }
    case DeleteSnapshot(id) =>
      if ParseSnapshotID(id).Ok? {
        DestroyFreesOnly(Tick(z), FullName(ParseSnapshotID(id).value.dataset, ParseSnapshotID(id).value.snapName));
      }
    case Snapshot(source, name) =>
      if ParseExternalID(source).Ok? {
        SnapshotKeepsPools(z, ParseExternalID(source).value.dataset, Sanitized(name));
      }
    case Exists(id) => ExistsKeeps(z, id);
    case GetStats(pool) => StatsKeeps(cfg, z, pool);
  }

  lemma SnapshotKeepsPools(z: Z, ds: string, name: string)
    ensures SnapshotDo(z, ds, name).0.pools == z.pools
  {
  }

  // ----- Placement and the guard agree -----

  /** A node whose stats accept a size passes its own capacity guard while its pool is unchanged. */
  lemma AcceptedNodePassesItsGuard(cfg: NodeConfig, z: Z, pool: string, size: int)
    requires z.faults == [] && size > 0
    requires var st := StatsDo(cfg, z, pool).1; st.Ok? && st.value.hasPool && st.value.avail >= size
    ensures CheckCapacityDo(cfg, z, pool, size) == (z, OK)
  {
    hide ListZvolsOut, ReserveBytes, ReserveFor, ParentDataset;
  }

  /** So a fresh volume placed on an accepted node is created there. */
  lemma AcceptedNodeCreates(cfg: NodeConfig, z: Z, a: CreateArgs)
    requires z.faults == [] && FreshCreate(a) && a.size > 0 && a.block > 0
    requires var st := StatsDo(cfg, z, a.pool).1; st.Ok? && st.value.hasPool && st.value.avail >= a.size
    requires a.pool in z.pools && z.pools[a.pool].size >= 0
    requires var ds := DatasetFor(cfg, a.pool, a.name); !HasDataset(z, ds) && '@' !in ds
    ensures var ds := DatasetFor(cfg, a.pool, a.name);
            CreateDo(cfg, z, a).1 == Ok(Created(PrintExternalID(ExternalID(cfg.name, ds)), ds, a.size))
  {
    AcceptedNodePassesItsGuard(cfg, z, a.pool, a.size);
    PoolOfDataset(cfg, a.pool, a.name);
    ReserveNotNegative(z.pools[a.pool].size, ReserveFor(cfg, a.pool));
    hide ListZvolsOut, ReserveBytes, ReserveFor, ParentDataset, DatasetFor, PoolOf, RoundUp, PrintExternalID,
        CheckCapacityDo;
    assert z.pools[a.pool].online && z.pools[a.pool].avail >= a.size by {
      StatsMeans(cfg, z, a.pool);
    }
  }

  lemma StatsMeans(cfg: NodeConfig, z: Z, pool: string)
    requires z.faults == [] && pool in z.pools
    ensures var st := StatsDo(cfg, z, pool).1;
            st.Ok? && st.value.hasPool ==>
              && z.pools[pool].online
              && st.value.avail == Max(z.pools[pool].avail - ReserveBytes(z.pools[pool].size, ReserveFor(cfg, pool)), 0)
  {
    hide ListZvolsOut, ReserveBytes, ReserveFor, ParentDataset;
  }

  lemma ReserveNotNegative(total: int, pct: int)
    requires total >= 0
    ensures ReserveBytes(total, pct) >= 0
  {
    if 0 < pct < 100 {
      var q := total / 100;
      assert q * pct >= 0;
    }
  }
}
