/** What the local backend promises on one node, over every run and with failures at any step. */
module LocalTheorems {
  import opened LocalId
  import opened Zfs
  import opened LocalOps
  import opened LocalRuns

  datatype Op =
    | Create(a: CreateArgs)
    | Delete(id: string)
    | Expand(id: string, required: int, limit: int)
    | Snapshot(source: string, name: string)
    | DeleteSnapshot(id: string)
    | Exists(id: string)
    | GetStats(pool: string)

  ghost function Apply(cfg: NodeConfig, z: Z, op: Op): Z
  {
    match op
    case Create(a) => CreateDo(cfg, z, a).0
    case Delete(id) => DeleteDo(cfg, z, id).0
    case Expand(id, required, limit) => ExpandDo(z, id, required, limit).0
    case Snapshot(source, name) => SnapshotVolumeDo(cfg, z, source, name).0
    case DeleteSnapshot(id) => DeleteSnapshotDo(z, id).0
    case Exists(id) => ExistsDo(z, id).0
    case GetStats(pool) => StatsDo(cfg, z, pool).0
  }

  ghost function StateAt(cfg: NodeConfig, z: Z, ops: seq<Op>, n: nat): Z
    requires n <= |ops|
  {
    if n == 0 then z else Apply(cfg, StateAt(cfg, z, ops, n - 1), ops[n - 1])
  }

  // ----- One operation -----

  lemma DeleteKeeps(cfg: NodeConfig, z: Z, id: string)
    requires Inv(z)
    ensures Inv(DeleteDo(cfg, z, id).0) && Kept(z, DeleteDo(cfg, z, id).0)
  {
    hide DestroyDo, ParseExternalID, ExistsOut, ListSnapshotsOut;
    TickKeeps(z);
    TickKeeps(Tick(z));
    var eid := ParseExternalID(id);
    if eid.Ok? {
      DestroyZvolKeeps(Tick(Tick(z)), eid.value.dataset);
    }
  }

  lemma ExpandKeeps(z: Z, id: string, required: int, limit: int)
    requires Inv(z)
    ensures Inv(ExpandDo(z, id, required, limit).0) && Kept(z, ExpandDo(z, id, required, limit).0)
  {
    hide SetVolsizeDo, ParseExternalID, RoundedRequest, GoodVol;
    TickKeeps(z);
    TickKeeps(Tick(z));
    var eid := ParseExternalID(id);
    if eid.Ok? {
      var ds := eid.value.dataset;
      var block := VolOut(z, ds);
      if block.Done? && block.value.block > 0 {
        var size := RoundedRequest(required, block.value.block);
        if ds in z.vols && z.vols[ds].size <= size {
          SetVolsizeKeeps(Tick(Tick(z)), ds, size);
          TickKeeps(SetVolsizeDo(Tick(Tick(z)), ds, size).0);
        }
      }
    }
  }

  lemma SnapshotVolumeKeeps(cfg: NodeConfig, z: Z, source: string, name: string)
    requires Inv(z)
    ensures Inv(SnapshotVolumeDo(cfg, z, source, name).0) && Kept(z, SnapshotVolumeDo(cfg, z, source, name).0)
  {
    hide SnapshotDo, ParseExternalID, Sanitized, FullName, PrintSnapshotID;
    var eid := ParseExternalID(source);
    if eid.Ok? {
      SnapshotKeeps(z, eid.value.dataset, Sanitized(name));
      var z1 := SnapshotDo(z, eid.value.dataset, Sanitized(name)).0;
      TickKeeps(z1);
      TickKeeps(Tick(z1));
    }
  }

  lemma DeleteSnapshotKeeps(z: Z, id: string)
    requires Inv(z)
    ensures Inv(DeleteSnapshotDo(z, id).0) && Kept(z, DeleteSnapshotDo(z, id).0)
  {
    hide DestroyDo, ParseSnapshotID, ExistsOut;
    TickKeeps(z);
    var sid := ParseSnapshotID(id);
    if sid.Ok? {
      var full := FullName(sid.value.dataset, sid.value.snapName);
      assert full[|sid.value.dataset|] == '@';
      DestroySnapshotKeeps(Tick(z), full);
    }
  }

  lemma StepKeeps(cfg: NodeConfig, z: Z, op: Op)
    requires Inv(z)
    ensures Inv(Apply(cfg, z, op)) && Kept(z, Apply(cfg, z, op))
  {
    hide CreateDo, DeleteDo, ExpandDo, SnapshotVolumeDo, DeleteSnapshotDo, ExistsDo, StatsDo;
    match op
    case Create(a) => CreateKeeps(cfg, z, a);
    case Delete(id) => DeleteKeeps(cfg, z, id);
    case Expand(id, required, limit) => ExpandKeeps(z, id, required, limit);
    case Snapshot(source, name) => SnapshotVolumeKeeps(cfg, z, source, name);
    case DeleteSnapshot(id) => DeleteSnapshotKeeps(z, id);
    case Exists(id) => ExistsKeeps(z, id);
    case GetStats(pool) => StatsKeeps(cfg, z, pool);
  }

  lemma ExistsKeeps(z: Z, id: string)
    ensures Like(ExistsDo(z, id).0, z)
  {
    hide ParseExternalID;
  }

  lemma StatsKeeps(cfg: NodeConfig, z: Z, pool: string)
    ensures Like(StatsDo(cfg, z, pool).0, z)
  {
    hide PoolStatusOut, ListZvolsOut, PoolOut, ParentDataset, ReserveBytes;
  }

  // ----- Whole runs -----

  /** No snapshot outlives its dataset, in any run. */
  lemma {:induction false} RunKeepsInv(cfg: NodeConfig, z: Z, ops: seq<Op>, n: nat)
    requires Inv(z) && n <= |ops|
    ensures Inv(StateAt(cfg, z, ops, n))
  {
    hide Apply;
    if n > 0 {
      RunKeepsInv(cfg, z, ops, n - 1);
      StepKeeps(cfg, StateAt(cfg, z, ops, n - 1), ops[n - 1]);
    }
  }

  /** Over every run, with any command failing at any point: while a volume lives it does not
      shrink and its recorded source does not change. */
  lemma {:induction false} LiveVolumeOnlyGrows(cfg: NodeConfig, z: Z, ops: seq<Op>, m: nat, n: nat, ds: string)
    requires Inv(z) && m <= n <= |ops|
    requires forall k :: m <= k <= n ==> ds in StateAt(cfg, z, ops, k).vols
    ensures NoLess(StateAt(cfg, z, ops, m).vols[ds], StateAt(cfg, z, ops, n).vols[ds])
    decreases n
  {
    hide Apply;
    if m < n {
      assert ds in StateAt(cfg, z, ops, n - 1).vols;
      LiveVolumeOnlyGrows(cfg, z, ops, m, n - 1, ds);
      RunKeepsInv(cfg, z, ops, n - 1);
      StepKeeps(cfg, StateAt(cfg, z, ops, n - 1), ops[n - 1]);
    }
  }

  /** Over every run: a dataset that has a snapshot survives the next operation, whatever it is,
      and every snapshot there is belongs to a living dataset. */
  lemma SnapshottedVolumeSurvives(cfg: NodeConfig, z: Z, ops: seq<Op>, n: nat, full: string)
    requires Inv(z) && n < |ops| && full in StateAt(cfg, z, ops, n).snaps
    ensures StateAt(cfg, z, ops, n).snaps[full].dataset in StateAt(cfg, z, ops, n).vols
    ensures StateAt(cfg, z, ops, n).snaps[full].dataset in StateAt(cfg, z, ops, n + 1).vols
  {
    hide Apply;
    RunKeepsInv(cfg, z, ops, n);
    StepKeeps(cfg, StateAt(cfg, z, ops, n), ops[n]);
  }

  // ----- Provenance -----

  /** In every run, whatever failed before: a create that names a source succeeds only for a dataset
      recorded as made from that very source, with at least the requested size; and a copy made by
      this very call carries no snapshot. */
  lemma CreatedFromItsSource(cfg: NodeConfig, z: Z, ops: seq<Op>, n: nat, a: CreateArgs)
    requires Inv(z) && n <= |ops| && ContentSource(a) != ""
    ensures var zn := StateAt(cfg, z, ops, n);
            var (z', r) := CreateDo(cfg, zn, a);
            r.Ok? ==>
              && r.value.dataset == DatasetFor(cfg, a.pool, a.name) && r.value.dataset in z'.vols
              && z'.vols[r.value.dataset].source == ContentSource(a)
              && z'.vols[r.value.dataset].size >= a.size
              && (r.value.dataset !in zn.vols ==> forall full :: !SnapshotOf(z', full, r.value.dataset))
  {
    hide StateAt, MakeDo, ReuseDo, DatasetFor, PrintExternalID, PoolStatusOut, ExistsOut, Tick, GoodSnap, GoodVol;
    RunKeepsInv(cfg, z, ops, n);
    var zn := StateAt(cfg, z, ops, n);
    TickKeeps(zn);
    TickKeeps(Tick(zn));
    var z2 := Tick(Tick(zn));
    MakeKeeps(cfg, z2, a, DatasetFor(cfg, a.pool, a.name));
    ReuseKeeps(z2, a, DatasetFor(cfg, a.pool, a.name));
    var ds := DatasetFor(cfg, a.pool, a.name);
    var (z', r) := CreateDo(cfg, zn, a);
    if r.Ok? {
      var e := ExistsOut(Tick(zn), ds);
      assert e.Done?;
      if e.value {
        assert z' == ReuseDo(z2, a, ds).0;
        assert ReuseDo(z2, a, ds).1.Ok?;
      } else {
        assert z' == MakeDo(cfg, z2, a, ds).0;
        assert MakeDo(cfg, z2, a, ds).1.Ok?;
      }
    }
  }
}
