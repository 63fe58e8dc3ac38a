/** The reserve of a pool: exactly what a create takes from its pool, and which runs never spend the reserve. */
module LocalReserve {
  import opened Text
  import opened LocalId
  import opened Zfs
  import opened LocalOps
  import opened LocalRuns
  import opened LocalTheorems
  import opened LocalSizes
  import opened LocalCapacity
  import opened LocalClones
  import opened LocalHalfway
  import opened LocalRetry

  /** What a create leaves was not there before, and the capacity guard let it pass. */
  lemma LeftIsNew(cfg: NodeConfig, z: Z, a: CreateArgs)
    requires LeftBy(cfg, z, a).Some?
    ensures !HasDataset(z, DatasetFor(cfg, a.pool, a.name)) && CapacityOk(cfg, Later(z, 2), a.pool, a.size)
  {
    hide GetsToMake, CapacityOk, DatasetFor, ParseExternalID, ParseSnapshotID, FullName, RoundUp, PoolOf, TransientName;
  }

  /** Bytes the create takes from pool `p`. */
  ghost function Taken(cfg: NodeConfig, z: Z, a: CreateArgs, p: string): int
  {
    var left := LeftBy(cfg, z, a);
    if left.Some? && PoolOf(DatasetFor(cfg, a.pool, a.name)) == p then left.value.size else 0
  }

  /** Whatever fails in it, a create takes from each pool exactly the size of the dataset it leaves. */
  lemma CreateSpendsExactly(cfg: NodeConfig, z: Z, a: CreateArgs, p: string)
    requires Inv(z) && p in z.pools
    ensures var z' := CreateDo(cfg, z, a).0;
            && p in z'.pools && z'.pools[p].size == z.pools[p].size
            && z'.pools[p].avail == z.pools[p].avail - Taken(cfg, z, a, p)
  {
    hide CreateDo, LeftBy, DatasetFor, SumOver, PoolOf, Inv;
    CreateConserves(cfg, z, a);
    CreateLeavesExactly(cfg, z, a);
    var left := LeftBy(cfg, z, a);
    if left.Some? {
      LeftIsNew(cfg, z, a);
      ProvisionedPut(z.vols, p, DatasetFor(cfg, a.pool, a.name), left.value);
    }
  }

  /** A repeatable create leaves no more than the request. */
  lemma RepeatableIsNoLarger(cfg: NodeConfig, z: Z, a: CreateArgs)
    requires LeftBy(cfg, z, a).Some? && Repeatable(cfg, z, a)
    ensures LeftBy(cfg, z, a).value.size <= a.size
  {
    hide GetsToMake, CapacityOk, DatasetFor, ParseExternalID, ParseSnapshotID, FullName, RoundUp, PoolOf, TransientName;
    LeftIsNew(cfg, z, a);
    if a.snapshotID != "" {
      var sid := ParseSnapshotID(a.snapshotID).value;
      RoundUpLeast(a.size, z.vols[sid.dataset].block);
    } else if a.volumeID != "" {
      RoundUpLeast(a.size, z.vols[ParseExternalID(a.volumeID).value.dataset].block);
    } else {
      RoundUpLeast(a.size, a.block);
    }
  }

  /** Anything but an expand; and a create, fresh or a copy, that leaves something is repeatable: its
      source is no larger than the request, and the request fits the blocks. */
  ghost predicate SparesReserve(cfg: NodeConfig, z: Z, op: Op)
  {
    !op.Expand? && (op.Create? ==> Free(op.a.pool, '/') && (LeftBy(cfg, z, op.a).Some? ==> Repeatable(cfg, z, op.a)))
  }

  lemma CreateKeepsReserve(cfg: NodeConfig, z: Z, a: CreateArgs, p: string)
    requires Inv(z) && AboveReserve(cfg, z, p) && SparesReserve(cfg, z, Create(a))
    ensures AboveReserve(cfg, CreateDo(cfg, z, a).0, p)
  {
    hide CreateDo, LeftBy, Repeatable, DatasetFor, PoolOf, ReserveBytes, ReserveFor, Inv;
    CreateSpendsExactly(cfg, z, a, p);
    if LeftBy(cfg, z, a).Some? {
      LeftIsNew(cfg, z, a);
      RepeatableIsNoLarger(cfg, z, a);
      PoolOfDataset(cfg, a.pool, a.name);
    }
  }

  lemma ReserveStep(cfg: NodeConfig, z: Z, op: Op, p: string)
    requires Inv(z) && AboveReserve(cfg, z, p) && SparesReserve(cfg, z, op)
    ensures AboveReserve(cfg, Apply(cfg, z, op), p)
  {
    hide ReserveBytes, CreateDo, DeleteDo, SnapshotVolumeDo, DeleteSnapshotDo, ExistsDo, StatsDo, ExpandDo, LeftBy,
         Repeatable;
    if op.Create? {
      CreateKeepsReserve(cfg, z, op.a, p);
    } else {
      OthersFreeOnly(cfg, z, op);
    }
  }

  /** Runs of creates, copies included, deletes, snapshots and queries, with any command failing at any
      point, never take a pool below its reserve, as long as each create that leaves something is
      repeatable. */
  lemma {:induction false} ReserveIsNeverSpent(cfg: NodeConfig, z: Z, ops: seq<Op>, n: nat, p: string)
    requires Inv(z) && AboveReserve(cfg, z, p) && n <= |ops|
    requires forall i :: 0 <= i < n ==> SparesReserve(cfg, StateAt(cfg, z, ops, i), ops[i])
    ensures AboveReserve(cfg, StateAt(cfg, z, ops, n), p)
  {
    hide Apply, AboveReserve, SparesReserve;
    if n > 0 {
      ReserveIsNeverSpent(cfg, z, ops, n - 1, p);
      RunKeepsInv(cfg, z, ops, n - 1);
      ReserveStep(cfg, StateAt(cfg, z, ops, n - 1), ops[n - 1], p);
    }
  }
}
