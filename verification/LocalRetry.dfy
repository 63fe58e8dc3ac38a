/**
  When a create may be repeated: localCreate is meant to be idempotent by name and size. The
  conditions are on the state and the request before the first call.
*/
module LocalRetry {
  import opened Text
  import opened Driver
  import opened LocalId
  import opened Zfs
  import opened LocalOps
  import opened LocalRuns
  import opened LocalSizes
  import opened LocalCapacity
  import opened LocalClones
  import opened LocalHalfway

  // ----- The size a create makes -----

  /** A copy of `have` bytes asked to be `want`: left alone, or grown in its own blocks. */
  function Grown(have: int, block: int, want: int): int
    requires block > 0
  {
    if have >= want then have else RoundUp(want, block)
  }

  predicate FitsCopy(have: int, block: int, want: int)
    requires block > 0
  {
    have == want || (have < want && want % block == 0)
  }

  lemma GrownFits(have: int, block: int, want: int)
    requires block > 0
    ensures Grown(have, block, want) == want <==> FitsCopy(have, block, want)
  {
    RoundUpLeast(want, block);
  }

  lemma StampedSize(z: Z, ds: string, source: string, want: int)
    requires ds in z.vols && z.vols[ds].block > 0 && StampAndGrowDo(z, ds, source, want).1.Ok?
    ensures var z' := StampAndGrowDo(z, ds, source, want).0;
            ds in z'.vols && z'.vols[ds].size == Grown(z.vols[ds].size, z.vols[ds].block, want)
  {
    hide RoundUp, PoolOf;
  }

  /** What the new volume's size will be, from the state before; a copy starts at its source's. */
  ghost predicate Makes(z: Z, a: CreateArgs, size: int)
  {
    if a.snapshotID != "" then
      var sid := ParseSnapshotID(a.snapshotID);
      && sid.Ok? && sid.value.dataset in z.vols && z.vols[sid.value.dataset].block > 0
      && var full := FullName(sid.value.dataset, sid.value.snapName);
         full in z.snaps && size == Grown(z.snaps[full].size, z.vols[sid.value.dataset].block, a.size)
    else if a.volumeID != "" then
      var src := ParseExternalID(a.volumeID);
      && src.Ok? && src.value.dataset in z.vols && z.vols[src.value.dataset].block > 0
      && size == Grown(z.vols[src.value.dataset].size, z.vols[src.value.dataset].block, a.size)
    else a.block > 0 && size == RoundUp(a.size, a.block)
  }

  lemma RestoredSize(cfg: NodeConfig, z: Z, a: CreateArgs, ds: string)
    requires Inv(z) && a.snapshotID != "" && RestoreDo(cfg, z, a, ds).1.Ok?
    ensures ds in RestoreDo(cfg, z, a, ds).0.vols && Makes(z, a, RestoreDo(cfg, z, a, ds).0.vols[ds].size)
  {
    hide CheckCapacityDo, CloneIndependentDo, StampAndGrowDo, ParseSnapshotID, GoodSnap, RoundUp, FullName;
    var sid := ParseSnapshotID(a.snapshotID).value;
    CheckCapacityKeeps(cfg, z, a.pool, a.size);
    var z1 := CheckCapacityDo(cfg, z, a.pool, a.size).0;
    CloneIndependentKeeps(z1, sid.dataset, sid.snapName, ds);
    assert GoodVol(sid.dataset, z.vols[sid.dataset]);
    StampedSize(CloneIndependentDo(z1, sid.dataset, sid.snapName, ds).0, ds, a.snapshotID, a.size);
  }

  lemma ClonedSize(cfg: NodeConfig, z: Z, a: CreateArgs, ds: string)
    requires Inv(z) && a.snapshotID == "" && a.volumeID != "" && CloneDo(cfg, z, a, ds).1.Ok?
    ensures ds in CloneDo(cfg, z, a, ds).0.vols && Makes(z, a, CloneDo(cfg, z, a, ds).0.vols[ds].size)
  {
    hide CheckCapacityDo, CopyVolumeDo, StampAndGrowDo, ParseExternalID, GoodSnap, RoundUp, FullName;
    var src := ParseExternalID(a.volumeID).value.dataset;
    CheckCapacityKeeps(cfg, z, a.pool, a.size);
    var z1 := CheckCapacityDo(cfg, z, a.pool, a.size).0;
    CopyVolumeKeeps(z1, src, TransientName(a), ds);
    var (z2, copied) := CopyVolumeDo(z1, src, TransientName(a), ds);
    assert copied.Ok?;
    assert GoodVol(src, z.vols[src]);
    StampedSize(z2, ds, a.volumeID, a.size);
  }

  lemma FreshSize(cfg: NodeConfig, z: Z, a: CreateArgs, ds: string)
    requires Inv(z) && ContentSource(a) == "" && FreshDo(cfg, z, a, ds).1.Ok?
    ensures ds in FreshDo(cfg, z, a, ds).0.vols && Makes(z, a, FreshDo(cfg, z, a, ds).0.vols[ds].size)
  {
    hide CheckCapacityDo, CreateZvolDo, GoodSnap, RoundUp;
    CheckCapacityKeeps(cfg, z, a.pool, a.size);
    CreateZvolKeeps(CheckCapacityDo(cfg, z, a.pool, a.size).0, ds, a.size, a.block);
    PositiveBlock(CheckCapacityDo(cfg, z, a.pool, a.size).0, ds, a.size, a.block);
  }

  lemma PositiveBlock(z: Z, ds: string, size: int, block: int)
    ensures CreateZvolDo(z, ds, size, block).1 ==> block > 0
  {
  }

  lemma MadeSize(cfg: NodeConfig, z: Z, a: CreateArgs, ds: string)
    requires Inv(z) && MakeDo(cfg, z, a, ds).1.Ok?
    ensures ds in MakeDo(cfg, z, a, ds).0.vols && Makes(z, a, MakeDo(cfg, z, a, ds).0.vols[ds].size)
  {
    hide RestoreDo, CloneDo, FreshDo, Makes;
    if a.snapshotID != "" {
      RestoredSize(cfg, z, a, ds);
    } else if a.volumeID != "" {
      ClonedSize(cfg, z, a, ds);
    } else {
      FreshSize(cfg, z, a, ds);
    }
  }

  // ----- Repeating a create -----

  /** The request can be repeated: the dataset is already there, or what will be made has exactly
      the requested size. A restore or clone must fit its source, a fresh volume its blocks. */
  ghost predicate Repeatable(cfg: NodeConfig, z: Z, a: CreateArgs)
  {
    HasDataset(z, DatasetFor(cfg, a.pool, a.name)) ||
    if a.snapshotID != "" then
      var sid := ParseSnapshotID(a.snapshotID);
      && sid.Ok? && sid.value.dataset in z.vols && z.vols[sid.value.dataset].block > 0
      && var full := FullName(sid.value.dataset, sid.value.snapName);
         full in z.snaps && FitsCopy(z.snaps[full].size, z.vols[sid.value.dataset].block, a.size)
    else if a.volumeID != "" then
      var src := ParseExternalID(a.volumeID);
      && src.Ok? && src.value.dataset in z.vols && z.vols[src.value.dataset].block > 0
      && FitsCopy(z.vols[src.value.dataset].size, z.vols[src.value.dataset].block, a.size)
    else a.block > 0 && a.size % a.block == 0
  }

  lemma MakesExactSize(cfg: NodeConfig, z: Z, a: CreateArgs, size: int)
    requires Makes(z, a, size) && !HasDataset(z, DatasetFor(cfg, a.pool, a.name))
    ensures size == a.size <==> Repeatable(cfg, z, a)
  {
    hide ParseExternalID, ParseSnapshotID, FullName, DatasetFor, Grown, FitsCopy, RoundUp;
    if a.snapshotID != "" {
      var sid := ParseSnapshotID(a.snapshotID).value;
      GrownFits(z.snaps[FullName(sid.dataset, sid.snapName)].size, z.vols[sid.dataset].block, a.size);
    } else if a.volumeID != "" {
      var src := ParseExternalID(a.volumeID).value.dataset;
      GrownFits(z.vols[src].size, z.vols[src].block, a.size);
    } else {
      RoundUpLeast(a.size, a.block);
    }
  }

  function Clean(z: Z): Z
  {
    z.(faults := [])
  }

  /** A create that finds its dataset, with no command failing: accepted, changing nothing, if and
      only if the size and, for a copy, the recorded source are those asked for; refused for good
      otherwise. */
  lemma CreateOnExisting(cfg: NodeConfig, z: Z, a: CreateArgs)
    requires z.faults == [] && a.pool in z.pools && z.pools[a.pool].online
    requires DatasetFor(cfg, a.pool, a.name) in z.vols
    ensures var ds := DatasetFor(cfg, a.pool, a.name);
            var same := z.vols[ds].size == a.size && (ContentSource(a) == "" || z.vols[ds].source == ContentSource(a));
            CreateDo(cfg, z, a) == (z, if same then Ok(Created(PrintExternalID(ExternalID(cfg.name, ds)), ds, a.size))
                                       else Err(CodeAlreadyExists))
  {
    hide DatasetFor, PrintExternalID, MakeDo;
  }

  /** A create that succeeds found its pool online, and reused its dataset or made it. */
  lemma CreatePath(cfg: NodeConfig, z: Z, a: CreateArgs)
    requires CreateDo(cfg, z, a).1.Ok?
    ensures var ds := DatasetFor(cfg, a.pool, a.name);
            var (z', r) := CreateDo(cfg, z, a);
            var z2 := Later(z, 2);
            && a.pool in z.pools && z.pools[a.pool].online
            && r.value == Created(PrintExternalID(ExternalID(cfg.name, ds)), ds, a.size)
            && (|| (HasDataset(z, ds) && z' == ReuseDo(z2, a, ds).0 && ReuseDo(z2, a, ds).1.Ok?)
                || (z' == MakeDo(cfg, z2, a, ds).0 && MakeDo(cfg, z2, a, ds).1.Ok?))
  {
    hide MakeDo, ReuseDo, DatasetFor, PrintExternalID;
    assert Tick(Tick(z)) == Later(z, 2);
  }

  /** What a successful create, on any tape, has done. */
  lemma CreatedSize(cfg: NodeConfig, z: Z, a: CreateArgs)
    requires Inv(z) && CreateDo(cfg, z, a).1.Ok?
    ensures var ds := DatasetFor(cfg, a.pool, a.name);
            var z' := CreateDo(cfg, z, a).0;
            && ds in z'.vols && (ContentSource(a) != "" ==> z'.vols[ds].source == ContentSource(a))
            && (z'.vols[ds].size == a.size <==> Repeatable(cfg, z, a))
  {
    hide CreateDo, MakeDo, ReuseDo, DatasetFor, PrintExternalID, Makes, Repeatable, GoodSnap, GoodVol, HasDataset;
    var ds := DatasetFor(cfg, a.pool, a.name);
    var z2 := Later(z, 2);
    CreatePath(cfg, z, a);
    ReuseKeeps(z2, a, ds);
    SameQuestion(cfg, z, z2, a);
    Existing(cfg, z, a);
    if MakeDo(cfg, z2, a, ds).1.Ok? {
      MadeSize(cfg, z2, a, ds);
      MakeKeeps(cfg, z2, a, ds);
      AbsentBefore(cfg, z2, a, ds);
      MakesExactSize(cfg, z2, a, MakeDo(cfg, z2, a, ds).0.vols[ds].size);
    }
  }

  lemma SameQuestion(cfg: NodeConfig, z: Z, z2: Z, a: CreateArgs)
    requires Like(z2, z)
    ensures Repeatable(cfg, z2, a) <==> Repeatable(cfg, z, a)
  {
    hide ParseExternalID, ParseSnapshotID, FullName, DatasetFor, FitsCopy;
  }

  lemma Existing(cfg: NodeConfig, z: Z, a: CreateArgs)
    ensures HasDataset(z, DatasetFor(cfg, a.pool, a.name)) ==> Repeatable(cfg, z, a)
  {
    hide ParseExternalID, ParseSnapshotID, FullName, DatasetFor, FitsCopy;
  }

  lemma CreateZvolNeedsAbsence(z: Z, ds: string, size: int, block: int)
    ensures CreateZvolDo(z, ds, size, block).1 ==> !HasDataset(z, ds)
  {
    hide RoundUp, PoolOf;
  }

  lemma SendNeedsAbsence(z: Z, src: string, name: string, ds: string)
    ensures SendRecvDo(z, src, name, ds).1 ==> !HasDataset(z, ds)
  {
    hide PoolOf, FullName;
  }

  lemma CopyNeedsAbsence(z: Z, src: string, name: string, ds: string)
    ensures CopyVolumeDo(z, src, name, ds).1.Ok? ==> !HasDataset(z, ds)
  {
    hide SnapshotDo, SendRecvDo, DestroyDo, FullName;
    SnapshotOutcome(z, src, name);
    SendNeedsAbsence(SnapshotDo(z, src, name).0, src, name, ds);
  }

  /** ZFS makes no dataset over one that is there. */
  lemma AbsentBefore(cfg: NodeConfig, z: Z, a: CreateArgs, ds: string)
    requires MakeDo(cfg, z, a, ds).1.Ok?
    ensures !HasDataset(z, ds)
  {
    hide ParseExternalID, ParseSnapshotID, StampAndGrowDo, CheckCapacityDo, CopyVolumeDo, SendRecvDo, DestroyDo,
         CreateZvolDo, FullName, TransientName;
    CheckCapacityKeeps(cfg, z, a.pool, a.size);
    var z1 := CheckCapacityDo(cfg, z, a.pool, a.size).0;
    if a.snapshotID != "" {
      var sid := ParseSnapshotID(a.snapshotID).value;
      SendNeedsAbsence(z1, sid.dataset, sid.snapName, ds);
    } else if a.volumeID != "" {
      CopyNeedsAbsence(z1, ParseExternalID(a.volumeID).value.dataset, TransientName(a), ds);
    } else {
      CreateZvolNeedsAbsence(z1, ds, a.size, a.block);
    }
  }

  /** For every state and every way the first call's commands go: after a create that succeeded,
      repeating it without failures returns the same answer and changes nothing if and only if the
      request was repeatable before the first call, and is refused otherwise. */
  lemma RetryExactlyWhen(cfg: NodeConfig, z: Z, a: CreateArgs)
    requires Inv(z) && CreateDo(cfg, z, a).1.Ok?
    ensures var (z', r) := CreateDo(cfg, z, a);
            CreateDo(cfg, Clean(z'), a) == (Clean(z'), if Repeatable(cfg, z, a) then r else Err(CodeAlreadyExists))
  {
    hide CreateDo, MakeDo, ReuseDo, DatasetFor, PrintExternalID, Repeatable, Provisioned, GoodSnap, GoodVol;
    CreatePath(cfg, z, a);
    CreatedSize(cfg, z, a);
    CreateConserves(cfg, z, a);
    CreateOnExisting(cfg, Clean(CreateDo(cfg, z, a).0), a);
  }

  // ----- A create that failed half way -----

  /** The volume is what the request asks for. */
  predicate Matches(v: Vol, a: CreateArgs)
  {
    v.size == a.size && (ContentSource(a) == "" || v.source == ContentSource(a))
  }

  lemma ParseCodes(id: string)
    ensures ParseExternalID(id).Err? ==> ParseExternalID(id).code == CodeInvalidArgument
    ensures ParseSnapshotID(id).Err? ==> ParseSnapshotID(id).code == CodeInvalidArgument
  {
    hide SplitN, LastIndex, ValidDataset;
  }

  lemma MakeNeverFindsIt(cfg: NodeConfig, z: Z, a: CreateArgs, ds: string)
    ensures MakeDo(cfg, z, a, ds).1 != Err(CodeAlreadyExists)
  {
    hide ParseExternalID, ParseSnapshotID, CloneIndependentDo, SnapshotDo, DestroyDo, CreateZvolDo, SetSourceDo,
         SetVolsizeDo, ReserveBytes, ReserveFor, FullName, TransientName;
    ParseCodes(a.snapshotID);
    ParseCodes(a.volumeID);
  }

  /** Without failures, a create answers AlreadyExists if and only if its pool is online and its
      dataset is there but is not what the request asks for. */
  lemma RefusedExactly(cfg: NodeConfig, z: Z, a: CreateArgs)
    requires z.faults == []
    ensures var ds := DatasetFor(cfg, a.pool, a.name);
            CreateDo(cfg, z, a).1 == Err(CodeAlreadyExists) <==>
              a.pool in z.pools && z.pools[a.pool].online && ds in z.vols && !Matches(z.vols[ds], a)
  {
    hide MakeDo, DatasetFor, PrintExternalID;
    MakeNeverFindsIt(cfg, z, a, DatasetFor(cfg, a.pool, a.name));
  }

  /** For every state without the dataset and every way the commands of a create go, failed or not:
      repeating it without failures is refused, then and ever after, if and only if the create left
      a dataset that is not what the request asks for. */
  lemma RepeatRefusedExactly(cfg: NodeConfig, z: Z, a: CreateArgs)
    requires Inv(z) && DatasetFor(cfg, a.pool, a.name) !in z.vols
    ensures var z' := Clean(CreateDo(cfg, z, a).0);
            var left := LeftBy(cfg, z, a);
            && (CreateDo(cfg, z', a).1 == Err(CodeAlreadyExists) <==> left.Some? && !Matches(left.value, a))
            && (CreateDo(cfg, z', a).1 == Err(CodeAlreadyExists) ==> CreateDo(cfg, z', a).0 == z')
  {
    hide CreateDo, LeftByMake, CapacityOk, DatasetFor, PrintExternalID, Provisioned, GoodSnap, GoodVol;
    var z' := Clean(CreateDo(cfg, z, a).0);
    CreateLeavesExactly(cfg, z, a);
    CreateConserves(cfg, z, a);
    RefusedExactly(cfg, z', a);
    if CreateDo(cfg, z', a).1 == Err(CodeAlreadyExists) {
      CreateOnExisting(cfg, z', a);
    }
  }
}
