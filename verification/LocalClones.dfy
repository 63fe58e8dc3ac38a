/**
  What a clone leaves on its source: exactly when the transient snapshot stays behind, in every run
  and for every way the commands of the create may go.
*/
module LocalClones {
  import opened Text
  import opened LocalId
  import opened Zfs
  import opened LocalOps
  import opened LocalRuns
  import opened LocalTheorems

  // ----- Positions on the tape -----

  lemma LaterLater(z: Z, i: nat, k: nat)
    ensures Later(Later(z, i), k) == Later(z, i + k) && FaultAt(Later(z, i), k) == FaultAt(z, i + k)
  {
  }

  /** With the snapshot as the first command and the send as the second, the copy arrives. */
  predicate Receives(z: Z, src: string, ds: string)
    requires src in z.vols
  {
    FaultAt(z, 1).Fine? && !HasDataset(z, ds) && '@' !in ds && Room(z, ds, z.vols[src].size)
  }

  /** The transient snapshot is made and its drop has no effect: it was made by a command that then
      failed, or dropping it, after the copy's own snapshot if the copy arrived, failed at once. */
  predicate LeavesTransient(z: Z, src: string, name: string, ds: string)
  {
    && src in z.vols && '@' !in name && FullName(src, name) !in z.snaps
    && (|| FaultAt(z, 0).After?
        || (FaultAt(z, 0).Fine? && !TakesEffect(FaultAt(z, if Receives(z, src, ds) then 3 else 2))))
  }

  lemma SnapshotOutcome(z: Z, src: string, name: string)
    ensures var (z1, ok) := SnapshotDo(z, src, name);
            var full := FullName(src, name);
            var made := src in z.vols && '@' !in name && full !in z.snaps;
            && (ok <==> made && FaultAt(z, 0).Fine?)
            && z1 == if made && TakesEffect(FaultAt(z, 0))
                     then Later(z, 1).(snaps := z.snaps[full := Snap(src, z.vols[src].size, z.clock)])
                     else Later(z, 1)
  {
  }

  lemma SendOutcome(z: Z, src: string, name: string, ds: string)
    requires FullName(src, name) in z.snaps && src in z.vols
    ensures var (z1, ok) := SendRecvDo(z, src, name, ds);
            && z1.faults == Later(z, 1).faults
            && (ok <==> FaultAt(z, 0).Fine? && !HasDataset(z, ds) && '@' !in ds && '@' !in name
                        && Room(z, ds, z.snaps[FullName(src, name)].size))
  {
    hide RoundUp, PoolOf;
  }

  lemma DestroyTicks(z: Z, name: string)
    ensures DestroyDo(z, name).0.faults == Later(z, 1).faults
    ensures name in z.snaps ==> (name in DestroyDo(z, name).0.snaps <==> !TakesEffect(FaultAt(z, 0)))
  {
  }

  /** How many commands an independent clone takes: one if the send fails, two if it works. */
  lemma CloneTicks(z: Z, src: string, name: string, ds: string)
    requires Inv(z) && FullName(src, name) in z.snaps && src in z.vols
    ensures var k: nat := if SendRecvDo(z, src, name, ds).1 then 2 else 1;
            CloneIndependentDo(z, src, name, ds).0.faults == Later(z, k).faults
  {
    hide SendRecvDo, DestroyDo, FullName;
    SendOutcome(z, src, name, ds);
    DestroyTicks(SendRecvDo(z, src, name, ds).0, FullName(ds, name));
  }

  /** After a copy, whatever failed in it, the transient snapshot is there if and only if it was
      there before or the conditions above leave it behind. */
  lemma CopyLeavesTransient(z: Z, src: string, name: string, ds: string)
    requires Inv(z)
    ensures FullName(src, name) in CopyVolumeDo(z, src, name, ds).0.snaps <==>
            FullName(src, name) in z.snaps || LeavesTransient(z, src, name, ds)
  {
    hide SnapshotDo, CloneIndependentDo, SendRecvDo, DestroyDo, GoodSnap, GoodVol, FullName;
    SnapshotKeeps(z, src, name);
    SnapshotOutcome(z, src, name);
    var (z1, made) := SnapshotDo(z, src, name);
    if made {
      SendOutcome(z1, src, name, ds);
      CloneTicks(z1, src, name, ds);
      CloneIndependentKeeps(z1, src, name, ds);
      var k: nat := if SendRecvDo(z1, src, name, ds).1 then 2 else 1;
      var z2 := CloneIndependentDo(z1, src, name, ds).0;
      DestroyTicks(z2, FullName(src, name));
      SameRoom(z, z1, src, name, ds);
      FaultsAlike(z2, z1, k);
      LaterLater(z, 1, k);
    }
  }

  lemma FaultsAlike(z: Z, y: Z, k: nat)
    requires z.faults == Later(y, k).faults
    ensures FaultAt(z, 0) == FaultAt(y, k)
  {
  }

  /** The transient snapshot does not change whether the copy may arrive. */
  lemma SameRoom(z: Z, z1: Z, src: string, name: string, ds: string)
    requires src in z.vols
    requires z1 == Later(z, 1).(snaps := z.snaps[FullName(src, name) := Snap(src, z.vols[src].size, z.clock)])
    ensures Receives(z, src, ds) <==>
            FaultAt(z1, 0).Fine? && !HasDataset(z1, ds) && '@' !in ds
                && Room(z1, ds, z1.snaps[FullName(src, name)].size)
  {
    assert FullName(src, name)[|src|] == '@';
    hide PoolOf;
  }

  // ----- The clone and the create around it -----

  /** Both queries of the capacity guard answer, and the pool has room above its reserve. */
  predicate CapacityOk(cfg: NodeConfig, z: Z, pool: string, size: int)
  {
    && pool in z.pools && TakesEffect(FaultAt(z, 0)) && TakesEffect(FaultAt(z, 1))
    && z.pools[pool].avail - ReserveBytes(z.pools[pool].size, ReserveFor(cfg, pool)) >= size
  }

  lemma CapacityOutcome(cfg: NodeConfig, z: Z, pool: string, size: int)
    ensures CheckCapacityDo(cfg, z, pool, size).1.Ok? <==> CapacityOk(cfg, z, pool, size)
    ensures CapacityOk(cfg, z, pool, size) ==> CheckCapacityDo(cfg, z, pool, size).0 == Later(z, 2)
  {
    hide ReserveBytes, ReserveFor;
  }

  /** The create gets as far as making the dataset: its pool is online, and the dataset is absent
      or the look at it says so. */
  predicate GetsToMake(cfg: NodeConfig, z: Z, a: CreateArgs)
  {
    && a.pool in z.pools && z.pools[a.pool].online && TakesEffect(FaultAt(z, 0))
    && (|| FaultAt(z, 1).ExitOne?
        || (TakesEffect(FaultAt(z, 1)) && !HasDataset(z, DatasetFor(cfg, a.pool, a.name))))
  }

  /** A clone by create leaves its transient snapshot behind; a condition on the state and on how
      the commands go, before the call. */
  predicate CloneLeavesTransient(cfg: NodeConfig, z: Z, a: CreateArgs)
  {
    var eid := ParseExternalID(a.volumeID);
    && a.snapshotID == "" && a.volumeID != "" && eid.Ok? && eid.value.node == cfg.name
    && GetsToMake(cfg, z, a) && CapacityOk(cfg, Later(z, 2), a.pool, a.size)
    && LeavesTransient(Later(z, 4), eid.value.dataset, TransientName(a), DatasetFor(cfg, a.pool, a.name))
  }

  lemma MakeOutcome(cfg: NodeConfig, z: Z, a: CreateArgs)
    ensures var ds := DatasetFor(cfg, a.pool, a.name);
            && (GetsToMake(cfg, z, a) ==> CreateDo(cfg, z, a).0 == MakeDo(cfg, Later(z, 2), a, ds).0)
            && (!GetsToMake(cfg, z, a) ==> Like(CreateDo(cfg, z, a).0, z))
  {
    hide MakeDo, DatasetFor, PrintExternalID;
  }

  lemma CloneOutcome(cfg: NodeConfig, z: Z, a: CreateArgs, ds: string)
    requires Inv(z) && ParseExternalID(a.volumeID).Ok?
    ensures var eid := ParseExternalID(a.volumeID).value;
            var full := FullName(eid.dataset, TransientName(a));
            full in CloneDo(cfg, z, a, ds).0.snaps <==>
              || full in z.snaps
              || (eid.node == cfg.name && CapacityOk(cfg, z, a.pool, a.size)
                  && LeavesTransient(Later(z, 2), eid.dataset, TransientName(a), ds))
  {
    hide CheckCapacityDo, CapacityOk, CopyVolumeDo, StampAndGrowDo, ParseExternalID, LeavesTransient, GoodSnap,
        GoodVol, FullName, Later;
    var src := ParseExternalID(a.volumeID).value.dataset;
    CapacityOutcome(cfg, z, a.pool, a.size);
    CheckCapacityKeeps(cfg, z, a.pool, a.size);
    var z1 := CheckCapacityDo(cfg, z, a.pool, a.size).0;
    CopyLeavesTransient(z1, src, TransientName(a), ds);
    CopyVolumeKeeps(z1, src, TransientName(a), ds);
    var (z2, copied) := CopyVolumeDo(z1, src, TransientName(a), ds);
    if copied.Ok? {
      StampAndGrowKeeps(z2, ds, a.volumeID, a.size);
    }
  }

  /** The snapshot received with a copy belongs to the copy. */
  lemma InheritedIsNotOurs(z: Z, src: string, ds: string, name: string)
    requires Inv(z) && SnapshotOf(z, FullName(ds, name), src)
    ensures FullName(ds, name) == FullName(src, name)
  {
    assert FullName(ds, name)[|ds|] == '@';
    if '@' !in ds {
      FullNameParts(ds, name);
    }
  }

  /** In every run, for every way its own commands go, a create that clones leaves the transient
      snapshot on its source if and only if it was there before or the pre-call condition says
      so; otherwise the snapshots of the source are exactly those from before. The source itself
      never changes. */
  lemma CloneSparesItsSource(cfg: NodeConfig, z: Z, ops: seq<Op>, n: nat, a: CreateArgs)
    requires Inv(z) && n <= |ops| && a.snapshotID == "" && a.volumeID != "" && ParseExternalID(a.volumeID).Ok?
    ensures var zn := StateAt(cfg, z, ops, n);
            var z' := CreateDo(cfg, zn, a).0;
            var src := ParseExternalID(a.volumeID).value.dataset;
            var full := FullName(src, TransientName(a));
            && (full in z'.snaps <==> full in zn.snaps || CloneLeavesTransient(cfg, zn, a))
            && (forall f :: SnapshotOf(z', f, src) <==>
                  SnapshotOf(zn, f, src) || (f == full && CloneLeavesTransient(cfg, zn, a)))
            && (forall f :: SnapshotOf(zn, f, src) ==> z'.snaps[f] == zn.snaps[f])
            && (src in zn.vols ==> src in z'.vols && z'.vols[src] == zn.vols[src])
  {
    hide StateAt, MakeDo, CloneDo, GetsToMake, CapacityOk, LeavesTransient, DatasetFor, ParseExternalID, GoodSnap,
        GoodVol, FullName, CreateDo;
    RunKeepsInv(cfg, z, ops, n);
    CloneSpares(cfg, StateAt(cfg, z, ops, n), a);
  }

  lemma CloneSpares(cfg: NodeConfig, z: Z, a: CreateArgs)
    requires Inv(z) && a.snapshotID == "" && a.volumeID != "" && ParseExternalID(a.volumeID).Ok?
    ensures var z' := CreateDo(cfg, z, a).0;
            var src := ParseExternalID(a.volumeID).value.dataset;
            var full := FullName(src, TransientName(a));
            && (full in z'.snaps <==> full in z.snaps || CloneLeavesTransient(cfg, z, a))
            && (forall f :: SnapshotOf(z', f, src) <==>
                SnapshotOf(z, f, src) || (f == full && CloneLeavesTransient(cfg, z, a)))
            && (forall f :: SnapshotOf(z, f, src) ==> z'.snaps[f] == z.snaps[f])
            && (src in z.vols ==> src in z'.vols && z'.vols[src] == z.vols[src])
  {
    hide CloneDo, CreateDo, GetsToMake, CapacityOk, LeavesTransient, DatasetFor, ParseExternalID, GoodSnap, GoodVol,
        FullName;
    var ds := DatasetFor(cfg, a.pool, a.name);
    var src := ParseExternalID(a.volumeID).value.dataset;
    MakeOutcome(cfg, z, a);
    CreateKeeps(cfg, z, a);
    if GetsToMake(cfg, z, a) {
      var z2 := Later(z, 2);
      LaterLater(z, 2, 2);
      CloneOutcome(cfg, z2, a, ds);
      CloneKeeps(cfg, z2, a, ds);
      if ds in z.vols {
        CloneOntoExisting(cfg, z2, a, ds);
      }
      SnapshotsOfSource(z, CreateDo(cfg, z, a).0, src, ds, TransientName(a));
    }
  }

  lemma SendOntoExisting(z: Z, src: string, name: string, ds: string)
    requires HasDataset(z, ds)
    ensures var (z', ok) := CloneIndependentDo(z, src, name, ds);
            !ok && z'.vols == z.vols
  {
    hide PoolOf, FullName;
  }

  /** A clone onto a dataset that is there, its own source included, is refused by the receive. */
  lemma CloneOntoExisting(cfg: NodeConfig, z: Z, a: CreateArgs, ds: string)
    requires Inv(z) && ds in z.vols
    ensures CloneDo(cfg, z, a, ds).0.vols == z.vols
  {
    hide CheckCapacityDo, SnapshotDo, CloneIndependentDo, DestroyDo, StampAndGrowDo, ParseExternalID, GoodSnap, GoodVol,
         FullName, TransientName;
    var src := ParseExternalID(a.volumeID);
    if src.Ok? {
      CheckCapacityKeeps(cfg, z, a.pool, a.size);
      var z1 := CheckCapacityDo(cfg, z, a.pool, a.size).0;
      var name := TransientName(a);
      SnapshotKeeps(z1, src.value.dataset, name);
      var z2 := SnapshotDo(z1, src.value.dataset, name).0;
      SendOntoExisting(z2, src.value.dataset, name, ds);
      CloneIndependentKeeps(z2, src.value.dataset, name, ds);
      HasAt(src.value.dataset, name);
      DestroySnapshotKeeps(CloneIndependentDo(z2, src.value.dataset, name, ds).0, FullName(src.value.dataset, name));
    }
  }

  lemma HasAt(ds: string, name: string)
    ensures '@' in FullName(ds, name)
  {
    assert FullName(ds, name)[|ds|] == '@';
  }

  lemma SnapshotsOfSource(z: Z, z': Z, src: string, ds: string, name: string)
    requires Inv(z) && Inv(z') && SnapsWithin(z, z', {FullName(src, name), FullName(ds, name)})
    ensures forall f :: SnapshotOf(z', f, src) <==> SnapshotOf(z, f, src) || (f == FullName(src, name) && f in z'.snaps)
    ensures forall f :: SnapshotOf(z, f, src) ==> z'.snaps[f] == z.snaps[f]
  {
    hide GoodSnap, GoodVol, FullName;
    forall f
      ensures SnapshotOf(z', f, src) <==> SnapshotOf(z, f, src) || (f == FullName(src, name) && f in z'.snaps)
    {
      if SnapshotOf(z', f, src) && f == FullName(ds, name) && f !in z.snaps {
        InheritedIsNotOurs(z', src, ds, name);
      }
      if f == FullName(src, name) && f in z'.snaps {
        TransientIsOfSource(z', src, name);
      }
    }
  }

  lemma LaterAt(src: string, name: string, i: nat)
    ensures i < |src| ==> '@' in FullName(src, name)[i + 1..]
  {
    if i < |src| {
      assert FullName(src, name)[i + 1..][|src| - i - 1] == '@';
    }
  }

  lemma TransientIsOfSource(z: Z, src: string, name: string)
    requires Inv(z) && FullName(src, name) in z.snaps
    ensures z.snaps[FullName(src, name)].dataset == src
  {
    var full := FullName(src, name);
    assert GoodSnap(z.vols, full, z.snaps[full]);
    var i := IndexOf(full, '@');
    assert full[|src|] == '@' && i <= |src|;
    LaterAt(src, name, i);
    assert full[..|src|] == src;
  }
}
