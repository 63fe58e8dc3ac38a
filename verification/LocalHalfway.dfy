/**
  What a create leaves on its node, finished or not: the one dataset it may add, exactly, from the
  state and the way each of its commands goes; and when a repeat of it is then refused for good.
*/
module LocalHalfway {
  import opened Base
  import opened LocalId
  import opened Zfs
  import opened LocalOps
  import opened LocalRuns
  import opened LocalClones

  // ----- One copy -----

  /** ZFS takes a new dataset of this size. */
  predicate Fits(z: Z, ds: string, bytes: int)
  {
    !HasDataset(z, ds) && '@' !in ds && Room(z, ds, bytes)
  }

  /** How the commands of a copy go, from the send to the grow. */
  datatype Fates = Fates(send: Fault, drop: Fault, stamp: Fault, read: Fault, grow: Fault)

  /** What a copy of `have` bytes asked to be `want` leaves: nothing unless the send takes effect; a
      dataset without a source unless the send, the drop of the received snapshot and the recording
      get through; and the grown size only if the read and the grow do as well. */
  function LeftCopy(z: Z, ds: string, have: int, block: int, source: string, want: int, f: Fates): Option<Vol>
    requires block > 0
  {
    if !Fits(z, ds, have) || !TakesEffect(f.send) then None
    else if !f.send.Fine? || !f.drop.Fine? || !TakesEffect(f.stamp) then Some(Vol(have, block, ""))
    else if GrowsTo(z, ds, have, block, want, f) then Some(Vol(RoundUp(want, block), block, source))
    else Some(Vol(have, block, source))
  }

  predicate GrowsTo(z: Z, ds: string, have: int, block: int, want: int, f: Fates)
    requires block > 0
  {
    && f.stamp.Fine? && TakesEffect(f.read) && have < want
    && TakesEffect(f.grow) && Room(z, ds, RoundUp(want, block))
  }

  function Put(vols: map<string, Vol>, ds: string, left: Option<Vol>): map<string, Vol>
  {
    if left.Some? then vols[ds := left.value] else vols
  }

  function Arrived(here: bool, v: Vol): Option<Vol>
  {
    if here then Some(v) else None
  }

  function Charged(z: Z, ds: string, left: Option<Vol>): map<string, Pool>
  {
    if left.Some? then Charge(z.pools, PoolOf(ds), left.value.size) else z.pools
  }

  lemma SendLands(z: Z, src: string, name: string, ds: string)
    requires FullName(src, name) in z.snaps && src in z.vols && '@' !in name
    ensures var have := z.snaps[FullName(src, name)].size;
            var left := Arrived(Fits(z, ds, have) && TakesEffect(FaultAt(z, 0)), Vol(have, z.vols[src].block, ""));
            var (z1, ok) := SendRecvDo(z, src, name, ds);
            && z1.vols == Put(z.vols, ds, left) && z1.pools == Charged(z, ds, left)
            && z1.faults == Later(z, 1).faults
            && (ok <==> Fits(z, ds, have) && FaultAt(z, 0).Fine?)
            && (ok ==> FullName(ds, name) in z1.snaps)
  {
    hide PoolOf, FullName;
  }

  lemma DropLands(z: Z, full: string)
    requires full !in z.vols
    ensures var (z1, ok) := DestroyDo(z, full);
            && z1.vols == z.vols && z1.pools == z.pools && z1.faults == Later(z, 1).faults
            && (full in z.snaps ==> (ok <==> FaultAt(z, 0).Fine?))
  {
    hide PoolOf;
  }

  lemma FullIsNoVolume(z: Z, ds: string, name: string)
    requires Inv(z)
    ensures FullName(ds, name) !in z.vols
  {
    hide GoodSnap;
    assert FullName(ds, name)[|ds|] == '@';
    assert FullName(ds, name) in z.vols ==> GoodVol(FullName(ds, name), z.vols[FullName(ds, name)]);
  }

  lemma CloneLands(z: Z, src: string, name: string, ds: string)
    requires Inv(z) && FullName(src, name) in z.snaps && src in z.vols && '@' !in name
    ensures var have := z.snaps[FullName(src, name)].size;
            var left := Arrived(Fits(z, ds, have) && TakesEffect(FaultAt(z, 0)), Vol(have, z.vols[src].block, ""));
            var (z2, ok) := CloneIndependentDo(z, src, name, ds);
            && z2.vols == Put(z.vols, ds, left) && z2.pools == Charged(z, ds, left)
            && (ok <==> Fits(z, ds, have) && FaultAt(z, 0).Fine? && FaultAt(z, 1).Fine?)
            && (ok ==> z2.faults == Later(z, 2).faults)
  {
    hide SendRecvDo, DestroyDo, Inv, Fits, FullName, PoolOf, Charge;
    SendLands(z, src, name, ds);
    SendRecvKeeps(z, src, name, ds);
    var (z1, sent) := SendRecvDo(z, src, name, ds);
    FullIsNoVolume(z1, ds, name);
    DropLands(z1, FullName(ds, name));
    FaultsAlike(z1, z, 1);
    LaterAlike(z1, z, 1, 1);
  }

  lemma LaterAlike(z: Z, y: Z, i: nat, k: nat)
    requires z.faults == Later(y, i).faults
    ensures Later(z, k).faults == Later(y, i + k).faults && FaultAt(z, k) == FaultAt(y, i + k)
  {
  }

  lemma CopyLands(z: Z, src: string, name: string, ds: string)
    requires Inv(z) && src in z.vols && '@' !in name && FullName(src, name) !in z.snaps && FaultAt(z, 0).Fine?
    ensures var have := z.vols[src].size;
            var left := Arrived(Fits(z, ds, have) && TakesEffect(FaultAt(z, 1)), Vol(have, z.vols[src].block, ""));
            var (z', r) := CopyVolumeDo(z, src, name, ds);
            && z'.vols == Put(z.vols, ds, left) && z'.pools == Charged(z, ds, left)
            && (r.Ok? <==> Fits(z, ds, have) && FaultAt(z, 1).Fine? && FaultAt(z, 2).Fine?)
            && (r.Ok? ==> z'.faults == Later(z, 4).faults)
  {
    hide SnapshotDo, CloneIndependentDo, DestroyDo, Inv, Fits, FullName, PoolOf, Charge;
    SnapshotOutcome(z, src, name);
    SnapshotKeeps(z, src, name);
    var (z1, made) := SnapshotDo(z, src, name);
    SameFit(z, z1, src, name, ds);
    LaterAlike(z1, z, 1, 0);
    LaterAlike(z1, z, 1, 1);
    LaterAlike(z1, z, 1, 2);
    CloneLands(z1, src, name, ds);
    CloneIndependentKeeps(z1, src, name, ds);
    var (z2, ok) := CloneIndependentDo(z1, src, name, ds);
    FullIsNoVolume(z2, src, name);
    DropLands(z2, FullName(src, name));
    if ok {
      LaterAlike(z2, z, 3, 1);
    }
  }

  /** The transient snapshot does not change whether the copy fits. */
  lemma SameFit(z: Z, z1: Z, src: string, name: string, ds: string)
    requires src in z.vols
    requires z1 == Later(z, 1).(snaps := z.snaps[FullName(src, name) := Snap(src, z.vols[src].size, z.clock)])
    ensures Fits(z, ds, z.vols[src].size) <==> Fits(z1, ds, z1.snaps[FullName(src, name)].size)
  {
    assert FullName(src, name)[|src|] == '@';
    hide PoolOf;
  }

  /** A copy that cannot even make its transient snapshot, or makes it by a command that fails, goes
      no further. */
  lemma CopyStops(z: Z, src: string, name: string, ds: string)
    requires !(src in z.vols && '@' !in name && FullName(src, name) !in z.snaps && FaultAt(z, 0).Fine?)
    ensures var (z', r) := CopyVolumeDo(z, src, name, ds);
            z'.vols == z.vols && z'.pools == z.pools && r.Err?
  {
    hide SnapshotDo, CloneIndependentDo, DestroyDo, FullName;
    SnapshotOutcome(z, src, name);
  }

  lemma SendStops(z: Z, src: string, name: string, ds: string)
    requires !(FullName(src, name) in z.snaps && src in z.vols && '@' !in name)
    ensures var (z', ok) := CloneIndependentDo(z, src, name, ds);
            z'.vols == z.vols && z'.pools == z.pools && !ok
  {
    hide PoolOf, FullName;
  }

  // ----- Recording the source and growing -----

  lemma GrowLands(z: Z, ds: string, want: int)
    requires ds in z.vols && z.vols[ds].block > 0
    ensures var v := z.vols[ds];
            var rounded := RoundUp(want, v.block);
            var grown := TakesEffect(FaultAt(z, 0)) && v.size < want && TakesEffect(FaultAt(z, 1))
                         && Room(z, ds, rounded - v.size);
            var z' := GrowIfNeededDo(z, ds, want).0;
            && z'.vols == (if grown then z.vols[ds := v.(size := rounded)] else z.vols)
            && z'.pools == (if grown then Charge(z.pools, PoolOf(ds), rounded - v.size) else z.pools)
  {
    hide RoundUp, PoolOf, Charge;
  }

  lemma StampLands(z: Z, ds: string, source: string)
    requires ds in z.vols
    ensures var (z1, ok) := SetSourceDo(z, ds, source);
            && z1.vols == (if TakesEffect(FaultAt(z, 0)) then z.vols[ds := z.vols[ds].(source := source)] else z.vols)
            && z1.pools == z.pools && z1.faults == Later(z, 1).faults
            && (ok <==> FaultAt(z, 0).Fine?)
  {
  }

  /** From the copy's arrival in `y` to what is left of it. */
  lemma StampAndGrowLands(y: Z, z: Z, ds: string, v: Vol, source: string, want: int, f: Fates)
    requires v.block > 0 && v.source == "" && Fits(y, ds, v.size) && f.send.Fine? && f.drop.Fine?
    requires z.vols == y.vols[ds := v] && z.pools == Charge(y.pools, PoolOf(ds), v.size)
    requires f.stamp == FaultAt(z, 0) && f.read == FaultAt(z, 1) && f.grow == FaultAt(z, 2)
    ensures StampAndGrowDo(z, ds, source, want).0.vols
         == Put(y.vols, ds, LeftCopy(y, ds, v.size, v.block, source, want, f))
  {
    hide SetSourceDo, GrowIfNeededDo, RoundUp, PoolOf, HasDataset;
    StampLands(z, ds, source);
    var (z1, ok) := SetSourceDo(z, ds, source);
    if ok {
      GrowLands(z1, ds, want);
      LaterAlike(z1, z, 1, 0);
      LaterAlike(z1, z, 1, 1);
    }
  }

  // ----- The whole create -----

  /** The dataset a create leaves under its name when it was not there before, from the state and the
      tape before the call. The commands are counted from its first one: two looks, two capacity
      queries, then the copy or the fresh create. */
  ghost function LeftBy(cfg: NodeConfig, z: Z, a: CreateArgs): Option<Vol>
  {
    var ds := DatasetFor(cfg, a.pool, a.name);
    if !GetsToMake(cfg, z, a) || !CapacityOk(cfg, Later(z, 2), a.pool, a.size) then None
    else LeftByMake(cfg, z, a, ds, 4)
  }

  ghost function LeftByMake(cfg: NodeConfig, z: Z, a: CreateArgs, ds: string, k: nat): Option<Vol>
  {
    if a.snapshotID != "" then
      var sid := ParseSnapshotID(a.snapshotID);
      if sid.Err? || sid.value.node != cfg.name then None
      else LeftByRestore(z, a, ds, sid.value.dataset, sid.value.snapName, k)
    else if a.volumeID != "" then
      var src := ParseExternalID(a.volumeID);
      if src.Err? || src.value.node != cfg.name then None else LeftByClone(z, a, ds, src.value.dataset, k)
    else if a.block <= 0 || a.size <= 0 then None
    else Arrived(Fits(z, ds, RoundUp(a.size, a.block)) && TakesEffect(FaultAt(z, k)),
                 Vol(RoundUp(a.size, a.block), a.block, ""))
  }

  ghost function LeftByRestore(z: Z, a: CreateArgs, ds: string, src: string, name: string, k: nat): Option<Vol>
  {
    var full := FullName(src, name);
    if full !in z.snaps || src !in z.vols || z.vols[src].block <= 0 || '@' in name then None
    else LeftCopy(z, ds, z.snaps[full].size, z.vols[src].block, a.snapshotID, a.size,
                  Fates(FaultAt(z, k), FaultAt(z, k + 1), FaultAt(z, k + 2), FaultAt(z, k + 3), FaultAt(z, k + 4)))
  }

  /** A clone first makes its transient snapshot, and drops it after the copy's own. */
  ghost function LeftByClone(z: Z, a: CreateArgs, ds: string, src: string, k: nat): Option<Vol>
  {
    var name := TransientName(a);
    if src !in z.vols || z.vols[src].block <= 0 || '@' in name || FullName(src, name) in z.snaps
       || !FaultAt(z, k).Fine? then None
    else LeftCopy(z, ds, z.vols[src].size, z.vols[src].block, a.volumeID, a.size,
                  Fates(FaultAt(z, k + 1), FaultAt(z, k + 2), FaultAt(z, k + 4), FaultAt(z, k + 5), FaultAt(z, k + 6)))
  }

  lemma RestoreLeaves(z: Z, a: CreateArgs, ds: string, src: string, name: string)
    requires Inv(z)
    ensures var (z2, ok) := CloneIndependentDo(z, src, name, ds);
            var z3 := if ok then StampAndGrowDo(z2, ds, a.snapshotID, a.size).0 else z2;
            z3.vols == Put(z.vols, ds, LeftByRestore(z, a, ds, src, name, 0))
  {
    hide CloneIndependentDo, StampAndGrowDo, FullName, Fits, PoolOf, Charge, Inv, RoundUp;
    if FullName(src, name) in z.snaps && src in z.vols && '@' !in name {
      SoundBlock(z, src);
      CloneLands(z, src, name, ds);
      var (z2, ok) := CloneIndependentDo(z, src, name, ds);
      var v := Vol(z.snaps[FullName(src, name)].size, z.vols[src].block, "");
      var f := Fates(FaultAt(z, 0), FaultAt(z, 1), FaultAt(z, 2), FaultAt(z, 3), FaultAt(z, 4));
      if ok {
        LaterAlike(z2, z, 2, 0);
        LaterAlike(z2, z, 2, 1);
        LaterAlike(z2, z, 2, 2);
        StampAndGrowLands(z, z2, ds, v, a.snapshotID, a.size, f);
      }
    } else {
      SendStops(z, src, name, ds);
    }
  }

  lemma SoundBlock(z: Z, ds: string)
    requires Inv(z) && ds in z.vols
    ensures z.vols[ds].block > 0 && z.vols[ds].size > 0
  {
    hide GoodSnap;
    assert GoodVol(ds, z.vols[ds]);
  }

  lemma CloneLeaves(z: Z, a: CreateArgs, ds: string, src: string)
    requires Inv(z)
    ensures var (z2, r) := CopyVolumeDo(z, src, TransientName(a), ds);
            var z3 := if r.Ok? then StampAndGrowDo(z2, ds, a.volumeID, a.size).0 else z2;
            z3.vols == Put(z.vols, ds, LeftByClone(z, a, ds, src, 0))
  {
    hide CopyVolumeDo, StampAndGrowDo, FullName, Fits, PoolOf, Charge, Inv, RoundUp, TransientName;
    var name := TransientName(a);
    if src in z.vols && '@' !in name && FullName(src, name) !in z.snaps && FaultAt(z, 0).Fine? {
      SoundBlock(z, src);
      CopyLands(z, src, name, ds);
      var (z2, r) := CopyVolumeDo(z, src, name, ds);
      var v := Vol(z.vols[src].size, z.vols[src].block, "");
      var f := Fates(FaultAt(z, 1), FaultAt(z, 2), FaultAt(z, 4), FaultAt(z, 5), FaultAt(z, 6));
      if r.Ok? {
        LaterAlike(z2, z, 4, 0);
        LaterAlike(z2, z, 4, 1);
        LaterAlike(z2, z, 4, 2);
        StampAndGrowLands(z, z2, ds, v, a.volumeID, a.size, f);
      }
    } else {
      CopyStops(z, src, name, ds);
    }
  }

  lemma FreshLeaves(z: Z, ds: string, size: int, block: int)
    ensures CreateZvolDo(z, ds, size, block).0.vols
         == Put(z.vols, ds, if block <= 0 || size <= 0 then None
                            else Arrived(Fits(z, ds, RoundUp(size, block)) && TakesEffect(FaultAt(z, 0)),
                                         Vol(RoundUp(size, block), block, "")))
  {
    hide RoundUp, PoolOf;
  }

  lemma MakeLeaves(cfg: NodeConfig, z: Z, a: CreateArgs, ds: string)
    requires Inv(z)
    ensures MakeDo(cfg, z, a, ds).0.vols
         == Put(z.vols, ds, if CapacityOk(cfg, z, a.pool, a.size) then LeftByMake(cfg, Later(z, 2), a, ds, 0) else None)
  {
    hide CheckCapacityDo, CapacityOk, CloneIndependentDo, CopyVolumeDo, StampAndGrowDo, CreateZvolDo, ParseExternalID,
         ParseSnapshotID, LeftByRestore, LeftByClone, Fits, RoundUp, Inv, Later, FaultAt, TransientName;
    CapacityOutcome(cfg, z, a.pool, a.size);
    CheckCapacityKeeps(cfg, z, a.pool, a.size);
    SoundLater(z, 2);
    var z1 := Later(z, 2);
    if a.snapshotID != "" {
      if ParseSnapshotID(a.snapshotID).Ok? {
        var sid := ParseSnapshotID(a.snapshotID).value;
        RestoreLeaves(z1, a, ds, sid.dataset, sid.snapName);
      }
    } else if a.volumeID != "" {
      if ParseExternalID(a.volumeID).Ok? {
        var src := ParseExternalID(a.volumeID).value;
        CloneLeaves(z1, a, ds, src.dataset);
        var (z2, copied) := CopyVolumeDo(z1, src.dataset, TransientName(a), ds);
        assert CapacityOk(cfg, z, a.pool, a.size) && src.node == cfg.name ==>
               CloneDo(cfg, z, a, ds).0 == if copied.Ok? then StampAndGrowDo(z2, ds, a.volumeID, a.size).0 else z2;
      }
    } else {
      FreshLeaves(z1, ds, a.size, a.block);
    }
  }

  lemma SoundLater(z: Z, k: nat)
    ensures Later(z, k).vols == z.vols && (Inv(z) ==> Inv(Later(z, k)))
  {
  }

  lemma Shifted(cfg: NodeConfig, z: Z, a: CreateArgs, ds: string)
    ensures LeftByMake(cfg, Later(z, 4), a, ds, 0) == LeftByMake(cfg, z, a, ds, 4)
  {
    hide ParseExternalID, ParseSnapshotID, FullName, RoundUp, TransientName, PoolOf;
    forall k: nat
      ensures FaultAt(Later(z, 4), k) == FaultAt(z, k + 4)
    {
      LaterLater(z, 4, k);
    }
  }

  /** Exactly what a create adds, whatever fails in it: the dataset above and no other change to any
      volume. */
  lemma CreateLeavesExactly(cfg: NodeConfig, z: Z, a: CreateArgs)
    requires Inv(z)
    ensures CreateDo(cfg, z, a).0.vols == Put(z.vols, DatasetFor(cfg, a.pool, a.name), LeftBy(cfg, z, a))
  {
    hide MakeDo, CreateDo, GetsToMake, CapacityOk, LeftByMake, DatasetFor, Inv, Later;
    var ds := DatasetFor(cfg, a.pool, a.name);
    MakeOutcome(cfg, z, a);
    SoundLater(z, 2);
    LaterLater(z, 2, 2);
    MakeLeaves(cfg, Later(z, 2), a, ds);
    Shifted(cfg, z, a, ds);
  }
}
