/** The node-local operations of the local backend, each a sequence of ZFS commands with early returns. */
module LocalOps {
  import opened Driver
  import opened LocalId
  import opened Zfs

  /** What a node knows about itself: its name, the reserve percentages and the parent datasets. */
  datatype NodeConfig = NodeConfig(name: string, reserve: map<string, int>, defaultReserve: int,
                                   parents: map<string, string>, defaultParent: string)

  datatype CreateArgs = CreateArgs(name: string, pool: string, size: int, block: int,
                                   snapshotID: string, volumeID: string)

  datatype Created = Created(volumeID: string, dataset: string, capacity: int)

  datatype Snapped = Snapped(snapshotID: string, size: int, created: int)

  datatype Stats = Stats(node: string, hasPool: bool, volumeCount: nat, avail: int)

  function ReserveFor(cfg: NodeConfig, pool: string): int
  {
    if pool in cfg.reserve then cfg.reserve[pool] else cfg.defaultReserve
  }

  function ParentDataset(cfg: NodeConfig, pool: string): string
  {
    pool + "/" + if pool in cfg.parents then cfg.parents[pool] else cfg.defaultParent
  }

  function DatasetFor(cfg: NodeConfig, pool: string, name: string): string
  {
    ParentDataset(cfg, pool) + "/" + name
  }

  /** The free-space floor of a pool; Go divides first, truncating toward zero. */
  function ReserveBytes(total: int, pct: int): int
  {
    if pct <= 0 then 0 else if pct >= 100 then total else GoDiv(total, 100) * pct
  }

  /** Go's integer division truncates toward zero. */
  function GoDiv(a: int, b: int): int
    requires b > 0
  {
    if a >= 0 then a / b else -((-a) / b)
  }

  function Max(a: int, b: int): int
  {
    if a > b then a else b
  }

  function ContentSource(a: CreateArgs): string
  {
    if a.snapshotID != "" then a.snapshotID else a.volumeID
  }

  type Status = Result<()>

  const OK: Status := Driver.Ok(())

  // ----- What each operation does -----

  function CheckCapacityDo(cfg: NodeConfig, z: Z, pool: string, size: int): (Z, Status)
  {
    var avail := PoolOut(z, pool);
    var z1 := Tick(z);
    if !avail.Done? then (z1, Err(CodeInternal))
    else
      var total := PoolOut(z1, pool);
      var z2 := Tick(z1);
      if !total.Done? then (z2, Err(CodeInternal))
      else if avail.value.avail - ReserveBytes(total.value.size, ReserveFor(cfg, pool)) < size then
        (z2, Err(CodeOutOfRange))
      else (z2, OK)
  }

  function GrowIfNeededDo(z: Z, ds: string, want: int): (Z, Status)
  {
    var cur := VolOut(z, ds);
    var z1 := Tick(z);
    if !cur.Done? then (z1, Err(CodeInternal))
    else if cur.value.size >= want then (z1, OK)
    else
      var (z2, ok) := SetVolsizeDo(z1, ds, want);
      (z2, if ok then OK else Err(CodeInternal))
  }

  /** recordProvenance, then growIfNeeded. */
  function StampAndGrowDo(z: Z, ds: string, source: string, want: int): (Z, Status)
  {
    var (z1, ok) := SetSourceDo(z, ds, source);
    if !ok then (z1, Err(CodeInternal)) else GrowIfNeededDo(z1, ds, want)
  }

  function RestoreDo(cfg: NodeConfig, z: Z, a: CreateArgs, ds: string): (Z, Status)
  {
    var sid := ParseSnapshotID(a.snapshotID);
    if sid.Err? then (z, Err(sid.code))
    else if sid.value.node != cfg.name then (z, Err(CodeFailedPrecondition))
    else
      var (z1, cap) := CheckCapacityDo(cfg, z, a.pool, a.size);
      if cap.Err? then (z1, cap)
      else
        var (z2, ok) := CloneIndependentDo(z1, sid.value.dataset, sid.value.snapName, ds);
        if !ok then (z2, Err(CodeInternal)) else StampAndGrowDo(z2, ds, a.snapshotID, a.size)
  }

  function TransientName(a: CreateArgs): string
  {
    "csiclone-" + a.name
  }

  /** Transient snapshot, independent clone, and the transient snapshot dropped whatever happened. */
  function CopyVolumeDo(z: Z, src: string, name: string, ds: string): (Z, Status)
  {
    var (z1, snapped) := SnapshotDo(z, src, name);
    if !snapped then (z1, Err(CodeInternal))
    else
      var (z2, ok) := CloneIndependentDo(z1, src, name, ds);
      var (z3, _) := DestroyDo(z2, FullName(src, name));
      (z3, if ok then OK else Err(CodeInternal))
  }

  function CloneDo(cfg: NodeConfig, z: Z, a: CreateArgs, ds: string): (Z, Status)
  {
    var src := ParseExternalID(a.volumeID);
    if src.Err? then (z, Err(src.code))
    else if src.value.node != cfg.name then (z, Err(CodeFailedPrecondition))
    else
      var (z1, cap) := CheckCapacityDo(cfg, z, a.pool, a.size);
      if cap.Err? then (z1, cap)
      else
        var (z2, copied) := CopyVolumeDo(z1, src.value.dataset, TransientName(a), ds);
        if copied.Err? then (z2, copied) else StampAndGrowDo(z2, ds, a.volumeID, a.size)
  }

  function FreshDo(cfg: NodeConfig, z: Z, a: CreateArgs, ds: string): (Z, Status)
  {
    var (z1, cap) := CheckCapacityDo(cfg, z, a.pool, a.size);
    if cap.Err? then (z1, cap)
    else
      var (z2, ok) := CreateZvolDo(z1, ds, a.size, a.block);
      (z2, if ok then OK else Err(CodeInternal))
  }

  /** A create that finds its dataset: the size must match, and for a copy the recorded source. */
  function ReuseDo(z: Z, a: CreateArgs, ds: string): (Z, Status)
  {
    var cur := VolOut(z, ds);
    var z1 := Tick(z);
    if !cur.Done? then (z1, Err(CodeInternal))
    else if cur.value.size != a.size then (z1, Err(CodeAlreadyExists))
    else if ContentSource(a) == "" then (z1, OK)
    else
      var got := VolOut(z1, ds);
      var z2 := Tick(z1);
      if !got.Done? then (z2, Err(CodeInternal))
      else if got.value.source != ContentSource(a) then (z2, Err(CodeAlreadyExists))
      else (z2, OK)
  }

  function MakeDo(cfg: NodeConfig, z: Z, a: CreateArgs, ds: string): (Z, Status)
  {
    if a.snapshotID != "" then RestoreDo(cfg, z, a, ds)
    else if a.volumeID != "" then CloneDo(cfg, z, a, ds)
    else FreshDo(cfg, z, a, ds)
  }

  function CreateDo(cfg: NodeConfig, z: Z, a: CreateArgs): (Z, Result<Created>)
  {
    var online := PoolStatusOut(z, a.pool);
    var z1 := Tick(z);
    if !online.Done? then (z1, Err(CodeInternal))
    else if !online.value then (z1, Err(CodeFailedPrecondition))
    else
      var ds := DatasetFor(cfg, a.pool, a.name);
      var exists_ := ExistsOut(z1, ds);
      var z2 := Tick(z1);
      if !exists_.Done? then (z2, Err(CodeInternal))
      else
        var (z3, r) := if exists_.value then ReuseDo(z2, a, ds) else MakeDo(cfg, z2, a, ds);
        (z3, if r.Err? then Err(r.code) else Ok(Created(PrintExternalID(ExternalID(cfg.name, ds)), ds, a.size)))
  }

  function DeleteDo(cfg: NodeConfig, z: Z, id: string): (Z, Status)
  {
    var eid := ParseExternalID(id);
    if eid.Err? then (z, Err(eid.code))
    else if eid.value.node != cfg.name then (z, Err(CodeInternal))
    else
      var ds := eid.value.dataset;
      var exists_ := ExistsOut(z, ds);
      var z1 := Tick(z);
      if !exists_.Done? then (z1, Err(CodeInternal))
      else if !exists_.value then (z1, OK)
      else
        var snaps := ListSnapshotsOut(z1, ds);
        var z2 := Tick(z1);
        if !snaps.Done? then (z2, Err(CodeInternal))
        else if snaps.value != {} then (z2, Err(CodeFailedPrecondition))
        else
          var (z3, ok) := DestroyDo(z2, ds);
          (z3, if ok then OK else Err(CodeInternal))
  }

  function ExistsDo(z: Z, id: string): (Z, Result<bool>)
  {
    var eid := ParseExternalID(id);
    if eid.Err? then (z, Err(eid.code))
    else
      var r := ExistsOut(z, eid.value.dataset);
      (Tick(z), if r.Done? then Ok(r.value) else Err(CodeInternal))
  }

  /** Two's complement wrap-around of 64-bit arithmetic. */
  function Wrap64(n: int): int
  {
    (n + 0x8000_0000_0000_0000) % 0x1_0000_0000_0000_0000 - 0x8000_0000_0000_0000
  }

  /** The requested size rounded up to the block, in Go's 64-bit arithmetic. */
  function RoundedRequest(required: int, block: int): int
    requires block > 0
  {
    Wrap64(GoDiv(Wrap64(required + block - 1), block) * block)
  }

  function ExpandDo(z: Z, id: string, required: int, limit: int): (Z, Result<int>)
  {
    var eid := ParseExternalID(id);
    if eid.Err? then (z, Err(eid.code))
    else
      var ds := eid.value.dataset;
      var block := VolOut(z, ds);
      var z1 := Tick(z);
      if !block.Done? || block.value.block <= 0 then (z1, Err(CodeInternal))
      else
        var size := RoundedRequest(required, block.value.block);
        if limit > 0 && size > limit then (z1, Err(CodeOutOfRange))
        else
          var cur := VolOut(z1, ds);
          var z2 := Tick(z1);
          if !cur.Done? then (z2, Err(CodeInternal))
          else if size < cur.value.size then (z2, Err(CodeOutOfRange))
          else if size == cur.value.size then (z2, Ok(cur.value.size))
          else
            var (z3, ok) := SetVolsizeDo(z2, ds, size);
            if !ok then (z3, Err(CodeInternal))
            else
              var now := VolOut(z3, ds);
              (Tick(z3), if now.Done? then Ok(now.value.size) else Err(CodeInternal))
  }

  ghost function SnapshotVolumeDo(cfg: NodeConfig, z: Z, source: string, name: string): (Z, Result<Snapped>)
  {
    var eid := ParseExternalID(source);
    if eid.Err? then (z, Err(eid.code))
    else
      var ds := eid.value.dataset;
      var snap := Sanitized(name);
      var (z1, ok) := SnapshotDo(z, ds, snap);
      if !ok then (z1, Err(CodeInternal))
      else
        var size := VolOut(z1, ds);
        var z2 := Tick(z1);
        if !size.Done? then (z2, Err(CodeInternal))
        else
          var created := CreationOut(z2, FullName(ds, snap));
          var id := PrintSnapshotID(SnapshotID(cfg.name, ds, snap));
          (Tick(z2), if created.Done? then Ok(Snapped(id, size.value.size, created.value))
                     else Err(CodeInternal))
  }

  function DeleteSnapshotDo(z: Z, id: string): (Z, Status)
  {
    var sid := ParseSnapshotID(id);
    if sid.Err? then (z, Err(sid.code))
    else
      var full := FullName(sid.value.dataset, sid.value.snapName);
      var exists_ := ExistsOut(z, full);
      var z1 := Tick(z);
      if !exists_.Done? then (z1, Err(CodeInternal))
      else if !exists_.value then (z1, OK)
      else
        var (z2, ok) := DestroyDo(z1, full);
        (z2, if ok then OK else Err(CodeInternal))
  }

  function StatsDo(cfg: NodeConfig, z: Z, pool: string): (Z, Result<Stats>)
  {
    var online := PoolStatusOut(z, pool);
    var z1 := Tick(z);
    if !online.Done? then (z1, Err(CodeInternal))
    else if !online.value then (z1, Ok(Stats(cfg.name, false, 0, 0)))
    else
      var vols := ListZvolsOut(z1, ParentDataset(cfg, pool));
      var z2 := Tick(z1);
      if !vols.Done? then (z2, Err(CodeInternal))
      else
        var free := PoolOut(z2, pool);
        var z3 := Tick(z2);
        if !free.Done? then (z3, Err(CodeInternal))
        else
          var avail := PoolOut(z3, pool);
          var z4 := Tick(z3);
          if !avail.Done? then (z4, Err(CodeInternal))
          else
            var total := PoolOut(z4, pool);
            var z5 := Tick(z4);
            if !total.Done? then (z5, Err(CodeInternal))
            else (z5, Ok(Stats(cfg.name, true, |vols.value|,
                               Max(avail.value.avail - ReserveBytes(total.value.size, ReserveFor(cfg, pool)), 0))))
  }

  // ----- The operations -----

  class Node {
    const cfg: NodeConfig
    const host: Host

    constructor (cfg: NodeConfig, host: Host)
      ensures this.cfg == cfg && this.host == host
    {
      this.cfg, this.host := cfg, host;
    }

    method CheckCapacity(pool: string, size: int) returns (r: Status)
      modifies host
      ensures (host.st, r) == CheckCapacityDo(cfg, old(host.st), pool, size)
    {
      var avail := host.GetPool(pool);
      if !avail.Done? {
        return Err(CodeInternal);
      }
      var total := host.GetPool(pool);
      if !total.Done? {
        return Err(CodeInternal);
      }
      var afterReserve := avail.value.avail - ReserveBytes(total.value.size, ReserveFor(cfg, pool));
      if afterReserve < size {
        return Err(CodeOutOfRange);
      }
      return OK;
    }

    method GrowIfNeeded(ds: string, want: int) returns (r: Status)
      modifies host
      ensures (host.st, r) == GrowIfNeededDo(old(host.st), ds, want)
    {
      var cur := host.GetVolume(ds);
      if !cur.Done? {
        return Err(CodeInternal);
      }
      if cur.value.size >= want {
        return OK;
      }
      var ok := host.SetVolsize(ds, want);
      return if ok then OK else Err(CodeInternal);
    }

    method StampAndGrow(ds: string, source: string, want: int) returns (r: Status)
      modifies host
      ensures (host.st, r) == StampAndGrowDo(old(host.st), ds, source, want)
    {
      var ok := host.SetSource(ds, source);
      if !ok {
        return Err(CodeInternal);
      }
      r := GrowIfNeeded(ds, want);
    }

    method RestoreFromSnapshot(a: CreateArgs, ds: string) returns (r: Status)
      modifies host
      ensures (host.st, r) == RestoreDo(cfg, old(host.st), a, ds)
    {
      var sid := ParseSnapshotID(a.snapshotID);
      if sid.Err? {
        return Err(sid.code);
      }
      if sid.value.node != cfg.name {
        return Err(CodeFailedPrecondition);
      }
      r := CheckCapacity(a.pool, a.size);
      if r.Err? {
        return;
      }
      var ok := host.CloneIndependent(sid.value.dataset, sid.value.snapName, ds);
      if !ok {
        return Err(CodeInternal);
      }
      r := StampAndGrow(ds, a.snapshotID, a.size);
    }

    method CopyVolume(src: string, name: string, ds: string) returns (r: Status)
      modifies host
      ensures (host.st, r) == CopyVolumeDo(old(host.st), src, name, ds)
    {
      var ok := host.Snapshot(src, name);
      if !ok {
        return Err(CodeInternal);
      }
      ok := host.CloneIndependent(src, name, ds);
      var dropped := host.Destroy(FullName(src, name));
      return if ok then OK else Err(CodeInternal);
    }

    method CloneFromVolume(a: CreateArgs, ds: string) returns (r: Status)
      modifies host
      ensures (host.st, r) == CloneDo(cfg, old(host.st), a, ds)
    {
      var src := ParseExternalID(a.volumeID);
      if src.Err? {
        return Err(src.code);
      }
      if src.value.node != cfg.name {
        return Err(CodeFailedPrecondition);
      }
      r := CheckCapacity(a.pool, a.size);
      if r.Err? {
        return;
      }
      r := CopyVolume(src.value.dataset, TransientName(a), ds);
      if r.Err? {
        return;
      }
      r := StampAndGrow(ds, a.volumeID, a.size);
    }

    method Make(a: CreateArgs, ds: string) returns (r: Status)
      modifies host
      ensures (host.st, r) == MakeDo(cfg, old(host.st), a, ds)
    {
      if a.snapshotID != "" {
        r := RestoreFromSnapshot(a, ds);
      } else if a.volumeID != "" {
        r := CloneFromVolume(a, ds);
      } else {
        r := CheckCapacity(a.pool, a.size);
        if r.Err? {
          return;
        }
        var ok := host.CreateZvol(ds, a.size, a.block);
        r := if ok then OK else Err(CodeInternal);
      }
    }

    method Reuse(a: CreateArgs, ds: string) returns (r: Status)
      modifies host
      ensures (host.st, r) == ReuseDo(old(host.st), a, ds)
    {
      var cur := host.GetVolume(ds);
      if !cur.Done? {
        return Err(CodeInternal);
      }
      if cur.value.size != a.size {
        return Err(CodeAlreadyExists);
      }
      if ContentSource(a) != "" {
        var got := host.GetVolume(ds);
        if !got.Done? {
          return Err(CodeInternal);
        }
        if got.value.source != ContentSource(a) {
          return Err(CodeAlreadyExists);
        }
      }
      return OK;
    }

    method LocalCreate(a: CreateArgs) returns (out: Result<Created>)
      modifies host
      ensures (host.st, out) == CreateDo(cfg, old(host.st), a)
    {
      var online := host.PoolStatus(a.pool);
      if !online.Done? {
        return Err(CodeInternal);
      }
      if !online.value {
        return Err(CodeFailedPrecondition);
      }
      var ds := DatasetFor(cfg, a.pool, a.name);
      var exists_ := host.Exists(ds);
      if !exists_.Done? {
        return Err(CodeInternal);
      }
      var r;
      if exists_.value {
        r := Reuse(a, ds);
      } else {
        r := Make(a, ds);
      }
      if r.Err? {
        return Err(r.code);
      }
      return Ok(Created(PrintExternalID(ExternalID(cfg.name, ds)), ds, a.size));
    }

    method LocalDelete(id: string) returns (r: Status)
      modifies host
      ensures (host.st, r) == DeleteDo(cfg, old(host.st), id)
    {
      var eid := ParseExternalID(id);
      if eid.Err? {
        return Err(eid.code);
      }
      if eid.value.node != cfg.name {
        return Err(CodeInternal);
      }
      var ds := eid.value.dataset;
      var exists_ := host.Exists(ds);
      if !exists_.Done? {
        return Err(CodeInternal);
      }
      if !exists_.value {
        return OK;
      }
      var snaps := host.ListSnapshots(ds);
      if !snaps.Done? {
        return Err(CodeInternal);
      }
      if snaps.value != {} {
        return Err(CodeFailedPrecondition);
      }
      var ok := host.Destroy(ds);
      return if ok then OK else Err(CodeInternal);
    }

    method LocalExists(id: string) returns (r: Result<bool>)
      modifies host
      ensures (host.st, r) == ExistsDo(old(host.st), id)
    {
      var eid := ParseExternalID(id);
      if eid.Err? {
        return Err(eid.code);
      }
      var e := host.Exists(eid.value.dataset);
      return if e.Done? then Ok(e.value) else Err(CodeInternal);
    }

    method LocalExpand(id: string, required: int, limit: int) returns (r: Result<int>)
      modifies host
      ensures (host.st, r) == ExpandDo(old(host.st), id, required, limit)
    {
      var eid := ParseExternalID(id);
      if eid.Err? {
        return Err(eid.code);
      }
      var ds := eid.value.dataset;
      var block := host.GetVolume(ds);
      if !block.Done? || block.value.block <= 0 {
        return Err(CodeInternal);
      }
      var size := RoundedRequest(required, block.value.block);
      if limit > 0 && size > limit {
        return Err(CodeOutOfRange);
      }
      var cur := host.GetVolume(ds);
      if !cur.Done? {
        return Err(CodeInternal);
      }
      if size < cur.value.size {
        return Err(CodeOutOfRange);
      }
      if size == cur.value.size {
        return Ok(cur.value.size);
      }
      var ok := host.SetVolsize(ds, size);
      if !ok {
        return Err(CodeInternal);
      }
      var now := host.GetVolume(ds);
      return if now.Done? then Ok(now.value.size) else Err(CodeInternal);
    }

    method LocalSnapshot(source: string, name: string) returns (r: Result<Snapped>)
      modifies host
      ensures (host.st, r) == SnapshotVolumeDo(cfg, old(host.st), source, name)
    {
      var eid := ParseExternalID(source);
      if eid.Err? {
        return Err(eid.code);
      }
      var ds := eid.value.dataset;
      var snap := SanitizeName(name);
      var ok := host.Snapshot(ds, snap);
      if !ok {
        return Err(CodeInternal);
      }
      var size := host.GetVolume(ds);
      if !size.Done? {
        return Err(CodeInternal);
      }
      var created := host.GetCreation(FullName(ds, snap));
      return if created.Done? then Ok(Snapped(PrintSnapshotID(SnapshotID(cfg.name, ds, snap)), size.value.size,
                                              created.value))
             else Err(CodeInternal);
    }

    method LocalDeleteSnapshot(id: string) returns (r: Status)
      modifies host
      ensures (host.st, r) == DeleteSnapshotDo(old(host.st), id)
    {
      var sid := ParseSnapshotID(id);
      if sid.Err? {
        return Err(sid.code);
      }
      var full := FullName(sid.value.dataset, sid.value.snapName);
      var exists_ := host.Exists(full);
      if !exists_.Done? {
        return Err(CodeInternal);
      }
      if !exists_.value {
        return OK;
      }
      var ok := host.Destroy(full);
      return if ok then OK else Err(CodeInternal);
    }

    method LocalStats(pool: string) returns (r: Result<Stats>)
      modifies host
      ensures (host.st, r) == StatsDo(cfg, old(host.st), pool)
    {
      var online := host.PoolStatus(pool);
      if !online.Done? {
        return Err(CodeInternal);
      }
      if !online.value {
        return Ok(Stats(cfg.name, false, 0, 0));
      }
      var vols := host.ListZvols(ParentDataset(cfg, pool));
      if !vols.Done? {
        return Err(CodeInternal);
      }
      var free := host.GetPool(pool);
      if !free.Done? {
        return Err(CodeInternal);
      }
      var avail := host.GetPool(pool);
      if !avail.Done? {
        return Err(CodeInternal);
      }
      var total := host.GetPool(pool);
      if !total.Done? {
        return Err(CodeInternal);
      }
      return Ok(Stats(cfg.name, true, |vols.value|,
                      Max(avail.value.avail - ReserveBytes(total.value.size, ReserveFor(cfg, pool)), 0)));
    }
  }
}
