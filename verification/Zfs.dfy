/**
  One host's ZFS as the local backend sees it: zvols with size, block size and recorded source,
  snapshots, pools with provisioned-aware available space, and commands that may fail at any point.
*/
module Zfs {
  import opened Base
  import opened Text

  /** How the next command goes: it runs, fails before doing anything, fails after its effect, or
      exits with status 1 without doing anything. */
  datatype Fault = Fine | Before | After | ExitOne

  datatype Vol = Vol(size: int, block: int, source: string)

  /** A snapshot of `dataset`, with the volsize it captured. */
  datatype Snap = Snap(dataset: string, size: int, created: int)

  datatype Pool = Pool(online: bool, size: int, avail: int)

  /** `snaps` is keyed by the full "dataset@name"; `faults` lists how the coming commands go, and
      beyond its end they run. */
  datatype Z = Z(vols: map<string, Vol>, snaps: map<string, Snap>, pools: map<string, Pool>,
                 clock: int, faults: seq<Fault>)

  /** What a query answers. */
  datatype Out<+T> = Done(value: T) | ExitedOne | Failed

  function FullName(dataset: string, name: string): string
  {
    dataset + "@" + name
  }

  function PoolOf(dataset: string): string
  {
    dataset[..IndexOf(dataset, '/')]
  }

  /** ZFS keeps volsize a multiple of the block size. */
  function RoundUp(size: int, block: int): int
    requires block > 0
  {
    (size + block - 1) / block * block
  }

  function Next(z: Z): Fault
  {
    if z.faults == [] then Fine else z.faults[0]
  }

  function Tick(z: Z): Z
  {
    if z.faults == [] then z else z.(faults := z.faults[1..])
  }

  /** How the k-th command from here goes. */
  function FaultAt(z: Z, k: nat): Fault
  {
    if k < |z.faults| then z.faults[k] else Fine
  }

  /** The same state with the next k commands' fates used up. */
  function Later(z: Z, k: nat): Z
  {
    z.(faults := if k <= |z.faults| then z.faults[k..] else [])
  }

  /** A query answers, or a change takes effect even if it then reports a failure. */
  predicate TakesEffect(f: Fault)
  {
    f.Fine? || f.After?
  }

  /** A query whose true answer is `answer`; None makes the command exit with status 1. */
  function Query<T>(z: Z, answer: Option<T>): Out<T>
  {
    match Next(z)
    case Before => Failed
    case ExitOne => ExitedOne
    case _ => if answer.Some? then Done(answer.value) else ExitedOne
  }

  /** A change to `effect`, which ZFS itself refuses unless `allowed`. */
  function Change(z: Z, allowed: bool, effect: Z): (Z, bool)
  {
    match Next(z)
    case Fine => if allowed then (Tick(effect), true) else (Tick(z), false)
    case After => (Tick(if allowed then effect else z), false)
    case _ => (Tick(z), false)
  }

  // ----- Queries -----

  predicate HasDataset(z: Z, name: string)
  {
    name in z.vols || name in z.snaps
  }

  function ExistsOut(z: Z, name: string): Out<bool>
  {
    match Query(z, if HasDataset(z, name) then Some(true) else None)
    case Done(v) => Done(v)
    case ExitedOne => Done(false)
    case Failed => Failed
  }

  function VolOut(z: Z, ds: string): Out<Vol>
  {
    Query(z, if ds in z.vols then Some(z.vols[ds]) else None)
  }

  function CreationOut(z: Z, name: string): Out<int>
  {
    Query(z, if name in z.snaps then Some(z.snaps[name].created) else None)
  }

  predicate Under(dataset: string, target: string)
  {
    dataset == target || target + "/" <= dataset
  }

  function SnapshotsUnder(z: Z, target: string): set<string>
  {
    set full | full in z.snaps && (full == target || Under(z.snaps[full].dataset, target))
  }

  /** An exit status of 1 reads as "none". */
  function ListSnapshotsOut(z: Z, target: string): Out<set<string>>
  {
    match Query(z, Some(SnapshotsUnder(z, target)))
    case ExitedOne => Done({})
    case o => o
  }

  function VolsUnder(z: Z, parent: string): set<string>
  {
    set ds | ds in z.vols && Under(ds, parent)
  }

  function ListZvolsOut(z: Z, parent: string): Out<set<string>>
  {
    match Query(z, Some(VolsUnder(z, parent)))
    case ExitedOne => Done({})
    case o => o
  }

  /** Whether the pool is imported and ONLINE; an exit status of 1 reads as "not imported". */
  function PoolStatusOut(z: Z, pool: string): Out<bool>
  {
    match Query(z, if pool in z.pools then Some(z.pools[pool].online) else None)
    case ExitedOne => Done(false)
    case o => o
  }

  function PoolOut(z: Z, pool: string): Out<Pool>
  {
    Query(z, if pool in z.pools then Some(z.pools[pool]) else None)
  }

  // ----- Changes -----

  function Charge(pools: map<string, Pool>, pool: string, bytes: int): map<string, Pool>
  {
    if pool in pools then pools[pool := pools[pool].(avail := pools[pool].avail - bytes)] else pools
  }

  predicate Room(z: Z, ds: string, bytes: int)
  {
    PoolOf(ds) in z.pools && bytes <= z.pools[PoolOf(ds)].avail
  }

  /** A new zvol is thick: its whole size is charged to its pool at once. */
  function WithVol(z: Z, ds: string, v: Vol): Z
  {
    z.(vols := z.vols[ds := v], pools := Charge(z.pools, PoolOf(ds), v.size))
  }

  function CreateZvolDo(z: Z, ds: string, size: int, block: int): (Z, bool)
  {
    if block <= 0 || size <= 0 then Change(z, false, z)
    else
      var v := Vol(RoundUp(size, block), block, "");
      Change(z, !HasDataset(z, ds) && '@' !in ds && Room(z, ds, v.size), WithVol(z, ds, v))
  }

  function SetVolsizeDo(z: Z, ds: string, size: int): (Z, bool)
  {
    if ds !in z.vols || z.vols[ds].block <= 0 then Change(z, false, z)
    else
      var v := z.vols[ds];
      var rounded := RoundUp(size, v.block);
      Change(z, Room(z, ds, rounded - v.size),
             z.(vols := z.vols[ds := v.(size := rounded)], pools := Charge(z.pools, PoolOf(ds), rounded - v.size)))
  }

  function SetSourceDo(z: Z, ds: string, source: string): (Z, bool)
  {
    if ds !in z.vols then Change(z, false, z)
    else Change(z, true, z.(vols := z.vols[ds := z.vols[ds].(source := source)]))
  }

  function SnapshotDo(z: Z, ds: string, name: string): (Z, bool)
  {
    if ds !in z.vols then Change(z, false, z)
    else Change(z, FullName(ds, name) !in z.snaps && '@' !in name,
                z.(snaps := z.snaps[FullName(ds, name) := Snap(ds, z.vols[ds].size, z.clock)]))
  }

  /** `zfs destroy`, never recursive: a zvol that has snapshots is refused. */
  function DestroyDo(z: Z, name: string): (Z, bool)
  {
    if name in z.snaps then Change(z, true, z.(snaps := z.snaps - {name}))
    else if name !in z.vols then Change(z, false, z)
    else Change(z, SnapshotsUnder(z, name) == {},
                z.(vols := z.vols - {name}, pools := Charge(z.pools, PoolOf(name), -z.vols[name].size)))
  }

  /** `zfs send | zfs recv`: an independent full copy, with the sent snapshot on it. */
  function SendRecvDo(z: Z, src: string, name: string, dest: string): (Z, bool)
  {
    var full := FullName(src, name);
    if full !in z.snaps || src !in z.vols then Change(z, false, z)
    else
      var v := Vol(z.snaps[full].size, z.vols[src].block, "");
      var z1 := WithVol(z, dest, v);
      Change(z, !HasDataset(z, dest) && '@' !in dest && '@' !in name && Room(z, dest, v.size),
             z1.(snaps := z1.snaps[FullName(dest, name) := Snap(dest, v.size, z.clock)]))
  }

  /** CloneIndependent: send and receive, then drop the snapshot that came along. */
  function CloneIndependentDo(z: Z, src: string, name: string, dest: string): (Z, bool)
  {
    var (z1, ok) := SendRecvDo(z, src, name, dest);
    if !ok then (z1, false) else DestroyDo(z1, FullName(dest, name))
  }

  // ----- The host -----

  class Host {
    var st: Z

    constructor (st: Z)
      ensures this.st == st
    {
      this.st := st;
    }

    method Exists(name: string) returns (r: Out<bool>)
      modifies this
      ensures r == ExistsOut(old(st), name) && st == Tick(old(st))
    {
      r := ExistsOut(st, name);
      st := Tick(st);
    }

    method GetVolume(ds: string) returns (r: Out<Vol>)
      modifies this
      ensures r == VolOut(old(st), ds) && st == Tick(old(st))
    {
      r := VolOut(st, ds);
      st := Tick(st);
    }

    method GetCreation(name: string) returns (r: Out<int>)
      modifies this
      ensures r == CreationOut(old(st), name) && st == Tick(old(st))
    {
      r := CreationOut(st, name);
      st := Tick(st);
    }

    method ListSnapshots(target: string) returns (r: Out<set<string>>)
      modifies this
      ensures r == ListSnapshotsOut(old(st), target) && st == Tick(old(st))
    {
      r := ListSnapshotsOut(st, target);
      st := Tick(st);
    }

    method ListZvols(parent: string) returns (r: Out<set<string>>)
      modifies this
      ensures r == ListZvolsOut(old(st), parent) && st == Tick(old(st))
    {
      r := ListZvolsOut(st, parent);
      st := Tick(st);
    }

    method PoolStatus(pool: string) returns (r: Out<bool>)
      modifies this
      ensures r == PoolStatusOut(old(st), pool) && st == Tick(old(st))
    {
      r := PoolStatusOut(st, pool);
      st := Tick(st);
    }

    method GetPool(pool: string) returns (r: Out<Pool>)
      modifies this
      ensures r == PoolOut(old(st), pool) && st == Tick(old(st))
    {
      r := PoolOut(st, pool);
      st := Tick(st);
    }

    method CreateZvol(ds: string, size: int, block: int) returns (ok: bool)
      modifies this
      ensures (st, ok) == CreateZvolDo(old(st), ds, size, block)
    {
      var r := CreateZvolDo(st, ds, size, block);
      st, ok := r.0, r.1;
    }

    method SetVolsize(ds: string, size: int) returns (ok: bool)
      modifies this
      ensures (st, ok) == SetVolsizeDo(old(st), ds, size)
    {
      var r := SetVolsizeDo(st, ds, size);
      st, ok := r.0, r.1;
    }

    method SetSource(ds: string, source: string) returns (ok: bool)
      modifies this
      ensures (st, ok) == SetSourceDo(old(st), ds, source)
    {
      var r := SetSourceDo(st, ds, source);
      st, ok := r.0, r.1;
    }

    method Snapshot(ds: string, name: string) returns (ok: bool)
      modifies this
      ensures (st, ok) == SnapshotDo(old(st), ds, name)
    {
      var r := SnapshotDo(st, ds, name);
      st, ok := r.0, r.1;
    }

    method Destroy(name: string) returns (ok: bool)
      modifies this
      ensures (st, ok) == DestroyDo(old(st), name)
    {
      var r := DestroyDo(st, name);
      st, ok := r.0, r.1;
    }

    method SendRecv(src: string, name: string, dest: string) returns (ok: bool)
      modifies this
      ensures (st, ok) == SendRecvDo(old(st), src, name, dest)
    {
      var r := SendRecvDo(st, src, name, dest);
      st, ok := r.0, r.1;
    }

    method CloneIndependent(src: string, name: string, dest: string) returns (ok: bool)
      modifies this
      ensures (st, ok) == CloneIndependentDo(old(st), src, name, dest)
    {
      ok := SendRecv(src, name, dest);
      if !ok {
        return;
      }
      ok := Destroy(FullName(dest, name));
    }
  }
}
