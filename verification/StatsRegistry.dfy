/** The node's per-volume stats registry: Track, Untrack, update and Reconcile. */
module StatsRegistry {

  const ACCESS_MOUNT := "mount"
  const ACCESS_BLOCK := "block"

  /** A cached reading; `measured` stands for all the measurement fields. */
  datatype Reading = Reading(access: string, measured: int)

  datatype TrackSpec = TrackSpec(id: string, path: string, access: string)

  /** The registry's maps: staging path per running worker, cached readings, grace counters. */
  datatype Reg = Reg(vols: map<string, string>, cache: map<string, Reading>, absent: map<string, nat>)

  const EMPTY := Reg(map[], map[], map[])

  function Tracked(r: Reg, d: TrackSpec): Reg
  {
    if d.id == "" then r
    else if d.id in r.vols then r.(vols := r.vols[d.id := d.path])
    else
      var cur := if d.id in r.cache then r.cache[d.id] else Reading("", 0);
      Reg(if d.access == ACCESS_BLOCK then r.vols else r.vols[d.id := d.path],
          r.cache[d.id := cur.(access := d.access)], r.absent)
  }

  function Untracked(r: Reg, id: string): Reg
  {
    r.(vols := r.vols - {id}, cache := r.cache - {id})
  }

  function Updated(r: Reg, id: string, measured: int): Reg
  {
    if id in r.cache then r.(cache := r.cache[id := r.cache[id].(measured := measured)]) else r
  }

  function TrackedAll(r: Reg, ds: seq<TrackSpec>): Reg
    decreases |ds|
  {
    if ds == [] then r else Tracked(TrackedAll(r, ds[..|ds| - 1]), ds[|ds| - 1])
  }

  function Wanted(ds: seq<TrackSpec>): set<string>
  {
    set d | d in ds && d.id != "" :: d.id
  }

  function Grace(g: int): nat
  {
    if g < 1 then 1 else g
  }

  function CountOf(absent: map<string, nat>, id: string): nat
  {
    if id in absent then absent[id] else 0
  }

  /** Cached, once everything desired has been tracked, and not desired. */
  predicate Missing(r: Reg, ds: seq<TrackSpec>, id: string)
  {
    id in TrackedAll(r, ds).cache && id !in Wanted(ds)
  }

  predicate Evicts(r: Reg, ds: seq<TrackSpec>, grace: int, id: string)
  {
    Missing(r, ds, id) && CountOf(r.absent, id) + 1 >= Grace(grace)
  }

  ghost function Evicted(r: Reg, ds: seq<TrackSpec>, grace: int): set<string>
  {
    set id | id in TrackedAll(r, ds).cache && Evicts(r, ds, grace, id)
  }

  /** A whole Reconcile pass. */
  ghost function Reconciled(r: Reg, ds: seq<TrackSpec>, evict: bool, grace: int): Reg
  {
    var t := TrackedAll(r, ds);
    if !evict then t
    else
      var gone := Evicted(r, ds, grace);
      Reg(t.vols - gone, t.cache - gone,
          map id | id in t.cache && Missing(r, ds, id) && id !in gone :: CountOf(r.absent, id) + 1)
  }

  /** A cached volume has a worker exactly when its access type is not block. */
  ghost predicate Valid(r: Reg)
  {
    forall id :: id in r.vols <==> id in r.cache && r.cache[id].access != ACCESS_BLOCK
  }

  lemma TrackedKeeps(r: Reg, d: TrackSpec)
    ensures Tracked(r, d).absent == r.absent
    ensures Valid(r) ==> Valid(Tracked(r, d))
    ensures Valid(r) ==> Tracked(r, d).cache.Keys == r.cache.Keys + (if d.id == "" then {} else {d.id})
  {
  }

  /** Tracking adds exactly the wanted ids and touches no grace counter. */
  lemma {:induction false} TrackedAllKeeps(r: Reg, ds: seq<TrackSpec>)
    ensures TrackedAll(r, ds).absent == r.absent
    ensures Valid(r) ==> Valid(TrackedAll(r, ds)) && TrackedAll(r, ds).cache.Keys == r.cache.Keys + Wanted(ds)
    decreases |ds|
  {
    if ds == [] {
      assert Wanted(ds) == {};
    } else {
      var init, last := ds[..|ds| - 1], ds[|ds| - 1];
      TrackedAllKeeps(r, init);
      TrackedKeeps(TrackedAll(r, init), last);
      assert ds == init + [last];
      assert Wanted(ds) == Wanted(init) + (if last.id == "" then {} else {last.id});
    }
  }

  class Registry {
    const enabled: bool
    var vols: map<string, string>
    var cache: map<string, Reading>
    var absent: map<string, nat>

    ghost function View(): Reg
      reads this
    {
      Reg(vols, cache, absent)
    }

    constructor (enabled: bool)
      ensures this.enabled == enabled && View() == EMPTY
    {
      this.enabled := enabled;
      vols, cache, absent := map[], map[], map[];
    }

    method Track(id: string, path: string, access: string)
      modifies this
      ensures View() == if enabled then Tracked(old(View()), TrackSpec(id, path, access)) else old(View())
    {
      if !enabled || id == "" {
        return;
      }
      if id in vols {
        vols := vols[id := path];
        return;
      }
      var cur := if id in cache then cache[id] else Reading("", 0);
      cache := cache[id := cur.(access := access)];
      if access == ACCESS_BLOCK {
        return;
      }
      vols := vols[id := path];
    }

    method Untrack(id: string)
      modifies this
      ensures View() == Untracked(old(View()), id)
    {
      vols := vols - {id};
      cache := cache - {id};
    }

    /** A late write of a worker whose volume was untracked is dropped. */
    method Update(id: string, measured: int)
      modifies this
      ensures View() == Updated(old(View()), id, measured)
    {
      if id in cache {
        cache := cache[id := cache[id].(measured := measured)];
      }
    }

    /** The locked section of an evicting pass: count absences, reset those present again, and
        forget counters of volumes no longer cached. */
    method CountAbsences(want: set<string>, grace: nat) returns (toEvict: set<string>)
      modifies this`absent
      ensures toEvict == set id | id in cache && id !in want && CountOf(old(absent), id) + 1 >= grace
      ensures absent == map id | id in cache && id !in want :: CountOf(old(absent), id) + 1
    {
      toEvict := {};
      var todo := cache.Keys;
      while todo != {}
        invariant todo <= cache.Keys
        invariant toEvict == set id | id in cache && id !in todo && id !in want && CountOf(old(absent), id) + 1 >= grace
        invariant forall id :: id in cache && id !in todo ==> (id in absent <==> id !in want)
        invariant forall id :: id in cache && id !in todo && id in absent ==> absent[id] == CountOf(old(absent), id) + 1
        invariant forall id :: id in todo ==> CountOf(absent, id) == CountOf(old(absent), id)
        decreases todo
      {
        var id :| id in todo;
        todo := todo - {id};
        if id in want {
          absent := absent - {id};
          continue;
        }
        absent := absent[id := CountOf(absent, id) + 1];
        if absent[id] >= grace {
          toEvict := toEvict + {id};
        }
      }
      absent := map id | id in absent && id in cache :: absent[id];
    }

    /** The first loop of Reconcile. */
    method TrackDesired(desired: seq<TrackSpec>) returns (want: set<string>)
      requires enabled
      modifies this
      ensures View() == TrackedAll(old(View()), desired)
      ensures want == Wanted(desired)
    {
      want := {};
      for n := 0 to |desired|
        invariant View() == TrackedAll(old(View()), desired[..n])
        invariant want == Wanted(desired[..n])
      {
        var d := desired[n];
        assert desired[..n + 1] == desired[..n] + [d] && desired[..n + 1][..n] == desired[..n];
        if d.id == "" {
          continue;
        }
        want := want + {d.id};
        Track(d.id, d.path, d.access);
      }
      assert desired[..|desired|] == desired;
    }

    /** The last loop of Reconcile. */
    method EvictAll(toEvict: set<string>)
      modifies this
      ensures vols == old(vols) - toEvict && cache == old(cache) - toEvict && absent == old(absent) - toEvict
    {
      var todo := toEvict;
      while todo != {}
        invariant todo <= toEvict
        invariant vols == old(vols) - (toEvict - todo) && cache == old(cache) - (toEvict - todo)
        invariant absent == old(absent) - (toEvict - todo)
        decreases todo
      {
        var id :| id in todo;
        todo := todo - {id};
        Untrack(id);
        absent := absent - {id};
      }
      assert toEvict - todo == toEvict;
    }

    method Reconcile(desired: seq<TrackSpec>, evict: bool, graceSweeps: int) returns (evicted: set<string>)
      modifies this
      ensures View() == if enabled then Reconciled(old(View()), desired, evict, graceSweeps) else old(View())
      ensures evicted == if enabled && evict then Evicted(old(View()), desired, graceSweeps) else {}
    {
      evicted := {};
      if !enabled {
        return;
      }
      var want := TrackDesired(desired);
      if !evict {
        return;
      }
      TrackedAllKeeps(old(View()), desired);
      evicted := CountAbsences(want, if graceSweeps < 1 then 1 else graceSweeps);
      assert evicted == Evicted(old(View()), desired, graceSweeps);
      EvictAll(evicted);
      hide TrackedAll, Wanted;
    }
  }
}
