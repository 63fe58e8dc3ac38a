/**
  Three ways the qnap backend names a volume, and why they agree: the id CreateVolume returns, the
  id ListVolumes reports from the controller's LUN cache, and the id (or the IQN) the node rebuilds
  from the SAN identity cache after a restart.
*/
module QnapIdentity {
  import opened Base
  import opened Text
  import opened Driver
  import opened QnapId

  datatype LunRow = LunRow(index: int, name: string, capacity: int)
  datatype TargetRow = TargetRow(index: int, alias: string, iqn: string, luns: seq<int>)

  /** What ListTargets and ListLUNs answer. */
  datatype Listing = Listing(targets: seq<TargetRow>, luns: seq<LunRow>)

  // ----- The maps both caches build: the last row with a key wins -----

  function TargetsByIndex(ts: seq<TargetRow>): map<int, TargetRow>
  {
    if ts == [] then map[] else TargetsByIndex(ts[..|ts| - 1])[ts[|ts| - 1].index := ts[|ts| - 1]]
  }

  function TargetsByIqn(ts: seq<TargetRow>): map<string, TargetRow>
  {
    if ts == [] then map[]
    else
      var t := ts[|ts| - 1];
      if t.iqn != "" then TargetsByIqn(ts[..|ts| - 1])[t.iqn := t] else TargetsByIqn(ts[..|ts| - 1])
  }

  function LunsByIndex(ls: seq<LunRow>): map<int, LunRow>
  {
    if ls == [] then map[] else LunsByIndex(ls[..|ls| - 1])[ls[|ls| - 1].index := ls[|ls| - 1]]
  }

  function LunsByName(ls: seq<LunRow>): map<string, LunRow>
  {
    if ls == [] then map[] else LunsByName(ls[..|ls| - 1])[ls[|ls| - 1].name := ls[|ls| - 1]]
  }

  function Mapping(m: map<int, TargetRow>, t: TargetRow, idxs: seq<int>): map<int, TargetRow>
  {
    if idxs == [] then m else Mapping(m, t, idxs[..|idxs| - 1])[idxs[|idxs| - 1] := t]
  }

  function LunToTarget(ts: seq<TargetRow>): map<int, TargetRow>
  {
    if ts == [] then map[] else Mapping(LunToTarget(ts[..|ts| - 1]), ts[|ts| - 1], ts[|ts| - 1].luns)
  }

  // ----- The node's SAN identity cache -----

  datatype Identity = Identity(tgts: map<int, TargetRow>, luns: map<int, LunRow>, byIqn: map<string, TargetRow>)

  function Hydrated(l: Listing): Identity
  {
    Identity(TargetsByIndex(l.targets), LunsByIndex(l.luns), TargetsByIqn(l.targets))
  }

  function IqnOf(i: Identity, eid: ExternalID): Option<string>
  {
    if eid.lunIndex !in i.luns || eid.targetIndex !in i.tgts then None
    else if i.luns[eid.lunIndex].name != eid.lunName then None
    else Some(i.tgts[eid.targetIndex].iqn)
  }

  function RowId(l: LunRow, t: TargetRow): ExternalID
  {
    ExternalID(l.index, t.index, t.alias == l.name, l.name)
  }

  function IdOf(i: Identity, iqn: string, lunNumber: int): Option<string>
  {
    if iqn !in i.byIqn then None
    else
      var t := i.byIqn[iqn];
      if |t.luns| != 1 && !(0 <= lunNumber < |t.luns|) then None
      else
        var idx := if |t.luns| == 1 then t.luns[0] else t.luns[lunNumber];
        if idx !in i.luns then None
        else Some(PrintExternalID(ExternalID(idx, t.index, t.alias == i.luns[idx].name, i.luns[idx].name)))
  }

  /** The cache as it stands when it answers at time `now`, None when it cannot be hydrated. */
  function Current(cached: Option<(Identity, int)>, ttl: int, now: int, answer: Option<Listing>)
    : Option<(Identity, int)>
  {
    if cached.Some? && now - cached.value.1 <= ttl then cached
    else if answer.Some? then Some((Hydrated(answer.value), now))
    else None
  }

  class SanIdentityCache {
    const ttl: int
    var loaded: bool
    var loadedAt: int
    var tgts: map<int, TargetRow>
    var luns: map<int, LunRow>
    var byIqn: map<string, TargetRow>

    constructor (ttl: int)
      ensures this.ttl == ttl && !loaded
    {
      this.ttl := ttl;
      loaded := false;
    }

    function Cached(): Option<(Identity, int)>
      reads this
    {
      if loaded then Some((Identity(tgts, luns, byIqn), loadedAt)) else None
    }

    /** One pair of list calls replaces all three maps, or none of them. */
    method Hydrate(now: int, answer: Option<Listing>) returns (ok: bool)
      modifies this
      ensures ok <==> answer.Some?
      ensures Cached() == if ok then Some((Hydrated(answer.value), now)) else old(Cached())
    {
      if answer.None? {
        return false;
      }
      var ts, ls := answer.value.targets, answer.value.luns;
      var tm: map<int, TargetRow> := map[];
      var im: map<string, TargetRow> := map[];
      for n := 0 to |ts|
        invariant tm == TargetsByIndex(ts[..n]) && im == TargetsByIqn(ts[..n])
      {
        assert ts[..n + 1][..n] == ts[..n];
        tm := tm[ts[n].index := ts[n]];
        if ts[n].iqn != "" {
          im := im[ts[n].iqn := ts[n]];
        }
      }
      var lm: map<int, LunRow> := map[];
      for n := 0 to |ls|
        invariant lm == LunsByIndex(ls[..n])
      {
        assert ls[..n + 1][..n] == ls[..n];
        lm := lm[ls[n].index := ls[n]];
      }
      assert ts[..|ts|] == ts && ls[..|ls|] == ls;
      tgts, luns, byIqn, loaded, loadedAt := tm, lm, im, true, now;
      ok := true;
    }

    method ResolveIQN(eid: ExternalID, now: int, answer: Option<Listing>) returns (r: Option<string>)
      modifies this
      ensures var c := Current(old(Cached()), ttl, now, answer);
              && r == (if c.Some? then IqnOf(c.value.0, eid) else None)
              && Cached() == (if c.Some? then c else old(Cached()))
    {
      if !loaded || now - loadedAt > ttl {
        var ok := Hydrate(now, answer);
        if !ok {
          return None;
        }
      }
      if eid.lunIndex !in luns || eid.targetIndex !in tgts {
        return None;
      }
      if luns[eid.lunIndex].name != eid.lunName {
        return None;
      }
      r := Some(tgts[eid.targetIndex].iqn);
    }

    method ResolveExternalID(iqn: string, lunNumber: int, now: int, answer: Option<Listing>) returns (r: Option<string>)
      modifies this
      ensures var c := Current(old(Cached()), ttl, now, answer);
              && r == (if c.Some? then IdOf(c.value.0, iqn, lunNumber) else None)
              && Cached() == (if c.Some? then c else old(Cached()))
    {
      hide PrintExternalID;
      if !loaded || now - loadedAt > ttl {
        var ok := Hydrate(now, answer);
        if !ok {
          return None;
        }
      }
      if iqn !in byIqn {
        return None;
      }
      var tgt := byIqn[iqn];
      var lunIndex := 0;
      if |tgt.luns| == 1 {
        lunIndex := tgt.luns[0];
      } else if 0 <= lunNumber < |tgt.luns| {
        lunIndex := tgt.luns[lunNumber];
      } else {
        return None;
      }
      if lunIndex !in luns {
        return None;
      }
      var lun := luns[lunIndex];
      r := Some(PrintExternalID(ExternalID(lunIndex, tgt.index, tgt.alias == lun.name, lun.name)));
    }
  }

  // ----- The controller's LUN cache -----

  /** What the cache holds: LUNs by name, and the target of each LUN index. */
  datatype LunIndex = LunIndex(byName: map<string, LunRow>, lunToTarget: map<int, TargetRow>)

  function Indexed(l: Listing): LunIndex
  {
    LunIndex(LunsByName(l.luns), LunToTarget(l.targets))
  }

  /** The ids ListVolumes reports: one for each cached LUN that has a target. */
  function ListedIds(x: LunIndex): set<string>
  {
    set name | name in x.byName && x.byName[name].index in x.lunToTarget ::
      PrintExternalID(RowId(x.byName[name], x.lunToTarget[x.byName[name].index]))
  }

  class LunCache {
    const ttl: int
    var index: LunIndex
    var loaded: bool
    var lastRefresh: int

    constructor (ttl: int)
      ensures this.ttl == ttl && !loaded && index == LunIndex(map[], map[])
    {
      this.ttl := ttl;
      loaded, index := false, LunIndex(map[], map[]);
    }

    method EnsureFresh(now: int, answer: Option<Listing>) returns (ok: bool)
      modifies this
      ensures var warm := old(loaded) && now - old(lastRefresh) < ttl;
              && (ok <==> warm || answer.Some?)
              && index == (if warm || answer.None? then old(index) else Indexed(answer.value))
              && loaded == (old(loaded) || answer.Some?)
              && lastRefresh == (if warm || answer.None? then old(lastRefresh) else now)
    {
      if loaded && now - lastRefresh < ttl {
        return true;
      }
      if answer.None? {
        return false;
      }
      var ts, ls := answer.value.targets, answer.value.luns;
      var byName: map<string, LunRow> := map[];
      for n := 0 to |ls|
        invariant byName == LunsByName(ls[..n])
      {
        assert ls[..n + 1][..n] == ls[..n];
        byName := byName[ls[n].name := ls[n]];
      }
      var lunToTarget: map<int, TargetRow> := map[];
      for n := 0 to |ts|
        invariant lunToTarget == LunToTarget(ts[..n])
      {
        assert ts[..n + 1][..n] == ts[..n];
        var idxs := ts[n].luns;
        for k := 0 to |idxs|
          invariant lunToTarget == Mapping(LunToTarget(ts[..n]), ts[n], idxs[..k])
        {
          assert idxs[..k + 1][..k] == idxs[..k];
          lunToTarget := lunToTarget[idxs[k] := ts[n]];
        }
        assert idxs[..|idxs|] == idxs;
      }
      assert ts[..|ts|] == ts && ls[..|ls|] == ls;
      index, loaded, lastRefresh := LunIndex(byName, lunToTarget), true, now;
      ok := true;
    }

    /** addLUN, after a create. */
    method Add(lun: LunRow, target: TargetRow)
      modifies this
      ensures index == Added(old(index), lun, target)
      ensures loaded == old(loaded) && lastRefresh == old(lastRefresh)
    {
      index := LunIndex(index.byName[lun.name := lun], index.lunToTarget[lun.index := target]);
    }

    /** removeLUN, after a delete: one name with that index goes, and the mapping of the index. */
    method Remove(lunIndex: int)
      modifies this
      ensures index.lunToTarget == old(index.lunToTarget) - {lunIndex}
      ensures forall name :: name in index.byName ==>
          name in old(index.byName) && index.byName[name] == old(index.byName)[name]
      ensures forall name :: name in old(index.byName) && old(index.byName)[name].index != lunIndex ==>
          name in index.byName
      ensures (exists name :: name in old(index.byName) && old(index.byName)[name].index == lunIndex) ==>
                exists name :: name in old(index.byName) && old(index.byName)[name].index == lunIndex
                               && index.byName == old(index.byName) - {name}
      ensures ListedIds(index) == ListedIds(Unmapped(old(index), lunIndex))
      ensures loaded == old(loaded) && lastRefresh == old(lastRefresh)
    {
      hide PrintExternalID;
      var byName := index.byName;
      if name :| name in byName && byName[name].index == lunIndex {
        byName := byName - {name};
      }
      index := LunIndex(byName, index.lunToTarget - {lunIndex});
    }

    method ListVolumes(now: int, answer: Option<Listing>) returns (r: Option<set<string>>)
      modifies this
      ensures r.Some? <==> (old(loaded) && now - old(lastRefresh) < ttl) || answer.Some?
      ensures r.Some? ==> r.value == ListedIds(index)
      ensures r.Some? ==> index == if old(loaded) && now - old(lastRefresh) < ttl then old(index)
          else Indexed(answer.value)
    {
      hide PrintExternalID;
      var ok := EnsureFresh(now, answer);
      if !ok {
        return None;
      }
      var left := index.byName.Keys;
      var out := {};
      while left != {}
        invariant left <= index.byName.Keys
        invariant out == set name | name in index.byName && name !in left
            && index.byName[name].index in index.lunToTarget ::
                           PrintExternalID(RowId(index.byName[name], index.lunToTarget[index.byName[name].index]))
        decreases |left|
      {
        var name :| name in left;
        left := left - {name};
        var lun := index.byName[name];
        if lun.index in index.lunToTarget {
          var t := index.lunToTarget[lun.index];
          out := out + {PrintExternalID(ExternalID(lun.index, t.index, t.alias == lun.name, lun.name))};
        }
      }
      r := Some(out);
    }
  }

  // ----- One volume, one name -----

  /** Indices, IQNs and LUN names are unique, and a LUN is mapped to at most one target. */
  ghost predicate Tidy(l: Listing)
  {
    && (forall t, u :: t in l.targets && u in l.targets && t.index == u.index ==> t == u)
    && (forall t, u :: t in l.targets && u in l.targets && t.iqn == u.iqn && t.iqn != "" ==> t == u)
    && (forall t, u, i :: t in l.targets && u in l.targets && i in t.luns && i in u.luns ==> t == u)
    && (forall a, b :: a in l.luns && b in l.luns && a.index == b.index ==> a == b)
    && (forall a, b :: a in l.luns && b in l.luns && a.name == b.name ==> a == b)
  }

  /** `lun` is a volume the driver serves: it is mapped to target `t`. */
  ghost predicate Served(l: Listing, lun: LunRow, t: TargetRow)
  {
    lun in l.luns && t in l.targets && lun.index in t.luns
  }

  lemma {:induction false} TargetRows(ts: seq<TargetRow>, k: int)
    ensures k in TargetsByIndex(ts) <==> exists t :: t in ts && t.index == k
    ensures k in TargetsByIndex(ts) ==> TargetsByIndex(ts)[k] in ts && TargetsByIndex(ts)[k].index == k
  {
    if ts != [] {
      var init := ts[..|ts| - 1];
      TargetRows(init, k);
      assert ts == init + [ts[|ts| - 1]];
    }
  }

  lemma {:induction false} IqnRows(ts: seq<TargetRow>, k: string)
    ensures k in TargetsByIqn(ts) <==> k != "" && exists t :: t in ts && t.iqn == k
    ensures k in TargetsByIqn(ts) ==> TargetsByIqn(ts)[k] in ts && TargetsByIqn(ts)[k].iqn == k
  {
    if ts != [] {
      var init := ts[..|ts| - 1];
      IqnRows(init, k);
      assert ts == init + [ts[|ts| - 1]];
    }
  }

  lemma {:induction false} LunRows(ls: seq<LunRow>, k: int)
    ensures k in LunsByIndex(ls) <==> exists l :: l in ls && l.index == k
    ensures k in LunsByIndex(ls) ==> LunsByIndex(ls)[k] in ls && LunsByIndex(ls)[k].index == k
  {
    if ls != [] {
      var init := ls[..|ls| - 1];
      LunRows(init, k);
      assert ls == init + [ls[|ls| - 1]];
    }
  }

  lemma {:induction false} NameRows(ls: seq<LunRow>, k: string)
    ensures k in LunsByName(ls) <==> exists l :: l in ls && l.name == k
    ensures k in LunsByName(ls) ==> LunsByName(ls)[k] in ls && LunsByName(ls)[k].name == k
  {
    if ls != [] {
      var init := ls[..|ls| - 1];
      NameRows(init, k);
      assert ls == init + [ls[|ls| - 1]];
    }
  }

  lemma {:induction false} MappingRows(m: map<int, TargetRow>, t: TargetRow, idxs: seq<int>, k: int)
    ensures k in Mapping(m, t, idxs) <==> k in idxs || k in m
    ensures k in idxs ==> Mapping(m, t, idxs)[k] == t
    ensures k !in idxs && k in m ==> Mapping(m, t, idxs)[k] == m[k]
  {
    if idxs != [] {
      var init := idxs[..|idxs| - 1];
      MappingRows(m, t, init, k);
      assert idxs == init + [idxs[|idxs| - 1]];
    }
  }

  lemma {:induction false} LunTargetRows(ts: seq<TargetRow>, k: int)
    ensures k in LunToTarget(ts) <==> exists t :: t in ts && k in t.luns
    ensures k in LunToTarget(ts) ==> LunToTarget(ts)[k] in ts && k in LunToTarget(ts)[k].luns
  {
    if ts != [] {
      var init, t := ts[..|ts| - 1], ts[|ts| - 1];
      LunTargetRows(init, k);
      MappingRows(LunToTarget(init), t, t.luns, k);
      assert ts == init + [t];
    }
  }

  /** ListVolumes reports exactly the served volumes, each under the id made of its two rows. */
  lemma ListsServedVolumes(l: Listing, id: string)
    requires Tidy(l)
    ensures id in ListedIds(Indexed(l)) <==> exists lun, t :: Served(l, lun, t) && id == PrintExternalID(RowId(lun, t))
  {
    hide PrintExternalID, LunsByName, LunToTarget;
    var x := Indexed(l);
    if id in ListedIds(x) {
      var name :| name in x.byName && x.byName[name].index in x.lunToTarget
                  && id == PrintExternalID(RowId(x.byName[name], x.lunToTarget[x.byName[name].index]));
      NameRows(l.luns, name);
      LunTargetRows(l.targets, x.byName[name].index);
      assert Served(l, x.byName[name], x.lunToTarget[x.byName[name].index]);
    }
    if lun, t :| Served(l, lun, t) && id == PrintExternalID(RowId(lun, t)) {
      NameRows(l.luns, lun.name);
      LunTargetRows(l.targets, lun.index);
      assert x.byName[lun.name] == lun && x.lunToTarget[lun.index] == t;
    }
  }

  /** The node rebuilds, from a session's IQN and LUN number, the id ListVolumes reports: for a
      dedicated target whatever the number, for a shared one when the mapping lists LUNs in
      number order. */
  lemma NodeRebuildsListedId(l: Listing, lun: LunRow, t: TargetRow, lunNumber: int)
    requires Tidy(l) && Served(l, lun, t) && t.iqn != ""
    requires t.luns == [lun.index] || (0 <= lunNumber < |t.luns| && t.luns[lunNumber] == lun.index)
    ensures IdOf(Hydrated(l), t.iqn, lunNumber) == Some(PrintExternalID(RowId(lun, t)))
    ensures PrintExternalID(RowId(lun, t)) in ListedIds(Indexed(l))
  {
    hide PrintExternalID, LunsByIndex, TargetsByIqn, TargetsByIndex, ListedIds;
    IqnRows(l.targets, t.iqn);
    LunRows(l.luns, lun.index);
    ListsServedVolumes(l, PrintExternalID(RowId(lun, t)));
  }

  /** Whatever the node rebuilds is some volume ListVolumes reports. */
  lemma RebuiltIdIsListed(l: Listing, iqn: string, lunNumber: int)
    requires Tidy(l) && IdOf(Hydrated(l), iqn, lunNumber).Some?
    ensures IdOf(Hydrated(l), iqn, lunNumber).value in ListedIds(Indexed(l))
  {
    hide PrintExternalID, LunsByIndex, TargetsByIqn, TargetsByIndex, ListedIds;
    IqnRows(l.targets, iqn);
    var t := TargetsByIqn(l.targets)[iqn];
    var idx := if |t.luns| == 1 then t.luns[0] else t.luns[lunNumber];
    LunRows(l.luns, idx);
    var lun := LunsByIndex(l.luns)[idx];
    assert Served(l, lun, t);
    ListsServedVolumes(l, PrintExternalID(RowId(lun, t)));
  }

  ghost predicate Encodable(lun: LunRow, t: TargetRow)
  {
    Int64(lun.index) && Int64(t.index) && Free(lun.name, '/')
  }

  /** The id round trip through the SAN: a session's IQN gives an id whose IQN is the session's. */
  lemma IdLeadsBackToIqn(l: Listing, lun: LunRow, t: TargetRow)
    requires Tidy(l) && Served(l, lun, t) && Encodable(lun, t)
    ensures ParseExternalID(PrintExternalID(RowId(lun, t))) == Ok(RowId(lun, t))
    ensures IqnOf(Hydrated(l), RowId(lun, t)) == Some(t.iqn)
  {
    hide PrintExternalID, ParseExternalID, LunsByIndex, TargetsByIqn, TargetsByIndex;
    ExternalIDRoundTrip(RowId(lun, t));
    LunRows(l.luns, lun.index);
    TargetRows(l.targets, t.index);
  }

  /** resolveIQN answers only while the LUN still has the name in the id. */
  lemma ReusedIndexIsNotResolved(l: Listing, eid: ExternalID)
    requires Tidy(l)
    ensures IqnOf(Hydrated(l), eid).Some? <==>
            && (exists lun :: lun in l.luns && lun.index == eid.lunIndex && lun.name == eid.lunName)
            && (exists t :: t in l.targets && t.index == eid.targetIndex)
  {
    hide LunsByIndex, TargetsByIqn, TargetsByIndex;
    LunRows(l.luns, eid.lunIndex);
    TargetRows(l.targets, eid.targetIndex);
  }

  /** The id assembleVolume returns for a LUN on a target it made (`own`) or was given. */
  function CreatedId(lun: LunRow, t: TargetRow, own: bool): string
  {
    PrintExternalID(ExternalID(lun.index, t.index, own, lun.name))
  }

  /** CreateVolume and every later listing agree on the id exactly when the target's alias tells
      a dedicated target from a shared one. */
  lemma CreatedIdIsListedId(l: Listing, lun: LunRow, t: TargetRow, own: bool)
    requires Tidy(l) && Served(l, lun, t) && forall a, u :: Served(l, a, u) ==> Encodable(a, u)
    ensures CreatedId(lun, t, own) in ListedIds(Indexed(l)) <==> (own <==> t.alias == lun.name)
  {
    hide PrintExternalID, ListedIds;
    var created := ExternalID(lun.index, t.index, own, lun.name);
    ListsServedVolumes(l, CreatedId(lun, t, own));
    ListsServedVolumes(l, PrintExternalID(RowId(lun, t)));
    if lun', t' :| Served(l, lun', t') && CreatedId(lun, t, own) == PrintExternalID(RowId(lun', t')) {
      PrintExternalIDInjective(created, RowId(lun', t'));
    }
  }

  /** For instance: a shared target that happens to carry the LUN's name. The volume is created as
      sharing it and listed as owning it. */
  lemma SharedAliasIsListedAsOwned()
    ensures var lun, t := LunRow(1, "v", 1), TargetRow(2, "v", "i", [1]);
            CreatedId(lun, t, false) !in ListedIds(Indexed(Listing([t], [lun])))
  {
    hide ListedIds, CreatedId;
    var lun, t := LunRow(1, "v", 1), TargetRow(2, "v", "i", [1]);
    assert Served(Listing([t], [lun]), lun, t);
    CreatedIdIsListedId(Listing([t], [lun]), lun, t, false);
  }

  /** The LUN index the node takes for LUN number `n` of a target. */
  function LunAt(t: TargetRow, n: int): Option<int>
  {
    if |t.luns| == 1 then Some(t.luns[0]) else if 0 <= n < |t.luns| then Some(t.luns[n]) else None
  }

  ghost predicate AllEncodable(l: Listing)
  {
    forall a, u :: Served(l, a, u) ==> Encodable(a, u)
  }

  /** From a session's IQN and LUN number the node rebuilds the id a volume was created under if and
      only if the target lists that volume's LUN at the number, and the alias tells an owned target
      from a shared one as the creation did. */
  lemma CreatedIdIsRebuiltExactly(l: Listing, lun: LunRow, t: TargetRow, own: bool, n: int)
    requires Tidy(l) && Served(l, lun, t) && t.iqn != "" && AllEncodable(l)
    ensures IdOf(Hydrated(l), t.iqn, n) == Some(CreatedId(lun, t, own)) <==>
            LunAt(t, n) == Some(lun.index) && (own <==> t.alias == lun.name)
  {
    hide PrintExternalID, LunsByIndex, TargetsByIqn, TargetsByIndex;
    IqnRows(l.targets, t.iqn);
    LunRows(l.luns, lun.index);
    if IdOf(Hydrated(l), t.iqn, n).Some? {
      var idx := LunAt(t, n).value;
      LunRows(l.luns, idx);
      var row := LunsByIndex(l.luns)[idx];
      assert Served(l, row, t);
      if IdOf(Hydrated(l), t.iqn, n) == Some(CreatedId(lun, t, own)) {
        PrintExternalIDInjective(RowId(row, t), ExternalID(lun.index, t.index, own, lun.name));
      }
    }
  }

  /** CreateVolume tells every node to attach LUN 0, on shared targets too: that is the volume's LUN
      if and only if its target lists it first. */
  lemma LunZeroIsTheVolumeExactly(l: Listing, lun: LunRow, t: TargetRow)
    requires Tidy(l) && Served(l, lun, t) && t.iqn != "" && AllEncodable(l)
    ensures IdOf(Hydrated(l), t.iqn, 0) == Some(PrintExternalID(RowId(lun, t))) <==> t.luns[0] == lun.index
  {
    hide PrintExternalID, IdOf, Hydrated;
    CreatedIdIsRebuiltExactly(l, lun, t, t.alias == lun.name, 0);
  }

  /** For instance: the second LUN of a shared target is told to attach the first one's number. */
  lemma SecondLunGetsFirstNumber()
    ensures var first, second := LunRow(5, "a", 1), LunRow(7, "b", 1);
            var t := TargetRow(3, "shared", "i", [5, 7]);
            IdOf(Hydrated(Listing([t], [first, second])), "i", 0) == Some(PrintExternalID(RowId(first, t)))
  {
    hide PrintExternalID, IdOf, Hydrated;
    var first, second := LunRow(5, "a", 1), LunRow(7, "b", 1);
    var t := TargetRow(3, "shared", "i", [5, 7]);
    var l := Listing([t], [first, second]);
    assert Served(l, first, t) && Served(l, second, t);
    LunZeroIsTheVolumeExactly(l, first, t);
  }

  // ----- The cache between refreshes -----

  function Added(x: LunIndex, lun: LunRow, t: TargetRow): LunIndex
  {
    LunIndex(x.byName[lun.name := lun], x.lunToTarget[lun.index := t])
  }

  function Unmapped(x: LunIndex, lunIndex: int): LunIndex
  {
    x.(lunToTarget := x.lunToTarget - {lunIndex})
  }

  /** The volume's id in this listing; a target is known by its index and alias. */
  ghost predicate ListedAs(l: Listing, lun: LunRow, id: string)
  {
    exists t :: Served(l, lun, t) && id == PrintExternalID(RowId(lun, t))
  }

  /** Apart from the LUN at `idx`, the two listings show the same volumes under the same ids. */
  ghost predicate SameBut(l: Listing, l': Listing, idx: int)
  {
    forall lun: LunRow, id :: lun.index != idx ==> (ListedAs(l, lun, id) <==> ListedAs(l', lun, id))
  }

  lemma ListedByRows(l: Listing, id: string)
    requires Tidy(l)
    ensures id in ListedIds(Indexed(l)) <==> exists lun :: ListedAs(l, lun, id)
  {
    hide ListedIds, PrintExternalID;
    ListsServedVolumes(l, id);
    if lun, t :| Served(l, lun, t) && id == PrintExternalID(RowId(lun, t)) {
      assert ListedAs(l, lun, id);
    }
  }

  /** The ids listed once the LUN at `idx` no longer counts. */
  lemma UnmappedLists(l: Listing, idx: int, id: string)
    requires Tidy(l)
    ensures id in ListedIds(Unmapped(Indexed(l), idx)) <==>
        exists lun: LunRow :: lun.index != idx && ListedAs(l, lun, id)
  {
    hide PrintExternalID, LunsByName, LunToTarget;
    var x := Unmapped(Indexed(l), idx);
    if id in ListedIds(x) {
      var name :| name in x.byName && x.byName[name].index in x.lunToTarget
                  && id == PrintExternalID(RowId(x.byName[name], x.lunToTarget[x.byName[name].index]));
      NameRows(l.luns, name);
      LunTargetRows(l.targets, x.byName[name].index);
      assert Served(l, x.byName[name], x.lunToTarget[x.byName[name].index]);
      assert ListedAs(l, x.byName[name], id);
    }
    if lun: LunRow :| lun.index != idx && ListedAs(l, lun, id) {
      var t :| Served(l, lun, t) && id == PrintExternalID(RowId(lun, t));
      NameRows(l.luns, lun.name);
      LunTargetRows(l.targets, lun.index);
      assert x.byName[lun.name] == lun && x.lunToTarget[lun.index] == t;
    }
  }

  /** removeLUN after a delete: the cached listing is what the appliance would list now. */
  lemma RemoveAgreesWithListing(l: Listing, l': Listing, idx: int)
    requires Tidy(l) && Tidy(l') && SameBut(l, l', idx) && forall lun, t :: Served(l', lun, t) ==> lun.index != idx
    ensures ListedIds(Unmapped(Indexed(l), idx)) == ListedIds(Indexed(l'))
  {
    hide ListedIds, PrintExternalID, Unmapped, Indexed;
    forall id
      ensures id in ListedIds(Unmapped(Indexed(l), idx)) <==> id in ListedIds(Indexed(l'))
    {
      UnmappedLists(l, idx, id);
      ListedByRows(l', id);
    }
  }

  /** addLUN after a create of a new name at an index no listed LUN has: likewise. */
  lemma AddAgreesWithListing(l: Listing, l': Listing, lun: LunRow, t: TargetRow)
    requires Tidy(l) && Tidy(l') && SameBut(l, l', lun.index) && Served(l', lun, t)
    requires forall a :: a in l.luns ==> a.index != lun.index && a.name != lun.name
    ensures ListedIds(Added(Indexed(l), lun, t)) == ListedIds(Indexed(l'))
  {
    hide ListedIds, PrintExternalID, Indexed, Added;
    forall id
      ensures id in ListedIds(Added(Indexed(l), lun, t)) <==> id in ListedIds(Indexed(l'))
    {
      AddedLists(l, lun, t, id);
      ListedByRows(l', id);
      OwnRow(l', lun, t, id);
    }
  }

  lemma OwnRow(l: Listing, lun: LunRow, t: TargetRow, id: string)
    requires Tidy(l) && Served(l, lun, t)
    ensures forall a: LunRow :: a.index == lun.index && ListedAs(l, a, id) ==> id == PrintExternalID(RowId(lun, t))
    ensures id == PrintExternalID(RowId(lun, t)) ==> ListedAs(l, lun, id)
  {
    hide PrintExternalID;
  }

  lemma AddedLists(l: Listing, lun: LunRow, t: TargetRow, id: string)
    requires Tidy(l) && forall a :: a in l.luns ==> a.index != lun.index && a.name != lun.name
    ensures id in ListedIds(Added(Indexed(l), lun, t)) <==>
            || id == PrintExternalID(RowId(lun, t))
            || exists a: LunRow :: a.index != lun.index && ListedAs(l, a, id)
  {
    hide PrintExternalID, LunsByName, LunToTarget;
    var x, y := Indexed(l), Added(Indexed(l), lun, t);
    UnmappedLists(l, lun.index, id);
    NameRows(l.luns, lun.name);
    if id in ListedIds(y) {
      var name :| name in y.byName && y.byName[name].index in y.lunToTarget
                  && id == PrintExternalID(RowId(y.byName[name], y.lunToTarget[y.byName[name].index]));
      if name != lun.name {
        NameRows(l.luns, name);
        assert name in x.byName && x.byName[name].index in Unmapped(x, lun.index).lunToTarget;
      }
    }
    if id == PrintExternalID(RowId(lun, t)) {
      assert lun.name in y.byName && y.byName[lun.name] == lun && y.lunToTarget[lun.index] == t;
    }
    if id in ListedIds(Unmapped(x, lun.index)) {
      var name :| name in x.byName && x.byName[name].index in x.lunToTarget - {lun.index}
                  && id == PrintExternalID(RowId(x.byName[name], x.lunToTarget[x.byName[name].index]));
      assert name in y.byName && y.byName[name] == x.byName[name];
    }
  }
}
