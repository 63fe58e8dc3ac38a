/** Which volumes this node has staged, read off the host: node.stagedSessions and stagingMountFor. */
module StagedSessions {
  import opened Base
  import opened Portals
  import opened IscsiSessions
  import opened Mounts
  import opened SessionReconciler
  import R = StatsRegistry

  datatype Staged = Staged(iqn: string, lun: int, path: string, access: string)

  type Key = (string, int)

  function KeyOf(s: Session): Key
  {
    (s.iqn, s.lun)
  }

  /** `m` is a mount of the device called `cand`, by that name or by where it resolves. */
  predicate MountOfDevice(h: Host, m: Mount, cand: string)
  {
    m.source == cand || (cand in h.resolve && m.source == h.resolve[cand])
  }

  function Candidates(c: Config, h: Host, dev: string): seq<string>
  {
    if c.useMultipath && dev in h.wwid && h.wwid[dev] != "" then [dev, "/dev/mapper/" + h.wwid[dev]] else [dev]
  }

  /** `m` backs path device `dev`, directly or through its multipath mapper. */
  predicate Backs(c: Config, h: Host, m: Mount, dev: string)
  {
    dev != "" && exists k :: 0 <= k < |Candidates(c, h, dev)| && MountOfDevice(h, m, Candidates(c, h, dev)[k])
  }

  lemma MountedAsMount(h: Host, mounts: seq<Mount>, cand: string)
    ensures MountedAs(h, Sources(mounts), cand) <==> exists m :: m in mounts && MountOfDevice(h, m, cand)
  {
    if MountedAs(h, Sources(mounts), cand) {
      var name := if cand in Sources(mounts) then cand else h.resolve[cand];
      var i :| 0 <= i < |mounts| && mounts[i].source == name;
      assert mounts[i] in mounts;
    }
    if m :| m in mounts && MountOfDevice(h, m, cand) {
      var i :| 0 <= i < |mounts| && mounts[i] == m;
      assert m.source in Sources(mounts);
    }
  }

  /** The mount join of the stats sweep and that of the leak guard decide alike. */
  lemma SameMountJoin(c: Config, h: Host, dev: string, mounts: seq<Mount>)
    ensures DeviceMounted(c, h, dev, Sources(mounts)) <==> exists m :: m in mounts && Backs(c, h, m, dev)
  {
    var cs := Candidates(c, h, dev);
    forall cand
      ensures MountedAs(h, Sources(mounts), cand) <==> exists m :: m in mounts && MountOfDevice(h, m, cand)
    {
      MountedAsMount(h, mounts, cand);
    }
    if DeviceMounted(c, h, dev, Sources(mounts)) {
      var k := if MountedAs(h, Sources(mounts), dev) then 0 else 1;
      var m :| m in mounts && MountOfDevice(h, m, cs[k]);
      assert Backs(c, h, m, dev);
    }
    if m :| m in mounts && Backs(c, h, m, dev) {
      var k :| 0 <= k < |cs| && MountOfDevice(h, m, cs[k]);
      assert MountedAs(h, Sources(mounts), cs[k]);
    }
  }

  method MountFor(h: Host, cand: string, mounts: seq<Mount>) returns (r: Option<string>)
    ensures r.Some? <==> exists m :: m in mounts && MountOfDevice(h, m, cand)
    ensures r.Some? ==> exists m :: m in mounts && MountOfDevice(h, m, cand) && m.target == r.value
  {
    for i := 0 to |mounts|
      invariant forall m :: m in mounts[..i] ==> !MountOfDevice(h, m, cand)
    {
      if MountOfDevice(h, mounts[i], cand) {
        assert mounts[i] in mounts;
        return Some(mounts[i].target);
      }
    }
    assert mounts[..|mounts|] == mounts;
    r := None;
  }

  method StagingMountFor(c: Config, h: Host, devs: seq<string>, mounts: seq<Mount>) returns (r: Option<string>)
    ensures r.Some? <==> exists m, dev :: m in mounts && dev in devs && Backs(c, h, m, dev)
    ensures r.Some? ==> exists m, dev :: m in mounts && dev in devs && Backs(c, h, m, dev) && m.target == r.value
  {
    for i := 0 to |devs|
      invariant forall m, dev :: m in mounts && dev in devs[..i] ==> !Backs(c, h, m, dev)
    {
      if devs[i] == "" {
        continue;
      }
      var cs := Candidates(c, h, devs[i]);
      for k := 0 to |cs|
        invariant forall m, j :: m in mounts && 0 <= j < k ==> !MountOfDevice(h, m, cs[j])
      {
        var found := MountFor(h, cs[k], mounts);
        if found.Some? {
          ghost var m :| m in mounts && MountOfDevice(h, m, cs[k]) && m.target == found.value;
          assert Backs(c, h, m, devs[i]) && devs[i] in devs;
          return found;
        }
      }
    }
    assert devs[..|devs|] == devs;
    r := None;
  }

  ghost predicate OwnedKey(c: Config, sessions: seq<Session>, k: Key)
  {
    exists s :: s in sessions && PortalOwned(s.portal, c.ours) && KeyOf(s) == k
  }

  /** Some session of this (target, LUN) has its device mounted. */
  ghost predicate KeyMounted(c: Config, h: Host, sessions: seq<Session>, mounts: seq<Mount>, k: Key)
  {
    exists s :: s in sessions && PortalOwned(s.portal, c.ours) && KeyOf(s) == k
                && DeviceMounted(c, h, s.device, Sources(mounts))
  }

  /** Groups the plugin's session devices by (target, LUN), remembering first sightings in order. */
  method DevicesByKey(c: Config, sessions: seq<Session>) returns (devs: map<Key, seq<string>>, order: seq<Key>)
    ensures forall i, j :: 0 <= i < j < |order| ==> order[i] != order[j]
    ensures forall k :: k in order <==> k in devs
    ensures forall k :: k in devs <==> OwnedKey(c, sessions, k)
    ensures forall k, d :: k in devs && d != "" ==>
              (d in devs[k] <==> exists s :: s in sessions && PortalOwned(s.portal, c.ours) && KeyOf(s) == k
                                             && s.device == d)
  {
    hide NormalizePortal;
    devs, order := map[], [];
    for n := 0 to |sessions|
      invariant forall i, j :: 0 <= i < j < |order| ==> order[i] != order[j]
      invariant forall k :: k in order <==> k in devs
      invariant forall k :: k in devs <==> OwnedKey(c, sessions[..n], k)
      invariant forall k, d :: k in devs && d != "" ==>
                  (d in devs[k] <==> exists s :: s in sessions[..n] && PortalOwned(s.portal, c.ours) && KeyOf(s) == k
                                                 && s.device == d)
    {
      var s := sessions[n];
      assert sessions[..n + 1] == sessions[..n] + [s];
      if !PortalOwned(s.portal, c.ours) {
        continue;
      }
      var k := KeyOf(s);
      var before := if k in devs then devs[k] else [];
      if k !in devs {
        order := order + [k];
      }
      devs := devs[k := if s.device != "" then before + [s.device] else before];
    }
    assert sessions[..|sessions|] == sessions;
  }

  /** stagedSessions: each of this plugin's (target, LUN) pairs exactly once; mount access exactly
      when a device behind it is mounted, and then with the target of such a mount. */
  method StagedOn(c: Config, h: Host) returns (r: Option<seq<Staged>>)
    ensures r.Some? <==> Completed(h)
    ensures r.Some? ==> forall i, j :: 0 <= i < j < |r.value| ==>
        (r.value[i].iqn, r.value[i].lun) != (r.value[j].iqn, r.value[j].lun)
    ensures r.Some? ==> forall iqn, lun ::
              (exists i :: 0 <= i < |r.value| && (r.value[i].iqn, r.value[i].lun) == (iqn, lun)) <==>
                  OwnedKey(c, h.sessions.value, (iqn, lun))
    ensures r.Some? ==> forall i :: 0 <= i < |r.value| ==>
              var mounted := KeyMounted(c, h, h.sessions.value, h.mounts.value, (r.value[i].iqn, r.value[i].lun));
              r.value[i].access == if mounted then R.ACCESS_MOUNT else R.ACCESS_BLOCK
    ensures r.Some? ==> forall i :: 0 <= i < |r.value| && r.value[i].access == R.ACCESS_MOUNT ==>
              exists m :: m in h.mounts.value && m.target == r.value[i].path
  {
    if h.sessions.None? || h.mounts.None? {
      return None;
    }
    var sessions, mounts := h.sessions.value, h.mounts.value;
    var devs, order := DevicesByKey(c, sessions);
    hide PortalOwned, DeviceMounted, Backs;
    var out: seq<Staged> := [];
    for n := 0 to |order|
      invariant |out| == n
      invariant forall i :: 0 <= i < n ==>
                  && (out[i].iqn, out[i].lun) == order[i]
                  && out[i].access == (if KeyMounted(c, h, sessions, mounts, order[i]) then R.ACCESS_MOUNT
                                       else R.ACCESS_BLOCK)
                  && (out[i].access == R.ACCESS_MOUNT ==> exists m :: m in mounts && m.target == out[i].path)
    {
      var k := order[n];
      assert k in order;
      var found := StagingMountFor(c, h, devs[k], mounts);
      MountedByDevices(c, h, sessions, mounts, k, devs[k]);
      out := out + [Staged(k.0, k.1, if found.Some? then found.value else "",
                           if found.Some? then R.ACCESS_MOUNT else R.ACCESS_BLOCK)];
    }
    r := Some(out);
    forall iqn, lun
      ensures (exists i :: 0 <= i < |out| && (out[i].iqn, out[i].lun) == (iqn, lun)) <==>
          OwnedKey(c, sessions, (iqn, lun))
    {
      assert (iqn, lun) in order <==> OwnedKey(c, sessions, (iqn, lun));
    }
  }

  lemma MountedByDevices(c: Config, h: Host, sessions: seq<Session>, mounts: seq<Mount>, k: Key, devs: seq<string>)
    requires forall d :: d != "" ==>
               (d in devs <==> exists s :: s in sessions && PortalOwned(s.portal, c.ours) && KeyOf(s) == k
                                           && s.device == d)
    ensures KeyMounted(c, h, sessions, mounts, k) <==>
        exists m, dev :: m in mounts && dev in devs && Backs(c, h, m, dev)
  {
    hide PortalOwned, MountOfDevice;
    if KeyMounted(c, h, sessions, mounts, k) {
      var s :| s in sessions && PortalOwned(s.portal, c.ours) && KeyOf(s) == k
          && DeviceMounted(c, h, s.device, Sources(mounts));
      SameMountJoin(c, h, s.device, mounts);
    }
    if m, dev :| m in mounts && dev in devs && Backs(c, h, m, dev) {
      SameMountJoin(c, h, dev, mounts);
    }
  }
}
