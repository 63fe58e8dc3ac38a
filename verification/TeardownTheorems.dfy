/** What one unstage keeps and ends, and when a restarted node detaches as a warm one does. */
module TeardownTheorems {
  import opened Base
  import opened Text
  import opened Driver
  import opened Portals
  import opened IscsiSessions
  import opened Teardown

  // ----- The in-use guard -----

  /** An unstage is refused as still in use exactly when the volume was identified and another
      mount or a raw open uses it; the node and host are then untouched, so a retry finds the
      same identity. */
  lemma PrematureUnstageChangesNothing(c: Config, n: Node, volumeID: string, staging: string, a: Answers)
    ensures var (n', r) := UnstageDo(c, n, volumeID, staging, a);
            var id := Resolved(c, n, volumeID, a);
            && (r == Err(CodeFailedPrecondition) <==> id.Some? && a.mountsList && InUse(n.host, staging, id.value.wwid))
            && (r.Err? ==> n' == n && Resolved(c, n', volumeID, a) == id)
  {
    hide Resolved, InUse, Detached, UnmountDo;
  }

  // ----- Sharing a target -----

  lemma {:induction false} LogoutKeeps(ss: seq<Session>, gone: set<string>, iqn: string, s: Session)
    ensures s in LogoutAll(ss, gone, iqn) <==> s in ss && !(s.iqn == iqn && NormalizePortal(s.portal) in gone)
  {
    hide NormalizePortal;
    if ss != [] {
      LogoutKeeps(ss[1..], gone, iqn, s);
      assert ss == [ss[0]] + ss[1..];
    }
  }

  ghost predicate OnlyLun(ss: seq<Session>, iqn: string, lun: int)
  {
    forall o :: o in ss && o.iqn == iqn ==> o.lun == lun
  }

  /** A teardown of `id` that is neither refused nor stopped ends session `s`: it is of that target,
      on a portal whose logout works, and no session of the target carries another LUN than `id`,
      as far as sessions can be counted. */
  ghost predicate EndsBy(h: Host, staging: string, a: Answers, id: Id, s: Session)
  {
    && a.unmounts && s.iqn != "" && id.iqn == s.iqn && !(a.mountsList && InUse(h, staging, id.wwid))
    && (a.refcountLists ==> OnlyLun(h.sessions, s.iqn, id.lun))
    && NormalizePortal(s.portal) in Normals(id.portals - a.stuck)
  }

  /** Exactly the sessions an unstage ends, from what it takes the volume to be. */
  lemma UnstageEndsExactly(c: Config, n: Node, volumeID: string, staging: string, a: Answers, s: Session)
    requires s in n.host.sessions
    ensures var id := Resolved(c, n, volumeID, a);
            s !in UnstageDo(c, n, volumeID, staging, a).0.host.sessions <==>
              id.Some? && EndsBy(n.host, staging, a, id.value, s)
  {
    hide Resolved, InUse, UnmountDo, NormalizePortal, Normals, LogoutAll;
    var id := Resolved(c, n, volumeID, a);
    if id.Some? {
      LogoutKeeps(n.host.sessions, Normals(id.value.portals - a.stuck), id.value.iqn, s);
      LastLunMeans(n.host.sessions, a.refcountLists, id.value.iqn, id.value.lun, s);
    }
  }

  lemma LastLunMeans(ss: seq<Session>, lists: bool, iqn: string, lun: int, s: Session)
    ensures s in ss && s.iqn == iqn ==> (LastLun(ss, lists, iqn, lun) <==> (lists ==> OnlyLun(ss, iqn, lun)))
  {
    if s in ss && s.iqn == iqn {
      assert s.lun in LunsOn(ss, iqn);
      if LunsOn(ss, iqn) == {lun} {
        forall o | o in ss && o.iqn == iqn
          ensures o.lun == lun
        {
          assert o.lun in LunsOn(ss, iqn);
        }
      }
      if OnlyLun(ss, iqn, lun) {
        assert LunsOn(ss, iqn) == {lun};
      }
    }
  }

  /** A LUN sharing the target survives another LUN's teardown exactly when the refcount listing
      worked or no logout reaches its portal. */
  lemma SharedLunSurvivesExactlyWhenCounted(c: Config, n: Node, volumeID: string, staging: string, a: Answers,
                                            s: Session)
    requires var id := Resolved(c, n, volumeID, a);
             && id.Some? && id.value.iqn != "" && !(a.mountsList && InUse(n.host, staging, id.value.wwid)) && a.unmounts
             && s in n.host.sessions && s.iqn == id.value.iqn && s.lun != id.value.lun
    ensures s in UnstageDo(c, n, volumeID, staging, a).0.host.sessions <==>
            || a.refcountLists
            || NormalizePortal(s.portal) !in Normals(Resolved(c, n, volumeID, a).value.portals - a.stuck)
  {
    hide Resolved, UnstageDo, InUse, NormalizePortal, Normals;
    UnstageEndsExactly(c, n, volumeID, staging, a, s);
  }

  // ----- Whose session it is -----

  /** An unstage that finds its volume in the cache never ends a session of another LUN, as long as
      sessions can be counted. */
  lemma WarmUnstageSparesOthers(c: Config, n: Node, volumeID: string, staging: string, a: Answers, s: Session)
    requires volumeID in n.meta && (s.iqn, s.lun) != (n.meta[volumeID].iqn, n.meta[volumeID].lun)
    requires s in n.host.sessions && a.refcountLists
    ensures s in UnstageDo(c, n, volumeID, staging, a).0.host.sessions
  {
    hide UnstageDo, InUse, NormalizePortal, Normals, FromMount, FromSan;
    UnstageEndsExactly(c, n, volumeID, staging, a, s);
  }

  /** No session of this plugin stands behind the mount findmnt names. */
  ghost predicate NothingBehindMount(c: Config, h: Host, a: Answers)
  {
    a.source.Some? && a.mountTierLists ==>
      forall o :: o in h.sessions ==> !OnDevices(c, MemberNames(h, a, a.source.value))(o)
  }

  lemma NothingFound(c: Config, h: Host, a: Answers)
    requires NothingBehindMount(c, h, a)
    ensures FromMount(c, h, a).None?
  {
    hide NormalizePortal, BaseName, LastMatch, PathRows, MembersOf, PortalOwned, OnDevices, MemberNames;
    if a.source.Some? && a.mountTierLists {
      LastMatchIs(h.sessions, OnDevices(c, MemberNames(h, a, a.source.value)));
    }
  }

  /** After a restart, the unstage of ANY volume of a target, whatever its own LUN and whether or not
      it was ever attached here, ends a session of that target if and only if it unmounts, the LUN of
      the target's last listed session, which it takes for its own, is not found in use, and, if
      sessions can be counted, the session's LUN is the only one of the target attached here. */
  lemma ColdUnstageEndsForeignSessionExactly(c: Config, n: Node, volumeID: string, staging: string, a: Answers,
                                             s: Session)
    requires volumeID !in n.meta && NothingBehindMount(c, n.host, a)
    requires SanIqn(a, volumeID) == Some(s.iqn) && a.sanTierLists
    requires s in n.host.sessions && s.iqn != "" && PortalOwned(s.portal, c.ours)
    requires NormalizePortal(s.portal) == s.portal && s.portal !in a.stuck
    ensures var id := FromSan(c, n.host, a, volumeID);
            s !in UnstageDo(c, n, volumeID, staging, a).0.host.sessions <==>
              && a.unmounts && id.Some?
              && !(a.mountsList && InUse(n.host, staging, id.value.wwid))
              && (a.refcountLists ==> OnlyLun(n.host.sessions, s.iqn, s.lun))
  {
    hide UnstageDo, NormalizePortal, LastMatch, PathRows, WwidOf, SanIqn, PortalOwned, InUse, BaseName, FromMount;
    var h := n.host;
    UnstageEndsExactly(c, n, volumeID, staging, a, s);
    NothingFound(c, h, a);
    var p := OnTarget(c, s.iqn);
    assert p(s);
    LastMatchIs(h.sessions, p);
    var id := FromSan(c, h, a, volumeID);
    if id.Some? {
      assert s.portal in MatchPortals(h.sessions, p);
      assert s.portal in id.value.portals - a.stuck;
      assert NormalizePortal(s.portal) in Normals(id.value.portals - a.stuck);
    }
  }

  // ----- A restarted node -----

  /** The bare names of the path devices in a multipath map. */
  function MapPaths(h: Host, wwid: string): set<string>
  {
    set d | d in MembersOf(PathRows(h.paths), wwid) :: BaseName(d)
  }

  ghost predicate OfLun(m: StageMeta, s: Session)
  {
    s.iqn == m.iqn && s.lun == m.lun
  }

  ghost predicate Bare(name: string)
  {
    name != "" && Free(name, '/')
  }

  /** The host as a finished stage leaves it: the volume's sessions are those of its IQN and LUN,
      one for each recorded portal, all on portals of this plugin. */
  ghost predicate Attached(c: Config, h: Host, m: StageMeta)
  {
    && m.iqn != "" && m.portals != []
    && (forall s :: s in h.sessions && OfLun(m, s) ==> s.portal in m.portals && PortalOwned(s.portal, c.ours))
    && (forall p :: p in m.portals ==> NormalizePortal(p) == p && exists s :: s in h.sessions && OfLun(m, s)
                                                                              && s.portal == p)
  }

  /** Multipath has gathered exactly the volume's path devices under its WWID. */
  ghost predicate Mapped(h: Host, m: StageMeta)
  {
    Bare(m.wwid) && forall s :: s in h.sessions ==> (BaseName(s.device) in MapPaths(h, m.wwid) <==> OfLun(m, s))
  }

  lemma {:induction false} LastMatchIs(ss: seq<Session>, p: Session -> bool)
    ensures LastMatch(ss, p).Some? <==> exists s :: s in ss && p(s)
    ensures LastMatch(ss, p).Some? ==> LastMatch(ss, p).value in ss && p(LastMatch(ss, p).value)
  {
    if ss != [] {
      LastMatchIs(ss[..|ss| - 1], p);
      assert ss == ss[..|ss| - 1] + [ss[|ss| - 1]];
    }
  }

  lemma StripBare(p: string)
    requires p == "" || p[|p| - 1] != '/'
    ensures StripSlashes(p) == p
  {
  }

  lemma MapperBase(wwid: string)
    requires Bare(wwid)
    ensures BaseName(MAPPER + wwid) == wwid && IsMapper(MAPPER + wwid)
  {
    hide StripSlashes, LastIndex;
    var p := MAPPER + wwid;
    StripBare(p);
    LastIndexUnique(p, '/', |MAPPER| - 1);
    assert p[|MAPPER|..] == wwid;
  }

  /** When the sessions picked by `p` are exactly the volume's, both tiers find its recorded portals. */
  lemma FindsItsOwn(c: Config, h: Host, m: StageMeta, p: Session -> bool)
    requires Attached(c, h, m) && forall s :: s in h.sessions ==> (p(s) <==> OfLun(m, s))
    ensures var last := LastMatch(h.sessions, p);
            last.Some? && last.value in h.sessions && OfLun(m, last.value)
                && MatchPortals(h.sessions, p) == Elems(m.portals)
  {
    hide NormalizePortal, LastMatch, PortalOwned;
    LastMatchIs(h.sessions, p);
    assert m.portals[0] in m.portals;
    forall q
      ensures q in MatchPortals(h.sessions, p) <==> q in Elems(m.portals)
    {
      if q in m.portals {
        var s :| s in h.sessions && OfLun(m, s) && s.portal == q;
        assert p(s);
      }
    }
  }

  /** With multipath, whatever findmnt names as the mount's source, a restarted node rebuilds from it
      exactly what the stage had recorded if and only if it is the volume's mapper path. Under a
      name that is no mapper path and no session's device, as the resolved dm name, it finds nothing. */
  lemma ColdMatchesWarmExactlyForMapperNames(c: Config, h: Host, m: StageMeta, a: Answers)
    requires Attached(c, h, m) && Mapped(h, m) && a.source.Some? && a.mountTierLists && a.pathsAnswer
    ensures FromMount(c, h, a) == Some(MetaId(m)) <==> IsMapper(a.source.value) && BaseName(a.source.value) == m.wwid
    ensures !IsMapper(a.source.value) && (forall s :: s in h.sessions ==>
                                          BaseName(s.device) != BaseName(a.source.value)) ==>
              FromMount(c, h, a).None?
  {
    hide NormalizePortal, BaseName, LastMatch, PathRows, MembersOf, PortalOwned;
    var p := OnDevices(c, MemberNames(h, a, a.source.value));
    LastMatchIs(h.sessions, p);
    if IsMapper(a.source.value) && BaseName(a.source.value) == m.wwid {
      assert MemberNames(h, a, a.source.value) == MapPaths(h, m.wwid);
      FindsItsOwn(c, h, m, p);
    }
  }

  /** So the restart makes no difference: the same status, and the same mounts, maps and sessions
      afterwards. */
  lemma RestartDetachesTheSame(c: Config, n: Node, volumeID: string, m: StageMeta, staging: string, a: Answers)
    requires Attached(c, n.host, m) && Mapped(n.host, m) && volumeID !in n.meta
    requires a.source == Some(MAPPER + m.wwid) && a.mountTierLists && a.pathsAnswer
    ensures UnstageDo(c, n.(meta := n.meta[volumeID := m]), volumeID, staging, a).1 == UnstageDo(c, n, volumeID,
                                                                                                 staging, a).1
    ensures UnstageDo(c, n.(meta := n.meta[volumeID := m]), volumeID, staging, a).0.host == UnstageDo(c, n, volumeID,
                                                                                                      staging, a).0.host
  {
    hide FromMount, FromSan, InUse, UnmountDo, Detached, Attached, BaseName;
    MapperBase(m.wwid);
    ColdMatchesWarmExactlyForMapperNames(c, n.host, m, a);
  }

  /** Without multipath the mount names one path device, so a restarted node finds only that
      path's portal: it detaches what the stage attached if and only if there was one portal. */
  lemma ColdWithoutMultipathExactlyForOnePortal(c: Config, h: Host, m: StageMeta, a: Answers, s: Session)
    requires Attached(c, h, m) && m.wwid == "" && s in h.sessions && OfLun(m, s)
    requires a.source == Some(s.device) && a.mountTierLists && !IsMapper(s.device)
    requires forall o :: o in h.sessions && BaseName(o.device) == BaseName(s.device) ==> o == s
    ensures FromMount(c, h, a) == Some(Id(m.iqn, m.lun, "", {s.portal}))
    ensures FromMount(c, h, a) == Some(MetaId(m)) <==> forall p :: p in m.portals ==> p == s.portal
  {
    hide NormalizePortal, BaseName, LastMatch, PathRows, MembersOf, PortalOwned;
    var p := OnDevices(c, {BaseName(s.device)});
    assert p(s);
    LastMatchIs(h.sessions, p);
    assert MemberNames(h, a, s.device) == {BaseName(s.device)};
    assert MatchPortals(h.sessions, p) == {s.portal};
    if forall q :: q in m.portals ==> q == s.portal {
      assert Elems(m.portals) == {s.portal};
    } else {
      var q :| q in m.portals && q != s.portal;
      assert q in Elems(m.portals);
    }
  }

  // ----- Block volumes after a restart -----

  /** Path devices are listed once, by bare name. */
  ghost predicate CleanRows(rows: seq<seq<string>>)
  {
    && (forall i :: 0 <= i < |rows| && |rows[i]| >= 2 ==> BaseName(rows[i][0]) == rows[i][0])
    && (forall i, j :: 0 <= i < j < |rows| && |rows[i]| >= 2 && |rows[j]| >= 2 ==> rows[i][0] != rows[j][0])
  }

  lemma {:induction false} MemberRow(rows: seq<seq<string>>, wwid: string, d: string)
    ensures d in MembersOf(rows, wwid) <==> exists i :: 0 <= i < |rows| && |rows[i]| >= 2 && rows[i][1] == wwid
                                                        && rows[i][0] == d
  {
    if rows != [] {
      MemberRow(rows[1..], wwid, d);
      assert forall i :: 0 < i < |rows| ==> rows[i] == rows[1..][i - 1];
      if i :| 0 <= i < |rows[1..]| && |rows[1..][i]| >= 2 && rows[1..][i][1] == wwid && rows[1..][i][0] == d {
        assert rows[i + 1] == rows[1..][i];
      }
    }
  }

  lemma {:induction false} FirstRow(rows: seq<seq<string>>, i: nat)
    requires CleanRows(rows) && i < |rows| && |rows[i]| >= 2
    ensures WwidOf(rows, rows[i][0]) == rows[i][1]
  {
    hide BaseName;
    if i > 0 {
      assert rows[1..][i - 1] == rows[i];
      FirstRow(rows[1..], i - 1);
    }
  }

  /** multipathd's two views agree: a path device is a member of the map it names. */
  lemma MemberHasWwid(h: Host, wwid: string, base: string)
    requires CleanRows(PathRows(h.paths)) && base in MapPaths(h, wwid)
    ensures WwidOf(PathRows(h.paths), base) == wwid
  {
    hide BaseName, PathRows, WwidOf, MembersOf;
    var rows := PathRows(h.paths);
    var d :| d in MembersOf(rows, wwid) && BaseName(d) == base;
    MemberRow(rows, wwid, d);
    var i :| 0 <= i < |rows| && |rows[i]| >= 2 && rows[i][1] == wwid && rows[i][0] == d;
    FirstRow(rows, i);
  }

  /** Every session of the volume's target is on a recorded portal, whichever LUN it carries. */
  ghost predicate SamePaths(c: Config, h: Host, m: StageMeta)
  {
    forall s :: s in h.sessions && s.iqn == m.iqn ==> s.portal in m.portals && PortalOwned(s.portal, c.ours)
  }

  /** A block volume has no staging mount, so a restarted node asks the SAN for its target and takes
      the LUN and map of the target's last listed session: this is what the stage recorded if and
      only if that session is of the volume's own LUN, as it always is on a dedicated target. */
  lemma SanTierExactlyForLastSession(c: Config, h: Host, m: StageMeta, a: Answers, volumeID: string)
    requires Attached(c, h, m) && Mapped(h, m) && SamePaths(c, h, m) && CleanRows(PathRows(h.paths))
    requires c.useMultipath && a.pathsAnswer && a.sanTierLists && SanIqn(a, volumeID) == Some(m.iqn)
    requires m.lun >= 0 && forall s :: s in h.sessions && s.iqn == m.iqn ==> s.device != ""
    ensures var last := LastMatch(h.sessions, OnTarget(c, m.iqn));
            last.Some? && (FromSan(c, h, a, volumeID) == Some(MetaId(m)) <==> last.value.lun == m.lun)
    ensures (forall s :: s in h.sessions && s.iqn == m.iqn ==> s.lun == m.lun) ==>
        FromSan(c, h, a, volumeID) == Some(MetaId(m))
  {
    hide NormalizePortal, BaseName, LastMatch, PathRows, MembersOf, WwidOf, SanIqn, PortalOwned;
    var p := OnTarget(c, m.iqn);
    LastMatchIs(h.sessions, p);
    assert m.portals[0] in m.portals;
    var s :| s in h.sessions && OfLun(m, s) && s.portal == m.portals[0];
    assert p(s);
    var last := LastMatch(h.sessions, p).value;
    TargetPortals(c, h, m);
    if last.lun == m.lun {
      MemberHasWwid(h, m.wwid, BaseName(last.device));
    }
  }

  lemma TargetPortals(c: Config, h: Host, m: StageMeta)
    requires Attached(c, h, m) && SamePaths(c, h, m)
    ensures MatchPortals(h.sessions, OnTarget(c, m.iqn)) == Elems(m.portals)
  {
    hide NormalizePortal, PortalOwned;
    forall q
      ensures q in MatchPortals(h.sessions, OnTarget(c, m.iqn)) <==> q in Elems(m.portals)
    {
      if q in m.portals {
        var s :| s in h.sessions && OfLun(m, s) && s.portal == q;
        assert OnTarget(c, m.iqn)(s);
      }
    }
  }

  // ----- A finished teardown -----

  /** When the volume's LUN was the last of its target and nothing fails, no session of the volume
      is left, its map is gone, and the node has forgotten it. */
  lemma TeardownLeavesNothing(c: Config, n: Node, volumeID: string, m: StageMeta, staging: string, a: Answers)
    requires volumeID in n.meta && n.meta[volumeID] == m && Attached(c, n.host, m)
    requires a.mountsList && a.unmounts && a.flushes && a.refcountLists && a.stuck == {}
    requires forall s :: s in n.host.sessions && s.iqn == m.iqn ==> s.lun == m.lun
    requires !InUse(n.host, staging, m.wwid)
    ensures var (n', r) := UnstageDo(c, n, volumeID, staging, a);
            && r.Ok? && volumeID !in n'.meta
            && (forall s :: s in n'.host.sessions <==> s in n.host.sessions && s.iqn != m.iqn)
            && (c.useMultipath && m.wwid != "" ==> m.wwid !in n'.host.maps)
  {
    hide NormalizePortal, InUse, UnmountDo, PortalOwned, LogoutAll;
    var ss := n.host.sessions;
    var id := MetaId(m);
    assert id.portals - a.stuck == id.portals;
    assert LunsOn(ss, m.iqn) <= {m.lun};
    forall s
      ensures s in LogoutAll(ss, Normals(id.portals), m.iqn) <==> s in ss && s.iqn != m.iqn
    {
      LogoutKeeps(ss, Normals(id.portals), m.iqn, s);
      if s in ss && s.iqn == m.iqn {
        assert OfLun(m, s) && s.portal in m.portals;
      }
    }
  }
}
