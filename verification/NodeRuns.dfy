/** Stages and unstages together: what a failed stage leaves, what unstaging undoes, what survives any run. */
module NodeRuns {
  import opened Base
  import opened Driver
  import opened Portals
  import opened IscsiSessions
  import opened Mounts
  import opened Teardown
  import opened TeardownTheorems
  import opened Attach

  // ----- Logging in -----

  /** A login to (p, iqn) brings up rows of that target and portal only. */
  ghost predicate SaneFabric(a: StageAnswers)
  {
    forall p, iqn, s :: (p, iqn) in a.fabric && s in a.fabric[(p, iqn)] ==> s.iqn == iqn && s.portal == p
  }

  lemma {:induction false} LoginKeeps(ss: seq<Session>, ps: seq<string>, iqn: string, a: StageAnswers, s: Session)
    requires s in ss
    ensures s in LoggedIn(ss, ps, iqn, a)
  {
    if ps != [] {
      LoginKeeps(ss, ps[..|ps| - 1], iqn, a, s);
    }
  }

  lemma {:induction false} ActiveIs(ps: seq<string>, down: set<string>, p: string)
    ensures p in ActivePortals(ps, down) <==> p in ps && p !in down
  {
    if ps != [] {
      ActiveIs(ps[..|ps| - 1], down, p);
      assert ps == ps[..|ps| - 1] + [ps[|ps| - 1]];
    }
  }

  lemma {:induction false} LoginAdds(ss: seq<Session>, ps: seq<string>, iqn: string, a: StageAnswers, s: Session)
    requires SaneFabric(a) && s in LoggedIn(ss, ps, iqn, a) && s !in ss
    ensures s.iqn == iqn && s.portal in ps && s.portal !in a.down
  {
    if ps != [] {
      var init, p := ps[..|ps| - 1], ps[|ps| - 1];
      assert ps == init + [p];
      if s in LoggedIn(ss, init, iqn, a) {
        LoginAdds(ss, init, iqn, a, s);
      } else {
        assert s in a.fabric[(p, iqn)];
      }
    }
  }

  lemma {:induction false} LoginBrings(ss: seq<Session>, ps: seq<string>, iqn: string, a: StageAnswers, p: string,
                                       s: Session)
    requires p in ps && p !in a.down && (p, iqn) in a.fabric && s in a.fabric[(p, iqn)]
    ensures s in LoggedIn(ss, ps, iqn, a)
  {
    var init := ps[..|ps| - 1];
    assert ps == init + [ps[|ps| - 1]];
    if p in init {
      LoginBrings(ss, init, iqn, a, p, s);
    }
  }

  // ----- A failed stage -----

  /** A stage finishes if and only if it finds where to attach, gets its device and, unless it is a
      block volume, formats and mounts it; what it records then, or when only the format or the
      mount failed, is the portals that came up. */
  lemma StageOutcome(c: Config, n: Node, volumeID: string, staging: string, ctx: VolumeContext, block: bool,
                     a: StageAnswers)
    ensures var id := AttachIdentity(a.own, a.san, volumeID, ctx);
            var (n', r) := StageDo(c, n, volumeID, staging, ctx, block, a);
            var attached := id.Ok? && Attaches(c, ActivePortals(id.value.portals, a.down), a);
            && (r.Ok? <==> attached && (block || (a.formats && a.mounts)))
            && n'.meta == (if attached then n.meta[volumeID := Recorded(c, id.value, a)] else n.meta)
            && (attached ==>
                  && n'.host.sessions == LoggedIn(n.host.sessions, id.value.portals, id.value.iqn, a)
                  && n'.host.maps == (if c.useMultipath then n.host.maps + {a.wwid.value} else n.host.maps)
                  && (r.Err? || block ==> n'.host.mounts == n.host.mounts)
                  && (r.Ok? && !block ==> exists dev :: n'.host.mounts == n.host.mounts + [Mount(staging, dev)]))
  {
    hide AttachIdentity, LoggedIn, ActivePortals, LogoutAll, Normals;
  }

  /** The target and normalised portals a stage logs out of in its clean-up: those that came up, less
      the failing logouts, when the device, its map or the map's path does not appear. */
  function CleansUp(c: Config, volumeID: string, ctx: VolumeContext, a: StageAnswers): Option<(string, set<string>)>
  {
    var id := AttachIdentity(a.own, a.san, volumeID, ctx);
    if id.Err? then None
    else
      var active := ActivePortals(id.value.portals, a.down);
      if Attaches(c, active, a) then None else Some((id.value.iqn, Normals(Elems(active) - a.stuck)))
  }

  /** A stage keeps a session that was there if and only if it does not clean up on that session's
      target and portal; where it does, it cuts every LUN attached through them, its own or not. */
  lemma StageKeepsExactly(c: Config, n: Node, volumeID: string, staging: string, ctx: VolumeContext, block: bool,
                          a: StageAnswers, s: Session)
    requires s in n.host.sessions
    ensures var cut := CleansUp(c, volumeID, ctx, a);
            s in StageDo(c, n, volumeID, staging, ctx, block, a).0.host.sessions
            <==> !(cut.Some? && s.iqn == cut.value.0 && NormalizePortal(s.portal) in cut.value.1)
  {
    hide AttachIdentity, NormalizePortal, LogoutAll, LoggedIn, ActivePortals;
    var r := AttachIdentity(a.own, a.san, volumeID, ctx);
    if r.Ok? {
      var id := r.value;
      LoginKeeps(n.host.sessions, id.portals, id.iqn, a, s);
      LogoutKeeps(LoggedIn(n.host.sessions, id.portals, id.iqn, a),
                  Normals(Elems(ActivePortals(id.portals, a.down)) - a.stuck), id.iqn, s);
      assert ActivePortals(id.portals, a.down) == [] ==>
          Normals(Elems(ActivePortals(id.portals, a.down)) - a.stuck) == {};
    }
  }

  /** A session a failed stage leaves behind: either its logout failed in the clean-up, or the device
      was attached and only the format or the mount failed. In the second case the stage is on
      record, with the session's target and portal, for an unstage to undo. */
  lemma FailedStageLeaves(c: Config, n: Node, volumeID: string, staging: string, ctx: VolumeContext, block: bool,
                          a: StageAnswers, s: Session)
    requires SaneFabric(a) && StageDo(c, n, volumeID, staging, ctx, block, a).1.Err?
    requires s !in n.host.sessions && s in StageDo(c, n, volumeID, staging, ctx, block, a).0.host.sessions
    ensures var id := AttachIdentity(a.own, a.san, volumeID, ctx);
            var n' := StageDo(c, n, volumeID, staging, ctx, block, a).0;
            && id.Ok?
            && if Attaches(c, ActivePortals(id.value.portals, a.down), a)
               then && !block && !(a.formats && a.mounts)
                    && volumeID in n'.meta && n'.meta[volumeID] == Recorded(c, id.value, a)
                    && s.iqn == n'.meta[volumeID].iqn && s.portal in n'.meta[volumeID].portals
               else s.portal in a.stuck
  {
    hide AttachIdentity, NormalizePortal, LogoutAll, LoggedIn, ActivePortals, SaneFabric;
    StageOutcome(c, n, volumeID, staging, ctx, block, a);
    var r := AttachIdentity(a.own, a.san, volumeID, ctx);
    if r.Ok? {
      var id := r.value;
      var ss := LoggedIn(n.host.sessions, id.portals, id.iqn, a);
      var active := ActivePortals(id.portals, a.down);
      LogoutKeeps(ss, Normals(Elems(active) - a.stuck), id.iqn, s);
      if s in ss {
        LoginAdds(n.host.sessions, id.portals, id.iqn, a, s);
        ActiveIs(id.portals, a.down, s.portal);
        assert s.portal !in a.stuck ==> s.portal in Elems(active) - a.stuck;
      }
    }
  }

  // ----- Stage, then unstage -----

  /** Every reachable portal brings up the LUN, and nothing of the target was attached before. */
  ghost predicate Fresh(c: Config, h: Host, id: Endpoint, a: StageAnswers)
  {
    && SaneFabric(a) && id.iqn != ""
    && (forall s :: s in h.sessions ==> s.iqn != id.iqn)
    && (forall p :: p in id.portals && p !in a.down ==>
          && NormalizePortal(p) == p && PortalOwned(p, c.ours) && (p, id.iqn) in a.fabric
          && exists s :: s in a.fabric[(p, id.iqn)] && s.lun == id.lun)
  }

  /** The stage finds where to attach, on a target not attached before, and gets its device. */
  ghost predicate GetsDevice(c: Config, n: Node, volumeID: string, ctx: VolumeContext, a: StageAnswers)
  {
    var id := AttachIdentity(a.own, a.san, volumeID, ctx);
    id.Ok? && Fresh(c, n.host, id.value, a) && Attaches(c, ActivePortals(id.value.portals, a.down), a)
  }

  /** A stage that got its device, whether or not it then formatted and mounted it, leaves the host
      attached in the sense the teardown relies on. */
  lemma StageAttaches(c: Config, n: Node, volumeID: string, staging: string, ctx: VolumeContext, block: bool,
                      a: StageAnswers)
    requires GetsDevice(c, n, volumeID, ctx, a)
    ensures var n' := StageDo(c, n, volumeID, staging, ctx, block, a).0;
            volumeID in n'.meta && Attached(c, n'.host, n'.meta[volumeID])
  {
    hide StageDo, AttachIdentity, NormalizePortal, LoggedIn, ActivePortals, PortalOwned, SaneFabric;
    StageOutcome(c, n, volumeID, staging, ctx, block, a);
    var id := AttachIdentity(a.own, a.san, volumeID, ctx).value;
    var n' := StageDo(c, n, volumeID, staging, ctx, block, a).0;
    var m := n'.meta[volumeID];
    forall s | s in n'.host.sessions && OfLun(m, s)
      ensures s.portal in m.portals && PortalOwned(s.portal, c.ours)
    {
      LoginAdds(n.host.sessions, id.portals, id.iqn, a, s);
      ActiveIs(id.portals, a.down, s.portal);
    }
    forall p | p in m.portals
      ensures NormalizePortal(p) == p && exists s :: s in n'.host.sessions && OfLun(m, s) && s.portal == p
    {
      ActiveIs(id.portals, a.down, p);
      var s :| s in a.fabric[(p, id.iqn)] && s.lun == id.lun;
      LoginBrings(n.host.sessions, id.portals, id.iqn, a, p, s);
      assert s.portal == p && s.iqn == id.iqn by {
        SaneRow(a, p, id.iqn, s);
      }
    }
  }

  lemma SaneRow(a: StageAnswers, p: string, iqn: string, s: Session)
    requires SaneFabric(a) && (p, iqn) in a.fabric && s in a.fabric[(p, iqn)]
    ensures s.iqn == iqn && s.portal == p
  {
  }

  /** On a target not attached before, and with every logout working, a stage that fails leaves
      sessions of its own if and only if it got its device and then failed to format or mount. */
  lemma FailedStageLeavesExactly(c: Config, n: Node, volumeID: string, staging: string, ctx: VolumeContext, block: bool,
                                 a: StageAnswers)
    requires AttachIdentity(a.own, a.san, volumeID, ctx).Ok? && a.stuck == {}
    requires Fresh(c, n.host, AttachIdentity(a.own, a.san, volumeID, ctx).value, a)
    requires StageDo(c, n, volumeID, staging, ctx, block, a).1.Err?
    ensures (exists s :: s in StageDo(c, n, volumeID, staging, ctx, block, a).0.host.sessions && s !in n.host.sessions)
            <==> GetsDevice(c, n, volumeID, ctx, a)
    ensures GetsDevice(c, n, volumeID, ctx, a) ==> !block && !(a.formats && a.mounts)
  {
    hide StageDo, AttachIdentity, NormalizePortal, LoggedIn, ActivePortals, PortalOwned, SaneFabric;
    StageOutcome(c, n, volumeID, staging, ctx, block, a);
    var n' := StageDo(c, n, volumeID, staging, ctx, block, a).0;
    if s :| s in n'.host.sessions && s !in n.host.sessions {
      FailedStageLeaves(c, n, volumeID, staging, ctx, block, a, s);
    }
    if GetsDevice(c, n, volumeID, ctx, a) {
      StageAttaches(c, n, volumeID, staging, ctx, block, a);
      var m := n'.meta[volumeID];
      assert m.portals[0] in m.portals;
      var s :| s in n'.host.sessions && OfLun(m, s) && s.portal == m.portals[0];
      assert s !in n.host.sessions;
    }
  }

  /** The target serves this LUN only. */
  ghost predicate Dedicated(id: Endpoint, a: StageAnswers)
  {
    forall p, s :: (p, id.iqn) in a.fabric && s in a.fabric[(p, id.iqn)] ==> s.lun == id.lun
  }

  lemma {:induction false} UnmountNone(ms: seq<Mount>, target: string)
    requires forall i :: 0 <= i < |ms| ==> ms[i].target != target
    ensures UnmountDo(ms, target) == ms
  {
    if ms != [] {
      UnmountNone(ms[1..], target);
    }
  }

  lemma {:induction false} UnmountLast(ms: seq<Mount>, m: Mount)
    requires forall i :: 0 <= i < |ms| ==> ms[i].target != m.target
    ensures UnmountDo(ms + [m], m.target) == ms
  {
    if ms != [] {
      assert (ms + [m])[1..] == ms[1..] + [m];
      UnmountLast(ms[1..], m);
    }
  }

  /** Unstaging undoes a stage that got its device, finished or failed at the format or the mount:
      sessions, mounts and maps are those from before, and the node has forgotten the volume. */
  lemma UnstageUndoesStage(c: Config, n: Node, volumeID: string, staging: string, ctx: VolumeContext, block: bool,
                           a: StageAnswers, u: Answers)
    requires GetsDevice(c, n, volumeID, ctx, a) && Dedicated(AttachIdentity(a.own, a.san, volumeID, ctx).value, a)
    requires u.mountsList && u.unmounts && u.flushes && u.refcountLists && u.stuck == {}
    requires forall i :: 0 <= i < |n.host.mounts| ==> n.host.mounts[i].target != staging
    requires c.useMultipath ==> a.wwid.value !in n.host.maps
    requires var n1 := StageDo(c, n, volumeID, staging, ctx, block, a).0;
             volumeID in n1.meta && !InUse(n1.host, staging, n1.meta[volumeID].wwid)
    ensures var n1 := StageDo(c, n, volumeID, staging, ctx, block, a).0;
            var (n2, r) := UnstageDo(c, n1, volumeID, staging, u);
            && r.Ok? && n2.meta == n.meta - {volumeID}
            && (forall s :: s in n2.host.sessions <==> s in n.host.sessions)
            && n2.host.mounts == n.host.mounts && n2.host.maps == n.host.maps
  {
    hide StageDo, UnstageDo, AttachIdentity, NormalizePortal, LoggedIn, ActivePortals, PortalOwned, InUse, Attached;
    var id := AttachIdentity(a.own, a.san, volumeID, ctx).value;
    var n1 := StageDo(c, n, volumeID, staging, ctx, block, a).0;
    var m := n1.meta[volumeID];
    StageOutcome(c, n, volumeID, staging, ctx, block, a);
    StageAttaches(c, n, volumeID, staging, ctx, block, a);
    forall s | s in n1.host.sessions && s.iqn == m.iqn
      ensures s.lun == m.lun
    {
      LoggedRow(n.host.sessions, id.portals, id.iqn, a, s);
    }
    TeardownLeavesNothing(c, n1, volumeID, m, staging, u);
    WarmTeardown(c, n1, volumeID, m, staging, u);
    forall s
      ensures s in n1.host.sessions && s.iqn != m.iqn <==> s in n.host.sessions
    {
      if s in n.host.sessions {
        LoginKeeps(n.host.sessions, id.portals, id.iqn, a, s);
      } else if s in n1.host.sessions {
        LoginAdds(n.host.sessions, id.portals, id.iqn, a, s);
      }
    }
    if n1.host.mounts == n.host.mounts {
      UnmountNone(n.host.mounts, staging);
    } else {
      var dev :| n1.host.mounts == n.host.mounts + [Mount(staging, dev)];
      UnmountLast(n.host.mounts, Mount(staging, dev));
    }
  }

  /** What a warm teardown that is not refused does to the mounts, the maps and the record. */
  lemma WarmTeardown(c: Config, n: Node, volumeID: string, m: StageMeta, staging: string, u: Answers)
    requires volumeID in n.meta && n.meta[volumeID] == m && u.unmounts && u.flushes && !InUse(n.host, staging, m.wwid)
    ensures var n' := UnstageDo(c, n, volumeID, staging, u).0;
            && n'.meta == n.meta - {volumeID} && n'.host.mounts == UnmountDo(n.host.mounts, staging)
            && n'.host.maps == if c.useMultipath && m.wwid != "" then n.host.maps - {m.wwid} else n.host.maps
  {
    hide InUse, UnmountDo, LastLun, LogoutAll, Normals, Elems;
  }

  lemma {:induction false} LoggedRow(ss: seq<Session>, ps: seq<string>, iqn: string, a: StageAnswers, s: Session)
    requires s in LoggedIn(ss, ps, iqn, a) && s !in ss
    ensures exists p :: (p, iqn) in a.fabric && s in a.fabric[(p, iqn)]
  {
    if ps != [] {
      if s in LoggedIn(ss, ps[..|ps| - 1], iqn, a) {
        LoggedRow(ss, ps[..|ps| - 1], iqn, a, s);
      }
    }
  }

  /** A restart between a stage and its unstage makes no difference to what is detached, when the
      mount is named by its mapper path. */
  lemma RestartBetweenStageAndUnstage(c: Config, n: Node, volumeID: string, staging: string, ctx: VolumeContext,
                                      a: StageAnswers, u: Answers)
    requires GetsDevice(c, n, volumeID, ctx, a)
    requires var n1 := StageDo(c, n, volumeID, staging, ctx, false, a).0;
             && volumeID in n1.meta && Mapped(n1.host, n1.meta[volumeID])
             && u.source == Some(MAPPER + n1.meta[volumeID].wwid) && u.mountTierLists && u.pathsAnswer
    ensures var n1 := StageDo(c, n, volumeID, staging, ctx, false, a).0;
            var warm := UnstageDo(c, n1, volumeID, staging, u);
            var cold := UnstageDo(c, Node(map[], n1.host), volumeID, staging, u);
            cold.1 == warm.1 && cold.0.host == warm.0.host
  {
    hide AttachIdentity, GetsDevice, StageDo, Attached, Mapped, FromMount, FromSan, InUse, UnmountDo, Detached;
    var n1 := StageDo(c, n, volumeID, staging, ctx, false, a).0;
    StageAttaches(c, n, volumeID, staging, ctx, false, a);
    RestartDetachesTheSame(c, Node(map[], n1.host), volumeID, n1.meta[volumeID], staging, u);
  }

  // ----- A premature unstage -----

  /** NodeUnpublishVolume: the bind mount goes. */
  function UnpublishDo(n: Node, target: string): Node
  {
    n.(host := n.host.(mounts := UnmountDo(n.host.mounts, target)))
  }

  /** Whatever uses the volume beside its staging mount is the mount at `target`. */
  ghost predicate UsedOnlyAt(h: Host, staging: string, wwid: string, target: string)
  {
    && (wwid != "" ==> MAPPER + wwid !in h.held)
    && forall i :: 0 <= i < |h.mounts| && h.mounts[i].target != staging
                   && (h.mounts[i].source == staging || (wwid != "" && h.mounts[i].source == MAPPER + wwid)) ==>
         h.mounts[i].target == target
  }

  lemma {:induction false} UnmountLeaves(ms: seq<Mount>, target: string, m: Mount)
    ensures m in UnmountDo(ms, target) <==> m in ms && m.target != target
  {
    if ms != [] {
      UnmountLeaves(ms[1..], target, m);
      assert ms == [ms[0]] + ms[1..];
    }
  }

  lemma UnpublishFrees(h: Host, staging: string, wwid: string, target: string)
    requires UsedOnlyAt(h, staging, wwid, target)
    ensures !InUse(h.(mounts := UnmountDo(h.mounts, target)), staging, wwid)
  {
    var ms := UnmountDo(h.mounts, target);
    forall i | 0 <= i < |ms|
      ensures !(ms[i].target != staging && (ms[i].source == staging || (wwid != "" && ms[i].source == MAPPER + wwid)))
    {
      UnmountLeaves(h.mounts, target, ms[i]);
    }
  }

  /** The sequence the in-use guard is there for: an unstage that comes too early is refused, the
      volume is unpublished, perhaps the plugin restarts, and the retry then finishes the teardown:
      no session of the target is left, all others stay, and the staging mount is gone. */
  lemma RetryAfterUnpublishFinishes(c: Config, n: Node, volumeID: string, m: StageMeta, staging: string, target: string,
                                    early: Answers, restarted: bool, a: Answers)
    requires volumeID in n.meta && n.meta[volumeID] == m && Attached(c, n.host, m)
    requires UnstageDo(c, n, volumeID, staging, early).1 == Err(CodeFailedPrecondition)
    requires UsedOnlyAt(n.host, staging, m.wwid, target) && OnlyLun(n.host.sessions, m.iqn, m.lun)
    requires a.mountsList && a.unmounts && a.flushes && a.refcountLists && a.stuck == {}
    requires restarted ==> Mapped(n.host, m) && a.source == Some(MAPPER + m.wwid) && a.mountTierLists && a.pathsAnswer
    ensures var refused := UnstageDo(c, n, volumeID, staging, early).0;
            var idle := UnpublishDo(refused, target);
            var (n', r) := UnstageDo(c, if restarted then Node(map[], idle.host) else idle, volumeID, staging, a);
            && r.Ok?
            && (forall s :: s in n'.host.sessions <==> s in n.host.sessions && s.iqn != m.iqn)
            && (forall x :: x in n'.host.mounts <==> x in n.host.mounts && x.target != staging && x.target != target)
  {
    hide UnstageDo, InUse, Attached, Mapped, UnmountDo, NormalizePortal;
    PrematureUnstageChangesNothing(c, n, volumeID, staging, early);
    var idle := UnpublishDo(n, target);
    UnpublishFrees(n.host, staging, m.wwid, target);
    AttachedAlike(c, n.host, idle.host, m);
    TeardownLeavesNothing(c, idle, volumeID, m, staging, a);
    WarmTeardown(c, idle, volumeID, m, staging, a);
    forall x
      ensures x in UnmountDo(UnmountDo(n.host.mounts, target), staging) <==>
              x in n.host.mounts && x.target != staging && x.target != target
    {
      UnmountLeaves(n.host.mounts, target, x);
      UnmountLeaves(UnmountDo(n.host.mounts, target), staging, x);
    }
    if restarted {
      RestartDetachesTheSame(c, Node(map[], idle.host), volumeID, m, staging, a);
      WarmAlike(c, idle, volumeID, m, staging, a);
    }
  }

  lemma AttachedAlike(c: Config, h: Host, h': Host, m: StageMeta)
    requires h' == h.(mounts := h'.mounts)
    ensures Attached(c, h', m) == Attached(c, h, m) && Mapped(h', m) == Mapped(h, m)
  {
    hide NormalizePortal, PortalOwned, BaseName, PathRows, MembersOf;
  }

  /** What else the node remembers makes no difference to the host. */
  lemma WarmAlike(c: Config, n: Node, volumeID: string, m: StageMeta, staging: string, a: Answers)
    requires volumeID in n.meta && n.meta[volumeID] == m
    ensures var o := Node(map[volumeID := m], n.host);
            && UnstageDo(c, o, volumeID, staging, a).1 == UnstageDo(c, n, volumeID, staging, a).1
            && UnstageDo(c, o, volumeID, staging, a).0.host == UnstageDo(c, n, volumeID, staging, a).0.host
  {
    hide InUse, UnmountDo, Detached;
  }

  // ----- Whole runs -----

  datatype Event =
    | Unstage(volumeID: string, staging: string, answers: Answers)
    | Stage(volumeID: string, staging: string, ctx: VolumeContext, block: bool, stage: StageAnswers)
    | Unpublish(target: string)
    | Restart

  ghost function Apply(c: Config, n: Node, ev: Event): Node
  {
    match ev
    case Unstage(v, staging, a) => UnstageDo(c, n, v, staging, a).0
    case Stage(v, staging, ctx, block, a) => StageDo(c, n, v, staging, ctx, block, a).0
    case Unpublish(target) => UnpublishDo(n, target)
    case Restart => n.(meta := map[])
  }

  /** Before the call: an unstage that cannot take LUN `lun` of target `iqn` for its own. If the volume
      is on record, the record is of another LUN or target. If not, no session behind its mount is
      of this LUN, and either the SAN gives another target or another LUN of this one is attached
      too. A LUN sharing the target is safe only while sessions can be counted. */
  ghost predicate UnstageSpares(c: Config, n: Node, v: string, a: Answers, iqn: string, lun: int)
  {
    if v in n.meta then n.meta[v].iqn != iqn || (a.refcountLists && n.meta[v].lun != lun)
    else
      && (a.source.Some? && a.mountTierLists ==>
            forall o :: o in n.host.sessions && OnDevices(c, MemberNames(n.host, a, a.source.value))(o) ==>
              o.iqn != iqn || (a.refcountLists && o.lun != lun))
      && (SanIqn(a, v) == Some(iqn) ==>
            a.refcountLists && exists o :: o in n.host.sessions && o.iqn == iqn && o.lun != lun)
  }

  ghost predicate LeavesAlone(c: Config, n: Node, ev: Event, s: Session)
  {
    match ev
    case Unstage(v, _, a) => UnstageSpares(c, n, v, a, s.iqn, s.lun)
    case Stage(v, _, ctx, _, a) =>
      var cut := CleansUp(c, v, ctx, a);
      !(cut.Some? && cut.value.0 == s.iqn && NormalizePortal(s.portal) in cut.value.1)
    case Unpublish(_) => true
    case Restart => true
  }

  ghost function Run(c: Config, n: Node, evs: seq<Event>): Node
    decreases |evs|
  {
    if evs == [] then n else Run(c, Apply(c, n, evs[0]), evs[1..])
  }

  ghost predicate RunLeavesAlone(c: Config, n: Node, evs: seq<Event>, s: Session)
    decreases |evs|
  {
    evs != [] ==> LeavesAlone(c, n, evs[0], s) && RunLeavesAlone(c, Apply(c, n, evs[0]), evs[1..], s)
  }

  lemma UnstageStepSpares(c: Config, n: Node, v: string, staging: string, a: Answers, s: Session)
    requires s in n.host.sessions && UnstageSpares(c, n, v, a, s.iqn, s.lun)
    ensures s in UnstageDo(c, n, v, staging, a).0.host.sessions
  {
    hide UnstageDo, NormalizePortal, Normals, InUse, LastMatch, PathRows, WwidOf, PortalOwned, BaseName, SanIqn,
         MemberNames;
    UnstageEndsExactly(c, n, v, staging, a, s);
    var h := n.host;
    if v !in n.meta {
      if a.source.Some? && a.mountTierLists {
        LastMatchIs(h.sessions, OnDevices(c, MemberNames(h, a, a.source.value)));
      }
      if SanIqn(a, v).Some? {
        LastMatchIs(h.sessions, OnTarget(c, SanIqn(a, v).value));
      }
    }
  }

  lemma StepKeepsAttached(c: Config, n: Node, ev: Event, s: Session)
    requires s in n.host.sessions && LeavesAlone(c, n, ev, s)
    ensures s in Apply(c, n, ev).host.sessions
  {
    hide UnstageDo, StageDo, NormalizePortal, CleansUp, UnstageSpares;
    match ev
    case Unstage(v, staging, a) => UnstageStepSpares(c, n, v, staging, a, s);
    case Stage(v, staging, ctx, block, a) => StageKeepsExactly(c, n, v, staging, ctx, block, a, s);
    case Unpublish(_) =>
    case Restart =>
  }

  /** Over every run of stages, unstages, unpublishes and plugin restarts, in any order and whatever
      fails, an attached LUN keeps a session it has, as long as no unstage can take that LUN for
      its own and no failed stage cleans up on the session's target and portal. */
  lemma {:induction false} AttachedLunStaysAttached(c: Config, n: Node, evs: seq<Event>, s: Session)
    requires s in n.host.sessions && RunLeavesAlone(c, n, evs, s)
    ensures s in Run(c, n, evs).host.sessions
    decreases |evs|
  {
    hide LeavesAlone, Apply;
    if evs != [] {
      StepKeepsAttached(c, n, evs[0], s);
      AttachedLunStaysAttached(c, Apply(c, n, evs[0]), evs[1..], s);
    }
  }

  ghost function StateAt(c: Config, n: Node, evs: seq<Event>, k: nat): Node
    requires k <= |evs|
  {
    if k == 0 then n else Apply(c, StateAt(c, n, evs, k - 1), evs[k - 1])
  }

  /** Before the step: it ends session `s`. An unstage does by what record, mount or SAN make it take
      the volume for; a stage does by its clean-up. */
  ghost predicate Ends(c: Config, n: Node, ev: Event, s: Session)
  {
    match ev
    case Unstage(v, staging, a) =>
      Resolved(c, n, v, a).Some? && EndsBy(n.host, staging, a, Resolved(c, n, v, a).value, s)
    case Stage(v, _, ctx, _, a) =>
      var cut := CleansUp(c, v, ctx, a);
      cut.Some? && s.iqn == cut.value.0 && NormalizePortal(s.portal) in cut.value.1
    case Unpublish(_) => false
    case Restart => false
  }

  lemma StepEndsExactly(c: Config, n: Node, ev: Event, s: Session)
    requires s in n.host.sessions
    ensures s in Apply(c, n, ev).host.sessions <==> !Ends(c, n, ev, s)
  {
    hide UnstageDo, StageDo, NormalizePortal, CleansUp, Resolved, EndsBy;
    match ev
    case Unstage(v, staging, a) => UnstageEndsExactly(c, n, v, staging, a, s);
    case Stage(v, staging, ctx, block, a) => StageKeepsExactly(c, n, v, staging, ctx, block, a, s);
    case Unpublish(_) =>
    case Restart =>
  }

  lemma {:induction false} NeverEndedStays(c: Config, n: Node, evs: seq<Event>, k: nat, s: Session)
    requires s in n.host.sessions && k <= |evs|
    requires forall i :: 0 <= i < k ==> !Ends(c, StateAt(c, n, evs, i), evs[i], s)
    ensures s in StateAt(c, n, evs, k).host.sessions
  {
    hide Apply, Ends;
    if k > 0 {
      NeverEndedStays(c, n, evs, k - 1, s);
      StepEndsExactly(c, StateAt(c, n, evs, k - 1), evs[k - 1], s);
    }
  }

  lemma KeptIsNotEnded(c: Config, n: Node, evs: seq<Event>, i: nat, s: Session)
    requires i < |evs| && s in StateAt(c, n, evs, i).host.sessions && s in StateAt(c, n, evs, i + 1).host.sessions
    ensures !Ends(c, StateAt(c, n, evs, i), evs[i], s)
  {
    hide Apply, Ends;
    StepEndsExactly(c, StateAt(c, n, evs, i), evs[i], s);
  }

  ghost predicate Throughout(c: Config, n: Node, evs: seq<Event>, s: Session)
  {
    forall k :: 0 <= k <= |evs| ==> s in StateAt(c, n, evs, k).host.sessions
  }

  ghost predicate NeverEnded(c: Config, n: Node, evs: seq<Event>, s: Session)
  {
    forall i :: 0 <= i < |evs| ==> !Ends(c, StateAt(c, n, evs, i), evs[i], s)
  }

  /** Over every run of stages, unstages, unpublishes and restarts, whatever fails: a session that is
      there at the start is there throughout if and only if no step of the run ends it, each judged
      on the state before it. */
  lemma AttachedThroughoutExactly(c: Config, n: Node, evs: seq<Event>, s: Session)
    requires s in n.host.sessions
    ensures Throughout(c, n, evs, s) <==> NeverEnded(c, n, evs, s)
  {
    hide StateAt, Ends;
    if NeverEnded(c, n, evs, s) {
      forall k | 0 <= k <= |evs|
        ensures s in StateAt(c, n, evs, k).host.sessions
      {
        NeverEndedStays(c, n, evs, k, s);
      }
    }
    if Throughout(c, n, evs, s) {
      forall i | 0 <= i < |evs|
        ensures !Ends(c, StateAt(c, n, evs, i), evs[i], s)
      {
        assert s in StateAt(c, n, evs, i + 1).host.sessions;
        KeptIsNotEnded(c, n, evs, i, s);
      }
    }
  }
}
