/** The qnap session-leak guard: one sweep in code, and what it does over any sequence of sweeps. */
module SessionReconciler {
  import opened Base
  import opened Portals
  import opened IscsiSessions
  import opened Mounts

  /** What one sweep sees of the host. A listing that fails is None; `wwid` maps a path device to
      its multipath map and `resolve` a path to where its symlinks lead, where those lookups succeed. */
  datatype Host = Host(now: int, sessions: Option<seq<Session>>, mounts: Option<seq<Mount>>,
                       cached: set<string>, wwid: map<string, string>, resolve: map<string, string>)

  datatype Config = Config(ours: set<string>, useMultipath: bool, grace: int)

  datatype TargetState = TargetState(portals: set<string>, live: bool)

  predicate Completed(h: Host)
  {
    h.sessions.Some? && h.mounts.Some?
  }

  function Sources(mounts: seq<Mount>): set<string>
  {
    set i | 0 <= i < |mounts| :: mounts[i].source
  }

  predicate MountedAs(h: Host, mounted: set<string>, cand: string)
  {
    cand in mounted || (cand in h.resolve && h.resolve[cand] in mounted)
  }

  /** deviceMounted: the path device itself, or its multipath mapper device, as named or resolved. */
  predicate DeviceMounted(c: Config, h: Host, device: string, mounted: set<string>)
  {
    && device != ""
    && (|| MountedAs(h, mounted, device)
        || (c.useMultipath && device in h.wwid && h.wwid[device] != ""
            && MountedAs(h, mounted, "/dev/mapper/" + h.wwid[device])))
  }

  predicate SessionLive(c: Config, h: Host, s: Session)
    requires h.mounts.Some?
  {
    s.iqn in h.cached || DeviceMounted(c, h, s.device, Sources(h.mounts.value))
  }

  /** Some session of this plugin reaches target `iqn`. */
  predicate Present(c: Config, h: Host, iqn: string)
  {
    h.sessions.Some? && exists s :: s in h.sessions.value && PortalOwned(s.portal, c.ours) && s.iqn == iqn
  }

  predicate Live(c: Config, h: Host, iqn: string)
    requires h.mounts.Some?
  {
    h.sessions.Some? && exists s :: s in h.sessions.value && PortalOwned(s.portal, c.ours) && s.iqn == iqn
                                    && SessionLive(c, h, s)
  }

  /** Seen by a completed sweep, with no mount and no cached stage behind any of its sessions. */
  predicate Orphan(c: Config, h: Host, iqn: string)
  {
    Completed(h) && Present(c, h, iqn) && !Live(c, h, iqn)
  }

  function PortalsOf(c: Config, h: Host, iqn: string): set<string>
    requires h.sessions.Some?
  {
    set s | s in h.sessions.value && PortalOwned(s.portal, c.ours) && s.iqn == iqn :: NormalizePortal(s.portal)
  }

  /** A logout is attempted on an orphan first sighted in an earlier sweep at least `grace` ago. */
  predicate Attempts(c: Config, timers: map<string, int>, h: Host, iqn: string)
  {
    Orphan(c, h, iqn) && iqn in timers && h.now - timers[iqn] >= c.grace
  }

  predicate Holds(c: Config, timers: map<string, int>, h: Host, iqn: string)
  {
    Orphan(c, h, iqn) && !Attempts(c, timers, h, iqn)
  }

  ghost function Iqns(h: Host): set<string>
    requires h.sessions.Some?
  {
    set s | s in h.sessions.value :: s.iqn
  }

  /** The timers after a sweep: kept or started for held orphans, forgotten for everything else. */
  ghost function TimersAfter(c: Config, timers: map<string, int>, h: Host): map<string, int>
  {
    if !Completed(h) then timers
    else map iqn | iqn in Iqns(h) && Holds(c, timers, h, iqn) :: if iqn in timers then timers[iqn] else h.now
  }

  /** A sweep logs target `iqn` out of portal `p`. */
  ghost predicate LogsOut(c: Config, timers: map<string, int>, h: Host, p: string, iqn: string)
  {
    Attempts(c, timers, h, iqn) && p in PortalsOf(c, h, iqn)
  }

  class Reconciler {
    const c: Config
    var orphanSince: map<string, int>

    constructor (c: Config)
      ensures this.c == c && orphanSince == map[]
    {
      this.c := c;
      orphanSince := map[];
    }

    /** Groups this plugin's sessions by target. */
    method Group(h: Host, sessions: seq<Session>, mounts: seq<Mount>) returns (targets: map<string, TargetState>)
      requires h.sessions == Some(sessions) && h.mounts == Some(mounts)
      ensures forall iqn :: iqn in targets <==> Present(c, h, iqn)
      ensures forall iqn :: iqn in targets ==> targets[iqn] == TargetState(PortalsOf(c, h, iqn), Live(c, h, iqn))
    {
      hide NormalizePortal, DeviceMounted;
      targets := map[];
      var mounted := Sources(mounts);
      for n := 0 to |sessions|
        invariant forall iqn :: iqn in targets <==>
            exists s :: s in sessions[..n] && PortalOwned(s.portal, c.ours) && s.iqn == iqn
        invariant forall iqn :: iqn in targets ==>
                    && targets[iqn].portals
                       == (set s | s in sessions[..n] && PortalOwned(s.portal, c.ours) && s.iqn == iqn ::
                             NormalizePortal(s.portal))
                    && (targets[iqn].live <==> exists s :: s in sessions[..n] && PortalOwned(s.portal, c.ours)
                                                           && s.iqn == iqn && SessionLive(c, h, s))
      {
        var s := sessions[n];
        assert sessions[..n + 1] == sessions[..n] + [s];
        if !PortalOwned(s.portal, c.ours) {
          continue;
        }
        var t := if s.iqn in targets then targets[s.iqn] else TargetState({}, false);
        t := t.(portals := t.portals + {NormalizePortal(s.portal)});
        if s.iqn in h.cached {
          t := t.(live := true);
        }
        if DeviceMounted(c, h, s.device, mounted) {
          t := t.(live := true);
        }
        targets := targets[s.iqn := t];
      }
      assert sessions[..|sessions|] == sessions;
    }

    ghost predicate Due(timers: map<string, int>, targets: map<string, TargetState>, now: int, iqn: string)
    {
      iqn in targets && !targets[iqn].live && iqn in timers && now - timers[iqn] >= c.grace
    }

    /** Starts, keeps, drops or acts on the timer of every target, then forgets vanished ones. */
    method Act(targets: map<string, TargetState>, now: int) returns (logouts: set<(string, string)>)
      modifies this
      ensures orphanSince == map iqn | iqn in targets && !targets[iqn].live
          && !Due(old(orphanSince), targets, now, iqn) ::
                               if iqn in old(orphanSince) then old(orphanSince)[iqn] else now
      ensures forall p, iqn :: (p, iqn) in logouts <==>
          Due(old(orphanSince), targets, now, iqn) && p in targets[iqn].portals
    {
      logouts := {};
      var todo := targets.Keys;
      while todo != {}
        invariant todo <= targets.Keys
        invariant forall iqn :: iqn in targets && iqn !in todo ==>
                    (iqn in orphanSince <==> !targets[iqn].live && !Due(old(orphanSince), targets, now, iqn))
        invariant forall iqn :: iqn in targets && iqn !in todo && iqn in orphanSince ==>
                    orphanSince[iqn] == if iqn in old(orphanSince) then old(orphanSince)[iqn] else now
        invariant forall iqn :: iqn in todo ==>
                    && (iqn in orphanSince <==> iqn in old(orphanSince))
                    && (iqn in orphanSince ==> orphanSince[iqn] == old(orphanSince)[iqn])
        invariant forall p, iqn :: (p, iqn) in logouts <==>
                    iqn !in todo && Due(old(orphanSince), targets, now, iqn) && p in targets[iqn].portals
        decreases todo
      {
        var iqn :| iqn in todo;
        todo := todo - {iqn};
        var t := targets[iqn];
        if t.live {
          orphanSince := orphanSince - {iqn};
        } else if iqn !in orphanSince {
          orphanSince := orphanSince[iqn := now];
        } else if now - orphanSince[iqn] >= c.grace {
          logouts := logouts + set p | p in t.portals :: (p, iqn);
          orphanSince := orphanSince - {iqn};
        }
      }
      orphanSince := map iqn | iqn in orphanSince && iqn in targets :: orphanSince[iqn];
    }

    method Sweep(h: Host) returns (logouts: set<(string, string)>)
      modifies this
      ensures orphanSince == TimersAfter(c, old(orphanSince), h)
      ensures forall p, iqn :: (p, iqn) in logouts <==> LogsOut(c, old(orphanSince), h, p, iqn)
    {
      logouts := {};
      if h.sessions.None? || h.mounts.None? {
        return;
      }
      var targets := Group(h, h.sessions.value, h.mounts.value);
      logouts := Act(targets, h.now);
      hide PortalOwned, NormalizePortal, SessionLive, PortalsOf;
      assert forall iqn :: iqn in targets ==> iqn in Iqns(h);
      assert forall iqn :: Due(old(orphanSince), targets, h.now, iqn) <==> Attempts(c, old(orphanSince), h, iqn);
    }
  }
}
