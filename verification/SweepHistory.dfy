/** Whole runs of the qnap session reconciler. */
module SweepHistory {
  import opened Base
  import opened Portals
  import opened SessionReconciler

  /** The orphan timers after the first `n` sweeps of a run. */
  ghost function TimersAt(c: Config, hs: seq<Host>, n: nat): map<string, int>
    requires n <= |hs|
  {
    if n == 0 then map[] else TimersAfter(c, TimersAt(c, hs, n - 1), hs[n - 1])
  }

  /** Sweep `n` of the run tries to log target `iqn` out. */
  ghost predicate Attempted(c: Config, hs: seq<Host>, n: nat, iqn: string)
    requires n < |hs|
  {
    Attempts(c, TimersAt(c, hs, n), hs[n], iqn)
  }

  /** The last completed sweep before sweep `n`. */
  ghost function Before(hs: seq<Host>, n: nat): (r: Option<nat>)
    requires n <= |hs|
    ensures r.Some? ==> r.value < n && Completed(hs[r.value])
    ensures forall i :: (if r.Some? then r.value + 1 else 0) <= i < n ==> !Completed(hs[i])
  {
    if n == 0 then None else if Completed(hs[n - 1]) then Some(n - 1) else Before(hs, n - 1)
  }

  /** No streak of orphan sightings is open before sweep `n`: the sweep before it did not see the
      target as an orphan, or tried to log it out, or there was none. */
  ghost predicate Clear(c: Config, hs: seq<Host>, n: nat, iqn: string)
    requires n <= |hs|
  {
    var b := Before(hs, n);
    b.Some? ==> !Orphan(c, hs[b.value], iqn) || Attempted(c, hs, b.value, iqn)
  }

  /** Sweep `m` was the first orphan sighting since the target was last seen otherwise or last
      attempted, and every completed sweep since then, before `n`, saw it as an orphan and let it be. */
  ghost predicate FirstSighting(c: Config, hs: seq<Host>, m: nat, n: nat, iqn: string)
    requires n <= |hs|
  {
    && m < n
    && Orphan(c, hs[m], iqn)
    && Clear(c, hs, m, iqn)
    && forall i :: m <= i < n && Completed(hs[i]) ==> Orphan(c, hs[i], iqn) && !Attempted(c, hs, i, iqn)
  }

  /** A timer runs exactly while a streak is open, and shows the time of its first sighting. */
  lemma {:induction false} TimerIsFirstSighting(c: Config, hs: seq<Host>, n: nat, iqn: string) returns (m: nat)
    requires n <= |hs|
    ensures iqn !in TimersAt(c, hs, n) <==> Clear(c, hs, n, iqn)
    ensures iqn in TimersAt(c, hs, n) ==>
              FirstSighting(c, hs, m, n, iqn) && TimersAt(c, hs, n)[iqn] == hs[m].now
  {
    hide Orphan, PortalOwned;
    m := 0;
    if n > 0 {
      m := TimerIsFirstSighting(c, hs, n - 1, iqn);
      var h := hs[n - 1];
      if Completed(h) {
        OrphanListed(c, h, iqn);
        if iqn in TimersAt(c, hs, n) && iqn !in TimersAt(c, hs, n - 1) {
          m := n - 1;
        }
      }
    }
  }

  lemma OrphanListed(c: Config, h: Host, iqn: string)
    ensures Orphan(c, h, iqn) ==> Completed(h) && iqn in Iqns(h)
  {
  }

  lemma SightingIsUnique(c: Config, hs: seq<Host>, m: nat, m': nat, n: nat, iqn: string)
    requires n <= |hs| && FirstSighting(c, hs, m, n, iqn) && FirstSighting(c, hs, m', n, iqn)
    ensures m == m'
  {
    hide Orphan, Attempted;
    OrphanListed(c, hs[m], iqn);
    OrphanListed(c, hs[m'], iqn);
  }

  /** Over every sequence of sweeps, a target gets a logout attempt exactly when it is present and
      not live now, has been so in every completed sweep since its first sighting after it was last
      seen otherwise or last attempted, and that sighting was in an earlier sweep at least `grace` ago. */
  lemma AttemptedExactlyWhenLeaked(c: Config, hs: seq<Host>, n: nat, iqn: string)
    requires n < |hs|
    ensures Attempted(c, hs, n, iqn) <==>
              Orphan(c, hs[n], iqn) && exists m: nat :: FirstSighting(c, hs, m, n, iqn)
                                                        && hs[n].now - hs[m].now >= c.grace
  {
    hide Orphan;
    var first := TimerIsFirstSighting(c, hs, n, iqn);
    forall m: nat | FirstSighting(c, hs, m, n, iqn)
      ensures iqn in TimersAt(c, hs, n) && m == first
    {
      OrphanListed(c, hs[m], iqn);
      SightingIsUnique(c, hs, m, first, n, iqn);
    }
  }

  /** A sweep that could not list sessions or mounts attempts nothing and keeps every timer. */
  lemma FailedSweepChangesNothing(c: Config, hs: seq<Host>, n: nat, iqn: string)
    requires n < |hs| && !Completed(hs[n])
    ensures !Attempted(c, hs, n, iqn) && TimersAt(c, hs, n + 1) == TimersAt(c, hs, n)
  {
  }

  /** Logouts go only to portals counted as this plugin's, each of them a portal some session of
      that very target uses; no session of the target is mounted or cached. */
  lemma LogoutsStayOurs(c: Config, hs: seq<Host>, n: nat, p: string, iqn: string)
    requires n < |hs| && LogsOut(c, TimersAt(c, hs, n), hs[n], p, iqn)
    ensures hs[n].sessions.Some? && hs[n].mounts.Some?
    ensures c.ours != {} ==> p in c.ours
    ensures exists s :: s in hs[n].sessions.value && s.iqn == iqn && NormalizePortal(s.portal) == p
    ensures forall s :: s in hs[n].sessions.value && s.iqn == iqn && PortalOwned(s.portal, c.ours) ==>
              iqn !in hs[n].cached && !SessionLive(c, hs[n], s)
  {
    hide NormalizePortal, DeviceMounted;
  }
}
