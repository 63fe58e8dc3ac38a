/**
  NodeUnstageVolume of the qnap backend: finding what to detach (cached at stage, rebuilt from the
  staging mount, or rebuilt from the SAN), the in-use guard, and the logout of the target.
*/
module Teardown {
  import opened Base
  import opened Text
  import opened Driver
  import opened Portals
  import opened IscsiSessions
  import opened Mounts
  import opened QnapId
  import opened QnapIdentity
  import opened StringOrder

  // ----- Device names and multipath -----

  function StripSlashes(p: string): string
  {
    if p != [] && p[|p| - 1] == '/' then StripSlashes(p[..|p| - 1]) else p
  }

  /** filepath.Base. */
  function BaseName(p: string): string
  {
    var q := StripSlashes(p);
    if p == "" then "." else if q == "" then "/" else q[LastIndex(q, '/') + 1..]
  }

  const MAPPER := "/dev/mapper/"

  function AllFields(lines: seq<string>): seq<seq<string>>
  {
    if lines == [] then [] else [Fields(lines[0])] + AllFields(lines[1..])
  }

  /** The rows of `multipathd show paths format "%d %w"`: a path device and the WWID of its map. */
  function PathRows(out: string): seq<seq<string>>
  {
    AllFields(Split(TrimSpace(out), '\n'))
  }

  function WwidOf(rows: seq<seq<string>>, base: string): string
  {
    if rows == [] then ""
    else if |rows[0]| >= 2 && rows[0][0] == base then rows[0][1]
    else WwidOf(rows[1..], base)
  }

  function MembersOf(rows: seq<seq<string>>, wwid: string): seq<string>
  {
    if rows == [] then []
    else if |rows[0]| >= 2 && rows[0][1] == wwid then [rows[0][0]] + MembersOf(rows[1..], wwid)
    else MembersOf(rows[1..], wwid)
  }

  lemma {:induction false} AllFieldsAt(lines: seq<string>, n: nat)
    requires n <= |lines|
    ensures |AllFields(lines)| == |lines|
    ensures n < |lines| ==> AllFields(lines)[n] == Fields(lines[n])
  {
    if n > 0 {
      AllFieldsAt(lines[1..], n - 1);
    } else if lines != [] {
      AllFieldsAt(lines[1..], 0);
    }
  }

  method MapWWID(out: string, device: string) returns (wwid: string)
    ensures wwid == WwidOf(PathRows(out), BaseName(device))
  {
    hide TrimSpace, Split, Fields, BaseName, AllFields;
    var base := BaseName(device);
    var lines := Split(TrimSpace(out), '\n');
    ghost var rows := PathRows(out);
    AllFieldsAt(lines, 0);
    for n := 0 to |lines|
      invariant WwidOf(rows, base) == WwidOf(rows[n..], base)
    {
      AllFieldsAt(lines, n);
      var f := Fields(lines[n]);
      if |f| >= 2 && f[0] == base {
        return f[1];
      }
      assert rows[n..][1..] == rows[n + 1..];
    }
    wwid := "";
  }

  method Members(out: string, wwid: string) returns (devs: seq<string>)
    ensures devs == MembersOf(PathRows(out), wwid)
  {
    hide TrimSpace, Split, Fields, AllFields;
    var lines := Split(TrimSpace(out), '\n');
    ghost var rows := PathRows(out);
    AllFieldsAt(lines, 0);
    devs := [];
    for n := 0 to |lines|
      invariant MembersOf(rows, wwid) == devs + MembersOf(rows[n..], wwid)
    {
      AllFieldsAt(lines, n);
      var f := Fields(lines[n]);
      assert rows[n..][1..] == rows[n + 1..];
      if |f| >= 2 && f[1] == wwid {
        devs := devs + [f[0]];
      }
    }
  }

  // ----- State and answers -----

  /** What a stage records for the matching unstage. */
  datatype StageMeta = StageMeta(portals: seq<string>, iqn: string, lun: int, wwid: string)

  /** What a teardown acts on. */
  datatype Id = Id(iqn: string, lun: int, wwid: string, portals: set<string>)

  datatype Host = Host(sessions: seq<Session>, mounts: seq<Mount>, paths: string, held: set<string>, maps: set<string>)

  datatype Node = Node(meta: map<string, StageMeta>, host: Host)

  datatype Config = Config(ours: set<string>, useMultipath: bool)

  /** How the commands of one unstage answer: the source device findmnt names, whether each listing
      works, the SAN's identity maps, and the portals whose logout fails. */
  datatype Answers = Answers(source: Option<string>, mountTierLists: bool, pathsAnswer: bool, san: Option<Identity>,
                             sanTierLists: bool, mountsList: bool, unmounts: bool, flushes: bool, refcountLists: bool,
                             stuck: set<string>)

  function Elems(ps: seq<string>): set<string>
  {
    set p | p in ps
  }

  function MetaId(m: StageMeta): Id
  {
    Id(m.iqn, m.lun, m.wwid, Elems(m.portals))
  }

  function Normals(portals: set<string>): set<string>
  {
    set p | p in portals :: NormalizePortal(p)
  }

  // ----- Finding the identity -----

  function LastMatch(ss: seq<Session>, p: Session -> bool): Option<Session>
  {
    if ss == [] then None
    else if p(ss[|ss| - 1]) then Some(ss[|ss| - 1])
    else LastMatch(ss[..|ss| - 1], p)
  }

  function MatchPortals(ss: seq<Session>, p: Session -> bool): set<string>
  {
    set s | s in ss && p(s) :: NormalizePortal(s.portal)
  }

  function OnDevices(c: Config, members: set<string>): Session -> bool
  {
    (s: Session) => BaseName(s.device) in members && PortalOwned(s.portal, c.ours)
  }

  function OnTarget(c: Config, iqn: string): Session -> bool
  {
    (s: Session) => s.iqn == iqn && PortalOwned(s.portal, c.ours)
  }

  predicate IsMapper(source: string)
  {
    MAPPER <= source
  }

  /** The path devices behind a mount source, by bare name. */
  function MemberNames(h: Host, a: Answers, source: string): set<string>
  {
    if !IsMapper(source) then {BaseName(source)}
    else if !a.pathsAnswer then {}
    else set d | d in MembersOf(PathRows(h.paths), BaseName(source)) :: BaseName(d)
  }

  function FromMount(c: Config, h: Host, a: Answers): Option<Id>
  {
    if a.source.None? || !a.mountTierLists then None
    else
      var p := OnDevices(c, MemberNames(h, a, a.source.value));
      match LastMatch(h.sessions, p)
      case None => None
      case Some(s) =>
        if s.iqn == "" then None
        else
          var wwid := if IsMapper(a.source.value) then BaseName(a.source.value) else "";
          Some(Id(s.iqn, s.lun, wwid, MatchPortals(h.sessions, p)))
  }

  function SanIqn(a: Answers, volumeID: string): Option<string>
  {
    if a.san.None? || ParseExternalID(volumeID).Err? then None
    else IqnOf(a.san.value, ParseExternalID(volumeID).value)
  }

  function FromSan(c: Config, h: Host, a: Answers, volumeID: string): Option<Id>
  {
    var iqn := SanIqn(a, volumeID);
    if iqn.None? || !a.sanTierLists then None
    else
      match LastMatch(h.sessions, OnTarget(c, iqn.value))
      case None => None
      case Some(s) =>
        if s.lun < 0 then None
        else
          var known := c.useMultipath && s.device != "" && a.pathsAnswer;
          var wwid := if known then WwidOf(PathRows(h.paths), BaseName(s.device)) else "";
          Some(Id(iqn.value, s.lun, wwid, MatchPortals(h.sessions, OnTarget(c, iqn.value))))
  }

  function Resolved(c: Config, n: Node, volumeID: string, a: Answers): Option<Id>
  {
    if volumeID in n.meta then Some(MetaId(n.meta[volumeID]))
    else if FromMount(c, n.host, a).Some? then FromMount(c, n.host, a)
    else FromSan(c, n.host, a, volumeID)
  }

  // ----- Guards and effects -----

  /** Another mount, or a raw open, still uses the volume. */
  predicate InUse(h: Host, staging: string, wwid: string)
  {
    || (exists i :: 0 <= i < |h.mounts| && h.mounts[i].target != staging
                    && (h.mounts[i].source == staging || (wwid != "" && h.mounts[i].source == MAPPER + wwid)))
    || (wwid != "" && MAPPER + wwid in h.held)
  }

  function LunsOn(ss: seq<Session>, iqn: string): set<int>
  {
    set s | s in ss && s.iqn == iqn :: s.lun
  }

  /** lastLUNOnTarget; a listing that fails counts as yes. */
  predicate LastLun(ss: seq<Session>, lists: bool, iqn: string, lun: int)
  {
    !lists || LunsOn(ss, iqn) == {} || LunsOn(ss, iqn) == {lun}
  }

  /** `iscsiadm --logout`: the default port is understood. */
  function LogoutDo(ss: seq<Session>, portal: string, iqn: string): seq<Session>
  {
    if ss == [] then []
    else if ss[0].iqn == iqn && NormalizePortal(ss[0].portal) == NormalizePortal(portal) then
      LogoutDo(ss[1..], portal, iqn)
    else [ss[0]] + LogoutDo(ss[1..], portal, iqn)
  }

  /** The sessions left when `iqn` is logged out of every normalised portal in `gone`. */
  function LogoutAll(ss: seq<Session>, gone: set<string>, iqn: string): seq<Session>
  {
    if ss == [] then []
    else if ss[0].iqn == iqn && NormalizePortal(ss[0].portal) in gone then LogoutAll(ss[1..], gone, iqn)
    else [ss[0]] + LogoutAll(ss[1..], gone, iqn)
  }

  function UnmountDo(ms: seq<Mount>, target: string): seq<Mount>
  {
    if ms == [] then []
    else if ms[0].target == target then UnmountDo(ms[1..], target)
    else [ms[0]] + UnmountDo(ms[1..], target)
  }

  /** Flush the map, then log the target out if this is its last LUN here. */
  function Detached(c: Config, h: Host, id: Id, a: Answers): Host
  {
    var h1 := if c.useMultipath && id.wwid != "" && a.flushes then h.(maps := h.maps - {id.wwid}) else h;
    if id.iqn != "" && LastLun(h.sessions, a.refcountLists, id.iqn, id.lun) then
      h1.(sessions := LogoutAll(h1.sessions, Normals(id.portals - a.stuck), id.iqn))
    else h1
  }

  function UnstageDo(c: Config, n: Node, volumeID: string, staging: string, a: Answers): (Node, Result<()>)
  {
    var id := Resolved(c, n, volumeID, a);
    if id.Some? && a.mountsList && InUse(n.host, staging, id.value.wwid) then (n, Err(CodeFailedPrecondition))
    else if !a.unmounts then (n, Err(CodeInternal))
    else
      var h := n.host.(mounts := UnmountDo(n.host.mounts, staging));
      if id.None? then (n.(host := h), Ok(()))
      else (Node(n.meta - {volumeID}, Detached(c, h, id.value, a)), Ok(()))
  }

  // ----- The node in code -----

  lemma {:induction false} LogoutMore(ss: seq<Session>, gone: set<string>, p: string, iqn: string)
    ensures LogoutDo(LogoutAll(ss, gone, iqn), p, iqn) == LogoutAll(ss, gone + {NormalizePortal(p)}, iqn)
  {
    hide NormalizePortal;
    if ss != [] {
      LogoutMore(ss[1..], gone, p, iqn);
      var rest := LogoutAll(ss[1..], gone, iqn);
      assert ([ss[0]] + rest)[1..] == rest;
    }
  }

  lemma {:induction false} LogoutNone(ss: seq<Session>, iqn: string)
    ensures LogoutAll(ss, {}, iqn) == ss
  {
    hide NormalizePortal;
    if ss != [] {
      LogoutNone(ss[1..], iqn);
    }
  }

  class NodeService {
    const c: Config
    var meta: map<string, StageMeta>
    var host: Host

    constructor (c: Config, host: Host)
      ensures this.c == c && this.host == host && meta == map[]
    {
      this.c, this.host, this.meta := c, host, map[];
    }

    function State(): Node
      reads this
    {
      Node(meta, host)
    }

    /** The loop both tiers run over the session listing. */
    method ScanSessions(p: Session -> bool) returns (last: Option<Session>, portals: set<string>)
      ensures last == LastMatch(host.sessions, p) && portals == MatchPortals(host.sessions, p)
    {
      hide NormalizePortal;
      last, portals := None, {};
      for n := 0 to |host.sessions|
        invariant last == LastMatch(host.sessions[..n], p) && portals == MatchPortals(host.sessions[..n], p)
      {
        var s := host.sessions[n];
        assert host.sessions[..n + 1][..n] == host.sessions[..n];
        assert host.sessions[..n + 1] == host.sessions[..n] + [s];
        if !p(s) {
          continue;
        }
        last, portals := Some(s), portals + {NormalizePortal(s.portal)};
      }
      assert host.sessions[..|host.sessions|] == host.sessions;
    }

    method ReconstructFromMount(a: Answers) returns (r: Option<StageMeta>)
      ensures (if r.Some? then Some(MetaId(r.value)) else None) == FromMount(c, host, a)
      ensures r.Some? ==> Sorted(r.value.portals)
    {
      hide NormalizePortal, PortalOwned, BaseName, PathRows, MembersOf, LastMatch;
      if a.source.None? || !a.mountTierLists {
        return None;
      }
      var source := a.source.value;
      var wwid := "";
      var members: set<string> := {};
      if MAPPER <= source {
        wwid := BaseName(source);
        if a.pathsAnswer {
          var mem := Members(host.paths, wwid);
          for n := 0 to |mem|
            invariant members == set d | d in mem[..n] :: BaseName(d)
          {
            assert mem[..n + 1] == mem[..n] + [mem[n]];
            members := members + {BaseName(mem[n])};
          }
          assert mem[..|mem|] == mem;
        }
      } else {
        members := members + {BaseName(source)};
      }
      assert members == MemberNames(host, a, source);
      var last, portals := ScanSessions(OnDevices(c, members));
      if last.None? || last.value.iqn == "" {
        return None;
      }
      var sorted := SortedKeys(portals);
      assert Elems(sorted) == portals;
      r := Some(StageMeta(sorted, last.value.iqn, last.value.lun, wwid));
    }

    method ReconstructFromSAN(volumeID: string, a: Answers) returns (r: Option<StageMeta>)
      ensures (if r.Some? then Some(MetaId(r.value)) else None) == FromSan(c, host, a, volumeID)
      ensures r.Some? ==> Sorted(r.value.portals)
    {
      hide NormalizePortal, PortalOwned, BaseName, PathRows, WwidOf, LastMatch, ParseExternalID;
      if a.san.None? {
        return None;
      }
      var parsed := ParseExternalID(volumeID);
      if parsed.Err? {
        return None;
      }
      var iqn := IqnOf(a.san.value, parsed.value);
      if iqn.None? || !a.sanTierLists {
        return None;
      }
      var last, portals := ScanSessions(OnTarget(c, iqn.value));
      var lun, device := -1, "";
      if last.Some? {
        lun, device := last.value.lun, last.value.device;
      }
      if lun < 0 {
        return None;
      }
      var wwid := "";
      if c.useMultipath && device != "" && a.pathsAnswer {
        wwid := MapWWID(host.paths, device);
      }
      var sorted := SortedKeys(portals);
      assert Elems(sorted) == portals;
      r := Some(StageMeta(sorted, iqn.value, lun, wwid));
    }

    method ResolveTeardown(volumeID: string, a: Answers) returns (r: Option<StageMeta>)
      ensures (if r.Some? then Some(MetaId(r.value)) else None) == Resolved(c, State(), volumeID, a)
    {
      hide MetaId, FromMount, FromSan;
      if volumeID in meta {
        return Some(meta[volumeID]);
      }
      r := ReconstructFromMount(a);
      if r.None? {
        r := ReconstructFromSAN(volumeID, a);
      }
    }

    method DeviceInUse(staging: string, wwid: string) returns (inUse: bool)
      ensures inUse <==> InUse(host, staging, wwid)
    {
      var mapper := if wwid != "" then MAPPER + wwid else "";
      for n := 0 to |host.mounts|
        invariant forall i :: 0 <= i < n && host.mounts[i].target != staging ==>
                    host.mounts[i].source != staging && (wwid != "" ==> host.mounts[i].source != MAPPER + wwid)
      {
        var m := host.mounts[n];
        if m.target == staging {
          continue;
        }
        if m.source == staging {
          return true;
        }
        if mapper != "" && m.source == mapper {
          return true;
        }
      }
      return mapper != "" && mapper in host.held;
    }

    method LastLUNOnTarget(lists: bool, iqn: string, lun: int) returns (last: bool)
      ensures last <==> LastLun(host.sessions, lists, iqn, lun)
    {
      if !lists {
        return true;
      }
      var luns: set<int> := {};
      for n := 0 to |host.sessions|
        invariant luns == LunsOn(host.sessions[..n], iqn)
      {
        assert host.sessions[..n + 1] == host.sessions[..n] + [host.sessions[n]];
        if host.sessions[n].iqn == iqn {
          luns := luns + {host.sessions[n].lun};
        }
      }
      assert host.sessions[..|host.sessions|] == host.sessions;
      if |luns| == 0 {
        return true;
      }
      last := |luns| == 1 && lun in luns;
      OnlyOne(luns, lun);
    }

    method Logout(portals: seq<string>, iqn: string, stuck: set<string>)
      modifies this
      ensures meta == old(meta)
      ensures host == old(host).(sessions := LogoutAll(old(host.sessions), Normals(Elems(portals) - stuck), iqn))
    {
      hide NormalizePortal, LogoutDo, LogoutAll;
      LogoutNone(host.sessions, iqn);
      assert Normals(Elems(portals[..0]) - stuck) == {};
      for n := 0 to |portals|
        invariant meta == old(meta)
        invariant host == old(host).(sessions := LogoutAll(old(host.sessions), Normals(Elems(portals[..n]) - stuck),
                                                           iqn))
      {
        var p := portals[n];
        ghost var done := Elems(portals[..n]) - stuck;
        assert portals[..n + 1] == portals[..n] + [p];
        assert Elems(portals[..n + 1]) - stuck == if p in stuck then done else done + {p};
        if p !in stuck {
          LogoutMore(old(host.sessions), Normals(done), p, iqn);
          assert Normals(done + {p}) == Normals(done) + {NormalizePortal(p)};
          host := host.(sessions := LogoutDo(host.sessions, p, iqn));
        }
      }
      assert portals[..|portals|] == portals;
    }

    method UnstageVolume(volumeID: string, staging: string, a: Answers) returns (r: Result<()>)
      modifies this
      ensures (State(), r) == UnstageDo(c, old(State()), volumeID, staging, a)
    {
      hide Resolved, InUse, UnmountDo, LastLun, LogoutAll, NormalizePortal;
      var id := ResolveTeardown(volumeID, a);
      if id.Some? && a.mountsList {
        var inUse := DeviceInUse(staging, id.value.wwid);
        if inUse {
          return Err(CodeFailedPrecondition);
        }
      }
      if !a.unmounts {
        return Err(CodeInternal);
      }
      host := host.(mounts := UnmountDo(host.mounts, staging));
      if id.None? {
        return Ok(());
      }
      if c.useMultipath && id.value.wwid != "" && a.flushes {
        host := host.(maps := host.maps - {id.value.wwid});
      }
      if id.value.iqn != "" {
        var last := LastLUNOnTarget(a.refcountLists, id.value.iqn, id.value.lun);
        if last {
          Logout(id.value.portals, id.value.iqn, a.stuck);
        }
      }
      meta := meta - {volumeID};
      r := Ok(());
    }
  }

  lemma OnlyOne(luns: set<int>, lun: int)
    ensures |luns| == 1 && lun in luns <==> luns == {lun}
  {
    if |luns| == 1 && lun in luns {
      assert |luns - {lun}| == 0;
    }
  }
}
