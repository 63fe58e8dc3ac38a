/**
  NodeStageVolume of the qnap backend: recovering the attach identity from an incomplete volume
  context, logging in over every reachable portal, waiting for the device, and cleaning up a
  stage that fails half way.
*/
module Attach {
  import opened Base
  import opened Text
  import opened Driver
  import opened Portals
  import opened IscsiSessions
  import opened Mounts
  import opened QnapId
  import opened QnapIdentity
  import opened Teardown

  // ----- Attach identity -----

  type VolumeContext = map<string, string>

  const PORTAL := "portal"
  const IQN := "iqn"
  const LUN := "lun"

  /** A missing key reads as the empty string. */
  function Value(ctx: VolumeContext, key: string): string
  {
    if key in ctx then ctx[key] else ""
  }

  function Trimmed(parts: seq<string>): seq<string>
  {
    if parts == [] then []
    else
      var init, p := Trimmed(parts[..|parts| - 1]), TrimSpace(parts[|parts| - 1]);
      if p != "" then init + [p] else init
  }

  /** splitPortals and PortalList both drop blank entries. */
  method TrimmedList(raw: seq<string>) returns (out: seq<string>)
    ensures out == Trimmed(raw)
  {
    hide TrimSpace;
    out := [];
    for n := 0 to |raw|
      invariant out == Trimmed(raw[..n])
    {
      assert raw[..n + 1][..n] == raw[..n];
      var p := TrimSpace(raw[n]);
      if p != "" {
        out := out + [p];
      }
    }
    assert raw[..|raw|] == raw;
  }

  function SplitPortals(s: string): seq<string>
  {
    Trimmed(Split(s, ','))
  }

  /** The node's own portals in normal form. */
  function NodePortals(ps: seq<string>): seq<string>
  {
    if ps == [] then []
    else
      var init, p := NodePortals(ps[..|ps| - 1]), NormalizePortal(ps[|ps| - 1]);
      if p != "" then init + [p] else init
  }

  datatype Endpoint = Endpoint(portals: seq<string>, iqn: string, lun: int)

  /** Each of the three fields from the context if it is there, else from the node's own portals,
      the SAN, or the ownership flag in the volume id. `san` is None without a working client. */
  function AttachIdentity(own: seq<string>, san: Option<Identity>, volumeID: string,
                          ctx: VolumeContext): Result<Endpoint>
  {
    var portals, iqn, lunRaw := SplitPortals(Value(ctx, PORTAL)), Value(ctx, IQN), TrimSpace(Value(ctx, LUN));
    if portals != [] && iqn != "" && lunRaw != "" then
      (if Atoi(lunRaw).None? then Err(CodeInvalidArgument) else Ok(Endpoint(portals, iqn, Atoi(lunRaw).value)))
    else if ParseExternalID(volumeID).Err? then Err(CodeInvalidArgument)
    else
      var eid := ParseExternalID(volumeID).value;
      var found := if iqn != "" then Some(iqn) else if san.None? then None else IqnOf(san.value, eid);
      var ps := if portals != [] then portals else NodePortals(own);
      if found.None? || ps == [] then Err(CodeFailedPrecondition)
      else if lunRaw != "" then
        (if Atoi(lunRaw).None? then Err(CodeInvalidArgument) else Ok(Endpoint(ps, found.value, Atoi(lunRaw).value)))
      else if eid.ownTarget then Ok(Endpoint(ps, found.value, 0))
      else Err(CodeFailedPrecondition)
  }

  method ResolveAttachIdentity(own: seq<string>, san: Option<Identity>, volumeID: string, ctx: VolumeContext)
    returns (r: Result<Endpoint>)
    ensures r == AttachIdentity(own, san, volumeID, ctx)
  {
    hide Trimmed, TrimSpace, Split, Atoi, ParseExternalID, NormalizePortal, NodePortals;
    var portals := TrimmedList(Split(Value(ctx, PORTAL), ','));
    var iqn := Value(ctx, IQN);
    var lunRaw := TrimSpace(Value(ctx, LUN));
    if |portals| > 0 && iqn != "" && lunRaw != "" {
      var n := Atoi(lunRaw);
      if n.None? {
        return Err(CodeInvalidArgument);
      }
      return Ok(Endpoint(portals, iqn, n.value));
    }
    var parsed := ParseExternalID(volumeID);
    if parsed.Err? {
      return Err(CodeInvalidArgument);
    }
    var eid := parsed.value;
    if iqn == "" {
      if san.None? {
        return Err(CodeFailedPrecondition);
      }
      var found := IqnOf(san.value, eid);
      if found.None? {
        return Err(CodeFailedPrecondition);
      }
      iqn := found.value;
    }
    if |portals| == 0 {
      portals := NormalizedList(own);
      if |portals| == 0 {
        return Err(CodeFailedPrecondition);
      }
    }
    var lun := 0;
    if lunRaw != "" {
      var n := Atoi(lunRaw);
      if n.None? {
        return Err(CodeInvalidArgument);
      }
      lun := n.value;
    } else if !eid.ownTarget {
      return Err(CodeFailedPrecondition);
    }
    r := Ok(Endpoint(portals, iqn, lun));
  }

  method NormalizedList(own: seq<string>) returns (out: seq<string>)
    ensures out == NodePortals(own)
  {
    hide NormalizePortal;
    out := [];
    for n := 0 to |own|
      invariant out == NodePortals(own[..n])
    {
      assert own[..n + 1][..n] == own[..n];
      var p := NormalizePortal(own[n]);
      if p != "" {
        out := out + [p];
      }
    }
    assert own[..|own|] == own;
  }

  // ----- Staging -----

  /** How the commands of one stage answer: the portals that cannot be reached, the session rows a
      login brings up, the device, map and mapper path once they appear, and what fails after. */
  datatype StageAnswers = StageAnswers(
    own: seq<string>, san: Option<Identity>, down: set<string>, fabric: map<(string, string), seq<Session>>,
    raw: Option<string>, wwid: Option<string>, mapper: Option<string>,
    flushes: bool, stuck: set<string>, formats: bool, mounts: bool)

  function ActivePortals(ps: seq<string>, down: set<string>): seq<string>
  {
    if ps == [] then []
    else if ps[|ps| - 1] in down then ActivePortals(ps[..|ps| - 1], down)
    else ActivePortals(ps[..|ps| - 1], down) + [ps[|ps| - 1]]
  }

  /** A login to a portal that already has its session changes nothing. */
  function LoginDo(ss: seq<Session>, p: string, iqn: string, fabric: map<(string, string), seq<Session>>): seq<Session>
  {
    if (p, iqn) !in fabric || (forall s :: s in fabric[(p, iqn)] ==> s in ss) then ss else ss + fabric[(p, iqn)]
  }

  function LoggedIn(ss: seq<Session>, ps: seq<string>, iqn: string, a: StageAnswers): seq<Session>
  {
    if ps == [] then ss
    else
      var before := LoggedIn(ss, ps[..|ps| - 1], iqn, a);
      if ps[|ps| - 1] in a.down then before else LoginDo(before, ps[|ps| - 1], iqn, a.fabric)
  }

  /** cleanupAttach: flush a claimed map and log out of every portal that came up. */
  function Cleaned(c: Config, h: Host, active: seq<string>, iqn: string, wwid: string, a: StageAnswers): Host
  {
    var h1 := if c.useMultipath && wwid != "" && a.flushes then h.(maps := h.maps - {wwid}) else h;
    h1.(sessions := LogoutAll(h1.sessions, Normals(Elems(active) - a.stuck), iqn))
  }

  datatype Device = Device(path: string, meta: StageMeta)

  /** The portals that came up, the device and, with multipath, the map and its path all appear. */
  predicate Attaches(c: Config, active: seq<string>, a: StageAnswers)
  {
    active != [] && a.raw.Some? && (c.useMultipath ==> a.wwid.Some? && a.wwid.value != "" && a.mapper.Some?)
  }

  /** What a stage that gets its device records. */
  function Recorded(c: Config, id: Endpoint, a: StageAnswers): StageMeta
  {
    var wwid := if c.useMultipath && a.wwid.Some? then a.wwid.value else "";
    StageMeta(ActivePortals(id.portals, a.down), id.iqn, id.lun, wwid)
  }

  /** multipathd claims the path devices of a new LUN. */
  function Claimed(h: Host, wwid: string): Host
  {
    h.(maps := h.maps + {wwid})
  }

  function AttachDo(c: Config, h: Host, volumeID: string, ctx: VolumeContext, a: StageAnswers): (Host, Result<Device>)
  {
    match AttachIdentity(a.own, a.san, volumeID, ctx)
    case Err(code) => (h, Err(code))
    case Ok(id) =>
      var active := ActivePortals(id.portals, a.down);
      var h1 := h.(sessions := LoggedIn(h.sessions, id.portals, id.iqn, a));
      if active == [] then (h1, Err(CodeUnavailable))
      else if a.raw.None? then (Cleaned(c, h1, active, id.iqn, "", a), Err(CodeUnavailable))
      else if !c.useMultipath then (h1, Ok(Device(a.raw.value, StageMeta(active, id.iqn, id.lun, ""))))
      else if a.wwid.None? || a.wwid.value == "" then (Cleaned(c, h1, active, id.iqn, "", a), Err(CodeUnavailable))
      else
        var h2 := Claimed(h1, a.wwid.value);
        if a.mapper.None? then (Cleaned(c, h2, active, id.iqn, a.wwid.value, a), Err(CodeUnavailable))
        else (h2, Ok(Device(a.mapper.value, StageMeta(active, id.iqn, id.lun, a.wwid.value))))
  }

  /** The metadata is saved as soon as the device is attached; block volumes stop there. */
  function StageDo(c: Config, n: Node, volumeID: string, staging: string, ctx: VolumeContext, block: bool,
                   a: StageAnswers): (Node, Result<()>)
  {
    var (h, dev) := AttachDo(c, n.host, volumeID, ctx, a);
    if dev.Err? then (n.(host := h), Err(dev.code))
    else
      var n1 := Node(n.meta[volumeID := dev.value.meta], h);
      if block then (n1, Ok(()))
      else if !a.formats || !a.mounts then (n1, Err(CodeInternal))
      else (n1.(host := h.(mounts := h.mounts + [Mount(staging, dev.value.path)])), Ok(()))
  }

  class StagingService {
    const svc: NodeService

    constructor (svc: NodeService)
      ensures this.svc == svc
    {
      this.svc := svc;
    }

    /** loginPortals: fails only when no portal is reachable. */
    method LoginPortals(portals: seq<string>, iqn: string, a: StageAnswers) returns (r: Result<seq<string>>)
      modifies svc
      ensures svc.meta == old(svc.meta)
      ensures svc.host == old(svc.host).(sessions := LoggedIn(old(svc.host.sessions), portals, iqn, a))
      ensures r == if ActivePortals(portals, a.down) == [] then Err(CodeUnavailable)
          else Ok(ActivePortals(portals, a.down))
    {
      hide LoginDo;
      var active: seq<string> := [];
      for n := 0 to |portals|
        invariant svc.meta == old(svc.meta)
        invariant svc.host == old(svc.host).(sessions := LoggedIn(old(svc.host.sessions), portals[..n], iqn, a))
        invariant active == ActivePortals(portals[..n], a.down)
      {
        assert portals[..n + 1][..n] == portals[..n];
        if portals[n] in a.down {
          continue;
        }
        svc.host := svc.host.(sessions := LoginDo(svc.host.sessions, portals[n], iqn, a.fabric));
        active := active + [portals[n]];
      }
      assert portals[..|portals|] == portals;
      if |active| == 0 {
        return Err(CodeUnavailable);
      }
      r := Ok(active);
    }

    method CleanupAttach(active: seq<string>, iqn: string, wwid: string, a: StageAnswers)
      modifies svc
      ensures svc.meta == old(svc.meta) && svc.host == Cleaned(svc.c, old(svc.host), active, iqn, wwid, a)
    {
      hide LogoutAll, Normals;
      if svc.c.useMultipath && wwid != "" && a.flushes {
        svc.host := svc.host.(maps := svc.host.maps - {wwid});
      }
      svc.Logout(active, iqn, a.stuck);
    }

    method AttachVolume(volumeID: string, ctx: VolumeContext, a: StageAnswers) returns (r: Result<Device>)
      modifies svc
      ensures svc.meta == old(svc.meta)
      ensures (svc.host, r) == AttachDo(svc.c, old(svc.host), volumeID, ctx, a)
    {
      hide AttachIdentity, LoggedIn, ActivePortals, Cleaned;
      var id := ResolveAttachIdentity(a.own, a.san, volumeID, ctx);
      if id.Err? {
        return Err(id.code);
      }
      var login := LoginPortals(id.value.portals, id.value.iqn, a);
      if login.Err? {
        return Err(login.code);
      }
      var active := login.value;
      if a.raw.None? {
        CleanupAttach(active, id.value.iqn, "", a);
        return Err(CodeUnavailable);
      }
      if !svc.c.useMultipath {
        return Ok(Device(a.raw.value, StageMeta(active, id.value.iqn, id.value.lun, "")));
      }
      if a.wwid.None? || a.wwid.value == "" {
        CleanupAttach(active, id.value.iqn, "", a);
        return Err(CodeUnavailable);
      }
      svc.host := Claimed(svc.host, a.wwid.value);
      if a.mapper.None? {
        CleanupAttach(active, id.value.iqn, a.wwid.value, a);
        return Err(CodeUnavailable);
      }
      r := Ok(Device(a.mapper.value, StageMeta(active, id.value.iqn, id.value.lun, a.wwid.value)));
    }

    method StageVolume(volumeID: string, staging: string, ctx: VolumeContext, block: bool, a: StageAnswers)
        returns (r: Result<()>)
      modifies svc
      ensures (svc.State(), r) == StageDo(svc.c, old(svc.State()), volumeID, staging, ctx, block, a)
    {
      hide AttachDo;
      var dev := AttachVolume(volumeID, ctx, a);
      if dev.Err? {
        return Err(dev.code);
      }
      svc.meta := svc.meta[volumeID := dev.value.meta];
      if block {
        return Ok(());
      }
      if !a.formats {
        return Err(CodeInternal);
      }
      if !a.mounts {
        return Err(CodeInternal);
      }
      svc.host := svc.host.(mounts := svc.host.mounts + [Mount(staging, dev.value.path)]);
      r := Ok(());
    }
  }

  // ----- An erased volume context -----

  /** hasPort: the last colon or closing bracket decides. */
  predicate HasPort(p: string)
  {
    p != [] && (p[|p| - 1] == ':' || (p[|p| - 1] != ']' && HasPort(p[..|p| - 1])))
  }

  /** A portal as the controller advertises it. */
  function Advertised(p: string): string
  {
    if HasPort(p) then p else p + ":3260"
  }

  method ScanForPort(p: string) returns (found: bool)
    ensures found == HasPort(p)
  {
    var i := |p|;
    assert p[..|p|] == p;
    while i > 0
      invariant 0 <= i <= |p| && HasPort(p) == HasPort(p[..i])
    {
      assert p[..i][..i - 1] == p[..i - 1];
      if p[i - 1] == ':' {
        return true;
      }
      if p[i - 1] == ']' {
        return false;
      }
      i := i - 1;
    }
    found := false;
  }

  method AdvertisePortals(conf: seq<string>) returns (out: seq<string>)
    ensures out == AdvertisedAll(conf)
  {
    out := [];
    for n := 0 to |conf|
      invariant out == AdvertisedAll(conf[..n])
    {
      var ported := ScanForPort(conf[n]);
      out := out + [if ported then conf[n] else conf[n] + ":3260"];
    }
    assert conf[..|conf|] == conf;
  }

  function AdvertisedAll(ps: seq<string>): seq<string>
  {
    seq(|ps|, i requires 0 <= i < |ps| => Advertised(ps[i]))
  }

  /** What CreateVolume puts in the context; the LUN number is always 0. */
  function CreatedContext(conf: seq<string>, iqn: string): VolumeContext
  {
    map[PORTAL := Join(AdvertisedAll(conf), ','), IQN := iqn, LUN := "0"]
  }

  /** A configured portal: PortalList has trimmed it and dropped it if it was blank. */
  ghost predicate Configured(p: string)
  {
    p != "" && TrimSpace(p) == p
  }

  /** hasPort finds a colon with no closing bracket after it. */
  lemma {:induction false} HasPortMeans(p: string)
    ensures HasPort(p) <==> ':' in p && ']' !in p[LastIndex(p, ':')..]
  {
    if p != [] {
      var init, c := p[..|p| - 1], p[|p| - 1];
      assert p == init + [c];
      HasPortMeans(init);
      if c != ':' && ':' in init {
        var i := LastIndex(init, ':');
        assert LastIndex(p, ':') == i;
        assert p[i..] == init[i..] + [c];
      }
      if c == ':' {
        assert p[LastIndex(p, ':')..] == [':'];
      }
    }
  }

  /** net.SplitHostPort accepts only what hasPort takes to have a port. */
  lemma HostPortHasPort(p: string)
    ensures HasHostPort(p) ==> HasPort(p)
  {
    hide HasPort, LastIndex;
    HasPortMeans(p);
    if HasHostPort(p) {
      var i := LastIndex(p, ':');
      assert p[i] == ':' && ']' !in p ==> ']' !in p[i..];
    }
  }

  /** host:port already, with brackets around a host that has colons, or no colon at all. */
  predicate Unambiguous(p: string)
  {
    HasHostPort(p) || ':' !in p
  }

  /** The controller and the node write the same portal if and only if it is unambiguous. */
  lemma AdvertisedIsNormalExactly(p: string)
    requires Configured(p)
    ensures Advertised(p) == NormalizePortal(p) <==> Unambiguous(p)
  {
    hide HasPort, HasHostPort, TrimSpace;
    HostPortHasPort(p);
    HasPortMeans(p);
    assert ':' !in p ==> !HasHostPort(p) by {
      NoColonNoPort(p);
    }
    if ':' in p && !HasHostPort(p) {
      assert |NormalizePortal(p)| == |p| + 7;
      assert |Advertised(p)| <= |p| + 5;
    }
  }

  lemma NoColonNoPort(p: string)
    ensures HasHostPort(p) ==> ':' in p
  {
  }

  /** One that differs: a bare IPv6 address. */
  lemma BareAddressDiffers()
    ensures Advertised("::1") == "::1" && NormalizePortal("::1") == "[::1]:3260"
  {
    hide TrimSpace, LastIndex;
    SolidEnds("::1");
    LastIndexUnique("::1", ':', 1);
    assert "::1"[..1] == ":";
    assert HasPort("::1") by {
      HasPortMeans("::1");
    }
  }

  /** Another: a bracketed IPv6 address without a port. */
  lemma BracketedAddressDiffers()
    ensures Advertised("[::1]") == "[::1]:3260" && NormalizePortal("[::1]") == "[[::1]]:3260"
  {
    hide TrimSpace, LastIndex, IndexOf;
    SolidEnds("[::1]");
    LastIndexUnique("[::1]", ':', 2);
    assert "[::1]"[2..] == ":1]";
    assert !HasHostPort("[::1]") by {
      IndexOfAfter("[::1", ']', "");
      assert "[::1" + [']'] + "" == "[::1]";
    }
  }

  lemma {:induction false} TrimmedAsIs(ps: seq<string>)
    requires forall i :: 0 <= i < |ps| ==> Configured(ps[i])
    ensures Trimmed(ps) == ps
  {
    hide TrimSpace;
    if ps != [] {
      TrimmedAsIs(ps[..|ps| - 1]);
      assert Configured(ps[|ps| - 1]);
      assert ps == ps[..|ps| - 1] + [ps[|ps| - 1]];
    }
  }

  ghost predicate AllConfigured(conf: seq<string>)
  {
    forall i :: 0 <= i < |conf| ==> Configured(conf[i])
  }

  lemma AdvertisedIsConfigured(p: string)
    requires Configured(p)
    ensures Configured(Advertised(p))
    ensures Free(Advertised(p), ',') <==> Free(p, ',')
  {
    hide HasPort;
    if !HasPort(p) {
      var q := p + ":3260";
      assert !IsSpace(p[0]) by {
        SolidStart(p);
      }
      SolidEnds(q);
      assert forall i :: 0 <= i < |p| ==> q[i] == p[i];
    }
  }

  lemma SolidStart(p: string)
    requires p != "" && TrimSpace(p) == p
    ensures !IsSpace(p[0])
  {
  }

  lemma AllAdvertisedConfigured(conf: seq<string>)
    requires AllConfigured(conf)
    ensures AllConfigured(AdvertisedAll(conf))
  {
    hide Advertised, Configured;
    forall i | 0 <= i < |conf|
      ensures Configured(Advertised(conf[i]))
    {
      AdvertisedIsConfigured(conf[i]);
    }
  }

  /** The node's portals are the controller's, from the same configuration, if and only if every one
      of them is written alike by both. */
  lemma {:induction false} NodePortalsAgreeExactly(conf: seq<string>)
    requires AllConfigured(conf)
    ensures |NodePortals(conf)| == |conf|
    ensures NodePortals(conf) == AdvertisedAll(conf) <==>
            forall i :: 0 <= i < |conf| ==> Unambiguous(conf[i])
  {
    hide Advertised, Unambiguous, TrimSpace;
    if conf != [] {
      var n := |conf| - 1;
      var init, p := conf[..n], conf[n];
      NodePortalsAgreeExactly(init);
      AdvertisedIsNormalExactly(p);
      var mine, theirs := NodePortals(conf), AdvertisedAll(conf);
      assert theirs == AdvertisedAll(init) + [Advertised(p)];
      assert mine == NodePortals(init) + [NormalizePortal(p)];
      assert mine == theirs <==> mine[..n] == theirs[..n] && mine[n] == theirs[n];
      assert (forall i :: 0 <= i < |conf| ==> Unambiguous(conf[i])) <==>
             (forall i :: 0 <= i < n ==> Unambiguous(init[i])) && Unambiguous(p);
    }
  }

  lemma {:induction false} TrimmedFree(parts: seq<string>, c: char)
    requires forall i :: 0 <= i < |parts| ==> Free(parts[i], c)
    ensures forall i :: 0 <= i < |Trimmed(parts)| ==> Free(Trimmed(parts)[i], c)
  {
    if parts != [] {
      TrimmedFree(parts[..|parts| - 1], c);
      TrimPart(parts[|parts| - 1], c);
    }
  }

  lemma TrimPart(s: string, c: char)
    requires Free(s, c)
    ensures Free(TrimSpace(s), c)
  {
    TrimLeftPart(s, c);
  }

  lemma {:induction false} TrimLeftPart(s: string, c: char)
    requires Free(s, c)
    ensures Free(TrimLeft(s), c)
  {
    if s != [] && IsSpace(s[0]) {
      TrimLeftPart(s[1..], c);
    }
  }

  /** The node reads back the portal list the controller wrote if and only if no configured portal
      contains the separator. */
  lemma AdvertisedRoundTrip(conf: seq<string>)
    requires conf != [] && AllConfigured(conf)
    ensures SplitPortals(Join(AdvertisedAll(conf), ',')) == AdvertisedAll(conf) <==>
            forall i :: 0 <= i < |conf| ==> Free(conf[i], ',')
  {
    hide Advertised, Configured, Split, Join, Trimmed, Free;
    var all := AdvertisedAll(conf);
    var text := Join(all, ',');
    AllAdvertisedConfigured(conf);
    forall i | 0 <= i < |conf|
      ensures Free(all[i], ',') <==> Free(conf[i], ',')
    {
      AdvertisedIsConfigured(conf[i]);
    }
    if forall i :: 0 <= i < |conf| ==> Free(conf[i], ',') {
      SplitJoin(all, ',');
      TrimmedAsIs(all);
    }
    forall k | 0 <= k < |Split(text, ',')|
      ensures Free(Split(text, ',')[k], ',')
    {
      SplitFree(text, ',', k);
    }
    TrimmedFree(Split(text, ','), ',');
  }

  /** Some of the created context, the rest erased. */
  ghost predicate PartOf(ctx: VolumeContext, full: VolumeContext)
  {
    forall k :: k in {PORTAL, IQN, LUN} ==> Value(ctx, k) == "" || (k in full && Value(ctx, k) == full[k])
  }

  lemma ZeroParses()
    ensures TrimSpace("0") == "0" && Atoi("0") == Some(0)
  {
    hide TrimSpace;
    ItoaRoundTrip(0);
    assert Itoa(0) == "0";
    Untrimmed("0");
  }

  /** All three fields survived. */
  predicate Complete(ctx: VolumeContext)
  {
    Value(ctx, PORTAL) != "" && Value(ctx, IQN) != "" && Value(ctx, LUN) != ""
  }

  /** Whichever fields of the created context were erased, and whatever portals and SAN the node has:
      it attaches exactly where CreateVolume said if and only if the context is complete, or the
      volume id parses and each missing field comes back: the IQN because the SAN still gives it,
      the portals because the node's own are those the controller advertised, and the LUN number
      because the target is the volume's own. */
  lemma ErasedContextIsRebuilt(conf: seq<string>, own: seq<string>, san: Option<Identity>, volumeID: string,
                               iqn: string, ctx: VolumeContext)
    requires AllConfigured(conf) && (forall i :: 0 <= i < |conf| ==> Free(conf[i], ',')) && iqn != ""
    requires PartOf(ctx, CreatedContext(conf, iqn))
    ensures var eid := ParseExternalID(volumeID);
            AttachIdentity(own, san, volumeID, ctx) == Ok(Endpoint(AdvertisedAll(conf), iqn, 0)) <==>
              && conf != []
              && (|| Complete(ctx)
                  || (&& eid.Ok?
                      && (Value(ctx, IQN) != "" || (san.Some? && IqnOf(san.value, eid.value) == Some(iqn)))
                      && (Value(ctx, PORTAL) != "" || NodePortals(own) == AdvertisedAll(conf))
                      && (Value(ctx, LUN) != "" || eid.value.ownTarget)))
  {
    hide ParseExternalID, TrimSpace, Split, Trimmed, Join, NormalizePortal, NodePortals, Atoi, IqnOf, Free, Configured,
         Advertised;
    if conf != [] {
      AdvertisedRoundTrip(conf);
    }
    EmptyJoin();
    ZeroParses();
    BlankPortals();
    assert Value(ctx, PORTAL) == "" || Value(ctx, PORTAL) == Join(AdvertisedAll(conf), ',') by {
      assert PORTAL in {PORTAL, IQN, LUN};
    }
    assert Value(ctx, IQN) == "" || Value(ctx, IQN) == iqn by {
      assert IQN in {PORTAL, IQN, LUN};
    }
    assert Value(ctx, LUN) == "" || Value(ctx, LUN) == "0" by {
      assert LUN in {PORTAL, IQN, LUN};
    }
  }

  lemma EmptyJoin()
    ensures Join([], ',') == ""
  {
  }

  /** For instance: an erased portal on a node without portals of its own, the usual case, is refused
      although the SAN gives the target and the target is the volume's own. */
  lemma NoPortalsIsRefused(san: Identity, volumeID: string, iqn: string)
    requires ParseExternalID(volumeID).Ok? && iqn != ""
    ensures AttachIdentity([], Some(san), volumeID, map[IQN := iqn, LUN := "0"]) == Err(CodeFailedPrecondition)
  {
    hide ParseExternalID, TrimSpace, Split, Trimmed, Atoi, IqnOf;
    BlankPortals();
    ZeroParses();
  }

  lemma BlankPortals()
    ensures SplitPortals("") == [] && TrimSpace("") == ""
  {
    SplitLast("", ',');
    assert Trimmed([""]) == [];
  }
}
