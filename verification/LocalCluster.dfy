/** The local backend as a cluster: any controller takes a request and forwards it at most one hop. */
module LocalCluster {
  import opened Driver
  import opened LocalId
  import opened Zfs
  import opened LocalOps

  datatype Request =
    | DeleteVolume(id: string)
    | VolumeExists(id: string)
    | ExpandVolume(id: string, required: int, limit: int)
    | CreateSnapshot(source: string, name: string)
    | DeleteSnapshot(id: string)

  datatype Answer = Nothing | Exists(exists_: bool) | Capacity(bytes: int) | Snapshotted(snap: Snapped)

  datatype Member = Member(cfg: NodeConfig, z: Z)

  type Cluster = map<string, Member>

  // ----- Errors on the wire -----

  function CodeNumber(c: Code): (n: int)
    ensures 0 <= n <= 10
  {
    match c
    case CodeUnknown => 0
    case CodeInvalidArgument => 1
    case CodeNotFound => 2
    case CodeAlreadyExists => 3
    case CodeFailedPrecondition => 4
    case CodeOutOfRange => 5
    case CodeResourceExhausted => 6
    case CodeAborted => 7
    case CodeUnimplemented => 8
    case CodeInternal => 9
    case CodeUnavailable => 10
  }

  function CodeOfNumber(n: int): Code
  {
    match n
    case 1 => CodeInvalidArgument
    case 2 => CodeNotFound
    case 3 => CodeAlreadyExists
    case 4 => CodeFailedPrecondition
    case 5 => CodeOutOfRange
    case 6 => CodeResourceExhausted
    case 7 => CodeAborted
    case 8 => CodeUnimplemented
    case 9 => CodeInternal
    case 10 => CodeUnavailable
    case _ => CodeUnknown
  }

  /** A forwarded response: the answer, or the number of the error code. */
  datatype Wire = WireAnswer(answer: Answer) | WireError(code: int)

  /** encodeOrCoded with codedFromErr. */
  function Encode(r: Result<Answer>): Wire
  {
    if r.Ok? then WireAnswer(r.value) else WireError(CodeNumber(r.code))
  }

  /** remoteToDriver. */
  function Decode(w: Wire): Result<Answer>
  {
    if w.WireAnswer? then Ok(w.answer) else Err(CodeOfNumber(w.code))
  }

  /** An error keeps its code across the wire. */
  lemma WireKeepsResult(r: Result<Answer>)
    ensures Decode(Encode(r)) == r
  {
  }

  // ----- One request -----

  /** The node named in the request's id. */
  function OwnerOf(req: Request): Result<string>
  {
    if req.DeleteSnapshot? then
      var sid := ParseSnapshotID(req.id);
      if sid.Ok? then Ok(sid.value.node) else Err(sid.code)
    else
      var eid := ParseExternalID(if req.CreateSnapshot? then req.source else req.id);
      if eid.Ok? then Ok(eid.value.node) else Err(eid.code)
  }

  /** What the receiving controller checks before it routes. */
  function Routed(req: Request): Result<string>
  {
    var owner := OwnerOf(req);
    if owner.Ok? && req.ExpandVolume? && req.required <= 0 then Err(CodeInvalidArgument) else owner
  }

  function Answered(s: Status): Result<Answer>
  {
    if s.Ok? then Ok(Nothing) else Err(s.code)
  }

  /** The local operation behind a request, as dispatchForward and the local branch both run it. */
  ghost function LocalRun(m: Member, req: Request): (Z, Result<Answer>)
  {
    match req
    case DeleteVolume(id) => var (z, r) := DeleteDo(m.cfg, m.z, id); (z, Answered(r))
    case VolumeExists(id) =>
      var (z, r) := ExistsDo(m.z, id);
      (z, if r.Ok? then Ok(Exists(r.value)) else Err(r.code))
    case ExpandVolume(id, required, limit) =>
      var (z, r) := ExpandDo(m.z, id, required, limit);
      (z, if r.Ok? then Ok(Capacity(r.value)) else Err(r.code))
    case CreateSnapshot(source, name) =>
      var (z, r) := SnapshotVolumeDo(m.cfg, m.z, source, name);
      (z, if r.Ok? then Ok(Snapshotted(r.value)) else Err(r.code))
    case DeleteSnapshot(id) => var (z, r) := DeleteSnapshotDo(m.z, id); (z, Answered(r))
  }

  datatype Served = Served(cluster: Cluster, result: Result<Answer>, hops: nat)

  ghost function RunOn(c: Cluster, node: string, req: Request): (Cluster, Result<Answer>)
    requires node in c
  {
    var (z, r) := LocalRun(c[node], req);
    (c[node := c[node].(z := z)], r)
  }

  /** controller.forward: refused for a request that arrived by forwarding; Unavailable for a node
      that cannot be resolved; else dispatched there, marked as forwarded. */
  ghost function Forward(c: Cluster, forwarded: bool, node: string, req: Request): Served
  {
    if forwarded then Served(c, Err(CodeInternal), 0)
    else if node !in c then Served(c, Err(CodeUnavailable), 0)
    else
      var (c', r) := RunOn(c, node, req);
      Served(c', Decode(Encode(r)), 1)
  }

  /** A controller RPC received by node `at`. */
  ghost function Serve(c: Cluster, at: string, forwarded: bool, req: Request): Served
    requires at in c
  {
    var owner := Routed(req);
    if owner.Err? then Served(c, Err(owner.code), 0)
    else if owner.value == at then
      var (c', r) := RunOn(c, at, req);
      Served(c', r, 0)
    else Forward(c, forwarded, owner.value, req)
  }

  /** Location transparency: whichever controller receives a request, the result, its error code
      and the state of the whole cluster afterwards are the same. */
  lemma LocationTransparent(c: Cluster, a: string, b: string, req: Request)
    requires a in c && b in c
    ensures var s, t := Serve(c, a, false, req), Serve(c, b, false, req);
            s.cluster == t.cluster && s.result == t.result
  {
    hide LocalRun, Routed;
    var owner := Routed(req);
    if owner.Ok? && owner.value in c {
      WireKeepsResult(RunOn(c, owner.value, req).1);
    }
  }

  /** Only the owner's state may change, and the request makes a hop exactly when its owner is
      another known node. */
  lemma ServeTouches(c: Cluster, at: string, req: Request)
    requires at in c
    ensures var s := Serve(c, at, false, req);
            && s.hops == Hop(c.Keys, at, req)
            && s.cluster.Keys == c.Keys
            && (forall n :: n in c && Routed(req) != Ok(n) ==> s.cluster[n] == c[n])
  {
    hide LocalRun, Routed;
  }

  // ----- Runs -----

  /** 1 when `at` is not the owner of the request and knows the owner. */
  function Hop(nodes: set<string>, at: string, req: Request): nat
  {
    var owner := Routed(req);
    if owner.Ok? && owner.value != at && owner.value in nodes then 1 else 0
  }

  /** A request and the controller that receives it. */
  datatype Call = Call(at: string, req: Request)

  ghost predicate Known(c: Cluster, calls: seq<Call>)
  {
    forall i :: 0 <= i < |calls| ==> calls[i].at in c
  }

  datatype Trace = Trace(cluster: Cluster, results: seq<Result<Answer>>, hops: nat)

  ghost function Run(c: Cluster, calls: seq<Call>): (t: Trace)
    requires Known(c, calls)
    ensures t.cluster.Keys == c.Keys && |t.results| == |calls|
    decreases |calls|
  {
    if calls == [] then Trace(c, [], 0)
    else
      var before := Run(c, calls[..|calls| - 1]);
      var call := calls[|calls| - 1];
      var s := Serve(before.cluster, call.at, false, call.req);
      Trace(s.cluster, before.results + [s.result], before.hops + s.hops)
  }

  ghost predicate SameRequests(a: seq<Call>, b: seq<Call>)
  {
    |a| == |b| && forall i :: 0 <= i < |a| ==> a[i].req == b[i].req
  }

  /** Whole runs do not depend on who receives what: for every sequence of requests and any two
      assignments of receiving controllers, every result, error codes included, and the final
      state of every node are the same. */
  lemma {:induction false} ReceiversDoNotMatter(c: Cluster, a: seq<Call>, b: seq<Call>)
    requires Known(c, a) && Known(c, b) && SameRequests(a, b)
    ensures Run(c, a).cluster == Run(c, b).cluster && Run(c, a).results == Run(c, b).results
    decreases |a|
  {
    hide Serve;
    if a != [] {
      var n := |a| - 1;
      ReceiversDoNotMatter(c, a[..n], b[..n]);
      LocationTransparent(Run(c, a[..n]).cluster, a[n].at, b[n].at, a[n].req);
    }
  }

  ghost function Hops(nodes: set<string>, calls: seq<Call>): nat
    decreases |calls|
  {
    if calls == [] then 0
    else Hops(nodes, calls[..|calls| - 1]) + Hop(nodes, calls[|calls| - 1].at, calls[|calls| - 1].req)
  }

  /** A run makes one hop for each request whose receiver is not its owner and knows the owner,
      and no other; and a node that owns none of the requests ends as it began. */
  lemma {:induction false} RunHopsAndFrame(c: Cluster, calls: seq<Call>, n: string)
    requires Known(c, calls) && n in c
    ensures Run(c, calls).hops == Hops(c.Keys, calls) <= |calls|
    ensures n in Run(c, calls).cluster
    ensures (forall i :: 0 <= i < |calls| ==> Routed(calls[i].req) != Ok(n)) ==> Run(c, calls).cluster[n] == c[n]
    decreases |calls|
  {
    hide Serve, Routed;
    if calls != [] {
      var init, call := calls[..|calls| - 1], calls[|calls| - 1];
      RunHopsAndFrame(c, init, n);
      ServeTouches(Run(c, init).cluster, call.at, call.req);
    }
  }

  // ----- The controller -----

  class Controller {
    const self: string
    const peers: map<string, Node>

    ghost predicate Valid()
    {
      && self in peers
      && (forall n :: n in peers ==> peers[n].cfg.name == n)
      && (forall m, n :: m in peers && n in peers && m != n ==> peers[m].host != peers[n].host)
    }

    constructor (self: string, peers: map<string, Node>)
      ensures this.self == self && this.peers == peers
    {
      this.self, this.peers := self, peers;
    }

    ghost function Hosts(): set<Host>
    {
      set n | n in peers :: peers[n].host
    }

    ghost function View(): Cluster
      reads Hosts()
    {
      map n | n in peers :: Member(peers[n].cfg, peers[n].host.st)
    }

    /** dispatchForward's switch, which the local branch of every RPC shares. */
    method RunLocally(n: Node, req: Request) returns (r: Result<Answer>)
      modifies n.host
      ensures (n.host.st, r) == LocalRun(Member(n.cfg, old(n.host.st)), req)
    {
      match req
      case DeleteVolume(id) =>
        var s := n.LocalDelete(id);
        r := Answered(s);
      case VolumeExists(id) =>
        var e := n.LocalExists(id);
        r := if e.Ok? then Ok(Exists(e.value)) else Err(e.code);
      case ExpandVolume(id, required, limit) =>
        var e := n.LocalExpand(id, required, limit);
        r := if e.Ok? then Ok(Capacity(e.value)) else Err(e.code);
      case CreateSnapshot(source, name) =>
        var s := n.LocalSnapshot(source, name);
        r := if s.Ok? then Ok(Snapshotted(s.value)) else Err(s.code);
      case DeleteSnapshot(id) =>
        var s := n.LocalDeleteSnapshot(id);
        r := Answered(s);
    }

    method Receive(req: Request, forwarded: bool) returns (r: Result<Answer>)
      requires Valid()
      modifies Hosts()
      ensures View() == Serve(old(View()), self, forwarded, req).cluster
      ensures r == Serve(old(View()), self, forwarded, req).result
    {
      hide LocalRun, Routed;
      var owner := Routed(req);
      if owner.Err? {
        return Err(owner.code);
      }
      if owner.value == self {
        r := RunLocally(peers[self], req);
        assert View() == old(View())[self := Member(peers[self].cfg, peers[self].host.st)];
        return;
      }
      if forwarded {
        return Err(CodeInternal);
      }
      if owner.value !in peers {
        return Err(CodeUnavailable);
      }
      var answer := RunLocally(peers[owner.value], req);
      assert View() == old(View())[owner.value := Member(peers[owner.value].cfg, peers[owner.value].host.st)];
      r := Decode(Encode(answer));
    }
  }
}
