/** host=auto placement: pickRoomiest, and why every controller with the same roster picks the same node. */
module Placement {
  import opened Base
  import opened Driver
  import opened LocalOps
  import opened StringOrder

  /** One roster entry with the stats it answered, None when asking it failed. */
  datatype Peer = Peer(node: string, stats: Option<Stats>)

  // ----- Ranking -----

  /** The pool is online there and has room for `size` after the reserve. */
  predicate Eligible(p: Peer, size: int)
  {
    p.stats.Some? && p.stats.value.hasPool && p.stats.value.avail >= size
  }

  /** Most available bytes first, then fewest volumes, then name. */
  predicate Better(p: Peer, q: Peer)
    requires p.stats.Some? && q.stats.Some?
  {
    var s, t := p.stats.value, q.stats.value;
    || s.avail > t.avail
    || (s.avail == t.avail && s.volumeCount < t.volumeCount)
    || (s.avail == t.avail && s.volumeCount == t.volumeCount && Less(p.node, q.node))
  }

  lemma BetterTransitive(p: Peer, q: Peer, r: Peer)
    requires p.stats.Some? && q.stats.Some? && r.stats.Some? && Better(p, q) && Better(q, r)
    ensures Better(p, r)
  {
    if Less(p.node, q.node) && Less(q.node, r.node) {
      LessTransitive(p.node, q.node, r.node);
    }
  }

  lemma BetterTotal(p: Peer, q: Peer)
    requires p.stats.Some? && q.stats.Some?
    ensures p.node != q.node ==> Better(p, q) || Better(q, p)
    ensures !Better(p, p)
    ensures !(Better(p, q) && Better(q, p))
  {
    LessTotal(p.node, q.node);
    LessIrreflexive(p.node);
    if Less(p.node, q.node) && Less(q.node, p.node) {
      LessTransitive(p.node, q.node, p.node);
    }
  }

  /** `best` is eligible and no eligible peer ranks above it. */
  ghost predicate Roomiest(peers: seq<Peer>, size: int, best: Peer)
  {
    best in peers && Eligible(best, size) && forall p :: p in peers && Eligible(p, size) ==> !Better(p, best)
  }

  ghost predicate Named(peers: seq<Peer>)
  {
    forall i :: 0 <= i < |peers| ==> peers[i].node != ""
  }

  ghost predicate Distinct(peers: seq<Peer>)
  {
    forall i, j :: 0 <= i < j < |peers| ==> peers[i].node != peers[j].node
  }

  /** What pickRoomiest answers: the name of a roomiest eligible peer, or Unavailable. */
  ghost predicate Picks(peers: seq<Peer>, size: int, r: Result<string>)
  {
    && (Named(peers) ==> (r.Ok? <==> exists p :: p in peers && Eligible(p, size)))
    && (r.Ok? ==> exists p :: Roomiest(peers, size, p) && p.node == r.value)
    && (r.Err? ==> r.code == CodeUnavailable)
  }

  /** Sizes come from roundUpToBlock and are positive. */
  method PickRoomiest(peers: seq<Peer>, size: int) returns (r: Result<string>)
    requires size > 0
    ensures Picks(peers, size, r)
  {
    if |peers| == 0 {
      return Err(CodeUnavailable);
    }
    var best := "";
    var bestAvail := -1;
    var bestCount := 0x7fff_ffff_ffff_ffff;
    ghost var chosen: Option<Peer> := None;
    for i := 0 to |peers|
      invariant chosen.None? ==> best == "" && bestAvail == -1 && forall p :: p in peers[..i] ==> !Eligible(p, size)
      invariant chosen.Some? ==>
                  && Roomiest(peers[..i], size, chosen.value)
                  && best == chosen.value.node
                  && bestAvail == chosen.value.stats.value.avail
                  && bestCount == chosen.value.stats.value.volumeCount
    {
      var p := peers[i];
      assert peers[..i + 1] == peers[..i] + [p];
      if p.stats.None? || !p.stats.value.hasPool || p.stats.value.avail < size {
        continue;
      }
      var st := p.stats.value;
      if st.avail > bestAvail
         || (st.avail == bestAvail && st.volumeCount < bestCount)
         || (st.avail == bestAvail && st.volumeCount == bestCount && Less(p.node, best))
      {
        ghost var was := chosen;
        best, bestAvail, bestCount := p.node, st.avail, st.volumeCount;
        chosen := Some(p);
        NewBest(peers[..i], size, p, was);
      } else {
        BetterTotal(p, chosen.value);
      }
    }
    assert peers[..|peers|] == peers;
    if best == "" {
      return Err(CodeUnavailable);
    }
    r := Ok(best);
  }

  lemma NewBest(seen: seq<Peer>, size: int, p: Peer, was: Option<Peer>)
    requires Eligible(p, size)
    requires was.None? ==> forall q :: q in seen ==> !Eligible(q, size)
    requires was.Some? ==> Roomiest(seen, size, was.value) && Better(p, was.value)
    ensures Roomiest(seen + [p], size, p)
  {
    forall q | q in seen + [p] && Eligible(q, size)
      ensures !Better(q, p)
    {
      BetterTotal(q, p);
      if q in seen && Better(q, p) {
        BetterTransitive(q, p, was.value);
      }
    }
  }

  /** There is at most one roomiest peer among distinct names. */
  lemma RoomiestIsUnique(peers: seq<Peer>, size: int, a: Peer, b: Peer)
    requires Distinct(peers) && Roomiest(peers, size, a) && Roomiest(peers, size, b)
    ensures a == b
  {
    BetterTotal(a, b);
    var i :| 0 <= i < |peers| && peers[i] == a;
    var j :| 0 <= j < |peers| && peers[j] == b;
  }

  /** Two controllers that see the same peers, in whatever order, get the same answer from
      pickRoomiest, the refusal included. */
  lemma OrderDoesNotMatter(peers: seq<Peer>, peers': seq<Peer>, size: int, r: Result<string>, r': Result<string>)
    requires Distinct(peers) && Named(peers) && multiset(peers) == multiset(peers')
    requires Picks(peers, size, r) && Picks(peers', size, r')
    ensures r == r'
  {
    forall p
      ensures p in peers <==> p in peers'
    {
      assert p in peers <==> p in multiset(peers);
      assert p in peers' <==> p in multiset(peers');
    }
    forall i | 0 <= i < |peers'|
      ensures peers'[i].node != ""
    {
      assert peers'[i] in peers;
    }
    if r.Ok? && r'.Ok? {
      var a :| Roomiest(peers, size, a) && a.node == r.value;
      var b :| Roomiest(peers', size, b) && b.node == r'.value;
      assert Roomiest(peers, size, b);
      RoomiestIsUnique(peers, size, a, b);
    }
  }
}
