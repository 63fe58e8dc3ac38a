/** iSCSI portal addresses: normalizePortal, portalOwned and the Go address rules they rest on. */
module Portals {
  import opened Text

  /** Whether net.SplitHostPort accepts `p`. */
  predicate HasHostPort(p: string)
  {
    var i := LastIndex(p, ':');
    if i < 0 then false
    else if p[0] == '[' then
      var end := IndexOf(p, ']');
      end + 1 == i && '[' !in p[1..] && ']' !in p[i..]
    else ':' !in p[..i] && '[' !in p && ']' !in p
  }

  /** host:port, with the default iSCSI port supplied when absent. */
  function NormalizePortal(p: string): string
  {
    var t := TrimSpace(p);
    if t == "" then ""
    else if HasHostPort(t) then t
    else if ':' in t then "[" + t + "]:3260"
    else t + ":3260"
  }

  /** With no configured portals every session counts as this plugin's. */
  predicate PortalOwned(portal: string, ours: set<string>)
  {
    ours == {} || NormalizePortal(portal) in ours
  }

  ghost predicate Plain(s: string)
  {
    NoSpace(s) && Free(s, ':') && Free(s, '[') && Free(s, ']')
  }

  lemma FreeNotIn(s: string, c: char)
    requires Free(s, c)
    ensures c !in s
  {
  }

  /** A portal already written as host:port is left alone; a bare host gets the default port. */
  lemma NormalizedHostPort(host: string, port: string)
    requires Plain(host) && Plain(port)
    ensures NormalizePortal(host + ":" + port) == host + ":" + port
    ensures host != [] ==> NormalizePortal(host) == host + ":3260"
  {
    hide TrimLeft, TrimRight, LastIndex;
    var p := host + ":" + port;
    assert NoSpace(p) && p[|host|] == ':';
    Untrimmed(p);
    Untrimmed(host);
    LastColon(host, port);
    assert p[..|host|] == host;
    FreeNotIn(host, ':');
    FreeNotIn(p, '[');
    FreeNotIn(p, ']');
  }

  lemma Untrimmed(s: string)
    requires NoSpace(s)
    ensures TrimSpace(s) == s
  {
  }

  lemma LastColon(host: string, port: string)
    requires Free(port, ':')
    ensures LastIndex(host + ":" + port, ':') == |host|
    ensures Free(host, ':') ==> LastIndex(host, ':') == -1
  {
    LastIndexUnique(host + ":" + port, ':', |host|);
  }
}
