/** Reading `iscsiadm -m session -P 3`: parseSessions, and the listing it undoes. */
module IscsiSessions {
  import opened Base
  import opened Text

  datatype Session = Session(iqn: string, portal: string, lun: int, device: string)

  function FirstField(s: string): string
  {
    var f := Fields(s);
    if |f| > 0 then f[0] else ""
  }

  function StripTPGT(portal: string): string
  {
    portal[..IndexOf(portal, ',')]
  }

  /** The field after the first field equal to `key`, when there is one. */
  function FieldAfter(fields: seq<string>, key: string): Option<string>
  {
    if |fields| < 2 then None
    else if fields[0] == key then Some(fields[1])
    else FieldAfter(fields[1..], key)
  }

  function LunOf(line: string): Option<int>
  {
    match FieldAfter(Fields(line), "Lun:")
    case Some(f) => Atoi(f)
    case None => None
  }

  function AttachedDisk(line: string): string
  {
    match FieldAfter(Fields(line), "disk")
    case Some(f) => f
    case None => ""
  }

  predicate HasLun(line: string)
  {
    Contains(line, "Lun:")
  }

  /** The parser's variables between two lines. */
  datatype Progress = Progress(out: seq<Session>, iqn: string, portal: string, pend: Option<Session>) {
    function Flushed(): seq<Session>
    {
      if pend.Some? then out + [pend.value] else out
    }
  }

  const START := Progress([], "", "", None)

  function Feed(p: Progress, raw: string): Progress
  {
    var line := TrimSpace(raw);
    if "Target:" <= line then Progress(p.Flushed(), FirstField(line[7..]), "", None)
    else if "Current Portal:" <= line then Progress(p.Flushed(), p.iqn, StripTPGT(FirstField(line[15..])), None)
    else if "scsi" <= line && HasLun(line) then
      Progress(p.Flushed(), p.iqn, p.portal,
               if LunOf(line).Some? && p.iqn != "" then Some(Session(p.iqn, p.portal, LunOf(line).value, "")) else None)
    else if "Attached scsi disk" <= line && p.pend.Some? && AttachedDisk(line) != "" then
      p.(pend := Some(p.pend.value.(device := "/dev/" + AttachedDisk(line))))
    else p
  }

  function FeedAll(p: Progress, lines: seq<string>): Progress
    decreases |lines|
  {
    if lines == [] then p else FeedAll(Feed(p, lines[0]), lines[1..])
  }

  lemma {:induction false} FeedAllConcat(p: Progress, a: seq<string>, b: seq<string>)
    ensures FeedAll(p, a + b) == FeedAll(FeedAll(p, a), b)
    decreases |a|
  {
    if a == [] {
      assert a + b == b;
    } else {
      assert (a + b)[1..] == a[1..] + b;
      FeedAllConcat(Feed(p, a[0]), a[1..], b);
    }
  }

  /** What parseSessions yields, line by line. */
  function Parsed(text: string): seq<Session>
  {
    FeedAll(START, Split(text, '\n')).Flushed()
  }

  method ParseSessions(text: string) returns (out: seq<Session>)
    ensures out == Parsed(text)
  {
    out := [];
    var iqn, portal := "", "";
    var pend: Option<Session> := None;
    var lines := Split(text, '\n');
    assert lines[..|lines|] == lines;
    for n := 0 to |lines|
      invariant FeedAll(START, lines[..n]) == Progress(out, iqn, portal, pend)
    {
      assert lines[..n + 1] == lines[..n] + [lines[n]];
      FeedAllConcat(START, lines[..n], [lines[n]]);
      assert FeedAll(Progress(out, iqn, portal, pend), [lines[n]]) == Feed(Progress(out, iqn, portal, pend), lines[n]);
      var line := TrimSpace(lines[n]);
      if "Target:" <= line {
        if pend.Some? { out, pend := out + [pend.value], None; }
        iqn, portal := FirstField(line[7..]), "";
      } else if "Current Portal:" <= line {
        if pend.Some? { out, pend := out + [pend.value], None; }
        portal := StripTPGT(FirstField(line[15..]));
      } else if "scsi" <= line && HasLun(line) {
        if pend.Some? { out, pend := out + [pend.value], None; }
        if LunOf(line).Some? && iqn != "" {
          pend := Some(Session(iqn, portal, LunOf(line).value, ""));
        }
      } else if "Attached scsi disk" <= line && pend.Some? {
        var dev := AttachedDisk(line);
        if dev != "" {
          pend := Some(pend.value.(device := "/dev/" + dev));
        }
      }
    }
    if pend.Some? {
      out := out + [pend.value];
    }
  }

  // ----- The listing -----

  /** One LUN: lines before it, the text up to "Lun:", the number, lines before its disk, the disk. */
  datatype LunEntry = LunEntry(pre: seq<string>, head: string, lun: int, mid: seq<string>, disk: Option<DiskEntry>)
  datatype DiskEntry = DiskEntry(name: string, rest: string)
  datatype PortalEntry = PortalEntry(pre: seq<string>, portal: string, tpgt: string, luns: seq<LunEntry>)
  datatype TargetEntry = TargetEntry(pre: seq<string>, iqn: string, flags: string, portals: seq<PortalEntry>)

  ghost predicate OneLine(s: string)
  {
    Free(s, '\n')
  }

  /** A line that means nothing to the parser. */
  ghost predicate Unrelated(raw: string)
  {
    && OneLine(raw)
    && var line := TrimSpace(raw);
       && !("Target:" <= line)
       && !("Current Portal:" <= line)
       && !("scsi" <= line && HasLun(line))
       && !("Attached scsi disk" <= line)
  }

  ghost predicate AllUnrelated(lines: seq<string>)
  {
    forall i :: 0 <= i < |lines| ==> Unrelated(lines[i])
  }

  ghost predicate Token(s: string)
  {
    s != [] && NoSpace(s)
  }

  ghost predicate GoodLun(e: LunEntry)
  {
    && AllUnrelated(e.pre) && AllUnrelated(e.mid)
    && "scsi" <= e.head && OneLine(e.head) && "Lun:" !in Fields(e.head)
    && MIN_INT64 <= e.lun <= MAX_INT64
    && (e.disk.Some? ==> Token(e.disk.value.name) && Breaks(e.disk.value.rest) && OneLine(e.disk.value.rest))
  }

  ghost predicate GoodPortal(e: PortalEntry)
  {
    && AllUnrelated(e.pre) && NoSpace(e.portal) && Free(e.portal, ',') && NoSpace(e.tpgt)
    && forall i :: 0 <= i < |e.luns| ==> GoodLun(e.luns[i])
  }

  ghost predicate GoodTarget(e: TargetEntry)
  {
    && AllUnrelated(e.pre) && Token(e.iqn) && Breaks(e.flags) && OneLine(e.flags)
    && forall i :: 0 <= i < |e.portals| ==> GoodPortal(e.portals[i])
  }

  ghost predicate GoodTargets(ts: seq<TargetEntry>)
  {
    forall i :: 0 <= i < |ts| ==> GoodTarget(ts[i])
  }

  function DiskLine(d: DiskEntry): string
  {
    "\t\t\t" + ("Attached scsi disk" + (" " + d.name + d.rest))
  }

  function LunLine(e: LunEntry): string
  {
    "\t\t" + (e.head + (" Lun: " + Itoa(e.lun)))
  }

  function PortalLine(e: PortalEntry): string
  {
    "\t" + ("Current Portal:" + (" " + (e.portal + "," + e.tpgt)))
  }

  function TargetLine(e: TargetEntry): string
  {
    "Target:" + (" " + e.iqn + e.flags)
  }

  function PrintLun(e: LunEntry): seq<string>
  {
    e.pre + [LunLine(e)] + e.mid + (if e.disk.Some? then [DiskLine(e.disk.value)] else [])
  }

  function PrintLuns(es: seq<LunEntry>): seq<string>
  {
    if es == [] then [] else PrintLun(es[0]) + PrintLuns(es[1..])
  }

  function PrintPortals(es: seq<PortalEntry>): seq<string>
  {
    if es == [] then [] else es[0].pre + [PortalLine(es[0])] + PrintLuns(es[0].luns) + PrintPortals(es[1..])
  }

  function PrintTargets(es: seq<TargetEntry>): seq<string>
  {
    if es == [] then [] else es[0].pre + [TargetLine(es[0])] + PrintPortals(es[0].portals) + PrintTargets(es[1..])
  }

  function DeviceOf(e: LunEntry): string
  {
    if e.disk.Some? then "/dev/" + e.disk.value.name else ""
  }

  /** One session per LUN line, in order. */
  function LunSessions(iqn: string, portal: string, es: seq<LunEntry>): seq<Session>
  {
    if es == [] then [] else [Session(iqn, portal, es[0].lun, DeviceOf(es[0]))] + LunSessions(iqn, portal, es[1..])
  }

  function PortalSessions(iqn: string, es: seq<PortalEntry>): seq<Session>
  {
    if es == [] then [] else LunSessions(iqn, es[0].portal, es[0].luns) + PortalSessions(iqn, es[1..])
  }

  function TargetSessions(es: seq<TargetEntry>): seq<Session>
  {
    if es == [] then [] else PortalSessions(es[0].iqn, es[0].portals) + TargetSessions(es[1..])
  }

  // ----- Single lines -----

  lemma {:induction false} FeedUnrelated(p: Progress, lines: seq<string>)
    requires AllUnrelated(lines)
    ensures FeedAll(p, lines) == p
  {
    if lines != [] {
      assert Unrelated(lines[0]);
      FeedUnrelated(p, lines[1..]);
    }
  }

  /** A printed line trims to its keyword followed by the rest, trimmed on the right. */
  lemma TrimLine(ind: string, key: string, body: string, n: nat)
    requires AllSpace(ind) && key != [] && !IsSpace(key[0]) && n < |body| && !IsSpace(body[n])
    ensures TrimSpace(ind + (key + body)) == key + TrimRight(body)
    ensures key <= TrimSpace(ind + (key + body))
    ensures TrimSpace(ind + (key + body))[|key|..] == TrimRight(body)
  {
    TrimLeftSpaces(ind, key + body);
    assert TrimLeft(key + body) == key + body;
    TrimRightNonEmpty(body, n);
    TrimRightConcat(key, body);
  }

  lemma FirstFieldOf(tok: string, rest: string)
    requires Token(tok) && Breaks(rest)
    ensures FirstField(TrimRight(" " + tok + rest)) == tok
  {
    FieldsTrimRight(" " + tok + rest);
    FieldsToken(" ", tok, rest);
  }

  lemma FeedTarget(p: Progress, e: TargetEntry)
    requires Token(e.iqn) && Breaks(e.flags)
    ensures Feed(p, TargetLine(e)) == Progress(p.Flushed(), e.iqn, "", None)
  {
    var body := " " + e.iqn + e.flags;
    assert body[1] == e.iqn[0];
    TrimLine("", "Target:", body, 1);
    assert "" + ("Target:" + body) == TargetLine(e);
    FirstFieldOf(e.iqn, e.flags);
  }

  lemma FeedPortal(p: Progress, e: PortalEntry)
    requires NoSpace(e.portal) && Free(e.portal, ',') && NoSpace(e.tpgt)
    ensures Feed(p, PortalLine(e)) == Progress(p.Flushed(), p.iqn, e.portal, None)
  {
    hide Fields, TrimLeft, TrimRight, IndexOf;
    var tok := e.portal + "," + e.tpgt;
    var body := " " + tok;
    assert body[|e.portal| + 1] == ',';
    TrimLine("\t", "Current Portal:", body, |e.portal| + 1);
    assert tok + "" == tok;
    FirstFieldOf(tok, "");
    assert " " + tok + "" == body;
    IndexOfAfter(e.portal, ',', e.tpgt);
  }

  lemma {:induction false} FieldAfterSkips(a: seq<string>, key: string, v: string, rest: seq<string>)
    requires key !in a
    ensures FieldAfter(a + [key, v] + rest, key) == Some(v)
  {
    var f := a + [key, v] + rest;
    if a != [] {
      assert f[1..] == a[1..] + [key, v] + rest;
      FieldAfterSkips(a[1..], key, v, rest);
    }
  }

  lemma LunFields(head: string, n: string)
    requires Token(n)
    ensures Fields(head + (" Lun: " + n)) == Fields(head) + ["Lun:", n]
  {
    FieldsConcat(head, " Lun: " + n);
    assert " Lun: " + n == " " + "Lun:" + (" " + n);
    FieldsToken(" ", "Lun:", " " + n);
    assert " " + n == " " + n + "";
    FieldsToken(" ", n, "");
    assert Fields("") == [];
  }

  lemma FeedLun(p: Progress, e: LunEntry)
    requires "scsi" <= e.head && "Lun:" !in Fields(e.head) && MIN_INT64 <= e.lun <= MAX_INT64 && p.iqn != ""
    ensures Feed(p, LunLine(e)) == Progress(p.Flushed(), p.iqn, p.portal, Some(Session(p.iqn, p.portal, e.lun, "")))
  {
    hide Fields, TrimLeft, TrimRight, IndexOf, Itoa, Atoi, FieldAfter;
    var n := Itoa(e.lun);
    var body := " Lun: " + n;
    var line := e.head + body;
    assert !IsSpace(n[|n| - 1]) && body[|body| - 1] == n[|n| - 1];
    TrimLine("\t\t", e.head, body, |body| - 1);
    TrimRightKeeps(body);
    assert OccursAt(line, "Lun:", |e.head| + 1);
    LunFields(e.head, n);
    assert Fields(line) == Fields(e.head) + ["Lun:", n] + [];
    FieldAfterSkips(Fields(e.head), "Lun:", n, []);
    ItoaRoundTrip(e.lun);
    assert line[0] == 's';
  }

  lemma DiskFields(d: DiskEntry)
    requires Token(d.name) && Breaks(d.rest)
    ensures Fields("Attached scsi disk" + (" " + d.name + d.rest))
         == ["Attached", "scsi", "disk", d.name] + Fields(d.rest)
  {
    hide Fields;
    var tail := " " + d.name + d.rest;
    FieldsToken(" ", d.name, d.rest);
    FieldsToken(" ", "disk", tail);
    FieldsToken(" ", "scsi", " disk" + tail);
    FieldsToken("", "Attached", " scsi" + (" disk" + tail));
    assert "" + "Attached" + (" scsi" + (" disk" + tail)) == "Attached scsi disk" + tail;
    assert " " + "scsi" + (" disk" + tail) == " scsi" + (" disk" + tail);
    assert " " + "disk" + tail == " disk" + tail;
  }

  lemma FeedDiskCase(p: Progress, raw: string, dev: string)
    requires "Attached scsi disk" <= TrimSpace(raw) && p.pend.Some? && dev != ""
    requires AttachedDisk(TrimSpace(raw)) == dev
    ensures Feed(p, raw) == p.(pend := Some(p.pend.value.(device := "/dev/" + dev)))
  {
    hide Fields, TrimLeft, TrimRight, FieldAfter, AttachedDisk;
    assert TrimSpace(raw)[0] == 'A';
  }

  lemma DiskNamed(d: DiskEntry)
    requires Token(d.name) && Breaks(d.rest)
    ensures AttachedDisk("Attached scsi disk" + (" " + d.name + d.rest)) == d.name
  {
    hide Fields, FieldAfter;
    DiskFields(d);
    assert ["Attached", "scsi", "disk", d.name] + Fields(d.rest)
        == ["Attached", "scsi"] + ["disk", d.name] + Fields(d.rest);
    FieldAfterSkips(["Attached", "scsi"], "disk", d.name, Fields(d.rest));
  }

  lemma FeedDisk(p: Progress, d: DiskEntry)
    requires Token(d.name) && Breaks(d.rest) && p.pend.Some?
    ensures Feed(p, DiskLine(d)) == p.(pend := Some(p.pend.value.(device := "/dev/" + d.name)))
  {
    hide Fields, TrimLeft, TrimRight, FieldAfter, Feed;
    var key := "Attached scsi disk";
    var body := " " + d.name + d.rest;
    assert body[1] == d.name[0];
    TrimLine("\t\t\t", key, body, 1);
    TrimRightNonEmpty(body, 1);
    TrimRightConcat(key, body);
    FieldsTrimRight(key + body);
    DiskNamed(d);
    FeedDiskCase(p, DiskLine(d), d.name);
  }

  // ----- Whole listings -----

  lemma FeedNothing(p: Progress)
    ensures FeedAll(p, []) == p
  {
  }

  /** Unrelated lines and then one line: only that line counts. */
  lemma FeedBlock(p: Progress, pre: seq<string>, line: string, rest: seq<string>)
    requires AllUnrelated(pre)
    ensures FeedAll(p, pre + [line] + rest) == FeedAll(Feed(p, line), rest)
  {
    hide Feed;
    FeedAllConcat(p, pre + [line], rest);
    FeedAllConcat(p, pre, [line]);
    FeedUnrelated(p, pre);
  }

  lemma FeedLunEntry(p: Progress, e: LunEntry)
    requires GoodLun(e) && p.iqn != ""
    ensures FeedAll(p, PrintLun(e))
         == Progress(p.Flushed(), p.iqn, p.portal, Some(Session(p.iqn, p.portal, e.lun, DeviceOf(e))))
  {
    hide Feed;
    var last := if e.disk.Some? then [DiskLine(e.disk.value)] else [];
    FeedBlock(p, e.pre, LunLine(e), e.mid + last);
    assert PrintLun(e) == e.pre + [LunLine(e)] + (e.mid + last);
    FeedLun(p, e);
    var q := Feed(p, LunLine(e));
    FeedAllConcat(q, e.mid, last);
    FeedUnrelated(q, e.mid);
    if e.disk.Some? {
      FeedDisk(q, e.disk.value);
    }
  }

  lemma {:induction false} FeedLuns(p: Progress, es: seq<LunEntry>)
    requires p.iqn != "" && forall i :: 0 <= i < |es| ==> GoodLun(es[i])
    ensures var q := FeedAll(p, PrintLuns(es));
            && q.Flushed() == p.Flushed() + LunSessions(p.iqn, p.portal, es)
            && q.iqn == p.iqn && q.portal == p.portal
    decreases |es|
  {
    hide Feed, FeedAll, PrintLun;
    if es == [] {
      FeedNothing(p);
    } else {
      FeedAllConcat(p, PrintLun(es[0]), PrintLuns(es[1..]));
      FeedLunEntry(p, es[0]);
      FeedLuns(FeedAll(p, PrintLun(es[0])), es[1..]);
    }
  }

  lemma {:induction false} FeedPortals(p: Progress, es: seq<PortalEntry>)
    requires p.iqn != "" && forall i :: 0 <= i < |es| ==> GoodPortal(es[i])
    ensures var q := FeedAll(p, PrintPortals(es));
            q.Flushed() == p.Flushed() + PortalSessions(p.iqn, es) && q.iqn == p.iqn
    decreases |es|
  {
    hide Feed, FeedAll, PrintLuns, LunSessions, PortalLine;
    if es == [] {
      FeedNothing(p);
    } else {
      var e := es[0];
      assert GoodPortal(e);
      var after := PrintPortals(es[1..]);
      FeedBlock(p, e.pre, PortalLine(e), PrintLuns(e.luns) + after);
      assert PrintPortals(es) == e.pre + [PortalLine(e)] + (PrintLuns(e.luns) + after);
      FeedPortal(p, e);
      var q := Feed(p, PortalLine(e));
      FeedAllConcat(q, PrintLuns(e.luns), after);
      FeedLuns(q, e.luns);
      FeedPortals(FeedAll(q, PrintLuns(e.luns)), es[1..]);
    }
  }

  lemma {:induction false} FeedTargets(p: Progress, es: seq<TargetEntry>)
    requires GoodTargets(es)
    ensures FeedAll(p, PrintTargets(es)).Flushed() == p.Flushed() + TargetSessions(es)
    decreases |es|
  {
    hide Feed, FeedAll, PrintPortals, PortalSessions, TargetLine;
    if es == [] {
      FeedNothing(p);
    } else {
      var e := es[0];
      assert GoodTarget(e);
      var after := PrintTargets(es[1..]);
      FeedBlock(p, e.pre, TargetLine(e), PrintPortals(e.portals) + after);
      assert PrintTargets(es) == e.pre + [TargetLine(e)] + (PrintPortals(e.portals) + after);
      FeedTarget(p, e);
      var q := Feed(p, TargetLine(e));
      FeedAllConcat(q, PrintPortals(e.portals), after);
      FeedPortals(q, e.portals);
      FeedTargets(FeedAll(q, PrintPortals(e.portals)), es[1..]);
    }
  }

  ghost predicate OneLineEach(lines: seq<string>)
  {
    forall i :: 0 <= i < |lines| ==> OneLine(lines[i])
  }

  lemma PrintLunOneLine(e: LunEntry)
    requires GoodLun(e)
    ensures OneLineEach(PrintLun(e))
  {
    ItoaFree(e.lun, '\n');
    assert OneLine(LunLine(e));
    if e.disk.Some? {
      assert OneLine(DiskLine(e.disk.value));
    }
  }

  lemma {:induction false} PrintLunsOneLine(es: seq<LunEntry>)
    requires forall i :: 0 <= i < |es| ==> GoodLun(es[i])
    ensures OneLineEach(PrintLuns(es))
  {
    if es != [] {
      PrintLunOneLine(es[0]);
      PrintLunsOneLine(es[1..]);
    }
  }

  lemma {:induction false} PrintPortalsOneLine(es: seq<PortalEntry>)
    requires forall i :: 0 <= i < |es| ==> GoodPortal(es[i])
    ensures OneLineEach(PrintPortals(es))
  {
    if es != [] {
      assert GoodPortal(es[0]) && OneLine(PortalLine(es[0]));
      PrintLunsOneLine(es[0].luns);
      PrintPortalsOneLine(es[1..]);
    }
  }

  lemma {:induction false} PrintTargetsOneLine(es: seq<TargetEntry>)
    requires GoodTargets(es)
    ensures OneLineEach(PrintTargets(es))
  {
    if es != [] {
      assert GoodTarget(es[0]) && OneLine(TargetLine(es[0]));
      PrintPortalsOneLine(es[0].portals);
      PrintTargetsOneLine(es[1..]);
    }
  }

  /** parseSessions undoes the listing: whatever unrelated lines stand between and after the
      entries, it yields exactly one session per LUN line, in order, with that LUN's target,
      portal (without its tag), number and disk. */
  lemma ParseUndoesListing(ts: seq<TargetEntry>, tail: seq<string>)
    requires GoodTargets(ts) && AllUnrelated(tail)
    ensures Parsed(Join(PrintTargets(ts) + tail, '\n')) == TargetSessions(ts)
  {
    PrintTargetsOneLine(ts);
    var lines := PrintTargets(ts) + tail;
    assert OneLineEach(lines) by {
      assert forall i :: 0 <= i < |tail| ==> Unrelated(tail[i]);
    }
    if lines == [] {
      assert Split([], '\n') == [[]];
      FeedUnrelated(START, [[]]);
    } else {
      SplitJoin(lines, '\n');
    }
    FeedAllConcat(START, PrintTargets(ts), tail);
    FeedTargets(START, ts);
    FeedUnrelated(FeedAll(START, PrintTargets(ts)), tail);
    assert START.Flushed() == [];
  }
}
