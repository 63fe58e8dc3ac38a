/** The volume and snapshot ids of the local backend. */
module LocalId {
  import opened Text
  import opened Driver

  datatype ExternalID = ExternalID(node: string, dataset: string)
  datatype SnapshotID = SnapshotID(node: string, dataset: string, snapName: string)

  function PrintExternalID(e: ExternalID): string
  {
    "local/v1" + "/" + e.node + "/" + e.dataset
  }

  function PrintSnapshotID(s: SnapshotID): string
  {
    "locals/v1" + "/" + s.node + "/" + s.dataset + "/" + s.snapName
  }

  predicate HasPair(s: string, a: char, b: char)
  {
    exists i :: 0 <= i < |s| - 1 && s[i] == a && s[i + 1] == b
  }

  /** At least one segment beyond the pool; no leading, trailing or double slash; no "..". */
  predicate ValidDataset(ds: string)
  {
    && '/' in ds
    && ds[0] != '/'
    && ds[|ds| - 1] != '/'
    && !HasPair(ds, '/', '/')
    && !HasPair(ds, '.', '.')
  }

  function ParseExternalID(id: string): Result<ExternalID>
  {
    var parts := SplitN(id, '/', 4);
    if |parts| != 4 || parts[0] != "local" || parts[1] != "v1" || parts[2] == "" then Err(CodeInvalidArgument)
    else if !ValidDataset(parts[3]) then Err(CodeInvalidArgument)
    else Ok(ExternalID(parts[2], parts[3]))
  }

  function ParseSnapshotID(id: string): Result<SnapshotID>
  {
    var parts := SplitN(id, '/', 4);
    if |parts| != 4 || parts[0] != "locals" || parts[1] != "v1" || parts[2] == "" || parts[3] == "" then
      Err(CodeInvalidArgument)
    else
      var rest := parts[3];
      var i := LastIndex(rest, '/');
      if i <= 0 || i == |rest| - 1 then Err(CodeInvalidArgument)
      else if !ValidDataset(rest[..i]) then Err(CodeInvalidArgument)
      else Ok(SnapshotID(parts[2], rest[..i], rest[i + 1..]))
  }

  ghost predicate Segment(s: string)
  {
    s != [] && Free(s, '/')
  }

  ghost predicate GoodExternalID(e: ExternalID)
  {
    Segment(e.node) && ValidDataset(e.dataset)
  }

  ghost predicate GoodSnapshotID(s: SnapshotID)
  {
    Segment(s.node) && ValidDataset(s.dataset) && Segment(s.snapName)
  }

  lemma FourParts(a: string, b: string, c: string, rest: string)
    requires Free(a, '/') && Free(b, '/') && Free(c, '/')
    ensures SplitN(a + "/" + (b + "/" + (c + "/" + rest)), '/', 4) == [a, b, c, rest]
  {
    hide IndexOf, Free;
    IndexOfAfter(c, '/', rest);
    IndexOfAfter(b, '/', c + "/" + rest);
    IndexOfAfter(a, '/', b + "/" + (c + "/" + rest));
  }

  lemma JoinFour(parts: seq<string>)
    requires |parts| == 4
    ensures Join(parts, '/') == parts[0] + "/" + (parts[1] + "/" + (parts[2] + "/" + parts[3]))
  {
    assert parts[1..][1..] == parts[2..] && parts[2..][1..] == parts[3..];
    assert Join(parts[3..], '/') == parts[3];
    assert Join(parts[2..], '/') == parts[2] + "/" + parts[3];
    assert Join(parts[1..], '/') == parts[1] + "/" + Join(parts[2..], '/');
  }

  lemma PrintedExternal(e: ExternalID)
    ensures PrintExternalID(e) == "local" + "/" + ("v1" + "/" + (e.node + "/" + e.dataset))
  {
  }

  lemma PrintedSnapshot(s: SnapshotID)
    ensures PrintSnapshotID(s) == "locals" + "/" + ("v1" + "/" + (s.node + "/" + (s.dataset + "/" + s.snapName)))
  {
  }

  /** A string is accepted, as `e`, exactly when `e` is well formed and prints as that string. */
  lemma ExternalIDCodec(id: string, e: ExternalID)
    ensures ParseExternalID(id) == Ok(e) <==> GoodExternalID(e) && PrintExternalID(e) == id
  {
    PrintedExternal(e);
    if GoodExternalID(e) && PrintExternalID(e) == id {
      FourParts("local", "v1", e.node, e.dataset);
    }
    if ParseExternalID(id) == Ok(e) {
      JoinSplitN(id, '/', 4);
      JoinFour(SplitN(id, '/', 4));
    }
  }

  lemma CutBack(rest: string)
    requires LastIndex(rest, '/') >= 0
    ensures var i := LastIndex(rest, '/');
            rest == rest[..i] + "/" + rest[i + 1..] && Free(rest[i + 1..], '/')
  {
  }

  lemma ParsePrintSnapshot(s: SnapshotID)
    requires GoodSnapshotID(s)
    ensures ParseSnapshotID(PrintSnapshotID(s)) == Ok(s)
  {
    PrintedSnapshot(s);
    FourParts("locals", "v1", s.node, s.dataset + "/" + s.snapName);
    CutLast(s.dataset, s.snapName);
  }

  lemma PrintParseSnapshot(id: string, s: SnapshotID)
    requires ParseSnapshotID(id) == Ok(s)
    ensures GoodSnapshotID(s) && PrintSnapshotID(s) == id
  {
    var parts := SplitN(id, '/', 4);
    JoinSplitN(id, '/', 4);
    JoinFour(parts);
    PrintedSnapshot(s);
    CutBack(parts[3]);
  }

  /** A string is accepted, as `s`, exactly when `s` is well formed and prints as that string. */
  lemma SnapshotIDCodec(id: string, s: SnapshotID)
    ensures ParseSnapshotID(id) == Ok(s) <==> GoodSnapshotID(s) && PrintSnapshotID(s) == id
  {
    if ParseSnapshotID(id) == Ok(s) {
      PrintParseSnapshot(id, s);
    }
    if GoodSnapshotID(s) && PrintSnapshotID(s) == id {
      ParsePrintSnapshot(s);
    }
  }

  /** No string is both a volume id and a snapshot id. */
  lemma IdsDisjoint(id: string)
    ensures ParseExternalID(id).Err? || ParseSnapshotID(id).Err?
  {
    assert |"local"| != |"locals"|;
  }

  // ----- Names -----

  const NAME_LIMIT: nat := 200

  predicate NameChar(c: char)
  {
    'A' <= c <= 'Z' || 'a' <= c <= 'z' || '0' <= c <= '9' || c == '_' || c == '-' || c == '.' || c == ':'
  }

  ghost function CleanChar(c: char): char
  {
    if NameChar(c) then c else '-'
  }

  /** sanitizeName, character by character. */
  ghost function Sanitized(name: string): (r: string)
    ensures |r| == if |name| < NAME_LIMIT then |name| else NAME_LIMIT
    ensures forall i :: 0 <= i < |r| ==> NameChar(r[i])
  {
    seq(if |name| < NAME_LIMIT then |name| else NAME_LIMIT, i requires 0 <= i < |name| => CleanChar(name[i]))
  }

  method SanitizeName(name: string) returns (out: string)
    ensures out == Sanitized(name)
  {
    var b: string := [];
    for i := 0 to |name|
      invariant |b| == i && forall k :: 0 <= k < i ==> b[k] == CleanChar(name[k])
    {
      if NameChar(name[i]) {
        b := b + [name[i]];
      } else {
        b := b + ['-'];
      }
    }
    out := b;
    if |out| > NAME_LIMIT {
      out := out[..NAME_LIMIT];
    }
  }

  lemma SanitizedTwice(name: string)
    ensures Sanitized(Sanitized(name)) == Sanitized(name)
  {
  }

  ghost predicate GoodParent(parent: string)
  {
    parent != [] && parent[0] != '/' && parent[|parent| - 1] != '/' && !HasPair(parent, '/', '/')
        && !HasPair(parent, '.', '.')
  }

  lemma DatasetUnder(parent: string, clean: string)
    requires GoodParent(parent) && forall i :: 0 <= i < |clean| ==> NameChar(clean[i])
    ensures ValidDataset(parent + "/" + clean) <==> clean != [] && !HasPair(clean, '.', '.')
  {
    var ds := parent + "/" + clean;
    var m := |parent|;
    assert ds[m] == '/' && ds[..m] == parent && ds[m + 1..] == clean;
    if HasPair(clean, '.', '.') {
      var i :| 0 <= i < |clean| - 1 && clean[i] == '.' && clean[i + 1] == '.';
      assert ds[m + 1 + i] == '.' && ds[m + 1 + i + 1] == '.';
    } else if clean != [] {
      forall i | 0 <= i < |ds| - 1
        ensures !(ds[i] == '.' && ds[i + 1] == '.') && !(ds[i] == '/' && ds[i + 1] == '/')
      {
        if i + 1 < m {
          assert ds[i] == parent[i] && ds[i + 1] == parent[i + 1];
        } else if i > m {
          assert ds[i] == clean[i - m - 1] && ds[i + 1] == clean[i - m];
        }
      }
    }
  }

  /** The dataset built for a created volume can be addressed again exactly when the cleaned name
      is not empty and has no "..": sanitizeName keeps dots that validDataset refuses. */
  lemma CreatedIdParses(node: string, parent: string, name: string)
    requires Segment(node) && GoodParent(parent)
    ensures var e := ExternalID(node, parent + "/" + Sanitized(name));
            ParseExternalID(PrintExternalID(e)) == Ok(e) <==> name != [] && !HasPair(Sanitized(name), '.', '.')
  {
    var e := ExternalID(node, parent + "/" + Sanitized(name));
    ExternalIDCodec(PrintExternalID(e), e);
    DatasetUnder(parent, Sanitized(name));
  }

  /** Such a name: on every node the volume gets an id that no later call accepts. */
  lemma DottedNameIsRefused(node: string, parent: string)
    requires Segment(node) && GoodParent(parent)
    ensures ParseExternalID(PrintExternalID(ExternalID(node, parent + "/" + Sanitized("a..b")))).Err?
  {
    hide SplitN;
    var e := ExternalID(node, parent + "/" + Sanitized("a..b"));
    assert Sanitized("a..b")[1] == '.' && Sanitized("a..b")[2] == '.';
    DatasetUnder(parent, Sanitized("a..b"));
    PrintedExternal(e);
    FourParts("local", "v1", node, e.dataset);
  }
}
