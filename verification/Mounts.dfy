/** Reading `findmnt -rn -o TARGET,SOURCE`: parseMounts and unescapeRaw, and the output they undo. */
module Mounts {
  import opened Base
  import opened Text

  datatype Mount = Mount(target: string, source: string)

  // ----- Hexadecimal escapes -----

  function HexValue(c: char): Option<nat>
  {
    if '0' <= c <= '9' then Some(c as int - '0' as int)
    else if 'a' <= c <= 'f' then Some(c as int - 'a' as int + 10)
    else if 'A' <= c <= 'F' then Some(c as int - 'A' as int + 10)
    else None
  }

  function HexChar(d: nat): char
    requires d < 16
  {
    if d < 10 then ('0' as int + d) as char else ('a' as int + d - 10) as char
  }

  /** The byte a well-formed \xNN at the head of `s` stands for. */
  function EscapeAt(s: string): Option<char>
  {
    if |s| >= 4 && s[0] == '\\' && s[1] == 'x' then
      match (HexValue(s[2]), HexValue(s[3]))
      case (Some(h), Some(l)) => Some((16 * h + l) as char)
      case _ => None
    else None
  }

  /** unescapeRaw: \xNN becomes its byte, everything else stays. */
  function Unescaped(s: string): string
    decreases |s|
  {
    if s == [] then []
    else match EscapeAt(s)
      case Some(c) => [c] + Unescaped(s[4..])
      case None => [s[0]] + Unescaped(s[1..])
  }

  lemma EscapeOccurs(s: string)
    ensures EscapeAt(s).Some? ==> Contains(s, "\\x")
  {
    if EscapeAt(s).Some? {
      assert s[0..2] == "\\x" && OccursAt(s, "\\x", 0);
    }
  }

  lemma OccursInTail(s: string, p: string)
    ensures s != [] && Contains(s[1..], p) ==> Contains(s, p)
  {
    if s != [] && Contains(s[1..], p) {
      var i: nat :| i <= |s[1..]| && OccursAt(s[1..], p, i);
      assert s[i + 1..i + 1 + |p|] == s[1..][i..i + |p|] && OccursAt(s, p, i + 1);
    }
  }

  lemma {:induction false} UnescapedVerbatim(s: string)
    requires !Contains(s, "\\x")
    ensures Unescaped(s) == s
  {
    hide Contains, EscapeAt;
    if s != [] {
      EscapeOccurs(s);
      OccursInTail(s, "\\x");
      UnescapedVerbatim(s[1..]);
    }
  }

  method UnescapeRaw(s: string) returns (out: string)
    ensures out == Unescaped(s)
  {
    if !Contains(s, "\\x") {
      UnescapedVerbatim(s);
      return s;
    }
    out := [];
    var i := 0;
    assert s[0..] == s;
    while i < |s|
      invariant 0 <= i <= |s|
      invariant Unescaped(s) == out + Unescaped(s[i..])
    {
      var rest := s[i..];
      if i + 3 < |s| && s[i] == '\\' && s[i + 1] == 'x' {
        var h, l := HexValue(s[i + 2]), HexValue(s[i + 3]);
        if h.Some? && l.Some? {
          assert EscapeAt(rest) == Some((16 * h.value + l.value) as char) && rest[4..] == s[i + 4..];
          out := out + [(16 * h.value + l.value) as char];
          i := i + 4;
          continue;
        }
      }
      assert EscapeAt(rest).None? && rest[1..] == s[i + 1..];
      out := out + [s[i]];
      i := i + 1;
    }
  }

  // ----- Lines -----

  function MountOf(line: string): Mount
  {
    var i := IndexOf(line, ' ');
    if i == |line| then Mount(Unescaped(line), "")
    else Mount(Unescaped(line[..i]), Unescaped(TrimSpace(line[i + 1..])))
  }

  function MountsOf(lines: seq<string>): seq<Mount>
  {
    if lines == [] then []
    else
      var line := TrimSpace(lines[|lines| - 1]);
      MountsOf(lines[..|lines| - 1]) + if line == "" then [] else [MountOf(line)]
  }

  /** What parseMounts yields. */
  function Parsed(text: string): seq<Mount>
  {
    MountsOf(Split(text, '\n'))
  }

  method ParseMounts(text: string) returns (out: seq<Mount>)
    ensures out == Parsed(text)
  {
    out := [];
    var lines := Split(text, '\n');
    for n := 0 to |lines|
      invariant out == MountsOf(lines[..n])
    {
      assert lines[..n + 1][..n] == lines[..n];
      var line := TrimSpace(lines[n]);
      if line == "" {
        continue;
      }
      var i := IndexOf(line, ' ');
      var target := UnescapeRaw(line[..i]);
      assert line[..|line|] == line;
      var source := "";
      if i < |line| {
        source := UnescapeRaw(TrimSpace(line[i + 1..]));
      }
      out := out + [Mount(target, source)];
    }
    assert lines[..|lines|] == lines;
  }

  // ----- The output -----

  ghost predicate Bytes(s: string)
  {
    forall i :: 0 <= i < |s| ==> s[i] as int < 256
  }

  /** findmnt's raw output escapes at least the backslash and all white space; `unsafe` is
      whatever else it escapes. */
  ghost predicate EscapesEnough(unsafe: set<char>)
  {
    '\\' in unsafe && forall c: char :: IsSpace(c) ==> c in unsafe
  }

  function EscapeChar(c: char, unsafe: set<char>): string
    requires c as int < 256
  {
    if c in unsafe then ['\\', 'x', HexChar(c as int / 16), HexChar(c as int % 16)] else [c]
  }

  function Escape(s: string, unsafe: set<char>): string
    requires Bytes(s)
  {
    if s == [] then [] else EscapeChar(s[0], unsafe) + Escape(s[1..], unsafe)
  }

  lemma EscapedChar(c: char, unsafe: set<char>, rest: string)
    requires c as int < 256 && '\\' in unsafe
    ensures Unescaped(EscapeChar(c, unsafe) + rest) == [c] + Unescaped(rest)
  {
    var s := EscapeChar(c, unsafe) + rest;
    if c in unsafe {
      assert HexValue(s[2]) == Some(c as int / 16) && HexValue(s[3]) == Some(c as int % 16);
      assert s[4..] == rest;
    } else {
      assert s[1..] == rest;
    }
  }

  /** Unescaping undoes escaping on every byte string, whatever else was escaped. */
  lemma {:induction false} UnescapeUndoesEscape(s: string, unsafe: set<char>)
    requires Bytes(s) && '\\' in unsafe
    ensures Unescaped(Escape(s, unsafe)) == s
  {
    if s != [] {
      EscapedChar(s[0], unsafe, Escape(s[1..], unsafe));
      UnescapeUndoesEscape(s[1..], unsafe);
    }
  }

  lemma {:induction false} EscapedHasNoSpace(s: string, unsafe: set<char>)
    requires Bytes(s) && EscapesEnough(unsafe)
    ensures NoSpace(Escape(s, unsafe))
    ensures s != [] ==> Escape(s, unsafe) != []
  {
    if s != [] {
      EscapedHasNoSpace(s[1..], unsafe);
      assert NoSpace(EscapeChar(s[0], unsafe));
    }
  }

  ghost predicate GoodMount(m: Mount)
  {
    m.target != [] && Bytes(m.target) && Bytes(m.source)
  }

  function MountLine(m: Mount, unsafe: set<char>): string
    requires Bytes(m.target) && Bytes(m.source)
  {
    Escape(m.target, unsafe) + " " + Escape(m.source, unsafe)
  }

  lemma TrimNoSpace(s: string)
    requires NoSpace(s)
    ensures TrimSpace(s) == s
  {
  }

  lemma TrimPair(a: string, b: string)
    requires NoSpace(a) && a != [] && NoSpace(b)
    ensures TrimSpace(a + " " + b) == if b == [] then a else a + " " + b
  {
    var s := a + " " + b;
    assert TrimLeft(s) == s;
    if b == [] {
      assert s[..|s| - 1] == a;
      TrimRightKeeps(a);
    } else {
      assert s[|s| - 1] == b[|b| - 1];
      TrimRightKeeps(s);
    }
  }

  lemma LineParses(m: Mount, unsafe: set<char>)
    requires GoodMount(m) && EscapesEnough(unsafe)
    ensures var line := TrimSpace(MountLine(m, unsafe)); line != [] && MountOf(line) == m
  {
    hide TrimLeft, TrimRight, Escape, Unescaped, IndexOf;
    var a, b := Escape(m.target, unsafe), Escape(m.source, unsafe);
    EscapedHasNoSpace(m.target, unsafe);
    EscapedHasNoSpace(m.source, unsafe);
    UnescapeUndoesEscape(m.target, unsafe);
    UnescapeUndoesEscape(m.source, unsafe);
    TrimPair(a, b);
    if b == [] {
      IndexOfFree(a, ' ');
      EscapeEmpty(m.source, unsafe);
    } else {
      IndexOfAfter(a, ' ', b);
      TrimNoSpace(b);
    }
  }

  lemma EscapeEmpty(s: string, unsafe: set<char>)
    requires Bytes(s) && Escape(s, unsafe) == []
    ensures s == []
  {
  }

  ghost predicate GoodMounts(ms: seq<Mount>)
  {
    forall i :: 0 <= i < |ms| ==> GoodMount(ms[i])
  }

  ghost function MountLines(ms: seq<Mount>, unsafe: set<char>): (lines: seq<string>)
    requires GoodMounts(ms)
    ensures |lines| == |ms| && forall i :: 0 <= i < |ms| ==> lines[i] == MountLine(ms[i], unsafe)
  {
    if ms == [] then []
    else
      var n := |ms| - 1;
      assert GoodMount(ms[n]);
      MountLines(ms[..n], unsafe) + [MountLine(ms[n], unsafe)]
  }

  lemma {:induction false} LinesParse(ms: seq<Mount>, unsafe: set<char>)
    requires EscapesEnough(unsafe) && GoodMounts(ms)
    ensures MountsOf(MountLines(ms, unsafe)) == ms
  {
    hide MountOf, MountLine, TrimSpace;
    if ms != [] {
      var n := |ms| - 1;
      LinesParse(ms[..n], unsafe);
      LineParses(ms[n], unsafe);
      assert MountLines(ms, unsafe)[..n] == MountLines(ms[..n], unsafe);
      assert ms == ms[..n] + [ms[n]];
    }
  }

  /** parseMounts undoes findmnt's raw output, with or without the final newline. */
  lemma ParseUndoesFindmnt(ms: seq<Mount>, unsafe: set<char>, newline: bool)
    requires EscapesEnough(unsafe) && GoodMounts(ms)
    ensures Parsed(Join(MountLines(ms, unsafe) + (if newline then [""] else []), '\n')) == ms
  {
    hide MountOf, MountLine, TrimSpace, Unescaped, Split, Join, MountLines;
    var body := MountLines(ms, unsafe);
    var lines := body + (if newline then [""] else []);
    LinesParse(ms, unsafe);
    LinesHaveNoNewline(ms, unsafe);
    BlankLast(body);
    if lines == [] {
      NoLines();
    } else {
      SplitJoin(lines, '\n');
      assert !newline ==> lines == body;
    }
  }

  lemma LinesHaveNoNewline(ms: seq<Mount>, unsafe: set<char>)
    requires EscapesEnough(unsafe) && GoodMounts(ms)
    ensures forall i :: 0 <= i < |ms| ==> Free(MountLines(ms, unsafe)[i], '\n')
  {
    forall i | 0 <= i < |ms|
      ensures Free(MountLines(ms, unsafe)[i], '\n')
    {
      EscapedHasNoSpace(ms[i].target, unsafe);
      EscapedHasNoSpace(ms[i].source, unsafe);
    }
  }

  lemma BlankLast(body: seq<string>)
    ensures MountsOf(body + [""]) == MountsOf(body)
  {
    assert (body + [""])[..|body|] == body;
  }

  lemma NoLines()
    ensures Parsed(Join([], '\n')) == []
  {
    assert Split("", '\n') == [""];
    BlankLast([]);
  }
}
