/** The string operations the source takes from Go's standard library, with the laws the codecs need. */
module Text {
  import opened Base

  // ----- White space -----

  predicate IsSpace(c: char)
  {
    c == ' ' || c == '\t' || c == '\n' || c == '\r' || c == 11 as char || c == 12 as char
  }

  ghost predicate NoSpace(s: string)
  {
    forall i :: 0 <= i < |s| ==> !IsSpace(s[i])
  }

  ghost predicate AllSpace(s: string)
  {
    forall i :: 0 <= i < |s| ==> IsSpace(s[i])
  }

  function TrimLeft(s: string): (r: string)
    ensures r == [] || !IsSpace(r[0])
    ensures |r| <= |s|
  {
    if s != [] && IsSpace(s[0]) then TrimLeft(s[1..]) else s
  }

  function TrimRight(s: string): (r: string)
    ensures |r| <= |s| && r == s[..|r|]
    ensures r == [] || !IsSpace(r[|r| - 1])
    ensures forall i :: |r| <= i < |s| ==> IsSpace(s[i])
  {
    if s != [] && IsSpace(s[|s| - 1]) then TrimRight(s[..|s| - 1]) else s
  }

  function TrimSpace(s: string): string
  {
    TrimRight(TrimLeft(s))
  }

  lemma {:induction false} TrimLeftSpaces(ind: string, s: string)
    requires AllSpace(ind)
    ensures TrimLeft(ind + s) == TrimLeft(s)
  {
    if ind == [] {
      assert ind + s == s;
    } else {
      assert (ind + s)[1..] == ind[1..] + s;
      TrimLeftSpaces(ind[1..], s);
    }
  }

  lemma {:induction false} TrimRightConcat(a: string, b: string)
    requires TrimRight(b) != []
    ensures TrimRight(a + b) == a + TrimRight(b)
  {
    if IsSpace(b[|b| - 1]) {
      assert (a + b)[..|a + b| - 1] == a + b[..|b| - 1];
      TrimRightConcat(a, b[..|b| - 1]);
    }
  }

  lemma TrimRightKeeps(s: string)
    requires s == [] || !IsSpace(s[|s| - 1])
    ensures TrimRight(s) == s
  {
  }

  lemma TrimRightNonEmpty(s: string, i: nat)
    requires i < |s| && !IsSpace(s[i])
    ensures |TrimRight(s)| > i
  {
  }

  lemma SolidEnds(s: string)
    requires s != [] && !IsSpace(s[0]) && !IsSpace(s[|s| - 1])
    ensures TrimSpace(s) == s
  {
  }

  // ----- Fields -----

  function TokenLen(s: string): (n: nat)
    ensures n <= |s|
    ensures forall i :: 0 <= i < n ==> !IsSpace(s[i])
    ensures n < |s| ==> IsSpace(s[n])
  {
    if s == [] || IsSpace(s[0]) then 0 else 1 + TokenLen(s[1..])
  }

  /** strings.Fields: the maximal runs of non-space characters. */
  function Fields(s: string): seq<string>
    decreases |s|
  {
    var t := TrimLeft(s);
    if t == [] then [] else [t[..TokenLen(t)]] + Fields(t[TokenLen(t)..])
  }

  ghost predicate Breaks(s: string)
  {
    s == [] || IsSpace(s[0])
  }

  lemma TokenLenIs(tok: string, rest: string)
    requires NoSpace(tok) && Breaks(rest)
    ensures TokenLen(tok + rest) == |tok|
    ensures (tok + rest)[..|tok|] == tok && (tok + rest)[|tok|..] == rest
  {
  }

  lemma FieldsToken(ind: string, tok: string, rest: string)
    requires AllSpace(ind) && NoSpace(tok) && tok != [] && Breaks(rest)
    ensures Fields(ind + tok + rest) == [tok] + Fields(rest)
  {
    assert ind + tok + rest == ind + (tok + rest);
    TrimLeftSpaces(ind, tok + rest);
    TokenLenIs(tok, rest);
    assert TrimLeft(tok + rest) == tok + rest;
  }

  lemma FieldsSkip(s: string)
    requires s != [] && IsSpace(s[0])
    ensures Fields(s) == Fields(s[1..])
  {
    assert TrimLeft(s) == TrimLeft(s[1..]);
  }

  lemma FieldsHead(s: string)
    requires s != [] && !IsSpace(s[0])
    ensures TokenLen(s) >= 1 && Fields(s) == [s[..TokenLen(s)]] + Fields(s[TokenLen(s)..])
  {
    assert TrimLeft(s) == s;
  }

  lemma FieldsConcatHead(a: string, b: string)
    requires a != [] && !IsSpace(a[0]) && Breaks(b)
    ensures Fields(a + b) == [a[..TokenLen(a)]] + Fields(a[TokenLen(a)..] + b)
  {
    hide Fields, TokenLen, TrimLeft;
    var n := TokenLen(a);
    var rest := a[n..] + b;
    assert a + b == a[..n] + rest;
    TokenLenIs(a[..n], rest);
    FieldsHead(a + b);
  }

  /** Text that starts with a space adds its own fields. */
  lemma {:induction false} FieldsConcat(a: string, b: string)
    requires Breaks(b)
    ensures Fields(a + b) == Fields(a) + Fields(b)
    decreases |a|
  {
    if a == [] {
      assert a + b == b;
    } else if IsSpace(a[0]) {
      assert (a + b)[1..] == a[1..] + b;
      FieldsConcat(a[1..], b);
      FieldsSkip(a);
      FieldsSkip(a + b);
    } else {
      FieldsHead(a);
      FieldsConcat(a[TokenLen(a)..], b);
      FieldsConcatHead(a, b);
    }
  }

  lemma {:induction false} FieldsTrimRight(s: string)
    ensures Fields(TrimRight(s)) == Fields(s)
  {
    var r := TrimRight(s);
    assert s == r + s[|r|..];
    if |r| < |s| {
      FieldsConcat(r, s[|r|..]);
      FieldsBlank(s[|r|..]);
    }
  }

  lemma {:induction false} FieldsBlank(s: string)
    requires AllSpace(s)
    ensures Fields(s) == []
  {
    TrimLeftSpaces(s, "");
    assert s + "" == s;
  }

  // ----- Splitting on one character -----

  ghost predicate Free(s: string, c: char)
  {
    forall i :: 0 <= i < |s| ==> s[i] != c
  }

  /** The position of the first `c`, or the length of `s`. */
  function IndexOf(s: string, c: char): (n: nat)
    ensures n <= |s|
    ensures Free(s[..n], c)
    ensures n < |s| ==> s[n] == c
  {
    if s == [] || s[0] == c then 0
    else
      var n := IndexOf(s[1..], c);
      assert forall i :: 0 <= i < n + 1 ==> s[..n + 1][i] == s[i] && (i > 0 ==> s[i] == s[1..][..n][i - 1]);
      1 + n
  }

  /** strings.SplitN with a one-character separator and n >= 1. */
  function SplitN(s: string, c: char, n: nat): (parts: seq<string>)
    requires n >= 1
    ensures 1 <= |parts| <= n
    decreases n
  {
    var i := IndexOf(s, c);
    if n == 1 || i == |s| then [s] else [s[..i]] + SplitN(s[i + 1..], c, n - 1)
  }

  /** strings.Split with a one-character separator. */
  function Split(s: string, c: char): (parts: seq<string>)
    ensures |parts| >= 1
    decreases |s|
  {
    var i := IndexOf(s, c);
    if i == |s| then [s] else [s[..i]] + Split(s[i + 1..], c)
  }

  function Join(parts: seq<string>, c: char): string
  {
    if parts == [] then []
    else if |parts| == 1 then parts[0]
    else parts[0] + [c] + Join(parts[1..], c)
  }

  lemma IndexOfAfter(a: string, c: char, rest: string)
    requires Free(a, c)
    ensures IndexOf(a + [c] + rest, c) == |a|
    ensures (a + [c] + rest)[..|a|] == a && (a + [c] + rest)[|a| + 1..] == rest
  {
    var s := a + [c] + rest;
    assert s[|a|] == c;
  }

  lemma IndexOfFree(a: string, c: char)
    requires Free(a, c)
    ensures IndexOf(a, c) == |a|
  {
  }

  lemma SplitPart(a: string, c: char, rest: string)
    requires Free(a, c)
    ensures Split(a + [c] + rest, c) == [a] + Split(rest, c)
  {
    IndexOfAfter(a, c, rest);
  }

  lemma SplitLast(a: string, c: char)
    requires Free(a, c)
    ensures Split(a, c) == [a]
  {
    IndexOfFree(a, c);
  }

  lemma {:induction false} SplitJoin(parts: seq<string>, c: char)
    requires parts != [] && forall i :: 0 <= i < |parts| ==> Free(parts[i], c)
    ensures Split(Join(parts, c), c) == parts
  {
    if |parts| == 1 {
      SplitLast(parts[0], c);
    } else {
      SplitPart(parts[0], c, Join(parts[1..], c));
      SplitJoin(parts[1..], c);
    }
  }

  /** Every part of a split is free of the separator. */
  lemma {:induction false} SplitFree(s: string, c: char, k: nat)
    requires k < |Split(s, c)|
    ensures Free(Split(s, c)[k], c)
    decreases |s|
  {
    var i := IndexOf(s, c);
    if i == |s| {
      assert s[..i] == s;
    } else if k > 0 {
      SplitFree(s[i + 1..], c, k - 1);
    }
  }

  lemma {:induction false} JoinSplitN(s: string, c: char, n: nat)
    requires n >= 1
    ensures Join(SplitN(s, c, n), c) == s
    ensures forall i :: 0 <= i < |SplitN(s, c, n)| - 1 ==> Free(SplitN(s, c, n)[i], c)
    decreases n
  {
    hide IndexOf, Free;
    var i := IndexOf(s, c);
    if n > 1 && i < |s| {
      JoinSplitN(s[i + 1..], c, n - 1);
      assert SplitN(s, c, n)[1..] == SplitN(s[i + 1..], c, n - 1);
      assert s == s[..i] + [c] + s[i + 1..];
    }
  }

  // ----- The last separator -----

  /** strings.LastIndexByte. */
  function LastIndex(s: string, c: char): (i: int)
    ensures -1 <= i < |s|
    ensures i >= 0 ==> s[i] == c
    ensures forall k :: i < k < |s| ==> s[k] != c
  {
    if s == [] then -1
    else if s[|s| - 1] == c then |s| - 1
    else LastIndex(s[..|s| - 1], c)
  }

  lemma LastIndexUnique(s: string, c: char, n: nat)
    requires n < |s| && s[n] == c && forall k :: n < k < |s| ==> s[k] != c
    ensures LastIndex(s, c) == n
  {
  }

  lemma CutLast(a: string, b: string)
    requires Free(b, '/')
    ensures var rest := a + "/" + b;
            LastIndex(rest, '/') == |a| && rest[..|a|] == a && rest[|a| + 1..] == b
  {
    LastIndexUnique(a + "/" + b, '/', |a|);
  }

  // ----- Substrings -----

  predicate OccursAt(s: string, p: string, i: nat)
  {
    i + |p| <= |s| && s[i..i + |p|] == p
  }

  predicate Contains(s: string, p: string)
  {
    exists i: nat :: 0 <= i <= |s| && OccursAt(s, p, i)
  }

  // ----- Decimal numbers -----

  const MIN_INT64: int := -0x8000_0000_0000_0000
  const MAX_INT64: int := 0x7fff_ffff_ffff_ffff

  predicate IsDigit(c: char)
  {
    '0' <= c <= '9'
  }

  function DigitChar(d: nat): (c: char)
    requires d < 10
    ensures IsDigit(c) && DigitValue(c) == d
  {
    ('0' as int + d) as char
  }

  function DigitValue(c: char): (d: nat)
    requires IsDigit(c)
    ensures d < 10
  {
    c as int - '0' as int
  }

  function Digits(n: nat): (s: string)
    ensures s != [] && forall i :: 0 <= i < |s| ==> IsDigit(s[i])
  {
    if n < 10 then [DigitChar(n)] else Digits(n / 10) + [DigitChar(n % 10)]
  }

  predicate AllDigits(s: string)
  {
    s != [] && forall i :: 0 <= i < |s| ==> IsDigit(s[i])
  }

  function DigitsValue(s: string): nat
    requires forall i :: 0 <= i < |s| ==> IsDigit(s[i])
  {
    if s == [] then 0 else 10 * DigitsValue(s[..|s| - 1]) + DigitValue(s[|s| - 1])
  }

  /** strconv.Itoa and the %d verb. */
  function Itoa(n: int): (s: string)
    ensures s != []
    ensures forall i :: 0 <= i < |s| ==> IsDigit(s[i]) || s[i] == '-'
  {
    if n < 0 then ['-'] + Digits(-n) else Digits(n)
  }

  /** strconv.Atoi (and ParseInt base 10) on a 64-bit platform. */
  function Atoi(s: string): Option<int>
  {
    var body := if s != [] && (s[0] == '-' || s[0] == '+') then s[1..] else s;
    if !AllDigits(body) then None
    else
      var v: int := DigitsValue(body);
      var n := if s[0] == '-' then -v else v;
      if MIN_INT64 <= n <= MAX_INT64 then Some(n) else None
  }

  lemma {:induction false} DigitsRoundTrip(n: nat)
    ensures DigitsValue(Digits(n)) == n
  {
    if n >= 10 {
      DigitsRoundTrip(n / 10);
      var s := Digits(n);
      assert s[..|s| - 1] == Digits(n / 10);
    } else {
      assert Digits(n)[..0] == [];
    }
  }

  lemma ItoaRoundTrip(n: int)
    requires MIN_INT64 <= n <= MAX_INT64
    ensures Atoi(Itoa(n)) == Some(n)
  {
    if n < 0 {
      DigitsRoundTrip(-n);
      assert Itoa(n)[1..] == Digits(-n);
    } else {
      DigitsRoundTrip(n);
    }
  }

  lemma ItoaFree(n: int, c: char)
    requires !IsDigit(c) && c != '-'
    ensures Free(Itoa(n), c)
  {
  }

  lemma ItoaInjective(m: int, n: int)
    requires Itoa(m) == Itoa(n)
    ensures m == n
  {
    assert m < 0 <==> Itoa(m)[0] == '-';
    if m < 0 && n < 0 {
      assert Itoa(m)[1..] == Digits(-m) && Itoa(n)[1..] == Digits(-n);
      DigitsRoundTrip(-m);
      DigitsRoundTrip(-n);
    } else if m >= 0 && n >= 0 {
      DigitsRoundTrip(m);
      DigitsRoundTrip(n);
    }
  }
}
