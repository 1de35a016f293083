/** The temporary file a pass keeps its headers in: one line of text per header. */
module HeaderSpool {
  import opened Blocks

  datatype Header = Header(number: nat, hash: string, parentHash: string)

  const TAB: char := '\t'
  const NEWLINE: char := '\n'

  predicate IsHexDigit(c: char) {
    '0' <= c <= '9' || 'a' <= c <= 'f' || 'A' <= c <= 'F'
  }

  predicate IsHash(s: string) {
    |s| == 66 && s[0] == '0' && s[1] == 'x' && forall i :: 2 <= i < 66 ==> IsHexDigit(s[i])
  }

  predicate IsHeader(h: Header) {
    IsHash(h.hash) && IsHash(h.parentHash)
  }

  // ------------------------------------------------------- decimal numbers

  function Digit(d: nat): char
    requires d < 10
  {
    '0' + d as char
  }

  function Print(n: nat): string {
    if n < 10 then [Digit(n)] else Print(n / 10) + [Digit(n % 10)]
  }

  predicate IsDigit(c: char) { '0' <= c <= '9' }

  function Value(c: char): nat
    requires IsDigit(c)
  {
    (c - '0') as nat
  }

  function Parse(s: string): Option<nat> {
    if s == [] || !IsDigit(s[|s| - 1]) then None
    else if |s| == 1 then Some(Value(s[0]))
    else match Parse(s[..|s| - 1])
      case None => None
      case Some(n) => Some(10 * n + Value(s[|s| - 1]))
  }

  lemma {:induction false} PrintParse(n: nat)
    ensures Parse(Print(n)) == Some(n)
    ensures forall i :: 0 <= i < |Print(n)| ==> IsDigit(Print(n)[i])
  {
    if n >= 10 {
      PrintParse(n / 10);
      var s := Print(n);
      assert s[..|s| - 1] == Print(n / 10);
      assert |s| > 1;
    }
  }

  // ------------------------------------------------------------------ lines

  function Split(s: string, c: char): (parts: seq<string>)
    ensures parts != []
  {
    if s == [] then [[]]
    else
      var rest := Split(s[1..], c);
      if s[0] == c then [[]] + rest else [[s[0]] + rest[0]] + rest[1..]
  }

  /** A separator cuts off exactly what stands before it. */
  lemma {:induction false} SplitAt(a: string, c: char, rest: string)
    requires c !in a
    ensures Split(a + [c] + rest, c) == [a] + Split(rest, c)
  {
    var s := a + [c] + rest;
    if a == [] {
      assert s[1..] == rest;
    } else {
      assert s[1..] == a[1..] + [c] + rest;
      SplitAt(a[1..], c, rest);
      assert [a[0]] + a[1..] == a;
    }
  }

  lemma {:induction false} SplitNone(a: string, c: char)
    requires c !in a
    ensures Split(a, c) == [a]
  {
    if a != [] {
      SplitNone(a[1..], c);
      assert [a[0]] + a[1..] == a;
    }
  }

  function Line(h: Header): string {
    Print(h.number) + [TAB] + h.hash + [TAB] + h.parentHash
  }

  function Text(hs: seq<Header>): string {
    if hs == [] then [] else Line(hs[0]) + [NEWLINE] + Text(hs[1..])
  }

  lemma {:induction false} TextAppend(hs: seq<Header>, h: Header)
    ensures Text(hs + [h]) == Text(hs) + (Line(h) + [NEWLINE])
  {
    if hs == [] {
      assert Text([h]) == Line(h) + [NEWLINE] + [];
    } else {
      assert (hs + [h])[1..] == hs[1..] + [h];
      TextAppend(hs[1..], h);
    }
  }

  function ParseLine(line: string): Option<Header> {
    var f := Split(line, TAB);
    if |f| != 3 then None
    else match Parse(f[0])
      case None => None
      case Some(n) => if IsHash(f[1]) && IsHash(f[2]) then Some(Header(n, f[1], f[2])) else None
  }

  lemma HashHasNoBreaks(s: string)
    requires IsHash(s)
    ensures TAB !in s && NEWLINE !in s
  {
    forall c | c in s ensures c != TAB && c != NEWLINE {
      var i :| 0 <= i < |s| && s[i] == c;
      if i >= 2 {
        assert IsHexDigit(s[i]);
      }
    }
  }

  lemma LineRoundTrip(h: Header)
    requires IsHeader(h)
    ensures ParseLine(Line(h)) == Some(h) && NEWLINE !in Line(h)
  {
    PrintParse(h.number);
    HashHasNoBreaks(h.hash);
    HashHasNoBreaks(h.parentHash);
    var p := Print(h.number);
    forall c | c in p ensures c != TAB && c != NEWLINE {
      var i :| 0 <= i < |p| && p[i] == c;
      assert IsDigit(p[i]);
    }
    assert Line(h) == p + [TAB] + (h.hash + [TAB] + h.parentHash);
    SplitAt(p, TAB, h.hash + [TAB] + h.parentHash);
    SplitAt(h.hash, TAB, h.parentHash);
    SplitNone(h.parentHash, TAB);
  }

  lemma {:induction false} TextLines(hs: seq<Header>)
    requires forall h :: h in hs ==> IsHeader(h)
    ensures |Split(Text(hs), NEWLINE)| == |hs| + 1 && Split(Text(hs), NEWLINE)[|hs|] == []
    ensures forall i :: 0 <= i < |hs| ==> Split(Text(hs), NEWLINE)[i] == Line(hs[i])
  {
    if hs != [] {
      LineRoundTrip(hs[0]);
      SplitAt(Line(hs[0]), NEWLINE, Text(hs[1..]));
      TextLines(hs[1..]);
    }
  }

  class TemporaryHeaderSpool {
    var text: string
    var open: bool
    ghost var appended: seq<Header>

    constructor ()
      ensures Valid() && open && appended == []
    {
      text, open, appended := [], true, [];
    }

    ghost predicate Valid()
      reads this
    {
      text == Text(appended) && forall h :: h in appended ==> IsHeader(h)
    }

    /** Fails once the file has been finished. */
    method Append(h: Header) returns (ok: bool)
      requires Valid() && IsHeader(h)
      modifies this
      ensures Valid() && open == old(open) && ok == old(open)
      ensures appended == if ok then old(appended) + [h] else old(appended)
    {
      if !open {
        return false;
      }
      TextAppend(appended, h);
      text := text + (Line(h) + [NEWLINE]);
      appended := appended + [h];
      ok := true;
    }

    /** Reading back gives exactly the appended headers, in order, whatever their number and size. */
    method Headers() returns (r: Option<seq<Header>>)
      requires Valid()
      modifies this`open
      ensures Valid() && !open
      ensures r == Some(appended)
    {
      open := false;
      TextLines(appended);
      var lines := Split(text, NEWLINE);
      r := ParseLines(if lines[|lines| - 1] == [] then lines[..|lines| - 1] else lines);
      if r.Some? {
        AllBack(appended, lines[..|appended|], r.value);
      }
      AllLinesParse(appended, lines[..|appended|]);
    }
  }

  /** Every line must hold a header. */
  method ParseLines(lines: seq<string>) returns (r: Option<seq<Header>>)
    ensures r.Some? <==> forall i :: 0 <= i < |lines| ==> ParseLine(lines[i]).Some?
    ensures r.Some? ==> |r.value| == |lines| && forall i :: 0 <= i < |lines| ==> ParseLine(lines[i]) == Some(r.value[i])
  {
    var headers := [];
    for i := 0 to |lines|
      invariant |headers| == i && forall k :: 0 <= k < i ==> ParseLine(lines[k]) == Some(headers[k])
    {
      var h := ParseLine(lines[i]);
      if h.None? {
        return None;
      }
      headers := headers + [h.value];
    }
    r := Some(headers);
  }

  lemma AllLinesParse(hs: seq<Header>, lines: seq<string>)
    requires |lines| == |hs| && forall i :: 0 <= i < |hs| ==> lines[i] == Line(hs[i]) && IsHeader(hs[i])
    ensures forall i :: 0 <= i < |hs| ==> ParseLine(lines[i]) == Some(hs[i])
  {
    forall i | 0 <= i < |hs| ensures ParseLine(lines[i]) == Some(hs[i]) {
      LineRoundTrip(hs[i]);
    }
  }

  lemma AllBack(hs: seq<Header>, lines: seq<string>, back: seq<Header>)
    requires |lines| == |hs| == |back| && forall i :: 0 <= i < |hs| ==> lines[i] == Line(hs[i]) && IsHeader(hs[i])
    requires forall i :: 0 <= i < |hs| ==> ParseLine(lines[i]) == Some(back[i])
    ensures back == hs
  {
    AllLinesParse(hs, lines);
  }
}
