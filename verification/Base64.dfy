/** Base64 as the printer writes it (btoa, folded at 76 columns) and as the parser reads it (atob);
    section 6.8 of RFC 2045. */
module Base64 {
  import opened Text

  type byte = n: int | 0 <= n < 256

  const LINE_WIDTH := 76

  // ----- UTF-8 -----

  /** The bytes of a character in UTF-8. */
  function Utf8Char(c: char): seq<byte> {
    var n := c as int;
    if n < 0x80 then [n]
    else if n < 0x800 then [0xC0 + n / 64, 0x80 + n % 64]
    else if n < 0x1_0000 then [0xE0 + n / 4096, 0x80 + n / 64 % 64, 0x80 + n % 64]
    else [0xF0 + n / 262144, 0x80 + n / 4096 % 64, 0x80 + n / 64 % 64, 0x80 + n % 64]
  }

  function Utf8(s: string): seq<byte> {
    if s == "" then [] else Utf8Char(s[0]) + Utf8(s[1..])
  }

  // ----- alphabet -----

  function Symbol(n: int): (c: char)
    requires 0 <= n < 64
    ensures Digit(c) == Some(n)
  {
    if n < 26 then (n + 65) as char
    else if n < 52 then (n + 71) as char
    else if n < 62 then (n - 4) as char
    else if n == 62 then '+' else '/'
  }

  function Digit(c: char): (d: Option<int>)
    ensures d.Some? ==> 0 <= d.value < 64
  {
    if 'A' <= c <= 'Z' then Some(c as int - 65)
    else if 'a' <= c <= 'z' then Some(c as int - 71)
    else if '0' <= c <= '9' then Some(c as int + 4)
    else if c == '+' then Some(62)
    else if c == '/' then Some(63)
    else None
  }

  predicate IsDigits(s: string) {
    forall c :: c in s ==> Digit(c).Some?
  }

  /** Text that can only have come from the encoder: alphabet characters and padding. */
  predicate IsEncoded(s: string) {
    forall c :: c in s ==> Digit(c).Some? || c == '='
  }

  // ----- encoding -----

  function OneByte(x: byte): (s: string)
    ensures |s| == 2 && IsDigits(s)
  {
    [Symbol(x / 4), Symbol((x % 4) * 16)]
  }

  function TwoBytes(x: byte, y: byte): (s: string)
    ensures |s| == 3 && IsDigits(s)
  {
    [Symbol(x / 4), Symbol((x % 4) * 16 + y / 16), Symbol((y % 16) * 4)]
  }

  function ThreeBytes(x: byte, y: byte, z: byte): (s: string)
    ensures |s| == 4 && IsDigits(s)
  {
    [Symbol(x / 4), Symbol((x % 4) * 16 + y / 16), Symbol((y % 16) * 4 + z / 64), Symbol(z % 64)]
  }

  lemma ThreeMoreBytes(n: nat, digits: nat)
    requires n >= 3
    ensures (n - 3) % 3 == n % 3 && (4 + digits) % 4 == digits % 4
  {
  }

  /** The digits of an encoding, before padding. */
  function Digits(b: seq<byte>): (s: string)
    ensures IsDigits(s)
    ensures |s| % 4 == (if |b| % 3 == 0 then 0 else |b| % 3 + 1)
    ensures |s| == 0 <==> |b| == 0
  {
    if |b| == 0 then ""
    else if |b| == 1 then OneByte(b[0])
    else if |b| == 2 then TwoBytes(b[0], b[1])
    else
      var rest := Digits(b[3..]);
      ThreeMoreBytes(|b|, |rest|);
      ThreeBytes(b[0], b[1], b[2]) + rest
  }

  function Padding(length: nat): (p: string)
    ensures IsEncoded(p)
  {
    if length % 3 == 1 then "==" else if length % 3 == 2 then "=" else ""
  }

  function Encode(b: seq<byte>): (s: string)
    ensures IsEncoded(s)
  {
    Digits(b) + Padding(|b|)
  }

  predicate Latin1(s: string) {
    forall i :: 0 <= i < |s| ==> s[i] as int < 256
  }

  function CodesOf(binary: string): (b: seq<byte>)
    requires Latin1(binary)
    ensures |b| == |binary| && forall i :: 0 <= i < |b| ==> b[i] == binary[i] as int
  {
    seq<byte>(|binary|, i requires 0 <= i < |binary| => binary[i] as int)
  }

  /** `btoa` takes a string whose characters stand for bytes. */
  function Btoa(binary: string): string
    requires Latin1(binary)
  {
    Encode(CodesOf(binary))
  }

  method ToBase64(bytes: seq<byte>) returns (r: string)
    ensures r == Encode(bytes)
  {
    var binary := "";
    for i := 0 to |bytes|
      invariant |binary| == i
      invariant forall j :: 0 <= j < i ==> binary[j] as int == bytes[j]
    {
      binary := binary + [bytes[i] as char];
    }
    assert CodesOf(binary) == bytes;
    r := Btoa(binary);
  }

  // ----- decoding -----

  /** `s.replace(/\s+/g, "")` */
  function StripSpaces(s: string): string {
    if s == "" then "" else (if IsSpace(s[0]) then "" else [s[0]]) + StripSpaces(s[1..])
  }

  function DropPadding(s: string): string {
    if |s| % 4 != 0 || s == "" then s
    else if s[|s| - 2..] == "==" then s[..|s| - 2]
    else if s[|s| - 1] == '=' then s[..|s| - 1]
    else s
  }

  function Value(c: char): (d: int)
    ensures 0 <= d < 64
  {
    if Digit(c).Some? then Digit(c).value else 0
  }

  function FromDigits(s: string): seq<byte>
    requires |s| % 4 != 1
  {
    if |s| == 0 then []
    else if |s| == 2 then [Value(s[0]) * 4 + Value(s[1]) / 16]
    else if |s| == 3 then [Value(s[0]) * 4 + Value(s[1]) / 16, (Value(s[1]) % 16) * 16 + Value(s[2]) / 4]
    else FourDigits(s[0], s[1], s[2], s[3]) + FromDigits(s[4..])
  }

  function FourDigits(c: char, d: char, e: char, f: char): seq<byte> {
    [Value(c) * 4 + Value(d) / 16, (Value(d) % 16) * 16 + Value(e) / 4, (Value(e) % 4) * 64 + Value(f)]
  }

  /** `atob` on text without white space; None is the exception it throws. */
  function Atob(s: string): Option<seq<byte>> {
    var digits := DropPadding(s);
    if |digits| % 4 == 1 || !IsDigits(digits) then None else Some(FromDigits(digits))
  }

  /** Six-bit groups put back together. */
  lemma SixBitGroups(x: byte, y: byte, z: byte)
    ensures 0 <= (x % 4) * 16 + y / 16 < 64 && 0 <= (y % 16) * 4 + z / 64 < 64
    ensures (x / 4) * 4 + ((x % 4) * 16 + y / 16) / 16 == x
    ensures (((x % 4) * 16 + y / 16) % 16) * 16 + ((y % 16) * 4 + z / 64) / 4 == y
    ensures (((y % 16) * 4 + z / 64) % 4) * 64 + z % 64 == z
  {
    assert ((x % 4) * 16 + y / 16) / 16 == x % 4;
    assert ((x % 4) * 16 + y / 16) % 16 == y / 16;
    assert ((y % 16) * 4 + z / 64) / 4 == y % 16;
    assert ((y % 16) * 4 + z / 64) % 4 == z / 64;
  }

  lemma ValueOfSymbol(n: int)
    requires 0 <= n < 64
    ensures Value(Symbol(n)) == n
  {
  }

  /** Three bytes from four groups of six bits. */
  function Grouped(p: int, q: int, r: int, t: int): seq<int> {
    [p * 4 + q / 16, (q % 16) * 16 + r / 4, (r % 4) * 64 + t]
  }

  lemma FourDigitsOfSymbols(p: int, q: int, r: int, t: int)
    requires 0 <= p < 64 && 0 <= q < 64 && 0 <= r < 64 && 0 <= t < 64
    ensures FourDigits(Symbol(p), Symbol(q), Symbol(r), Symbol(t)) == Grouped(p, q, r, t)
  {
    hide Symbol, Value;
    ValueOfSymbol(p);
    ValueOfSymbol(q);
    ValueOfSymbol(r);
    ValueOfSymbol(t);
  }

  lemma FourDigitsUndoThreeBytes(x: byte, y: byte, z: byte)
    ensures var s := ThreeBytes(x, y, z); FourDigits(s[0], s[1], s[2], s[3]) == [x, y, z]
  {
    hide Symbol, Value, FourDigits;
    var p, q, r, t := x / 4, (x % 4) * 16 + y / 16, (y % 16) * 4 + z / 64, z % 64;
    assert 0 <= q < 64 && 0 <= r < 64 && Grouped(p, q, r, t) == [x, y, z] by {
      SixBitGroups(x, y, z);
    }
    FourDigitsOfSymbols(p, q, r, t);
  }

  lemma {:induction false} FromDigitsUndoesDigits(b: seq<byte>)
    ensures FromDigits(Digits(b)) == b
  {
    hide ThreeBytes, FourDigits;
    if |b| >= 3 {
      var s := Digits(b);
      assert s[4..] == Digits(b[3..]);
      FourDigitsUndoThreeBytes(b[0], b[1], b[2]);
      FromDigitsUndoesDigits(b[3..]);
      assert [b[0], b[1], b[2]] + b[3..] == b;
    }
  }

  lemma PaddingIsDropped(digits: string, length: nat)
    requires IsDigits(digits)
    requires |digits| % 4 == (if length % 3 == 0 then 0 else length % 3 + 1)
    ensures DropPadding(digits + Padding(length)) == digits
  {
    var s := digits + Padding(length);
    if length % 3 == 0 {
      assert s == digits;
      assert |s| > 0 ==> s[|s| - 1] in digits;
    } else if length % 3 == 1 {
      assert |s| == |digits| + 2 && s[|s| - 2..] == "==" && s[..|s| - 2] == digits;
    } else {
      assert |s| == |digits| + 1 && s[|s| - 2] in digits && s[..|s| - 1] == digits;
    }
  }

  lemma AtobUndoesEncode(b: seq<byte>)
    ensures Atob(Encode(b)) == Some(b)
  {
    hide Digits, Padding, DropPadding, FromDigits, IsDigits;
    PaddingIsDropped(Digits(b), |b|);
    FromDigitsUndoesDigits(b);
  }

  // ----- folding -----

  /** `input.replace(/.{1,76}/g, "$&\r\n")` on text without line breaks. */
  function BreakLines(s: string): string {
    if s == "" then ""
    else if |s| <= LINE_WIDTH then s + CRLF
    else s[..LINE_WIDTH] + CRLF + BreakLines(s[LINE_WIDTH..])
  }

  function Fold(s: string): string {
    TrimEnd(BreakLines(s))
  }

  /** The folded text as lines: full lines of 76 characters and a shorter last one. */
  function Rows(s: string): (rows: seq<string>)
    ensures rows != [] && forall row :: row in rows ==> |row| <= LINE_WIDTH
  {
    if |s| <= LINE_WIDTH then [s] else [s[..LINE_WIDTH]] + Rows(s[LINE_WIDTH..])
  }

  lemma EncodedIsNotSpace(s: string)
    requires IsEncoded(s)
    ensures forall c :: c in s ==> !IsSpace(c) && c != '-' && c != '\n' && c != '\r'
  {
  }

  lemma {:induction false} BreakLinesIsRows(s: string)
    requires IsEncoded(s) && s != ""
    ensures BreakLines(s) == JoinLines(Rows(s)) + CRLF
  {
    if |s| > LINE_WIDTH {
      BreakLinesIsRows(s[LINE_WIDTH..]);
      assert Rows(s)[1..] == Rows(s[LINE_WIDTH..]);
    }
  }

  lemma {:induction false} RowsEnd(s: string)
    requires IsEncoded(s) && s != ""
    ensures var t := JoinLines(Rows(s)); t != "" && t[|t| - 1] == s[|s| - 1] && t[0] == s[0]
  {
    if |s| > LINE_WIDTH {
      var first, rest := s[..LINE_WIDTH], s[LINE_WIDTH..];
      RowsEnd(rest);
      assert Rows(s) == [first] + Rows(rest);
      assert JoinLines(Rows(s)) == first + CRLF + JoinLines(Rows(rest));
    }
  }

  lemma FoldNothing()
    ensures Fold("") == "" == JoinLines(Rows(""))
  {
  }

  lemma TrimEndOfLine(t: string)
    requires t != "" && !IsSpace(t[|t| - 1])
    ensures TrimEnd(t + CRLF) == t
  {
    assert (t + CRLF)[..|t| + 1] == t + "\r";
    assert (t + "\r")[..|t|] == t;
    assert TrimEnd(t + CRLF) == TrimEnd(t + "\r") == TrimEnd(t);
  }

  lemma {:induction false} RowsAreLines(s: string)
    requires IsEncoded(s)
    ensures forall row :: row in Rows(s) ==> OneLine(row)
  {
    EncodedIsNotSpace(s);
    if |s| > LINE_WIDTH {
      var first, rest := s[..LINE_WIDTH], s[LINE_WIDTH..];
      RowsAreLines(rest);
      assert forall c :: c in first ==> c in s;
      assert Rows(s) == [first] + Rows(rest);
    }
  }

  /** Section 6.8 of RFC 2045: an encoded body is lines of at most 76 characters. */
  lemma FoldIsRows(s: string)
    requires IsEncoded(s)
    ensures Fold(s) == JoinLines(Rows(s))
    ensures forall line :: line in SplitLines(Fold(s)) ==> |line| <= LINE_WIDTH
  {
    RowsAreLines(s);
    EncodedIsNotSpace(s);
    hide BreakLines, Rows, Text.JoinLines, Text.SplitLines, Text.TrimEnd;
    var t := JoinLines(Rows(s));
    SplitJoinedLines(Rows(s));
    if s == "" {
      FoldNothing();
    } else {
      BreakLinesIsRows(s);
      RowsEnd(s);
      assert s[|s| - 1] in s;
      TrimEndOfLine(t);
    }
  }

  lemma {:induction false} StripSpacesOfSum(a: string, b: string)
    ensures StripSpaces(a + b) == StripSpaces(a) + StripSpaces(b)
  {
    if a == "" {
      assert a + b == b;
    } else {
      StripSpacesOfSum(a[1..], b);
      assert (a + b)[1..] == a[1..] + b;
    }
  }

  lemma {:induction false} StripSpacesOfEncoded(s: string)
    requires IsEncoded(s)
    ensures StripSpaces(s) == s
  {
    EncodedIsNotSpace(s);
    if s != "" {
      assert s[0] in s;
      StripSpacesOfEncoded(s[1..]);
    }
  }

  lemma RowsStep(s: string)
    requires |s| > LINE_WIDTH
    ensures JoinLines(Rows(s)) == s[..LINE_WIDTH] + CRLF + JoinLines(Rows(s[LINE_WIDTH..]))
  {
    assert Rows(s)[1..] == Rows(s[LINE_WIDTH..]);
  }

  lemma StripSpacesOfBreak(a: string, b: string)
    ensures StripSpaces(a + CRLF + b) == StripSpaces(a) + StripSpaces(b)
  {
    StripSpacesOfSum(a + CRLF, b);
    StripSpacesOfSum(a, CRLF);
    assert CRLF[1..] == "\n" && "\n"[1..] == "";
    assert StripSpaces(CRLF) == "";
  }

  lemma {:induction false} StripSpacesOfRows(s: string)
    requires IsEncoded(s)
    ensures StripSpaces(JoinLines(Rows(s))) == s
  {
    if |s| <= LINE_WIDTH {
      StripSpacesOfEncoded(s);
    } else {
      hide StripSpaces, JoinLines, Rows;
      var first, rest := s[..LINE_WIDTH], s[LINE_WIDTH..];
      RowsStep(s);
      StripSpacesOfRows(rest);
      StripSpacesOfEncoded(first);
      StripSpacesOfBreak(first, JoinLines(Rows(rest)));
      assert first + rest == s;
    }
  }

  /** What the parser computes from a folded body is the bytes that were printed. */
  lemma DecodeUndoesPrint(b: seq<byte>)
    ensures Atob(StripSpaces(Fold(Encode(b)))) == Some(b)
  {
    FoldIsRows(Encode(b));
    StripSpacesOfRows(Encode(b));
    AtobUndoesEncode(b);
  }

  /** Folded text holds nothing that could be mistaken for a delimiter or a blank line. */
  lemma {:induction false} RowsAreQuiet(s: string)
    requires IsEncoded(s)
    ensures var t := JoinLines(Rows(s));
            '-' !in t && (t != "" ==> t[0] != '\n' && t[0] != '\r' && t[|t| - 1] != '\n') &&
            forall i :: 0 <= i < |t| - 1 && t[i] == '\n' ==> t[i + 1] != '\n' && t[i + 1] != '\r'
  {
    EncodedIsNotSpace(s);
    if |s| <= LINE_WIDTH {
      assert forall i :: 0 <= i < |s| ==> s[i] in s;
    } else {
      var first, rest := s[..LINE_WIDTH], s[LINE_WIDTH..];
      assert Rows(s)[1..] == Rows(rest);
      RowsAreQuiet(rest);
      RowsEnd(rest);
      assert forall i :: 0 <= i < |first| ==> first[i] == s[i] && s[i] in s;
    }
  }
}
