/** UTF-8 as the parser decodes it, and that it undoes the encoding. */
module TextDecoding {
  import opened Text
  import opened Base64

  predicate Continues(b: byte) {
    0x80 <= b < 0xC0
  }

  /** A code point that is a character and needs as many bytes as it was spelled with. */
  function Scalar(n: int, least: nat): Option<char> {
    if least <= n < 0xD800 || (0xE000 <= n < 0x11_0000 && least <= n) then Some(n as char) else None
  }

  /** How many bytes the first character of a well-formed text takes, by its first byte. */
  function SpelledLength(b: byte): nat {
    if b < 0xC0 then 1 else if b < 0xE0 then 2 else if b < 0xF0 then 3 else 4
  }

  /** The first character of a UTF-8 text, if it is well-formed; section 4 of RFC 3629. */
  function FirstChar(b: seq<byte>): Option<char>
    requires b != []
  {
    if b[0] < 0x80 then Scalar(b[0], 0)
    else if 0xC0 <= b[0] < 0xE0 && |b| >= 2 && Continues(b[1]) then
      Scalar((b[0] as int - 0xC0) * 64 + (b[1] as int - 0x80), 0x80)
    else if 0xE0 <= b[0] < 0xF0 && |b| >= 3 && Continues(b[1]) && Continues(b[2]) then
      Scalar((b[0] as int - 0xE0) * 4096 + (b[1] as int - 0x80) * 64 + (b[2] as int - 0x80), 0x800)
    else if 0xF0 <= b[0] && |b| >= 4 && Continues(b[1]) && Continues(b[2]) && Continues(b[3]) then
      Scalar((b[0] as int - 0xF0) * 262144 + (b[1] as int - 0x80) * 4096 + (b[2] as int - 0x80) * 64
             + (b[3] as int - 0x80), 0x1_0000)
    else None
  }

  /** The text that well-formed bytes spell. */
  function FromUtf8(b: seq<byte>): Option<string>
    decreases |b|
  {
    if b == [] then Some("")
    else if FirstChar(b).None? || |b| < SpelledLength(b[0]) then None
    else
      var rest := FromUtf8(b[SpelledLength(b[0])..]);
      if rest.None? then None else Some([FirstChar(b).value] + rest.value)
  }

  lemma SixBits(n: int)
    requires 0 <= n
    ensures n == n / 64 * 64 + n % 64
    ensures n == n / 4096 * 4096 + n / 64 % 64 * 64 + n % 64
    ensures n == n / 262144 * 262144 + n / 4096 % 64 * 4096 + n / 64 % 64 * 64 + n % 64
  {
    assert n / 4096 == n / 64 / 64;
    assert n / 262144 == n / 4096 / 64;
  }

  lemma FirstCharOfSpelled(c: char, rest: seq<byte>)
    ensures FirstChar(Utf8Char(c) + rest) == Some(c)
    ensures Utf8Char(c) != [] && SpelledLength((Utf8Char(c) + rest)[0]) == |Utf8Char(c)|
  {
    SixBits(c as int);
    var b := Utf8Char(c) + rest;
    assert forall i :: 0 <= i < |Utf8Char(c)| ==> b[i] == Utf8Char(c)[i];
  }

  /** Every text is what its UTF-8 bytes spell. */
  lemma {:induction false} FromUtf8UndoesUtf8(s: string)
    ensures FromUtf8(Utf8(s)) == Some(s)
  {
    hide FirstChar, Utf8Char, SpelledLength;
    if s != "" {
      FirstCharOfSpelled(s[0], Utf8(s[1..]));
      FromUtf8UndoesUtf8(s[1..]);
      assert Utf8(s)[|Utf8Char(s[0])|..] == Utf8(s[1..]);
      assert [s[0]] + s[1..] == s;
    }
  }

  const BYTE_ORDER_MARK := '\U{FEFF}'

  /** `new TextDecoder("utf-8").decode(bytes)` on well-formed bytes: a byte order mark at the start is dropped. */
  function DecodeText(b: seq<byte>): Option<string> {
    var s := FromUtf8(b);
    if s.Some? && s.value != "" && s.value[0] == BYTE_ORDER_MARK then Some(s.value[1..]) else s
  }

  /** A text that was encoded comes back exactly when it does not begin with a byte order mark. */
  lemma TextComesBack(s: string)
    ensures DecodeText(Utf8(s)) == Some(s) <==> (s == "" || s[0] != BYTE_ORDER_MARK)
  {
    FromUtf8UndoesUtf8(s);
  }
}
