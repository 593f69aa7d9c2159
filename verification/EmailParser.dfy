/** The MIME parser. Each step that the program computes by a loop is a method here, proved equal to
    the function that the round-trip theorems reason about. Decoded text stays at byte level. */
module EmailParser {
  import opened Text
  import opened Base64

  type Headers = map<string, string>

  datatype Entity = Entity(headers: Headers, body: string)

  datatype ParsedAttachment = ParsedAttachment(
    filename: Option<string>, contentType: string, content: seq<byte>, transferEncoding: Option<string>)

  datatype Content = Content(
    text: Option<seq<byte>>, html: Option<seq<byte>>, attachments: seq<ParsedAttachment>)

  datatype ParsedEmail = ParsedEmail(
    headers: Headers, messageId: Option<string>, inReplyTo: Option<string>, content: Content)

  const EMPTY := Content(None, None, [])

  function Get(headers: Headers, key: string): Option<string> {
    if key in headers then Some(headers[key]) else None
  }

  // ----- header blocks -----

  predicate IsBlank(c: char) {
    c == ' ' || c == '\t'
  }

  function DropBlanks(s: string): (r: string)
    ensures |r| <= |s|
  {
    if s != "" && IsBlank(s[0]) then DropBlanks(s[1..]) else s
  }

  /** `rawHeaders.replace(/\r?\n[ \t]+/g, " ")` */
  function Unfold(s: string): string
    decreases |s|
  {
    if s == "" then ""
    else if |s| >= 2 && s[0] == '\n' && IsBlank(s[1]) then " " + Unfold(DropBlanks(s[1..]))
    else if |s| >= 3 && s[0] == '\r' && s[1] == '\n' && IsBlank(s[2]) then " " + Unfold(DropBlanks(s[2..]))
    else [s[0]] + Unfold(s[1..])
  }

  function AddHeader(headers: Headers, line: string): Headers {
    var colon := IndexFrom(line, ":", 0);
    if colon == -1 then headers
    else headers[Lower(Trim(line[..colon])) := Trim(line[colon + 1..])]
  }

  function AddHeaders(headers: Headers, lines: seq<string>): Headers
    decreases |lines|
  {
    if lines == [] then headers else AddHeaders(AddHeader(headers, lines[0]), lines[1..])
  }

  function HeadersOf(rawHeaders: string): Headers {
    AddHeaders(map[], SplitLines(Unfold(rawHeaders)))
  }

  method ParseHeadersBlock(rawHeaders: string) returns (headers: Headers)
    ensures headers == HeadersOf(rawHeaders)
  {
    var lines := SplitLines(Unfold(rawHeaders));
    headers := map[];
    for i := 0 to |lines|
      invariant AddHeaders(headers, lines[i..]) == AddHeaders(map[], lines)
    {
      assert lines[i..][0] == lines[i] && lines[i..][1..] == lines[i + 1..];
      var line := lines[i];
      var separatorIndex := IndexFrom(line, ":", 0);
      if separatorIndex != -1 {
        var key := Lower(Trim(line[..separatorIndex]));
        headers := headers[key := Trim(line[separatorIndex + 1..])];
      }
    }
  }

  /** Whether `/\r?\n\r?\n/` matches at position `i`. */
  predicate BlankLineAt(s: string, i: nat) {
    var rest := Drop(s, i);
    "\n\n" <= rest || "\n\r\n" <= rest || "\r\n\n" <= rest || "\r\n\r\n" <= rest
  }

  function Drop(s: string, n: nat): string {
    if n <= |s| then s[n..] else ""
  }

  function FindBlankLine(s: string, from: nat): (r: int)
    requires from <= |s|
    ensures r != -1 ==> from <= r < |s| && BlankLineAt(s, r) && forall j :: from <= j < r ==> !BlankLineAt(s, j)
    ensures r == -1 ==> forall j :: from <= j ==> !BlankLineAt(s, j)
    decreases |s| - from
  {
    if from == |s| then -1
    else if BlankLineAt(s, from) then from
    else FindBlankLine(s, from + 1)
  }

  /** As in the program, a double line feed anywhere takes precedence over the blank line that ends the
      headers, and the body otherwise starts four characters after that blank line. */
  function SplitHeaderAndBody(raw: string): (e: Entity)
    ensures |e.body| <= |raw|
  {
    var marker := FindBlankLine(raw, 0);
    if marker == -1 then Entity(HeadersOf(raw), "")
    else
      var doubleFeed := IndexFrom(raw, "\n\n", 0);
      Entity(HeadersOf(raw[..marker]), Drop(raw, if doubleFeed >= 0 then doubleFeed + 2 else marker + 4))
  }

  // ----- attributes of header values -----

  function UntilQuote(s: string): (r: string)
    ensures r <= s && '"' !in r && ';' !in r
    ensures |r| < |s| ==> s[|r|] == '"' || s[|r|] == ';'
  {
    if s == "" || s[0] == '"' || s[0] == ';' then "" else [s[0]] + UntilQuote(s[1..])
  }

  /** The part of a match of `"?([^";]+)"?` that the group captures, or "" when there is no match. */
  function QuotedValue(s: string): string {
    if s != "" && s[0] == '"' then UntilQuote(s[1..]) else UntilQuote(s)
  }

  /** `value.match(/name="?([^";]+)"?/i)?.[1]`, where `name` ends with the equals sign. */
  function Attribute(s: string, name: string, from: nat): (r: Option<string>)
    requires from <= |s|
    ensures r.Some? ==> r.value != "" && '"' !in r.value && ';' !in r.value
    decreases |s| - from
  {
    if NamedAt(s, name, from) && QuotedValue(s[from + |name|..]) != "" then Some(QuotedValue(s[from + |name|..]))
    else if from == |s| then None
    else Attribute(s, name, from + 1)
  }

  function AttributeOf(s: Option<string>, name: string): (r: Option<string>)
    ensures r.Some? ==> r.value != "" && '"' !in r.value && ';' !in r.value
  {
    if s.None? then None else Attribute(s.value, name, 0)
  }

  function ExtractFilename(disposition: Option<string>, contentType: string): (r: Option<string>)
    ensures r.Some? ==> r.value != "" && '"' !in r.value && ';' !in r.value
  {
    var fromDisposition := AttributeOf(disposition, "filename=");
    if fromDisposition.Some? then fromDisposition else AttributeOf(Some(contentType), "name=")
  }

  predicate MentionsAttachment(disposition: Option<string>) {
    disposition.Some? && exists i | 0 <= i <= |disposition.value| :: NamedAt(disposition.value, "attachment", i)
  }

  // ----- bodies -----

  function HexValue(c: char): Option<int> {
    if '0' <= c <= '9' then Some(c as int - 48)
    else if 'A' <= c <= 'F' then Some(c as int - 55)
    else if 'a' <= c <= 'f' then Some(c as int - 87)
    else None
  }

  /** The UTF-16 code units of a character, each cut to a byte as `Uint8Array.from` does. */
  function UnitBytes(c: char): (b: seq<byte>)
    ensures c as int < 256 ==> b == [c as int]
  {
    var n := c as int;
    if n < 0x1_0000 then [n % 256]
    else [(0xD800 + (n - 0x1_0000) / 0x400) % 256, (0xDC00 + (n - 0x1_0000) % 0x400) % 256]
  }

  /** Quoted-printable, section 6.7 of RFC 2045: soft breaks vanish, escapes become bytes. */
  function QpDecode(s: string): seq<byte> {
    if s == "" then []
    else if |s| >= 3 && s[..3] == "=\r\n" then QpDecode(s[3..])
    else if |s| >= 2 && s[..2] == "=\n" then QpDecode(s[2..])
    else if |s| >= 3 && s[0] == '=' && HexValue(s[1]).Some? && HexValue(s[2]).Some? then
      [HexValue(s[1]).value * 16 + HexValue(s[2]).value] + QpDecode(s[3..])
    else UnitBytes(s[0]) + QpDecode(s[1..])
  }

  predicate SoftCrlfAt(s: string, i: nat) {
    i + 2 < |s| && s[i] == '=' && s[i + 1] == '\r' && s[i + 2] == '\n'
  }

  predicate SoftLfAt(s: string, i: nat) {
    i + 1 < |s| && s[i] == '=' && s[i + 1] == '\n'
  }

  predicate EscapeAt(s: string, i: nat) {
    i + 2 < |s| && s[i] == '=' && HexValue(s[i + 1]).Some? && HexValue(s[i + 2]).Some?
  }

  function EscapedByte(s: string, i: nat): byte
    requires EscapeAt(s, i)
  {
    HexValue(s[i + 1]).value * 16 + HexValue(s[i + 2]).value
  }

  /** One step of decoding, seen from a position in the whole input. */
  lemma QpDecodeFrom(s: string, i: nat)
    requires i < |s|
    ensures SoftCrlfAt(s, i) || EscapeAt(s, i) ==> i + 3 <= |s|
    ensures SoftLfAt(s, i) ==> i + 2 <= |s|
    ensures QpDecode(s[i..]) ==
            if SoftCrlfAt(s, i) then QpDecode(s[i + 3..])
            else if SoftLfAt(s, i) then QpDecode(s[i + 2..])
            else if EscapeAt(s, i) then [EscapedByte(s, i)] + QpDecode(s[i + 3..])
            else UnitBytes(s[i]) + QpDecode(s[i + 1..])
  {
    var rest := s[i..];
    assert rest[1..] == s[i + 1..];
    assert |rest| >= 2 ==> rest[2..] == s[i + 2..] && rest[..2] == [s[i], s[i + 1]];
    assert |rest| >= 3 ==> rest[3..] == s[i + 3..] && rest[..3] == [s[i], s[i + 1], s[i + 2]];
  }

  method DecodeQuotedPrintableBytes(input: string) returns (bytes: seq<byte>)
    ensures bytes == QpDecode(input)
  {
    assert input[0..] == input;
    hide *;
    bytes := [];
    var index := 0;
    while index < |input|
      invariant 0 <= index <= |input|
      invariant bytes + QpDecode(input[index..]) == QpDecode(input)
    {
      QpDecodeFrom(input, index);
      if SoftCrlfAt(input, index) {
        index := index + 3;
      } else if SoftLfAt(input, index) {
        index := index + 2;
      } else if EscapeAt(input, index) {
        Regroup(bytes, [EscapedByte(input, index)], QpDecode(input[index + 3..]));
        bytes := bytes + [EscapedByte(input, index)];
        index := index + 3;
      } else {
        Regroup(bytes, UnitBytes(input[index]), QpDecode(input[index + 1..]));
        bytes := bytes + UnitBytes(input[index]);
        index := index + 1;
      }
    }
  }

  /** None is the exception that `atob` throws. */
  function DecodeBody(content: string, encoding: Option<string>): Option<seq<byte>> {
    if encoding.Some? && Lower(encoding.value) == "base64" then Atob(StripSpaces(content))
    else if encoding.Some? && Lower(encoding.value) == "quoted-printable" then Some(QpDecode(content))
    else Some(Utf8(content))
  }

  // ----- multipart bodies -----

  function StripLeadingBreak(s: string): (r: string)
    ensures |r| <= |s|
  {
    if CRLF <= s then s[2..] else if "\n" <= s then s[1..] else s
  }

  function StripTrailingBreak(s: string): (r: string)
    ensures |r| <= |s|
  {
    if |s| >= 2 && s[|s| - 2..] == CRLF then s[..|s| - 2]
    else if |s| >= 1 && s[|s| - 1] == '\n' then s[..|s| - 1]
    else s
  }

  function KeptParts(pieces: seq<string>): seq<string> {
    if pieces == [] then []
    else
      var part := StripLeadingBreak(pieces[0]);
      if part == "" || "--" <= part then KeptParts(pieces[1..])
      else [StripTrailingBreak(part)] + KeptParts(pieces[1..])
  }

  lemma {:induction false} KeptPartsAreNoLonger(pieces: seq<string>, n: int)
    requires forall p :: p in pieces ==> |p| <= n
    ensures forall p :: p in KeptParts(pieces) ==> |p| <= n
  {
    if pieces != [] {
      assert pieces[0] in pieces;
      KeptPartsAreNoLonger(pieces[1..], n);
    }
  }

  function Entities(parts: seq<string>): (entities: seq<Entity>)
    ensures |entities| == |parts|
    ensures forall k :: 0 <= k < |parts| ==> entities[k] == SplitHeaderAndBody(parts[k])
  {
    if parts == [] then [] else [SplitHeaderAndBody(parts[0])] + Entities(parts[1..])
  }

  function ParseMultipart(body: string, boundary: string): (parts: seq<Entity>)
    ensures forall part :: part in parts ==> |part.body| < |body|
  {
    var pieces := Split(body, "--" + boundary);
    KeptPartsAreNoLonger(pieces[1..], |body| - 2 - |boundary|);
    Entities(KeptParts(pieces[1..]))
  }

  predicate IsMultipart(contentType: string) {
    "multipart/" <= Lower(contentType)
  }

  predicate IsHtml(contentType: string) {
    exists i | 0 <= i <= |contentType| :: NamedAt(contentType, "text/html", i)
  }

  function ContentTypeOf(headers: Headers): string {
    if "content-type" in headers then headers["content-type"] else "text/plain"
  }

  /** A leaf either becomes an attachment or replaces the text or html found so far. */
  function AddLeaf(headers: Headers, decoded: seq<byte>, sofar: Content): Content {
    var contentType := ContentTypeOf(headers);
    var disposition := Get(headers, "content-disposition");
    var filename := ExtractFilename(disposition, contentType);
    if MentionsAttachment(disposition) || filename.Some? then
      sofar.(attachments := sofar.attachments
        + [ParsedAttachment(filename, contentType, decoded, Get(headers, "content-transfer-encoding"))])
    else if IsHtml(contentType) then sofar.(html := Some(decoded))
    else sofar.(text := Some(decoded))
  }

  function Collect(headers: Headers, body: string, sofar: Content): Option<Content>
    decreases |body|, 1, 0
  {
    var contentType := ContentTypeOf(headers);
    if IsMultipart(contentType) then
      var boundary := AttributeOf(Some(contentType), "boundary=");
      if boundary.None? then Some(sofar)
      else CollectAll(ParseMultipart(body, boundary.value), |body|, sofar)
    else
      var decoded := DecodeBody(body, Get(headers, "content-transfer-encoding"));
      if decoded.None? then None else Some(AddLeaf(headers, decoded.value, sofar))
  }

  function CollectAll(parts: seq<Entity>, bound: nat, sofar: Content): Option<Content>
    requires forall part :: part in parts ==> |part.body| < bound
    decreases bound, 0, |parts|
  {
    if parts == [] then Some(sofar)
    else
      var next := Collect(parts[0].headers, parts[0].body, sofar);
      if next.None? then None else CollectAll(parts[1..], bound, next.value)
  }

  function Parse(raw: string): Option<ParsedEmail> {
    var e := SplitHeaderAndBody(raw);
    var content := Collect(e.headers, e.body, EMPTY);
    if content.None? then None
    else Some(ParsedEmail(e.headers, Get(e.headers, "message-id"), Get(e.headers, "in-reply-to"), content.value))
  }

  /** The output record that the program's recursive walk fills in. */
  class Output {
    var text: Option<seq<byte>>
    var html: Option<seq<byte>>
    var attachments: seq<ParsedAttachment>

    constructor ()
      ensures Value() == EMPTY
    {
      text, html, attachments := None, None, [];
    }

    function Value(): Content
      reads this
    {
      Content(text, html, attachments)
    }
  }

  /** `thrown` is the exception that an undecodable base64 body raises. */
  method CollectContent(headers: Headers, body: string, output: Output) returns (thrown: bool)
    modifies output
    ensures thrown == Collect(headers, body, old(output.Value())).None?
    ensures !thrown ==> Collect(headers, body, old(output.Value())) == Some(output.Value())
    decreases |body|
  {
    var contentType := ContentTypeOf(headers);
    if IsMultipart(contentType) {
      var boundary := AttributeOf(Some(contentType), "boundary=");
      if boundary.None? {
        return false;
      }
      var parts := ParseMultipart(body, boundary.value);
      for i := 0 to |parts|
        invariant CollectAll(parts, |body|, old(output.Value()))
               == CollectAll(parts[i..], |body|, output.Value())
      {
        assert parts[i..][1..] == parts[i + 1..] && parts[i] in parts;
        thrown := CollectContent(parts[i].headers, parts[i].body, output);
        if thrown {
          return;
        }
      }
      return false;
    }
    var transferEncoding := Get(headers, "content-transfer-encoding");
    var decoded := DecodeBody(body, transferEncoding);
    if decoded.None? {
      return true;
    }
    var disposition := Get(headers, "content-disposition");
    var filename := ExtractFilename(disposition, contentType);
    if MentionsAttachment(disposition) || filename.Some? {
      output.attachments := output.attachments
        + [ParsedAttachment(filename, contentType, decoded.value, transferEncoding)];
      return false;
    }
    if IsHtml(contentType) {
      output.html := decoded;
      return false;
    }
    output.text := decoded;
    return false;
  }

  method ParseRawEmail(raw: string) returns (parsed: Option<ParsedEmail>)
    ensures parsed == Parse(raw)
  {
    var e := SplitHeaderAndBody(raw);
    var output := new Output();
    var thrown := CollectContent(e.headers, e.body, output);
    if thrown {
      return None;
    }
    parsed := Some(ParsedEmail(e.headers, Get(e.headers, "message-id"), Get(e.headers, "in-reply-to"),
                               output.Value()));
  }

  // ----- quoted-printable against its definition -----

  /** One element of a quoted-printable text. */
  datatype QpToken = Literal(c: char) | Escape(high: char, low: char) | SoftBreak(withCr: bool)

  predicate ValidToken(t: QpToken) {
    match t
    case Literal(c) => c as int < 256 && c != '='
    case Escape(high, low) => HexValue(high).Some? && HexValue(low).Some?
    case SoftBreak(_) => true
  }

  function TokenText(t: QpToken): string {
    match t
    case Literal(c) => [c]
    case Escape(high, low) => ['=', high, low]
    case SoftBreak(withCr) => if withCr then "=\r\n" else "=\n"
  }

  function TokenBytes(t: QpToken): seq<byte>
    requires ValidToken(t)
  {
    match t
    case Literal(c) => [c as int]
    case Escape(high, low) => [HexValue(high).value * 16 + HexValue(low).value]
    case SoftBreak(_) => []
  }

  function Written(tokens: seq<QpToken>): string {
    if tokens == [] then "" else TokenText(tokens[0]) + Written(tokens[1..])
  }

  predicate ValidTokens(tokens: seq<QpToken>) {
    forall i :: 0 <= i < |tokens| ==> ValidToken(tokens[i])
  }

  function Meaning(tokens: seq<QpToken>): seq<byte>
    requires ValidTokens(tokens)
  {
    if tokens == [] then [] else TokenBytes(tokens[0]) + Meaning(tokens[1..])
  }

  lemma QpDecodeToken(t: QpToken, rest: string)
    requires ValidToken(t)
    ensures QpDecode(TokenText(t) + rest) == TokenBytes(t) + QpDecode(rest)
  {
    var s := TokenText(t) + rest;
    var n := |TokenText(t)|;
    assert s[n..] == rest && s[0..] == s;
    assert forall i :: 0 <= i < n ==> s[i] == TokenText(t)[i];
    match t
    case Literal(c) =>
      assert !SoftCrlfAt(s, 0) && !SoftLfAt(s, 0) && !EscapeAt(s, 0);
      QpDecodeFrom(s, 0);
    case Escape(high, low) =>
      assert !SoftCrlfAt(s, 0) && !SoftLfAt(s, 0) && EscapeAt(s, 0);
      assert EscapedByte(s, 0) == TokenBytes(t)[0];
      QpDecodeFrom(s, 0);
    case SoftBreak(withCr) =>
      assert if withCr then SoftCrlfAt(s, 0) else !SoftCrlfAt(s, 0) && SoftLfAt(s, 0);
      QpDecodeFrom(s, 0);
  }

  /** Decoding undoes every way of writing bytes in quoted-printable. */
  lemma {:induction false} QpDecodeUndoesWritten(tokens: seq<QpToken>)
    requires ValidTokens(tokens)
    ensures QpDecode(Written(tokens)) == Meaning(tokens)
  {
    if tokens != [] {
      QpDecodeToken(tokens[0], Written(tokens[1..]));
      QpDecodeUndoesWritten(tokens[1..]);
    }
  }
}
