/** Bodies that other mailers write: what parsing a single entity returns for every transfer encoding. */
module LeafRoundTrip {
  import opened Text
  import opened Base64
  import opened EmailParser
  import opened Mime
  import opened EntityRoundTrip
  import opened PartRoundTrip

  /** The content of a single entity: its bytes are the one attachment if it is called one or has a file name, else
      the html if its type says so, else the text. */
  predicate HoldsLeaf(headers: Headers, bytes: seq<byte>, c: Content) {
    var contentType := ContentTypeOf(headers);
    var disposition := Get(headers, "content-disposition");
    var filename := ExtractFilename(disposition, contentType);
    if MentionsAttachment(disposition) || filename.Some? then
      c.text == None && c.html == None && |c.attachments| == 1
      && c.attachments[0].content == bytes && c.attachments[0].filename == filename
      && c.attachments[0].contentType == contentType
      && c.attachments[0].transferEncoding == Get(headers, "content-transfer-encoding")
    else if IsHtml(contentType) then c.html == Some(bytes) && c.text == None && c.attachments == []
    else c.text == Some(bytes) && c.html == None && c.attachments == []
  }

  /** An entity that is not multipart and that the parser can tell from its headers. */
  predicate SingleEntity(headers: seq<Header>, body: string) {
    headers != [] && AllPlain(headers) && Quiet(body) && !IsMultipart(ContentTypeOf(Recorded(map[], headers)))
  }

  /** The transfer encoding, in any letter case. */
  predicate EncodedAs(headers: seq<Header>, encoding: string) {
    var given := Get(Recorded(map[], headers), "content-transfer-encoding");
    given.Some? && Lower(given.value) == encoding
  }

  predicate ParsesTo(headers: seq<Header>, body: string, bytes: seq<byte>) {
    var r := Parse(EntityText(headers, body));
    r.Some? && r.value.headers == Recorded(map[], headers) && HoldsLeaf(r.value.headers, bytes, r.value.content)
  }

  lemma DecodedParses(headers: seq<Header>, body: string, bytes: seq<byte>)
    requires SingleEntity(headers, body)
    requires DecodeBody(body, Get(Recorded(map[], headers), "content-transfer-encoding")) == Some(bytes)
    ensures ParsesTo(headers, body, bytes)
  {
    hide Recorded, EntityText, AllPlain, Quiet, DecodeBody, ExtractFilename, MentionsAttachment, IsHtml, IsMultipart;
    hide SplitHeaderAndBody;
    SplitEntity(headers, body);
    var h := Recorded(map[], headers);
    assert Collect(h, body, EMPTY) == Some(AddLeaf(h, bytes, EMPTY));
  }

  /** Quoted-printable: an entity whose body is written in it holds what the body means. */
  lemma QuotedPrintableParses(headers: seq<Header>, tokens: seq<QpToken>)
    requires ValidTokens(tokens) && SingleEntity(headers, Written(tokens)) && EncodedAs(headers, "quoted-printable")
    ensures ParsesTo(headers, Written(tokens), Meaning(tokens))
  {
    hide SingleEntity, Recorded, Written, Meaning, QpDecode, ParsesTo;
    QpDecodeUndoesWritten(tokens);
    assert "quoted-printable" != "base64" by { assert |"quoted-printable"| != |"base64"|; }
    DecodedParses(headers, Written(tokens), Meaning(tokens));
  }

  /** Base64: however the encoding is folded, the entity holds the bytes that were encoded. */
  lemma Base64Parses(headers: seq<Header>, body: string, bytes: seq<byte>)
    requires SingleEntity(headers, body) && EncodedAs(headers, "base64") && StripSpaces(body) == Encode(bytes)
    ensures ParsesTo(headers, body, bytes)
  {
    hide SingleEntity, Recorded, StripSpaces, Atob, Encode, ParsesTo;
    AtobUndoesEncode(bytes);
    DecodedParses(headers, body, bytes);
  }

  /** Without an encoding, or with one that the parser does not know, the entity holds the UTF-8 bytes of its body. */
  lemma UnencodedParses(headers: seq<Header>, body: string)
    requires SingleEntity(headers, body) && !EncodedAs(headers, "base64") && !EncodedAs(headers, "quoted-printable")
    ensures ParsesTo(headers, body, Utf8(body))
  {
    hide SingleEntity, Recorded, Utf8, ParsesTo;
    DecodedParses(headers, body, Utf8(body));
  }

  /** A body that is called base64 and is not makes the whole parse throw. */
  lemma BadBase64Throws(headers: seq<Header>, body: string)
    requires SingleEntity(headers, body) && EncodedAs(headers, "base64") && Atob(StripSpaces(body)).None?
    ensures Parse(EntityText(headers, body)) == None
  {
    hide Recorded, EntityText, AllPlain, Quiet, SplitHeaderAndBody, IsMultipart, Atob, StripSpaces;
    SplitEntity(headers, body);
  }

  // ----- text, html and an attachment in quoted-printable -----

  function Encoding(value: string): Header {
    Header("Content-Transfer-Encoding", value)
  }

  predicate QuotedPrintableName(value: string) {
    Lower(value) == "quoted-printable" && Trimmed(value) && OneLine(value)
  }

  lemma RecordEncodingAs(sofar: Headers, encoding: string, key: string)
    requires Trimmed(encoding) && |key| < |ENCODING|
    ensures Get(Recorded(sofar, [Encoding(encoding)]), ENCODING) == Some(encoding)
    ensures Get(Recorded(sofar, [Encoding(encoding)]), key) == Get(sofar, key)
  {
    hide Recorded, Text.Lower, Text.Trimmed;
    ContentEncodingName();
    RecordedOne(sofar, Encoding(encoding), ENCODING);
  }

  lemma LeafIsSingle(contentType: string, encoding: string, body: string)
    requires OneLine(contentType) && Trimmed(contentType) && !IsMultipart(contentType) && Quiet(body)
    requires QuotedPrintableName(encoding)
    ensures var headers := [Header("Content-Type", contentType), Encoding(encoding)];
            SingleEntity(headers, body) && EncodedAs(headers, "quoted-printable")
            && ContentKeys(Recorded(map[], headers), contentType, None)
  {
    hide Recorded, IsMultipart, Quiet, Text.Lower, Text.Trimmed;
    var first, second := Header("Content-Type", contentType), Encoding(encoding);
    EmptyHasNoContent();
    RecordType(map[], contentType);
    RecordedOfSum(map[], [first], [second]);
    assert [first] + [second] == [first, second];
    assert |TYPE| == 12 && |DISPOSITION| == 19 && |ENCODING| == 25;
    RecordEncodingAs(Recorded(map[], [first]), encoding, TYPE);
    RecordEncodingAs(Recorded(map[], [first]), encoding, DISPOSITION);
    NamesArePlain(contentType, encoding);
  }

  lemma NamesArePlain(contentType: string, encoding: string)
    requires OneLine(contentType) && OneLine(encoding)
    ensures Plain(Header("Content-Type", contentType)) && Plain(Encoding(encoding))
  {
    TypeIsPlain(contentType);
    EncodingNameIsPlain();
  }

  lemma EncodingNameIsPlain()
    ensures var name := "Content-Transfer-Encoding";
            name != "" && Trimmed(name) && ':' !in name && OneLine(name)
  {
  }

  /** A quoted-printable text or html message, with its encoding in any letter case, is what its body means. */
  lemma QuotedPrintableTexts(encoding: string, tokens: seq<QpToken>)
    requires QuotedPrintableName(encoding) && ValidTokens(tokens) && Quiet(Written(tokens))
    ensures var r := Parse(EntityText([TEXT_PLAIN, Encoding(encoding)], Written(tokens)));
            r.Some? && r.value.content == Content(Some(Meaning(tokens)), None, [])
    ensures var r := Parse(EntityText([TEXT_HTML, Encoding(encoding)], Written(tokens)));
            r.Some? && r.value.content == Content(None, Some(Meaning(tokens)), [])
  {
    hide Parse, EntityText, Written, Meaning, Quiet, IsMultipart, IsHtml, Attribute, Recorded, SingleEntity, EncodedAs;
    hide QuotedPrintableName;
    PlainIsText();
    HtmlIsHtml();
    NoDispositionMeansNone();
    LeafTypesAreTrimmed();
    LeafIsSingle(TEXT_PLAIN.value, encoding, Written(tokens));
    QuotedPrintableParses([TEXT_PLAIN, Encoding(encoding)], tokens);
    LeafIsSingle(TEXT_HTML.value, encoding, Written(tokens));
    QuotedPrintableParses([TEXT_HTML, Encoding(encoding)], tokens);
  }

  lemma LeafTypesAreTrimmed()
    ensures OneLine(TEXT_PLAIN.value) && Trimmed(TEXT_PLAIN.value)
    ensures OneLine(TEXT_HTML.value) && Trimmed(TEXT_HTML.value)
  {
    LeafTypesAreOneLine();
  }

  // ----- header values that the printer does not write -----

  lemma {:induction false} UntilQuoteOfBare(value: string, rest: string)
    requires '"' !in value && ';' !in value && (rest == "" || rest[0] == '"' || rest[0] == ';')
    ensures UntilQuote(value + rest) == value
  {
    if value == "" {
      assert value + rest == rest;
    } else {
      assert (value + rest)[0] == value[0] && (value + rest)[1..] == value[1..] + rest;
      UntilQuoteOfBare(value[1..], rest);
    }
  }

  lemma BareNameIsThere(prefix: string, spelled: string, name: string, tail: string)
    requires Lower(spelled) == name
    ensures var s := prefix + spelled + tail; NamedAt(s, name, |prefix|) && s[|prefix| + |name|..] == tail
  {
    hide Lower;
    var s := prefix + spelled + tail;
    assert s[|prefix|..|prefix| + |spelled|] == spelled;
  }

  lemma BareNotNamedHere(prefix: string, spelled: string, name: string, tail: string, from: nat)
    requires name != "" && name[|name| - 1] == '=' && Lower(spelled) == name
    requires '=' !in prefix && '=' !in spelled[..|spelled| - 1] && from < |prefix|
    ensures !NamedAt(prefix + spelled + tail, name, from)
  {
    var s := prefix + spelled + tail;
    var k := from + |name| - 1;
    assert s[k] == if k < |prefix| then prefix[k] else spelled[..|spelled| - 1][k - |prefix|];
    assert Lower(s[from..from + |name|])[|name| - 1] == LowerChar(s[k]);
  }

  /** An attribute is found also when its name is spelled in other letter cases and its value is not quoted: the value
      ends at the next semicolon or quote. */
  lemma {:induction false} BareAttributeIsFound(
      prefix: string, spelled: string, name: string, value: string, rest: string, from: nat)
    requires name != "" && name[|name| - 1] == '=' && Lower(spelled) == name
    requires '=' !in prefix && '=' !in spelled[..|spelled| - 1] && from <= |prefix|
    requires value != "" && '"' !in value && ';' !in value && (rest == "" || rest[0] == '"' || rest[0] == ';')
    ensures Attribute(prefix + spelled + (value + rest), name, from) == Some(value)
    decreases |prefix| - from
  {
    hide NamedAt, Lower, UntilQuote;
    if from == |prefix| {
      BareNameIsThere(prefix, spelled, name, value + rest);
      UntilQuoteOfBare(value, rest);
      assert (value + rest)[0] == value[0];
    } else {
      BareNotNamedHere(prefix, spelled, name, value + rest, from);
      BareAttributeIsFound(prefix, spelled, name, value, rest, from + 1);
    }
  }

  lemma {:induction false} DropBlanksOf(blanks: string, rest: string)
    requires (forall i :: 0 <= i < |blanks| ==> IsBlank(blanks[i])) && (rest != "" ==> !IsBlank(rest[0]))
    ensures DropBlanks(blanks + rest) == rest
  {
    if blanks == "" {
      assert blanks + rest == rest;
    } else {
      assert (blanks + rest)[0] == blanks[0] && (blanks + rest)[1..] == blanks[1..] + rest;
      DropBlanksOf(blanks[1..], rest);
    }
  }

  /** One fold, right at the start. */
  lemma UnfoldBreak(feed: string, blanks: string, rest: string)
    requires feed == "\n" || feed == "\r\n"
    requires blanks != "" && (forall i :: 0 <= i < |blanks| ==> IsBlank(blanks[i]))
    requires rest != "" ==> !IsBlank(rest[0])
    ensures Unfold(feed + (blanks + rest)) == " " + Unfold(rest)
  {
    var s := feed + (blanks + rest);
    assert s[|feed|..] == blanks + rest;
    assert s[|feed|] == blanks[0];
    DropBlanksOf(blanks, rest);
  }

  /** A character that begins no line break stays. */
  lemma UnfoldStep(s: string)
    requires s != "" && s[0] != '\n' && !(|s| >= 2 && s[0] == '\r' && s[1] == '\n')
    ensures Unfold(s) == [s[0]] + Unfold(s[1..])
  {
  }

  lemma {:induction false} UnfoldAfterLine(line: string, feed: string, more: string)
    requires '\n' !in line && (feed == "\n" || feed == "\r\n")
    requires line != "" && feed == "\n" ==> line[|line| - 1] != '\r'
    ensures Unfold(line + (feed + more)) == line + Unfold(feed + more)
  {
    hide Unfold;
    if line == "" {
      assert line + (feed + more) == feed + more;
    } else {
      var s := line + (feed + more);
      assert s[0] == line[0] && s[1..] == line[1..] + (feed + more);
      assert |line| > 1 ==> s[1] == line[1];
      UnfoldStep(s);
      UnfoldAfterLine(line[1..], feed, more);
      Regroup([line[0]], line[1..], Unfold(feed + more));
      assert [line[0]] + line[1..] == line;
    }
  }

  lemma {:induction false} UnfoldAfterText(line: string, more: string)
    requires '\n' !in line
    ensures Unfold(line + (" " + more)) == line + (" " + Unfold(more))
  {
    hide Unfold;
    var s := line + (" " + more);
    if line == "" {
      assert s == " " + more && s[1..] == more;
      UnfoldStep(s);
    } else {
      assert s[0] == line[0] && s[1..] == line[1..] + (" " + more);
      assert |line| > 1 ==> s[1] == line[1];
      UnfoldStep(s);
      UnfoldAfterText(line[1..], more);
      Regroup([line[0]], line[1..], " " + Unfold(more));
      assert [line[0]] + line[1..] == line;
    }
  }

  /** A header line that is folded reads as the same line on one line. */
  lemma FoldedLineIsOneLine(line: string, feed: string, blanks: string, rest: string)
    requires '\n' !in line && (feed == "\n" || feed == "\r\n")
    requires line != "" && feed == "\n" ==> line[|line| - 1] != '\r'
    requires blanks != "" && (forall i :: 0 <= i < |blanks| ==> IsBlank(blanks[i]))
    requires rest != "" ==> !IsBlank(rest[0])
    ensures HeadersOf(line + (feed + (blanks + rest))) == HeadersOf(line + (" " + rest))
  {
    hide Unfold, SplitLines;
    UnfoldAfterLine(line, feed, blanks + rest);
    UnfoldBreak(feed, blanks, rest);
    UnfoldAfterText(line, rest);
  }
}
