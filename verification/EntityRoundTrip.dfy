/** Reading back what the printer writes below the level of a whole message: header blocks, entities,
    multipart bodies, header attributes, leaves and attachments. */
module EntityRoundTrip {
  import opened Text
  import opened Base64
  import opened EmailParser
  import opened Mime

  // ----- header blocks read back -----

  /** A header that survives: a name that is a single word and a value on one line. */
  predicate Plain(h: Header) {
    h.name != "" && Trimmed(h.name) && ':' !in h.name && OneLine(h.name) && OneLine(h.value)
  }

  predicate AllPlain(headers: seq<Header>) {
    forall i :: 0 <= i < |headers| ==> Plain(headers[i])
  }

  function Recorded(sofar: Headers, headers: seq<Header>): Headers
    decreases |headers|
  {
    if headers == [] then sofar
    else Recorded(sofar[Lower(headers[0].name) := Trim(headers[0].value)], headers[1..])
  }

  lemma TrimAfterColon(value: string)
    ensures Trim(" " + value) == Trim(value)
  {
    assert (" " + value)[1..] == value;
    assert TrimStart(" " + value) == TrimStart(value);
  }

  lemma ColonAfterName(name: string, value: string)
    requires ':' !in name
    ensures IndexFrom(name + ": " + value, ":", 0) == |name|
  {
    var line := name + ": " + value;
    var n := |name|;
    assert line[n..n + 1] == ":";
    assert OccursAt(line, ":", n);
    var colon := IndexFrom(line, ":", 0);
    assert line[colon..colon + 1][0] == line[colon];
    assert forall i :: 0 <= i < n ==> line[i] == name[i];
  }

  lemma AddPlainHeader(sofar: Headers, h: Header)
    requires Plain(h)
    ensures AddHeader(sofar, Line(h)) == sofar[Lower(h.name) := Trim(h.value)]
  {
    hide Text.IndexFrom, Text.Trim, Text.Lower;
    var line := Line(h);
    ColonAfterName(h.name, h.value);
    TrimOfTrimmed(h.name);
    TrimAfterColon(h.value);
    assert line[..|h.name|] == h.name && line[|h.name| + 1..] == " " + h.value;
  }

  lemma {:induction false} AddPlainHeaders(sofar: Headers, headers: seq<Header>)
    requires AllPlain(headers)
    ensures AddHeaders(sofar, Lines(headers)) == Recorded(sofar, headers)
    decreases |headers|
  {
    if headers != [] {
      AddPlainHeader(sofar, headers[0]);
      assert Lines(headers)[1..] == Lines(headers[1..]);
      AddPlainHeaders(sofar[Lower(headers[0].name) := Trim(headers[0].value)], headers[1..]);
    }
  }

  /** Every line feed is followed by the start of a header name. */
  predicate Dense(s: string) {
    forall i :: 0 <= i < |s| && s[i] == '\n' ==> i + 1 < |s| && !IsSpace(s[i + 1])
  }

  lemma {:induction false} PlainLinesAreDense(headers: seq<Header>)
    requires headers != [] && AllPlain(headers)
    ensures var s := JoinLines(Lines(headers)); s != "" && Dense(s) && !IsSpace(s[0])
  {
    var first := Line(headers[0]);
    assert forall i :: 0 <= i < |first| ==> first[i] != '\n';
    assert first[0] == headers[0].name[0];
    if |headers| > 1 {
      PlainLinesAreDense(headers[1..]);
      assert Lines(headers)[1..] == Lines(headers[1..]);
      assert JoinLines(Lines(headers)) == first + CRLF + JoinLines(Lines(headers[1..]));
    }
  }

  lemma {:induction false} UnfoldDense(s: string)
    requires Dense(s)
    ensures Unfold(s) == s
  {
    if s != "" {
      assert Dense(s[1..]) by {
        assert forall i :: 0 <= i < |s| - 1 ==> s[1..][i] == s[i + 1];
      }
      UnfoldDense(s[1..]);
    }
  }

  lemma HeadersOfPlain(headers: seq<Header>)
    requires headers != [] && AllPlain(headers)
    ensures HeadersOf(JoinLines(Lines(headers))) == Recorded(map[], headers)
  {
    PlainLinesAreDense(headers);
    UnfoldDense(JoinLines(Lines(headers)));
    forall l | l in Lines(headers) ensures OneLine(l) {
      var i :| 0 <= i < |headers| && l == Line(headers[i]);
    }
    SplitJoinedLines(Lines(headers));
    AddPlainHeaders(map[], headers);
  }

  // ----- entities read back -----

  /** No two line feeds in a row, and none at the start. */
  predicate Quiet(s: string) {
    (s != "" ==> s[0] != '\n') && forall i :: 0 <= i < |s| - 1 && s[i] == '\n' ==> s[i + 1] != '\n'
  }

  lemma QuietSum(a: string, b: string)
    requires Quiet(a) && Quiet(b)
    ensures Quiet(a + b)
  {
    assert forall i :: 0 <= i < |a + b| ==> (a + b)[i] == if i < |a| then a[i] else b[i - |a|];
  }

  lemma DoubleFeedShows(s: string, i: int)
    requires OccursAt(s, "\n\n", i)
    ensures s[i] == '\n' && s[i + 1] == '\n'
  {
    assert s[i] == s[i..i + 2][0] && s[i + 1] == s[i..i + 2][1];
  }

  lemma QuietHasNoDoubleFeed(s: string)
    requires Quiet(s)
    ensures IndexFrom(s, "\n\n", 0) == -1
  {
    var i := IndexFrom(s, "\n\n", 0);
    if i != -1 {
      DoubleFeedShows(s, i);
    }
  }

  /** The first blank line is the one after the headers. */
  lemma BlankLineAfterHead(head: string, body: string)
    requires head != "" && Dense(head)
    ensures FindBlankLine(head + CRLF + CRLF + body, 0) == |head|
  {
    var s := head + CRLF + CRLF + body;
    assert Drop(s, |head|)[..4] == "\r\n\r\n";
    assert BlankLineAt(s, |head|);
    var r := FindBlankLine(s, 0);
    assert r <= |head|;
    assert forall i :: 0 <= i < |head| ==> s[i] == head[i];
    assert s[|head|] == '\r';
    BlankLineShowsFeed(s, r);
  }

  predicate FeedThenBreak(s: string, j: nat) {
    j + 1 < |s| && s[j] == '\n' && (s[j + 1] == '\n' || s[j + 1] == '\r')
  }

  /** A blank line shows as a line feed that is followed by a line feed or a carriage return. */
  lemma BlankLineShowsFeed(s: string, i: nat)
    requires BlankLineAt(s, i)
    ensures exists j :: FeedThenBreak(s, j) && (j == i || (j == i + 1 && s[i] == '\r'))
  {
    var rest := Drop(s, i);
    assert rest != "";
    if "\n\n" <= rest {
      assert rest[..2] == "\n\n" && s[i] == rest[0] && s[i + 1] == rest[1];
      assert FeedThenBreak(s, i);
    } else if "\n\r\n" <= rest {
      assert rest[..3] == "\n\r\n" && s[i] == rest[0] && s[i + 1] == rest[1];
      assert FeedThenBreak(s, i);
    } else if "\r\n\n" <= rest {
      assert rest[..3] == "\r\n\n" && s[i] == rest[0] && s[i + 1] == rest[1] && s[i + 2] == rest[2];
      assert FeedThenBreak(s, i + 1);
    } else {
      assert rest[..4] == "\r\n\r\n" && s[i] == rest[0] && s[i + 1] == rest[1] && s[i + 2] == rest[2];
      assert FeedThenBreak(s, i + 1);
    }
  }

  lemma EntityIsQuiet(headers: seq<Header>, body: string)
    requires headers != [] && AllPlain(headers) && Quiet(body)
    ensures Quiet(EntityText(headers, body))
  {
    PlainLinesAreDense(headers);
    var head := JoinLines(Lines(headers));
    QuietSum(head, CRLF);
    QuietSum(head + CRLF, CRLF);
    QuietSum(head + CRLF + CRLF, body);
  }

  lemma SplitEntity(headers: seq<Header>, body: string)
    requires headers != [] && AllPlain(headers) && Quiet(body)
    ensures SplitHeaderAndBody(EntityText(headers, body)) == Entity(Recorded(map[], headers), body)
  {
    hide HeadersOf, AllPlain, Recorded;
    var head := JoinLines(Lines(headers));
    var raw := EntityText(headers, body);
    PlainLinesAreDense(headers);
    BlankLineAfterHead(head, body);
    EntityIsQuiet(headers, body);
    QuietHasNoDoubleFeed(raw);
    HeadersOfPlain(headers);
    assert raw[..|head|] == head && raw[|head| + 4..] == body;
  }

  // ----- multipart bodies read back -----

  /** A part that its delimiter cannot be found in. */
  predicate Safe(part: string, delimiter: string) {
    part != "" && part[0] != '-' && part[0] != '\r' && part[0] != '\n'
    && IndexFrom(part, delimiter, 0) == -1
  }

  predicate GoodDelimiter(d: string) {
    |d| > 2 && d[..2] == "--" && '\r' !in d && '\n' !in d
  }

  function Tail(delimiter: string, parts: seq<string>): string {
    if parts == [] then "--" else CRLF + parts[0] + CRLF + delimiter + Tail(delimiter, parts[1..])
  }

  lemma {:induction false} MultipartIsDelimiterAndTail(delimiter: string, parts: seq<string>)
    ensures MultipartText(delimiter, parts) == delimiter + Tail(delimiter, parts)
  {
    if parts != [] {
      MultipartIsDelimiterAndTail(delimiter, parts[1..]);
    }
  }

  /** What one piece between delimiters is cut down to. */
  lemma KeepPiece(part: string, d: string, rest: seq<string>)
    requires Safe(part, d)
    ensures KeptParts([CRLF + part + CRLF] + rest) == [part] + KeptParts(rest)
  {
    var piece := CRLF + part + CRLF;
    assert piece[..2] == CRLF && piece[2..] == part + CRLF;
    assert StripLeadingBreak(piece) == part + CRLF;
    assert (part + CRLF)[0] == part[0];
    assert (part + CRLF)[|part|..] == CRLF && (part + CRLF)[..|part|] == part;
    assert ([piece] + rest)[1..] == rest;
  }

  lemma PeelPart(part: string, d: string, rest: string)
    requires GoodDelimiter(d) && Safe(part, d)
    ensures Split(CRLF + part + CRLF + d + rest, d) == [CRLF + part + CRLF] + Split(rest, d)
  {
    assert d[..2][0] == d[0];
    NoOccurrenceWithout(CRLF, d, '-');
    NoOccurrenceAcross(CRLF, part, d);
    NoOccurrenceAcross(CRLF + part, CRLF, d);
    SplitPeel(CRLF + part + CRLF, d, rest);
  }

  lemma {:induction false} TailIsParts(d: string, parts: seq<string>)
    requires GoodDelimiter(d) && forall i :: 0 <= i < |parts| ==> Safe(parts[i], d)
    ensures KeptParts(Split(Tail(d, parts), d)) == parts
  {
    hide KeptParts, Split, Safe;
    if parts == [] {
      ClosingPiece(d);
    } else {
      PeelPart(parts[0], d, Tail(d, parts[1..]));
      assert Tail(d, parts) == CRLF + parts[0] + CRLF + d + Tail(d, parts[1..]);
      KeepPiece(parts[0], d, Split(Tail(d, parts[1..]), d));
      TailIsParts(d, parts[1..]);
    }
  }

  lemma ClosingPiece(d: string)
    requires GoodDelimiter(d)
    ensures KeptParts(Split("--", d)) == []
  {
    assert !Occurs("--", d);
    SplitAbsent("--", d);
    assert CRLF[0] != "--"[0] && "\n"[0] != "--"[0];
    assert StripLeadingBreak("--") == "--";
    assert ["--"][1..] == [];
  }

  /** The parser finds the parts that the printer put between the delimiters. */
  lemma ParseMultipartText(boundary: string, parts: seq<string>)
    requires GoodDelimiter("--" + boundary)
    requires forall i :: 0 <= i < |parts| ==> Safe(parts[i], "--" + boundary)
    ensures ParseMultipart(MultipartText("--" + boundary, parts), boundary) == Entities(parts)
  {
    hide KeptParts, Safe, Entities, Split, GoodDelimiter;
    var d := "--" + boundary;
    MultipartIsDelimiterAndTail(d, parts);
    assert d[0] == '-';
    NoOccurrenceWithout("", d, '-');
    SplitPeel("", d, Tail(d, parts));
    var body := MultipartText(d, parts);
    assert "" + d + Tail(d, parts) == body;
    assert Split(body, d)[1..] == Split(Tail(d, parts), d);
    TailIsParts(d, parts);
  }

  // ----- looking headers up -----

  predicate Unnamed(headers: seq<Header>, key: string) {
    forall i :: 0 <= i < |headers| ==> Lower(headers[i].name) != key
  }

  lemma {:induction false} RecordedOfSum(sofar: Headers, a: seq<Header>, b: seq<Header>)
    ensures Recorded(sofar, a + b) == Recorded(Recorded(sofar, a), b)
    decreases |a|
  {
    hide Text.Lower, Text.Trim;
    if a == [] {
      assert a + b == b;
    } else {
      RecordedOfSum(sofar[Lower(a[0].name) := Trim(a[0].value)], a[1..], b);
      assert (a + b)[1..] == a[1..] + b;
    }
  }

  lemma {:induction false} RecordedElsewhere(sofar: Headers, headers: seq<Header>, key: string)
    requires Unnamed(headers, key)
    ensures Get(Recorded(sofar, headers), key) == Get(sofar, key)
    decreases |headers|
  {
    if headers != [] {
      RecordedElsewhere(sofar[Lower(headers[0].name) := Trim(headers[0].value)], headers[1..], key);
    }
  }

  lemma RecordedOne(sofar: Headers, h: Header, key: string)
    requires Lower(h.name) == key && Trimmed(h.value)
    ensures Recorded(sofar, [h]) == sofar[key := h.value]
  {
    hide Text.Lower, Text.Trim, Text.Trimmed;
    TrimOfTrimmed(h.value);
    assert [h][1..] == [];
  }

  lemma ContentTypeName()
    ensures Lower("Content-Type") == "content-type"
  {
  }

  lemma ContentDispositionName()
    ensures Lower("Content-Disposition") == "content-disposition"
  {
  }

  lemma ContentEncodingName()
    ensures Lower("Content-Transfer-Encoding") == "content-transfer-encoding"
  {
  }

  const TYPE := "content-type"
  const DISPOSITION := "content-disposition"
  const ENCODING := "content-transfer-encoding"

  /** The keys a part's treatment depends on. */
  predicate ContentKeys(headers: Headers, contentType: string, disposition: Option<string>) {
    Get(headers, TYPE) == Some(contentType) && Get(headers, DISPOSITION) == disposition
  }

  predicate IsBase64(headers: Headers) {
    Get(headers, ENCODING) == Some("base64")
  }

  /** Content headers recorded after other headers that do not carry content. */
  lemma RecordType(sofar: Headers, contentType: string)
    requires Trimmed(contentType) && Get(sofar, DISPOSITION) == None
    ensures ContentKeys(Recorded(sofar, [Header("Content-Type", contentType)]), contentType, None)
  {
    hide Recorded, Text.Lower, Text.Trimmed;
    ContentTypeName();
    RecordedOne(sofar, Header("Content-Type", contentType), TYPE);
    assert |TYPE| != |DISPOSITION|;
  }

  lemma RecordDisposition(sofar: Headers, contentType: string, disposition: string)
    requires ContentKeys(sofar, contentType, None) && Trimmed(disposition)
    ensures ContentKeys(Recorded(sofar, [Header("Content-Disposition", disposition)]), contentType, Some(disposition))
  {
    hide Recorded, Text.Lower, Text.Trimmed;
    ContentDispositionName();
    RecordedOne(sofar, Header("Content-Disposition", disposition), DISPOSITION);
    assert |TYPE| != |DISPOSITION|;
  }

  lemma RecordEncoding(sofar: Headers, contentType: string, disposition: Option<string>)
    requires ContentKeys(sofar, contentType, disposition)
    ensures var r := Recorded(sofar, [BASE64]); ContentKeys(r, contentType, disposition) && IsBase64(r)
  {
    hide Recorded, Text.Lower;
    ContentEncodingName();
    RecordedOne(sofar, BASE64, ENCODING);
    assert |ENCODING| > |DISPOSITION| > |TYPE|;
  }

  lemma RecordLeaf(sofar: Headers, contentType: string)
    requires Trimmed(contentType) && Get(sofar, DISPOSITION) == None
    ensures var r := Recorded(sofar, [Header("Content-Type", contentType), BASE64]);
            ContentKeys(r, contentType, None) && IsBase64(r)
  {
    hide Recorded, ContentKeys, Text.Trimmed;
    var h := Header("Content-Type", contentType);
    RecordType(sofar, contentType);
    RecordEncoding(Recorded(sofar, [h]), contentType, None);
    RecordedOfSum(sofar, [h], [BASE64]);
    assert [h] + [BASE64] == [h, BASE64];
  }

  lemma RecordAttachment(a: MimeAttachment)
    ensures var r := Recorded(map[], AttachmentHeaders(a));
            ContentKeys(r, AttachmentType(a), Some(AttachmentDisposition(a))) && IsBase64(r)
  {
    hide Recorded, Text.Trimmed, AttachmentType, AttachmentDisposition, ContentKeys;
    EmptyHasNoContent();
    var t, d := Header("Content-Type", AttachmentType(a)), Header("Content-Disposition", AttachmentDisposition(a));
    AttachmentValuesTrimmed(a);
    RecordType(map[], AttachmentType(a));
    var r := Recorded(map[], [t]);
    RecordDisposition(r, AttachmentType(a), AttachmentDisposition(a));
    RecordEncoding(Recorded(r, [d]), AttachmentType(a), Some(AttachmentDisposition(a)));
    RecordedOfSum(map[], [t], [d]);
    RecordedOfSum(map[], [t] + [d], [BASE64]);
    assert [t] + [d] + [BASE64] == AttachmentHeaders(a);
  }

  lemma EmptyHasNoContent()
    ensures Get(map[], DISPOSITION) == None
  {
  }

  lemma AttachmentValuesTrimmed(a: MimeAttachment)
    ensures Trimmed(AttachmentType(a)) && OneLine(AttachmentType(a))
    ensures Trimmed(AttachmentDisposition(a)) && OneLine(AttachmentDisposition(a))
  {
    hide NormalizeHeaderValue;
    var t, f := NormalizeHeaderValue(a.contentType), NormalizeHeaderValue(a.filename);
    assert AttachmentType(a) == t + "; name=\"" + f + "\"";
    assert AttachmentType(a)[|AttachmentType(a)| - 1] == '"';
    assert AttachmentType(a)[0] == if t == "" then ';' else t[0];
  }

  // ----- attributes read back -----

  lemma UntilQuoteStops(value: string, rest: string)
    requires '"' !in value && ';' !in value
    ensures UntilQuote(value + "\"" + rest) == value
  {
    if value == "" {
      assert (value + "\"" + rest)[0] == '"';
    } else {
      UntilQuoteStops(value[1..], rest);
      assert (value + "\"" + rest)[1..] == value[1..] + "\"" + rest;
    }
  }

  lemma NotNamedHere(prefix: string, name: string, rest: string, from: nat)
    requires name != "" && name[|name| - 1] == '=' && Lower(name) == name
    requires '=' !in prefix && '=' !in name[..|name| - 1] && from < |prefix|
    ensures !NamedAt(prefix + name + rest, name, from)
  {
    var s := prefix + name + rest;
    var k := from + |name| - 1;
    assert s[k] == if k < |prefix| then prefix[k] else name[..|name| - 1][k - |prefix|];
    assert Lower(s[from..from + |name|])[|name| - 1] == LowerChar(s[k]);
  }

  lemma QuotedValueIsFound(value: string, rest: string)
    requires value != "" && '"' !in value && ';' !in value
    ensures QuotedValue("\"" + (value + "\"" + rest)) == value
  {
    hide UntilQuote;
    UntilQuoteStops(value, rest);
    assert ("\"" + (value + "\"" + rest))[1..] == value + "\"" + rest;
  }

  lemma NamedRightThere(prefix: string, name: string, tail: string)
    requires Lower(name) == name
    ensures var s := prefix + name + tail;
            NamedAt(s, name, |prefix|) && s[|prefix| + |name|..] == tail
  {
    hide Lower;
    var s := prefix + name + tail;
    assert s[|prefix|..|prefix| + |name|] == name;
  }

  /** An attribute whose name ends with the first equals sign of the header is the one that is found. */
  lemma {:induction false} AttributeIsFound(prefix: string, name: string, value: string, rest: string, from: nat)
    requires name != "" && name[|name| - 1] == '=' && Lower(name) == name
    requires '=' !in prefix && from <= |prefix|
    requires '=' !in name[..|name| - 1]
    requires value != "" && '"' !in value && ';' !in value
    ensures Attribute(prefix + name + "\"" + value + "\"" + rest, name, from) == Some(value)
    decreases |prefix| - from
  {
    hide NamedAt, QuotedValue, Lower;
    var s := prefix + name + "\"" + value + "\"" + rest;
    var tail := "\"" + (value + "\"" + rest);
    assert s == prefix + name + tail;
    if from == |prefix| {
      NamedRightThere(prefix, name, tail);
      QuotedValueIsFound(value, rest);
    } else {
      NotNamedHere(prefix, name, tail, from);
      assert tail == "\"" + value + "\"" + rest;
      AttributeIsFound(prefix, name, value, rest, from + 1);
    }
  }

  /** A file name comes back exactly when it is not blank and holds no quote and no semicolon. */
  lemma FilenameComesBack(a: MimeAttachment)
    ensures var f := NormalizeHeaderValue(a.filename);
            ExtractFilename(Some(AttachmentDisposition(a)), AttachmentType(a)) == Some(f)
            <==> (f != "" && '"' !in f && ';' !in f)
  {
    hide NormalizeHeaderValue, AttachmentType;
    var f := NormalizeHeaderValue(a.filename);
    if f != "" && '"' !in f && ';' !in f {
      assert AttachmentDisposition(a) == "attachment; " + "filename=" + "\"" + f + "\"" + "";
      AttributeIsFound("attachment; ", "filename=", f, "", 0);
    }
  }

  // ----- leaves read back -----

  lemma EncodedBodyIsQuiet(b: seq<byte>)
    ensures Quiet(Body(b)) && '-' !in Body(b)
  {
    hide Base64.Encode, Base64.Rows, Base64.Fold;
    FoldIsRows(Encode(b));
    RowsAreQuiet(Encode(b));
  }

  lemma CollectLeaf(headers: Headers, b: seq<byte>, sofar: Content)
    requires IsBase64(headers) && !IsMultipart(ContentTypeOf(headers))
    ensures Collect(headers, Body(b), sofar) == Some(AddLeaf(headers, b, sofar))
  {
    hide AddLeaf, IsMultipart, Base64.Fold, Base64.Encode, Base64.Atob, Base64.StripSpaces;
    DecodeUndoesPrint(b);
    assert Lower("base64") == "base64";
    assert DecodeBody(Body(b), Get(headers, ENCODING)) == Some(b);
  }

  lemma NamedShowsEnds(s: string, i: int)
    requires NamedAt(s, "name=", i)
    ensures s[i + 4] == '=' && LowerChar(s[i]) == 'n'
  {
    assert Lower(s[i..i + 5])[0] == LowerChar(s[i]);
    assert Lower(s[i..i + 5])[4] == LowerChar(s[i + 4]);
  }

  lemma NoNameAttribute(s: string, from: nat)
    requires from <= |s|
    requires forall i :: 0 <= i <= |s| - 5 ==> s[i + 4] != '=' || LowerChar(s[i]) != 'n'
    ensures Attribute(s, "name=", from) == None
    decreases |s| - from
  {
    if NamedAt(s, "name=", from) {
      NamedShowsEnds(s, from);
    }
    if from < |s| {
      NoNameAttribute(s, from + 1);
    }
  }

  lemma NamedShowsSlash(s: string, i: nat)
    requires NamedAt(s, "text/html", i)
    ensures s[i + 4] == '/' && LowerChar(s[i + 5]) == 'h'
  {
    assert Lower(s[i..i + 9])[4] == LowerChar(s[i + 4]);
    assert Lower(s[i..i + 9])[5] == LowerChar(s[i + 5]);
  }

  /** A type that begins with the letter t, has no slash but the one after "text", and names nothing. */
  lemma PlainIsNotHtml(v: string)
    requires |v| >= 6 && v[5] == 'p' && forall i :: 0 <= i < |v| && v[i] == '/' ==> i == 4
    ensures !IsHtml(v)
  {
    if i :| 0 <= i <= |v| && NamedAt(v, "text/html", i) {
      NamedShowsSlash(v, i);
    }
  }

  lemma TextIsNotMultipart(v: string)
    requires v != "" && v[0] == 't'
    ensures !IsMultipart(v)
  {
    assert Lower(v)[0] == 't';
  }

  lemma PlainIsText()
    ensures !IsMultipart(TEXT_PLAIN.value) && !IsHtml(TEXT_PLAIN.value)
    ensures AttributeOf(Some(TEXT_PLAIN.value), "name=") == None
  {
    hide IsHtml, IsMultipart, Attribute;
    NoNameAttribute(TEXT_PLAIN.value, 0);
    TextIsNotMultipart(TEXT_PLAIN.value);
    PlainIsNotHtml(TEXT_PLAIN.value);
  }

  lemma HtmlPrefixIsHtml(v: string)
    requires |v| >= 9 && v[..9] == "text/html"
    ensures IsHtml(v)
  {
    assert v[0..9] == "text/html" && Lower("text/html") == "text/html";
    assert NamedAt(v, "text/html", 0);
  }

  lemma HtmlIsHtml()
    ensures !IsMultipart(TEXT_HTML.value) && IsHtml(TEXT_HTML.value)
    ensures AttributeOf(Some(TEXT_HTML.value), "name=") == None
  {
    hide IsHtml, IsMultipart, Attribute;
    NoNameAttribute(TEXT_HTML.value, 0);
    TextIsNotMultipart(TEXT_HTML.value);
    HtmlPrefixIsHtml(TEXT_HTML.value);
  }

  lemma NoDispositionMeansNone()
    ensures AttributeOf(None, "filename=") == None && !MentionsAttachment(None)
  {
  }

  lemma CollectText(headers: Headers, b: seq<byte>, sofar: Content)
    requires ContentKeys(headers, TEXT_PLAIN.value, None) && IsBase64(headers)
    ensures Collect(headers, Body(b), sofar) == Some(sofar.(text := Some(b)))
  {
    hide IsMultipart, IsHtml, Body, Attribute, Collect;
    PlainIsText();
    NoDispositionMeansNone();
    CollectLeaf(headers, b, sofar);
  }

  lemma CollectHtml(headers: Headers, b: seq<byte>, sofar: Content)
    requires ContentKeys(headers, TEXT_HTML.value, None) && IsBase64(headers)
    ensures Collect(headers, Body(b), sofar) == Some(sofar.(html := Some(b)))
  {
    hide IsMultipart, IsHtml, Body, Attribute, Collect;
    HtmlIsHtml();
    NoDispositionMeansNone();
    CollectLeaf(headers, b, sofar);
  }

  // ----- attachments read back -----

  /** What an attachment part contributes. A part whose type says multipart is searched for nested parts,
      of which an encoded body has none, so it contributes nothing. */
  function Received(a: MimeAttachment): seq<ParsedAttachment> {
    if IsMultipart(AttachmentType(a)) then []
    else [ParsedAttachment(ExtractFilename(Some(AttachmentDisposition(a)), AttachmentType(a)),
                           AttachmentType(a), a.content, Some("base64"))]
  }

  function ReceivedAll(attachments: seq<MimeAttachment>): seq<ParsedAttachment> {
    if attachments == [] then [] else Received(attachments[0]) + ReceivedAll(attachments[1..])
  }

  lemma DispositionMentionsAttachment(a: MimeAttachment)
    ensures MentionsAttachment(Some(AttachmentDisposition(a)))
  {
    hide NormalizeHeaderValue;
    var v := AttachmentDisposition(a);
    assert v[0..10] == "attachment" && Lower("attachment") == "attachment";
    assert NamedAt(v, "attachment", 0);
  }

  lemma NoPartsInQuietBody(body: string, boundary: string)
    requires '-' !in body
    ensures ParseMultipart(body, boundary) == []
  {
    var d := "--" + boundary;
    NoOccurrenceWithout(body, d, '-');
    SplitAbsent(body, d);
    assert [body][1..] == [];
  }

  lemma CollectAttachment(headers: Headers, a: MimeAttachment, sofar: Content)
    requires ContentKeys(headers, AttachmentType(a), Some(AttachmentDisposition(a))) && IsBase64(headers)
    ensures Collect(headers, Body(a.content), sofar)
         == Some(sofar.(attachments := sofar.attachments + Received(a)))
  {
    hide IsMultipart, IsHtml, Body, AttachmentType, AttachmentDisposition, ExtractFilename, ParseMultipart, Attribute;
    if IsMultipart(AttachmentType(a)) {
      EncodedBodyIsQuiet(a.content);
      assert sofar.attachments + [] == sofar.attachments;
      var boundary := AttributeOf(Some(AttachmentType(a)), "boundary=");
      if boundary.Some? {
        NoPartsInQuietBody(Body(a.content), boundary.value);
      }
    } else {
      CollectLeaf(headers, a.content, sofar);
      DispositionMentionsAttachment(a);
    }
  }
}
