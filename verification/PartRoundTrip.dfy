/** Reading back the parts of a multipart message: parts in sequence, boundaries that are found, and delimiters
    that do not occur where they must not. */
module PartRoundTrip {
  import opened Text
  import opened Base64
  import opened EmailParser
  import opened Mime
  import opened EntityRoundTrip

  // ----- parts in sequence -----

  lemma {:induction false} CollectAllOfSum(a: seq<Entity>, b: seq<Entity>, n: nat, sofar: Content)
    requires forall part :: part in a + b ==> |part.body| < n
    ensures forall part :: part in a ==> |part.body| < n
    ensures forall part :: part in b ==> |part.body| < n
    ensures CollectAll(a + b, n, sofar)
         == (var r := CollectAll(a, n, sofar); if r.None? then None else CollectAll(b, n, r.value))
    decreases |a|
  {
    hide Collect;
    assert forall part :: part in a ==> part in a + b;
    assert forall part :: part in b ==> part in a + b;
    if a == [] {
      assert a + b == b;
    } else {
      assert (a + b)[1..] == a[1..] + b && (a + b)[0] == a[0];
      var next := Collect(a[0].headers, a[0].body, sofar);
      if next.Some? {
        CollectAllOfSum(a[1..], b, n, next.value);
      }
    }
  }

  lemma CollectOne(e: Entity, n: nat, sofar: Content)
    requires |e.body| < n
    ensures CollectAll([e], n, sofar) == Collect(e.headers, e.body, sofar)
  {
    hide Collect;
    assert [e][1..] == [];
  }

  function WithText(c: Content, text: Option<string>): Content {
    if Present(text) then c.(text := Some(Utf8(text.value))) else c
  }

  function WithHtml(c: Content, html: Option<string>): Content {
    if Present(html) then c.(html := Some(Utf8(html.value))) else c
  }

  function TextParts(text: Option<string>): seq<string> {
    if Present(text) then [EntityText([TEXT_PLAIN, BASE64], Body(Utf8(text.value)))] else []
  }

  function HtmlParts(html: Option<string>): seq<string> {
    if Present(html) then [EntityText([TEXT_HTML, BASE64], Body(Utf8(html.value)))] else []
  }

  lemma EntitiesOfSum(a: seq<string>, b: seq<string>)
    ensures Entities(a + b) == Entities(a) + Entities(b)
  {
  }

  lemma TypeIsPlain(value: string)
    requires OneLine(value)
    ensures Plain(Header("Content-Type", value))
  {
  }

  lemma DispositionIsPlain(value: string)
    requires OneLine(value)
    ensures Plain(Header("Content-Disposition", value))
  {
  }

  lemma EncodingIsPlain()
    ensures Plain(BASE64)
  {
  }

  lemma LeafTypesAreOneLine()
    ensures OneLine(TEXT_PLAIN.value) && OneLine(TEXT_HTML.value)
  {
  }

  lemma LeafHeadersArePlain()
    ensures AllPlain([TEXT_PLAIN, BASE64]) && AllPlain([TEXT_HTML, BASE64])
  {
    hide Plain, Text.OneLine;
    LeafTypesAreOneLine();
    TypeIsPlain(TEXT_PLAIN.value);
    TypeIsPlain(TEXT_HTML.value);
    EncodingIsPlain();
  }

  lemma TextPartRead(text: Option<string>, n: nat, sofar: Content)
    requires forall part :: part in Entities(TextParts(text)) ==> |part.body| < n
    ensures CollectAll(Entities(TextParts(text)), n, sofar) == Some(WithText(sofar, text))
  {
    hide Body, Collect, AllPlain, SplitHeaderAndBody, EntityText, Base64.Utf8, Recorded, ContentKeys;
    if Present(text) {
      var b := Utf8(text.value);
      LeafHeadersArePlain();
      EncodedBodyIsQuiet(b);
      SplitEntity([TEXT_PLAIN, BASE64], Body(b));
      var e := Entity(Recorded(map[], [TEXT_PLAIN, BASE64]), Body(b));
      assert Entities(TextParts(text)) == [e];
      EmptyHasNoContent();
      RecordLeaf(map[], TEXT_PLAIN.value);
      CollectOne(e, n, sofar);
      CollectText(e.headers, b, sofar);
    }
  }

  lemma HtmlPartRead(html: Option<string>, n: nat, sofar: Content)
    requires forall part :: part in Entities(HtmlParts(html)) ==> |part.body| < n
    ensures CollectAll(Entities(HtmlParts(html)), n, sofar) == Some(WithHtml(sofar, html))
  {
    hide Body, Collect, AllPlain, SplitHeaderAndBody, EntityText, Base64.Utf8, Recorded, ContentKeys;
    if Present(html) {
      var b := Utf8(html.value);
      LeafHeadersArePlain();
      EncodedBodyIsQuiet(b);
      SplitEntity([TEXT_HTML, BASE64], Body(b));
      var e := Entity(Recorded(map[], [TEXT_HTML, BASE64]), Body(b));
      assert Entities(HtmlParts(html)) == [e];
      EmptyHasNoContent();
      RecordLeaf(map[], TEXT_HTML.value);
      CollectOne(e, n, sofar);
      CollectHtml(e.headers, b, sofar);
    }
  }

  lemma AlternativePartsRead(input: MimeInput, n: nat, sofar: Content)
    requires forall part :: part in Entities(AlternativeParts(input)) ==> |part.body| < n
    ensures CollectAll(Entities(AlternativeParts(input)), n, sofar)
         == Some(WithHtml(WithText(sofar, input.text), input.html))
  {
    hide CollectAll, Entities, EntityText, WithText, WithHtml, Body;
    var t, h := TextParts(input.text), HtmlParts(input.html);
    assert AlternativeParts(input) == t + h;
    EntitiesOfSum(t, h);
    CollectAllOfSum(Entities(t), Entities(h), n, sofar);
    TextPartRead(input.text, n, sofar);
    HtmlPartRead(input.html, n, WithText(sofar, input.text));
  }

  lemma AttachmentHeadersArePlain(a: MimeAttachment)
    ensures AllPlain(AttachmentHeaders(a))
  {
    hide AttachmentType, AttachmentDisposition, Plain, Text.Trimmed;
    AttachmentValuesTrimmed(a);
    TypeIsPlain(AttachmentType(a));
    DispositionIsPlain(AttachmentDisposition(a));
    EncodingIsPlain();
  }

  lemma AttachmentPartRead(a: MimeAttachment, n: nat, sofar: Content)
    requires forall part :: part in Entities([AttachmentPart(a)]) ==> |part.body| < n
    ensures CollectAll(Entities([AttachmentPart(a)]), n, sofar)
         == Some(sofar.(attachments := sofar.attachments + Received(a)))
  {
    hide Body, Collect, AllPlain, SplitHeaderAndBody, EntityText, Received, AttachmentHeaders, Recorded, ContentKeys;
    AttachmentHeadersArePlain(a);
    EncodedBodyIsQuiet(a.content);
    assert AttachmentHeaders(a) != [] by { NonEmptyHeaders(a); }
    SplitEntity(AttachmentHeaders(a), Body(a.content));
    var e := Entity(Recorded(map[], AttachmentHeaders(a)), Body(a.content));
    assert Entities([AttachmentPart(a)]) == [e];
    RecordAttachment(a);
    CollectOne(e, n, sofar);
    CollectAttachment(e.headers, a, sofar);
  }

  lemma NonEmptyHeaders(a: MimeAttachment)
    ensures AttachmentHeaders(a) != []
  {
  }

  function WithAttachments(c: Content, attachments: seq<MimeAttachment>): Content {
    c.(attachments := c.attachments + ReceivedAll(attachments))
  }

  lemma NoAttachmentParts(n: nat, sofar: Content)
    ensures CollectAll(Entities(AttachmentParts([])), n, sofar) == Some(WithAttachments(sofar, []))
  {
    assert Entities(AttachmentParts([])) == [];
    assert sofar.attachments + [] == sofar.attachments;
  }

  lemma {:induction false} AttachmentPartsRead(attachments: seq<MimeAttachment>, n: nat, sofar: Content)
    requires forall part :: part in Entities(AttachmentParts(attachments)) ==> |part.body| < n
    ensures CollectAll(Entities(AttachmentParts(attachments)), n, sofar)
         == Some(WithAttachments(sofar, attachments))
    decreases |attachments|
  {
    hide Entities, AttachmentPart, Received, CollectAll;
    if attachments == [] {
      NoAttachmentParts(n, sofar);
    } else {
      var first, rest := [AttachmentPart(attachments[0])], AttachmentParts(attachments[1..]);
      assert AttachmentParts(attachments) == first + rest;
      EntitiesOfSum(first, rest);
      CollectAllOfSum(Entities(first), Entities(rest), n, sofar);
      AttachmentPartRead(attachments[0], n, sofar);
      var next := sofar.(attachments := sofar.attachments + Received(attachments[0]));
      AttachmentPartsRead(attachments[1..], n, next);
      assert next.attachments + ReceivedAll(attachments[1..]) == sofar.attachments + ReceivedAll(attachments);
    }
  }

  // ----- boundaries -----

  /** The random part of a boundary: lower-case hexadecimal digits. */
  predicate IsToken(token: string) {
    forall i :: 0 <= i < |token| ==> '0' <= token[i] <= '9' || 'a' <= token[i] <= 'f'
  }

  /** A boundary fit to delimit parts: no quote, semicolon or line break. */
  predicate GoodBoundary(boundary: string) {
    boundary != "" && '"' !in boundary && ';' !in boundary && '\r' !in boundary && '\n' !in boundary
  }

  lemma BoundaryIsGood(kind: string, token: string)
    requires IsToken(token) && GoodBoundary(kind)
    ensures GoodBoundary(Boundary(kind, token))
  {
    assert GoodBoundary("mailagents-");
    assert GoodBoundary("-");
    assert forall c :: c in token ==> c != '"' && c != ';' && c != '\r' && c != '\n';
  }

  lemma GoodBoundaryDelimits(boundary: string)
    requires GoodBoundary(boundary)
    ensures GoodDelimiter("--" + boundary)
  {
    assert ("--" + boundary)[..2] == "--";
  }

  lemma BoundaryValueIsFound(prefix: string, boundary: string)
    requires GoodBoundary(boundary) && '=' !in prefix
    ensures AttributeOf(Some(prefix + "boundary=\"" + boundary + "\""), "boundary=") == Some(boundary)
  {
    AttributeIsFound(prefix, "boundary=", boundary, "", 0);
    assert prefix + "boundary=\"" + boundary + "\"" == prefix + "boundary=" + "\"" + boundary + "\"" + "";
  }

  lemma MultipartPrefix(v: string)
    requires |v| >= 10 && v[..10] == "multipart/"
    ensures IsMultipart(v)
  {
    assert Lower("multipart/") == "multipart/";
    assert Lower(v)[..10] == "multipart/";
  }

  /** The type of a multipart header, up to the boundary it names. */
  predicate NamesBoundary(value: string, boundary: string) {
    AttributeOf(Some(value), "boundary=") == Some(boundary) && IsMultipart(value) && Trimmed(value) && OneLine(value)
  }

  lemma HeaderNamesBoundary(kind: string, boundary: string)
    requires kind == "alternative" || kind == "mixed"
    requires GoodBoundary(boundary)
    ensures NamesBoundary("multipart/" + kind + "; boundary=\"" + boundary + "\"", boundary)
  {
    hide Attribute, IsMultipart;
    var prefix := "multipart/" + kind + "; ";
    var v := prefix + "boundary=\"" + boundary + "\"";
    assert '=' !in prefix;
    BoundaryValueIsFound(prefix, boundary);
    assert v[..10] == "multipart/";
    MultipartPrefix(v);
    assert v == "multipart/" + kind + "; boundary=\"" + boundary + "\"";
    assert v[0] == 'm' && v[|v| - 1] == '"';
  }

  lemma AlternativeNamesBoundary(boundary: string)
    requires GoodBoundary(boundary)
    ensures NamesBoundary(AlternativeHeader(boundary).value, boundary)
  {
    hide NamesBoundary;
    HeaderNamesBoundary("alternative", boundary);
    assert "multipart/" + "alternative" + "; boundary=\"" + boundary + "\"" == AlternativeHeader(boundary).value;
  }

  lemma MixedNamesBoundary(boundary: string)
    requires GoodBoundary(boundary)
    ensures NamesBoundary(MixedHeader(boundary).value, boundary)
  {
    hide NamesBoundary;
    HeaderNamesBoundary("mixed", boundary);
    assert "multipart/" + "mixed" + "; boundary=\"" + boundary + "\"" == MixedHeader(boundary).value;
  }

  /** A multipart body is read as its parts, one after the other. */
  lemma CollectMultipart(headers: Headers, boundary: string, parts: seq<string>, sofar: Content)
    requires "content-type" in headers && NamesBoundary(headers["content-type"], boundary)
    requires GoodBoundary(boundary)
    requires forall i :: 0 <= i < |parts| ==> Safe(parts[i], "--" + boundary)
    ensures var body := MultipartText("--" + boundary, parts);
            (forall part :: part in Entities(parts) ==> |part.body| < |body|)
            && Collect(headers, body, sofar) == CollectAll(Entities(parts), |body|, sofar)
  {
    hide ParseMultipart, Safe, Attribute, IsMultipart, GoodBoundary, GoodDelimiter, MultipartText, Entities;
    GoodBoundaryDelimits(boundary);
    ParseMultipartText(boundary, parts);
  }

  // ----- delimiters do not occur inside parts -----

  /** A delimiter made of dashes, small letters and digits. */
  predicate Bare(d: string) {
    d != "" && forall i :: 0 <= i < |d| ==> d[i] == '-' || 'a' <= d[i] <= 'z' || '0' <= d[i] <= '9'
  }

  lemma AbsentIsSafe(part: string, d: string)
    requires !Occurs(part, d) && part != "" && part[0] != '-' && part[0] != '\r' && part[0] != '\n'
    ensures Safe(part, d)
  {
    var i := IndexFrom(part, d, 0);
    assert i != -1 ==> OccursAt(part, d, i);
  }

  lemma AcrossBreak(a: string, b: string, d: string)
    requires Bare(d) && !Occurs(a, d) && !Occurs(b, d)
    ensures !Occurs(a + CRLF + b, d)
  {
    assert forall c :: c in CRLF ==> c !in d;
    assert d[0] in d && CRLF[1] == '\n';
    NoOccurrenceWithout(CRLF, d, d[0]);
    NoOccurrenceAcross(a, CRLF, d);
    NoOccurrenceAcross(a + CRLF, b, d);
  }

  predicate LinesLack(headers: seq<Header>, d: string) {
    forall i :: 0 <= i < |headers| ==> IndexFrom(Line(headers[i]), d, 0) == -1
  }

  lemma LackMeansAbsent(s: string, d: string)
    ensures IndexFrom(s, d, 0) == -1 <==> !Occurs(s, d)
  {
    var i := IndexFrom(s, d, 0);
    assert i != -1 ==> OccursAt(s, d, i);
  }

  lemma {:induction false} HeadLacks(headers: seq<Header>, d: string)
    requires Bare(d) && LinesLack(headers, d)
    ensures !Occurs(JoinLines(Lines(headers)), d)
  {
    if headers == [] {
      assert JoinLines(Lines(headers)) == "";
    } else {
      LackMeansAbsent(Line(headers[0]), d);
      if |headers| > 1 {
        HeadLacks(headers[1..], d);
        AcrossBreak(Line(headers[0]), JoinLines(Lines(headers[1..])), d);
        assert Lines(headers)[1..] == Lines(headers[1..]);
      }
    }
  }

  lemma EntityLacks(headers: seq<Header>, body: string, d: string)
    requires Bare(d) && headers != [] && LinesLack(headers, d) && !Occurs(body, d)
    ensures !Occurs(EntityText(headers, body), d)
  {
    assert !Occurs("", d);
    hide Bare;
    HeadLacks(headers, d);
    var head := JoinLines(Lines(headers));
    AcrossBreak(head, "", d);
    assert head + CRLF + "" == head + CRLF;
    AcrossBreak(head + CRLF, body, d);
  }

  lemma EntityIsSafe(headers: seq<Header>, body: string, d: string)
    requires Bare(d) && headers != [] && AllPlain(headers) && LinesLack(headers, d) && !Occurs(body, d)
    requires headers[0].name[0] != '-'
    ensures Safe(EntityText(headers, body), d)
  {
    hide Bare;
    EntityLacks(headers, body, d);
    PlainLinesAreDense(headers);
    assert EntityText(headers, body)[0] == Line(headers[0])[0] == headers[0].name[0];
    AbsentIsSafe(EntityText(headers, body), d);
  }

  lemma {:induction false} MultipartLacks(inner: string, parts: seq<string>, d: string)
    requires Bare(d) && !Occurs(inner, d) && !Occurs(inner + "--", d)
    requires forall i :: 0 <= i < |parts| ==> !Occurs(parts[i], d)
    ensures !Occurs(MultipartText(inner, parts), d)
  {
    hide Bare;
    if parts != [] {
      MultipartLacks(inner, parts[1..], d);
      AcrossBreak(inner, parts[0], d);
      AcrossBreak(inner + CRLF + parts[0], MultipartText(inner, parts[1..]), d);
    }
  }

  lemma {:induction false} MultipartIsQuiet(delimiter: string, parts: seq<string>)
    requires Bare(delimiter) && forall i :: 0 <= i < |parts| ==> Quiet(parts[i])
    ensures Quiet(MultipartText(delimiter, parts))
  {
    assert Quiet(delimiter) && Quiet(CRLF) && Quiet("--");
    hide Quiet;
    if parts == [] {
      QuietSum(delimiter, "--");
    } else {
      MultipartIsQuiet(delimiter, parts[1..]);
      QuietSum(delimiter, CRLF);
      QuietSum(delimiter + CRLF, parts[0]);
      QuietSum(delimiter + CRLF + parts[0], CRLF);
      QuietSum(delimiter + CRLF + parts[0] + CRLF, MultipartText(delimiter, parts[1..]));
    }
  }

  /** The facts about a delimiter that keep it apart from what is printed between delimiters. */
  predicate Distinct(boundary: string) {
    GoodBoundary(boundary) && Bare("--" + boundary) && 'm' in "--" + boundary && 'g' in "--" + boundary
  }

  lemma BareSum(a: string, b: string)
    requires Bare(a) && (b == "" || Bare(b))
    ensures Bare(a + b)
  {
    assert forall i :: 0 <= i < |a + b| ==> (a + b)[i] == if i < |a| then a[i] else b[i - |a|];
  }

  lemma StemIsBare()
    ensures Bare(STEM) && Bare("mixed") && Bare("alt") && Bare("-")
  {
  }

  const STEM := "--mailagents-"

  lemma StemLetters()
    ensures |STEM| == 13 && STEM[2] == 'm' && STEM[7] == 'g'
  {
  }

  lemma DelimiterOf(kind: string, token: string)
    ensures "--" + Boundary(kind, token) == STEM + kind + "-" + token
  {
    assert "--" + "mailagents-" == STEM;
  }

  lemma BoundaryIsDistinct(kind: string, token: string)
    requires IsToken(token) && (kind == "mixed" || kind == "alt")
    ensures Distinct(Boundary(kind, token))
  {
    var d := "--" + Boundary(kind, token);
    BoundaryIsGood(kind, token);
    assert token != "" ==> Bare(token);
    hide Bare, GoodBoundary, Boundary;
    StemIsBare();
    StemLetters();
    DelimiterOf(kind, token);
    BareSum(STEM, kind);
    BareSum(STEM + kind, "-");
    BareSum(STEM + kind + "-", token);
    assert d[2] == STEM[2] && d[7] == STEM[7];
  }

  lemma LeafLinesLack(d: string)
    requires 'm' in d && 'g' in d
    ensures LinesLack([TEXT_PLAIN, BASE64], d) && LinesLack([TEXT_HTML, BASE64], d)
  {
    PlainLineLacks(d);
    HtmlLineLacks(d);
    EncodingLineLacks(d);
  }

  lemma LineLacks(h: Header, c: char, d: string)
    requires c in d && c !in h.name && c !in h.value && c != ':' && c != ' '
    ensures IndexFrom(Line(h), d, 0) == -1
  {
    assert c !in Line(h);
    NoOccurrenceWithout(Line(h), d, c);
    LackMeansAbsent(Line(h), d);
  }

  lemma PlainLineLacks(d: string)
    requires 'g' in d
    ensures IndexFrom(Line(TEXT_PLAIN), d, 0) == -1
  {
    hide Line;
    LineLacks(TEXT_PLAIN, 'g', d);
  }

  lemma HtmlLineLacks(d: string)
    requires 'g' in d
    ensures IndexFrom(Line(TEXT_HTML), d, 0) == -1
  {
    hide Line;
    LineLacks(TEXT_HTML, 'g', d);
  }

  lemma EncodingLineLacks(d: string)
    requires 'm' in d
    ensures IndexFrom(Line(BASE64), d, 0) == -1
  {
    hide Line, Text.IndexFrom;
    assert 'm' !in "base64" && 'm' !in "Content-Transfer-Encoding";
    LineLacks(BASE64, 'm', d);
  }

  lemma BodyLacks(b: seq<byte>, d: string)
    requires |d| > 2 && d[..2] == "--"
    ensures !Occurs(Body(b), d)
  {
    EncodedBodyIsQuiet(b);
    assert d[0] == d[..2][0] == '-';
    NoOccurrenceWithout(Body(b), d, '-');
  }

  lemma LeafIsSafe(headers: seq<Header>, b: seq<byte>, boundary: string)
    requires Distinct(boundary)
    requires headers == [TEXT_PLAIN, BASE64] || headers == [TEXT_HTML, BASE64]
    ensures Safe(EntityText(headers, Body(b)), "--" + boundary)
    ensures !Occurs(EntityText(headers, Body(b)), "--" + boundary)
    ensures Quiet(EntityText(headers, Body(b)))
  {
    var d := "--" + boundary;
    assert d[..2] == "--" && headers[0].name[0] == 'C';
    hide Bare, Body, AllPlain, LinesLack, Safe, EntityText, Quiet, GoodBoundary;
    LeafLinesLack(d);
    LeafHeadersArePlain();
    BodyLacks(b, d);
    EncodedBodyIsQuiet(b);
    EntityIsSafe(headers, Body(b), d);
    EntityLacks(headers, Body(b), d);
    EntityIsQuiet(headers, Body(b));
  }

  lemma AlternativePartsAreSafe(input: MimeInput, boundary: string)
    requires Distinct(boundary)
    ensures forall i :: 0 <= i < |AlternativeParts(input)| ==>
              Safe(AlternativeParts(input)[i], "--" + boundary) && !Occurs(AlternativeParts(input)[i], "--" + boundary)
              && Quiet(AlternativeParts(input)[i])
  {
    hide Safe, Quiet, EntityText, Distinct, Body, Base64.Utf8;
    if Present(input.text) {
      LeafIsSafe([TEXT_PLAIN, BASE64], Utf8(input.text.value), boundary);
    }
    if Present(input.html) {
      LeafIsSafe([TEXT_HTML, BASE64], Utf8(input.html.value), boundary);
    }
  }

  // ----- the nested alternative part and the attachment parts -----

  lemma AlternativeEntityRead(input: MimeInput, alt: string, headers: Headers, sofar: Content)
    requires Distinct(alt) && "content-type" in headers && headers["content-type"] == AlternativeHeader(alt).value
    ensures Collect(headers, AlternativeBody(input, alt), sofar)
         == Some(WithHtml(WithText(sofar, input.text), input.html))
    ensures Quiet(AlternativeBody(input, alt))
  {
    hide Bare, GoodBoundary, NamesBoundary, AlternativeHeader, Safe, Quiet, AlternativeParts, Entities, Collect,
         MultipartText, WithHtml, WithText;
    AlternativePartsAreSafe(input, alt);
    AlternativeNamesBoundary(alt);
    CollectMultipart(headers, alt, AlternativeParts(input), sofar);
    AlternativePartsRead(input, |AlternativeBody(input, alt)|, sofar);
    MultipartIsQuiet("--" + alt, AlternativeParts(input));
  }

  /** The random token of the mixed boundary does not turn up in what the caller supplied. */
  predicate Fresh(attachments: seq<MimeAttachment>, boundary: string) {
    forall i :: 0 <= i < |attachments| ==> FreshFor(attachments[i], "--" + boundary)
  }

  predicate FreshFor(a: MimeAttachment, delimiter: string) {
    IndexFrom(NormalizeHeaderValue(a.contentType), delimiter, 0) == -1
    && IndexFrom(NormalizeHeaderValue(a.filename), delimiter, 0) == -1
  }

  lemma AroundValue(before: string, value: string, after: string, d: string)
    requires Bare(d) && !Occurs(before, d) && !Occurs(value, d) && !Occurs(after, d)
    requires before != "" && before[|before| - 1] !in d && after != "" && after[0] !in d
    ensures !Occurs(before + value + after, d)
  {
    NoOccurrenceAcross(before, value, d);
    NoOccurrenceAcross(before + value, after, d);
  }

  const TYPE_STEM := "Content-Type" + ": "
  const NAME_STEM := "; name=\""
  const DISPOSITION_STEM := "Content-Disposition" + ": " + "attachment; filename=\""

  lemma TypeStem(d: string)
    requires 'g' in d
    ensures !Occurs(TYPE_STEM, d) && TYPE_STEM != "" && TYPE_STEM[|TYPE_STEM| - 1] == ' '
  {
    NoOccurrenceWithout(TYPE_STEM, d, 'g');
  }

  lemma NameStem(d: string)
    requires 'g' in d
    ensures !Occurs(NAME_STEM, d) && NAME_STEM != "" && NAME_STEM[0] == ';' && NAME_STEM[|NAME_STEM| - 1] == '"'
  {
    NoOccurrenceWithout(NAME_STEM, d, 'g');
  }

  lemma DispositionStem(d: string)
    requires 'g' in d
    ensures !Occurs(DISPOSITION_STEM, d) && DISPOSITION_STEM != ""
    ensures DISPOSITION_STEM[|DISPOSITION_STEM| - 1] == '"'
  {
    assert 'g' !in "Content-Disposition" && 'g' !in ": " && 'g' !in "attachment; filename=\"";
    NoOccurrenceWithout(DISPOSITION_STEM, d, 'g');
  }

  lemma BareExcludes(d: string)
    requires Bare(d)
    ensures ' ' !in d && ';' !in d && '"' !in d
  {
  }

  lemma AttachmentTypeLineLacks(a: MimeAttachment, d: string)
    requires Bare(d) && 'g' in d
    requires !Occurs(NormalizeHeaderValue(a.contentType), d) && !Occurs(NormalizeHeaderValue(a.filename), d)
    ensures IndexFrom(Line(Header("Content-Type", AttachmentType(a))), d, 0) == -1
  {
    hide NormalizeHeaderValue, Bare;
    var t, f := NormalizeHeaderValue(a.contentType), NormalizeHeaderValue(a.filename);
    TypeStem(d);
    NameStem(d);
    BareExcludes(d);
    NoOccurrenceWithout("\"", d, 'g');
    AroundValue(TYPE_STEM, t, NAME_STEM, d);
    AroundValue(TYPE_STEM + t + NAME_STEM, f, "\"", d);
    assert Line(Header("Content-Type", AttachmentType(a))) == TYPE_STEM + t + NAME_STEM + f + "\"";
    LackMeansAbsent(TYPE_STEM + t + NAME_STEM + f + "\"", d);
  }

  lemma AttachmentDispositionLineLacks(a: MimeAttachment, d: string)
    requires Bare(d) && 'g' in d && !Occurs(NormalizeHeaderValue(a.filename), d)
    ensures IndexFrom(Line(Header("Content-Disposition", AttachmentDisposition(a))), d, 0) == -1
  {
    hide NormalizeHeaderValue, Bare;
    var f := NormalizeHeaderValue(a.filename);
    DispositionStem(d);
    BareExcludes(d);
    NoOccurrenceWithout("\"", d, 'g');
    AroundValue(DISPOSITION_STEM, f, "\"", d);
    DispositionLineIs(a);
    LackMeansAbsent(DISPOSITION_STEM + f + "\"", d);
  }

  lemma DispositionLineIs(a: MimeAttachment)
    ensures Line(Header("Content-Disposition", AttachmentDisposition(a)))
         == DISPOSITION_STEM + NormalizeHeaderValue(a.filename) + "\""
  {
    hide NormalizeHeaderValue;
    SumOfFour("Content-Disposition", ": ", "attachment; filename=\"", NormalizeHeaderValue(a.filename), "\"");
  }

  lemma SumOfFour(a: string, b: string, c: string, d: string, e: string)
    ensures a + b + (c + d + e) == a + b + c + d + e
  {
  }

  lemma FreshMeansAbsent(a: MimeAttachment, d: string)
    requires FreshFor(a, d)
    ensures !Occurs(NormalizeHeaderValue(a.contentType), d) && !Occurs(NormalizeHeaderValue(a.filename), d)
  {
    hide NormalizeHeaderValue, Text.IndexFrom;
    LackMeansAbsent(NormalizeHeaderValue(a.contentType), d);
    LackMeansAbsent(NormalizeHeaderValue(a.filename), d);
  }

  lemma AttachmentHeadersLack(a: MimeAttachment, d: string)
    requires Bare(d) && 'g' in d && 'm' in d && FreshFor(a, d)
    ensures LinesLack(AttachmentHeaders(a), d)
  {
    hide Bare, AttachmentType, AttachmentDisposition, Line, NormalizeHeaderValue, FreshFor, Text.IndexFrom;
    FreshMeansAbsent(a, d);
    AttachmentTypeLineLacks(a, d);
    AttachmentDispositionLineLacks(a, d);
    EncodingLineLacks(d);
  }

  lemma AttachmentHeadersStart(a: MimeAttachment)
    ensures AttachmentHeaders(a) != [] && AttachmentHeaders(a)[0].name[0] != '-'
  {
  }

  lemma AttachmentPartIsSafe(a: MimeAttachment, boundary: string)
    requires Distinct(boundary) && FreshFor(a, "--" + boundary)
    ensures Safe(AttachmentPart(a), "--" + boundary) && Quiet(AttachmentPart(a))
  {
    var d := "--" + boundary;
    assert d[..2] == "--";
    hide Bare, Body, AllPlain, Safe, EntityText, Quiet, GoodBoundary, AttachmentHeaders, LinesLack, FreshFor;
    AttachmentHeadersLack(a, d);
    AttachmentHeadersStart(a);
    AttachmentHeadersArePlain(a);
    BodyLacks(a.content, d);
    EncodedBodyIsQuiet(a.content);
    EntityIsSafe(AttachmentHeaders(a), Body(a.content), d);
    EntityIsQuiet(AttachmentHeaders(a), Body(a.content));
  }

  /** The nested part of a mixed message, as the parser and the outer delimiter see it. */
  function NestedPart(input: MimeInput, alt: string): string {
    EntityText([AlternativeHeader(alt)], AlternativeBody(input, alt))
  }

  lemma AlternativeHeaderIsPlain(alt: string)
    requires GoodBoundary(alt)
    ensures AllPlain([AlternativeHeader(alt)]) && AllPlain([MixedHeader(alt)])
  {
    AlternativeNamesBoundary(alt);
    MixedNamesBoundary(alt);
    assert OneLine(AlternativeHeader(alt).value) && OneLine(MixedHeader(alt).value);
    assert AlternativeHeader(alt).name == "Content-Type" && MixedHeader(alt).name == "Content-Type";
    hide Plain, Text.OneLine;
    TypeIsPlain(AlternativeHeader(alt).value);
    TypeIsPlain(MixedHeader(alt).value);
  }

  lemma NestedPartRead(input: MimeInput, alt: string, n: nat, sofar: Content)
    requires Distinct(alt)
    requires forall part :: part in Entities([NestedPart(input, alt)]) ==> |part.body| < n
    ensures CollectAll(Entities([NestedPart(input, alt)]), n, sofar)
         == Some(WithHtml(WithText(sofar, input.text), input.html))
    ensures Quiet(NestedPart(input, alt))
  {
    hide Bare, GoodBoundary, AllPlain, SplitHeaderAndBody, EntityText, Quiet, AlternativeBody, Recorded, Collect,
         WithHtml, WithText;
    var value, body := AlternativeHeader(alt).value, AlternativeBody(input, alt);
    AlternativeHeaderIsPlain(alt);
    EmptyHasNoContent();
    AlternativeNamesBoundary(alt);
    assert [AlternativeHeader(alt)] == [Header("Content-Type", value)];
    RecordType(map[], value);
    var headers := Recorded(map[], [AlternativeHeader(alt)]);
    AlternativeEntityRead(input, alt, headers, sofar);
    SplitEntity([AlternativeHeader(alt)], body);
    EntityIsQuiet([AlternativeHeader(alt)], body);
    var e := Entity(headers, body);
    assert Entities([NestedPart(input, alt)]) == [e];
    CollectOne(e, n, sofar);
  }
}
