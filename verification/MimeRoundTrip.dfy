/** Parsing a printed message. The main results say exactly what the parser returns for everything the
    printer can write, and exactly which attachments come back as they went in. */
module MimeRoundTrip {
  import opened Text
  import opened Base64
  import opened EmailParser
  import opened Mime
  import opened EntityRoundTrip
  import opened PartRoundTrip
  import opened HeaderRoundTrip
  import opened TextDecoding

  // ----- the whole mixed body -----

  lemma NestedPartIsSafe(input: MimeInput, altToken: string, mixedToken: string)
    requires IsToken(altToken) && IsToken(mixedToken)
    ensures Safe(NestedPart(input, Boundary("alt", altToken)), "--" + Boundary("mixed", mixedToken))
  {
    hide Bare, Body, AllPlain, Safe, EntityText, Quiet, GoodBoundary, LinesLack, AlternativeHeader, AlternativeParts;
    var alt, d := Boundary("alt", altToken), "--" + Boundary("mixed", mixedToken);
    BoundaryIsDistinct("alt", altToken);
    BoundaryIsDistinct("mixed", mixedToken);
    InnerDelimiterLacks(altToken, mixedToken);
    AlternativePartsAreSafe(input, Boundary("mixed", mixedToken));
    MultipartLacks("--" + alt, AlternativeParts(input), d);
    AlternativeHeaderIsPlain(alt);
    AlternativeLineLacks(altToken, mixedToken);
    AlternativeHeaderStarts(alt);
    EntityIsSafe([AlternativeHeader(alt)], AlternativeBody(input, alt), d);
  }

  lemma AlternativeHeaderStarts(alt: string)
    ensures AlternativeHeader(alt).name != "" && AlternativeHeader(alt).name[0] != '-'
  {
  }

  /** The mixed delimiter holds an x, which nothing about the alternative boundary does. */
  lemma MixedHasX(token: string)
    ensures 'x' in "--" + Boundary("mixed", token)
  {
    DelimiterOf("mixed", token);
    StemLetters();
    assert ("--" + Boundary("mixed", token))[15] == 'x';
  }

  lemma AltHasNoX(token: string)
    requires IsToken(token)
    ensures 'x' !in Boundary("alt", token)
  {
    assert 'x' !in "mailagents-" && 'x' !in "alt" && 'x' !in "-" && 'x' !in token;
  }

  lemma InnerDelimiterLacks(altToken: string, mixedToken: string)
    requires IsToken(altToken)
    ensures var inner, d := "--" + Boundary("alt", altToken), "--" + Boundary("mixed", mixedToken);
            !Occurs(inner, d) && !Occurs(inner + "--", d)
  {
    hide Boundary;
    var inner, d := "--" + Boundary("alt", altToken), "--" + Boundary("mixed", mixedToken);
    MixedHasX(mixedToken);
    AltHasNoX(altToken);
    assert 'x' !in inner && 'x' !in inner + "--";
    NoOccurrenceWithout(inner, d, 'x');
    NoOccurrenceWithout(inner + "--", d, 'x');
  }

  const ALTERNATIVE_STEM := "multipart/alternative; boundary=\""

  lemma AlternativeLineLacks(altToken: string, mixedToken: string)
    requires IsToken(altToken)
    ensures LinesLack([AlternativeHeader(Boundary("alt", altToken))], "--" + Boundary("mixed", mixedToken))
  {
    hide Boundary;
    var h := AlternativeHeader(Boundary("alt", altToken));
    MixedHasX(mixedToken);
    AltHasNoX(altToken);
    assert 'x' !in ALTERNATIVE_STEM;
    assert 'x' !in h.name;
    assert h.value == ALTERNATIVE_STEM + Boundary("alt", altToken) + "\"";
    LineLacks(h, 'x', "--" + Boundary("mixed", mixedToken));
  }

  lemma MixedPartsAreSafe(input: MimeInput, mixedToken: string, altToken: string)
    requires IsToken(altToken) && IsToken(mixedToken) && Fresh(input.attachments, Boundary("mixed", mixedToken))
    ensures var parts := [NestedPart(input, Boundary("alt", altToken))] + AttachmentParts(input.attachments);
            forall i :: 0 <= i < |parts| ==> Safe(parts[i], "--" + Boundary("mixed", mixedToken)) && Quiet(parts[i])
  {
    hide Boundary, Safe, Quiet, NestedPart, AttachmentPart, Distinct, FreshFor, Entities, CollectAll;
    var mixed, alt := Boundary("mixed", mixedToken), Boundary("alt", altToken);
    BoundaryIsDistinct("alt", altToken);
    BoundaryIsDistinct("mixed", mixedToken);
    NestedPartIsSafe(input, altToken, mixedToken);
    NestedPartIsQuiet(input, alt);
    forall i | 0 <= i < |input.attachments|
      ensures Safe(AttachmentPart(input.attachments[i]), "--" + mixed) && Quiet(AttachmentPart(input.attachments[i]))
    {
      AttachmentPartIsSafe(input.attachments[i], mixed);
    }
  }

  lemma NestedPartIsQuiet(input: MimeInput, alt: string)
    requires Distinct(alt)
    ensures Quiet(NestedPart(input, alt)) && Quiet(AlternativeBody(input, alt))
  {
    hide Bare, GoodBoundary, AllPlain, EntityText, Quiet, Safe, AlternativeParts, MultipartText;
    AlternativePartsAreSafe(input, alt);
    MultipartIsQuiet("--" + alt, AlternativeParts(input));
    AlternativeHeaderIsPlain(alt);
    EntityIsQuiet([AlternativeHeader(alt)], AlternativeBody(input, alt));
  }

  /** What a printed message holds, as the parser reports it. */
  function Expected(input: MimeInput): Content {
    WithAttachments(WithHtml(WithText(EMPTY, input.text), input.html), input.attachments)
  }

  lemma MixedPartsRead(input: MimeInput, alt: string, n: nat, sofar: Content)
    requires Distinct(alt)
    requires forall part :: part in Entities([NestedPart(input, alt)] + AttachmentParts(input.attachments))
               ==> |part.body| < n
    ensures CollectAll(Entities([NestedPart(input, alt)] + AttachmentParts(input.attachments)), n, sofar)
         == Some(WithAttachments(WithHtml(WithText(sofar, input.text), input.html), input.attachments))
  {
    hide Entities, NestedPart, AttachmentParts, CollectAll, WithHtml, WithText, WithAttachments, ReceivedAll, Distinct;
    var c := WithHtml(WithText(sofar, input.text), input.html);
    var first, rest := [NestedPart(input, alt)], AttachmentParts(input.attachments);
    EntitiesOfSum(first, rest);
    CollectAllOfSum(Entities(first), Entities(rest), n, sofar);
    NestedPartRead(input, alt, n, sofar);
    AttachmentPartsRead(input.attachments, n, c);
  }

  lemma MixedBodyRead(input: MimeInput, mixedToken: string, altToken: string, headers: Headers)
    requires IsToken(altToken) && IsToken(mixedToken) && Fresh(input.attachments, Boundary("mixed", mixedToken))
    requires "content-type" in headers && headers["content-type"] == MixedHeader(Boundary("mixed", mixedToken)).value
    ensures var body := MixedBody(input, Boundary("mixed", mixedToken), Boundary("alt", altToken));
            Collect(headers, body, EMPTY) == Some(Expected(input)) && Quiet(body)
  {
    hide Boundary, Safe, Quiet, NestedPart, AttachmentParts, Entities, CollectAll, Collect, NamesBoundary, Fresh,
         Bare, GoodBoundary, MixedHeader, MultipartText, WithHtml, WithText, WithAttachments;
    var mixed, alt := Boundary("mixed", mixedToken), Boundary("alt", altToken);
    var parts := [NestedPart(input, alt)] + AttachmentParts(input.attachments);
    BoundaryIsDistinct("alt", altToken);
    BoundaryIsDistinct("mixed", mixedToken);
    MixedPartsAreSafe(input, mixedToken, altToken);
    MixedNamesBoundary(mixed);
    CollectMultipart(headers, mixed, parts, EMPTY);
    MixedBodyIsParts(input, mixed, alt);
    MixedPartsRead(input, alt, |MixedBody(input, mixed, alt)|, EMPTY);
    MultipartIsQuiet("--" + mixed, parts);
  }

  lemma MixedBodyIsParts(input: MimeInput, mixed: string, alt: string)
    ensures MixedBody(input, mixed, alt)
         == MultipartText("--" + mixed, [NestedPart(input, alt)] + AttachmentParts(input.attachments))
  {
  }

  // ----- the top headers -----

  predicate PlainName(name: string) {
    name != "" && Trimmed(name) && ':' !in name && OneLine(name)
  }

  lemma {:induction false} NormalizedListIsOneLine(values: seq<string>, separator: string)
    requires OneLine(separator)
    ensures OneLine(NormalizedList(values, separator))
  {
    hide NormalizeHeaderValue;
    if values != [] {
      NormalizedListIsOneLine(values[1..], separator);
      assert NormalizeAll(values)[1..] == NormalizeAll(values[1..]);
    }
  }

  /** A header block that is plain and carries none of the content headers. */
  predicate Outer(headers: seq<Header>) {
    AllPlain(headers)
    && forall i :: 0 <= i < |headers| ==> |headers[i].name| < |TYPE| || headers[i].name == "MIME-Version"
  }

  lemma OptionalIsOuter(name: string, value: Option<string>)
    requires PlainName(name) && |name| < |TYPE|
    ensures Outer(OptionalHeader(name, value))
  {
    hide NormalizeHeaderValue;
  }

  lemma ListIsOuter(name: string, values: seq<string>, separator: string)
    requires PlainName(name) && |name| < |TYPE| && OneLine(separator)
    ensures Outer(ListHeader(name, values, separator))
  {
    hide NormalizedList;
    NormalizedListIsOneLine(values, separator);
  }

  lemma OuterSum(a: seq<Header>, b: seq<Header>)
    requires Outer(a) && Outer(b)
    ensures Outer(a + b)
  {
    hide Plain;
  }

  lemma NamesArePlain()
    ensures PlainName("Date") && PlainName("Message-ID") && PlainName("Cc") && PlainName("Bcc")
    ensures PlainName("Reply-To") && PlainName("In-Reply-To") && PlainName("References")
  {
    NamesArePlain1();
    NamesArePlain2();
  }

  lemma NamesArePlain1()
    ensures PlainName("Date") && PlainName("Message-ID") && PlainName("Cc") && PlainName("Bcc")
  {
  }

  lemma NamesArePlain2()
    ensures PlainName("Reply-To") && PlainName("In-Reply-To") && PlainName("References")
  {
  }

  lemma FixedNamesArePlain()
    ensures PlainName("From") && PlainName("To") && PlainName("Subject") && PlainName("MIME-Version") && OneLine("1.0")
  {
  }

  lemma NamedIsOuter(name: string, value: string)
    requires PlainName(name) && OneLine(value) && (|name| < |TYPE| || name == "MIME-Version")
    ensures Outer([Header(name, value)])
  {
  }

  lemma FixedLengths()
    ensures |"From"| < |TYPE| && |"To"| < |TYPE| && |"Subject"| < |TYPE| && OneLine(", ")
  {
  }

  lemma FixedIsOuter(input: MimeInput)
    ensures Outer(FixedHeaders(input))
  {
    hide NormalizeHeaderValue, NormalizedList, Text.OneLine, PlainName, Outer;
    FixedNamesArePlain();
    FixedLengths();
    var f, t := Header("From", NormalizeHeaderValue(input.from)), Header("To", NormalizedList(input.to, ", "));
    var s, v := Header("Subject", NormalizeHeaderValue(input.subject)), Header("MIME-Version", "1.0");
    NormalizedListIsOneLine(input.to, ", ");
    NamedIsOuter(f.name, f.value);
    NamedIsOuter(t.name, t.value);
    NamedIsOuter(s.name, s.value);
    NamedIsOuter(v.name, v.value);
    OuterSum([f], [t]);
    OuterSum([f] + [t], [s]);
    OuterSum([f] + [t] + [s], [v]);
    assert [f] + [t] + [s] + [v] == FixedHeaders(input);
  }

  lemma NameLengths()
    ensures |TYPE| == 12 && |"Date"| < 12 && |"Message-ID"| < 12 && |"Cc"| < 12 && |"Bcc"| < 12
    ensures |"Reply-To"| < 12 && |"In-Reply-To"| < 12 && |"References"| < 12
    ensures OneLine(", ") && OneLine(" ")
  {
  }

  lemma TopIsOuter(input: MimeInput)
    ensures Outer(TopHeaders(input))
  {
    NameLengths();
    NamesArePlain();
    hide Outer, OptionalHeader, ListHeader, FixedHeaders, Text.OneLine, PlainName;
    FixedIsOuter(input);
    OptionalIsOuter("Date", input.date);
    OptionalIsOuter("Message-ID", input.messageId);
    ListIsOuter("Cc", input.cc, ", ");
    ListIsOuter("Bcc", input.bcc, ", ");
    ListIsOuter("Reply-To", input.replyTo, ", ");
    OptionalIsOuter("In-Reply-To", input.inReplyTo);
    ListIsOuter("References", input.references, " ");
    var a := FixedHeaders(input);
    OuterSum(a, OptionalHeader("Date", input.date));
    a := a + OptionalHeader("Date", input.date);
    OuterSum(a, OptionalHeader("Message-ID", input.messageId));
    a := a + OptionalHeader("Message-ID", input.messageId);
    OuterSum(a, ListHeader("Cc", input.cc, ", "));
    a := a + ListHeader("Cc", input.cc, ", ");
    OuterSum(a, ListHeader("Bcc", input.bcc, ", "));
    a := a + ListHeader("Bcc", input.bcc, ", ");
    OuterSum(a, ListHeader("Reply-To", input.replyTo, ", "));
    a := a + ListHeader("Reply-To", input.replyTo, ", ");
    OuterSum(a, OptionalHeader("In-Reply-To", input.inReplyTo));
    a := a + OptionalHeader("In-Reply-To", input.inReplyTo);
    OuterSum(a, ListHeader("References", input.references, " "));
  }

  lemma OuterHasNoDisposition(headers: seq<Header>)
    requires Outer(headers)
    ensures Get(Recorded(map[], headers), DISPOSITION) == None
  {
    assert |DISPOSITION| == 19 && |"MIME-Version"| == 12 && |TYPE| == 12;
    hide Recorded, Plain;
    EmptyHasNoContent();
    RecordedElsewhere(map[], headers, DISPOSITION);
  }

  // ----- the round trip -----

  /** The message that the printer writes, given the random parts of its boundaries. */
  function Printed(input: MimeInput, mixedToken: string, altToken: string): string {
    Message(input, Boundary("mixed", mixedToken), Boundary("alt", altToken))
  }

  function Outcome(headers: seq<Header>, content: Content): ParsedEmail {
    var recorded := Recorded(map[], headers);
    ParsedEmail(recorded, Get(recorded, "message-id"), Get(recorded, "in-reply-to"), content)
  }

  lemma ParseEntity(headers: seq<Header>, body: string, content: Content)
    requires headers != [] && AllPlain(headers) && Quiet(body)
    requires Collect(Recorded(map[], headers), body, EMPTY) == Some(content)
    ensures Parse(EntityText(headers, body)) == Some(Outcome(headers, content))
  {
    hide Collect, AllPlain, Recorded, EntityText, SplitHeaderAndBody, Quiet;
    SplitEntity(headers, body);
  }

  /** The content headers that end the header block, one per layout. */
  function ContentHeaders(input: MimeInput, mixed: string, alt: string): seq<Header> {
    if input.attachments != [] then [MixedHeader(mixed)]
    else if Present(input.html) && !Present(input.text) then [TEXT_HTML, BASE64]
    else if Present(input.text) && !Present(input.html) then [TEXT_PLAIN, BASE64]
    else [AlternativeHeader(alt)]
  }

  lemma OuterThen(top: seq<Header>, more: seq<Header>)
    requires Outer(top) && AllPlain(more) && more != []
    ensures AllPlain(top + more) && top + more != []
    ensures Recorded(map[], top + more) == Recorded(Recorded(map[], top), more)
    ensures Get(Recorded(map[], top), DISPOSITION) == None
  {
    hide Plain, Recorded;
    OuterHasNoDisposition(top);
    RecordedOfSum(map[], top, more);
  }

  lemma ParseLeafMessage(top: seq<Header>, leaf: Header, b: seq<byte>, content: Content)
    requires Outer(top)
    requires (leaf == TEXT_PLAIN && content == EMPTY.(text := Some(b)))
             || (leaf == TEXT_HTML && content == EMPTY.(html := Some(b)))
    ensures Parse(EntityText(top + [leaf, BASE64], Body(b))) == Some(Outcome(top + [leaf, BASE64], content))
  {
    hide Outer, AllPlain, Recorded, ContentKeys, Collect, Body, EntityText, Quiet;
    LeafHeadersArePlain();
    OuterThen(top, [leaf, BASE64]);
    var sofar := Recorded(map[], top);
    if leaf == TEXT_PLAIN {
      RecordLeaf(sofar, TEXT_PLAIN.value);
      CollectText(Recorded(sofar, [leaf, BASE64]), b, EMPTY);
    } else {
      RecordLeaf(sofar, TEXT_HTML.value);
      CollectHtml(Recorded(sofar, [leaf, BASE64]), b, EMPTY);
    }
    EncodedBodyIsQuiet(b);
    ParseEntity(top + [leaf, BASE64], Body(b), content);
  }

  lemma ParseAlternativeMessage(top: seq<Header>, input: MimeInput, alt: string)
    requires Outer(top) && Distinct(alt)
    ensures Parse(EntityText(top + [AlternativeHeader(alt)], AlternativeBody(input, alt)))
         == Some(Outcome(top + [AlternativeHeader(alt)], WithHtml(WithText(EMPTY, input.text), input.html)))
  {
    hide Outer, AllPlain, Recorded, Collect, EntityText, Quiet, WithHtml, WithText, AlternativeBody, NamesBoundary;
    var h := AlternativeHeader(alt);
    AlternativeHeaderIsPlain(alt);
    OuterThen(top, [h]);
    AlternativeNamesBoundary(alt);
    NamesBoundaryIsTrimmed(h.value, alt);
    RecordType(Recorded(map[], top), h.value);
    AlternativeEntityRead(input, alt, Recorded(map[], top + [h]), EMPTY);
    ParseEntity(top + [h], AlternativeBody(input, alt), WithHtml(WithText(EMPTY, input.text), input.html));
  }

  lemma NamesBoundaryIsTrimmed(value: string, boundary: string)
    requires NamesBoundary(value, boundary)
    ensures Trimmed(value)
  {
  }

  lemma ParseMixedMessage(top: seq<Header>, input: MimeInput, mixedToken: string, altToken: string)
    requires Outer(top) && IsToken(mixedToken) && IsToken(altToken)
    requires Fresh(input.attachments, Boundary("mixed", mixedToken))
    ensures var mixed, alt := Boundary("mixed", mixedToken), Boundary("alt", altToken);
            (Parse(EntityText(top + [MixedHeader(mixed)], MixedBody(input, mixed, alt)))
             == Some(Outcome(top + [MixedHeader(mixed)], Expected(input))))
  {
    hide Outer, AllPlain, Recorded, Collect, EntityText, Quiet, Expected, MixedBody, NamesBoundary, Boundary, Fresh;
    var mixed, alt := Boundary("mixed", mixedToken), Boundary("alt", altToken);
    var h := MixedHeader(mixed);
    BoundaryIsDistinct("mixed", mixedToken);
    AlternativeHeaderIsPlain(mixed);
    OuterThen(top, [h]);
    MixedNamesBoundary(mixed);
    NamesBoundaryIsTrimmed(h.value, mixed);
    RecordType(Recorded(map[], top), h.value);
    MixedBodyRead(input, mixedToken, altToken, Recorded(map[], top + [h]));
    ParseEntity(top + [h], MixedBody(input, mixed, alt), Expected(input));
  }

  /** What parsing returns for everything the printer can write, in each of its layouts. */
  lemma ParsePrinted(input: MimeInput, mixedToken: string, altToken: string)
    requires IsToken(mixedToken) && IsToken(altToken)
    requires Fresh(input.attachments, Boundary("mixed", mixedToken))
    ensures Parse(Printed(input, mixedToken, altToken))
         == Some(Outcome(TopHeaders(input)
                         + ContentHeaders(input, Boundary("mixed", mixedToken), Boundary("alt", altToken)),
                         Expected(input)))
  {
    hide Outer, AllPlain, Recorded, Collect, EntityText, Quiet, AlternativeBody, MixedBody, Boundary, Fresh, Distinct,
         TopHeaders, Body, Base64.Utf8, Outcome, Parse;
    TopIsOuter(input);
    var top := TopHeaders(input);
    BoundaryIsDistinct("alt", altToken);
    if input.attachments != [] {
      ParseMixedMessage(top, input, mixedToken, altToken);
    } else {
      assert Expected(input) == WithHtml(WithText(EMPTY, input.text), input.html);
      if Present(input.html) && !Present(input.text) {
        ParseLeafMessage(top, TEXT_HTML, Utf8(input.html.value), EMPTY.(html := Some(Utf8(input.html.value))));
      } else if Present(input.text) && !Present(input.html) {
        ParseLeafMessage(top, TEXT_PLAIN, Utf8(input.text.value), EMPTY.(text := Some(Utf8(input.text.value))));
      } else {
        ParseAlternativeMessage(top, input, Boundary("alt", altToken));
      }
    }
  }

  /** What an attachment needs to come back: a type that is not multipart, and a file name that is not blank
      and holds no quote and no semicolon, once both are normalized as header values. */
  predicate Survives(a: MimeAttachment) {
    var name := NormalizeHeaderValue(a.filename);
    !IsMultipart(NormalizeHeaderValue(a.contentType)) && name != "" && '"' !in name && ';' !in name
  }

  /** The same name and the same bytes, in a part of the same type. */
  predicate SameAttachment(p: ParsedAttachment, a: MimeAttachment) {
    p.filename == Some(NormalizeHeaderValue(a.filename)) && p.content == a.content
    && p.contentType == NormalizeHeaderValue(a.contentType) + "; name=\"" + NormalizeHeaderValue(a.filename) + "\""
    && p.transferEncoding == Some("base64")
  }

  predicate SameAttachments(parsed: seq<ParsedAttachment>, given: seq<MimeAttachment>) {
    |parsed| == |given| && forall i :: 0 <= i < |given| ==> SameAttachment(parsed[i], given[i])
  }

  lemma NamedTypeIsMultipart(a: MimeAttachment)
    ensures IsMultipart(AttachmentType(a)) <==> IsMultipart(NormalizeHeaderValue(a.contentType))
  {
    hide NormalizeHeaderValue;
    MultipartExtends(NormalizeHeaderValue(a.contentType), "name=\"" + NormalizeHeaderValue(a.filename) + "\"");
    assert AttachmentType(a) == NormalizeHeaderValue(a.contentType) + "; "
                                + ("name=\"" + NormalizeHeaderValue(a.filename) + "\"");
  }

  lemma MultipartExtends(t: string, rest: string)
    ensures IsMultipart(t + "; " + rest) <==> IsMultipart(t)
  {
    var v := t + "; " + rest;
    assert "multipart/"[..10] == "multipart/";
    if |t| < 10 {
      assert Lower(v)[|t|] == ';';
      assert "multipart/"[|t|] != ';';
    } else {
      assert Lower(v)[..10] == Lower(t)[..10];
    }
  }

  lemma ReceivedIsShort(attachments: seq<MimeAttachment>)
    ensures |ReceivedAll(attachments)| <= |attachments|
  {
    hide Received;
    if attachments != [] {
      ReceivedAtMostOne(attachments[0]);
      ReceivedIsShort(attachments[1..]);
    }
  }

  lemma ReceivedAtMostOne(a: MimeAttachment)
    ensures |Received(a)| <= 1
    ensures |Received(a)| == 1 <==> !IsMultipart(NormalizeHeaderValue(a.contentType))
    ensures |Received(a)| == 1 ==> (SameAttachment(Received(a)[0], a) <==> Survives(a))
  {
    hide NormalizeHeaderValue, IsMultipart, AttachmentType, AttachmentDisposition, ExtractFilename;
    NamedTypeIsMultipart(a);
    FilenameComesBack(a);
    TypeIsSpelled(a);
  }

  lemma TypeIsSpelled(a: MimeAttachment)
    ensures AttachmentType(a)
            == NormalizeHeaderValue(a.contentType) + "; name=\"" + NormalizeHeaderValue(a.filename) + "\""
  {
  }

  predicate AllSurvive(attachments: seq<MimeAttachment>) {
    forall i :: 0 <= i < |attachments| ==> Survives(attachments[i])
  }

  /** The attachment list comes back as it went in exactly when every attachment is one that survives. */
  lemma {:induction false} AttachmentsComeBack(attachments: seq<MimeAttachment>)
    ensures SameAttachments(ReceivedAll(attachments), attachments) <==> AllSurvive(attachments)
  {
    hide Received, Survives, SameAttachment, SameAttachments, AllSurvive;
    if attachments == [] {
      NothingIsSame();
    } else {
      var first, rest := Received(attachments[0]), ReceivedAll(attachments[1..]);
      ReceivedAtMostOne(attachments[0]);
      AttachmentsComeBack(attachments[1..]);
      SurvivorIsReceived(attachments[0]);
      AllCons(attachments);
      if |first| == 1 {
        assert [first[0]] + rest == ReceivedAll(attachments);
        SameCons(first[0], rest, attachments);
      } else {
        ReceivedIsShort(attachments[1..]);
        SameLength(ReceivedAll(attachments), attachments);
      }
    }
  }

  lemma NothingIsSame()
    ensures SameAttachments([], []) && AllSurvive([])
  {
  }

  lemma SameLength(parsed: seq<ParsedAttachment>, given: seq<MimeAttachment>)
    ensures SameAttachments(parsed, given) ==> |parsed| == |given|
  {
  }

  lemma SurvivorIsReceived(a: MimeAttachment)
    ensures Survives(a) ==> |Received(a)| == 1
  {
    ReceivedAtMostOne(a);
  }

  lemma SameCons(p: ParsedAttachment, rest: seq<ParsedAttachment>, given: seq<MimeAttachment>)
    requires given != []
    ensures SameAttachments([p] + rest, given) <==> SameAttachment(p, given[0]) && SameAttachments(rest, given[1..])
  {
    hide SameAttachment;
    var all := [p] + rest;
    assert forall i :: 0 <= i < |rest| ==> all[i + 1] == rest[i];
    assert forall i :: 0 <= i < |given| - 1 ==> given[1..][i] == given[i + 1];
    if SameAttachment(p, given[0]) && SameAttachments(rest, given[1..]) {
      forall i | 0 <= i < |given| ensures SameAttachment(all[i], given[i]) {
        if i > 0 {
          assert SameAttachment(rest[i - 1], given[1..][i - 1]);
        }
      }
    }
  }

  lemma AllCons(given: seq<MimeAttachment>)
    requires given != []
    ensures AllSurvive(given) <==> Survives(given[0]) && AllSurvive(given[1..])
  {
    hide Survives;
    assert forall i :: 0 <= i < |given| - 1 ==> given[1..][i] == given[i + 1];
    assert forall i :: 1 <= i < |given| ==> given[i] == given[1..][i - 1];
  }

  /** The round trip: parsing a printed message succeeds, returns the text and html that were present, and
      returns the attachment list exactly when every attachment survives. */
  lemma RoundTrip(input: MimeInput, mixedToken: string, altToken: string)
    requires IsToken(mixedToken) && IsToken(altToken)
    requires Fresh(input.attachments, Boundary("mixed", mixedToken))
    ensures var r := Parse(Printed(input, mixedToken, altToken));
            r.Some?
            && r.value.content.text == (if Present(input.text) then Some(Utf8(input.text.value)) else None)
            && r.value.content.html == (if Present(input.html) then Some(Utf8(input.html.value)) else None)
            && (SameAttachments(r.value.content.attachments, input.attachments) <==> AllSurvive(input.attachments))
  {
    hide Parse, Printed, SameAttachments, AllSurvive, Base64.Utf8, Fresh, Boundary, Recorded, TopHeaders;
    hide ContentHeaders;
    ParsePrinted(input, mixedToken, altToken);
    AttachmentsComeBack(input.attachments);
    assert [] + ReceivedAll(input.attachments) == ReceivedAll(input.attachments);
  }

  /** Text and html come back as strings exactly when they do not begin with a byte order mark. */
  lemma TextsComeBack(input: MimeInput, mixedToken: string, altToken: string)
    requires IsToken(mixedToken) && IsToken(altToken)
    requires Fresh(input.attachments, Boundary("mixed", mixedToken))
    ensures var r := Parse(Printed(input, mixedToken, altToken));
            r.Some?
            && (Present(input.text) ==>
                  r.value.content.text.Some?
                  && (DecodeText(r.value.content.text.value) == input.text
                      <==> input.text.value[0] != BYTE_ORDER_MARK))
            && (Present(input.html) ==>
                  r.value.content.html.Some?
                  && (DecodeText(r.value.content.html.value) == input.html
                      <==> input.html.value[0] != BYTE_ORDER_MARK))
  {
    hide Parse, Printed, SameAttachments, AllSurvive, Base64.Utf8, Fresh, Boundary, DecodeText;
    RoundTrip(input, mixedToken, altToken);
    if Present(input.text) {
      TextComesBack(input.text.value);
    }
    if Present(input.html) {
      TextComesBack(input.html.value);
    }
  }

  // ----- the headers come back -----

  lemma ContentHeadersAreUnnamed(input: MimeInput, mixed: string, alt: string, key: string)
    requires |key| < |TYPE|
    ensures Unnamed(ContentHeaders(input, mixed, alt), key)
  {
    assert |TYPE| == 12 && |"Content-Type"| == 12 && |"Content-Transfer-Encoding"| == 25;
    assert |Lower("Content-Type")| == 12 && |Lower("Content-Transfer-Encoding")| == 25;
  }

  /** Every header that the printer writes is found by its name and carries its own field of the input, normalized;
      an optional one is there exactly when its field is. The message id and the id that is replied to are those of
      the input. */
  lemma HeadersComeBack(input: MimeInput, mixedToken: string, altToken: string)
    requires IsToken(mixedToken) && IsToken(altToken)
    requires Fresh(input.attachments, Boundary("mixed", mixedToken))
    ensures var r := Parse(Printed(input, mixedToken, altToken));
            r.Some? && CarriesHeaders(r.value.headers, input)
            && r.value.messageId
               == (if Present(input.messageId) then Some(NormalizeHeaderValue(input.messageId.value)) else None)
            && r.value.inReplyTo
               == (if Present(input.inReplyTo) then Some(NormalizeHeaderValue(input.inReplyTo.value)) else None)
  {
    hide Parse, Printed, Fresh, Boundary, Recorded, TopHeaders, ContentHeaders, TopSlot, NormalizeHeaderValue;
    ParsePrinted(input, mixedToken, altToken);
    var content := ContentHeaders(input, Boundary("mixed", mixedToken), Boundary("alt", altToken));
    RecordedOfSum(map[], TopHeaders(input), content);
    var headers := Recorded(map[], TopHeaders(input) + content);
    forall key | |key| < |TYPE| ensures Get(headers, key) == TopSlot(input, key) {
      ContentHeadersAreUnnamed(input, Boundary("mixed", mixedToken), Boundary("alt", altToken), key);
      RecordedElsewhere(Recorded(map[], TopHeaders(input)), content, key);
      TopRecorded(input, key);
    }
    TopCarriesHeaders(input, headers);
  }

  /** The program end to end: what one mailbox sends is what another one reads. */
  method PrintAndParse(input: MimeInput, mixedToken: string, altToken: string) returns (parsed: Option<ParsedEmail>)
    requires IsToken(mixedToken) && IsToken(altToken)
    requires Fresh(input.attachments, Boundary("mixed", mixedToken))
    ensures parsed.Some? && parsed.value.content == Expected(input) && CarriesHeaders(parsed.value.headers, input)
    ensures parsed.value.messageId == OptionalValue(input.messageId)
    ensures parsed.value.inReplyTo == OptionalValue(input.inReplyTo)
  {
    hide *;
    var raw := BuildRawMimeMessage(input, mixedToken, altToken);
    parsed := ParseRawEmail(raw);
    PrintedIsMessage(input, mixedToken, altToken);
    ParsePrinted(input, mixedToken, altToken);
    HeadersComeBack(input, mixedToken, altToken);
    OptionalValues(input);
    OutcomeContent(TopHeaders(input) + ContentHeaders(input, Boundary("mixed", mixedToken), Boundary("alt", altToken)),
                   Expected(input));
  }

  lemma PrintedIsMessage(input: MimeInput, mixedToken: string, altToken: string)
    ensures Printed(input, mixedToken, altToken)
            == Message(input, Boundary("mixed", mixedToken), Boundary("alt", altToken))
  {
  }

  lemma OptionalValues(input: MimeInput)
    ensures OptionalValue(input.messageId)
            == (if Present(input.messageId) then Some(NormalizeHeaderValue(input.messageId.value)) else None)
    ensures OptionalValue(input.inReplyTo)
            == (if Present(input.inReplyTo) then Some(NormalizeHeaderValue(input.inReplyTo.value)) else None)
  {
  }

  lemma OutcomeContent(headers: seq<Header>, content: Content)
    ensures Outcome(headers, content).content == content
  {
  }
}
