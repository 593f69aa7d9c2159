/** The MIME printer: the line-pushing program, and the nested text that its lines spell. */
module Mime {
  import opened Text
  import opened Base64

  datatype MimeAttachment = MimeAttachment(filename: string, contentType: string, content: seq<byte>)

  datatype MimeInput = MimeInput(
    from: string, to: seq<string>, cc: seq<string>, bcc: seq<string>, replyTo: seq<string>,
    subject: string, text: Option<string>, html: Option<string>, date: Option<string>,
    messageId: Option<string>, inReplyTo: Option<string>, references: seq<string>,
    attachments: seq<MimeAttachment>)

  datatype Header = Header(name: string, value: string)

  // ----- header values -----

  function ReplaceBreaks(s: string): (r: string)
    ensures OneLine(r)
  {
    if s == "" then ""
    else if s[0] == '\n' then " " + ReplaceBreaks(s[1..])
    else if |s| >= 2 && s[0] == '\r' && s[1] == '\n' then " " + ReplaceBreaks(s[2..])
    else [s[0]] + ReplaceBreaks(s[1..])
  }

  function NormalizeHeaderValue(value: string): (r: string)
    ensures OneLine(r) && Trimmed(r)
  {
    Trim(ReplaceBreaks(value))
  }

  function NormalizeAll(values: seq<string>): seq<string> {
    if values == [] then [] else [NormalizeHeaderValue(values[0])] + NormalizeAll(values[1..])
  }

  function Join(values: seq<string>, separator: string): string {
    if |values| == 0 then ""
    else if |values| == 1 then values[0]
    else values[0] + separator + Join(values[1..], separator)
  }

  function NormalizedList(values: seq<string>, separator: string): string {
    Join(NormalizeAll(values), separator)
  }

  /** A string that JavaScript counts as true. */
  predicate Present(s: Option<string>) {
    s.Some? && s.value != ""
  }

  function OptionalHeader(name: string, value: Option<string>): seq<Header> {
    if Present(value) then [Header(name, NormalizeHeaderValue(value.value))] else []
  }

  function ListHeader(name: string, values: seq<string>, separator: string): seq<Header> {
    if values != [] then [Header(name, NormalizedList(values, separator))] else []
  }

  function FixedHeaders(input: MimeInput): seq<Header> {
    [Header("From", NormalizeHeaderValue(input.from)),
     Header("To", NormalizedList(input.to, ", ")),
     Header("Subject", NormalizeHeaderValue(input.subject)),
     Header("MIME-Version", "1.0")]
  }

  function TopHeaders(input: MimeInput): seq<Header> {
    FixedHeaders(input)
    + OptionalHeader("Date", input.date)
    + OptionalHeader("Message-ID", input.messageId)
    + ListHeader("Cc", input.cc, ", ")
    + ListHeader("Bcc", input.bcc, ", ")
    + ListHeader("Reply-To", input.replyTo, ", ")
    + OptionalHeader("In-Reply-To", input.inReplyTo)
    + ListHeader("References", input.references, " ")
  }

  const TEXT_PLAIN := Header("Content-Type", "text/plain; charset=\"UTF-8\"")
  const TEXT_HTML := Header("Content-Type", "text/html; charset=\"UTF-8\"")
  const BASE64 := Header("Content-Transfer-Encoding", "base64")

  function AlternativeHeader(boundary: string): Header {
    Header("Content-Type", "multipart/alternative; boundary=\"" + boundary + "\"")
  }

  function MixedHeader(boundary: string): Header {
    Header("Content-Type", "multipart/mixed; boundary=\"" + boundary + "\"")
  }

  function AttachmentType(a: MimeAttachment): string {
    NormalizeHeaderValue(a.contentType) + "; name=\"" + NormalizeHeaderValue(a.filename) + "\""
  }

  function AttachmentDisposition(a: MimeAttachment): string {
    "attachment; filename=\"" + NormalizeHeaderValue(a.filename) + "\""
  }

  function AttachmentHeaders(a: MimeAttachment): seq<Header> {
    [Header("Content-Type", AttachmentType(a)), Header("Content-Disposition", AttachmentDisposition(a)), BASE64]
  }

  function Line(h: Header): string {
    h.name + ": " + h.value
  }

  function Lines(headers: seq<Header>): (lines: seq<string>)
    ensures |lines| == |headers|
    ensures forall i :: 0 <= i < |headers| ==> lines[i] == Line(headers[i])
  {
    seq(|headers|, i requires 0 <= i < |headers| => Line(headers[i]))
  }

  function Body(bytes: seq<byte>): string {
    Fold(Encode(bytes))
  }

  // ----- the message as nested text -----

  /** Headers, a blank line, a body. */
  function EntityText(headers: seq<Header>, body: string): string {
    JoinLines(Lines(headers)) + CRLF + CRLF + body
  }

  /** Section 5.1 of RFC 2046: parts between delimiter lines, and a closing delimiter. */
  function MultipartText(delimiter: string, parts: seq<string>): string {
    if parts == [] then delimiter + "--"
    else delimiter + CRLF + parts[0] + CRLF + MultipartText(delimiter, parts[1..])
  }

  function AlternativeParts(input: MimeInput): seq<string> {
    (if Present(input.text) then [EntityText([TEXT_PLAIN, BASE64], Body(Utf8(input.text.value)))] else [])
    + (if Present(input.html) then [EntityText([TEXT_HTML, BASE64], Body(Utf8(input.html.value)))] else [])
  }

  function AttachmentPart(a: MimeAttachment): string {
    EntityText(AttachmentHeaders(a), Body(a.content))
  }

  function AttachmentParts(attachments: seq<MimeAttachment>): seq<string> {
    seq(|attachments|, i requires 0 <= i < |attachments| => AttachmentPart(attachments[i]))
  }

  function AlternativeBody(input: MimeInput, alt: string): string {
    MultipartText("--" + alt, AlternativeParts(input))
  }

  function MixedBody(input: MimeInput, mixed: string, alt: string): string {
    MultipartText("--" + mixed,
                  [EntityText([AlternativeHeader(alt)], AlternativeBody(input, alt))]
                  + AttachmentParts(input.attachments))
  }

  function Message(input: MimeInput, mixed: string, alt: string): string {
    MessageUnder(TopHeaders(input), input, mixed, alt)
  }

  function MessageUnder(top: seq<Header>, input: MimeInput, mixed: string, alt: string): string {
    if input.attachments != [] then EntityText(top + [MixedHeader(mixed)], MixedBody(input, mixed, alt))
    else if Present(input.html) && !Present(input.text) then
      EntityText(top + [TEXT_HTML, BASE64], Body(Utf8(input.html.value)))
    else if Present(input.text) && !Present(input.html) then
      EntityText(top + [TEXT_PLAIN, BASE64], Body(Utf8(input.text.value)))
    else EntityText(top + [AlternativeHeader(alt)], AlternativeBody(input, alt))
  }

  // ----- the message as lines -----

  function EntityLines(headers: seq<Header>, body: seq<string>): seq<string> {
    Lines(headers) + [""] + body
  }

  function MultipartLines(delimiter: string, parts: seq<seq<string>>): seq<string> {
    if parts == [] then [delimiter + "--"]
    else [delimiter] + parts[0] + MultipartLines(delimiter, parts[1..])
  }

  lemma EntityLinesSpellText(headers: seq<Header>, body: seq<string>)
    requires headers != [] && body != []
    ensures JoinLines(EntityLines(headers, body)) == EntityText(headers, JoinLines(body))
  {
    JoinAppend(Lines(headers) + [""], body);
    JoinAppend(Lines(headers), [""]);
    assert JoinLines([""]) == "";
    calc {
      JoinLines(EntityLines(headers, body));
      (JoinLines(Lines(headers)) + CRLF + "") + CRLF + JoinLines(body);
      EntityText(headers, JoinLines(body));
    }
  }

  function JoinEach(parts: seq<seq<string>>): seq<string> {
    seq(|parts|, i requires 0 <= i < |parts| => JoinLines(parts[i]))
  }

  lemma {:induction false} MultipartLinesSpellText(delimiter: string, parts: seq<seq<string>>)
    requires forall i :: 0 <= i < |parts| ==> parts[i] != []
    ensures JoinLines(MultipartLines(delimiter, parts)) == MultipartText(delimiter, JoinEach(parts))
  {
    if parts != [] {
      var rest := MultipartLines(delimiter, parts[1..]);
      MultipartLinesSpellText(delimiter, parts[1..]);
      assert JoinEach(parts)[1..] == JoinEach(parts[1..]);
      JoinAppend([delimiter] + parts[0], rest);
      JoinAppend([delimiter], parts[0]);
    }
  }

  function AlternativePartLines(input: MimeInput): seq<seq<string>> {
    (if Present(input.text) then [EntityLines([TEXT_PLAIN, BASE64], [Body(Utf8(input.text.value))])] else [])
    + (if Present(input.html) then [EntityLines([TEXT_HTML, BASE64], [Body(Utf8(input.html.value))])] else [])
  }

  function AttachmentLines(a: MimeAttachment): seq<string> {
    EntityLines(AttachmentHeaders(a), [Body(a.content)])
  }

  function AttachmentPartLines(attachments: seq<MimeAttachment>): seq<seq<string>> {
    seq(|attachments|, i requires 0 <= i < |attachments| => AttachmentLines(attachments[i]))
  }

  lemma LeafLinesSpellText(contentType: Header, encoding: Header, body: string)
    ensures JoinLines(EntityLines([contentType, encoding], [body])) == EntityText([contentType, encoding], body)
  {
    EntityLinesSpellText([contentType, encoding], [body]);
  }

  lemma AlternativeLinesSpellText(input: MimeInput, alt: string)
    ensures JoinLines(MultipartLines("--" + alt, AlternativePartLines(input))) == AlternativeBody(input, alt)
  {
    var parts := AlternativePartLines(input);
    MultipartLinesSpellText("--" + alt, parts);
    if Present(input.text) {
      LeafLinesSpellText(TEXT_PLAIN, BASE64, Body(Utf8(input.text.value)));
    }
    if Present(input.html) {
      LeafLinesSpellText(TEXT_HTML, BASE64, Body(Utf8(input.html.value)));
    }
    assert JoinEach(parts) == AlternativeParts(input);
  }

  lemma AttachmentLinesSpellText(attachments: seq<MimeAttachment>)
    ensures JoinEach(AttachmentPartLines(attachments)) == AttachmentParts(attachments)
  {
    forall i | 0 <= i < |attachments|
      ensures JoinLines(AttachmentLines(attachments[i])) == AttachmentPart(attachments[i])
    {
      EntityLinesSpellText(AttachmentHeaders(attachments[i]), [Body(attachments[i].content)]);
    }
  }

  lemma NestedLinesSpellText(delimiter: string, header: Header, block: seq<string>, parts: seq<seq<string>>)
    requires block != [] && forall i :: 0 <= i < |parts| ==> parts[i] != []
    ensures JoinLines(MultipartLines(delimiter, [EntityLines([header], block)] + parts))
         == MultipartText(delimiter, [EntityText([header], JoinLines(block))] + JoinEach(parts))
  {
    var all := [EntityLines([header], block)] + parts;
    MultipartLinesSpellText(delimiter, all);
    EntityLinesSpellText([header], block);
    assert JoinEach(all) == [JoinLines(EntityLines([header], block))] + JoinEach(parts);
  }

  // ----- the printer -----

  /** `randomBoundary`, with the random token as an argument. */
  function Boundary(kind: string, token: string): string {
    "mailagents-" + kind + "-" + token
  }

  method PushOptional(headers: seq<string>, ghost sofar: seq<Header>, name: string, value: Option<string>)
      returns (r: seq<string>)
    requires headers == Lines(sofar)
    ensures r == Lines(sofar + OptionalHeader(name, value))
  {
    r := headers;
    if Present(value) {
      r := r + [Line(Header(name, NormalizeHeaderValue(value.value)))];
    }
  }

  method PushList(headers: seq<string>, ghost sofar: seq<Header>, name: string, values: seq<string>, separator: string)
      returns (r: seq<string>)
    requires headers == Lines(sofar)
    ensures r == Lines(sofar + ListHeader(name, values, separator))
  {
    hide NormalizedList;
    r := headers;
    if values != [] {
      r := r + [Line(Header(name, NormalizedList(values, separator)))];
    }
  }

  method HeaderBlock(input: MimeInput) returns (headers: seq<string>)
    ensures headers == Lines(TopHeaders(input))
  {
    hide NormalizedList, NormalizeHeaderValue, OptionalHeader, ListHeader;
    ghost var sofar := FixedHeaders(input);
    headers := [Line(Header("From", NormalizeHeaderValue(input.from))),
                Line(Header("To", NormalizedList(input.to, ", "))),
                Line(Header("Subject", NormalizeHeaderValue(input.subject))),
                Line(Header("MIME-Version", "1.0"))];
    assert headers == Lines(sofar);
    headers := PushOptional(headers, sofar, "Date", input.date);
    sofar := sofar + OptionalHeader("Date", input.date);
    headers := PushOptional(headers, sofar, "Message-ID", input.messageId);
    sofar := sofar + OptionalHeader("Message-ID", input.messageId);
    headers := PushList(headers, sofar, "Cc", input.cc, ", ");
    sofar := sofar + ListHeader("Cc", input.cc, ", ");
    headers := PushList(headers, sofar, "Bcc", input.bcc, ", ");
    sofar := sofar + ListHeader("Bcc", input.bcc, ", ");
    headers := PushList(headers, sofar, "Reply-To", input.replyTo, ", ");
    sofar := sofar + ListHeader("Reply-To", input.replyTo, ", ");
    headers := PushOptional(headers, sofar, "In-Reply-To", input.inReplyTo);
    sofar := sofar + OptionalHeader("In-Reply-To", input.inReplyTo);
    headers := PushList(headers, sofar, "References", input.references, " ");
  }

  /** The pushes for one base64 entity. */
  method LeafLines(contentType: Header, encoding: Header, bytes: seq<byte>) returns (lines: seq<string>)
    ensures lines == EntityLines([contentType, encoding], [Body(bytes)])
  {
    lines := [Line(contentType), Line(encoding), ""];
    var encoded := ToBase64(bytes);
    lines := lines + [Fold(encoded)];
  }

  /** The pushes that the program repeats for the text and html alternatives. */
  method AlternativeBlock(input: MimeInput, delimiter: string) returns (lines: seq<string>)
    ensures lines == MultipartLines(delimiter, AlternativePartLines(input)) && lines != []
  {
    ghost var parts: seq<seq<string>> := [];
    lines := [];
    if Present(input.text) {
      var part := LeafLines(TEXT_PLAIN, BASE64, Utf8(input.text.value));
      OpenLinesPush(delimiter, parts, part);
      lines := lines + ([delimiter] + part);
      parts := parts + [part];
    }
    if Present(input.html) {
      var part := LeafLines(TEXT_HTML, BASE64, Utf8(input.html.value));
      OpenLinesPush(delimiter, parts, part);
      lines := lines + ([delimiter] + part);
      parts := parts + [part];
    }
    OpenLinesClose(delimiter, parts);
    lines := lines + [delimiter + "--"];
    assert parts == AlternativePartLines(input);
  }

  /** Part lines before the closing delimiter. */
  function OpenLines(delimiter: string, parts: seq<seq<string>>): seq<string> {
    if parts == [] then [] else [delimiter] + parts[0] + OpenLines(delimiter, parts[1..])
  }

  lemma {:induction false} OpenLinesClose(delimiter: string, parts: seq<seq<string>>)
    ensures OpenLines(delimiter, parts) + [delimiter + "--"] == MultipartLines(delimiter, parts)
  {
    if parts != [] {
      OpenLinesClose(delimiter, parts[1..]);
    }
  }

  lemma {:induction false} OpenLinesPush(delimiter: string, parts: seq<seq<string>>, part: seq<string>)
    ensures OpenLines(delimiter, parts + [part]) == OpenLines(delimiter, parts) + ([delimiter] + part)
  {
    if parts == [] {
      assert parts + [part] == [part];
    } else {
      OpenLinesPush(delimiter, parts[1..], part);
      assert (parts + [part])[1..] == parts[1..] + [part];
    }
  }

  /** The attachment loop, after the nested alternative part, and the closing delimiter. */
  method AttachmentBlock(attachments: seq<MimeAttachment>, delimiter: string, first: seq<string>)
      returns (lines: seq<string>)
    ensures lines == MultipartLines(delimiter, [first] + AttachmentPartLines(attachments)) && lines != []
  {
    hide AttachmentLines, MultipartLines;
    ghost var parts := [first];
    OpenLinesPush(delimiter, [], first);
    lines := [delimiter] + first;
    for i := 0 to |attachments|
      invariant parts == [first] + AttachmentPartLines(attachments[..i])
      invariant lines == OpenLines(delimiter, parts)
    {
      var part := AttachmentEntity(attachments[i]);
      OpenLinesPush(delimiter, parts, part);
      lines := lines + ([delimiter] + part);
      parts := parts + [part];
    }
    assert attachments[..|attachments|] == attachments;
    OpenLinesClose(delimiter, parts);
    lines := lines + [delimiter + "--"];
  }

  method AttachmentEntity(attachment: MimeAttachment) returns (lines: seq<string>)
    ensures lines == AttachmentLines(attachment)
  {
    hide Line, AttachmentType, AttachmentDisposition, Base64.Encode, Base64.Fold;
    lines := [Line(Header("Content-Type", AttachmentType(attachment))),
              Line(Header("Content-Disposition", AttachmentDisposition(attachment))),
              Line(BASE64), ""];
    var encoded := ToBase64(attachment.content);
    lines := lines + [Fold(encoded)];
  }

  method BuildRawMimeMessage(input: MimeInput, mixedToken: string, altToken: string) returns (raw: string)
    ensures raw == Message(input, Boundary("mixed", mixedToken), Boundary("alt", altToken))
  {
    var headers := HeaderBlock(input);
    raw := AddBody(headers, TopHeaders(input), input, Boundary("mixed", mixedToken), Boundary("alt", altToken));
  }

  method AddBody(headers: seq<string>, ghost top: seq<Header>, input: MimeInput, mixed: string, alt: string)
      returns (raw: string)
    requires headers == Lines(top)
    ensures raw == MessageUnder(top, input, mixed, alt)
  {
    hide Text.JoinLines, Base64.Utf8, Body, AlternativePartLines, AlternativeBody, MultipartLines, MixedBody;
    var hasAttachments, hasHtml, hasText := input.attachments != [], Present(input.html), Present(input.text);

    if !hasAttachments && hasHtml && !hasText {
      var leaf := LeafLines(TEXT_HTML, BASE64, Utf8(input.html.value));
      LeafThen(top, [TEXT_HTML, BASE64], Body(Utf8(input.html.value)), headers + leaf);
      return JoinLines(headers + leaf);
    }

    if !hasAttachments && hasText && !hasHtml {
      var leaf := LeafLines(TEXT_PLAIN, BASE64, Utf8(input.text.value));
      LeafThen(top, [TEXT_PLAIN, BASE64], Body(Utf8(input.text.value)), headers + leaf);
      return JoinLines(headers + leaf);
    }

    var block := AlternativeBlock(input, "--" + alt);
    AlternativeLinesSpellText(input, alt);
    var nested := [Line(AlternativeHeader(alt)), ""] + block;
    assert nested == EntityLines([AlternativeHeader(alt)], block);

    if !hasAttachments {
      LinesThen(top, [AlternativeHeader(alt)], block, headers + nested);
      return JoinLines(headers + nested);
    }

    var rest := AttachmentBlock(input.attachments, "--" + mixed, nested);
    raw := AddMixed(headers, top, input, mixed, alt, block, rest);
  }

  method AddMixed(headers: seq<string>, ghost top: seq<Header>, input: MimeInput, mixed: string, alt: string,
                  ghost block: seq<string>, rest: seq<string>)
      returns (raw: string)
    requires headers == Lines(top) && input.attachments != [] && block != [] && rest != []
    requires JoinLines(block) == AlternativeBody(input, alt)
    requires rest == MultipartLines("--" + mixed, [EntityLines([AlternativeHeader(alt)], block)]
                                                  + AttachmentPartLines(input.attachments))
    ensures raw == MessageUnder(top, input, mixed, alt)
  {
    hide Text.JoinLines, AlternativeBody, MultipartLines, AttachmentPart, MultipartText;
    NestedLinesSpellText("--" + mixed, AlternativeHeader(alt), block, AttachmentPartLines(input.attachments));
    AttachmentLinesSpellText(input.attachments);
    var lines := headers + [Line(MixedHeader(mixed))] + [""] + rest;
    assert Lines([MixedHeader(mixed)]) == [Line(MixedHeader(mixed))];
    LinesThen(top, [MixedHeader(mixed)], rest, lines);
    raw := JoinLines(lines);
  }

  lemma LeafThen(top: seq<Header>, more: seq<Header>, body: string, lines: seq<string>)
    requires more != []
    requires lines == Lines(top) + (Lines(more) + [""] + [body])
    ensures JoinLines(lines) == EntityText(top + more, body)
  {
    LinesThen(top, more, [body], lines);
  }

  lemma LinesThen(top: seq<Header>, more: seq<Header>, body: seq<string>, lines: seq<string>)
    requires more != [] && body != []
    requires lines == Lines(top) + Lines(more) + [""] + body
    ensures JoinLines(lines) == EntityText(top + more, JoinLines(body))
  {
    assert Lines(top + more) == Lines(top) + Lines(more);
    assert lines == EntityLines(top + more, body);
    EntityLinesSpellText(top + more, body);
  }
}
