/** What the header block of a printed message tells the parser, header by header. */
module HeaderRoundTrip {
  import opened Text
  import opened EmailParser
  import opened Mime
  import opened EntityRoundTrip

  // ----- one header after the other -----

  /** What a key holds after a header that may be left out. */
  function Slot(name: string, key: string, value: Option<string>, before: Option<string>): Option<string> {
    if value.Some? && Lower(name) == key then value else before
  }

  /** The value of an optional header, and of one that lists values. */
  function OptionalValue(value: Option<string>): Option<string> {
    if Present(value) then Some(NormalizeHeaderValue(value.value)) else None
  }

  function ListValue(values: seq<string>, separator: string): Option<string> {
    if values != [] then Some(Trim(NormalizedList(values, separator))) else None
  }

  lemma OneRecorded(sofar: Headers, h: Header, key: string)
    ensures Get(Recorded(sofar, [h]), key) == Slot(h.name, key, Some(Trim(h.value)), Get(sofar, key))
  {
    hide Text.Lower, Text.Trim;
    assert [h][1..] == [];
    assert Recorded(sofar, [h]) == sofar[Lower(h.name) := Trim(h.value)];
  }

  lemma NoneRecorded(sofar: Headers)
    ensures Recorded(sofar, []) == sofar
  {
  }

  lemma OptionalRecorded(sofar: Headers, name: string, value: Option<string>, key: string)
    ensures Get(Recorded(sofar, OptionalHeader(name, value)), key)
            == Slot(name, key, OptionalValue(value), Get(sofar, key))
  {
    hide Recorded, NormalizeHeaderValue, Text.Lower;
    NoneRecorded(sofar);
    if Present(value) {
      OneRecorded(sofar, Header(name, NormalizeHeaderValue(value.value)), key);
      TrimOfNormalized(value.value);
    }
  }

  lemma TrimOfNormalized(value: string)
    ensures Trim(NormalizeHeaderValue(value)) == NormalizeHeaderValue(value)
  {
    hide NormalizeHeaderValue, Text.Trim, Text.Trimmed;
    TrimOfTrimmed(NormalizeHeaderValue(value));
  }

  lemma ListRecorded(sofar: Headers, name: string, values: seq<string>, separator: string, key: string)
    ensures Get(Recorded(sofar, ListHeader(name, values, separator)), key)
            == Slot(name, key, ListValue(values, separator), Get(sofar, key))
  {
    hide Recorded, NormalizedList, Text.Lower, Text.Trim;
    NoneRecorded(sofar);
    if values != [] {
      OneRecorded(sofar, Header(name, NormalizedList(values, separator)), key);
    }
  }

  lemma FixedRecorded(input: MimeInput, key: string)
    ensures Get(Recorded(map[], FixedHeaders(input)), key)
            == Slot("MIME-Version", key, Some(Trim("1.0")),
                 Slot("Subject", key, Some(NormalizeHeaderValue(input.subject)),
                   Slot("To", key, Some(Trim(NormalizedList(input.to, ", "))),
                     Slot("From", key, Some(NormalizeHeaderValue(input.from)), None))))
  {
    hide Recorded, NormalizedList, NormalizeHeaderValue, Text.Lower, Text.Trim, Slot;
    var f, t := Header("From", NormalizeHeaderValue(input.from)), Header("To", NormalizedList(input.to, ", "));
    var s, v := Header("Subject", NormalizeHeaderValue(input.subject)), Header("MIME-Version", "1.0");
    TrimOfNormalized(input.from);
    TrimOfNormalized(input.subject);
    OneRecorded(map[], f, key);
    RecordedOfSum(map[], [f], [t]);
    OneRecorded(Recorded(map[], [f]), t, key);
    RecordedOfSum(map[], [f] + [t], [s]);
    OneRecorded(Recorded(map[], [f] + [t]), s, key);
    RecordedOfSum(map[], [f] + [t] + [s], [v]);
    OneRecorded(Recorded(map[], [f] + [t] + [s]), v, key);
    assert [f] + [t] + [s] + [v] == FixedHeaders(input);
    assert Get(map[], key) == None;
  }

  /** What a key holds after all top headers, the last one first. */
  function TopSlot(input: MimeInput, key: string): Option<string> {
    Slot("References", key, ListValue(input.references, " "),
      Slot("In-Reply-To", key, OptionalValue(input.inReplyTo),
        Slot("Reply-To", key, ListValue(input.replyTo, ", "),
          Slot("Bcc", key, ListValue(input.bcc, ", "),
            Slot("Cc", key, ListValue(input.cc, ", "),
              Slot("Message-ID", key, OptionalValue(input.messageId),
                Slot("Date", key, OptionalValue(input.date),
                  Slot("MIME-Version", key, Some(Trim("1.0")),
                    Slot("Subject", key, Some(NormalizeHeaderValue(input.subject)),
                      Slot("To", key, Some(Trim(NormalizedList(input.to, ", "))),
                        Slot("From", key, Some(NormalizeHeaderValue(input.from)), None)))))))))))
  }

  lemma TopRecorded(input: MimeInput, key: string)
    ensures Get(Recorded(map[], TopHeaders(input)), key) == TopSlot(input, key)
  {
    hide Recorded, NormalizedList, NormalizeHeaderValue, Text.Lower, Text.Trim, Slot, OptionalHeader, ListHeader;
    hide FixedHeaders, OptionalValue, ListValue;
    var a := FixedHeaders(input);
    FixedRecorded(input, key);
    var date, id := OptionalHeader("Date", input.date), OptionalHeader("Message-ID", input.messageId);
    RecordedOfSum(map[], a, date);
    OptionalRecorded(Recorded(map[], a), "Date", input.date, key);
    RecordedOfSum(map[], a + date, id);
    OptionalRecorded(Recorded(map[], a + date), "Message-ID", input.messageId, key);
    var b := a + date + id;
    var cc, bcc := ListHeader("Cc", input.cc, ", "), ListHeader("Bcc", input.bcc, ", ");
    RecordedOfSum(map[], b, cc);
    ListRecorded(Recorded(map[], b), "Cc", input.cc, ", ", key);
    RecordedOfSum(map[], b + cc, bcc);
    ListRecorded(Recorded(map[], b + cc), "Bcc", input.bcc, ", ", key);
    var c := b + cc + bcc;
    var reply, answers := ListHeader("Reply-To", input.replyTo, ", "), OptionalHeader("In-Reply-To", input.inReplyTo);
    RecordedOfSum(map[], c, reply);
    ListRecorded(Recorded(map[], c), "Reply-To", input.replyTo, ", ", key);
    RecordedOfSum(map[], c + reply, answers);
    OptionalRecorded(Recorded(map[], c + reply), "In-Reply-To", input.inReplyTo, key);
    var d := c + reply + answers;
    RecordedOfSum(map[], d, ListHeader("References", input.references, " "));
    ListRecorded(Recorded(map[], d), "References", input.references, " ", key);
    assert d + ListHeader("References", input.references, " ") == TopHeaders(input);
  }

  // ----- looking the headers up by their names -----

  lemma LowerNames()
    ensures Lower("From") == "from" && Lower("To") == "to" && Lower("Subject") == "subject"
    ensures Lower("MIME-Version") == "mime-version" && Lower("Date") == "date" && Lower("Message-ID") == "message-id"
  {
  }

  lemma LowerMoreNames()
    ensures Lower("Cc") == "cc" && Lower("Bcc") == "bcc" && Lower("Reply-To") == "reply-to"
    ensures Lower("In-Reply-To") == "in-reply-to" && Lower("References") == "references"
  {
  }

  /** Every key is one header's. */
  lemma KeysAreDistinct()
    ensures |"from"| == 4 && |"to"| == 2 && |"subject"| == 7 && |"mime-version"| == 12 && |"date"| == 4
    ensures |"message-id"| == 10 && |"cc"| == 2 && |"bcc"| == 3 && |"reply-to"| == 8 && |"in-reply-to"| == 11
    ensures |"references"| == 10
    ensures "from"[0] != "date"[0] && "to"[0] != "cc"[0] && "message-id"[0] != "references"[0]
  {
  }

  /** The headers of a printed message, looked up by name: each one carries its own field of the input. */
  ghost predicate CarriesHeaders(headers: Headers, input: MimeInput) {
    && Get(headers, "from") == Some(NormalizeHeaderValue(input.from))
    && Get(headers, "to") == Some(Trim(NormalizedList(input.to, ", ")))
    && Get(headers, "subject") == Some(NormalizeHeaderValue(input.subject))
    && Get(headers, "date") == OptionalValue(input.date)
    && Get(headers, "message-id") == OptionalValue(input.messageId)
    && Get(headers, "cc") == ListValue(input.cc, ", ")
    && Get(headers, "bcc") == ListValue(input.bcc, ", ")
    && Get(headers, "reply-to") == ListValue(input.replyTo, ", ")
    && Get(headers, "in-reply-to") == OptionalValue(input.inReplyTo)
    && Get(headers, "references") == ListValue(input.references, " ")
  }

  lemma TopCarriesHeaders(input: MimeInput, headers: Headers)
    requires forall key :: |key| < |TYPE| ==> Get(headers, key) == TopSlot(input, key)
    ensures CarriesHeaders(headers, input)
  {
    hide TopSlot, NormalizedList, NormalizeHeaderValue, Text.Trim, OptionalValue, ListValue;
    KeysAreDistinct();
    FirstKeys(input);
    LaterKeys(input);
  }

  lemma FirstKeys(input: MimeInput)
    ensures TopSlot(input, "from") == Some(NormalizeHeaderValue(input.from))
    ensures TopSlot(input, "to") == Some(Trim(NormalizedList(input.to, ", ")))
    ensures TopSlot(input, "subject") == Some(NormalizeHeaderValue(input.subject))
    ensures TopSlot(input, "date") == OptionalValue(input.date)
    ensures TopSlot(input, "message-id") == OptionalValue(input.messageId)
  {
    hide NormalizedList, NormalizeHeaderValue, Text.Lower, Text.Trim, OptionalValue, ListValue;
    LowerNames();
    LowerMoreNames();
    KeysAreDistinct();
  }

  lemma LaterKeys(input: MimeInput)
    ensures TopSlot(input, "cc") == ListValue(input.cc, ", ")
    ensures TopSlot(input, "bcc") == ListValue(input.bcc, ", ")
    ensures TopSlot(input, "reply-to") == ListValue(input.replyTo, ", ")
    ensures TopSlot(input, "in-reply-to") == OptionalValue(input.inReplyTo)
    ensures TopSlot(input, "references") == ListValue(input.references, " ")
  {
    hide NormalizedList, NormalizeHeaderValue, Text.Lower, Text.Trim, OptionalValue, ListValue;
    LowerNames();
    LowerMoreNames();
    KeysAreDistinct();
  }

  // ----- what normalization and joining keep -----

  lemma {:induction false} NoBreaksToReplace(s: string)
    requires '\n' !in s
    ensures ReplaceBreaks(s) == s
  {
    if s != "" {
      NoBreaksToReplace(s[1..]);
    }
  }

  /** A value on one line without outer white space is printed as it is. */
  lemma PlainValueStays(value: string)
    requires '\n' !in value && Trimmed(value)
    ensures NormalizeHeaderValue(value) == value
  {
    hide Text.Trim, Text.Trimmed, ReplaceBreaks;
    NoBreaksToReplace(value);
    TrimOfTrimmed(value);
  }

  /** No value contains the separator or ends with a character of it. */
  ghost predicate Separable(values: seq<string>, separator: string) {
    forall i :: 0 <= i < |values| ==>
      values[i] != "" && !Occurs(values[i], separator) && values[i][|values[i]| - 1] !in separator
  }

  lemma {:induction false} SplitOfJoin(values: seq<string>, separator: string)
    requires values != [] && separator != "" && Separable(values, separator)
    ensures Split(Join(values, separator), separator) == values
  {
    if |values| == 1 {
      SplitAbsent(values[0], separator);
    } else {
      SplitOfJoin(values[1..], separator);
      SplitPeel(values[0], separator, Join(values[1..], separator));
    }
  }

  lemma {:induction false} NormalizeAllAt(values: seq<string>)
    ensures |NormalizeAll(values)| == |values|
    ensures forall i :: 0 <= i < |values| ==> NormalizeAll(values)[i] == NormalizeHeaderValue(values[i])
  {
    hide NormalizeHeaderValue;
    if values != [] {
      NormalizeAllAt(values[1..]);
    }
  }

  /** The first and the last character of a joined list are those of its first and its last value. */
  lemma {:induction false} JoinEnds(values: seq<string>, separator: string)
    requires values != [] && forall i :: 0 <= i < |values| ==> values[i] != ""
    ensures var j, last := Join(values, separator), values[|values| - 1];
            j != "" && j[0] == values[0][0] && j[|j| - 1] == last[|last| - 1]
  {
    if |values| > 1 {
      JoinEnds(values[1..], separator);
    }
  }

  /** A list whose values are not blank and separable is recorded so that splitting it gives the normalized values
      back. */
  lemma ListComesBack(values: seq<string>, separator: string)
    requires values != [] && separator != "" && Separable(NormalizeAll(values), separator)
    ensures ListValue(values, separator).Some?
            && Split(ListValue(values, separator).value, separator) == NormalizeAll(values)
  {
    hide NormalizeHeaderValue, Text.Trim, Text.Split;
    NormalizeAllAt(values);
    var all := NormalizeAll(values);
    JoinEnds(all, separator);
    var j := Join(all, separator);
    assert Trimmed(all[0]) && Trimmed(all[|all| - 1]);
    assert Trimmed(j);
    TrimOfTrimmed(j);
    SplitOfJoin(all, separator);
  }

  /** Addresses without commas, and references without spaces, are separable. */
  lemma PlainValuesAreSeparable(values: seq<string>)
    requires forall i :: 0 <= i < |values| ==> values[i] != "" && Trimmed(values[i])
    ensures (forall i :: 0 <= i < |values| ==> ',' !in values[i]) ==> Separable(values, ", ")
    ensures (forall i :: 0 <= i < |values| ==> ' ' !in values[i]) ==> Separable(values, " ")
  {
    forall i | 0 <= i < |values|
      ensures ',' !in values[i] ==> !Occurs(values[i], ", ") && values[i][|values[i]| - 1] !in ", "
      ensures ' ' !in values[i] ==> !Occurs(values[i], " ") && values[i][|values[i]| - 1] !in " "
    {
      if ',' !in values[i] {
        NoOccurrenceWithout(values[i], ", ", ',');
      }
      if ' ' !in values[i] {
        NoOccurrenceWithout(values[i], " ", ' ');
      }
    }
  }

  lemma {:induction false} PlainValuesStay(values: seq<string>)
    requires forall i :: 0 <= i < |values| ==> '\n' !in values[i] && Trimmed(values[i])
    ensures NormalizeAll(values) == values
  {
    hide NormalizeHeaderValue;
    if values != [] {
      PlainValueStays(values[0]);
      PlainValuesStay(values[1..]);
    }
  }

  /** Addresses on one line without commas come back from the header that lists them as they were given, and so do
      references without spaces. */
  lemma PlainListComesBack(values: seq<string>)
    requires values != []
    requires forall i :: 0 <= i < |values| ==> values[i] != "" && '\n' !in values[i] && Trimmed(values[i])
    ensures (forall i :: 0 <= i < |values| ==> ',' !in values[i]) ==>
              (ListValue(values, ", ").Some? && Split(ListValue(values, ", ").value, ", ") == values)
    ensures (forall i :: 0 <= i < |values| ==> ' ' !in values[i]) ==>
              (ListValue(values, " ").Some? && Split(ListValue(values, " ").value, " ") == values)
  {
    hide NormalizeAll, ListValue, Separable, Text.Split, Text.Trimmed;
    PlainValuesStay(values);
    PlainValuesAreSeparable(values);
    if forall i :: 0 <= i < |values| ==> ',' !in values[i] {
      ListComesBack(values, ", ");
    }
    if forall i :: 0 <= i < |values| ==> ' ' !in values[i] {
      ListComesBack(values, " ");
    }
  }
}
