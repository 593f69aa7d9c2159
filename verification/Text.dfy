/** String operations that the MIME printer and parser rely on: substring search, splitting,
    trimming, ASCII lower-casing and CRLF-joined lines. */
module Text {

  datatype Option<+T> = None | Some(value: T)

  const CRLF := "\r\n"

  // ----- searching -----

  predicate OccursAt(s: string, p: string, i: int) {
    0 <= i <= |s| - |p| && s[i..i + |p|] == p
  }

  ghost predicate Occurs(s: string, p: string) {
    exists i :: OccursAt(s, p, i)
  }

  /** The first position at or after `from` where `p` occurs, or -1. */
  function IndexFrom(s: string, p: string, from: nat): (r: int)
    requires from <= |s|
    ensures r == -1 ==> forall j :: from <= j ==> !OccursAt(s, p, j)
    ensures r != -1 ==> from <= r && OccursAt(s, p, r) && forall j :: from <= j < r ==> !OccursAt(s, p, j)
    decreases |s| - from
  {
    if OccursAt(s, p, from) then from
    else if from == |s| then -1
    else IndexFrom(s, p, from + 1)
  }

  /** `String.prototype.split` with a non-empty separator. */
  function Split(s: string, d: string): (pieces: seq<string>)
    requires d != ""
    ensures |pieces| >= 1
    ensures |pieces| > 1 ==> forall k :: 0 <= k < |pieces| ==> |pieces[k]| + |d| <= |s|
    ensures |pieces| == 1 ==> pieces[0] == s
  {
    var i := IndexFrom(s, d, 0);
    if i == -1 then [s] else [s[..i]] + Split(s[i + |d|..], d)
  }

  /** An occurrence in a concatenation lies in one of the two halves, or straddles them and then
      contains both characters at the seam. */
  lemma OccurrenceInSum(a: string, b: string, d: string, i: int)
    requires d != "" && OccursAt(a + b, d, i)
    ensures OccursAt(a, d, i) || OccursAt(b, d, i - |a|)
            || (a != "" && b != "" && a[|a| - 1] in d && b[0] in d)
  {
    var s := a + b;
    if i + |d| <= |a| {
      assert s[i..i + |d|] == a[i..i + |d|];
    } else if i >= |a| {
      assert s[i..i + |d|] == b[i - |a|..i - |a| + |d|];
    } else {
      assert d[|a| - 1 - i] == s[i..i + |d|][|a| - 1 - i] == a[|a| - 1];
      assert d[|a| - i] == s[i..i + |d|][|a| - i] == b[0];
    }
  }

  lemma NoOccurrenceAcross(a: string, b: string, d: string)
    requires d != "" && !Occurs(a, d) && !Occurs(b, d)
    requires (a != "" ==> a[|a| - 1] !in d) || (b != "" ==> b[0] !in d)
    ensures !Occurs(a + b, d)
  {
    if i :| OccursAt(a + b, d, i) {
      OccurrenceInSum(a, b, d, i);
    }
  }

  lemma OccurrenceShowsCharacters(s: string, d: string, c: char, i: int)
    requires OccursAt(s, d, i) && c in d
    ensures c in s
  {
    var k :| 0 <= k < |d| && d[k] == c;
    assert s[i..i + |d|][k] == s[i + k];
  }

  lemma NoOccurrenceWithout(s: string, d: string, c: char)
    requires c in d && c !in s
    ensures !Occurs(s, d)
  {
    if i :| OccursAt(s, d, i) {
      OccurrenceShowsCharacters(s, d, c, i);
    }
  }

  lemma SplitAbsent(s: string, d: string)
    requires d != "" && !Occurs(s, d)
    ensures Split(s, d) == [s]
  {
    var i := IndexFrom(s, d, 0);
    assert i != -1 ==> OccursAt(s, d, i);
  }

  /** Splitting peels off a first piece that neither contains the separator nor ends with one of its characters. */
  lemma SplitPeel(a: string, d: string, rest: string)
    requires d != "" && !Occurs(a, d)
    requires a != "" ==> a[|a| - 1] !in d
    ensures Split(a + d + rest, d) == [a] + Split(rest, d)
  {
    var s := a + d + rest;
    assert s[|a|..|a| + |d|] == d;
    assert OccursAt(s, d, |a|);
    var i := IndexFrom(s, d, 0);
    assert s[i..i + |d|] == (a + d)[i..i + |d|];
    OccurrenceInSum(a, d, d, i);
    assert i == |a|;
    assert s[..|a|] == a;
    assert s[|a| + |d|..] == rest;
  }

  lemma NotInTail(s: string, c: char, r: int)
    requires s != "" && s[|s| - 1] != c && -1 <= r < |s| - 1
    requires c !in s[..|s| - 1][r + 1..]
    ensures c !in s[r + 1..]
  {
    assert s[r + 1..] == s[..|s| - 1][r + 1..] + [s[|s| - 1]];
  }

  /** The last position of `c`, or -1. */
  function LastIndexOf(s: string, c: char): (r: int)
    ensures -1 <= r < |s|
    ensures r >= 0 ==> s[r] == c && c !in s[r + 1..]
    ensures r == -1 ==> c !in s
  {
    if s == "" then -1
    else if s[|s| - 1] == c then |s| - 1
    else
      var r := LastIndexOf(s[..|s| - 1], c);
      NotInTail(s, c, r);
      r
  }

  lemma LastIndexBetween(before: string, c: char, after: string)
    requires c !in after
    ensures LastIndexOf(before + [c] + after, c) == |before|
  {
    hide LastIndexOf;
    var s := before + [c] + after;
    var last := LastIndexOf(s, c);
    assert s[|before|] == c && s[|before| + 1..] == after;
    IndexIsBehind(s, |before|, last);
    IndexIsBehind(s, last, |before|);
  }

  lemma IndexIsBehind(s: string, k: int, i: int)
    requires -1 <= k < |s| && i < |s|
    ensures k < i ==> s[i] in s[k + 1..]
  {
    if k < i {
      assert s[k + 1..][i - k - 1] == s[i];
    }
  }

  // ----- trimming and case -----

  /** The characters JavaScript's `trim` and `\s` treat as white space. */
  predicate IsSpace(c: char) {
    c == ' ' || c == '\t' || c == '\n' || c == '\U{000B}' || c == '\U{000C}' || c == '\r'
    || c == '\U{00A0}' || c == '\U{1680}' || ('\U{2000}' <= c <= '\U{200A}') || c == '\U{2028}'
    || c == '\U{2029}' || c == '\U{202F}' || c == '\U{205F}' || c == '\U{3000}' || c == '\U{FEFF}'
  }

  function TrimStart(s: string): (r: string)
    ensures r != "" ==> !IsSpace(r[0])
    ensures |r| <= |s| && r == s[|s| - |r|..]
  {
    if s != "" && IsSpace(s[0]) then TrimStart(s[1..]) else s
  }

  function TrimEnd(s: string): (r: string)
    ensures r != "" ==> !IsSpace(r[|r| - 1])
    ensures r <= s
    ensures s != "" && !IsSpace(s[0]) ==> r != ""
  {
    if s != "" && IsSpace(s[|s| - 1]) then TrimEnd(s[..|s| - 1]) else s
  }

  function Trim(s: string): (r: string)
    ensures r != "" ==> !IsSpace(r[0]) && !IsSpace(r[|r| - 1])
    ensures |r| <= |s|
    ensures forall c :: c in r ==> c in s
  {
    TrimEnd(TrimStart(s))
  }

  lemma {:induction false} TrimStartDropsSpace(s: string)
    ensures forall i :: 0 <= i < |s| - |TrimStart(s)| ==> IsSpace(s[i])
  {
    hide IsSpace;
    if s != "" && IsSpace(s[0]) {
      TrimStartDropsSpace(s[1..]);
      assert forall i :: 0 < i < |s| ==> s[i] == s[1..][i - 1];
    }
  }

  lemma {:induction false} TrimEndDropsSpace(s: string)
    ensures forall i :: |TrimEnd(s)| <= i < |s| ==> IsSpace(s[i])
  {
    hide IsSpace;
    if s != "" && IsSpace(s[|s| - 1]) {
      TrimEndDropsSpace(s[..|s| - 1]);
      assert forall i :: 0 <= i < |s| - 1 ==> s[i] == s[..|s| - 1][i];
    }
  }

  /** Trimming leaves the part from `start` on, with nothing but white space around it. */
  lemma TrimIsInside(s: string) returns (start: nat)
    ensures start + |Trim(s)| <= |s| && Trim(s) == s[start..start + |Trim(s)|]
    ensures forall i :: 0 <= i < start || start + |Trim(s)| <= i < |s| ==> IsSpace(s[i])
  {
    hide IsSpace, TrimStart, TrimEnd;
    var t := TrimStart(s);
    start := |s| - |t|;
    TrimStartDropsSpace(s);
    TrimEndDropsSpace(t);
    assert forall i :: start <= i < |s| ==> s[i] == t[i - start];
  }

  predicate Trimmed(s: string) {
    s != "" ==> !IsSpace(s[0]) && !IsSpace(s[|s| - 1])
  }

  lemma TrimOfTrimmed(s: string)
    requires Trimmed(s)
    ensures Trim(s) == s
  {
  }

  function LowerChar(c: char): char {
    if 'A' <= c <= 'Z' then ((c as int) + 32) as char else c
  }

  function Lower(s: string): (r: string)
    ensures |r| == |s|
    ensures forall i :: 0 <= i < |s| ==> r[i] == LowerChar(s[i])
  {
    seq(|s|, i requires 0 <= i < |s| => LowerChar(s[i]))
  }

  /** Case-insensitive occurrence of a lower-case `name`, as a regular expression with the `i` flag finds it. */
  predicate NamedAt(s: string, name: string, i: int) {
    0 <= i <= |s| - |name| && Lower(s[i..i + |name|]) == name
  }

  // ----- lines -----

  predicate OneLine(s: string) {
    '\n' !in s
  }

  function JoinLines(lines: seq<string>): string {
    if |lines| == 0 then ""
    else if |lines| == 1 then lines[0]
    else lines[0] + CRLF + JoinLines(lines[1..])
  }

  lemma {:induction false} JoinAppend(a: seq<string>, b: seq<string>)
    requires a != [] && b != []
    ensures JoinLines(a + b) == JoinLines(a) + CRLF + JoinLines(b)
  {
    if |a| == 1 {
      assert (a + b)[1..] == b;
    } else {
      JoinAppend(a[1..], b);
      assert (a + b)[1..] == a[1..] + b;
    }
  }

  /** Drops one carriage return at the end, if there is one. */
  function ChopCr(s: string): string {
    if s != "" && s[|s| - 1] == '\r' then s[..|s| - 1] else s
  }

  /** `s.split(/\r?\n/)`. */
  function SplitLines(s: string): (lines: seq<string>)
    ensures |lines| >= 1
  {
    var i := IndexFrom(s, "\n", 0);
    if i == -1 then [s] else [ChopCr(s[..i])] + SplitLines(s[i + 1..])
  }

  lemma {:induction false} SplitJoinedLines(lines: seq<string>)
    requires lines != [] && forall l :: l in lines ==> OneLine(l)
    ensures SplitLines(JoinLines(lines)) == lines
  {
    if |lines| == 1 {
      assert lines[0] in lines;
      SplitLinesEnd(lines[0]);
    } else {
      assert lines[0] in lines;
      SplitLinesStep(lines[0], JoinLines(lines[1..]));
      SplitJoinedLines(lines[1..]);
    }
  }

  lemma SplitLinesEnd(line: string)
    requires OneLine(line)
    ensures SplitLines(line) == [line]
  {
    NoOccurrenceWithout(line, "\n", '\n');
    var i := IndexFrom(line, "\n", 0);
    assert i != -1 ==> OccursAt(line, "\n", i);
  }

  lemma SplitLinesStep(line: string, rest: string)
    requires OneLine(line)
    ensures SplitLines(line + CRLF + rest) == [line] + SplitLines(rest)
  {
    var s := line + CRLF + rest;
    assert s[|line| + 1..|line| + 2] == "\n";
    assert OccursAt(s, "\n", |line| + 1);
    var i := IndexFrom(s, "\n", 0);
    assert s[i..i + 1][0] == s[i];
    assert i == |line| + 1;
    assert s[..i] == line + "\r";
    assert s[i + 1..] == rest;
  }

  // ----- sequences and sets -----

  lemma Regroup<T>(a: seq<T>, b: seq<T>, c: seq<T>)
    ensures a + (b + c) == a + b + c
  {
  }

  lemma {:induction false} SubsetIsSmaller<T>(a: set<T>, b: set<T>)
    requires a <= b
    ensures |a| <= |b|
  {
    if x :| x in a {
      SubsetIsSmaller(a - {x}, b - {x});
    }
  }
}
