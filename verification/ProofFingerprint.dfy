/** The canonical form of a payment proof: entries of objects are sorted by key at every depth, so that proofs
    which differ only in the order of entries share one fingerprint. */
module ProofFingerprint {
  import opened Text

  datatype Json =
    | Null
    | Bool(b: bool)
    | Number(n: real)
    | Str(s: string)
    | Arr(items: seq<Json>)
    | Obj(entries: seq<Entry>)

  datatype Entry = Entry(key: string, value: Json)

  /** `less(a, b)` stands for `a.localeCompare(b) < 0`. */
  type Order = (string, string) -> bool

  ghost predicate StrictWeak(less: Order) {
    && (forall a: string :: !less(a, a))
    && (forall a: string, b: string, c: string :: less(a, b) && less(b, c) ==> less(a, c))
    && (forall a: string, b: string, c: string :: less(a, c) ==> less(a, b) || less(b, c))
  }

  predicate Ties(less: Order, a: string, b: string) {
    !less(a, b) && !less(b, a)
  }

  /** No two different keys compare as equal. */
  ghost predicate Separates(less: Order) {
    forall a: string, b: string :: Ties(less, a, b) ==> a == b
  }

  // ----- sorting entries -----

  function Insert(less: Order, e: Entry, s: seq<Entry>): (r: seq<Entry>)
    ensures multiset(r) == multiset(s) + multiset{e}
  {
    if s == [] then [e]
    else if less(s[0].key, e.key) then
      assert s == [s[0]] + s[1..];
      [s[0]] + Insert(less, e, s[1..])
    else [e] + s
  }

  /** A stable sort, as `Array.prototype.sort` is. */
  function Sort(less: Order, s: seq<Entry>): (r: seq<Entry>)
    ensures multiset(r) == multiset(s)
  {
    if s == [] then []
    else
      assert s == [s[0]] + s[1..];
      Insert(less, s[0], Sort(less, s[1..]))
  }

  predicate Sorted(less: Order, s: seq<Entry>) {
    forall i, j :: 0 <= i < j < |s| ==> !less(s[j].key, s[i].key)
  }

  lemma {:induction false} InsertKeepsSorted(less: Order, e: Entry, s: seq<Entry>)
    requires StrictWeak(less) && Sorted(less, s)
    ensures Sorted(less, Insert(less, e, s))
  {
    if s != [] && less(s[0].key, e.key) {
      InsertKeepsSorted(less, e, s[1..]);
      var r := Insert(less, e, s[1..]);
      forall j | 0 <= j < |r| ensures !less(r[j].key, s[0].key) {
        assert r[j] in multiset(r);
        assert r[j] == e || r[j] in s[1..];
      }
    }
  }

  lemma {:induction false} SortSorts(less: Order, s: seq<Entry>)
    requires StrictWeak(less)
    ensures Sorted(less, Sort(less, s))
  {
    if s != [] {
      SortSorts(less, s[1..]);
      InsertKeepsSorted(less, s[0], Sort(less, s[1..]));
    }
  }

  // ----- normalization -----

  function Normalize(less: Order, v: Json): Json
    decreases v
  {
    match v
    case Arr(items) => Arr(seq(|items|, i requires 0 <= i < |items| => Normalize(less, items[i])))
    case Obj(entries) => Obj(NormalizeEntries(less, entries))
    case _ => v
  }

  function NormalizeEntries(less: Order, entries: seq<Entry>): seq<Entry>
    decreases entries
  {
    var sorted := Sort(less, entries);
    seq(|sorted|, i requires 0 <= i < |sorted| =>
      assert sorted[i] in multiset(sorted);
      Entry(sorted[i].key, Normalize(less, sorted[i].value)))
  }

  // ----- values up to the order of entries -----

  predicate DistinctKeys(s: seq<Entry>) {
    forall i, j :: 0 <= i < j < |s| ==> s[i].key != s[j].key
  }

  /** What JSON objects are: no key twice, at any depth. */
  predicate WellFormed(v: Json) {
    match v
    case Arr(items) => forall i :: 0 <= i < |items| ==> WellFormed(items[i])
    case Obj(entries) => DistinctKeys(entries) && forall i :: 0 <= i < |entries| ==> WellFormed(entries[i].value)
    case _ => true
  }

  /** Equal up to the order of object entries at any depth. */
  predicate Same(v: Json, w: Json)
    decreases v
  {
    match v
    case Arr(a) => w.Arr? && |a| == |w.items| && forall i :: 0 <= i < |a| ==> Same(a[i], w.items[i])
    case Obj(a) => w.Obj? && SameEntries(a, w.entries)
    case _ => v == w
  }

  predicate SameEntries(a: seq<Entry>, b: seq<Entry>)
    decreases a
  {
    |a| == |b| && forall i :: 0 <= i < |a| ==> Found(a[i], b)
  }

  predicate Found(e: Entry, b: seq<Entry>)
    decreases e
  {
    exists j :: 0 <= j < |b| && b[j].key == e.key && Same(e.value, b[j].value)
  }

  lemma SortedHas(less: Order, s: seq<Entry>, i: nat) returns (j: nat)
    requires i < |s|
    ensures j < |Sort(less, s)| && Sort(less, s)[j] == s[i]
  {
    assert s[i] in multiset(Sort(less, s));
    j :| j < |Sort(less, s)| && Sort(less, s)[j] == s[i];
  }

  lemma SortedComesFrom(less: Order, s: seq<Entry>, j: nat) returns (i: nat)
    requires j < |Sort(less, s)|
    ensures i < |s| && s[i] == Sort(less, s)[j]
  {
    assert Sort(less, s)[j] in multiset(s);
    i :| i < |s| && s[i] == Sort(less, s)[j];
  }

  lemma SortIsAsLong(less: Order, s: seq<Entry>)
    ensures |Sort(less, s)| == |s|
  {
    assert |multiset(Sort(less, s))| == |multiset(s)|;
  }

  /** Normalization keeps the meaning of a value. */
  lemma {:induction false} NormalizeKeepsMeaning(less: Order, v: Json)
    ensures Same(v, Normalize(less, v))
    decreases v
  {
    match v
    case Arr(items) =>
      forall i | 0 <= i < |items| ensures Same(items[i], Normalize(less, items[i])) {
        NormalizeKeepsMeaning(less, items[i]);
      }
    case Obj(entries) =>
      hide NormalizeEntries, Sort;
      NormalizedIsAsLong(less, entries);
      var n := NormalizeEntries(less, entries);
      forall i: nat | i < |entries|
        ensures Found(entries[i], n)
      {
        SortIsAsLong(less, entries);
        var j := SortedHas(less, entries, i);
        NormalizeKeepsMeaning(less, entries[i].value);
        NormalizedEntry(less, entries, j);
      }
    case _ =>
  }

  /** Values with one normal form are the same up to the order of entries. */
  lemma {:induction false} SameNormalFormIsSame(less: Order, v: Json, w: Json)
    requires Normalize(less, v) == Normalize(less, w)
    ensures Same(v, w)
    decreases v
  {
    match v
    case Arr(a) =>
      var b := w.items;
      forall i | 0 <= i < |a| ensures Same(a[i], b[i]) {
        assert Normalize(less, v).items[i] == Normalize(less, w).items[i];
        SameNormalFormIsSame(less, a[i], b[i]);
      }
    case Obj(a) =>
      hide NormalizeEntries, Sort, SameEntries;
      SameNormalEntriesAreSame(less, a, w.entries);
    case _ =>
  }

  lemma {:induction false} SameNormalEntriesAreSame(less: Order, a: seq<Entry>, b: seq<Entry>)
    requires NormalizeEntries(less, a) == NormalizeEntries(less, b)
    ensures SameEntries(a, b)
    decreases a
  {
    hide Normalize, NormalizeEntries, Same, Sort;
    NormalizedIsAsLong(less, a);
    NormalizedIsAsLong(less, b);
    forall i: nat | i < |a| ensures Found(a[i], b) {
      SortIsAsLong(less, a);
      SortIsAsLong(less, b);
      var p := SortedHas(less, a, i);
      NormalizedEntry(less, a, p);
      NormalizedEntry(less, b, p);
      var j := SortedComesFrom(less, b, p);
      SameNormalFormIsSame(less, a[i].value, b[j].value);
    }
  }

  // ----- sorted sequences of the same keys -----

  ghost predicate StrictlySorted(less: Order, s: seq<Entry>) {
    forall i, j :: 0 <= i < j < |s| ==> less(s[i].key, s[j].key)
  }

  ghost predicate KeysWithin(a: seq<Entry>, b: seq<Entry>) {
    forall i :: 0 <= i < |a| ==> exists j :: 0 <= j < |b| && a[i].key == b[j].key
  }

  lemma InOrder(less: Order, s: seq<Entry>, i: nat, j: nat)
    requires StrictWeak(less) && StrictlySorted(less, s) && i < |s| && j < |s|
    ensures less(s[i].key, s[j].key) <==> i < j
  {
    if j < i {
      assert less(s[j].key, s[i].key);
    }
  }

  lemma {:induction false} NotEarlier(less: Order, a: seq<Entry>, b: seq<Entry>, i: nat, j: nat)
    requires StrictWeak(less) && StrictlySorted(less, a) && StrictlySorted(less, b) && KeysWithin(a, b)
    requires i < |a| && j < |b| && a[i].key == b[j].key
    ensures i <= j
    decreases i
  {
    if i > 0 {
      var k :| 0 <= k < |b| && a[i - 1].key == b[k].key;
      NotEarlier(less, a, b, i - 1, k);
      assert less(b[k].key, b[j].key);
      InOrder(less, b, k, j);
    }
  }

  lemma {:induction false} NotLater(less: Order, a: seq<Entry>, b: seq<Entry>, i: nat, j: nat)
    requires StrictWeak(less) && StrictlySorted(less, a) && StrictlySorted(less, b) && KeysWithin(a, b)
    requires |a| == |b| && i < |a| && j < |b| && a[i].key == b[j].key
    ensures j <= i
    decreases |a| - i
  {
    if i < |a| - 1 {
      var k :| 0 <= k < |b| && a[i + 1].key == b[k].key;
      NotLater(less, a, b, i + 1, k);
      assert less(b[j].key, b[k].key);
      InOrder(less, b, j, k);
    }
  }

  lemma SortIsStrict(less: Order, s: seq<Entry>)
    requires StrictWeak(less) && Separates(less) && DistinctKeys(s)
    ensures StrictlySorted(less, Sort(less, s))
  {
    SortSorts(less, s);
    SortKeepsDistinct(less, s);
    var r := Sort(less, s);
    forall i, j | 0 <= i < j < |r| ensures less(r[i].key, r[j].key) {
      assert r[i].key != r[j].key;
      assert !Ties(less, r[i].key, r[j].key);
    }
  }

  /** Distinct keys stay distinct: an entry is not there twice before, so it is not after. */
  lemma SortKeepsDistinct(less: Order, s: seq<Entry>)
    requires DistinctKeys(s)
    ensures DistinctKeys(Sort(less, s))
  {
    var r := Sort(less, s);
    forall i, j | 0 <= i < j < |r| ensures r[i].key != r[j].key {
      var p := SortedComesFrom(less, s, i);
      var q := SortedComesFrom(less, s, j);
      if p == q {
        TwiceCounts(r, i, j);
        OnceCounts(s, p);
      }
    }
  }

  lemma TwiceCounts(r: seq<Entry>, i: nat, j: nat)
    requires i < j < |r| && r[i] == r[j]
    ensures multiset(r)[r[i]] >= 2
  {
    assert r == r[..j] + [r[j]] + r[j + 1..];
    assert r[..j][i] == r[i];
    assert r[i] in multiset(r[..j]);
  }

  lemma OnceCounts(s: seq<Entry>, p: nat)
    requires DistinctKeys(s) && p < |s|
    ensures multiset(s)[s[p]] == 1
  {
    assert s == s[..p] + [s[p]] + s[p + 1..];
    assert s[p] !in s[..p] && s[p] !in s[p + 1..];
  }

  // ----- the normal form is canonical -----

  lemma EntriesMatch(less: Order, a: seq<Entry>, b: seq<Entry>, i: nat)
    requires StrictWeak(less) && Separates(less) && DistinctKeys(a) && DistinctKeys(b) && |a| == |b|
    requires SameEntries(a, b)
    requires i < |a|
    ensures |Sort(less, a)| == |Sort(less, b)| == |a|
    ensures var e, f := Sort(less, a)[i], Sort(less, b)[i]; e.key == f.key && Same(e.value, f.value)
  {
    hide Same, Insert;
    SortIsAsLong(less, a);
    SortIsAsLong(less, b);
    SortIsStrict(less, a);
    SortIsStrict(less, b);
    var r, t := Sort(less, a), Sort(less, b);
    forall k | 0 <= k < |r| ensures exists m :: 0 <= m < |t| && r[k].key == t[m].key {
      var p := SortedComesFrom(less, a, k);
      assert Found(a[p], b);
      var q :| 0 <= q < |b| && b[q].key == a[p].key && Same(a[p].value, b[q].value);
      var m := SortedHas(less, b, q);
    }
    var p := SortedComesFrom(less, a, i);
    assert Found(a[p], b);
    var q :| 0 <= q < |b| && b[q].key == a[p].key && Same(a[p].value, b[q].value);
    var m := SortedHas(less, b, q);
    NotEarlier(less, r, t, i, m);
    NotLater(less, r, t, i, m);
  }

  lemma NormalizedEntry(less: Order, a: seq<Entry>, i: nat)
    requires i < |a|
    ensures |Sort(less, a)| == |a| == |NormalizeEntries(less, a)|
    ensures var e := Sort(less, a)[i]; NormalizeEntries(less, a)[i] == Entry(e.key, Normalize(less, e.value))
  {
    SortIsAsLong(less, a);
  }

  lemma ArraysAgree(less: Order, a: seq<Json>, b: seq<Json>)
    requires |a| == |b| && forall i :: 0 <= i < |a| ==> Normalize(less, a[i]) == Normalize(less, b[i])
    ensures Normalize(less, Arr(a)) == Normalize(less, Arr(b))
  {
    assert Normalize(less, Arr(a)).items == Normalize(less, Arr(b)).items;
  }

  lemma SortedIsWellFormed(less: Order, a: seq<Entry>, i: nat) returns (p: nat)
    requires i < |Sort(less, a)| && WellFormed(Obj(a))
    ensures p < |a| && a[p] == Sort(less, a)[i] && WellFormed(a[p].value)
  {
    p := SortedComesFrom(less, a, i);
  }

  lemma {:induction false} SameHaveOneNormalForm(less: Order, v: Json, w: Json)
    requires StrictWeak(less) && Separates(less) && WellFormed(v) && WellFormed(w) && Same(v, w)
    ensures Normalize(less, v) == Normalize(less, w)
    decreases v
  {
    match v
    case Arr(a) =>
      var b := w.items;
      forall i | 0 <= i < |a| ensures Normalize(less, a[i]) == Normalize(less, b[i]) {
        SameHaveOneNormalForm(less, a[i], b[i]);
      }
      ArraysAgree(less, a, b);
    case Obj(a) =>
      ObjectsHaveOneNormalForm(less, a, w.entries);
    case _ =>
  }

  lemma {:induction false} ObjectsHaveOneNormalForm(less: Order, a: seq<Entry>, b: seq<Entry>)
    requires StrictWeak(less) && Separates(less) && WellFormed(Obj(a)) && WellFormed(Obj(b)) && Same(Obj(a), Obj(b))
    ensures NormalizeEntries(less, a) == NormalizeEntries(less, b)
    decreases a
  {
    assert DistinctKeys(a) && DistinctKeys(b) && |a| == |b|;
    assert SameEntries(a, b);
    hide Normalize, NormalizeEntries, Same, WellFormed, Sort, DistinctKeys, StrictWeak, Separates;
    forall i: nat | i < |a| ensures |NormalizeEntries(less, a)| == |NormalizeEntries(less, b)| == |a|
                                    && NormalizeEntries(less, a)[i] == NormalizeEntries(less, b)[i]
    {
      EntriesMatch(less, a, b, i);
      var p := SortedIsWellFormed(less, a, i);
      var q := SortedIsWellFormed(less, b, i);
      NormalizedEntry(less, a, i);
      NormalizedEntry(less, b, i);
      SameHaveOneNormalForm(less, a[p].value, b[q].value);
    }
    NormalizedIsAsLong(less, a);
    NormalizedIsAsLong(less, b);
  }

  lemma NormalizedIsAsLong(less: Order, a: seq<Entry>)
    ensures |NormalizeEntries(less, a)| == |a|
  {
    SortIsAsLong(less, a);
  }

  /** Two proofs have one normal form exactly when they are equal up to the order of entries. */
  lemma NormalFormIsCanonical(less: Order, v: Json, w: Json)
    requires StrictWeak(less) && Separates(less) && WellFormed(v) && WellFormed(w)
    ensures Same(v, w) <==> Normalize(less, v) == Normalize(less, w)
  {
    if Same(v, w) {
      SameHaveOneNormalForm(less, v, w);
    }
    if Normalize(less, v) == Normalize(less, w) {
      SameNormalFormIsSame(less, v, w);
    }
  }

  ghost predicate Canonical(less: Order) {
    forall v, w :: WellFormed(v) && WellFormed(w) && Same(v, w) ==> Normalize(less, v) == Normalize(less, w)
  }

  /** Sorting by a comparison that lets two different keys tie is not canonical: the sort is stable, and their
      order survives it. */
  lemma CanonicalExactlyWhenKeysAreSeparated(less: Order)
    requires StrictWeak(less)
    ensures Canonical(less) <==> Separates(less)
  {
    if Separates(less) {
      forall v, w | WellFormed(v) && WellFormed(w) && Same(v, w) ensures Normalize(less, v) == Normalize(less, w) {
        SameHaveOneNormalForm(less, v, w);
      }
    } else {
      var a: string, b: string :| Ties(less, a, b) && a != b;
      TieSurvives(less, a, b);
    }
  }

  lemma TieSurvives(less: Order, a: string, b: string)
    requires Ties(less, a, b) && a != b
    ensures var v, w := Obj([Entry(a, Null), Entry(b, Null)]), Obj([Entry(b, Null), Entry(a, Null)]);
            WellFormed(v) && WellFormed(w) && Same(v, w) && Normalize(less, v) != Normalize(less, w)
  {
    var x, y := Entry(a, Null), Entry(b, Null);
    SortOfTie(less, x, y);
    SortOfTie(less, y, x);
    NormalizedEntry(less, [x, y], 0);
    NormalizedEntry(less, [y, x], 0);
    hide Sort, NormalizeEntries;
    var v, w := Obj([x, y]), Obj([y, x]);
    assert NormalizeEntries(less, [x, y])[0].key == a;
    assert NormalizeEntries(less, [y, x])[0].key == b;
    assert [y, x][1] == x && [y, x][0] == y;
    assert Same(Null, Null);
    assert Found(x, [y, x]) && Found(y, [y, x]);
    assert forall i :: 0 <= i < 2 ==> Found([x, y][i], [y, x]);
  }

  lemma SortOfTie(less: Order, x: Entry, y: Entry)
    requires !less(y.key, x.key)
    ensures Sort(less, [x, y]) == [x, y]
  {
    assert [x, y][1..] == [y] && [y][1..] == [];
    assert Sort(less, [y]) == Insert(less, y, []);
    assert Sort(less, [x, y]) == Insert(less, x, Sort(less, [y]));
  }

  // ----- normalizing again -----

  lemma {:induction false} SortOfSorted(less: Order, s: seq<Entry>)
    requires Sorted(less, s)
    ensures Sort(less, s) == s
  {
    if s != [] {
      SortOfSorted(less, s[1..]);
      assert s == [s[0]] + s[1..];
    }
  }

  /** A normal form is its own normal form. */
  lemma {:induction false} NormalizeIsIdempotent(less: Order, v: Json)
    requires StrictWeak(less)
    ensures Normalize(less, Normalize(less, v)) == Normalize(less, v)
    decreases v
  {
    match v
    case Arr(items) =>
      forall i | 0 <= i < |items| ensures Normalize(less, Normalize(less, items[i])) == Normalize(less, items[i]) {
        NormalizeIsIdempotent(less, items[i]);
      }
    case Obj(entries) =>
      EntriesAreIdempotent(less, entries);
    case _ =>
  }

  lemma {:induction false} EntriesAreIdempotent(less: Order, entries: seq<Entry>)
    requires StrictWeak(less)
    ensures NormalizeEntries(less, NormalizeEntries(less, entries)) == NormalizeEntries(less, entries)
    decreases entries
  {
    hide Normalize, NormalizeEntries, Sort, StrictWeak;
    var n := NormalizeEntries(less, entries);
    NormalizedIsAsLong(less, entries);
    NormalizedIsAsLong(less, n);
    NormalizedIsSorted(less, entries);
    SortOfSorted(less, n);
    forall i: nat | i < |n| ensures NormalizeEntries(less, n)[i] == n[i] {
      NormalizedEntry(less, entries, i);
      NormalizedEntry(less, n, i);
      var p := SortedComesFrom(less, entries, i);
      NormalizeIsIdempotent(less, entries[p].value);
    }
  }

  lemma NormalizedIsSorted(less: Order, entries: seq<Entry>)
    requires StrictWeak(less)
    ensures Sorted(less, NormalizeEntries(less, entries))
  {
    SortSorts(less, entries);
    NormalizedIsAsLong(less, entries);
    hide Sort, NormalizeEntries;
    var n := NormalizeEntries(less, entries);
    forall i, j | 0 <= i < j < |n| ensures !less(n[j].key, n[i].key) {
      NormalizedEntry(less, entries, i);
      NormalizedEntry(less, entries, j);
    }
  }

  // ----- what is hashed -----

  /** The text under the hash: the normal form of a proof that parses, and the raw proof otherwise. `stringify` stands
      for `JSON.stringify`. */
  function FingerprintSource(less: Order, stringify: Json -> string, parsed: Option<Json>, raw: string): string {
    if parsed.Some? then stringify(Normalize(less, parsed.value)) else raw
  }

  /** Reordering the entries of a proof does not change what is hashed. */
  lemma ReorderedProofsShareAFingerprint(
      less: Order, stringify: Json -> string, v: Json, w: Json, rawV: string, rawW: string)
    requires StrictWeak(less) && Separates(less) && WellFormed(v) && WellFormed(w) && Same(v, w)
    ensures FingerprintSource(less, stringify, Some(v), rawV) == FingerprintSource(less, stringify, Some(w), rawW)
  {
    SameHaveOneNormalForm(less, v, w);
  }
}
