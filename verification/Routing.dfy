/** Recipients of a send, split into the tenant's own mailboxes and the outside world, and what that costs. */
module Routing {
  import opened Text

  datatype Mailbox = Mailbox(id: nat, tenantId: nat, active: bool)

  datatype LocalRecipient = LocalRecipient(address: string, mailboxId: nat, tenantId: nat)

  /** Mailboxes by address. */
  type Directory = map<string, Mailbox>

  datatype Routed = Routed(
    toInternal: seq<LocalRecipient>, ccInternal: seq<LocalRecipient>, bccInternal: seq<LocalRecipient>,
    toExternal: seq<string>, ccExternal: seq<string>, bccExternal: seq<string>,
    internalCount: nat, externalCount: nat, externalToCount: nat,
    recipientDomains: seq<string>, internalDomains: seq<string>, externalDomains: seq<string>)

  // ----- normalization -----

  function NormalizeRecipientAddress(value: string): string {
    Lower(Trim(value))
  }

  /** What stands between the white space at both ends, letter by letter, with capitals made small: so addresses are
      one recipient exactly when they agree up to case and outer white space. */
  lemma AddressIsNormalized(value: string) returns (start: nat)
    ensures var r := NormalizeRecipientAddress(value);
            start + |r| <= |value| && (forall i :: 0 <= i < start || start + |r| <= i < |value| ==> IsSpace(value[i]))
            && (r != "" ==> !IsSpace(value[start]) && !IsSpace(value[start + |r| - 1]))
            && forall i :: 0 <= i < |r| ==>
                 r[i] as int == value[start + i] as int + if 'A' <= value[start + i] <= 'Z' then 32 else 0
  {
    hide IsSpace, TrimStart, TrimEnd, Trim;
    start := TrimIsInside(value);
    var t := Trim(value);
    assert forall i :: 0 <= i < |t| ==> t[i] == value[start + i];
  }

  function NormalizeRecipientList(values: seq<string>): (r: seq<string>)
    ensures forall a :: a in r ==> a != ""
    ensures |r| == NonBlank(values)
  {
    if values == [] then []
    else
      var a := NormalizeRecipientAddress(values[0]);
      (if a == "" then [] else [a]) + NormalizeRecipientList(values[1..])
  }

  /** How many entries are not blank. */
  function NonBlank(values: seq<string>): nat {
    if values == [] then 0 else (if Trim(values[0]) == "" then 0 else 1) + NonBlank(values[1..])
  }

  // ----- splitting -----

  predicate IsLocal(d: Directory, address: string) {
    address in d && d[address].active
  }

  function Internal(d: Directory, addresses: seq<string>): (r: seq<LocalRecipient>)
    ensures forall x :: x in r ==>
              IsLocal(d, x.address) && x == LocalRecipient(x.address, d[x.address].id, d[x.address].tenantId)
  {
    if addresses == [] then []
    else
      (if IsLocal(d, addresses[0]) then
         [LocalRecipient(addresses[0], d[addresses[0]].id, d[addresses[0]].tenantId)]
       else [])
      + Internal(d, addresses[1..])
  }

  function External(d: Directory, addresses: seq<string>): (r: seq<string>)
    ensures forall a :: a in r ==> !IsLocal(d, a)
  {
    if addresses == [] then []
    else (if IsLocal(d, addresses[0]) then [] else [addresses[0]]) + External(d, addresses[1..])
  }

  function Addresses(rs: seq<LocalRecipient>): (r: seq<string>)
    ensures |r| == |rs| && forall i :: 0 <= i < |rs| ==> r[i] == rs[i].address
  {
    seq(|rs|, i requires 0 <= i < |rs| => rs[i].address)
  }

  /** `s` consists of `a` and `b`, each in its own order. */
  predicate Interleaves(s: seq<string>, a: seq<string>, b: seq<string>) {
    if s == [] then a == [] && b == []
    else
      (a != [] && a[0] == s[0] && Interleaves(s[1..], a[1..], b))
      || (b != [] && b[0] == s[0] && Interleaves(s[1..], a, b[1..]))
  }

  /** Each list is the interleaving of its internal and its external part, and loses nobody. */
  lemma {:induction false} SplitInterleaves(d: Directory, addresses: seq<string>)
    ensures Interleaves(addresses, Addresses(Internal(d, addresses)), External(d, addresses))
    ensures |Internal(d, addresses)| + |External(d, addresses)| == |addresses|
  {
    if addresses != [] {
      SplitInterleaves(d, addresses[1..]);
      InterleavesStep(d, addresses);
    }
  }

  /** The head of a list goes to one of its two parts. */
  lemma SplitHead(d: Directory, addresses: seq<string>)
    requires addresses != []
    ensures var a, rest := addresses[0], addresses[1..];
            Addresses(Internal(d, addresses)) == (if IsLocal(d, a) then [a] else []) + Addresses(Internal(d, rest))
            && External(d, addresses) == (if IsLocal(d, a) then [] else [a]) + External(d, rest)
  {
  }

  lemma InterleavesStep(d: Directory, addresses: seq<string>)
    requires addresses != []
    requires Interleaves(addresses[1..], Addresses(Internal(d, addresses[1..])), External(d, addresses[1..]))
    ensures Interleaves(addresses, Addresses(Internal(d, addresses)), External(d, addresses))
    ensures |Internal(d, addresses)| + |External(d, addresses)|
            == 1 + |Internal(d, addresses[1..])| + |External(d, addresses[1..])|
  {
    SplitHead(d, addresses);
    hide Internal, External, IsLocal;
    var s, t := Addresses(Internal(d, addresses)), External(d, addresses);
    if IsLocal(d, addresses[0]) {
      assert s[1..] == Addresses(Internal(d, addresses[1..])) && t == External(d, addresses[1..]);
    } else {
      assert s == Addresses(Internal(d, addresses[1..])) && t[1..] == External(d, addresses[1..]);
    }
  }

  /** Who has an active mailbox is on the internal side, and everybody else on the external one. */
  lemma {:induction false} SplitByMailbox(d: Directory, addresses: seq<string>, a: string)
    ensures a in Addresses(Internal(d, addresses)) <==> a in addresses && IsLocal(d, a)
    ensures a in External(d, addresses) <==> a in addresses && !IsLocal(d, a)
  {
    if addresses != [] {
      SplitByMailbox(d, addresses[1..], a);
      assert addresses == [addresses[0]] + addresses[1..];
      var head := if IsLocal(d, addresses[0])
        then [LocalRecipient(addresses[0], d[addresses[0]].id, d[addresses[0]].tenantId)] else [];
      assert Addresses(Internal(d, addresses)) == Addresses(head) + Addresses(Internal(d, addresses[1..]));
    }
  }

  lemma SplitStep(d: Directory, addresses: seq<string>, i: nat)
    requires i < |addresses|
    ensures var a := addresses[i];
            Internal(d, addresses[i..]) ==
              (if IsLocal(d, a) then [LocalRecipient(a, d[a].id, d[a].tenantId)] else [])
              + Internal(d, addresses[i + 1..])
            && External(d, addresses[i..]) == (if IsLocal(d, a) then [] else [a]) + External(d, addresses[i + 1..])
  {
    assert addresses[i..][0] == addresses[i] && addresses[i..][1..] == addresses[i + 1..];
  }

  method SplitList(d: Directory, addresses: seq<string>)
    returns (internalPart: seq<LocalRecipient>, externalPart: seq<string>)
    ensures internalPart == Internal(d, addresses) && externalPart == External(d, addresses)
  {
    internalPart, externalPart := [], [];
    assert addresses[0..] == addresses;
    assert Internal(d, addresses[|addresses|..]) == [] && External(d, addresses[|addresses|..]) == [];
    hide *;
    for i := 0 to |addresses|
      invariant internalPart + Internal(d, addresses[i..]) == Internal(d, addresses)
      invariant externalPart + External(d, addresses[i..]) == External(d, addresses)
    {
      var address := addresses[i];
      SplitStep(d, addresses, i);
      assert IsLocal(d, address) <==> address in d && d[address].active by { LocalMeans(d, address); }
      if address in d && d[address].active {
        var one := [LocalRecipient(address, d[address].id, d[address].tenantId)];
        Regroup(internalPart, one, Internal(d, addresses[i + 1..]));
        internalPart := internalPart + one;
      } else {
        Regroup(externalPart, [address], External(d, addresses[i + 1..]));
        externalPart := externalPart + [address];
      }
    }
  }

  lemma LocalMeans(d: Directory, address: string)
    ensures IsLocal(d, address) <==> address in d && d[address].active
  {
  }

  // ----- domains -----

  /** "" when there is no at sign or nothing behind the last one. */
  function RecipientDomain(address: string): string {
    var at := LastIndexOf(address, '@');
    if at == -1 || at == |address| - 1 then "" else address[at + 1..]
  }

  /** The domain is what follows the last at sign. */
  lemma DomainFollowsLastAt(local: string, domain: string)
    requires '@' !in domain
    ensures RecipientDomain(local + "@" + domain) == domain
    ensures '@' !in local ==> RecipientDomain(local) == ""
  {
    LastIndexBetween(local, '@', domain);
    assert (local + "@" + domain)[|local| + 1..] == domain;
  }

  predicate HasDomain(addresses: seq<string>, x: string) {
    exists i | 0 <= i < |addresses| :: RecipientDomain(addresses[i]) == x
  }

  lemma DomainsOfAppend(addresses: seq<string>, a: string)
    ensures forall x :: HasDomain(addresses + [a], x) <==> HasDomain(addresses, x) || RecipientDomain(a) == x
  {
    hide RecipientDomain;
    forall x ensures HasDomain(addresses + [a], x) <==> HasDomain(addresses, x) || RecipientDomain(a) == x {
      assert (addresses + [a])[|addresses|] == a;
      if i :| 0 <= i < |addresses| && RecipientDomain(addresses[i]) == x {
        assert (addresses + [a])[i] == addresses[i];
      }
    }
  }

  /** The domains in order of first appearance, each once. */
  function UniqueDomains(addresses: seq<string>): (r: seq<string>)
    ensures forall i, j :: 0 <= i < j < |r| ==> r[i] != r[j]
    ensures forall x :: x in r <==> x != "" && HasDomain(addresses, x)
  {
    if addresses == [] then []
    else
      var last := |addresses| - 1;
      var before := UniqueDomains(addresses[..last]);
      var x := RecipientDomain(addresses[last]);
      assert addresses == addresses[..last] + [addresses[last]];
      DomainsOfAppend(addresses[..last], addresses[last]);
      if x == "" || x in before then before else before + [x]
  }

  // ----- the whole routing -----

  function AllInternal(d: Directory, to: seq<string>, cc: seq<string>, bcc: seq<string>): seq<string> {
    Addresses(Internal(d, to) + Internal(d, cc) + Internal(d, bcc))
  }

  function AllExternal(d: Directory, to: seq<string>, cc: seq<string>, bcc: seq<string>): seq<string> {
    External(d, to) + External(d, cc) + External(d, bcc)
  }

  function Routing(d: Directory, toValues: seq<string>, ccValues: seq<string>, bccValues: seq<string>): Routed {
    var to, cc := NormalizeRecipientList(toValues), NormalizeRecipientList(ccValues);
    var bcc := NormalizeRecipientList(bccValues);
    var internalAddresses, externalAddresses := AllInternal(d, to, cc, bcc), AllExternal(d, to, cc, bcc);
    Routed(Internal(d, to), Internal(d, cc), Internal(d, bcc), External(d, to), External(d, cc), External(d, bcc),
           |internalAddresses|, |externalAddresses|, |External(d, to)|,
           UniqueDomains(internalAddresses + externalAddresses), UniqueDomains(internalAddresses),
           UniqueDomains(externalAddresses))
  }

  method RouteOutboundRecipients(d: Directory, toValues: seq<string>, ccValues: seq<string>, bccValues: seq<string>)
    returns (r: Routed)
    ensures r == Routing(d, toValues, ccValues, bccValues)
  {
    var to, cc := NormalizeRecipientList(toValues), NormalizeRecipientList(ccValues);
    var bcc := NormalizeRecipientList(bccValues);
    var toInternal, toExternal := SplitList(d, to);
    var ccInternal, ccExternal := SplitList(d, cc);
    var bccInternal, bccExternal := SplitList(d, bcc);
    var internalAddresses := Addresses(toInternal + ccInternal + bccInternal);
    var externalAddresses := toExternal + ccExternal + bccExternal;
    r := Routed(toInternal, ccInternal, bccInternal, toExternal, ccExternal, bccExternal,
                |internalAddresses|, |externalAddresses|, |toExternal|,
                UniqueDomains(internalAddresses + externalAddresses), UniqueDomains(internalAddresses),
                UniqueDomains(externalAddresses));
  }

  /** Each list is the interleaving of its own two parts, everybody who is not blank is counted once, on one of the
      two sides, and the recipient domains are the union of the domains of both sides. */
  lemma RoutingIsComplete(d: Directory, to: seq<string>, cc: seq<string>, bcc: seq<string>)
    ensures var r := Routing(d, to, cc, bcc);
            r.internalCount == |r.toInternal| + |r.ccInternal| + |r.bccInternal|
            && r.externalCount == |r.toExternal| + |r.ccExternal| + |r.bccExternal|
            && r.internalCount + r.externalCount == NonBlank(to) + NonBlank(cc) + NonBlank(bcc)
            && (forall x :: x in r.recipientDomains <==> x in r.internalDomains || x in r.externalDomains)
            && r.externalToCount == |r.toExternal| <= r.externalCount
            && Interleaves(NormalizeRecipientList(to), Addresses(r.toInternal), r.toExternal)
            && Interleaves(NormalizeRecipientList(cc), Addresses(r.ccInternal), r.ccExternal)
            && Interleaves(NormalizeRecipientList(bcc), Addresses(r.bccInternal), r.bccExternal)
  {
    hide RecipientDomain, Trim, Lower, Interleaves, NonBlank, Internal, External;
    var a, b, c := NormalizeRecipientList(to), NormalizeRecipientList(cc), NormalizeRecipientList(bcc);
    SplitInterleaves(d, a);
    SplitInterleaves(d, b);
    SplitInterleaves(d, c);
    var s, t := AllInternal(d, a, b, c), AllExternal(d, a, b, c);
    forall x ensures x in UniqueDomains(s + t) <==> x in UniqueDomains(s) || x in UniqueDomains(t) {
      DomainsOfSum(s, t, x);
    }
  }

  /** A domain is listed for a side exactly when it is the domain of a recipient on that side. */
  lemma DomainsAreOfTheirSide(d: Directory, to: seq<string>, cc: seq<string>, bcc: seq<string>, x: string)
    requires x != ""
    ensures var r := Routing(d, to, cc, bcc);
            (x in r.internalDomains <==>
               exists a :: RecipientDomain(a) == x && (a in Addresses(r.toInternal) || a in Addresses(r.ccInternal)
                                                       || a in Addresses(r.bccInternal)))
            && (x in r.externalDomains <==>
                  exists a :: RecipientDomain(a) == x && (a in r.toExternal || a in r.ccExternal || a in r.bccExternal))
  {
    hide RecipientDomain, NormalizeRecipientList, Internal, External, UniqueDomains, Addresses;
    var r := Routing(d, to, cc, bcc);
    AddressesOfSum(r.toInternal, r.ccInternal, r.bccInternal);
    DomainOfMember(Addresses(r.toInternal), Addresses(r.ccInternal), Addresses(r.bccInternal), x);
    DomainOfMember(r.toExternal, r.ccExternal, r.bccExternal, x);
  }

  lemma AddressesOfSum(a: seq<LocalRecipient>, b: seq<LocalRecipient>, c: seq<LocalRecipient>)
    ensures Addresses(a + b + c) == Addresses(a) + Addresses(b) + Addresses(c)
  {
  }

  lemma DomainOfMember(s: seq<string>, t: seq<string>, u: seq<string>, x: string)
    ensures HasDomain(s + t + u, x) <==> exists a :: RecipientDomain(a) == x && (a in s || a in t || a in u)
  {
    hide RecipientDomain;
    var all := s + t + u;
    if i :| 0 <= i < |all| && RecipientDomain(all[i]) == x {
      assert all[i] in s || all[i] in t || all[i] in u;
    }
    if a :| RecipientDomain(a) == x && (a in s || a in t || a in u) {
      assert a in all;
      var i :| 0 <= i < |all| && all[i] == a;
    }
  }

  lemma DomainsOfSum(s: seq<string>, t: seq<string>, x: string)
    ensures x in UniqueDomains(s + t) <==> x in UniqueDomains(s) || x in UniqueDomains(t)
  {
    hide RecipientDomain, UniqueDomains;
    if i :| 0 <= i < |s| && RecipientDomain(s[i]) == x {
      assert (s + t)[i] == s[i];
    }
    if i :| 0 <= i < |t| && RecipientDomain(t[i]) == x {
      assert (s + t)[|s| + i] == t[i];
    }
  }

  /** External delivery needs an external To recipient; None is no objection. */
  function RoutingValidationError(r: Routed): Option<string> {
    if r.externalCount > 0 && r.externalToCount == 0 then
      Some("External delivery requires at least one external To recipient after internal routing")
    else None
  }

  /** A send that is not objected to and has outsiders in any list has one in To. */
  lemma ValidatedSendHasExternalTo(d: Directory, to: seq<string>, cc: seq<string>, bcc: seq<string>)
    ensures var r := Routing(d, to, cc, bcc);
            RoutingValidationError(r).None? <==>
            (r.toExternal != [] || (r.ccExternal == [] && r.bccExternal == []))
  {
    hide NormalizeRecipientList, UniqueDomains, Internal, External;
  }

  // ----- the cost of a send -----

  const DEFAULT_OUTBOUND_CREDITS_PER_SEND := 1
  const EXEMPT_CREATED_VIA := "system:token_reissue_self_mailbox"

  /** Credits a send takes: none for an exempt origin or when nobody is external. */
  function Cost(d: Directory, to: seq<string>, cc: seq<string>, bcc: seq<string>, createdVia: Option<string>): nat {
    if createdVia.Some? && Lower(createdVia.value) == EXEMPT_CREATED_VIA then 0
    else if Routing(d, to, cc, bcc).externalCount > 0 then DEFAULT_OUTBOUND_CREDITS_PER_SEND
    else 0
  }

  function TrimAll(values: seq<string>): (r: seq<string>)
    ensures |r| == |values|
  {
    seq(|values|, i requires 0 <= i < |values| => Trim(values[i]))
  }

  lemma TrimmingOne(value: string)
    ensures NormalizeRecipientAddress(Trim(value)) == NormalizeRecipientAddress(value)
  {
    hide Trim, Lower;
    TrimOfTrimmed(Trim(value));
  }

  lemma {:induction false} TrimmingChangesNothing(values: seq<string>)
    ensures NormalizeRecipientList(TrimAll(values)) == NormalizeRecipientList(values)
  {
    hide NormalizeRecipientAddress, Trim, Lower, NonBlank;
    if values != [] {
      TrimmingOne(values[0]);
      TrimmingChangesNothing(values[1..]);
      assert TrimAll(values)[0] == Trim(values[0]);
      assert TrimAll(values)[1..] == TrimAll(values[1..]);
    }
  }

  /** The enqueue charges for trimmed recipients and the settlement for the stored ones: while the directory is
      the same, both arrive at the same cost. */
  lemma SettlementCostsWhatWasReserved(
      d: Directory, to: seq<string>, cc: seq<string>, bcc: seq<string>, createdVia: Option<string>)
    ensures Cost(d, TrimAll(to), TrimAll(cc), TrimAll(bcc), createdVia) == Cost(d, to, cc, bcc, createdVia)
  {
    TrimmingChangesNothing(to);
    TrimmingChangesNothing(cc);
    TrimmingChangesNothing(bcc);
  }

  /** A send costs something exactly when its origin is not exempt and some recipient that is not blank has no
      active mailbox here. */
  lemma ChargedForOutsiders(
      d: Directory, to: seq<string>, cc: seq<string>, bcc: seq<string>, createdVia: Option<string>)
    ensures Cost(d, to, cc, bcc, createdVia) > 0 <==>
            !(createdVia.Some? && Lower(createdVia.value) == EXEMPT_CREATED_VIA)
            && exists a ::
                 (a in NormalizeRecipientList(to) || a in NormalizeRecipientList(cc)
                  || a in NormalizeRecipientList(bcc))
                 && !IsLocal(d, a)
  {
    hide Lower, Trim, UniqueDomains;
    var x, y, z := NormalizeRecipientList(to), NormalizeRecipientList(cc), NormalizeRecipientList(bcc);
    var t := AllExternal(d, x, y, z);
    if t != [] {
      assert t[0] in t;
      SplitByMailbox(d, x, t[0]);
      SplitByMailbox(d, y, t[0]);
      SplitByMailbox(d, z, t[0]);
    }
    if a :| (a in x || a in y || a in z) && !IsLocal(d, a) {
      SplitByMailbox(d, x, a);
      SplitByMailbox(d, y, a);
      SplitByMailbox(d, z, a);
      assert a in t;
    }
  }
}
