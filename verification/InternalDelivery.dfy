/** Delivery of one outbound job to the tenant's own mailboxes: per recipient a raw object is put, an inbound row
    is inserted unless the mailbox already has the message, and ingestion is dispatched. */
module InternalDelivery {
  import opened Text

  // ----- the message id of a job -----

  function MessageIdDomain(from: string): (domain: string)
    ensures '@' !in domain && domain != ""
  {
    var normalized := Lower(Trim(from));
    var at := LastIndexOf(normalized, '@');
    if at == -1 || at == |normalized| - 1 then "internal.mailagents" else normalized[at + 1..]
  }

  /** `<job@domain>` */
  function BuildDeterministicMessageId(job: string, from: string): string {
    "<" + (job + ("@" + (MessageIdDomain(from) + ">")))
  }

  /** The domain of the id is that of the sender, behind the last at sign, or a fixed one when there is none. */
  lemma DomainIsTheSenders(from: string, local: string, domain: string)
    requires '@' !in domain
    ensures Lower(Trim(from)) == local + "@" + domain && domain != "" ==> MessageIdDomain(from) == domain
    ensures '@' !in Lower(Trim(from)) ==> MessageIdDomain(from) == "internal.mailagents"
  {
    hide Trim, Lower, LastIndexOf;
    LastIndexBetween(local, '@', domain);
    assert (local + "@" + domain)[|local| + 1..] == domain;
  }

  function UpToAt(s: string): string {
    if s == "" || s[0] == '@' then "" else [s[0]] + UpToAt(s[1..])
  }

  lemma {:induction false} UpToAtFindsName(name: string, rest: string)
    requires '@' !in name
    ensures UpToAt(name + ("@" + rest)) == name
  {
    if name != "" {
      assert (name + ("@" + rest))[1..] == name[1..] + ("@" + rest);
      UpToAtFindsName(name[1..], rest);
    }
  }

  /** Jobs whose names hold no at sign never share a message id, whatever their senders. */
  lemma MessageIdsAreDistinct(job: string, other: string, from: string, otherFrom: string)
    requires '@' !in job && '@' !in other
    requires BuildDeterministicMessageId(job, from) == BuildDeterministicMessageId(other, otherFrom)
    ensures job == other
  {
    hide MessageIdDomain;
    assert BuildDeterministicMessageId(job, from)[1..] == job + ("@" + (MessageIdDomain(from) + ">"));
    assert BuildDeterministicMessageId(other, otherFrom)[1..] == other + ("@" + (MessageIdDomain(otherFrom) + ">"));
    UpToAtFindsName(job, MessageIdDomain(from) + ">");
    UpToAtFindsName(other, MessageIdDomain(otherFrom) + ">");
  }

  // ----- rows and objects -----

  datatype Status = Received | Failed | Normalized

  datatype Row = Row(mailbox: nat, internetMessageId: string, status: Status)

  datatype Point = Put | Insert | Confirm | Delete | Lookup | Dispatch

  /** An operation works, throws, or is where the handler dies; `late` means after its effect. */
  datatype Fault = Works | Throws(late: bool) | Dies(late: bool)

  /** `missing` tells whether the recipient's mailbox had no copy of the message when the run stopped at it. */
  datatype Result = Delivered | Stopped(at: Point, fault: Fault, missing: bool)

  /** The message rows of one mailbox with one message id. */
  function Copies(rows: map<nat, Row>, mailbox: nat, mid: string): set<nat> {
    set id | id in rows && rows[id].mailbox == mailbox && rows[id].internetMessageId == mid
  }

  ghost predicate NoDuplicates(rows: map<nat, Row>) {
    forall a, b ::
      (a in rows && b in rows && rows[a].mailbox == rows[b].mailbox
       && rows[a].internetMessageId == rows[b].internetMessageId) ==> a == b
  }

  /** Where stopping leaves an object without a row or a row without its object. */
  predicate Leaky(r: Result) {
    r.Stopped? &&
    match r.at
    case Put => r.fault != Works && r.fault.late
    case Insert => if r.missing then r.fault == Throws(true) || r.fault == Dies(false) else r.fault.Dies?
    case Confirm => r.fault.Throws?
    case Delete => r.fault == Dies(false)
    case Lookup => false
    case Dispatch => false
  }

  class MailStore {
    var rows: map<nat, Row>
    /** Raw objects, named after the message they were put for. */
    var objects: set<nat>
    var dispatched: set<nat>
    var nextId: nat

    constructor ()
      ensures Valid() && rows == map[] && objects == {}
    {
      rows, objects, dispatched, nextId := map[], {}, {}, 0;
    }

    /** A mailbox never holds a message id twice, and the next id is new. */
    ghost predicate Valid()
      reads this
    {
      NoDuplicates(rows) && (forall id :: id in rows ==> id < nextId) && forall id :: id in objects ==> id < nextId
    }

    /** Every row has its raw object and every object its row. */
    ghost predicate OneToOne()
      reads this
    {
      objects == rows.Keys
    }

    /** `INSERT ... WHERE NOT EXISTS` */
    method InsertInbound(id: nat, row: Row) returns (inserted: bool)
      requires Valid() && id !in rows && id < nextId
      modifies this`rows
      ensures Valid() && inserted == (Copies(old(rows), row.mailbox, row.internetMessageId) == {})
      ensures rows == if inserted then old(rows)[id := row] else old(rows)
    {
      var known := exists m | m in rows ::
                     rows[m].mailbox == row.mailbox && rows[m].internetMessageId == row.internetMessageId;
      assert known <==> Copies(rows, row.mailbox, row.internetMessageId) != {} by {
        if known {
          var m :| m in rows && rows[m].mailbox == row.mailbox && rows[m].internetMessageId == row.internetMessageId;
          assert m in Copies(rows, row.mailbox, row.internetMessageId);
        }
      }
      inserted := !known;
      if inserted {
        rows := rows[id := row];
      }
    }

    method FindInbound(mailbox: nat, mid: string) returns (id: nat)
      requires Valid() && Copies(rows, mailbox, mid) != {}
      ensures Copies(rows, mailbox, mid) == {id}
    {
      var copies := Copies(rows, mailbox, mid);
      id :| id in copies;
      assert forall other :: other in copies ==> other == id;
    }

    /** Put the raw object and insert the row. An exception before the row is known to exist deletes the object;
        `Delivered` stands for going on. */
    method StoreInbound(mailbox: nat, mid: string, fault: Point -> Fault) returns (id: nat, created: bool, r: Result)
      requires Valid()
      modifies this`rows, this`objects, this`nextId
      ensures Valid()
      ensures r.Stopped? ==> r.at in {Put, Insert, Confirm} && r.fault == fault(r.at) && r.fault != Works
      ensures r == Delivered <==>
                fault(Put) == Works && fault(Insert) == Works
                && (Copies(old(rows), mailbox, mid) == {} ==> fault(Confirm) == Works)
      ensures r.Stopped? ==> (r.missing <==> Copies(old(rows), mailbox, mid) == {})
      ensures rows == old(rows) || (id !in old(rows) && rows == old(rows)[id := Row(mailbox, mid, Received)])
      ensures r == Delivered ==>
                id !in old(rows) && objects == old(objects) + {id} && id !in old(objects)
                && created == (Copies(old(rows), mailbox, mid) == {})
                && rows == if created then old(rows)[id := Row(mailbox, mid, Received)] else old(rows)
      ensures old(OneToOne()) && fault(Delete) == Works && r.Stopped? ==> (OneToOne() <==> !Leaky(r))
    {
      var missing := !exists m | m in rows :: rows[m].mailbox == mailbox && rows[m].internetMessageId == mid;
      assert missing <==> Copies(rows, mailbox, mid) == {} by {
        if !missing {
          var m :| m in rows && rows[m].mailbox == mailbox && rows[m].internetMessageId == mid;
          assert m in Copies(rows, mailbox, mid);
        }
      }
      id, created := nextId, false;
      nextId := nextId + 1;
      if fault(Put) == Works || fault(Put).late {
        objects := objects + {id};
      }
      if fault(Put) != Works {
        r := Stopped(Put, fault(Put), missing);
        return;
      }
      if fault(Insert) == Works || fault(Insert).late {
        created := InsertInbound(id, Row(mailbox, mid, Received));
      }
      r := if fault(Insert) != Works then Stopped(Insert, fault(Insert), missing)
           else if created && fault(Confirm) != Works then Stopped(Confirm, fault(Confirm), missing)
           else Delivered;
      if r.Stopped? && r.fault.Throws? {
        DiscardObject(id, fault);
      }
    }

    /** The loop body: one recipient. */
    method DeliverOne(mailbox: nat, mid: string, fault: Point -> Fault) returns (r: Result)
      requires Valid()
      modifies this
      ensures Valid()
      ensures forall id :: id in old(rows) ==> id in rows && rows[id] == old(rows)[id]
      ensures forall id :: id in rows && id !in old(rows) ==> rows[id] == Row(mailbox, mid, Received)
      ensures r == Delivered <==> Unstopped(old(rows), mailbox, mid, fault)
      ensures r.Stopped? ==> r.fault == fault(r.at) && r.fault != Works
      ensures r == Delivered ==> ReachedIn(rows, dispatched, mailbox, mid)
      ensures old(dispatched) <= dispatched && OnlyOpen(rows, old(dispatched), dispatched, mailbox, mid)
      ensures old(OneToOne()) && fault(Delete) == Works ==> (OneToOne() <==> !Leaky(r))
    {
      hide NoDuplicates, Copies, ReachedIn;
      var id, created;
      id, created, r := StoreInbound(mailbox, mid, fault);
      if r.Stopped? {
        return;
      }
      if !created {
        r := DispatchExisting(id, mailbox, mid, fault);
        return;
      }
      if fault(Dispatch) == Works || fault(Dispatch).late {
        dispatched := dispatched + {id};
      }
      if fault(Dispatch) != Works {
        return Stopped(Dispatch, fault(Dispatch), true);
      }
      NewCopyIsReached(old(rows), dispatched, id, mailbox, mid);
    }

    /** The object is deleted; an exception is swallowed. */
    method DiscardObject(id: nat, fault: Point -> Fault)
      modifies this`objects
      ensures objects == if fault(Delete) == Works || fault(Delete).late then old(objects) - {id} else old(objects)
    {
      if fault(Delete) == Works || fault(Delete).late {
        objects := objects - {id};
      }
    }

    /** The mailbox has the message already: the new object is discarded and the row dispatched again while it
        has not been ingested. */
    method DispatchExisting(id: nat, mailbox: nat, mid: string, fault: Point -> Fault) returns (r: Result)
      requires Valid() && Copies(rows, mailbox, mid) != {}
      modifies this`objects, this`dispatched
      ensures Valid() && old(dispatched) <= dispatched
      ensures OnlyOpen(rows, old(dispatched), dispatched, mailbox, mid)
      ensures r == Delivered <==>
                !fault(Delete).Dies? && fault(Lookup) == Works
                && forall m ::
                     m in Copies(rows, mailbox, mid) && rows[m].status != Normalized ==> fault(Dispatch) == Works
      ensures fault(Delete) == Works ==> objects == old(objects) - {id}
      ensures r.Stopped? ==> r.fault == fault(r.at) && r.fault != Works && r.at in {Delete, Lookup, Dispatch}
                             && !r.missing && (r.at == Delete ==> r.fault.Dies?)
      ensures r == Delivered ==> ReachedIn(rows, dispatched, mailbox, mid)
    {
      DiscardObject(id, fault);
      if fault(Delete).Dies? {
        return Stopped(Delete, fault(Delete), false);
      }
      if fault(Lookup) != Works {
        if fault(Lookup).Throws? {
          DiscardObject(id, fault);
        }
        return Stopped(Lookup, fault(Lookup), false);
      }
      var existing := FindInbound(mailbox, mid);
      if rows[existing].status == Received || rows[existing].status == Failed {
        if fault(Dispatch) == Works || fault(Dispatch).late {
          dispatched := dispatched + {existing};
        }
        if fault(Dispatch) != Works {
          if fault(Dispatch).Throws? {
            DiscardObject(id, fault);
          }
          return Stopped(Dispatch, fault(Dispatch), false);
        }
      }
      r := Delivered;
    }

    /** The whole delivery: it stops at the first recipient where an exception or a death stops it. Whatever
        earlier runs left behind, a run that returns leaves every recipient mailbox with exactly one copy of the
        message, ingested or dispatched, however often the mailbox appears among the recipients. Rows and raw
        objects stay one to one exactly unless the run stopped in one of the leaky places. */
    method DeliverLocallyToMailboxes(recipients: seq<nat>, mid: string, fault: nat -> Point -> Fault)
      returns (r: Result)
      requires Valid()
      modifies this
      ensures Valid()
      ensures forall id :: id in old(rows) ==> id in rows && rows[id] == old(rows)[id]
      ensures forall id :: id in rows && id !in old(rows) ==>
                rows[id].internetMessageId == mid && rows[id].mailbox in recipients
      ensures r == Delivered ==> forall m :: m in recipients ==> ReachedIn(rows, dispatched, m, mid)
      ensures r.Stopped? ==> exists k: nat :: k < |recipients| && r.fault == fault(k)(r.at) && r.fault != Works
      ensures (forall k: nat, p :: fault(k)(p) == Works) ==> r == Delivered
      ensures old(dispatched) <= dispatched
      ensures forall id :: id in dispatched && id !in old(dispatched) ==>
                id in rows && rows[id].mailbox in recipients && rows[id].internetMessageId == mid
                && rows[id].status != Normalized
      ensures old(OneToOne()) && (forall k: nat :: fault(k)(Delete) == Works) ==>
                (OneToOne() <==> !Leaky(r))
    {
      for k := 0 to |recipients|
        invariant Valid()
        invariant forall id :: id in old(rows) ==> id in rows && rows[id] == old(rows)[id]
        invariant forall id :: id in rows && id !in old(rows) ==>
                    rows[id].internetMessageId == mid && rows[id].mailbox in recipients
        invariant forall j :: 0 <= j < k ==> ReachedIn(rows, dispatched, recipients[j], mid)
        invariant old(dispatched) <= dispatched
        invariant forall id :: id in dispatched && id !in old(dispatched) ==>
                    id in rows && rows[id].mailbox in recipients && rows[id].internetMessageId == mid
                    && rows[id].status != Normalized
        invariant old(OneToOne()) && (forall k: nat :: fault(k)(Delete) == Works) ==> OneToOne()
      {
        label before:
        r := DeliverOne(recipients[k], mid, fault(k));
        if r.Stopped? {
          return;
        }
        forall j | 0 <= j < k ensures ReachedIn(rows, dispatched, recipients[j], mid) {
          ReachedStays(old@before(rows), old@before(dispatched), rows, dispatched, recipients[j], mid);
        }
      }
      r := Delivered;
      assert forall m :: m in recipients ==> ReachedIn(rows, dispatched, m, mid);
    }
  }

  /** Nothing stops the delivery to one mailbox: the object and the row are stored, and a new row confirmed and
      dispatched; if the mailbox has a copy already, the delivery survives the clean-up and looks the copy up, and
      dispatches it unless it has been ingested. */
  ghost predicate Unstopped(rows: map<nat, Row>, mailbox: nat, mid: string, fault: Point -> Fault) {
    && fault(Put) == Works && fault(Insert) == Works
    && if Copies(rows, mailbox, mid) == {} then fault(Confirm) == Works && fault(Dispatch) == Works
       else
         !fault(Delete).Dies? && fault(Lookup) == Works
         && forall m :: m in Copies(rows, mailbox, mid) && rows[m].status != Normalized ==> fault(Dispatch) == Works
  }

  /** Only the mailbox's copy of the message was newly dispatched, and only while it was not ingested. */
  ghost predicate OnlyOpen(rows: map<nat, Row>, before: set<nat>, after: set<nat>, mailbox: nat, mid: string) {
    forall id :: id in after && id !in before ==>
      id in rows && rows[id].mailbox == mailbox && rows[id].internetMessageId == mid && rows[id].status != Normalized
  }

  /** The mailbox has one copy of the message, ingested or dispatched. */
  ghost predicate ReachedIn(rows: map<nat, Row>, dispatched: set<nat>, mailbox: nat, mid: string) {
    |Copies(rows, mailbox, mid)| == 1
    && forall id :: id in Copies(rows, mailbox, mid) ==> id in dispatched || rows[id].status == Normalized
  }

  lemma NewCopyIsReached(rows: map<nat, Row>, dispatched: set<nat>, id: nat, mailbox: nat, mid: string)
    requires Copies(rows, mailbox, mid) == {} && id !in rows && id in dispatched
    ensures ReachedIn(rows[id := Row(mailbox, mid, Received)], dispatched, mailbox, mid)
  {
    assert Copies(rows[id := Row(mailbox, mid, Received)], mailbox, mid) == {id} by {
      assert forall m ::
        m in rows && rows[m].mailbox == mailbox && rows[m].internetMessageId == mid ==> m in Copies(rows, mailbox, mid);
    }
  }

  lemma ReachedStays(
      rows: map<nat, Row>, dispatched: set<nat>, more: map<nat, Row>, sent: set<nat>, mailbox: nat, mid: string)
    requires ReachedIn(rows, dispatched, mailbox, mid) && dispatched <= sent && NoDuplicates(more)
    requires forall id :: id in rows ==> id in more && more[id] == rows[id]
    ensures ReachedIn(more, sent, mailbox, mid)
  {
    var id :| id in Copies(rows, mailbox, mid);
    assert id in Copies(more, mailbox, mid);
    assert Copies(more, mailbox, mid) == {id};
    assert Copies(rows, mailbox, mid) == {id};
  }
}
