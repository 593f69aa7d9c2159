/** Replacing the attachment rows of one message, with the old rows put back when an insert throws. */
module Attachments {
  import opened Text

  datatype Attachment = Attachment(id: nat, r2Key: string)

  /** The rows of every message, oldest first. */
  type Table = map<nat, seq<Attachment>>

  datatype Fault = Works | Early | Late

  /** Where the program can throw; `Insert` is counted by position. */
  datatype Point = FindMessage | ListRows | DeleteRows | Insert(k: nat) | FindAgain

  datatype Result = Replaced(obsolete: seq<string>) | Refused(at: Point)

  function RowsOf(t: Table, message: nat): seq<Attachment> {
    if message in t then t[message] else []
  }

  function Keys(rows: seq<Attachment>): (keys: seq<string>)
    ensures |keys| == |rows| && forall i :: 0 <= i < |rows| ==> keys[i] == rows[i].r2Key
  {
    seq(|rows|, i requires 0 <= i < |rows| => rows[i].r2Key)
  }

  /** The keys that are not in use any more, in their old order. */
  function Without(keys: seq<string>, used: set<string>): (r: seq<string>)
    ensures forall k :: k in r <==> k in keys && k !in used
  {
    if keys == [] then [] else (if keys[0] in used then [] else [keys[0]]) + Without(keys[1..], used)
  }

  /** Where an exception is not answered by putting the old rows back. */
  predicate Leaks(at: Point, fault: Fault) {
    (at == Point.DeleteRows && fault == Late) || at == FindAgain
  }

  class AttachmentStore {
    var table: Table
    var messages: set<nat>

    constructor ()
      ensures table == map[] && messages == {}
    {
      table, messages := map[], {};
    }

    /** `DELETE FROM attachments WHERE message_id = ?` */
    method DeleteRows(message: nat)
      modifies this`table
      ensures table == old(table)[message := []]
    {
      table := table[message := []];
    }

    method InsertRow(message: nat, row: Attachment)
      modifies this`table
      ensures table == old(table)[message := RowsOf(old(table), message) + [row]]
    {
      table := table[message := (if message in table then table[message] else []) + [row]];
    }

    /** The loop of inserts; None when it comes to its end, otherwise where it threw. */
    method InsertAll(message: nat, rows: seq<Attachment>, fault: Point -> Fault) returns (failed: Option<Point>)
      requires message in table && table[message] == []
      modifies this`table
      ensures message in table && table == old(table)[message := table[message]]
      ensures failed.None? ==> table[message] == rows && forall k :: 0 <= k < |rows| ==> fault(Insert(k)) == Works
      ensures failed.Some? ==> failed.value.Insert? && failed.value.k < |rows| && fault(failed.value) != Works
    {
      for k := 0 to |rows|
        invariant message in table && table == old(table)[message := rows[..k]]
        invariant forall j :: 0 <= j < k ==> fault(Insert(j)) == Works
      {
        if fault(Insert(k)) != Early {
          InsertRow(message, rows[k]);
          assert rows[..k + 1] == rows[..k] + [rows[k]];
        }
        if fault(Insert(k)) != Works {
          return Some(Insert(k));
        }
      }
      assert rows[..|rows|] == rows;
      failed := None;
    }

    /** On success the message has exactly the new rows, and the keys only the old ones used are returned. When it
        throws, the message has its old rows exactly if the exception came from no leaky place. The rows of other
        messages are never touched. */
    method InsertAttachments(message: nat, attachments: seq<Attachment>, fault: Point -> Fault) returns (r: Result)
      modifies this`table
      ensures forall m :: m != message ==> RowsOf(table, m) == RowsOf(old(table), m)
      ensures r.Replaced? ==>
                RowsOf(table, message) == attachments
                && r.obsolete == Without(Keys(RowsOf(old(table), message)), set a | a in attachments :: a.r2Key)
      ensures r.Refused? && !Leaks(r.at, fault(r.at)) ==> RowsOf(table, message) == RowsOf(old(table), message)
      ensures r.Refused? && r.at == Point.DeleteRows && fault(r.at) == Late ==> RowsOf(table, message) == []
      ensures r.Refused? && r.at == FindAgain ==> RowsOf(table, message) == attachments
      ensures r.Replaced? <==>
                message in messages
                && fault(FindMessage) == fault(ListRows) == fault(Point.DeleteRows) == fault(FindAgain) == Works
                && forall k :: 0 <= k < |attachments| ==> fault(Insert(k)) == Works
    {
      if fault(FindMessage) != Works || message !in messages {
        return Refused(FindMessage);
      }
      if fault(ListRows) != Works {
        return Refused(ListRows);
      }
      var existing := if message in table then table[message] else [];
      if fault(Point.DeleteRows) == Early {
        return Refused(Point.DeleteRows);
      }
      DeleteRows(message);
      if fault(Point.DeleteRows) == Late {
        return Refused(Point.DeleteRows);
      }
      var failed := InsertAll(message, attachments, fault);
      if failed.Some? {
        DeleteRows(message);
        var restored := InsertAll(message, existing, (p: Point) => Works);
        return Refused(failed.value);
      }
      if fault(FindAgain) != Works {
        return Refused(FindAgain);
      }
      var nextKeys := set a | a in attachments :: a.r2Key;
      return Replaced(Without(Keys(existing), nextKeys));
    }
  }
}
