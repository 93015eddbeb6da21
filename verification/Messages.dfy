/**
 The messages table and its repository (app/tracking/repository.py, db/migrations/).
 Row ids are database-generated and enter as parameters; rows are never deleted.
 */
module Messages {
  import opened Wrappers
  import opened Bytes

  type MessageId = nat

  datatype Direction = Inbound | Outbound

  /** `Custom` is whatever terminal status a downstream consumer chose for a message it has processed. */
  datatype Status =
    | Processing | Accepted | Rejected
    | Queued | Delivered | FailedNack | ExchangeFailure
    | Custom(text: Bytes)

  datatype Row = Row(
    direction: Direction,
    partner: Bytes,
    digest: Bytes,
    fromId: Bytes,
    toId: Bytes,
    refnum: Option<Bytes>,
    status: Status,
    errorCode: Option<Bytes>,
    receiptVerified: Option<bool>,
    transId: Option<nat>
  )

  type Table = map<MessageId, Row>

  /** Two rows that one of the table's unique constraints forbids to coexist. */
  predicate SameKey(a: Row, b: Row) {
    && a.direction == b.direction
    && a.partner == b.partner
    && (a.digest == b.digest || (a.refnum.Some? && a.refnum == b.refnum))
  }

  predicate Conflicts(rows: Table, r: Row) {
    exists m :: m in rows && SameKey(rows[m], r)
  }

  predicate KeysUnique(rows: Table) {
    forall m, n :: m in rows && n in rows && m != n ==> !SameKey(rows[m], rows[n])
  }

  predicate HasDigest(rows: Table, partner: Bytes, digest: Bytes, direction: Direction) {
    exists m :: m in rows && rows[m].partner == partner && rows[m].digest == digest && rows[m].direction == direction
  }

  predicate HasRefnum(rows: Table, partner: Bytes, refnum: Bytes, direction: Direction) {
    exists m ::
      m in rows && rows[m].partner == partner && rows[m].refnum == Some(refnum) && rows[m].direction == direction
  }

  /** The two searches foretell the insert: what they find is what every row with that key would run into. */
  lemma DigestSearchForetellsInsert(rows: Table, partner: Bytes, digest: Bytes, direction: Direction)
    ensures HasDigest(rows, partner, digest, direction) <==>
      forall r: Row :: r.partner == partner && r.digest == digest && r.direction == direction ==> Conflicts(rows, r)
  {
    if HasDigest(rows, partner, digest, direction) {
      var m :| m in rows && rows[m].partner == partner && rows[m].digest == digest && rows[m].direction == direction;
      forall r: Row | r.partner == partner && r.digest == digest && r.direction == direction
        ensures Conflicts(rows, r)
      {
        assert SameKey(rows[m], r);
      }
    } else {
      var r := Row(direction, partner, digest, [], [], None, Processing, None, None, None);
      assert !Conflicts(rows, r);
    }
  }

  lemma RefnumSearchForetellsInsert(rows: Table, partner: Bytes, refnum: Bytes, direction: Direction)
    ensures HasRefnum(rows, partner, refnum, direction) <==>
      forall r: Row :: r.partner == partner && r.refnum == Some(refnum) && r.direction == direction ==>
        Conflicts(rows, r)
  {
    if HasRefnum(rows, partner, refnum, direction) {
      var m :|
        m in rows && rows[m].partner == partner && rows[m].refnum == Some(refnum) && rows[m].direction == direction;
      forall r: Row | r.partner == partner && r.refnum == Some(refnum) && r.direction == direction
        ensures Conflicts(rows, r)
      {
        assert SameKey(rows[m], r);
      }
    } else {
      var digest := UnusedDigest(rows);
      var r := Row(direction, partner, digest, [], [], Some(refnum), Processing, None, None, None);
      assert !Conflicts(rows, r);
    }
  }

  /** A table is finite: some digest is in none of its rows. */
  lemma {:induction false} UnusedDigest(rows: Table) returns (digest: Bytes)
    ensures forall m :: m in rows ==> |rows[m].digest| < |digest|
    decreases |rows|
  {
    if rows == map[] {
      digest := [];
    } else {
      var m :| m in rows;
      digest := UnusedDigest(rows - {m});
      var own := rows[m].digest;
      digest := (if |digest| < |own| then own else digest) + ['0'];
      forall n | n in rows ensures |rows[n].digest| < |digest| {
        assert n != m ==> n in rows - {m};
      }
    }
  }

  /** `ids` without those in `updated`, in order. */
  function Without(ids: seq<MessageId>, updated: seq<MessageId>): seq<MessageId> {
    if ids == [] then []
    else
      var last := ids[|ids| - 1];
      Without(ids[..|ids| - 1], updated) + if last in updated then [] else [last]
  }

  /** Statuses the gateway reserves for itself; the API refuses them from a consumer. */
  predicate Reserved(s: Status) {
    s in {Processing, Accepted, Rejected}
  }

  function UpdateStatus(
    rows: Table, id: MessageId, status: Status, errorCode: Option<Bytes>, receiptVerified: Option<bool>
  ): Table {
    if id in rows
    then rows[id := rows[id].(status := status, errorCode := errorCode, receiptVerified := receiptVerified)]
    else rows
  }

  function Eligible(rows: Table, ids: seq<MessageId>): set<MessageId> {
    set m | m in rows && m in ids && rows[m].status == Accepted
  }

  function MarkAll(rows: Table, ids: set<MessageId>, status: Status): Table {
    map m | m in rows :: if m in ids then rows[m].(status := status) else rows[m]
  }

  /** What a row never loses: its identity and the columns its keys are made of. */
  predicate SameIdentity(a: Row, b: Row) {
    a.(status := b.status, errorCode := b.errorCode, receiptVerified := b.receiptVerified) == b
  }

  /** How the table may move: rows stay, and keep their identity. */
  predicate Grows(rows: Table, rows': Table) {
    forall m :: m in rows ==> m in rows' && SameIdentity(rows[m], rows'[m])
  }

  class MessageTracker {
    var rows: Table
    var lastTransId: nat

    constructor ()
      ensures rows == map[] && lastTransId == 0
    {
      rows := map[];
      lastTransId := 0;
    }

    /**
     Found exactly when no row with this partner, digest and direction could be inserted,
     whatever its other columns.
     */
    method FindDuplicate(partner: Bytes, digest: Bytes, direction: Direction) returns (found: bool)
      ensures found <==> HasDigest(rows, partner, digest, direction)
      ensures found <==>
        forall r: Row :: r.partner == partner && r.digest == digest && r.direction == direction ==> Conflicts(rows, r)
    {
      found := exists m ::
        m in rows && rows[m].partner == partner && rows[m].digest == digest && rows[m].direction == direction;
      DigestSearchForetellsInsert(rows, partner, digest, direction);
    }

    /**
     Found exactly when no row with this partner, refnum and direction could be inserted,
     whatever its other columns.
     */
    method FindRefnumReuse(partner: Bytes, refnum: Bytes, direction: Direction) returns (found: bool)
      ensures found <==> HasRefnum(rows, partner, refnum, direction)
      ensures found <==>
        forall r: Row :: r.partner == partner && r.refnum == Some(refnum) && r.direction == direction ==>
          Conflicts(rows, r)
    {
      found := exists m ::
        m in rows && rows[m].partner == partner && rows[m].refnum == Some(refnum) && rows[m].direction == direction;
      RefnumSearchForetellsInsert(rows, partner, refnum, direction);
    }

    /** `nextval('trans_id_seq')`. */
    method NextTransId() returns (id: nat)
      modifies this`lastTransId
      ensures id == lastTransId == old(lastTransId) + 1
    {
      lastTransId := lastTransId + 1;
      id := lastTransId;
    }

    /** Insert, or the unique violation; `id` is the generated key. */
    method Create(record: Row, id: MessageId) returns (created: bool)
      requires id !in rows && KeysUnique(rows)
      modifies this`rows
      ensures created <==> !Conflicts(old(rows), record)
      ensures rows == if created then old(rows)[id := record] else old(rows)
      ensures KeysUnique(rows) && Grows(old(rows), rows)
    {
      created := !Conflicts(rows, record);
      if created {
        rows := rows[id := record];
      }
    }

    method SetStatus(id: MessageId, status: Status, errorCode: Option<Bytes>, receiptVerified: Option<bool>)
      modifies this`rows
      ensures rows == UpdateStatus(old(rows), id, status, errorCode, receiptVerified)
      ensures rows.Keys == old(rows).Keys && Grows(old(rows), rows)
      ensures KeysUnique(old(rows)) ==> KeysUnique(rows)
    {
      rows := UpdateStatus(rows, id, status, errorCode, receiptVerified);
    }

    /**
     Move the accepted ones among `ids` to a status of the consumer's own. The answer
     splits `ids`: what was updated, each once, and what was skipped, in order.
     */
    method MarkProcessed(ids: seq<MessageId>, status: Status) returns (updated: seq<MessageId>, skipped: seq<MessageId>)
      requires !Reserved(status)
      modifies this`rows
      ensures rows == MarkAll(old(rows), Eligible(old(rows), ids), status)
      ensures forall m :: m in updated <==> m in ids && m in old(rows) && old(rows)[m].status == Accepted
      ensures forall m :: m in updated ==> rows[m] == old(rows)[m].(status := status)
      ensures rows.Keys == old(rows).Keys && forall m :: m in rows && m !in updated ==> rows[m] == old(rows)[m]
      ensures forall i, j :: 0 <= i < j < |updated| ==> updated[i] != updated[j]
      ensures forall m :: m in ids <==> m in updated || m in skipped
      ensures forall m :: m in updated ==> m !in skipped
      ensures skipped == Without(ids, updated)
      ensures Eligible(rows, ids) == {}
    {
      updated, skipped := [], [];
      var before := rows;
      for i := 0 to |ids|
        invariant rows == before
        invariant forall m :: m in updated <==> m in Eligible(before, ids[..i])
        invariant forall i, j :: 0 <= i < j < |updated| ==> updated[i] != updated[j]
      {
        assert ids[..i + 1] == ids[..i] + [ids[i]];
        if ids[i] in before && before[ids[i]].status == Accepted && ids[i] !in updated {
          updated := updated + [ids[i]];
        }
      }
      assert ids[..|ids|] == ids;
      rows := MarkAll(rows, Eligible(before, ids), status);
      for i := 0 to |ids|
        invariant rows == MarkAll(before, Eligible(before, ids), status)
        invariant forall m :: m in skipped <==> m in ids[..i] && m !in updated
        invariant skipped == Without(ids[..i], updated)
      {
        assert ids[..i + 1] == ids[..i] + [ids[i]] && ids[..i + 1][..i] == ids[..i];
        if ids[i] !in updated {
          skipped := skipped + [ids[i]];
        }
      }
    }
  }
}
