/** Any schedule of deliveries converges to the same table, and blanked text stays blank. */
module Convergence {
  import opened Entities
  import opened Tables
  import opened ServerLog

  datatype Delivery = Delivery(groupId: string, batch: seq<Message>)

  function StoreAll(db: Db, ds: seq<Delivery>): Db {
    if |ds| == 0 then db
    else StoreBatch(StoreAll(db, ds[..|ds| - 1]), ds[|ds| - 1].groupId, ds[|ds| - 1].batch)
  }

  /** Sum of the `inserted` counts the store reports along the way: the rows its statements wrote. */
  function TotalInserted(db: Db, ds: seq<Delivery>): int {
    if |ds| == 0 then 0
    else
      var init, d := ds[..|ds| - 1], ds[|ds| - 1];
      var before := StoreAll(db, init);
      TotalInserted(db, init) + Written(before.messages, BatchPlan(before, d.groupId, d.batch).toInsert)
  }

  /** The distinct ids of a schedule's messages. */
  function DeliveredIds(ds: seq<Delivery>): set<string> {
    if |ds| == 0 then {} else DeliveredIds(ds[..|ds| - 1]) + Ids(ds[|ds| - 1].batch)
  }

  ghost predicate FromLog(log: Log, ds: seq<Delivery>) {
    forall d | d in ds :: BatchOf(log, d.groupId, d.batch)
  }

  ghost predicate Delivered(ds: seq<Delivery>, id: string) {
    exists d :: d in ds && id in Ids(d.batch)
  }

  lemma {:induction false} DeliveredIdsAre(ds: seq<Delivery>, id: string)
    ensures id in DeliveredIds(ds) <==> Delivered(ds, id)
  {
    if |ds| == 0 {
    } else {
      var init, last := ds[..|ds| - 1], ds[|ds| - 1];
      assert ds == init + [last];
      DeliveredIdsAre(init, id);
      assert forall d :: d in ds <==> d in init || d == last;
    }
  }

  /** The counts add up to the growth of the table. */
  lemma {:induction false} InsertedIsGrowth(db: Db, ds: seq<Delivery>)
    ensures |StoreAll(db, ds).messages| == |db.messages| + TotalInserted(db, ds)
  {
    if |ds| == 0 {
    } else {
      var init, d := ds[..|ds| - 1], ds[|ds| - 1];
      var before := StoreAll(db, init);
      InsertedIsGrowth(db, init);
      InsertAllKeeps(before.messages, BatchPlan(before, d.groupId, d.batch).toInsert);
    }
  }

  /** The stored ids are what was there plus everything delivered, whatever the order or overlap. */
  lemma {:induction false} StoreAllUnion(log: Log, db: Db, ds: seq<Delivery>)
    requires LogOk(log) && StoredFrom(log, db.messages) && FromLog(log, ds)
    ensures var after := StoreAll(db, ds).messages;
            && StoredFrom(log, after)
            && forall id :: id in after <==> id in db.messages || Delivered(ds, id)
  {
    if |ds| == 0 {
    } else {
      var init, last := ds[..|ds| - 1], ds[|ds| - 1];
      assert ds == init + [last];
      StoreAllUnion(log, db, init);
      StoreBatchMessages(log, StoreAll(db, init), last.groupId, last.batch);
      hide StoreBatch, StoredFrom, BatchOf;
      forall id ensures Delivered(ds, id) <==> Delivered(init, id) || id in Ids(last.batch) {
        if d :| d in ds && id in Ids(d.batch) {
          assert d in init || d == last;
        }
        if d :| d in init && id in Ids(d.batch) {
          assert d in ds;
        }
      }
    }
  }

  lemma CountsDistinctIds(log: Log, db: Db, ds: seq<Delivery>)
    requires LogOk(log) && db.messages == map[] && FromLog(log, ds)
    ensures TotalInserted(db, ds) == |DeliveredIds(ds)|
  {
    StoreAllUnion(log, db, ds);
    InsertedIsGrowth(db, ds);
    var after := StoreAll(db, ds).messages;
    forall id ensures id in after.Keys <==> id in DeliveredIds(ds) {
      DeliveredIdsAre(ds, id);
    }
    assert after.Keys == DeliveredIds(ds) && |after| == |after.Keys|;
  }

  /** (group, id, seq) of every stored message. */
  ghost predicate StoredAs(db: Db, groupId: string, id: string, seqNo: int) {
    id in db.messages && db.messages[id].groupId == groupId && db.messages[id].seqNo == seqNo
  }

  /**
   * Starting empty, the stored (id, seq) pairs are exactly those of the union of the batches, and the
   * insert counts reported along the way add up to the number of distinct ids delivered.
   */
  lemma {:induction false} Converges(log: Log, db: Db, ds: seq<Delivery>)
    requires LogOk(log) && db.messages == map[] && FromLog(log, ds)
    ensures forall g, id, n :: StoredAs(StoreAll(db, ds), g, id, n)
              <==> exists d, m :: d in ds && m in d.batch && m.groupId == g && m.id == id && m.seqNo == n
    ensures TotalInserted(db, ds) == |DeliveredIds(ds)|
  {
    StoreAllUnion(log, db, ds);
    CountsDistinctIds(log, db, ds);
    var after := StoreAll(db, ds);
    forall g, id, n | StoredAs(after, g, id, n)
      ensures exists d, m :: d in ds && m in d.batch && m.groupId == g && m.id == id && m.seqNo == n
    {
      var d :| d in ds && id in Ids(d.batch);
      var m :| m in d.batch && m.id == id;
      assert InLog(log, m);
    }
    forall d, m | d in ds && m in d.batch ensures StoredAs(after, m.groupId, m.id, m.seqNo) {
      assert InLog(log, m) && m.id in Ids(d.batch);
      assert Delivered(ds, m.id);
    }
  }

  /** Two schedules of the same messages end in tables that agree on every (group, id, seq). */
  lemma {:induction false} OrderDoesNotMatter(log: Log, db: Db, ds: seq<Delivery>, es: seq<Delivery>)
    requires LogOk(log) && db.messages == map[] && FromLog(log, ds) && FromLog(log, es)
    requires forall id :: Delivered(ds, id) <==> Delivered(es, id)
    ensures forall g, id, n :: StoredAs(StoreAll(db, ds), g, id, n) <==> StoredAs(StoreAll(db, es), g, id, n)
    ensures TotalInserted(db, ds) == TotalInserted(db, es)
  {
    StoreAllUnion(log, db, ds);
    StoreAllUnion(log, db, es);
    CountsDistinctIds(log, db, ds);
    CountsDistinctIds(log, db, es);
    forall id ensures id in DeliveredIds(ds) <==> id in DeliveredIds(es) {
      DeliveredIdsAre(ds, id);
      DeliveredIdsAre(es, id);
    }
    assert DeliveredIds(ds) == DeliveredIds(es);
    var a, b := StoreAll(db, ds).messages, StoreAll(db, es).messages;
    assert forall id | id in a :: SameButBody(log[id], a[id]) && SameButBody(log[id], b[id]);
  }

  // ---- redaction under any history of the messages table ---------------------------

  /** Everything the client ever does to `messages`. */
  datatype MessageOp =
    | Incoming(groupId: string, batch: seq<Message>)
    | Page(ms: seq<Message>)
    | Blank(groupId: string, upTo: int)

  function Do(db: Db, op: MessageOp): Db {
    match op
    case Incoming(g, batch) => StoreBatch(db, g, batch)
    case Page(ms) => db.(messages := InsertAll(db.messages, ms))
    case Blank(g, upTo) => db.(messages := Redact(db.messages, g, upTo))
  }

  function DoAll(db: Db, ops: seq<MessageOp>): Db {
    if |ops| == 0 then db else Do(DoAll(db, ops[..|ops| - 1]), ops[|ops| - 1])
  }

  /**
   * Lasting redaction: once a message's text is blanked, no redelivery, page or further redaction
   * brings it back, and its row keeps its group and seq. No assumption on what is redelivered.
   */
  lemma {:induction false} BlankStaysBlank(db: Db, ops: seq<MessageOp>, id: string)
    requires id in db.messages && db.messages[id].body == ""
    ensures var after := DoAll(db, ops).messages; id in after && after[id] == db.messages[id]
  {
    if |ops| == 0 {
    } else {
      BlankStaysBlank(db, ops[..|ops| - 1], id);
      var mid := DoAll(db, ops[..|ops| - 1]);
      match ops[|ops| - 1]
      case Incoming(g, batch) => InsertAllKeeps(mid.messages, BatchPlan(mid, g, batch).toInsert);
      case Page(ms) => InsertAllKeeps(mid.messages, ms);
      case Blank(g, upTo) =>
    }
  }

  /** Redaction reaches exactly the stored messages of the group up to the seq, and lasts. */
  lemma RedactionLasts(db: Db, groupId: string, upTo: int, ops: seq<MessageOp>)
    ensures var mid := Redact(db.messages, groupId, upTo);
            var after := DoAll(db.(messages := mid), ops).messages;
            && (forall id | id in db.messages && db.messages[id].groupId == groupId && db.messages[id].seqNo <= upTo ::
                  id in after && after[id] == db.messages[id].(body := ""))
            && (forall id | id in db.messages
                && !(db.messages[id].groupId == groupId && db.messages[id].seqNo <= upTo) ::
                  id in mid && mid[id] == db.messages[id])
            && mid.Keys == db.messages.Keys
  {
    var db' := db.(messages := Redact(db.messages, groupId, upTo));
    forall id | id in db.messages && db.messages[id].groupId == groupId && db.messages[id].seqNo <= upTo
      ensures id in DoAll(db', ops).messages && DoAll(db', ops).messages[id] == db.messages[id].(body := "")
    {
      BlankStaysBlank(db', ops, id);
    }
  }
}
