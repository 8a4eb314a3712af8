/** Applying incoming batches: know the group, store, and only then acknowledge. */
module Sync {
  import opened Entities
  import opened Reconciler
  import opened Tables
  import opened ServerLog
  import opened SqliteStores

  /** Answer of `GET /v1/groups/{id}`, asked only for a group without a local row. */
  datatype Fetch = Found | NotFound | FetchFailed

  /** What applying a batch leaves behind: the tables, the seq to acknowledge, the ids reported new. */
  datatype Applied = Applied(db: Db, ack: Option<int>, newIds: seq<string>)

  /** The seq acknowledged for a batch: its maximum, unless that is not positive. */
  function AckSeq(batch: seq<Message>): Option<int> {
    var last := MaxSeq(batch);
    if last.Some? && last.value > 0 then last else None
  }

  function ApplyIncoming(db: Db, groupId: string, batch: seq<Message>, fetch: Fetch): Applied {
    if groupId !in db.groups && fetch == NotFound then
      Applied(db, AckSeq(batch), [])
    else
      var known := if groupId !in db.groups && fetch == Found then db.(groups := db.groups[groupId := false]) else db;
      Applied(StoreBatch(known, groupId, batch), AckSeq(batch), BatchPlan(known, groupId, batch).newMessageIds)
  }

  ghost predicate AllStored(db: Db, batch: seq<Message>) {
    forall m | m in batch :: m.id in db.messages
  }

  /** The largest seq of the batch is acknowledged, unless it is not positive. */
  ghost predicate AcknowledgesLast(batch: seq<Message>, ack: Option<int>) {
    && (ack.Some? <==> exists m :: m in batch && m.seqNo > 0)
    && (ack.Some? ==> (exists m :: m in batch && m.seqNo == ack.value) && forall m | m in batch :: m.seqNo <= ack.value)
  }

  lemma AckIsLast(batch: seq<Message>)
    ensures AcknowledgesLast(batch, AckSeq(batch))
  {
    MaxSeqIsMaximum(batch);
    hide MaxSeq;
    forall m | m in batch ensures MaxSeq(batch).Some? && m.seqNo <= MaxSeq(batch).value {
      var i :| 0 <= i < |batch| && batch[i] == m;
    }
  }

  /** The group's local row: found at the server, it is there and not flagged deleted; else as before. */
  ghost predicate GroupsAfter(before: map<string, bool>, after: map<string, bool>, groupId: string, fetch: Fetch) {
    && (groupId !in before && fetch == Found ==>
          && groupId in after && !after[groupId] && after.Keys == before.Keys + {groupId}
          && forall k | k in before :: after[k] == before[k])
    && (groupId in before || fetch != Found ==> after == before)
  }

  /**
   * What applying a batch has done. Unless the group is unknown here and at the server, which changes
   * nothing: the batch is stored and old rows are untouched, each row of the group that it answers is
   * confirmed with the answering message, and the news are reported, each once, in order of arrival.
   */
  ghost predicate AppliedAs(db: Db, groupId: string, batch: seq<Message>, fetch: Fetch, r: Applied) {
    && AcknowledgesLast(batch, r.ack)
    && (groupId !in db.groups && fetch == NotFound ==> r.db == db && r.newIds == [])
    && (groupId in db.groups || fetch != NotFound ==>
          && GroupsAfter(db.groups, r.db.groups, groupId, fetch)
          && StoredAfter(db.messages, r.db.messages, batch)
          && AnsweredAfter(db, groupId, batch, r.db.outbox)
          && exists at :: ReportsNews(db, groupId, batch, r.newIds, at))
  }

  ghost predicate StoredAfter(before: map<string, Message>, after: map<string, Message>, batch: seq<Message>) {
    && (forall k :: k in after <==> k in before || exists m :: m in batch && m.id == k)
    && (forall k | k in before :: after[k] == before[k])
    && (forall m | m in batch && m.id !in before :: after[m.id] == m)
  }

  ghost predicate AnsweredAfter(db: Db, groupId: string, batch: seq<Message>, after: map<string, OutboxRow>) {
    && after.Keys == db.outbox.Keys
    && (forall m, c | Echoes(db, groupId, batch, m, c) :: after[c] == ConfirmRow(db.outbox[c], m.id, m.seqNo))
    && (forall c | c in db.outbox && (forall m | m in batch :: !Echoes(db, groupId, batch, m, c)) ::
          after[c] == db.outbox[c])
  }

  /** The batch comes from a server log that the tables were filled from. */
  ghost predicate FromLog(log: Log, db: Db, groupId: string, batch: seq<Message>) {
    LogOk(log) && StoredFrom(log, db.messages) && BatchOf(log, groupId, batch)
  }

  lemma BatchIds(batch: seq<Message>)
    ensures forall k :: k in Ids(batch) <==> exists m :: m in batch && m.id == k
  {
  }

  lemma BatchIsStored(log: Log, db: Db, groupId: string, batch: seq<Message>)
    requires FromLog(log, db, groupId, batch)
    ensures StoredAfter(db.messages, StoreBatch(db, groupId, batch).messages, batch)
  {
    forall m | m in batch ensures m.id in Ids(batch) && m.id in log && log[m.id] == m {
      assert InLog(log, m);
    }
    hide LogOk, StoredFrom, BatchOf, StoreBatch;
    StoreBatchMessages(log, db, groupId, batch);
    BatchIds(batch);
    hide Ids;
  }

  lemma BatchIsAnswered(log: Log, db: Db, groupId: string, batch: seq<Message>)
    requires FromLog(log, db, groupId, batch)
    ensures AnsweredAfter(db, groupId, batch, StoreBatch(db, groupId, batch).outbox)
  {
    StoreBatchOutbox(log, db, groupId, batch);
    hide LogOk, StoredFrom, BatchOf, StoreBatch, Echoes, ConfirmRow;
  }

  lemma BatchIsReported(log: Log, db: Db, groupId: string, batch: seq<Message>)
    requires FromLog(log, db, groupId, batch)
    ensures exists at :: ReportsNews(db, groupId, batch, BatchPlan(db, groupId, batch).newMessageIds, at)
  {
    var at := ReportedExactlyTheNews(log, db, groupId, batch);
    hide LogOk, StoredFrom, BatchOf, BatchPlan, ReportsNews;
  }

  /** The batch's messages, rows and news do not depend on which groups are known. */
  lemma GroupsDoNotMatter(db: Db, groups: map<string, bool>, groupId: string, batch: seq<Message>)
    ensures var known := db.(groups := groups);
            && StoreBatch(known, groupId, batch) == StoreBatch(db, groupId, batch).(groups := groups)
            && BatchPlan(known, groupId, batch) == BatchPlan(db, groupId, batch)
  {
    hide Plan, ConfirmAll, InsertAll;
    assert BatchState(db.(groups := groups), groupId, batch) == BatchState(db, groupId, batch);
  }

  lemma ApplyUnfolds(db: Db, groupId: string, batch: seq<Message>, fetch: Fetch)
    ensures var r, stored := ApplyIncoming(db, groupId, batch, fetch), StoreBatch(db, groupId, batch);
            && r.ack == AckSeq(batch)
            && (groupId !in db.groups && fetch == NotFound ==> r.db == db && r.newIds == [])
            && (groupId in db.groups || fetch != NotFound ==>
                  && r.db.messages == stored.messages && r.db.outbox == stored.outbox
                  && GroupsAfter(db.groups, r.db.groups, groupId, fetch)
                  && r.newIds == BatchPlan(db, groupId, batch).newMessageIds)
  {
    GroupsDoNotMatter(db, db.groups, groupId, batch);
    GroupsDoNotMatter(db, db.groups[groupId := false], groupId, batch);
    assert StoreBatch(db, groupId, batch).groups == db.groups;
    hide StoreBatch, BatchPlan, AckSeq;
  }

  /** What applying a batch from the log means, for every state of the tables and every answer. */
  lemma ApplyMeans(log: Log, db: Db, groupId: string, batch: seq<Message>, fetch: Fetch)
    requires FromLog(log, db, groupId, batch)
    ensures AppliedAs(db, groupId, batch, fetch, ApplyIncoming(db, groupId, batch, fetch))
  {
    hide AcknowledgesLast, AckSeq, FromLog, StoredAfter, AnsweredAfter, GroupsAfter, ReportsNews, StoreBatch, BatchPlan,
         ApplyIncoming;
    AckIsLast(batch);
    BatchIsStored(log, db, groupId, batch);
    BatchIsAnswered(log, db, groupId, batch);
    BatchIsReported(log, db, groupId, batch);
    ApplyUnfolds(db, groupId, batch, fetch);
  }

  /**
   * When exactly an acknowledged batch is stored: always, except that a 404 on a group without a local
   * row acknowledges without storing, so then only what was stored already is.
   */
  lemma StoredIffNotGone(log: Log, db: Db, groupId: string, batch: seq<Message>, fetch: Fetch)
    requires LogOk(log) && StoredFrom(log, db.messages) && BatchOf(log, groupId, batch)
    ensures AllStored(ApplyIncoming(db, groupId, batch, fetch).db, batch)
            <==> groupId in db.groups || fetch != NotFound || AllStored(db, batch)
  {
    if groupId in db.groups || fetch != NotFound {
      var known := if groupId !in db.groups && fetch == Found then db.(groups := db.groups[groupId := false]) else db;
      StoreBatchMessages(log, known, groupId, batch);
      forall m | m in batch ensures m.id in ApplyIncoming(db, groupId, batch, fetch).db.messages {
        assert m.id in Ids(batch);
      }
    }
  }

  /** The 404 branch on a concrete message: acknowledged, never stored. */
  lemma GoneGroupIsAckedUnstored()
    ensures var m := Message("m1", "gone", 7, "u", "hi", None, 0);
            var r := ApplyIncoming(Db(map[], map[], map[]), "gone", [m], NotFound);
            r.ack == Some(7) && "m1" !in r.db.messages
  {
    var m := Message("m1", "gone", 7, "u", "hi", None, 0);
    assert [m][..0] == [];
    assert MaxSeq([m]) == Some(7);
  }

  class SyncEngine {
    const store: SqliteStore

    constructor (store: SqliteStore)
      ensures this.store == store
    {
      this.store := store;
    }

    /** `apply_incoming`; `fetch` is the server's answer should the group be unknown here. */
    method ApplyBatch(groupId: string, batch: seq<Message>, fetch: Fetch) returns (ack: Option<int>,
        newIds: seq<string>)
      modifies store
      ensures var r := ApplyIncoming(old(store.Db()), groupId, batch, fetch);
              store.Db() == r.db && ack == r.ack && newIds == r.newIds
      ensures (exists log :: FromLog(log, old(store.Db()), groupId, batch)) ==>
                AppliedAs(old(store.Db()), groupId, batch, fetch, Applied(store.Db(), ack, newIds))
    {
      ghost var before := store.Db();
      if log :| FromLog(log, before, groupId, batch) {
        ApplyMeans(log, before, groupId, batch, fetch);
      }
      hide AppliedAs, FromLog;
      ack := AckSeq(batch);
      if groupId !in store.groups {
        match fetch
        case Found => store.UpsertGroup(groupId);
        case NotFound =>
          store.MarkGroupDeleted(groupId);
          return ack, [];
        case FetchFailed =>
      }
      var outcome := store.StoreIncomingBatch(groupId, batch);
      newIds := outcome.plan.newMessageIds;
    }
  }
}
