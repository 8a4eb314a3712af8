/** The server's message log, and what storing batches taken from it does to the local tables. */
module ServerLog {
  import opened Entities
  import opened Reconciler
  import opened Tables

  /** Every message the server ever stored, by id. */
  type Log = map<string, Message>

  /** Ids are keys; (group, seq) and `clientMessageId` each determine the message. */
  ghost predicate LogOk(log: Log) {
    && (forall k | k in log :: log[k].id == k)
    && (forall a, b | a in log && b in log && log[a].groupId == log[b].groupId && log[a].seqNo == log[b].seqNo ::
        a == b)
    && (forall a, b | a in log && b in log && log[a].clientMessageId.Some?
                      && log[a].clientMessageId == log[b].clientMessageId :: a == b)
  }

  predicate InLog(log: Log, m: Message) {
    m.id in log && log[m.id] == m
  }

  ghost predicate BatchOf(log: Log, groupId: string, batch: seq<Message>) {
    forall m | m in batch :: InLog(log, m) && m.groupId == groupId
  }

  /** The same message, but its text may have been blanked. */
  predicate SameButBody(a: Message, b: Message) {
    a.(body := "") == b.(body := "")
  }

  ghost predicate StoredFrom(log: Log, messages: map<string, Message>) {
    forall k | k in messages :: k in log && SameButBody(log[k], messages[k])
  }

  function Ids(batch: seq<Message>): set<string> {
    set m | m in batch :: m.id
  }

  // ---- one batch -----------------------------------------------------------------

  lemma SameSeqSameMessage(log: Log, a: Message, b: Message)
    requires LogOk(log) && InLog(log, a) && InLog(log, b) && a.groupId == b.groupId && a.seqNo == b.seqNo
    ensures a == b
  {
  }

  lemma InsertOneFromLog(log: Log, messages: map<string, Message>, m: Message)
    requires LogOk(log) && StoredFrom(log, messages) && InLog(log, m)
    ensures var after := InsertOrIgnore(messages, m);
            StoredFrom(log, after) && m.id in after && (after == messages || after == messages[m.id := m])
  {
    forall k | k in messages && messages[k].groupId == m.groupId && messages[k].seqNo == m.seqNo ensures k == m.id {
      SameSeqSameMessage(log, log[k], m);
    }
  }

  lemma {:induction false} InsertAllFromLog(log: Log, messages: map<string, Message>, ms: seq<Message>)
    requires LogOk(log) && StoredFrom(log, messages) && forall m | m in ms :: InLog(log, m)
    ensures StoredFrom(log, InsertAll(messages, ms))
    ensures forall k | k in InsertAll(messages, ms) ::
              k in messages || (k in log && log[k] in ms && InsertAll(messages, ms)[k] == log[k])
    ensures forall m | m in ms :: m.id in InsertAll(messages, ms)
  {
    hide LogOk, StoredFrom, CanInsert, InsertOrIgnore;
    if |ms| == 0 {
    } else {
      var init, last := ms[..|ms| - 1], ms[|ms| - 1];
      assert ms == init + [last];
      InsertAllFromLog(log, messages, init);
      InsertOneFromLog(log, InsertAll(messages, init), last);
      InsertAllKeeps(messages, ms);
    }
  }

  /** A stored row that holds a log message's seq is that message. */
  lemma SeqTakenMeansStored(log: Log, messages: map<string, Message>, groupId: string, batch: seq<Message>, m: Message)
    requires LogOk(log) && StoredFrom(log, messages) && InLog(log, m) && m.groupId == groupId
    requires m.seqNo in ExistingSeqs(messages, groupId, batch)
    ensures m.id in messages
  {
    var k :| k in messages && messages[k].groupId == groupId && messages[k].seqNo == m.seqNo;
    SameSeqSameMessage(log, log[k], m);
  }

  /** Against a consistent log a message is dropped only when its own id is stored or kept already. */
  lemma {:induction false} KeptOrStored(log: Log, db: Db, groupId: string, batch: seq<Message>, i: nat)
    requires LogOk(log) && StoredFrom(log, db.messages) && BatchOf(log, groupId, batch)
    requires i < |batch|
    ensures batch[i].id in db.messages
            || exists j :: 0 <= j <= i && batch[j] == batch[i] && Kept(batch, BatchState(db, groupId, batch), j)
  {
    var st, m := BatchState(db, groupId, batch), batch[i];
    if m.id !in db.messages && !Kept(batch, st, i) {
      if m.seqNo in st.existingSeqs {
        SeqTakenMeansStored(log, db.messages, groupId, batch, m);
      }
      forall j | 0 <= j < i && batch[j].seqNo == m.seqNo ensures batch[j] == m {
        SameSeqSameMessage(log, batch[j], m);
      }
      var j :| 0 <= j < i && batch[j].id == m.id;
      assert InLog(log, batch[j]);
      KeptOrStored(log, db, groupId, batch, j);
    }
  }

  lemma KeptIsFresh(log: Log, db: Db, groupId: string, batch: seq<Message>, i: nat)
    requires StoredFrom(log, db.messages) && BatchOf(log, groupId, batch)
    requires i < |batch| && Kept(batch, BatchState(db, groupId, batch), i)
    ensures batch[i].id !in db.messages
  {
    var m := batch[i];
    assert InLog(log, m);
    assert m.id in db.messages ==> m.id in ExistingIds(db.messages, groupId, batch);
  }

  /** The survivors are exactly the batch messages not stored yet. */
  lemma SurvivorsAreTheUnstored(log: Log, db: Db, groupId: string, batch: seq<Message>)
    requires LogOk(log) && StoredFrom(log, db.messages) && BatchOf(log, groupId, batch)
    ensures forall m :: m in BatchPlan(db, groupId, batch).toInsert <==> m in batch && m.id !in db.messages
  {
    hide Kept, Plan, LogOk, StoredFrom, BatchOf, BatchState;
    if batch != [] {
      var st := BatchState(db, groupId, batch);
      var plan := Plan(batch, st);
      PlanMeaning(batch, st);
      forall m | m in plan.toInsert ensures m in batch && m.id !in db.messages {
        var i :| 0 <= i < |batch| && Kept(batch, st, i) && batch[i] == m;
        KeptIsFresh(log, db, groupId, batch, i);
      }
      forall m | m in batch && m.id !in db.messages ensures m in plan.toInsert {
        var i :| 0 <= i < |batch| && batch[i] == m;
        KeptOrStored(log, db, groupId, batch, i);
        var j :| 0 <= j <= i && batch[j] == batch[i] && Kept(batch, st, j);
      }
    }
  }

  /** After a batch its ids are stored, old rows are untouched, new rows are the log's own. */
  lemma StoreBatchMessages(log: Log, db: Db, groupId: string, batch: seq<Message>)
    requires LogOk(log) && StoredFrom(log, db.messages) && BatchOf(log, groupId, batch)
    ensures var after := StoreBatch(db, groupId, batch).messages;
            && StoredFrom(log, after)
            && (forall k :: k in after <==> k in db.messages || k in Ids(batch))
            && (forall k | k in db.messages :: after[k] == db.messages[k])
            && (forall k | k in after && k !in db.messages :: after[k] == log[k])
  {
    var ms := BatchPlan(db, groupId, batch).toInsert;
    SurvivorsAreTheUnstored(log, db, groupId, batch);
    assert forall m | m in ms :: InLog(log, m);
    hide BatchOf, Plan, BatchPlan, InsertAll, LogOk, StoredFrom, ConfirmAll;
    InsertAllFromLog(log, db.messages, ms);
    InsertAllKeeps(db.messages, ms);
  }

  lemma {:induction false} AllAreWritten(log: Log, messages: map<string, Message>, ms: seq<Message>)
    requires LogOk(log) && StoredFrom(log, messages) && Ascending(ms)
    requires forall m | m in ms :: InLog(log, m) && m.id !in messages
    ensures Written(messages, ms) == |ms|
  {
    if |ms| == 0 {
    } else {
      var init, last := ms[..|ms| - 1], ms[|ms| - 1];
      forall m | m in init ensures m in ms {}
      AllAreWritten(log, messages, init);
      InsertAllFromLog(log, messages, init);
      InsertAllKeeps(messages, init);
      LastIsAdmitted(log, messages, init, last);
    }
  }

  lemma LastIsAdmitted(log: Log, messages: map<string, Message>, ms: seq<Message>, last: Message)
    requires LogOk(log) && StoredFrom(log, InsertAll(messages, ms)) && InLog(log, last) && last.id !in messages
    requires forall m | m in ms :: InLog(log, m) && m.seqNo < last.seqNo
    ensures CanInsert(InsertAll(messages, ms), last)
  {
    var cur := InsertAll(messages, ms);
    InsertAllKeeps(messages, ms);
    hide InsertAll;
    forall k | k in cur ensures k != last.id && (cur[k].groupId != last.groupId || cur[k].seqNo != last.seqNo) {
      assert SameButBody(log[k], cur[k]);
    }
  }

  /** Of a batch from the log, INSERT OR IGNORE ignores no planned row: `inserted` is the plan's length. */
  lemma EveryPlannedRowIsWritten(log: Log, db: Db, groupId: string, batch: seq<Message>)
    requires LogOk(log) && StoredFrom(log, db.messages) && BatchOf(log, groupId, batch)
    ensures var ms := BatchPlan(db, groupId, batch).toInsert; Written(db.messages, ms) == |ms|
  {
    var ms := BatchPlan(db, groupId, batch).toInsert;
    SurvivorsAreTheUnstored(log, db, groupId, batch);
    PlanMeaning(batch, BatchState(db, groupId, batch));
    assert forall m | m in ms :: InLog(log, m) && m.id !in db.messages;
    hide LogOk, StoredFrom, Plan, BatchState;
    AllAreWritten(log, db.messages, ms);
  }

  // ---- echoes --------------------------------------------------------------------

  /** `m` is news to the store and answers row `c`, unconfirmed and of this group. */
  predicate Echoes(db: Db, groupId: string, batch: seq<Message>, m: Message, c: string) {
    && m in batch && m.id !in db.messages && m.clientMessageId == Some(c)
    && c in db.outbox && db.outbox[c].groupId == groupId && db.outbox[c].state != Confirmed
  }

  lemma {:induction false} ConfirmAllOthers(outbox: map<string, OutboxRow>, es: seq<EchoConfirmation>, c: string)
    requires c in outbox && forall e | e in es :: e.clientMessageId != c
    ensures c in ConfirmAll(outbox, es) && ConfirmAll(outbox, es)[c] == outbox[c]
  {
    if |es| == 0 {
    } else {
      assert es[|es| - 1] in es;
      ConfirmAllOthers(outbox, es[..|es| - 1], c);
    }
  }

  lemma {:induction false} ConfirmAllKeys(outbox: map<string, OutboxRow>, es: seq<EchoConfirmation>)
    ensures ConfirmAll(outbox, es).Keys == outbox.Keys
  {
    if |es| == 0 {
    } else {
      ConfirmAllKeys(outbox, es[..|es| - 1]);
    }
  }

  lemma {:induction false} ConfirmAllOne(outbox: map<string, OutboxRow>, es: seq<EchoConfirmation>, e: EchoConfirmation)
    requires e in es && e.clientMessageId in outbox
    requires forall x | x in es && x.clientMessageId == e.clientMessageId :: x == e
    ensures e.clientMessageId in ConfirmAll(outbox, es)
    ensures ConfirmAll(outbox, es)[e.clientMessageId] == ConfirmRow(outbox[e.clientMessageId], e.serverId, e.seqNo)
  {
    var init, last := es[..|es| - 1], es[|es| - 1];
    assert es == init + [last] && last in es;
    ConfirmAllKeys(outbox, init);
    hide ConfirmRow;
    if e in init {
      assert forall x | x in init :: x in es;
      ConfirmAllOne(outbox, init, e);
      assert last.clientMessageId == e.clientMessageId ==> last == e;
      ConfirmTwice(ConfirmAll(outbox, init), outbox, e);
    } else {
      assert last == e && forall x | x in init :: x in es && x != e;
      ConfirmAllOthers(outbox, init, e.clientMessageId);
    }
  }

  /** Confirming a confirmed row again with the same message changes nothing. */
  lemma ConfirmTwice(after: map<string, OutboxRow>, before: map<string, OutboxRow>, e: EchoConfirmation)
    requires e.clientMessageId in after && e.clientMessageId in before
    requires after[e.clientMessageId] == ConfirmRow(before[e.clientMessageId], e.serverId, e.seqNo)
    ensures ConfirmRow(after[e.clientMessageId], e.serverId, e.seqNo) == after[e.clientMessageId]
  {}

  lemma ConfirmAllRows(outbox: map<string, OutboxRow>, es: seq<EchoConfirmation>)
    requires forall a, b | a in es && b in es && a.clientMessageId == b.clientMessageId :: a == b
    ensures ConfirmAll(outbox, es).Keys == outbox.Keys
    ensures forall e | e in es && e.clientMessageId in outbox ::
              ConfirmAll(outbox, es)[e.clientMessageId] == ConfirmRow(outbox[e.clientMessageId], e.serverId, e.seqNo)
    ensures forall c | c in outbox && (forall e | e in es :: e.clientMessageId != c) ::
              ConfirmAll(outbox, es)[c] == outbox[c]
  {
    ConfirmAllKeys(outbox, es);
    hide ConfirmAll, ConfirmRow;
    forall e | e in es && e.clientMessageId in outbox
      ensures ConfirmAll(outbox, es)[e.clientMessageId] == ConfirmRow(outbox[e.clientMessageId], e.serverId, e.seqNo)
    {
      ConfirmAllOne(outbox, es, e);
    }
    forall c | c in outbox && (forall e | e in es :: e.clientMessageId != c)
      ensures ConfirmAll(outbox, es)[c] == outbox[c]
    {
      ConfirmAllOthers(outbox, es, c);
    }
  }

  /** The echo confirmations of a plan are one per echoed row. */
  lemma PlanEchoes(log: Log, db: Db, groupId: string, batch: seq<Message>)
    requires LogOk(log) && StoredFrom(log, db.messages) && BatchOf(log, groupId, batch)
    ensures var plan := BatchPlan(db, groupId, batch);
            && (forall m, c | Echoes(db, groupId, batch, m, c) ::
                EchoConfirmation(c, m.id, m.seqNo) in plan.echoConfirmations)
            && (forall e | e in plan.echoConfirmations ::
                  exists m :: Echoes(db, groupId, batch, m, e.clientMessageId) && e.serverId == m.id
                      && e.seqNo == m.seqNo)
            && (forall id | id in plan.newMessageIds ::
                  exists m :: m in batch && m.id == id && id !in db.messages
                      && !IsEcho(m, BatchState(db, groupId, batch)))
  {
    hide Kept, Plan, KeptPrefix, SortBySeq, LogOk, StoredFrom, BatchOf;
    if batch != [] {
      var st := BatchState(db, groupId, batch);
      var plan := Plan(batch, st);
      var kept := KeptPrefix(batch, st, |batch|);
      PlanMeaning(batch, st);
      SurvivorsAreTheUnstored(log, db, groupId, batch);
      assert forall m :: m in kept <==> m in multiset(plan.toInsert);
      forall m, c | Echoes(db, groupId, batch, m, c)
        ensures EchoConfirmation(c, m.id, m.seqNo) in plan.echoConfirmations
      {
        assert m in kept && IsEcho(m, st);
      }
      forall e | e in plan.echoConfirmations
        ensures exists m :: Echoes(db, groupId, batch, m, e.clientMessageId) && e.serverId == m.id && e.seqNo == m.seqNo
      {
        var m :| m in kept && IsEcho(m, st) && e == EchoConfirmation(m.clientMessageId.value, m.id, m.seqNo);
        assert Echoes(db, groupId, batch, m, e.clientMessageId);
      }
    }
  }

  lemma EchoIsUnique(log: Log, db: Db, groupId: string, batch: seq<Message>, c: string, m: Message, n: Message)
    requires LogOk(log) && BatchOf(log, groupId, batch)
    requires Echoes(db, groupId, batch, m, c) && Echoes(db, groupId, batch, n, c)
    ensures m == n
  {
    assert InLog(log, m) && InLog(log, n);
  }

  /** Exactly the echoed rows are confirmed, each with its own log entry. */
  lemma StoreBatchOutbox(log: Log, db: Db, groupId: string, batch: seq<Message>)
    requires LogOk(log) && StoredFrom(log, db.messages) && BatchOf(log, groupId, batch)
    ensures var after := StoreBatch(db, groupId, batch).outbox;
            && after.Keys == db.outbox.Keys
            && (forall m, c | Echoes(db, groupId, batch, m, c) :: after[c] == ConfirmRow(db.outbox[c], m.id, m.seqNo))
            && (forall c | c in db.outbox && (forall m | m in batch :: !Echoes(db, groupId, batch, m, c)) ::
                  after[c] == db.outbox[c])
  {
    var es := BatchPlan(db, groupId, batch).echoConfirmations;
    PlanEchoes(log, db, groupId, batch);
    hide Plan, BatchPlan, InsertAll, LogOk, StoredFrom, BatchOf, ConfirmAll;
    forall a, b | a in es && b in es && a.clientMessageId == b.clientMessageId ensures a == b {
      var m :| Echoes(db, groupId, batch, m, a.clientMessageId) && a.serverId == m.id && a.seqNo == m.seqNo;
      var n :| Echoes(db, groupId, batch, n, b.clientMessageId) && b.serverId == n.id && b.seqNo == n.seqNo;
      EchoIsUnique(log, db, groupId, batch, a.clientMessageId, m, n);
    }
    ConfirmAllRows(db.outbox, es);
    forall m, c | Echoes(db, groupId, batch, m, c)
      ensures ConfirmAll(db.outbox, es)[c] == ConfirmRow(db.outbox[c], m.id, m.seqNo)
    {
      assert EchoConfirmation(c, m.id, m.seqNo) in es;
    }
  }

  /** What is reported new was not stored and answers no unconfirmed row of the group. */
  lemma ReportedIsNews(log: Log, db: Db, groupId: string, batch: seq<Message>, id: string)
    requires LogOk(log) && StoredFrom(log, db.messages) && BatchOf(log, groupId, batch)
    requires id in BatchPlan(db, groupId, batch).newMessageIds
    ensures id in Ids(batch) && id in log && id !in db.messages
    ensures log[id].groupId == groupId
    ensures log[id].clientMessageId.Some? ==> log[id].clientMessageId.value !in Unconfirmed(db.outbox, groupId)
  {
    PlanEchoes(log, db, groupId, batch);
    var m :| m in batch && m.id == id && id !in db.messages && !IsEcho(m, BatchState(db, groupId, batch));
    assert InLog(log, m);
  }

  /** `m` is news to the store and answers no unconfirmed row of this group. */
  predicate IsNews(db: Db, groupId: string, batch: seq<Message>, m: Message) {
    m in batch && m.id !in db.messages && forall c | c in db.outbox :: !Echoes(db, groupId, batch, m, c)
  }

  /**
   * `ids` are exactly the ids of the batch's news, each once, in the order in which they first arrive: at
   * the rising positions `at`.
   */
  ghost predicate ReportsNews(db: Db, groupId: string, batch: seq<Message>, ids: seq<string>, at: seq<int>) {
    && (forall id :: id in ids <==> exists m: Message :: m.id == id && IsNews(db, groupId, batch, m))
    && Rising(at, |batch|) && IdsRead(batch, ids, at)
    && (forall t, j | 0 <= t < |ids| && 0 <= j < at[t] :: batch[j].id != ids[t])
  }

  lemma NewAreNews(log: Log, db: Db, groupId: string, batch: seq<Message>, id: string)
    requires LogOk(log) && StoredFrom(log, db.messages) && BatchOf(log, groupId, batch)
    ensures id in BatchPlan(db, groupId, batch).newMessageIds
            <==> exists m: Message :: m.id == id && IsNews(db, groupId, batch, m)
  {
    hide Kept, Plan, KeptPrefix, SortBySeq, LogOk, StoredFrom, BatchOf, IsNews;
    if batch != [] {
      var st := BatchState(db, groupId, batch);
      var kept := KeptPrefix(batch, st, |batch|);
      PlanMeaning(batch, st);
      SurvivorsAreTheUnstored(log, db, groupId, batch);
      assert forall m :: m in kept <==> m in multiset(Plan(batch, st).toInsert);
      forall m ensures m in kept && !IsEcho(m, st) <==> IsNews(db, groupId, batch, m) {
        NewsAreNoEchoes(db, groupId, batch, m);
      }
    } else if m: Message :| m.id == id && IsNews(db, groupId, batch, m) {
      NewsAreNoEchoes(db, groupId, batch, m);
      assert false;
    }
  }

  lemma NewsAreNoEchoes(db: Db, groupId: string, batch: seq<Message>, m: Message)
    ensures IsNews(db, groupId, batch, m)
            <==> m in batch && m.id !in db.messages && !IsEcho(m, BatchState(db, groupId, batch))
  {
    if m in batch && m.id !in db.messages && IsEcho(m, BatchState(db, groupId, batch)) {
      assert Echoes(db, groupId, batch, m, m.clientMessageId.value);
    }
  }

  /** What is reported new, exactly, and in which order. */
  lemma ReportedExactlyTheNews(log: Log, db: Db, groupId: string, batch: seq<Message>) returns (at: seq<int>)
    requires LogOk(log) && StoredFrom(log, db.messages) && BatchOf(log, groupId, batch)
    ensures ReportsNews(db, groupId, batch, BatchPlan(db, groupId, batch).newMessageIds, at)
  {
    var ids := BatchPlan(db, groupId, batch).newMessageIds;
    forall id ensures id in ids <==> exists m: Message :: m.id == id && IsNews(db, groupId, batch, m) {
      NewAreNews(log, db, groupId, batch, id);
    }
    hide LogOk, StoredFrom, BatchOf, IsNews;
    if batch == [] {
      at := [];
    } else {
      at := FirstArrivals(batch, BatchState(db, groupId, batch));
    }
  }

  /** New ids are read off where each first arrives. */
  lemma FirstArrivals(batch: seq<Message>, st: ReconcileState) returns (at: seq<int>)
    ensures Rising(at, |batch|) && IdsRead(batch, Plan(batch, st).newMessageIds, at)
    ensures var ids := Plan(batch, st).newMessageIds;
            forall t, j | 0 <= t < |ids| && 0 <= j < at[t] :: batch[j].id != ids[t]
  {
    var echoAt;
    echoAt, at := PlanKeepsArrivalOrder(batch, st);
    hide Plan;
    var ids := Plan(batch, st).newMessageIds;
    forall t, j | 0 <= t < |ids| && 0 <= j < at[t] ensures batch[j].id != ids[t] {
      assert at[t] in at && Kept(batch, st, at[t]);
    }
  }
}
