/** Exactly-once posting, and never reporting an own message as new, in every run of the system. */
module OutboxSafety {
  import opened Entities
  import opened Tables
  import opened OutboxRules
  import opened ServerLog
  import opened OutboxDispatchers
  import opened Sync
  import opened System

  ghost predicate HasEntry(log: Log, c: string) {
    exists k :: k in log && log[k].clientMessageId == Some(c)
  }

  /** A confirmed row names the log entry of its own message. */
  predicate ConfirmedBy(log: Log, row: OutboxRow) {
    && row.confirmedMessageId.Some? && row.confirmedSeq.Some? && row.confirmedMessageId.value in log
    && log[row.confirmedMessageId.value].clientMessageId == Some(row.clientMessageId)
    && log[row.confirmedMessageId.value].seqNo == row.confirmedSeq.value
  }

  predicate RowInv(log: Log, past: Past, c: string, row: OutboxRow) {
    && row.clientMessageId == c && c in past.enqueued && past.enqueued[c].clientMessageId == c
    && RowOk(row) && row.groupId == past.enqueued[c].groupId
    && (row.state != Confirmed ==> row.body == past.enqueued[c].body)
    && (row.state == Confirmed ==> ConfirmedBy(log, row))
  }

  /** An own message on the server: it went where it was enqueued for, and is stored here or still open. */
  ghost predicate EntryInv(w: World, messages: map<string, Message>, outbox: map<string, OutboxRow>, past: Past,
      m: Message) {
    m.clientMessageId.Some? && m.clientMessageId.value in past.enqueued ==>
      var e := past.enqueued[m.clientMessageId.value];
      m.groupId == e.groupId && e.body !in w.commands && (m.id in messages || Open(outbox, m.clientMessageId.value))
  }

  ghost predicate RowsInv(log: Log, outbox: map<string, OutboxRow>, past: Past) {
    forall c | c in outbox :: RowInv(log, past, c, outbox[c])
  }

  ghost predicate EntriesInv(w: World, log: Log, messages: map<string, Message>, outbox: map<string, OutboxRow>,
      past: Past) {
    forall k | k in log :: EntryInv(w, messages, outbox, past, log[k])
  }

  /** Nothing enqueued is lost: still open, or on the server, or a command. */
  ghost predicate NoneLost(w: World, log: Log, outbox: map<string, OutboxRow>, past: Past) {
    forall c | c in past.enqueued :: past.enqueued[c].body in w.commands || Open(outbox, c) || HasEntry(log, c)
  }

  ghost predicate PostsInv(past: Past) {
    forall p | p in past.posts :: p.clientMessageId in past.enqueued && past.enqueued[p.clientMessageId] == p
  }

  predicate NotOurs(log: Log, past: Past, id: string) {
    id in log && (log[id].clientMessageId.Some? ==> log[id].clientMessageId.value !in past.enqueued)
  }

  ghost predicate ReportedInv(log: Log, past: Past) {
    forall id | id in past.reported :: NotOurs(log, past, id)
  }

  ghost predicate TablesInv(w: World, log: Log, messages: map<string, Message>, outbox: map<string, OutboxRow>,
      past: Past) {
    && RowsInv(log, outbox, past) && EntriesInv(w, log, messages, outbox, past)
    && NoneLost(w, log, outbox, past) && PostsInv(past) && ReportedInv(log, past)
  }

  /** The row the dispatcher holds is the message as enqueued. */
  predicate HeldInv(past: Past, row: OutboxRow) {
    row.clientMessageId in past.enqueued
    && past.enqueued[row.clientMessageId] == Post(row.clientMessageId, row.groupId, row.body)
  }

  ghost predicate PhaseInv(log: Log, messages: map<string, Message>, outbox: map<string, OutboxRow>, past: Past,
      phase: Phase) {
    && (!phase.Resting? ==> HeldInv(past, phase.row))
    && (phase.Picked? && phase.row.clientMessageId in outbox ==> !ListedFailed(outbox[phase.row.clientMessageId]))
    && (phase.Storing? ==> InLog(log, phase.message) && phase.message.id in messages
                           && phase.message.clientMessageId == Some(phase.row.clientMessageId))
  }

  ghost predicate OutboxInv(w: World, s: Sys) {
    && TablesInv(w, s.server.log, s.db.messages, s.db.outbox, s.past)
    && PhaseInv(s.server.log, s.db.messages, s.db.outbox, s.past, s.phase)
  }

  // ---- rows that change ----------------------------------------------------------------

  /** A row may close only once its message is on the server and stored here, or was a command. */
  ghost predicate MayClose(w: World, log: Log, messages: map<string, Message>, past: Past, c: string) {
    && ((c in past.enqueued && past.enqueued[c].body in w.commands) || HasEntry(log, c))
    && (forall k | k in log && log[k].clientMessageId == Some(c) :: k in messages)
  }

  /** Rows change within their invariant and close only when they may; stored messages only grow. */
  lemma RowsMove(w: World, log: Log, messages: map<string, Message>, messages': map<string, Message>,
                 outbox: map<string, OutboxRow>, outbox': map<string, OutboxRow>, past: Past)
    requires LogOk(log) && TablesInv(w, log, messages, outbox, past)
    requires messages.Keys <= messages'.Keys
    requires RowsInv(log, outbox', past)
    requires forall c | Open(outbox, c) :: Open(outbox', c) || MayClose(w, log, messages', past, c)
    ensures TablesInv(w, log, messages', outbox', past)
  {
    forall k | k in log ensures EntryInv(w, messages', outbox', past, log[k]) {
      assert EntryInv(w, messages, outbox, past, log[k]);
      assert log[k].id == k;
    }
  }

  /** What retry, redaction and purging do to one row. */
  lemma LocalRow(log: Log, past: Past, outbox: map<string, OutboxRow>, c: string, now: int)
    requires c in outbox && RowInv(log, past, c, outbox[c])
    ensures RowInv(log, past, c, outbox[c].(state := Pending, errorCode := None, nextAttemptAt := Some(now)))
            || outbox[c].state == Confirmed
    ensures outbox[c].state == Confirmed ==> RowInv(log, past, c, outbox[c].(body := ""))
    ensures outbox[c].state == Confirmed ==> HasEntry(log, c)
  {
  }

  lemma OutboxOpKeeps(w: World, s: Sys, a: Action)
    requires LogOk(s.server.log) && OutboxInv(w, s) && (a.UserRetry? || a.BlankConfirmed? || a.PurgeOld?)
    ensures OutboxInv(w, DoLocal(s, a))
  {
    var outbox' := DoLocal(s, a).db.outbox;
    forall c | c in outbox' ensures c in s.db.outbox && RowInv(s.server.log, s.past, c, outbox'[c]) {
      LocalRow(s.server.log, s.past, s.db.outbox, c, if a.UserRetry? then a.now else 0);
    }
    hide LogOk, EntriesInv, NoneLost, PostsInv, ReportedInv, HeldInv, MayClose, ConfirmedBy, RowInv;
    RowsMove(w, s.server.log, s.db.messages, s.db.messages, s.db.outbox, outbox', s.past);
  }

  lemma LocalKeepsOutbox(w: World, s: Sys, a: Action)
    requires LogOk(s.server.log) && OutboxInv(w, s) && IsLocal(a)
    ensures OutboxInv(w, DoLocal(s, a))
  {
    if a.Enqueue? {
      EnqueueKeepsOutbox(w, s, a.c, a.groupId, a.body, a.now);
    } else if a.UserRetry? || a.BlankConfirmed? || a.PurgeOld? {
      OutboxOpKeeps(w, s, a);
    } else {
      var t := DoLocal(s, a);
      assert t.db.messages.Keys == s.db.messages.Keys && t.db.outbox == s.db.outbox && t.past == s.past
          && t.phase == s.phase;
      hide LogOk, EntriesInv, NoneLost, PostsInv, ReportedInv, HeldInv, MayClose, RowsInv;
      RowsMove(w, s.server.log, s.db.messages, t.db.messages, s.db.outbox, t.db.outbox, s.past);
    }
  }

  lemma EnqueueKeepsOutbox(w: World, s: Sys, c: string, g: string, body: string, now: int)
    requires LogOk(s.server.log) && OutboxInv(w, s)
    ensures OutboxInv(w, DoLocal(s, Enqueue(c, g, body, now)))
  {
    if UnusedId(s, c) {
      var t := DoLocal(s, Enqueue(c, g, body, now));
      assert RowsInv(s.server.log, t.db.outbox, t.past);
      forall k | k in s.server.log ensures EntryInv(w, t.db.messages, t.db.outbox, t.past, s.server.log[k]) {
        assert EntryInv(w, s.db.messages, s.db.outbox, s.past, s.server.log[k]);
      }
      assert forall id | id in s.past.reported :: NotOurs(s.server.log, s.past, id);
    }
  }

  // ---- the dispatcher ----------------------------------------------------------------------

  lemma PickKeeps(w: World, s: Sys, c: string, now: int)
    requires OutboxInv(w, s)
    ensures OutboxInv(w, DoDispatch(w, s, Pick(c, now)))
  {
    if c in s.db.outbox {
      assert RowInv(s.server.log, s.past, c, s.db.outbox[c]);
    }
  }

  lemma MarkKeeps(w: World, s: Sys, now: int)
    requires LogOk(s.server.log) && OutboxInv(w, s)
    ensures OutboxInv(w, DoDispatch(w, s, Mark(now)))
  {
    if s.phase.Picked? {
      var c := s.phase.row.clientMessageId;
      var outbox' := MarkInFlight(s.db.outbox, c, now);
      assert c in s.db.outbox ==> RowInv(s.server.log, s.past, c, s.db.outbox[c]);
      RowsMove(w, s.server.log, s.db.messages, s.db.messages, s.db.outbox, outbox', s.past);
    }
  }

  lemma SendKeeps(w: World, s: Sys)
    requires OutboxInv(w, s)
    ensures OutboxInv(w, DoDispatch(w, s, Send))
  {
    if s.phase.Marked? {
      var t := DoDispatch(w, s, Send);
      assert forall id | id in s.past.reported :: NotOurs(s.server.log, s.past, id);
      forall k | k in s.server.log ensures EntryInv(w, t.db.messages, t.db.outbox, t.past, s.server.log[k]) {
        assert EntryInv(w, s.db.messages, s.db.outbox, s.past, s.server.log[k]);
      }
      forall c | c in t.db.outbox ensures RowInv(s.server.log, t.past, c, t.db.outbox[c]) {
        assert RowInv(s.server.log, s.past, c, s.db.outbox[c]);
      }
    }
  }

  /** A failed attempt leaves every row as enqueued and open if it was. */
  lemma FailureKeepsRows(log: Log, past: Past, db: Db, row: OutboxRow, outcome: SendOutcome, now: int, delay: int)
    requires RowsInv(log, db.outbox, past) && !outcome.Stored? && !outcome.Command?
    ensures var after := Settle(db, row, outcome, now, delay);
            && after.messages == db.messages && RowsInv(log, after.outbox, past)
            && forall c | Open(db.outbox, c) :: Open(after.outbox, c)
  {
    hide ConfirmedBy;
    var c := row.clientMessageId;
    assert c in db.outbox ==> RowInv(log, past, c, db.outbox[c]);
    var after := Settle(db, row, outcome, now, delay);
    forall k | k in after.outbox ensures RowInv(log, past, k, after.outbox[k]) {
      assert k in db.outbox && RowInv(log, past, k, db.outbox[k]);
    }
  }

  /** Failed attempts reopen or fail the row; they never close it. */
  lemma FailureKeeps(w: World, s: Sys, outcome: SendOutcome, now: int, delay: int)
    requires LogOk(s.server.log) && OutboxInv(w, s) && !outcome.Stored? && !outcome.Command?
    ensures OutboxInv(w, DoReply(w, s, outcome, now, delay))
  {
    if s.phase.Posted? && HonestReply(w, s, s.phase.row, outcome) {
      FailureKeepsRows(s.server.log, s.past, s.db, s.phase.row, outcome, now, delay);
      var t := DoReply(w, s, outcome, now, delay);
      assert t == s.(db := Settle(s.db, s.phase.row, outcome, now, delay), phase := Resting);
      hide HasEntry, EntriesInv, NoneLost, PostsInv, ReportedInv, RowsInv, MayClose, LogOk, Settle, DoReply,
          HonestReply;
      RowsMove(w, s.server.log, s.db.messages, t.db.messages, s.db.outbox, t.db.outbox, s.past);
    }
  }

  /** A command left nothing on the server, so its row may go. */
  lemma CommandKeeps(w: World, s: Sys, now: int, delay: int)
    requires LogOk(s.server.log) && OutboxInv(w, s)
    ensures OutboxInv(w, DoReply(w, s, Command, now, delay))
  {
    if s.phase.Posted? && HonestReply(w, s, s.phase.row, Command) {
      var c := s.phase.row.clientMessageId;
      forall k | k in s.server.log ensures s.server.log[k].clientMessageId != Some(c) {
        assert EntryInv(w, s.db.messages, s.db.outbox, s.past, s.server.log[k]);
      }
      assert MayClose(w, s.server.log, s.db.messages, s.past, c);
      RowsMove(w, s.server.log, s.db.messages, s.db.messages, s.db.outbox, s.db.outbox - {c}, s.past);
    }
  }

  lemma ConfirmKeeps(w: World, s: Sys)
    requires LogOk(s.server.log) && OutboxInv(w, s)
    ensures OutboxInv(w, DoDispatch(w, s, ConfirmReply))
  {
    if s.phase.Storing? {
      var c, m := s.phase.row.clientMessageId, s.phase.message;
      var outbox' := ConfirmSent(s.db.outbox, c, m.id, m.seqNo);
      assert c in s.db.outbox ==> RowInv(s.server.log, s.past, c, s.db.outbox[c]);
      assert MayClose(w, s.server.log, s.db.messages, s.past, c) by {
        assert s.server.log[m.id].clientMessageId == Some(c);
      }
      RowsMove(w, s.server.log, s.db.messages, s.db.messages, s.db.outbox, outbox', s.past);
    }
  }

  lemma RestartKeeps(w: World, s: Sys, now: int)
    requires LogOk(s.server.log) && OutboxInv(w, s)
    ensures OutboxInv(w, DoDispatch(w, s, Restart(now)))
  {
    var outbox' := Repair(s.db.outbox, now);
    forall c | c in outbox' ensures RowInv(s.server.log, s.past, c, outbox'[c]) {
      assert RowInv(s.server.log, s.past, c, s.db.outbox[c]);
    }
    RowsMove(w, s.server.log, s.db.messages, s.db.messages, s.db.outbox, outbox', s.past);
  }

  // ---- the server --------------------------------------------------------------------------

  /** The rows, entries and reports read the log only where it already was. */
  lemma AppendKeepsTables(w: World, s: Sys, m: Message)
    requires OutboxInv(w, s) && CanAppend(s, m)
    requires EntryInv(w, s.db.messages, s.db.outbox, s.past, m)
    ensures OutboxInv(w, s.(server := Append(s.server, m)))
  {
    var log, log' := s.server.log, s.server.log[m.id := m];
    forall c | c in s.db.outbox ensures RowInv(log', s.past, c, s.db.outbox[c]) {
      assert RowInv(log, s.past, c, s.db.outbox[c]);
    }
    forall k | k in log' ensures EntryInv(w, s.db.messages, s.db.outbox, s.past, log'[k]) {
      assert k in log ==> EntryInv(w, s.db.messages, s.db.outbox, s.past, log[k]);
    }
    forall c | HasEntry(log, c) ensures HasEntry(log', c) {
      var k :| k in log && log[k].clientMessageId == Some(c);
      assert log'[k] == log[k];
    }
    forall id | id in s.past.reported ensures NotOurs(log', s.past, id) {
      assert NotOurs(log, s.past, id);
    }
  }

  lemma ServerKeepsOutbox(w: World, s: Sys, a: Action)
    requires OutboxInv(w, s)
    ensures OutboxInv(w, DoServer(w, s, a))
  {
    if a.StorePost? {
      var p := a.post;
      var m := Message(a.id, p.groupId, a.seqNo, a.senderId, a.shown, Some(p.clientMessageId), a.at);
      if p in s.past.posts && p.body !in w.commands && CanAppend(s, m) {
        assert Open(s.db.outbox, p.clientMessageId);
        AppendKeepsTables(w, s, m);
      }
    } else if a.OtherMessage? {
      if CanAppend(s, a.m) && (a.m.clientMessageId.Some? ==> a.m.clientMessageId.value !in s.past.enqueued) {
        AppendKeepsTables(w, s, a.m);
      }
    } else {
      hide TablesInv, PhaseInv, CanAppend, NextBatch;
      var t := DoServer(w, s, a);
      assert t.server.log == s.server.log && t.db == s.db && t.past == s.past && t.phase == s.phase;
    }
  }

  // ---- incoming batches ----------------------------------------------------------------------

  ghost predicate SameTables(db: Db, known: Db) {
    known.messages == db.messages && known.outbox == db.outbox
  }

  /** An echoed row is confirmed by the log entry of its own message. */
  lemma EchoedRow(w: World, log: Log, db: Db, g: string, batch: seq<Message>, past: Past, m: Message, c: string)
    requires LogOk(log) && BatchOf(log, g, batch) && Echoes(db, g, batch, m, c)
    requires RowInv(log, past, c, db.outbox[c])
    ensures RowInv(log, past, c, ConfirmRow(db.outbox[c], m.id, m.seqNo))
    ensures forall messages | m.id in messages :: MayClose(w, log, messages, past, c)
  {
    assert InLog(log, m);
    assert log[m.id].clientMessageId == Some(c);
  }

  /** A batch confirms exactly the rows it echoes. */
  lemma BatchKeepsRows(w: World, log: Log, db: Db, g: string, batch: seq<Message>, past: Past)
    requires LogOk(log) && StoredFrom(log, db.messages) && BatchOf(log, g, batch)
    requires TablesInv(w, log, db.messages, db.outbox, past)
    ensures var after := StoreBatch(db, g, batch);
            && TablesInv(w, log, after.messages, after.outbox, past)
            && after.outbox.Keys == db.outbox.Keys
            && (forall c | c in db.outbox :: after.outbox[c] == db.outbox[c] || after.outbox[c].state == Confirmed)
            && (forall k | k in db.messages || k in Ids(batch) :: k in after.messages)
  {
    var after := StoreBatch(db, g, batch);
    StoreBatchOutbox(log, db, g, batch);
    StoreBatchMessages(log, db, g, batch);
    hide StoreBatch, StoredFrom, EntriesInv, NoneLost, PostsInv, ReportedInv, LogOk, BatchOf, RowInv, MayClose;
    forall c | c in db.outbox
      ensures RowInv(log, past, c, after.outbox[c])
      ensures after.outbox[c] == db.outbox[c]
          || (after.outbox[c].state == Confirmed && MayClose(w, log, after.messages, past, c))
    {
      if m :| m in batch && Echoes(db, g, batch, m, c) {
        assert m.id in Ids(batch);
        EchoedRow(w, log, db, g, batch, past, m, c);
      }
    }
    RowsMove(w, log, db.messages, after.messages, db.outbox, after.outbox, past);
  }

  /** What a batch reports new is never a message enqueued here. */
  lemma NewsIsNotOurs(w: World, log: Log, db: Db, g: string, batch: seq<Message>, past: Past, id: string)
    requires LogOk(log) && StoredFrom(log, db.messages) && BatchOf(log, g, batch)
    requires TablesInv(w, log, db.messages, db.outbox, past)
    requires id in BatchPlan(db, g, batch).newMessageIds
    ensures NotOurs(log, past, id)
  {
    ReportedIsNews(log, db, g, batch, id);
    assert log[id].id == id;
    assert EntryInv(w, db.messages, db.outbox, past, log[id]);
    assert forall c | Open(db.outbox, c) :: RowInv(log, past, c, db.outbox[c]);
  }

  lemma ApplyingKeepsOutbox(w: World, s: Sys, g: string, batch: seq<Message>, fetch: Fetch)
    requires LogOk(s.server.log) && StoredFrom(s.server.log, s.db.messages) && BatchOf(s.server.log, g, batch)
    requires OutboxInv(w, s)
    ensures OutboxInv(w, Applying(s, ApplyIncoming(s.db, g, batch, fetch)))
  {
    if g in s.db.groups || fetch != NotFound {
      var known := if g !in s.db.groups && fetch == Found then s.db.(groups := s.db.groups[g := false]) else s.db;
      StoringKeepsOutbox(w, s, known, g, batch);
    } else {
      assert s.past.reported + (set id | id in ApplyIncoming(s.db, g, batch, fetch).newIds) == s.past.reported;
    }
  }

  lemma StoringKeepsOutbox(w: World, s: Sys, known: Db, g: string, batch: seq<Message>)
    requires LogOk(s.server.log) && StoredFrom(s.server.log, s.db.messages) && BatchOf(s.server.log, g, batch)
    requires OutboxInv(w, s) && SameTables(s.db, known)
    ensures OutboxInv(w, Applying(s,
        Applied(StoreBatch(known, g, batch), None, BatchPlan(known, g, batch).newMessageIds)))
    ensures forall m | m in batch :: m.id in StoreBatch(known, g, batch).messages
  {
    var log, after, news := s.server.log, StoreBatch(known, g, batch), BatchPlan(known, g, batch).newMessageIds;
    BatchKeepsRows(w, log, known, g, batch, s.past);
    forall id | id in news ensures NotOurs(log, s.past, id) {
      NewsIsNotOurs(w, log, known, g, batch, s.past, id);
    }
    hide StoreBatch, BatchPlan, StoredFrom, LogOk;
    var past' := s.past.(reported := s.past.reported + (set id | id in news));
    ReportingMore(w, log, after.messages, after.outbox, s.past, past');
    assert forall m | m in batch :: m.id in Ids(batch);
    assert s.phase.Storing? ==> s.phase.message.id in known.messages;
  }

  lemma ReportingMore(w: World, log: Log, messages: map<string, Message>, outbox: map<string, OutboxRow>, past: Past,
      past': Past)
    requires TablesInv(w, log, messages, outbox, past)
    requires past'.posts == past.posts && past'.enqueued == past.enqueued
    requires forall id | id in past'.reported :: id in past.reported || NotOurs(log, past, id)
    ensures TablesInv(w, log, messages, outbox, past')
  {
    forall c | c in outbox ensures RowInv(log, past', c, outbox[c]) {
      assert RowInv(log, past, c, outbox[c]);
    }
    forall k | k in log ensures EntryInv(w, messages, outbox, past', log[k]) {
      assert EntryInv(w, messages, outbox, past, log[k]);
    }
    forall id | id in past'.reported ensures NotOurs(log, past', id) {
      assert NotOurs(log, past, id);
    }
  }
}
