/** Acknowledgement never runs ahead of storage, in every run of the system. */
module DeliverySafety {
  import opened Entities
  import opened Reconciler
  import opened Tables
  import opened OutboxRules
  import opened ServerLog
  import opened OutboxDispatchers
  import opened Sync
  import opened System

  /** Every log message of the group up to `n` is in the local table. */
  ghost predicate Covered(log: Log, messages: map<string, Message>, g: string, n: int) {
    forall k | k in log && log[k].groupId == g && log[k].seqNo <= n :: k in messages
  }

  ghost predicate AckInv(w: World, log: Log, nextSeq: map<string, int>, messages: map<string, Message>, a: Ack) {
    && a.seqNo < FreeSeq(nextSeq, a.groupId)
    && (a.groupId in w.members ==> Covered(log, messages, a.groupId, a.seqNo))
  }

  /** A frame is the log's own messages, and leaves no gap: what it skips is stored already. */
  ghost predicate FrameInv(w: World, log: Log, messages: map<string, Message>, f: Frame) {
    && BatchOf(log, f.groupId, f.batch)
    && (f.groupId in w.members ==>
          forall k, m | k in log && log[k].groupId == f.groupId && m in f.batch && log[k].seqNo <= m.seqNo ::
            k in messages || log[k] in f.batch)
  }

  predicate AnyFrame(n: Net, f: Frame) {
    f in n.wire || f in n.events || f in n.pulls
  }

  /** Acks on their way, and the ones the server's cursors stand for. */
  predicate AnyAck(n: Net, cursor: map<string, int>, a: Ack) {
    a in n.outbound || a in n.ackWire || a in n.restAcks || a.seqNo == At(cursor, a.groupId)
  }

  ghost predicate SeqsOk(log: Log, nextSeq: map<string, int>) {
    && (forall k | k in log :: 0 < log[k].seqNo < FreeSeq(nextSeq, log[k].groupId))
    && (forall g | g in nextSeq :: nextSeq[g] > 0)
  }

  ghost predicate FramesInv(w: World, v: Server, messages: map<string, Message>, n: Net) {
    forall f | AnyFrame(n, f) :: FrameInv(w, v.log, messages, f)
  }

  ghost predicate AcksInv(w: World, v: Server, messages: map<string, Message>, n: Net) {
    forall a | AnyAck(n, v.cursor, a) :: AckInv(w, v.log, v.nextSeq, messages, a)
  }

  ghost predicate DeliveryInv(w: World, s: Sys) {
    && LogOk(s.server.log) && SeqsOk(s.server.log, s.server.nextSeq)
    && StoredFrom(s.server.log, s.db.messages)
    && FramesInv(w, s.server, s.db.messages, s.net)
    && AcksInv(w, s.server, s.db.messages, s.net)
  }

  // ---- the two ways a step can go ---------------------------------------------------

  /** A step that leaves the log alone: rows only added, and every new frame and ack sound. */
  lemma StepKeeps(w: World, s: Sys, t: Sys)
    requires DeliveryInv(w, s)
    requires t.server.log == s.server.log && t.server.nextSeq == s.server.nextSeq
    requires StoredFrom(t.server.log, t.db.messages) && s.db.messages.Keys <= t.db.messages.Keys
    requires forall f | AnyFrame(t.net, f) :: AnyFrame(s.net, f) || FrameInv(w, s.server.log, t.db.messages, f)
    requires forall a | AnyAck(t.net, t.server.cursor, a) ::
               AnyAck(s.net, s.server.cursor, a) || AckInv(w, s.server.log, s.server.nextSeq, t.db.messages, a)
    ensures DeliveryInv(w, t)
  {
    forall f | AnyFrame(t.net, f) ensures FrameInv(w, t.server.log, t.db.messages, f) {
      if AnyFrame(s.net, f) {
        assert FrameInv(w, s.server.log, s.db.messages, f);
      }
    }
    forall a | AnyAck(t.net, t.server.cursor, a) ensures AckInv(w, t.server.log, t.server.nextSeq, t.db.messages, a) {
      if AnyAck(s.net, s.server.cursor, a) {
        assert AckInv(w, s.server.log, s.server.nextSeq, s.db.messages, a);
      }
    }
  }

  lemma AppendKeepsLog(log: Log, nextSeq: map<string, int>, messages: map<string, Message>, v: Server, m: Message)
    requires v.log == log && v.nextSeq == nextSeq
    requires LogOk(log) && SeqsOk(log, nextSeq) && StoredFrom(log, messages)
    requires m.id !in log && m.seqNo >= FreeSeq(nextSeq, m.groupId)
    requires m.clientMessageId.Some? ==> forall k | k in log :: log[k].clientMessageId != m.clientMessageId
    ensures var u := Append(v, m); LogOk(u.log) && SeqsOk(u.log, u.nextSeq) && StoredFrom(u.log, messages)
  {}

  lemma AppendKeepsFrame(w: World, v: Server, messages: map<string, Message>, m: Message, f: Frame)
    requires SeqsOk(v.log, v.nextSeq) && m.id !in v.log && m.seqNo >= FreeSeq(v.nextSeq, m.groupId)
    requires FrameInv(w, v.log, messages, f)
    ensures FrameInv(w, Append(v, m).log, messages, f)
  {
    assert forall x | x in f.batch :: InLog(v.log, x);
  }

  lemma AppendKeepsAck(w: World, v: Server, messages: map<string, Message>, m: Message, a: Ack)
    requires m.id !in v.log && m.seqNo >= FreeSeq(v.nextSeq, m.groupId)
    requires AckInv(w, v.log, v.nextSeq, messages, a)
    ensures AckInv(w, Append(v, m).log, Append(v, m).nextSeq, messages, a)
  {}

  /** A new message lies above everything acknowledged or in flight. */
  lemma AppendKeeps(w: World, s: Sys, m: Message)
    requires DeliveryInv(w, s) && CanAppend(s, m)
    ensures DeliveryInv(w, s.(server := Append(s.server, m)))
  {
    var v := s.server;
    AppendKeepsLog(v.log, v.nextSeq, s.db.messages, v, m);
    hide FrameInv, AckInv, LogOk, SeqsOk, StoredFrom;
    forall f | AnyFrame(s.net, f) ensures FrameInv(w, Append(v, m).log, s.db.messages, f) {
      AppendKeepsFrame(w, v, s.db.messages, m, f);
    }
    forall a | AnyAck(s.net, v.cursor, a) ensures AckInv(w, Append(v, m).log, Append(v, m).nextSeq, s.db.messages, a) {
      AppendKeepsAck(w, v, s.db.messages, m, a);
    }
  }

  /** Pushed or pulled batches start at the cursor, so they leave no gap. */
  lemma NextBatchIsSound(w: World, s: Sys, g: string, batch: seq<Message>)
    requires DeliveryInv(w, s) && NextBatch(s.server.log, g, At(s.server.cursor, g), batch)
    ensures FrameInv(w, s.server.log, s.db.messages, Frame(g, batch))
  {
    assert AnyAck(s.net, s.server.cursor, Ack(g, At(s.server.cursor, g)));
  }

  /** Applying a sound frame stores it, and the ack it yields is covered. */
  lemma ApplyingKeeps(w: World, s: Sys, f: Frame, fetch: Fetch)
    requires DeliveryInv(w, s) && FrameInv(w, s.server.log, s.db.messages, f) && HonestFetch(w, f.groupId, fetch)
    ensures var r := ApplyIncoming(s.db, f.groupId, f.batch, fetch);
            && StoredFrom(s.server.log, r.db.messages) && s.db.messages.Keys <= r.db.messages.Keys
            && (r.ack.Some? ==> AckInv(w, s.server.log, s.server.nextSeq, r.db.messages, Ack(f.groupId, r.ack.value)))
  {
    var r := ApplyIncoming(s.db, f.groupId, f.batch, fetch);
    var log := s.server.log;
    HistoryKeeps(w, s, f.groupId, f.batch, fetch);
    if r.ack.Some? {
      MaxSeqIsMaximum(f.batch);
      var i :| 0 <= i < |f.batch| && f.batch[i].seqNo == r.ack.value;
      var m := f.batch[i];
      assert m in f.batch && InLog(log, m);
      if f.groupId in w.members {
        forall k | k in log && log[k].groupId == f.groupId && log[k].seqNo <= m.seqNo ensures k in r.db.messages {
          if k !in s.db.messages {
            assert log[k] in f.batch && log[k].id == k;
          }
        }
      }
    }
  }

  /** A batch from the log is stored, unless the group is gone. */
  lemma HistoryKeeps(w: World, s: Sys, g: string, batch: seq<Message>, fetch: Fetch)
    requires DeliveryInv(w, s) && BatchOf(s.server.log, g, batch)
    ensures var r := ApplyIncoming(s.db, g, batch, fetch);
            && StoredFrom(s.server.log, r.db.messages) && s.db.messages.Keys <= r.db.messages.Keys
            && (fetch != NotFound ==> forall m | m in batch :: m.id in r.db.messages)
  {
    if g in s.db.groups || fetch != NotFound {
      var known := if g !in s.db.groups && fetch == Found then s.db.(groups := s.db.groups[g := false]) else s.db;
      StoreBatchMessages(s.server.log, known, g, batch);
      assert forall m | m in batch :: m.id in Ids(batch);
    }
  }

  // ---- every step --------------------------------------------------------------------

  lemma LocalKeeps(w: World, s: Sys, a: Action)
    requires DeliveryInv(w, s)
    ensures DeliveryInv(w, DoLocal(s, a))
  {
    hide Tables.Retry, RedactConfirmed, PurgeConfirmed, FramesInv, AcksInv, LogOk, SeqsOk, UnusedId;
    var t := DoLocal(s, a);
    assert t.server == s.server && t.net == s.net;
    assert StoredFrom(s.server.log, t.db.messages) && s.db.messages.Keys == t.db.messages.Keys;
    StepKeeps(w, s, t);
  }

  /** A stored reply carries a message of the group the row was enqueued for. */
  ghost predicate ReplyInGroup(w: World, s: Sys, a: Action) {
    a.Reply? && a.outcome.Stored? && s.phase.Posted? && HonestReply(w, s, s.phase.row, a.outcome)
    ==> a.outcome.message.groupId == s.phase.row.groupId
  }

  lemma StoredReplyKeeps(w: World, s: Sys, m: Message, now: int, delay: int)
    requires DeliveryInv(w, s) && ReplyInGroup(w, s, Reply(Stored(m), now, delay))
    ensures DeliveryInv(w, DoReply(w, s, Stored(m), now, delay))
  {
    if s.phase.Posted? && HonestReply(w, s, s.phase.row, Stored(m)) {
      StoreBatchMessages(s.server.log, s.db, s.phase.row.groupId, [m]);
      hide FramesInv, AcksInv, LogOk, SeqsOk, StoredFrom, StoreBatch, BatchPlan, HonestReply;
      StepKeeps(w, s, DoReply(w, s, Stored(m), now, delay));
    }
  }

  /** What every other dispatcher step leaves alone. */
  lemma DispatchFrame(w: World, s: Sys, a: Action)
    requires !(a.Reply? && a.outcome.Stored?)
    ensures var t := DoDispatch(w, s, a);
            && t.server.log == s.server.log && t.server.nextSeq == s.server.nextSeq
                && t.server.cursor == s.server.cursor
            && t.db.messages == s.db.messages
            && (a.Restart? || t.net == s.net)
  {
    hide StoreBatch, BatchPlan, Tables.Repair, DueAt, MarkInFlight, MarkRejected, Reschedule, ConfirmSent, HonestReply;
  }

  lemma DispatchKeeps(w: World, s: Sys, a: Action)
    requires DeliveryInv(w, s) && ReplyInGroup(w, s, a)
    ensures DeliveryInv(w, DoDispatch(w, s, a))
  {
    if a.Reply? && a.outcome.Stored? {
      StoredReplyKeeps(w, s, a.outcome.message, a.now, a.delay);
    } else {
      var t := DoDispatch(w, s, a);
      DispatchFrame(w, s, a);
      assert a.Restart? ==> forall f | AnyFrame(t.net, f) :: AnyFrame(s.net, f);
      hide FramesInv, AcksInv, LogOk, SeqsOk, StoredFrom, DoDispatch, ReplyInGroup;
      StepKeeps(w, s, t);
    }
  }

  lemma ServerKeeps(w: World, s: Sys, a: Action)
    requires DeliveryInv(w, s)
    ensures DeliveryInv(w, DoServer(w, s, a))
  {
    hide FramesInv, AcksInv, LogOk, SeqsOk, StoredFrom, CanAppend, NextBatch, FrameInv, AckInv;
    var t := DoServer(w, s, a);
    if a.StorePost? {
      var m := Message(a.id, a.post.groupId, a.seqNo, a.senderId, a.shown, Some(a.post.clientMessageId), a.at);
      if CanAppend(s, m) {
        AppendKeeps(w, s, m);
      }
    } else if a.OtherMessage? {
      if CanAppend(s, a.m) {
        AppendKeeps(w, s, a.m);
      }
    } else {
      if a.Push? && NextBatch(s.server.log, a.groupId, At(s.server.cursor, a.groupId), a.batch) {
        NextBatchIsSound(w, s, a.groupId, a.batch);
      }
      StepKeeps(w, s, t);
    }
  }

  lemma OlderPageKeeps(w: World, s: Sys, g: string, batch: seq<Message>)
    requires DeliveryInv(w, s) && BatchOf(s.server.log, g, batch)
    ensures var after := InsertAll(s.db.messages, batch);
            StoredFrom(s.server.log, after) && s.db.messages.Keys <= after.Keys
  {
    InsertAllFromLog(s.server.log, s.db.messages, batch);
    InsertAllKeeps(s.db.messages, batch);
  }

  lemma HandleEventKeeps(w: World, s: Sys, fetch: Fetch)
    requires DeliveryInv(w, s)
    ensures DeliveryInv(w, DoHandleEvent(w, s, fetch))
  {
    if s.net.events != [] && HonestFetch(w, s.net.events[0].groupId, fetch) {
      var f := s.net.events[0];
      assert AnyFrame(s.net, f);
      ApplyingKeeps(w, s, f, fetch);
      hide FramesInv, AcksInv, LogOk, SeqsOk, StoredFrom, ApplyIncoming, FrameInv, AckInv;
      StepKeeps(w, s, DoHandleEvent(w, s, fetch));
    }
  }

  lemma HandlePullKeeps(w: World, s: Sys, fetch: Fetch)
    requires DeliveryInv(w, s)
    ensures DeliveryInv(w, DoHandlePull(w, s, fetch))
  {
    if s.net.pulls != [] && HonestFetch(w, s.net.pulls[0].groupId, fetch) {
      var f := s.net.pulls[0];
      assert AnyFrame(s.net, f);
      ApplyingKeeps(w, s, f, fetch);
      hide FramesInv, AcksInv, LogOk, SeqsOk, StoredFrom, ApplyIncoming, FrameInv, AckInv;
      StepKeeps(w, s, DoHandlePull(w, s, fetch));
    }
  }

  lemma HistoryStepKeeps(w: World, s: Sys, g: string, batch: seq<Message>, fetch: Fetch)
    requires DeliveryInv(w, s)
    ensures DeliveryInv(w, DoHistory(s, g, batch, fetch))
  {
    if BatchOf(s.server.log, g, batch) {
      HistoryKeeps(w, s, g, batch, fetch);
      hide FramesInv, AcksInv, LogOk, SeqsOk, StoredFrom, ApplyIncoming, BatchOf;
      StepKeeps(w, s, DoHistory(s, g, batch, fetch));
    }
  }

  lemma OlderPageStepKeeps(w: World, s: Sys, g: string, batch: seq<Message>)
    requires DeliveryInv(w, s)
    ensures DeliveryInv(w, DoOlderPage(s, g, batch))
  {
    if BatchOf(s.server.log, g, batch) {
      OlderPageKeeps(w, s, g, batch);
      hide FramesInv, AcksInv, LogOk, SeqsOk, StoredFrom, InsertAll, BatchOf;
      StepKeeps(w, s, DoOlderPage(s, g, batch));
    }
  }

  lemma ReceiveKeeps(w: World, s: Sys, a: Action)
    requires DeliveryInv(w, s)
    ensures DeliveryInv(w, DoReceive(s, a))
  {
    hide FramesInv, AcksInv, LogOk, SeqsOk, StoredFrom, NextBatch, FrameInv, AckInv;
    if a.Pull? && NextBatch(s.server.log, a.groupId, At(s.server.cursor, a.groupId), a.batch) {
      NextBatchIsSound(w, s, a.groupId, a.batch);
    }
    StepKeeps(w, s, DoReceive(s, a));
  }

  lemma DeliveryStep(w: World, s: Sys, a: Action)
    requires DeliveryInv(w, s) && ReplyInGroup(w, s, a)
    ensures DeliveryInv(w, Next(w, s, a))
  {
    hide DeliveryInv, DoLocal, DoDispatch, DoServer, DoHandleEvent, DoHandlePull, DoHistory, DoOlderPage, DoReceive,
        ReplyInGroup;
    if IsLocal(a) {
      LocalKeeps(w, s, a);
    } else if IsDispatch(a) {
      DispatchKeeps(w, s, a);
    } else if IsServer(a) {
      ServerKeeps(w, s, a);
    } else {
      match a
      case HandleEvent(fetch) => HandleEventKeeps(w, s, fetch);
      case HandlePull(fetch) => HandlePullKeeps(w, s, fetch);
      case History(g, batch, fetch) => HistoryStepKeeps(w, s, g, batch, fetch);
      case OlderPage(g, batch) => OlderPageStepKeeps(w, s, g, batch);
      case _ => ReceiveKeeps(w, s, a);
    }
  }
}
