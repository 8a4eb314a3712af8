/** What holds after every run of the whole system: the headline guarantees. */
module Guarantees {
  import opened Entities
  import opened Tables
  import opened OutboxRules
  import opened ServerLog
  import opened OutboxDispatchers
  import opened Sync
  import opened System
  import opened DeliverySafety
  import opened OutboxSafety

  ghost predicate SysInv(w: World, s: Sys) {
    DeliveryInv(w, s) && OutboxInv(w, s)
  }

  lemma ReplyCarriesOwnGroup(w: World, s: Sys, a: Action)
    requires LogOk(s.server.log) && OutboxInv(w, s)
    ensures ReplyInGroup(w, s, a)
  {
    if a.Reply? && a.outcome.Stored? && s.phase.Posted? && HonestReply(w, s, s.phase.row, a.outcome) {
      assert EntryInv(w, s.db.messages, s.db.outbox, s.past, s.server.log[a.outcome.message.id]);
    }
  }

  lemma StoredReplyStep(w: World, s: Sys, m: Message, now: int, delay: int)
    requires SysInv(w, s)
    ensures OutboxInv(w, DoReply(w, s, Stored(m), now, delay))
  {
    ReplyCarriesOwnGroup(w, s, Reply(Stored(m), now, delay));
    if s.phase.Posted? && HonestReply(w, s, s.phase.row, Stored(m)) {
      StoringKeepsOutbox(w, s, s.db, s.phase.row.groupId, [m]);
      assert m in [m];
    }
  }

  lemma DispatchStep(w: World, s: Sys, a: Action)
    requires SysInv(w, s) && IsDispatch(a)
    ensures OutboxInv(w, DoDispatch(w, s, a))
  {
    match a
    case Pick(c, now) => PickKeeps(w, s, c, now);
    case Mark(now) => MarkKeeps(w, s, now);
    case Send => SendKeeps(w, s);
    case Reply(outcome, now, delay) =>
      if outcome.Stored? {
        StoredReplyStep(w, s, outcome.message, now, delay);
      } else if outcome.Command? {
        CommandKeeps(w, s, now, delay);
      } else {
        FailureKeeps(w, s, outcome, now, delay);
      }
    case ConfirmReply => ConfirmKeeps(w, s);
    case Abort =>
    case Restart(now) => RestartKeeps(w, s, now);
    case _ =>
  }

  lemma HandleStep(w: World, s: Sys, f: Frame, fetch: Fetch)
    requires SysInv(w, s) && AnyFrame(s.net, f)
    ensures OutboxInv(w, Applying(s, ApplyIncoming(s.db, f.groupId, f.batch, fetch)))
  {
    assert FrameInv(w, s.server.log, s.db.messages, f);
    ApplyingKeepsOutbox(w, s, f.groupId, f.batch, fetch);
  }

  lemma OlderPageStep(w: World, s: Sys, g: string, batch: seq<Message>)
    requires SysInv(w, s)
    ensures OutboxInv(w, DoOlderPage(s, g, batch))
  {
    InsertAllKeeps(s.db.messages, batch);
    assert LogOk(s.server.log);
    hide InsertAll, DeliveryInv, LogOk;
    RowsMove(w, s.server.log, s.db.messages, InsertAll(s.db.messages, batch), s.db.outbox, s.db.outbox, s.past);
  }

  lemma HandleEventStep(w: World, s: Sys, fetch: Fetch)
    requires SysInv(w, s)
    ensures OutboxInv(w, DoHandleEvent(w, s, fetch))
  {
    if s.net.events != [] && HonestFetch(w, s.net.events[0].groupId, fetch) {
      var f := s.net.events[0];
      HandleStep(w, s, f, fetch);
      hide OutboxInv, DeliveryInv, ApplyIncoming, HonestFetch;
      SameOutboxInv(w, Applying(s, ApplyIncoming(s.db, f.groupId, f.batch, fetch)), DoHandleEvent(w, s, fetch));
    }
  }

  lemma HandlePullStep(w: World, s: Sys, fetch: Fetch)
    requires SysInv(w, s)
    ensures OutboxInv(w, DoHandlePull(w, s, fetch))
  {
    if s.net.pulls != [] && HonestFetch(w, s.net.pulls[0].groupId, fetch) {
      var f := s.net.pulls[0];
      HandleStep(w, s, f, fetch);
      hide OutboxInv, DeliveryInv, ApplyIncoming, HonestFetch;
      SameOutboxInv(w, Applying(s, ApplyIncoming(s.db, f.groupId, f.batch, fetch)), DoHandlePull(w, s, fetch));
    }
  }

  lemma HistoryStep(w: World, s: Sys, g: string, batch: seq<Message>, fetch: Fetch)
    requires SysInv(w, s)
    ensures OutboxInv(w, DoHistory(s, g, batch, fetch))
  {
    if BatchOf(s.server.log, g, batch) {
      ApplyingKeepsOutbox(w, s, g, batch, fetch);
    }
  }

  lemma QueueStep(w: World, s: Sys, a: Action)
    requires OutboxInv(w, s)
    ensures OutboxInv(w, DoReceive(s, a))
  {
    hide OutboxInv, NextBatch;
    SameOutboxInv(w, s, DoReceive(s, a));
  }

  lemma ReceiveStep(w: World, s: Sys, a: Action)
    requires SysInv(w, s) && !IsLocal(a) && !IsDispatch(a) && !IsServer(a)
    ensures OutboxInv(w, Next(w, s, a))
  {
    assert OutboxInv(w, s);
    hide SysInv, OutboxInv, DoHandleEvent, DoHandlePull, DoHistory, DoOlderPage, DoReceive;
    match a
    case HandleEvent(fetch) => HandleEventStep(w, s, fetch);
    case HandlePull(fetch) => HandlePullStep(w, s, fetch);
    case History(g, batch, fetch) => HistoryStep(w, s, g, batch, fetch);
    case OlderPage(g, batch) => OlderPageStep(w, s, g, batch);
    case _ => QueueStep(w, s, a);
  }

  /** The outbox invariant reads neither the network nor the server's cursors. */
  lemma SameOutboxInv(w: World, s: Sys, t: Sys)
    requires t.server.log == s.server.log && t.db == s.db && t.past == s.past && t.phase == s.phase
    ensures OutboxInv(w, t) == OutboxInv(w, s)
  {
  }

  lemma StepKeepsInv(w: World, s: Sys, a: Action)
    requires SysInv(w, s)
    ensures SysInv(w, Next(w, s, a))
  {
    ReplyCarriesOwnGroup(w, s, a);
    DeliveryStep(w, s, a);
    if IsLocal(a) {
      LocalKeepsOutbox(w, s, a);
    } else if IsDispatch(a) {
      DispatchStep(w, s, a);
    } else if IsServer(a) {
      ServerKeepsOutbox(w, s, a);
    } else {
      ReceiveStep(w, s, a);
    }
  }

  /** The invariant holds after every run. */
  lemma {:induction false} RunKeepsInv(w: World, actions: seq<Action>)
    ensures SysInv(w, Run(w, actions))
  {
    if |actions| == 0 {
    } else {
      RunKeepsInv(w, actions[..|actions| - 1]);
      hide SysInv, Next;
      StepKeepsInv(w, Run(w, actions[..|actions| - 1]), actions[|actions| - 1]);
    }
  }

  // ---- the guarantees -----------------------------------------------------------------

  /**
   * Exactly-once posting: the server holds at most one message per `clientMessageId`; every request ever
   * sent carries the group and body that were enqueued under its id; every confirmed row carries the id
   * and seq of that one message, whichever of echo, reply or duplicate reply came first, and is never
   * due for sending again; and nothing enqueued is lost: it is still open, or on the server, or it was a
   * command.
   */
  ghost predicate PostedExactlyOnce(w: World, log: Log, outbox: map<string, OutboxRow>, past: Past) {
    && (forall a, b | a in log && b in log && log[a].clientMessageId.Some?
                      && log[a].clientMessageId == log[b].clientMessageId :: a == b)
    && (forall p | p in past.posts :: p.clientMessageId in past.enqueued && past.enqueued[p.clientMessageId] == p)
    && (forall k | k in log && log[k].clientMessageId.Some? && log[k].clientMessageId.value in past.enqueued ::
          log[k].groupId == past.enqueued[log[k].clientMessageId.value].groupId)
    && (forall c | c in outbox && outbox[c].state == Confirmed ::
          ConfirmedBy(log, outbox[c]) && outbox[c].clientMessageId == c && forall t :: !DueAt(outbox[c], t))
    && (forall c | c in past.enqueued && past.enqueued[c].body !in w.commands :: Open(outbox, c) || HasEntry(log, c))
  }

  /** Posting is exactly-once after every run. */
  lemma {:induction false} ExactlyOncePosting(w: World, actions: seq<Action>)
    ensures var s := Run(w, actions); PostedExactlyOnce(w, s.server.log, s.db.outbox, s.past)
  {
    var s := Run(w, actions);
    RunKeepsInv(w, actions);
    forall c | c in s.db.outbox && s.db.outbox[c].state == Confirmed
      ensures ConfirmedBy(s.server.log, s.db.outbox[c]) && s.db.outbox[c].clientMessageId == c
    {
      assert RowInv(s.server.log, s.past, c, s.db.outbox[c]);
    }
    forall k | k in s.server.log && s.server.log[k].clientMessageId.Some?
        && s.server.log[k].clientMessageId.value in s.past.enqueued
      ensures s.server.log[k].groupId == s.past.enqueued[s.server.log[k].clientMessageId.value].groupId
    {
      assert EntryInv(w, s.db.messages, s.db.outbox, s.past, s.server.log[k]);
    }
  }

  /** The machine's two steps for a stored reply are together the second half of `step`. */
  lemma TwoStepsSettle(w: World, s: Sys, m: Message, now: int, delay: int)
    requires s.phase.Posted? && HonestReply(w, s, s.phase.row, Stored(m))
    ensures var t := DoDispatch(w, DoReply(w, s, Stored(m), now, delay), ConfirmReply);
            t.phase == Resting && t.db == Settle(s.db, s.phase.row, Stored(m), now, delay)
  {
    hide StoreBatch, BatchPlan, HonestReply, ConfirmSent;
  }

  /** The batch that holds just the reply's message keeps every row and stores the message. */
  lemma ReplyIsStored(w: World, s: Sys, m: Message)
    requires SysInv(w, s) && s.phase.Posted? && HonestReply(w, s, s.phase.row, Stored(m))
    ensures var mid := StoreBatch(s.db, s.phase.row.groupId, [m]);
            m.id in mid.messages && mid.outbox.Keys == s.db.outbox.Keys
  {
    ReplyCarriesOwnGroup(w, s, Reply(Stored(m), 0, 0));
    assert m in [m];
    hide StoreBatch, BatchPlan, OutboxInv;
    StoringKeepsOutbox(w, s, s.db, s.phase.row.groupId, [m]);
    StoreBatchOutbox(s.server.log, s.db, s.phase.row.groupId, [m]);
  }

  /**
   * A stored reply settles its row: the message ends up in the table, and the row, unless deleted
   * meanwhile, confirmed by it.
   */
  lemma StoredReplySettles(w: World, s: Sys, m: Message, now: int, delay: int)
    requires SysInv(w, s) && s.phase.Posted? && HonestReply(w, s, s.phase.row, Stored(m))
    ensures var t := DoDispatch(w, DoReply(w, s, Stored(m), now, delay), ConfirmReply);
            var c := s.phase.row.clientMessageId;
            && m.id in t.db.messages && t.db.outbox.Keys == s.db.outbox.Keys
            && (c in s.db.outbox ==>
                  && t.db.outbox[c].state == Confirmed && t.db.outbox[c].confirmedMessageId == Some(m.id)
                  && t.db.outbox[c].confirmedSeq == Some(m.seqNo))
  {
    TwoStepsSettle(w, s, m, now, delay);
    ReplyIsStored(w, s, m);
    hide StoreBatch, SysInv, HonestReply, DoDispatch, DoReply;
  }

  /** Of every group of ours, each message at or below the delivery cursor is in the local table. */
  ghost predicate AckedStored(w: World, log: Log, messages: map<string, Message>, cursor: map<string, int>) {
    forall g | g in w.members :: Covered(log, messages, g, At(cursor, g))
  }

  /** Acknowledged implies stored, after every run. */
  lemma {:induction false} AckedIsStored(w: World, actions: seq<Action>)
    ensures var s := Run(w, actions); AckedStored(w, s.server.log, s.db.messages, s.server.cursor)
  {
    var s := Run(w, actions);
    RunKeepsInv(w, actions);
    forall g | g in w.members ensures Covered(s.server.log, s.db.messages, g, At(s.server.cursor, g)) {
      assert AnyAck(s.net, s.server.cursor, Ack(g, At(s.server.cursor, g)));
      assert AckInv(w, s.server.log, s.server.nextSeq, s.db.messages, Ack(g, At(s.server.cursor, g)));
    }
  }

  /** For each group of ours whose log ends at the cursor, the stored ids are the log's ids. */
  ghost predicate CaughtUpEqual(w: World, log: Log, messages: map<string, Message>, cursor: map<string, int>) {
    forall g | g in w.members && (forall k | k in log && log[k].groupId == g :: log[k].seqNo <= At(cursor, g)) ::
      forall k :: (k in messages && messages[k].groupId == g) <==> (k in log && log[k].groupId == g)
  }

  /** Once the cursor reaches the end of a group's log, table and log agree on the group. */
  lemma {:induction false} CaughtUpMeansEqual(w: World, actions: seq<Action>)
    ensures var s := Run(w, actions); CaughtUpEqual(w, s.server.log, s.db.messages, s.server.cursor)
  {
    var s := Run(w, actions);
    RunKeepsInv(w, actions);
    AckedIsStored(w, actions);
    assert forall k | k in s.db.messages :: SameButBody(s.server.log[k], s.db.messages[k]);
  }

  /** A message enqueued on this device is never reported as new, in any run. */
  lemma {:induction false} NeverReportedNew(w: World, actions: seq<Action>, id: string)
    requires id in Run(w, actions).past.reported
    ensures var s := Run(w, actions);
            id in s.server.log
            && forall c | s.server.log[id].clientMessageId == Some(c) :: c !in s.past.enqueued
  {
    RunKeepsInv(w, actions);
    var s := Run(w, actions);
    assert NotOurs(s.server.log, s.past, id);
  }

  /**
   * The outbox state machine: a row has a server seq exactly when confirmed, so the first UPDATE of
   * `repair` changes nothing; and shown failed, listed failed, and open yet never due again are the
   * same thing.
   */
  ghost predicate RowsAgree(outbox: map<string, OutboxRow>) {
    forall c | c in outbox ::
      var row := outbox[c];
      && (row.confirmedSeq.Some? <==> row.state == Confirmed)
      && RepairState(row) == row
      && (Outgoing(row) == ShownFailed <==> ListedFailed(row))
      && (ListedFailed(row) <==> row.state != Confirmed && forall t :: !DueAt(row, t))
  }

  lemma {:induction false} OutboxStateMachine(w: World, actions: seq<Action>)
    ensures RowsAgree(Run(w, actions).db.outbox)
  {
    RunKeepsInv(w, actions);
    var s := Run(w, actions);
    forall c | c in s.db.outbox ensures RowOk(s.db.outbox[c]) {
      assert RowInv(s.server.log, s.past, c, s.db.outbox[c]);
    }
    AllRowsAgree(s.db.outbox);
  }

  lemma AllRowsAgree(outbox: map<string, OutboxRow>)
    requires forall c | c in outbox :: RowOk(outbox[c])
    ensures RowsAgree(outbox)
  {
    forall c | c in outbox ensures Outgoing(outbox[c]) == ShownFailed <==> ListedFailed(outbox[c])
      ensures ListedFailed(outbox[c]) <==> outbox[c].state != Confirmed && forall t :: !DueAt(outbox[c], t)
    {
      FailedAgreement(outbox[c]);
    }
  }

  /** A confirmed row keeps its state, id and seq, or is deleted. */
  ghost predicate ConfirmedStay(before: map<string, OutboxRow>, after: map<string, OutboxRow>) {
    forall c | c in before && before[c].state == Confirmed :: StaysConfirmed(before, after, c)
  }

  ghost predicate StaysConfirmed(before: map<string, OutboxRow>, after: map<string, OutboxRow>, c: string)
    requires c in before
  {
    c !in after
    || (after[c].state == Confirmed && after[c].confirmedMessageId == before[c].confirmedMessageId
        && after[c].confirmedSeq == before[c].confirmedSeq)
  }

  /** Confirmed is left only by deletion, in every step from every reachable state. */
  lemma {:induction false} ConfirmedIsFinal(w: World, actions: seq<Action>, a: Action)
    ensures ConfirmedStay(Run(w, actions).db.outbox, Next(w, Run(w, actions), a).db.outbox)
  {
    var s := Run(w, actions);
    RunKeepsInv(w, actions);
    StepKeepsInv(w, s, a);
    hide SysInv, Run, Next, StaysConfirmed;
    forall c | c in s.db.outbox && s.db.outbox[c].state == Confirmed
      ensures StaysConfirmed(s.db.outbox, Next(w, s, a).db.outbox, c)
    {
      OneStepConfirmed(w, s, a, c);
    }
  }

  lemma OneStepConfirmed(w: World, s: Sys, a: Action, c: string)
    requires SysInv(w, s) && SysInv(w, Next(w, s, a))
    requires c in s.db.outbox && s.db.outbox[c].state == Confirmed
    ensures StaysConfirmed(s.db.outbox, Next(w, s, a).db.outbox, c)
  {
    var t := Next(w, s, a);
    assert RowInv(s.server.log, s.past, c, s.db.outbox[c]);
    if c in t.db.outbox {
      assert RowInv(t.server.log, t.past, c, t.db.outbox[c]);
      LogOnlyGrows(w, s, a);
      StillConfirmed(w, s, a, c);
    }
  }

  lemma DispatchKeepsLog(w: World, s: Sys, a: Action)
    ensures DoDispatch(w, s, a).server.log == s.server.log
  {
    hide StoreBatch, BatchPlan, HonestReply, Settle, DueAt, Repair, MarkInFlight, ConfirmSent;
  }

  lemma LocalKeepsLog(s: Sys, a: Action)
    ensures DoLocal(s, a).server.log == s.server.log
  {
    hide UnusedId;
  }

  lemma ReceivingKeepsLog(w: World, s: Sys, a: Action)
    requires !IsServer(a) && !IsDispatch(a) && !IsLocal(a)
    ensures Next(w, s, a).server.log == s.server.log
  {
    hide DoServer, DoDispatch, DoLocal, ApplyIncoming, NextBatch, BatchOf, HonestFetch, InsertAll;
  }

  lemma OnlyServerChangesLog(w: World, s: Sys, a: Action)
    requires !IsServer(a)
    ensures Next(w, s, a).server.log == s.server.log
  {
    hide DoServer, DoDispatch, DoLocal, DoHandleEvent, DoHandlePull, DoHistory, DoOlderPage, DoReceive;
    if IsDispatch(a) {
      DispatchKeepsLog(w, s, a);
    } else if IsLocal(a) {
      LocalKeepsLog(s, a);
    } else {
      ReceivingKeepsLog(w, s, a);
    }
  }

  lemma ServerLogGrows(w: World, s: Sys, a: Action)
    ensures forall k | k in s.server.log ::
              k in DoServer(w, s, a).server.log && DoServer(w, s, a).server.log[k] == s.server.log[k]
  {
    hide NextBatch;
  }

  lemma LogOnlyGrows(w: World, s: Sys, a: Action)
    ensures forall k | k in s.server.log ::
              k in Next(w, s, a).server.log && Next(w, s, a).server.log[k] == s.server.log[k]
  {
    if IsServer(a) {
      assert Next(w, s, a) == DoServer(w, s, a);
      hide Next, DoServer;
      ServerLogGrows(w, s, a);
    } else {
      hide Next;
      OnlyServerChangesLog(w, s, a);
    }
  }

  lemma ReplyStillConfirmed(w: World, s: Sys, m: Message, now: int, delay: int, c: string)
    requires SysInv(w, s)
    requires c in s.db.outbox && s.db.outbox[c].state == Confirmed
    ensures var outbox := DoReply(w, s, Stored(m), now, delay).db.outbox; c in outbox && outbox[c].state == Confirmed
  {
    if s.phase.Posted? && HonestReply(w, s, s.phase.row, Stored(m)) {
      ReplyCarriesOwnGroup(w, s, Reply(Stored(m), now, delay));
      BatchKeepsRows(w, s.server.log, s.db, s.phase.row.groupId, [m], s.past);
    }
    hide StoreBatch, BatchPlan, SysInv;
  }

  lemma DispatchStillConfirmed(w: World, s: Sys, a: Action, c: string)
    requires SysInv(w, s) && IsDispatch(a)
    requires c in s.db.outbox && s.db.outbox[c].state == Confirmed && c in DoDispatch(w, s, a).db.outbox
    ensures DoDispatch(w, s, a).db.outbox[c].state == Confirmed
  {
    hide StoreBatch, BatchPlan, SysInv, DoReply, DueAt;
    if a.Reply? && a.outcome.Stored? {
      ReplyStillConfirmed(w, s, a.outcome.message, a.now, a.delay, c);
    } else if a.Reply? {
      FailureStillConfirmed(w, s, a.outcome, a.now, a.delay, c);
    }
  }

  lemma FailureStillConfirmed(w: World, s: Sys, outcome: SendOutcome, now: int, delay: int, c: string)
    requires c in s.db.outbox && s.db.outbox[c].state == Confirmed && !outcome.Stored?
    requires c in DoReply(w, s, outcome, now, delay).db.outbox
    ensures DoReply(w, s, outcome, now, delay).db.outbox[c].state == Confirmed
  {
    hide StoreBatch, BatchPlan, HonestReply;
  }

  lemma ApplyStillConfirmed(w: World, s: Sys, g: string, batch: seq<Message>, fetch: Fetch, c: string)
    requires SysInv(w, s) && BatchOf(s.server.log, g, batch)
    requires c in s.db.outbox && s.db.outbox[c].state == Confirmed
    ensures var outbox := ApplyIncoming(s.db, g, batch, fetch).db.outbox; c in outbox && outbox[c].state == Confirmed
  {
    if g in s.db.groups || fetch != NotFound {
      var known := if g !in s.db.groups && fetch == Found then s.db.(groups := s.db.groups[g := false]) else s.db;
      BatchKeepsRows(w, s.server.log, known, g, batch, s.past);
    }
  }

  lemma EventStillConfirmed(w: World, s: Sys, fetch: Fetch, c: string)
    requires SysInv(w, s) && c in s.db.outbox && s.db.outbox[c].state == Confirmed
    ensures var outbox := DoHandleEvent(w, s, fetch).db.outbox; c in outbox && outbox[c].state == Confirmed
  {
    if s.net.events != [] {
      var f := s.net.events[0];
      assert AnyFrame(s.net, f) && FrameInv(w, s.server.log, s.db.messages, f);
      ApplyStillConfirmed(w, s, f.groupId, f.batch, fetch, c);
    }
    hide SysInv, ApplyIncoming, FrameInv;
  }

  lemma PullStillConfirmed(w: World, s: Sys, fetch: Fetch, c: string)
    requires SysInv(w, s) && c in s.db.outbox && s.db.outbox[c].state == Confirmed
    ensures var outbox := DoHandlePull(w, s, fetch).db.outbox; c in outbox && outbox[c].state == Confirmed
  {
    if s.net.pulls != [] {
      var f := s.net.pulls[0];
      assert AnyFrame(s.net, f) && FrameInv(w, s.server.log, s.db.messages, f);
      ApplyStillConfirmed(w, s, f.groupId, f.batch, fetch, c);
    }
    hide SysInv, ApplyIncoming, FrameInv;
  }

  lemma StillConfirmed(w: World, s: Sys, a: Action, c: string)
    requires SysInv(w, s)
    requires c in s.db.outbox && s.db.outbox[c].state == Confirmed && c in Next(w, s, a).db.outbox
    ensures Next(w, s, a).db.outbox[c].state == Confirmed
  {
    hide SysInv, DoLocal, DoDispatch, DoServer, DoReceive, DoHandleEvent, DoHandlePull, DoOlderPage, BatchOf,
         ApplyIncoming;
    if IsDispatch(a) {
      DispatchStillConfirmed(w, s, a, c);
    } else if a.HandleEvent? {
      EventStillConfirmed(w, s, a.fetch, c);
    } else if a.HandlePull? {
      PullStillConfirmed(w, s, a.fetch, c);
    } else if a.History? {
      if BatchOf(s.server.log, a.groupId, a.batch) {
        ApplyStillConfirmed(w, s, a.groupId, a.batch, a.fetch, c);
      }
    } else if IsLocal(a) {
      LocalStillConfirmed(s, a, c);
    } else {
      OthersKeepOutbox(w, s, a);
    }
  }

  /** The server, the queues and older pages leave the outbox alone. */
  lemma OthersKeepOutbox(w: World, s: Sys, a: Action)
    requires !IsLocal(a) && !IsDispatch(a) && !a.HandleEvent? && !a.HandlePull? && !a.History?
    ensures Next(w, s, a).db.outbox == s.db.outbox
  {
    hide DoLocal, DoDispatch, DoHandleEvent, DoHandlePull, DoHistory, BatchOf, NextBatch, InsertAll, CanAppend;
  }

  lemma LocalStillConfirmed(s: Sys, a: Action, c: string)
    requires c in s.db.outbox && s.db.outbox[c].state == Confirmed && c in DoLocal(s, a).db.outbox
    ensures DoLocal(s, a).db.outbox[c].state == Confirmed
  {
  }
}
