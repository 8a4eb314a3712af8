/** One concrete run, showing that the guards of the machine can all be passed and what a lost reply leads to. */
module Scenario {
  import opened Entities
  import opened Reconciler
  import opened Tables
  import opened ServerLog
  import opened Sync
  import opened System

  lemma RunAppend(w: World, actions: seq<Action>, a: Action)
    ensures Run(w, actions + [a]) == Next(w, Run(w, actions), a)
  {
    assert (actions + [a])[..|actions|] == actions;
  }

  lemma Enqueued(w: World, c: string, g: string, body: string, now: int) returns (t: Sys)
    ensures t == Next(w, Init(), Enqueue(c, g, body, now))
    ensures t == Init().(db := Db(map[], map[], map[c := NewRow(c, g, body, now)]),
                         past := Past({}, map[c := Post(c, g, body)], {}))
  {
    t := DoLocal(Init(), Enqueue(c, g, body, now));
  }

  lemma PickedAndMarked(w: World, s: Sys, c: string, now: int) returns (t: Sys)
    requires s.phase == Resting && c in s.db.outbox && s.db.outbox[c].state == Pending
    requires s.db.outbox[c].clientMessageId == c && s.db.outbox[c].nextAttemptAt.None? && s.db.outbox[c].errorCode.None?
    ensures t == Next(w, Next(w, s, Pick(c, now)), Mark(now))
    ensures t == s.(db := s.db.(outbox := MarkInFlight(s.db.outbox, c, now)), phase := Marked(s.db.outbox[c]))
  {
    hide DoLocal, DoServer, DoReceive, DoReply, MarkInFlight;
    var picked := s.(phase := Picked(s.db.outbox[c]));
    assert Next(w, s, Pick(c, now)) == picked;
    t := Next(w, picked, Mark(now));
  }

  lemma SentAndStored(w: World, s: Sys, row: OutboxRow, m: Message) returns (t: Sys)
    requires s.phase == Marked(row) && s.server.log == map[] && s.server.nextSeq == map[] && row.body !in w.commands
    requires m == Message("m1", row.groupId, 1, "me", row.body, Some(row.clientMessageId), m.createdAt)
    ensures var post := Post(row.clientMessageId, row.groupId, row.body);
            && t == Next(w, Next(w, s, Send), StorePost(post, "m1", 1, "me", row.body, m.createdAt))
            && t == s.(past := s.past.(posts := s.past.posts + {post}), phase := Posted(row),
                       server := Append(s.server, m))
  {
    hide DoLocal, DoReceive, DoReply;
    var post := Post(row.clientMessageId, row.groupId, row.body);
    var sent := s.(past := s.past.(posts := s.past.posts + {post}), phase := Posted(row));
    assert Next(w, s, Send) == sent;
    assert CanAppend(sent, m);
    t := Next(w, sent, StorePost(post, "m1", 1, "me", row.body, m.createdAt));
  }

  /** The outgoing half with the reply lost: the server has the message, the row stays in flight. */
  lemma SentButUnanswered(w: World, c: string, g: string, body: string, m: Message, now: int) returns (t: Sys)
    requires body !in w.commands && m == Message("m1", g, 1, "me", body, Some(c), now)
    ensures t == Next(w, Next(w, Next(w, Next(w, Next(w, Next(w, Init(), Enqueue(c, g, body, now)), Pick(c, now)),
                   Mark(now)), Send), StorePost(Post(c, g, body), "m1", 1, "me", body, now)), Abort)
    ensures t.db == Db(map[], map[], map[c := NewRow(c, g, body, now).(state := InFlight, lastAttemptAt := Some(now))])
    ensures t.server.log == map["m1" := m] && t.phase == Resting && t.net == Init().net && t.server.cursor == map[]
    ensures t.server.inflight == map[] && t.past.reported == {} && t.past.posts == {Post(c, g, body)}
  {
    var s1 := Enqueued(w, c, g, body, now);
    hide DoLocal;
    var s3 := PickedAndMarked(w, s1, c, now);
    var s5 := SentAndStored(w, s3, NewRow(c, g, body, now), m);
    AbortOnly(w, s5);
    hide Next;
    t := Next(w, s5, Abort);
  }

  lemma AbortOnly(w: World, s: Sys)
    ensures Next(w, s, Abort) == s.(phase := Resting)
  {}

  lemma OnlyEntry(g: string, c: string, m: Message)
    requires m.id == "m1" && m.groupId == g && m.clientMessageId == Some(c)
    ensures var log: Log := map["m1" := m];
            LogOk(log) && StoredFrom(log, map[]) && BatchOf(log, g, [m]) && Ids([m]) == {"m1"}
  {
    assert m in [m];
    assert "m1" in Ids([m]);
  }

  lemma EchoStores(db: Db, c: string, g: string, m: Message)
    requires db.messages == map[]
    requires m.id == "m1" && m.groupId == g && m.clientMessageId == Some(c)
    ensures StoreBatch(db, g, [m]).messages == map["m1" := m]
  {
    OnlyEntry(g, c, m);
    hide StoreBatch, LogOk, StoredFrom, BatchOf, Ids;
    StoreBatchMessages(map["m1" := m], db, g, [m]);
  }

  /** Storing the echo of the only, unanswered row confirms it, and reports nothing new. */
  lemma EchoConfirms(db: Db, c: string, g: string, row: OutboxRow, m: Message)
    requires db.messages == map[] && db.outbox == map[c := row] && row.groupId == g && row.state != Confirmed
    requires m.id == "m1" && m.groupId == g && m.clientMessageId == Some(c)
    ensures StoreBatch(db, g, [m]).outbox == map[c := ConfirmRow(row, "m1", m.seqNo)]
    ensures BatchPlan(db, g, [m]).newMessageIds == []
  {
    var log: Log := map["m1" := m];
    OnlyEntry(g, c, m);
    IsEchoOf(db, c, g, row, m);
    EchoIsNoNews(db, c, g, row, m);
    hide StoreBatch, BatchPlan, LogOk, StoredFrom, BatchOf, Ids, Echoes, ConfirmRow;
    StoreBatchOutbox(log, db, g, [m]);
    var after := StoreBatch(db, g, [m]).outbox;
    assert after.Keys == {c} && after[c] == ConfirmRow(row, "m1", m.seqNo);
  }

  lemma IsEchoOf(db: Db, c: string, g: string, row: OutboxRow, m: Message)
    requires db.messages == map[] && db.outbox == map[c := row] && row.groupId == g && row.state != Confirmed
    requires m.id == "m1" && m.groupId == g && m.clientMessageId == Some(c)
    ensures Echoes(db, g, [m], m, c)
  {
    assert m in [m];
  }

  lemma EchoIsNoNews(db: Db, c: string, g: string, row: OutboxRow, m: Message)
    requires db.messages == map[] && db.outbox == map[c := row] && row.groupId == g && row.state != Confirmed
    requires m.id == "m1" && m.groupId == g && m.clientMessageId == Some(c)
    ensures BatchPlan(db, g, [m]).newMessageIds == []
  {
    OnlyEntry(g, c, m);
    assert c in Unconfirmed(db.outbox, g);
    hide BatchPlan, LogOk, StoredFrom, BatchOf, Ids, Unconfirmed;
    if BatchPlan(db, g, [m]).newMessageIds != [] {
      ReportedIsNews(map["m1" := m], db, g, [m], BatchPlan(db, g, [m]).newMessageIds[0]);
    }
  }

  lemma PushedAndReceived(w: World, t: Sys, c: string, g: string, m: Message) returns (u: Sys)
    requires m.id == "m1" && m.groupId == g && m.seqNo == 1 && m.clientMessageId == Some(c)
    requires t.server.log == map["m1" := m] && t.net == Init().net && t.server.cursor == map[]
        && t.server.inflight == map[]
    ensures u == Next(w, Next(w, Next(w, t, Connect), Push(g, [m])), Receive)
    ensures u.net == t.net.(events := [Frame(g, [m])]) && u.db == t.db && u.past == t.past
    ensures u.server.cursor == map[] && u.server.connected
  {
    var t1 := Next(w, t, Connect);
    OnlyEntry(g, c, m);
    assert NextBatch(t1.server.log, g, 0, [m]) by { assert m in [m]; }
    hide NextBatch;
    var t2 := Next(w, t1, Push(g, [m]));
    assert t2.net.wire == [Frame(g, [m])];
    u := Next(w, t2, Receive);
  }

  lemma AppliedEcho(db: Db, c: string, g: string, row: OutboxRow, m: Message)
    requires db == Db(map[], map[], map[c := row]) && row.groupId == g && row.state == InFlight
    requires m.id == "m1" && m.groupId == g && m.seqNo == 1 && m.clientMessageId == Some(c)
    ensures ApplyIncoming(db, g, [m], Found)
            == Applied(Db(map[g := false], map["m1" := m], map[c := ConfirmRow(row, "m1", 1)]), Some(1), [])
  {
    var known := db.(groups := map[g := false]);
    EchoStores(known, c, g, m);
    EchoConfirms(known, c, g, row, m);
    GroupsStay(known, g, [m]);
    AckOfOne(m);
    hide StoreBatch, BatchPlan, AckSeq;
    assert db.groups[g := false] == map[g := false];
  }

  lemma HandledEcho(w: World, t: Sys, c: string, g: string, row: OutboxRow, m: Message)
    requires t.db == Db(map[], map[], map[c := row]) && row.groupId == g && row.state == InFlight
    requires m.id == "m1" && m.groupId == g && m.seqNo == 1 && m.clientMessageId == Some(c)
    requires t.net == Init().net.(events := [Frame(g, [m])])
    ensures var u := Next(w, t, HandleEvent(Found));
            && u.db == Db(map[g := false], map["m1" := m], map[c := ConfirmRow(row, "m1", 1)])
            && u.net == Init().net.(outbound := [Ack(g, 1)])
            && u.server == t.server && u.past.reported == t.past.reported && u.past.posts == t.past.posts
  {
    AppliedEcho(t.db, c, g, row, m);
    HandlesOnlyEvent(w, t, Frame(g, [m]));
    hide ApplyIncoming, Next;
  }

  lemma HandlesOnlyEvent(w: World, t: Sys, f: Frame)
    requires t.net.events == [f]
    ensures var r := ApplyIncoming(t.db, f.groupId, f.batch, Found);
            Next(w, t, HandleEvent(Found))
            == Applying(t, r).(net := t.net.(events := [], outbound := t.net.outbound + AckList(f.groupId, r.ack)))
  {
    hide ApplyIncoming, Applying, DoLocal, DoDispatch, DoServer, DoReceive, DoHandlePull, DoHistory, DoOlderPage;
    assert [f][1..] == [];
  }

  lemma AckOfOne(m: Message)
    requires m.seqNo == 1
    ensures AckSeq([m]) == Some(1)
  {
    assert [m][..0] == [];
    assert MaxSeq([m]) == Some(1);
  }

  lemma GroupsStay(db: Db, g: string, batch: seq<Message>)
    ensures StoreBatch(db, g, batch).groups == db.groups
  {}

  lemma AckDelivered(w: World, t: Sys, g: string) returns (u: Sys)
    requires t.net == Init().net.(outbound := [Ack(g, 1)]) && t.server.cursor == map[] && t.server.connected
    ensures u == Next(w, Next(w, t, SendAck), AckArrives)
    ensures u.db == t.db && u.past == t.past && u.server.cursor == map[g := 1]
  {
    var t1 := Next(w, t, SendAck);
    assert t1.net.ackWire == [Ack(g, 1)] && t1.server == t.server && t1.db == t.db;
    u := Next(w, t1, AckArrives);
  }

  /** The incoming half: the echo confirms the row, nothing is reported new, and the ack moves the cursor. */
  lemma EchoHealsTheRow(w: World, t: Sys, c: string, g: string, row: OutboxRow, m: Message) returns (u: Sys)
    requires t.db == Db(map[], map[], map[c := row]) && row.groupId == g && row.state == InFlight
    requires m.id == "m1" && m.groupId == g && m.seqNo == 1 && m.clientMessageId == Some(c)
    requires t.server.log == map["m1" := m] && t.net == Init().net && t.server.cursor == map[]
        && t.server.inflight == map[]
    ensures u == Next(w, Next(w, Next(w, Next(w, Next(w, Next(w, t, Connect), Push(g, [m])), Receive),
        HandleEvent(Found)), SendAck),
                      AckArrives)
    ensures u.db == Db(map[g := false], map["m1" := m], map[c := ConfirmRow(row, "m1", 1)])
    ensures u.server.cursor == map[g := 1] && u.past.reported == t.past.reported && u.past.posts == t.past.posts
  {
    var t3 := PushedAndReceived(w, t, c, g, m);
    HandledEcho(w, t3, c, g, row, m);
    hide Next;
    u := AckDelivered(w, Next(w, t3, HandleEvent(Found)), g);
  }

  ghost predicate SentOnce(actions: seq<Action>) {
    exists i :: 0 <= i < |actions| && actions[i].Send? && forall j | 0 <= j < |actions| && j != i :: !actions[j].Send?
  }

  function SendScript(c: string, g: string, body: string, now: int): (six: seq<Action>)
    ensures |six| == 6 && forall i | 0 <= i < 6 :: (six[i].Send? <==> i == 3) && !six[i].Reply?
  {
    [Enqueue(c, g, body, now), Pick(c, now), Mark(now), Send,
     StorePost(Post(c, g, body), "m1", 1, "me", body, now), Abort]
  }

  function EchoScript(g: string, m: Message): (six: seq<Action>)
    ensures |six| == 6 && forall i | 0 <= i < 6 :: !six[i].Send? && !six[i].Reply?
  {
    [Connect, Push(g, [m]), Receive, HandleEvent(Found), SendAck, AckArrives]
  }

  lemma OneRequestNoReply(c: string, g: string, body: string, now: int, m: Message)
    ensures var actions := SendScript(c, g, body, now) + EchoScript(g, m);
            SentOnce(actions) && forall a | a in actions :: !a.Reply?
  {
    hide SendScript, EchoScript;
    var out, back := SendScript(c, g, body, now), EchoScript(g, m);
    var actions := out + back;
    assert actions[3] == out[3];
    forall i | 0 <= i < 12 ensures (actions[i].Send? <==> i == 3) && !actions[i].Reply? {
      assert actions[i] == if i < 6 then out[i] else back[i - 6];
    }
  }

  /**
   * A row whose reply is lost is confirmed by its echo: in a run with one request, which the server stored,
   * and no reply at all, the row ends up confirmed, the message stored and acknowledged, nothing reported new.
   */
  lemma {:induction false} LostReplyIsHealed(w: World, c: string, g: string, body: string, now: int)
    returns (actions: seq<Action>)
    requires body !in w.commands
    ensures SentOnce(actions) && forall a | a in actions :: !a.Reply?
    ensures var s := Run(w, actions);
            && s.past.posts == {Post(c, g, body)}
            && c in s.db.outbox && s.db.outbox[c].state == Confirmed && s.db.outbox[c].confirmedSeq == Some(1)
            && s.db.messages.Keys == {"m1"} && s.server.cursor == map[g := 1] && s.past.reported == {}
  {
    var m := Message("m1", g, 1, "me", body, Some(c), now);
    var out, back := SendScript(c, g, body, now), EchoScript(g, m);
    OneRequestNoReply(c, g, body, now, m);
    actions := out + back;
    hide Next, Run, SentOnce;
    var t := SentButUnanswered(w, c, g, body, m, now);
    var u := EchoHealsTheRow(w, t, c, g, t.db.outbox[c], m);
    assert [] + out == out;
    assert Run(w, []) == Init() by { RunNothing(w); }
    RunSix(w, [], out);
    assert Run(w, out) == t;
    hide SendScript;
    RunSix(w, out, back);
    assert Run(w, actions) == u;
  }

  lemma RunNothing(w: World)
    ensures Run(w, []) == Init()
  {}

  lemma RunSix(w: World, before: seq<Action>, six: seq<Action>)
    requires |six| == 6
    ensures Run(w, before + six)
            == Next(w, Next(w, Next(w, Next(w, Next(w, Next(w, Run(w, before), six[0]), six[1]), six[2]), six[3]),
                six[4]), six[5])
  {
    hide Next, Run;
    RunAppend(w, before, six[0]);
    RunAppend(w, before + [six[0]], six[1]);
    RunAppend(w, before + [six[0]] + [six[1]], six[2]);
    RunAppend(w, before + [six[0]] + [six[1]] + [six[2]], six[3]);
    RunAppend(w, before + [six[0]] + [six[1]] + [six[2]] + [six[3]], six[4]);
    RunAppend(w, before + [six[0]] + [six[1]] + [six[2]] + [six[3]] + [six[4]], six[5]);
    assert before + six == before + [six[0]] + [six[1]] + [six[2]] + [six[3]] + [six[4]] + [six[5]];
  }
}
