/** The SQLite store: its tables as fields, one method per statement or transaction. */
module SqliteStores {
  import opened Entities
  import opened Reconciler
  import opened Tables
  import opened OutboxRules

  datatype StoreOutcome = StoreOutcome(plan: ReconcilePlan, inserted: int)

  class SqliteStore {
    var groups: map<string, bool>
    var messages: map<string, Message>
    var outbox: map<string, OutboxRow>

    function Db(): Db
      reads this
    {
      Tables.Db(groups, messages, outbox)
    }

    /** A fresh database. */
    constructor ()
      ensures Db() == Tables.Db(map[], map[], map[])
    {
      groups, messages, outbox := map[], map[], map[];
    }

    // ---- groups ----

    method UpsertGroup(groupId: string)
      modifies this
      ensures Db() == old(Db()).(groups := old(groups)[groupId := false])
    {
      groups := groups[groupId := false];
    }

    method MarkGroupDeleted(groupId: string)
      modifies this
      ensures Db() == old(Db()).(groups := if groupId in old(groups) then old(groups)[groupId := true] else old(groups))
    {
      if groupId in groups {
        groups := groups[groupId := true];
      }
    }

    // ---- messages ----

    /** `INSERT OR IGNORE` row by row; returns how many rows were written. */
    method InsertMessages(ms: seq<Message>) returns (n: int)
      modifies this
      ensures Db() == old(Db()).(messages := InsertAll(old(messages), ms))
      ensures n == Written(old(messages), ms)
    {
      n := 0;
      for i := 0 to |ms|
        invariant messages == InsertAll(old(messages), ms[..i])
        invariant groups == old(groups) && outbox == old(outbox)
        invariant n == Written(old(messages), ms[..i])
      {
        assert ms[..i + 1][..i] == ms[..i];
        if CanInsert(messages, ms[i]) {
          messages := messages[ms[i].id := ms[i]];
          n := n + 1;
        }
      }
      assert ms[..|ms|] == ms;
    }

    method RedactMessages(groupId: string, upTo: int)
      modifies this
      ensures Db() == old(Db()).(messages := Redact(old(messages), groupId, upTo))
    {
      messages := Redact(messages, groupId, upTo);
    }

    /** Reconcile, insert and confirm echoes in one transaction. */
    method StoreIncomingBatch(groupId: string, batch: seq<Message>) returns (r: StoreOutcome)
      modifies this
      ensures Db() == StoreBatch(old(Db()), groupId, batch)
      ensures r.plan == BatchPlan(old(Db()), groupId, batch)
      ensures r.inserted == Written(old(messages), r.plan.toInsert)
    {
      if batch == [] {
        return StoreOutcome(EMPTY_PLAN, 0);
      }
      var state := ReconcileState(ExistingIds(messages, groupId, batch), ExistingSeqs(messages, groupId, batch),
                                  Unconfirmed(outbox, groupId));
      var plan := Reconcile(batch, state);
      assert plan == BatchPlan(Db(), groupId, batch);
      hide Plan, BatchPlan, InsertAll, ExistingIds, ExistingSeqs, Unconfirmed;
      var inserted := InsertMessages(plan.toInsert);
      ConfirmEchoes(plan.echoConfirmations);
      r := StoreOutcome(plan, inserted);
    }

    /** Confirm the echoed rows one after the other. */
    method ConfirmEchoes(echoes: seq<EchoConfirmation>)
      modifies this
      ensures Db() == old(Db()).(outbox := ConfirmAll(old(outbox), echoes))
    {
      for i := 0 to |echoes|
        invariant outbox == ConfirmAll(old(outbox), echoes[..i])
        invariant groups == old(groups) && messages == old(messages)
      {
        assert echoes[..i + 1][..i] == echoes[..i];
        var e := echoes[i];
        ConfirmSentRow(e.clientMessageId, e.serverId, e.seqNo);
      }
      assert echoes[..|echoes|] == echoes;
    }

    // ---- outbox ----

    /** `INSERT OR IGNORE` on the primary key. */
    method InsertOutbox(row: OutboxRow)
      modifies this
      ensures row.clientMessageId in old(outbox) ==> Db() == old(Db())
      ensures row.clientMessageId !in old(outbox) ==>
                Db() == old(Db()).(outbox := old(outbox)[row.clientMessageId := row])
    {
      if row.clientMessageId !in outbox {
        outbox := outbox[row.clientMessageId := row];
      }
    }

    method ConfirmSentRow(c: string, serverId: string, seqNo: int)
      modifies this
      ensures Db() == old(Db()).(outbox := ConfirmSent(old(outbox), c, serverId, seqNo))
    {
      if c in outbox {
        outbox := outbox[c := outbox[c].(state := Confirmed, errorCode := None, nextAttemptAt := None,
                                         confirmedMessageId := Some(serverId), confirmedSeq := Some(seqNo))];
      }
    }

    method MarkInFlightRow(c: string, at: int)
      modifies this
      ensures Db() == old(Db()).(outbox := MarkInFlight(old(outbox), c, at))
    {
      if c in outbox && outbox[c].state != Confirmed {
        outbox := outbox[c := outbox[c].(state := InFlight, lastAttemptAt := Some(at))];
      }
    }

    method MarkRejectedRow(c: string, code: string)
      modifies this
      ensures Db() == old(Db()).(outbox := MarkRejected(old(outbox), c, code))
    {
      if c in outbox && outbox[c].state != Confirmed {
        outbox := outbox[c := outbox[c].(state := Pending, errorCode := Some(code), nextAttemptAt := None,
                                         attemptCount := outbox[c].attemptCount + 1)];
      }
    }

    method RescheduleRow(c: string, nextAt: int, code: Option<string>)
      modifies this
      ensures Db() == old(Db()).(outbox := Reschedule(old(outbox), c, nextAt, code))
    {
      if c in outbox && outbox[c].state != Confirmed {
        outbox := outbox[c := outbox[c].(state := Pending, errorCode := code, nextAttemptAt := Some(nextAt),
                                         attemptCount := outbox[c].attemptCount + 1)];
      }
    }

    method RetryRow(c: string, now: int)
      modifies this
      ensures Db() == old(Db()).(outbox := Retry(old(outbox), c, now))
    {
      if c in outbox && outbox[c].state != Confirmed {
        outbox := outbox[c := outbox[c].(state := Pending, errorCode := None, nextAttemptAt := Some(now))];
      }
    }

    method DeleteRow(c: string)
      modifies this
      ensures Db() == old(Db()).(outbox := old(outbox) - {c})
    {
      outbox := outbox - {c};
    }

    method PurgeOldConfirmed(before: int)
      modifies this
      ensures Db() == old(Db()).(outbox := PurgeConfirmed(old(outbox), before))
    {
      outbox := map c | c in outbox && !(outbox[c].state == Confirmed && outbox[c].createdAt < before) :: outbox[c];
    }

    method RedactConfirmedOutbox()
      modifies this
      ensures Db() == old(Db()).(outbox := RedactConfirmed(old(outbox)))
    {
      outbox := map c | c in outbox :: if outbox[c].state == Confirmed then outbox[c].(body := "") else outbox[c];
    }

    /** Run when the database is opened; reports how many rows each UPDATE changed. */
    method RepairOutbox(now: int) returns (fixed: int, scheduled: int)
      modifies this
      ensures Db() == old(Db()).(outbox := Repair(old(outbox), now))
      ensures forall c | c in outbox :: RepairedAs(old(outbox)[c], outbox[c], now)
      ensures fixed == |set c | c in old(outbox) && Clobbered(old(outbox)[c])|
      ensures scheduled == |set c | c in old(outbox) && Unread(old(outbox)[c])|
      ensures (forall c | c in old(outbox) :: RowOk(old(outbox)[c])) ==> fixed == 0
    {
      RepairTouches(outbox, now);
      RepairLeavesWellAlone(outbox);
      ghost var was := outbox;
      hide RepairState, RepairSchedule, Clobbered, Unread, RepairedAs, RowOk;
      var broken := set c | c in outbox && RepairState(outbox[c]) != outbox[c];
      fixed := |broken|;
      outbox := map c | c in outbox :: RepairState(outbox[c]);
      var unread := set c | c in outbox && RepairSchedule(outbox[c], now) != outbox[c];
      scheduled := |unread|;
      assert unread == set c | c in was && RepairSchedule(RepairState(was[c]), now) != RepairState(was[c]);
      outbox := map c | c in outbox :: RepairSchedule(outbox[c], now);
      assert outbox == Repair(was, now);
    }

    /** Among the due rows, one created first. */
    method NextDispatchable(now: int, staleBefore: int) returns (r: Option<OutboxRow>)
      ensures r.None? <==> forall c | c in outbox :: !Dispatchable(outbox[c], now, staleBefore)
      ensures r.Some? ==> exists c :: c in outbox && outbox[c] == r.value && Dispatchable(r.value, now, staleBefore)
      ensures r.Some? ==> forall c | c in outbox && Dispatchable(outbox[c], now, staleBefore) ::
                            r.value.createdAt <= outbox[c].createdAt
    {
      r := None;
      var rest := outbox.Keys;
      while rest != {}
        invariant rest <= outbox.Keys
        invariant r.None? ==> forall c | c in outbox && c !in rest :: !Dispatchable(outbox[c], now, staleBefore)
        invariant r.Some? ==> exists c :: c in outbox && outbox[c] == r.value && Dispatchable(r.value, now, staleBefore)
        invariant r.Some? ==> forall c | c in outbox && c !in rest && Dispatchable(outbox[c], now, staleBefore) ::
                                r.value.createdAt <= outbox[c].createdAt
      {
        var c :| c in rest;
        rest := rest - {c};
        if Dispatchable(outbox[c], now, staleBefore) && (r.None? || outbox[c].createdAt < r.value.createdAt) {
          r := Some(outbox[c]);
        }
      }
    }

    /** Minimum over the scheduled retries after `now` and the in-flight rows' staleness instants. */
    method EarliestNextAttempt(now: int) returns (r: Option<int>)
      ensures IsEarliest(outbox, now, r)
    {
      hide WakesAt;
      r := None;
      var rest := outbox.Keys;
      while rest != {}
        invariant rest <= outbox.Keys
        invariant forall c, t | c in outbox && c !in rest && WakesAt(outbox[c], now, t) :: r.Some? && r.value <= t
        invariant r.Some? ==> exists c :: c in outbox && WakesAt(outbox[c], now, r.value)
      {
        var c :| c in rest;
        rest := rest - {c};
        var t := WakeInstant(outbox[c], now);
        if t.Some? && (r.None? || t.value < r.value) {
          r := t;
        }
      }
    }

    /** The rows of a group that wait for the user, oldest first, each once. */
    method FailedOutbox(groupId: string) returns (r: seq<OutboxRow>)
      ensures forall row :: row in r <==> exists c :: c in WaitingRows(outbox, groupId) && outbox[c] == row
      ensures |r| == |WaitingRows(outbox, groupId)|
      ensures OldestFirst(r)
    {
      r := [];
      var all := WaitingRows(outbox, groupId);
      var rest := all;
      while rest != {}
        invariant rest <= all
        invariant forall row :: row in r <==> exists c :: c in all - rest && outbox[c] == row
        invariant |r| == |all| - |rest|
        invariant OldestFirst(r)
      {
        var c :| c in rest;
        InsertOldestFirst(r, outbox[c]);
        ghost var was := all - rest;
        r := InsertByCreated(r, outbox[c]);
        rest := rest - {c};
        assert forall d :: d in all - rest <==> d in was || d == c;
      }
    }
  }

  /** Delivered, though the row does not say so. */
  predicate Clobbered(row: OutboxRow) {
    row.confirmedSeq.Some? && row.state != Confirmed
  }

  /** Waiting for the user, undelivered, only because a reply could not be read. */
  predicate Unread(row: OutboxRow) {
    && row.state == Pending && row.confirmedSeq.None? && row.nextAttemptAt.None?
    && (row.errorCode == Some("json") || row.errorCode == Some("client-message-id-reused"))
  }

  /** The first kind is confirmed, the second due exactly from now on, any other row left alone. */
  ghost predicate RepairedAs(before: OutboxRow, after: OutboxRow, now: int) {
    && (Clobbered(before) ==>
          && after == before.(state := Confirmed, errorCode := None, nextAttemptAt := None)
          && forall t :: !DueAt(after, t))
    && (Unread(before) ==> after == before.(nextAttemptAt := Some(now)) && DueFrom(after, now))
    && (!Clobbered(before) && !Unread(before) ==> after == before)
  }

  lemma RepairTouches(outbox: map<string, OutboxRow>, now: int)
    ensures Repair(outbox, now).Keys == outbox.Keys
    ensures forall c | c in outbox :: RepairedAs(outbox[c], Repair(outbox, now)[c], now)
    ensures (set c | c in outbox && RepairState(outbox[c]) != outbox[c]) == set c | c in outbox && Clobbered(outbox[c])
    ensures (set c | c in outbox && RepairSchedule(RepairState(outbox[c]), now) != RepairState(outbox[c]))
        == set c | c in outbox && Unread(outbox[c])
  {
    forall c | c in outbox
      ensures RepairState(outbox[c]) != outbox[c] <==> Clobbered(outbox[c])
      ensures RepairSchedule(RepairState(outbox[c]), now) != RepairState(outbox[c]) <==> Unread(outbox[c])
      ensures RepairedAs(outbox[c], RepairSchedule(RepairState(outbox[c]), now), now)
    {
      RepairOne(outbox[c], now);
    }
    hide RepairState, RepairSchedule, Clobbered, Unread, RepairedAs;
  }

  lemma RepairOne(row: OutboxRow, now: int)
    ensures RepairState(row) != row <==> Clobbered(row)
    ensures RepairSchedule(RepairState(row), now) != RepairState(row) <==> Unread(row)
    ensures RepairedAs(row, RepairSchedule(RepairState(row), now), now)
  {
  }

  lemma RepairLeavesWellAlone(outbox: map<string, OutboxRow>)
    ensures (forall c | c in outbox :: RowOk(outbox[c])) ==>
              (set c | c in outbox && Clobbered(outbox[c])) == {}
  {
  }

  function WaitingRows(outbox: map<string, OutboxRow>, groupId: string): set<string> {
    set c | c in outbox && outbox[c].groupId == groupId && ListedFailed(outbox[c])
  }

  ghost predicate OldestFirst(rows: seq<OutboxRow>) {
    forall i, j | 0 <= i < j < |rows| :: rows[i].createdAt <= rows[j].createdAt
  }

  function InsertByCreated(rows: seq<OutboxRow>, row: OutboxRow): seq<OutboxRow> {
    if |rows| > 0 && rows[|rows| - 1].createdAt > row.createdAt
    then InsertByCreated(rows[..|rows| - 1], row) + [rows[|rows| - 1]]
    else rows + [row]
  }

  lemma {:induction false} InsertOldestFirst(rows: seq<OutboxRow>, row: OutboxRow)
    requires OldestFirst(rows)
    ensures OldestFirst(InsertByCreated(rows, row)) && |InsertByCreated(rows, row)| == |rows| + 1
    ensures forall x :: x in InsertByCreated(rows, row) <==> x in rows || x == row
  {
    if |rows| > 0 && rows[|rows| - 1].createdAt > row.createdAt {
      var init, last := rows[..|rows| - 1], rows[|rows| - 1];
      assert rows == init + [last];
      InsertOldestFirst(init, row);
      var r := InsertByCreated(init, row);
      forall i | 0 <= i < |r| ensures r[i].createdAt <= last.createdAt {
        assert r[i] in r;
      }
    }
  }
}
