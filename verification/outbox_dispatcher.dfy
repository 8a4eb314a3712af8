/** Draining the outbox through `POST /v1/groups/{id}/messages`. */
module OutboxDispatchers {
  import opened Entities
  import opened Reconciler
  import opened Tables
  import opened OutboxRules
  import opened SqliteStores
  import opened Text

  const MAX_UNDECODABLE_ATTEMPTS := 5
  const FALLBACK_POLL := 15000

  /** What one iteration found before sending anything. */
  datatype Step = Dispatch(row: OutboxRow) | Idle | WaitUntil(at: int)

  /** How the POST ended, as the dispatcher sees it. */
  datatype SendOutcome =
    | Stored(message: Message)
    | Command
    | Undecodable
    | Retryable(code: string, retryAfterMs: Option<int>)
    | Refused(code: string)

  /** The second half of `step`: what the tables become once the reply is in. */
  function Settle(db: Db, row: OutboxRow, outcome: SendOutcome, now: int, delay: int): Db {
    var c := row.clientMessageId;
    match outcome
    case Stored(m) =>
      var mid := StoreBatch(db, row.groupId, [m]);
      mid.(outbox := ConfirmSent(mid.outbox, c, m.id, m.seqNo))
    case Command => db.(outbox := db.outbox - {c})
    case Undecodable =>
      if row.attemptCount >= MAX_UNDECODABLE_ATTEMPTS then db.(outbox := MarkRejected(db.outbox, c, "json"))
      else db.(outbox := Reschedule(db.outbox, c, now + delay, Some("json")))
    case Retryable(code, retryAfter) =>
      var wait := if retryAfter.Some? then retryAfter.value else delay;
      db.(outbox := Reschedule(db.outbox, c, now + wait, Some(code)))
    case Refused(code) => db.(outbox := MarkRejected(db.outbox, c, code))
  }

  /** The outcome leaves the row to the user: refused, or unreadable for the last of a few times. */
  predicate GivesUp(row: OutboxRow, outcome: SendOutcome) {
    outcome.Refused? || (outcome.Undecodable? && row.attemptCount >= 5)
  }

  function ErrorCode(outcome: SendOutcome): string
    requires outcome.Refused? || outcome.Retryable? || outcome.Undecodable?
  {
    match outcome
    case Refused(code) => code
    case Retryable(code, _) => code
    case Undecodable => "json"
  }

  /**
   * A failed attempt, on its row. One confirmed meanwhile is untouched. An open one is due again exactly
   * from the requested or drawn delay on, or waits for the user; it names the error, has one more attempt,
   * and is the same message otherwise.
   */
  ghost predicate FailedAs(before: OutboxRow, after: OutboxRow, row: OutboxRow, outcome: SendOutcome, now: int,
                           delay: int)
    requires outcome.Refused? || outcome.Retryable? || outcome.Undecodable?
  {
    var wait := if outcome.Retryable? && outcome.retryAfterMs.Some? then outcome.retryAfterMs.value else delay;
    && (before.state == Confirmed ==> after == before)
    && (before.state != Confirmed ==>
          && SameMessage(before, after) && after.attemptCount == before.attemptCount + 1
          && after.errorCode == Some(ErrorCode(outcome))
          && (if GivesUp(row, outcome) then ListedFailed(after) else DueFrom(after, now + wait)))
  }

  lemma FailedAttemptMeans(db: Db, row: OutboxRow, outcome: SendOutcome, now: int, delay: int)
    requires outcome.Refused? || outcome.Retryable? || outcome.Undecodable?
    ensures var c, after := row.clientMessageId, Settle(db, row, outcome, now, delay);
            && after == db.(outbox := after.outbox) && OnlyRow(db.outbox, after.outbox, c)
            && (c in db.outbox ==> FailedAs(db.outbox[c], after.outbox[c], row, outcome, now, delay))
  {
  }

  /** An executed command: its row is gone, everything else is as it was. */
  ghost predicate OnlyRowGone(before: Db, after: Db, c: string) {
    && after.messages == before.messages && after.groups == before.groups
    && (forall k :: k in after.outbox <==> k in before.outbox && k != c)
    && (forall k | k in after.outbox :: after.outbox[k] == before.outbox[k])
  }

  /** No stored message has the id, or the group and seq, of `m`. */
  predicate IsFree(messages: map<string, Message>, m: Message) {
    m.id !in messages && forall k | k in messages :: messages[k].groupId != m.groupId || messages[k].seqNo != m.seqNo
  }

  /**
   * A stored reply: its message is in the table if there was room for it, stored messages stay as they
   * are, and the row is confirmed with the reply's id and seq. No row goes; another row changes only if
   * the message answers it.
   */
  ghost predicate StoredAs(before: Db, after: Db, row: OutboxRow, m: Message) {
    var c := row.clientMessageId;
    && after.groups == before.groups
    && (forall k | k in before.messages :: k in after.messages && after.messages[k] == before.messages[k])
    && (forall k | k in after.messages && k !in before.messages :: after.messages[k] == m)
    && (m.groupId == row.groupId && IsFree(before.messages, m) ==> m.id in after.messages && after.messages[m.id] == m)
    && after.outbox.Keys == before.outbox.Keys
    && (c in before.outbox ==>
          && Outgoing(after.outbox[c]) == ShownSent && SameMessage(before.outbox[c], after.outbox[c])
          && after.outbox[c].confirmedMessageId == Some(m.id) && after.outbox[c].confirmedSeq == Some(m.seqNo))
    && (forall k | k in before.outbox && k != c && m.clientMessageId != Some(k) :: after.outbox[k] == before.outbox[k])
  }

  lemma OneMessagePlan(m: Message, st: ReconcileState)
    ensures var p := Plan([m], st);
            var kept := m.id !in st.existingIds && m.seqNo !in st.existingSeqs;
            && p.toInsert == (if kept then [m] else [])
            && p.echoConfirmations
               == (if kept && IsEcho(m, st) then [EchoConfirmation(m.clientMessageId.value, m.id, m.seqNo)] else [])
            && p.newMessageIds == (if kept && !IsEcho(m, st) then [m.id] else [])
  {
    assert [m][..0] == [];
    assert KeptPrefix([m], st, 0) == [];
    assert Kept([m], st, 0) <==> m.id !in st.existingIds && m.seqNo !in st.existingSeqs;
    if Kept([m], st, 0) {
      assert KeptPrefix([m], st, 1) == [m];
      assert SortBySeq([]) == [];
      assert EchoesOf([], st) == [] && NewIdsOf([], st) == [];
    } else {
      assert KeptPrefix([m], st, 1) == [];
    }
  }

  lemma OneMessageStored(db: Db, g: string, m: Message)
    ensures var after := StoreBatch(db, g, [m]);
            && after.groups == db.groups
            && (forall k | k in db.messages :: k in after.messages && after.messages[k] == db.messages[k])
            && (forall k | k in after.messages && k !in db.messages :: after.messages[k] == m)
            && (m.groupId == g && IsFree(db.messages, m) ==> m.id in after.messages && after.messages[m.id] == m)
  {
    var st := BatchState(db, g, [m]);
    OneMessagePlan(m, st);
    var ms := BatchPlan(db, g, [m]).toInsert;
    InsertAllKeeps(db.messages, ms);
    hide Plan;
    if m.groupId == g && IsFree(db.messages, m) {
      assert ms == [m] && [m][..0] == [];
      assert InsertAll(db.messages, []) == db.messages;
    }
  }

  lemma OneMessageConfirms(db: Db, g: string, m: Message)
    ensures var after := StoreBatch(db, g, [m]).outbox;
            && after.Keys == db.outbox.Keys
            && (forall k | k in db.outbox :: SameMessage(db.outbox[k], after[k]))
            && (forall k | k in db.outbox && m.clientMessageId != Some(k) :: after[k] == db.outbox[k])
  {
    var st := BatchState(db, g, [m]);
    OneMessagePlan(m, st);
    var es := BatchPlan(db, g, [m]).echoConfirmations;
    hide Plan, BatchState, InsertAll;
    assert es[..0] == [];
    assert ConfirmAll(db.outbox, []) == db.outbox;
  }

  lemma StoredReplyMeans(db: Db, row: OutboxRow, m: Message, now: int, delay: int)
    ensures StoredAs(db, Settle(db, row, Stored(m), now, delay), row, m)
  {
    OneMessageStored(db, row.groupId, m);
    OneMessageConfirms(db, row.groupId, m);
    hide StoreBatch, IsFree;
  }

  /** How long the loop sleeps after a step, given the clock when it goes to sleep. */
  function SleepFor(step: Step, now: int): int {
    match step
    case Dispatch(_) => 0
    case Idle => FALLBACK_POLL
    case WaitUntil(at) => Min(Max(at - now, 0), FALLBACK_POLL)
  }

  /**
   * The loop sleeps as long as it may and no longer: on an unchanged table nothing is due while it sleeps,
   * and it wakes after 15 seconds or, if sooner, at the first instant at which something is due.
   */
  lemma NeverOversleeps(outbox: map<string, OutboxRow>, looked: int, r: Option<int>, asleep: int)
    requires NothingDue(outbox, looked) && IsEarliest(outbox, looked, r) && looked <= asleep
    ensures var sleep := SleepFor(if r.Some? then WaitUntil(r.value) else Idle, asleep);
            && 0 <= sleep <= 15000
            && (forall t | asleep <= t < asleep + sleep :: NothingDue(outbox, t))
            && (sleep < 15000 ==> !NothingDue(outbox, asleep + sleep))
  {
    WakeUpIsExact(outbox, looked, r);
    if r.None? {
      forall t, c | c in outbox ensures !DueAt(outbox[c], t) {
        assert outbox[c].state == Confirmed || ListedFailed(outbox[c]);
      }
    } else if r.value <= asleep {
      var c :| c in outbox && DueAt(outbox[c], r.value);
      assert DueAt(outbox[c], asleep);
    }
  }

  class OutboxDispatcher {
    const store: SqliteStore

    constructor (store: SqliteStore)
      ensures this.store == store
    {
      this.store := store;
    }

    /**
     * Queue a message under a fresh id. What is queued is the text between its outermost non-whitespace
     * characters, if that is 1 to 1000 characters long; otherwise nothing changes.
     */
    method Enqueue(groupId: string, body: string, freshId: string, now: int) returns (r: Result<OutboxRow>)
      requires freshId !in store.outbox
      modifies store
      ensures exists i, j :: TrimmedAt(body, i, j) && (r.Ok? <==> 1 <= j - i <= 1000)
                             && (r.Ok? ==> r.value.body == body[i..j])
                             && (r.Err? ==> r.code == if i == j then "empty" else "too-long")
      ensures r.Err? ==> store.Db() == old(store.Db())
      ensures r.Ok? ==>
                && store.Db() == old(store.Db()).(outbox := old(store.outbox)[freshId := r.value])
                && r.value.clientMessageId == freshId && r.value.groupId == groupId && r.value.createdAt == now
                && r.value.attemptCount == 0 && RowOk(r.value) && Outgoing(r.value) == ShownPending
                && forall t :: DueAt(r.value, t)
    {
      ghost var i, j := TrimIsSlice(body);
      var text := ValidateBody(body);
      if text.Err? {
        return Err(text.code);
      }
      var row := NewRow(freshId, groupId, text.value, now);
      store.InsertOutbox(row);
      r := Ok(row);
    }

    /** An open row is due at once, its error forgotten; a confirmed or unknown one is left alone. */
    method Retry(c: string, now: int)
      modifies store
      ensures store.Db() == old(store.Db()).(outbox := store.outbox) && OnlyRow(old(store.outbox), store.outbox, c)
      ensures Open(old(store.outbox), c) ==>
                && DueFrom(store.outbox[c], now) && Outgoing(store.outbox[c]) == ShownPending
                && store.outbox[c].body == old(store.outbox)[c].body
                && store.outbox[c].groupId == old(store.outbox)[c].groupId
      ensures !Open(old(store.outbox), c) ==> store.Db() == old(store.Db())
    {
      DueAfterTransition(store.outbox, c, now, "", None);
      store.RetryRow(c, now);
    }

    /**
     * `step` up to the POST. Either a row due at `now`, and none due was created before it, is marked
     * in flight and returned for sending; or nothing changes and the answer is the exact instant of the
     * next dispatch, or `Idle` exactly when every row is confirmed or failed for good.
     */
    method BeginStep(now: int) returns (r: Step)
      modifies store
      ensures r.Dispatch? ==>
                && (exists c :: c in old(store.outbox) && old(store.outbox)[c] == r.row)
                && DueAt(r.row, now)
                && (forall c | c in old(store.outbox) && DueAt(old(store.outbox)[c], now) ::
                      r.row.createdAt <= old(store.outbox)[c].createdAt)
                && store.Db() == old(store.Db()).(outbox := MarkInFlight(old(store.outbox), r.row.clientMessageId, now))
      ensures !r.Dispatch? ==> store.Db() == old(store.Db()) && NothingDue(store.outbox, now)
      ensures r.WaitUntil? ==>
                && r.at > now
                && (forall t | now <= t < r.at :: NothingDue(store.outbox, t))
                && !NothingDue(store.outbox, r.at)
      ensures r.Idle? ==>
                forall c | c in store.outbox :: store.outbox[c].state == Confirmed || ListedFailed(store.outbox[c])
    {
      var row := store.NextDispatchable(now, now - IN_FLIGHT_STALE);
      if row.None? {
        var at := store.EarliestNextAttempt(now);
        WakeUpIsExact(store.outbox, now, at);
        if at.Some? {
          return WaitUntil(at.value);
        }
        return Idle;
      }
      store.MarkInFlightRow(row.value.clientMessageId, now);
      r := Dispatch(row.value);
    }

    /** `step` after the POST; the tables may have changed in any way since `BeginStep`. */
    method FinishStep(row: OutboxRow, outcome: SendOutcome, now: int, delay: int)
      modifies store
      ensures store.Db() == Settle(old(store.Db()), row, outcome, now, delay)
      ensures outcome.Command? ==> OnlyRowGone(old(store.Db()), store.Db(), row.clientMessageId)
      ensures outcome.Stored? ==> StoredAs(old(store.Db()), store.Db(), row, outcome.message)
      ensures !outcome.Command? && !outcome.Stored? ==>
                && store.Db() == old(store.Db()).(outbox := store.outbox)
                && OnlyRow(old(store.outbox), store.outbox, row.clientMessageId)
                && (row.clientMessageId in store.outbox ==>
                      FailedAs(old(store.outbox)[row.clientMessageId], store.outbox[row.clientMessageId],
                               row, outcome, now, delay))
    {
      var c := row.clientMessageId;
      if outcome.Stored? {
        StoredReplyMeans(store.Db(), row, outcome.message, now, delay);
      } else if !outcome.Command? {
        FailedAttemptMeans(store.Db(), row, outcome, now, delay);
      }
      hide StoredAs, FailedAs, StoreBatch;
      match outcome
      case Stored(m) =>
        var _ := store.StoreIncomingBatch(row.groupId, [m]);
        store.ConfirmSentRow(c, m.id, m.seqNo);
      case Command =>
        store.DeleteRow(c);
      case Undecodable =>
        if row.attemptCount >= MAX_UNDECODABLE_ATTEMPTS {
          store.MarkRejectedRow(c, "json");
        } else {
          store.RescheduleRow(c, now + delay, Some("json"));
        }
      case Retryable(code, retryAfter) =>
        store.RescheduleRow(c, now + (if retryAfter.Some? then retryAfter.value else delay), Some(code));
      case Refused(code) =>
        store.MarkRejectedRow(c, code);
    }
  }
}
