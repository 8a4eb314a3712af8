/** When an outbox row is due, when it is dead, and when to look again. */
module OutboxRules {
  import opened Entities
  import opened Tables

  /** The WHERE clause of `next_dispatchable`. */
  predicate Dispatchable(row: OutboxRow, now: int, staleBefore: int) {
    || (row.state == Pending
        && ((row.nextAttemptAt.Some? && row.nextAttemptAt.value <= now)
            || (row.nextAttemptAt.None? && row.errorCode.None?)))
    || (row.state == InFlight && (row.lastAttemptAt.None? || row.lastAttemptAt.value <= staleBefore))
  }

  predicate DueAt(row: OutboxRow, now: int) {
    Dispatchable(row, now, now - IN_FLIGHT_STALE)
  }

  /** The WHERE clause of `failed_outbox`. */
  predicate ListedFailed(row: OutboxRow) {
    row.state == Pending && row.errorCode.Some? && row.nextAttemptAt.None?
  }

  /** The two SELECTs under the MIN of `earliest_next_attempt`. */
  predicate WakesAt(row: OutboxRow, now: int, t: int) {
    || (row.state == Pending && row.nextAttemptAt == Some(t) && t > now)
    || (row.state == InFlight && row.lastAttemptAt == Some(t - IN_FLIGHT_STALE))
  }

  /** The one instant, if any, a row contributes to that MIN. */
  function WakeInstant(row: OutboxRow, now: int): (t: Option<int>)
    ensures forall u :: WakesAt(row, now, u) <==> t == Some(u)
  {
    if row.state == Pending && row.nextAttemptAt.Some? && row.nextAttemptAt.value > now then row.nextAttemptAt
    else if row.state == InFlight && row.lastAttemptAt.Some? then Some(row.lastAttemptAt.value + IN_FLIGHT_STALE)
    else None
  }

  ghost predicate NothingDue(outbox: map<string, OutboxRow>, now: int) {
    forall c | c in outbox :: !DueAt(outbox[c], now)
  }

  ghost predicate IsEarliest(outbox: map<string, OutboxRow>, now: int, r: Option<int>) {
    && (forall c, t | c in outbox && WakesAt(outbox[c], now, t) :: r.Some? && r.value <= t)
    && (r.Some? ==> exists c :: c in outbox && WakesAt(outbox[c], now, r.value))
  }

  /** What every row of a table built by the client satisfies. */
  predicate RowOk(row: OutboxRow) {
    && (row.confirmedSeq.Some? <==> row.state == Confirmed)
    && (row.confirmedMessageId.Some? <==> row.state == Confirmed)
    && (row.state == Confirmed ==> row.errorCode.None? && row.nextAttemptAt.None?)
    && (row.state == InFlight ==> row.lastAttemptAt.Some? && (row.errorCode.Some? ==> row.nextAttemptAt.Some?))
  }

  /**
   * Exact wake-up, for every table whatsoever. When nothing is due at `now`, the instant found is in
   * the future, nothing becomes due before it, and something is due at it; no instant is found exactly
   * when every row is confirmed or listed as failed.
   */
  lemma WakeUpIsExact(outbox: map<string, OutboxRow>, now: int, r: Option<int>)
    requires NothingDue(outbox, now) && IsEarliest(outbox, now, r)
    ensures r.Some? ==> r.value > now
    ensures r.Some? ==> forall t | now <= t < r.value :: NothingDue(outbox, t)
    ensures r.Some? ==> !NothingDue(outbox, r.value)
    ensures r.None? <==> forall c | c in outbox :: outbox[c].state == Confirmed || ListedFailed(outbox[c])
  {
    forall c | c in outbox && (outbox[c].nextAttemptAt.Some? || outbox[c].state == InFlight)
        && outbox[c].state != Confirmed
      ensures exists t :: t > now && WakesAt(outbox[c], now, t)
    {
      var row := outbox[c];
      assert !DueAt(row, now);
      if row.state == Pending {
        assert WakesAt(row, now, row.nextAttemptAt.value);
      } else {
        assert WakesAt(row, now, row.lastAttemptAt.value + IN_FLIGHT_STALE);
      }
    }
    if r.Some? {
      var c :| c in outbox && WakesAt(outbox[c], now, r.value);
      assert !DueAt(outbox[c], now);
      assert DueAt(outbox[c], r.value);
      forall t, d | now <= t < r.value && d in outbox ensures !DueAt(outbox[d], t) {
        var row := outbox[d];
        assert !DueAt(row, now);
        if row.state == InFlight && row.lastAttemptAt.Some? {
          assert WakesAt(row, now, row.lastAttemptAt.value + IN_FLIGHT_STALE);
        } else if row.state == Pending && row.nextAttemptAt.Some? {
          assert WakesAt(row, now, row.nextAttemptAt.value);
        }
      }
    }
  }

  /**
   * The three notions of failure agree: shown failed in the UI, listed by `failed_outbox`, and
   * unconfirmed yet never due again however long one waits.
   */
  lemma FailedAgreement(row: OutboxRow)
    requires RowOk(row)
    ensures Outgoing(row) == ShownFailed <==> ListedFailed(row)
    ensures ListedFailed(row) <==> row.state != Confirmed && forall t :: !DueAt(row, t)
  {
    if row.state != Confirmed && !ListedFailed(row) {
      var t := if row.state == InFlight then row.lastAttemptAt.value + IN_FLIGHT_STALE
               else if row.nextAttemptAt.Some? then row.nextAttemptAt.value else 0;
      assert DueAt(row, t);
    }
  }

  /** Without the row invariant the notions differ: an in-flight row with an error and no schedule. */
  lemma FailedDisagreesWithoutInvariant()
    ensures var row := NewRow("c", "g", "b", 0).(state := InFlight, errorCode := Some("json"),
        lastAttemptAt := Some(0));
            Outgoing(row) == ShownFailed && !ListedFailed(row) && DueAt(row, IN_FLIGHT_STALE)
  {
  }

  // ---- what the store's statements mean for dispatch -----------------------------------------

  /** Nothing but row `c` may differ. */
  predicate OnlyRow(before: map<string, OutboxRow>, after: map<string, OutboxRow>, c: string) {
    after.Keys == before.Keys && forall k | k in before && k != c :: after[k] == before[k]
  }

  /** The row is due from `at` on, and not before. */
  ghost predicate DueFrom(row: OutboxRow, at: int) {
    forall t :: DueAt(row, t) <==> t >= at
  }

  /** The same message, whatever has become of it. */
  predicate SameMessage(before: OutboxRow, after: OutboxRow) {
    && after.clientMessageId == before.clientMessageId && after.groupId == before.groupId
    && after.body == before.body && after.createdAt == before.createdAt
  }

  /**
   * What each guarded statement means for an open row: in flight, it is due once the attempt is two
   * minutes old; rescheduled or retried, from the given instant on; rejected, never again by itself. It
   * stays the same message; attempts and error code are as said. A row that is confirmed or unknown is
   * left alone by all four, and so is every other row.
   */
  lemma DueAfterTransition(outbox: map<string, OutboxRow>, c: string, at: int, code: string, why: Option<string>)
    ensures OnlyRow(outbox, MarkInFlight(outbox, c, at), c) && OnlyRow(outbox, MarkRejected(outbox, c, code), c)
    ensures OnlyRow(outbox, Reschedule(outbox, c, at, why), c) && OnlyRow(outbox, Retry(outbox, c, at), c)
    ensures Open(outbox, c) ==>
              var marked, rejected := MarkInFlight(outbox, c, at)[c], MarkRejected(outbox, c, code)[c];
              var later, again := Reschedule(outbox, c, at, why)[c], Retry(outbox, c, at)[c];
              var n := outbox[c].attemptCount;
              && DueFrom(marked, at + 120000) && ListedFailed(rejected) && (forall t :: !DueAt(rejected, t))
              && DueFrom(later, at) && DueFrom(again, at)
              && SameMessage(outbox[c], marked) && marked.attemptCount == n && marked.errorCode == outbox[c].errorCode
              && SameMessage(outbox[c], rejected) && rejected.attemptCount == n + 1 && rejected.errorCode == Some(code)
              && SameMessage(outbox[c], later) && later.attemptCount == n + 1 && later.errorCode == why
              && SameMessage(outbox[c], again) && again.attemptCount == n && again.errorCode.None?
    ensures c in outbox && !Open(outbox, c) ==>
              && MarkInFlight(outbox, c, at)[c] == outbox[c] && MarkRejected(outbox, c, code)[c] == outbox[c]
              && Reschedule(outbox, c, at, why)[c] == outbox[c] && Retry(outbox, c, at)[c] == outbox[c]
  {
  }

  ghost predicate RowsOk(outbox: map<string, OutboxRow>) {
    forall c | c in outbox :: RowOk(outbox[c])
  }

  /**
   * The row invariant survives every statement of the store. Only for marking in flight does it matter
   * which row: not one that waits for the user.
   */
  lemma StatementsKeepRowsOk(outbox: map<string, OutboxRow>, c: string, at: int, code: string, why: Option<string>,
      id: string, seqNo: int)
    requires RowsOk(outbox)
    ensures (c in outbox ==> !ListedFailed(outbox[c])) ==> RowsOk(MarkInFlight(outbox, c, at))
    ensures RowsOk(MarkRejected(outbox, c, code)) && RowsOk(Reschedule(outbox, c, at, why))
        && RowsOk(Retry(outbox, c, at))
    ensures RowsOk(ConfirmSent(outbox, c, id, seqNo)) && RowsOk(Repair(outbox, at))
    ensures RowsOk(RedactConfirmed(outbox)) && RowsOk(PurgeConfirmed(outbox, at))
  {
  }

  /**
   * Repair, row by row. A row with a server seq that is not confirmed becomes confirmed, with no error and
   * no schedule. A pending row without server seq or schedule whose code only says that a reply could not be
   * read is due exactly from now on. Every other row stays as it is, and no row loses text, group or id.
   */
  lemma RepairMeans(outbox: map<string, OutboxRow>, now: int)
    ensures Repair(outbox, now).Keys == outbox.Keys
    ensures forall c | c in outbox ::
              var before, after := outbox[c], Repair(outbox, now)[c];
              var unread := before.state == Pending && before.nextAttemptAt.None? && before.confirmedSeq.None?
                  && (before.errorCode == Some("json") || before.errorCode == Some("client-message-id-reused"));
              && SameMessage(before, after)
              && (before.confirmedSeq.Some? && before.state != Confirmed ==>
                    && after == before.(state := Confirmed, errorCode := None, nextAttemptAt := None)
                    && forall t :: !DueAt(after, t))
              && (unread ==> after == before.(nextAttemptAt := Some(now)) && DueFrom(after, now))
              && (!unread && (before.confirmedSeq.None? || before.state == Confirmed) ==> after == before)
  {
  }

  /** After a repair no open row is stuck on an unreadable reply, and none has a server seq. */
  lemma NothingUnreadIsLeftDead(outbox: map<string, OutboxRow>, now: int, c: string)
    requires Open(Repair(outbox, now), c)
    ensures var row := Repair(outbox, now)[c];
            && row.confirmedSeq.None?
            && (row.errorCode == Some("json") || row.errorCode == Some("client-message-id-reused") ==>
                  !ListedFailed(row))
  {
  }

  /** Confirmation, whatever the row looked like: it names the message, and the row is never due again. */
  lemma ConfirmationIsFinal(outbox: map<string, OutboxRow>, c: string, id: string, seqNo: int)
    ensures OnlyRow(outbox, ConfirmSent(outbox, c, id, seqNo), c)
    ensures c in outbox ==>
              var row := ConfirmSent(outbox, c, id, seqNo)[c];
              && Outgoing(row) == ShownSent && row.confirmedMessageId == Some(id) && row.confirmedSeq == Some(seqNo)
              && (forall t :: !DueAt(row, t)) && row.body == outbox[c].body && row.groupId == outbox[c].groupId
  {
  }

  /** Purging takes exactly the confirmed rows created before the given instant; every other row stays as it is. */
  lemma PurgeTakesOldConfirmed(outbox: map<string, OutboxRow>, before: int)
    ensures forall c :: c in PurgeConfirmed(outbox, before)
                        <==> c in outbox && (outbox[c].state != Confirmed || outbox[c].createdAt >= before)
    ensures forall c | c in PurgeConfirmed(outbox, before) :: PurgeConfirmed(outbox, before)[c] == outbox[c]
  {
  }

  /**
   * Housekeeping never touches work: redacting and purging leave every unconfirmed row as it is, so the
   * same instants have something due; after redaction no confirmed row holds text.
   */
  lemma HousekeepingLeavesWork(outbox: map<string, OutboxRow>, before: int, t: int)
    ensures NothingDue(RedactConfirmed(outbox), t) == NothingDue(outbox, t)
        == NothingDue(PurgeConfirmed(outbox, before), t)
    ensures forall c | Open(outbox, c) ::
              && c in RedactConfirmed(outbox) && RedactConfirmed(outbox)[c] == outbox[c]
              && c in PurgeConfirmed(outbox, before) && PurgeConfirmed(outbox, before)[c] == outbox[c]
    ensures RedactConfirmed(outbox).Keys == outbox.Keys
    ensures forall c | c in outbox && outbox[c].state == Confirmed ::
              RedactConfirmed(outbox)[c] == outbox[c].(body := "")
  {
    var redacted, purged := RedactConfirmed(outbox), PurgeConfirmed(outbox, before);
    if !NothingDue(outbox, t) {
      var c :| c in outbox && DueAt(outbox[c], t);
      assert c in redacted && c in purged && DueAt(redacted[c], t) && DueAt(purged[c], t);
    } else {
      forall c | c in redacted ensures !DueAt(redacted[c], t) {
        assert !DueAt(outbox[c], t);
      }
    }
  }
}
