/** The local tables as values, and what each SQL statement of the store does to them. */
module Tables {
  import opened Entities
  import opened Reconciler

  /** `groups` maps a known group to its `isDeleted` flag. */
  datatype Db = Db(groups: map<string, bool>, messages: map<string, Message>, outbox: map<string, OutboxRow>)

  const IN_FLIGHT_STALE := 120000

  // ---- messages ---------------------------------------------------------------

  /** Neither the primary key nor the unique index on (group, seq) is taken. */
  predicate CanInsert(messages: map<string, Message>, m: Message) {
    m.id !in messages
    && forall k | k in messages :: messages[k].groupId != m.groupId || messages[k].seqNo != m.seqNo
  }

  function InsertOrIgnore(messages: map<string, Message>, m: Message): map<string, Message> {
    if CanInsert(messages, m) then messages[m.id := m] else messages
  }

  function InsertAll(messages: map<string, Message>, ms: seq<Message>): map<string, Message> {
    if |ms| == 0 then messages
    else InsertOrIgnore(InsertAll(messages, ms[..|ms| - 1]), ms[|ms| - 1])
  }

  /** How many rows the statements of `InsertAll` write. */
  function Written(messages: map<string, Message>, ms: seq<Message>): nat {
    if |ms| == 0 then 0
    else
      var n := |ms| - 1;
      Written(messages, ms[..n]) + (if CanInsert(InsertAll(messages, ms[..n]), ms[n]) then 1 else 0)
  }

  function Redact(messages: map<string, Message>, groupId: string, upTo: int): map<string, Message> {
    map k | k in messages ::
      if messages[k].groupId == groupId && messages[k].seqNo <= upTo then messages[k].(body := "") else messages[k]
  }

  function ExistingIds(messages: map<string, Message>, groupId: string, batch: seq<Message>): set<string> {
    set m | m in batch && m.id in messages && messages[m.id].groupId == groupId :: m.id
  }

  function ExistingSeqs(messages: map<string, Message>, groupId: string, batch: seq<Message>): set<int> {
    set m | m in batch
            && exists k :: k in messages && messages[k].groupId == groupId && messages[k].seqNo == m.seqNo
      :: m.seqNo
  }

  // ---- outbox -----------------------------------------------------------------

  function Unconfirmed(outbox: map<string, OutboxRow>, groupId: string): set<string> {
    set c | c in outbox && outbox[c].groupId == groupId && outbox[c].state != Confirmed
  }

  /** `UPDATE … WHERE clientMessageId = c AND state != 'CONFIRMED'`. */
  predicate Open(outbox: map<string, OutboxRow>, c: string) {
    c in outbox && outbox[c].state != Confirmed
  }

  function MarkInFlight(outbox: map<string, OutboxRow>, c: string, at: int): map<string, OutboxRow> {
    if Open(outbox, c) then outbox[c := outbox[c].(state := InFlight, lastAttemptAt := Some(at))] else outbox
  }

  function MarkRejected(outbox: map<string, OutboxRow>, c: string, code: string): map<string, OutboxRow> {
    if Open(outbox, c) then
      outbox[c := outbox[c].(state := Pending, errorCode := Some(code), nextAttemptAt := None,
                             attemptCount := outbox[c].attemptCount + 1)]
    else outbox
  }

  function Reschedule(outbox: map<string, OutboxRow>, c: string, nextAt: int, code: Option<string>)
    : map<string, OutboxRow>
  {
    if Open(outbox, c) then
      outbox[c := outbox[c].(state := Pending, errorCode := code, nextAttemptAt := Some(nextAt),
                             attemptCount := outbox[c].attemptCount + 1)]
    else outbox
  }

  function Retry(outbox: map<string, OutboxRow>, c: string, now: int): map<string, OutboxRow> {
    if Open(outbox, c) then outbox[c := outbox[c].(state := Pending, errorCode := None, nextAttemptAt := Some(now))]
    else outbox
  }

  function ConfirmRow(row: OutboxRow, serverId: string, seqNo: int): OutboxRow {
    row.(state := Confirmed, errorCode := None, nextAttemptAt := None,
         confirmedMessageId := Some(serverId), confirmedSeq := Some(seqNo))
  }

  /** Unguarded: a second confirmation overwrites the first. */
  function ConfirmSent(outbox: map<string, OutboxRow>, c: string, serverId: string, seqNo: int)
    : map<string, OutboxRow>
  {
    if c in outbox then outbox[c := ConfirmRow(outbox[c], serverId, seqNo)] else outbox
  }

  function ConfirmAll(outbox: map<string, OutboxRow>, echoes: seq<EchoConfirmation>): map<string, OutboxRow> {
    if |echoes| == 0 then outbox
    else
      var e := echoes[|echoes| - 1];
      ConfirmSent(ConfirmAll(outbox, echoes[..|echoes| - 1]), e.clientMessageId, e.serverId, e.seqNo)
  }

  function PurgeConfirmed(outbox: map<string, OutboxRow>, before: int): map<string, OutboxRow> {
    map c | c in outbox && !(outbox[c].state == Confirmed && outbox[c].createdAt < before) :: outbox[c]
  }

  function RedactConfirmed(outbox: map<string, OutboxRow>): map<string, OutboxRow> {
    map c | c in outbox :: if outbox[c].state == Confirmed then outbox[c].(body := "") else outbox[c]
  }

  /** First UPDATE of `repair`: a row with a server seq is confirmed, whatever its state says. */
  function RepairState(row: OutboxRow): OutboxRow {
    if row.confirmedSeq.Some? && row.state != Confirmed
    then row.(state := Confirmed, errorCode := None, nextAttemptAt := None)
    else row
  }

  /** Second UPDATE of `repair`: verify rows that failed only because a reply was unreadable. */
  function RepairSchedule(row: OutboxRow, now: int): OutboxRow {
    if row.state == Pending && row.nextAttemptAt.None?
       && (row.errorCode == Some("json") || row.errorCode == Some("client-message-id-reused"))
    then row.(nextAttemptAt := Some(now))
    else row
  }

  function Repair(outbox: map<string, OutboxRow>, now: int): map<string, OutboxRow> {
    map c | c in outbox :: RepairSchedule(RepairState(outbox[c]), now)
  }

  // ---- one incoming batch, in one transaction -----------------------------------

  function BatchState(db: Db, groupId: string, batch: seq<Message>): ReconcileState {
    ReconcileState(ExistingIds(db.messages, groupId, batch), ExistingSeqs(db.messages, groupId, batch),
                   Unconfirmed(db.outbox, groupId))
  }

  function BatchPlan(db: Db, groupId: string, batch: seq<Message>): ReconcilePlan {
    if batch == [] then EMPTY_PLAN else Plan(batch, BatchState(db, groupId, batch))
  }

  function StoreBatch(db: Db, groupId: string, batch: seq<Message>): Db {
    var plan := BatchPlan(db, groupId, batch);
    db.(messages := InsertAll(db.messages, plan.toInsert), outbox := ConfirmAll(db.outbox, plan.echoConfirmations))
  }

  // ---- what any insert keeps -----------------------------------------------------

  /** Rows are only added: an existing row, blanked or not, is never overwritten. */
  lemma {:induction false} InsertAllKeeps(messages: map<string, Message>, ms: seq<Message>)
    ensures forall k | k in messages :: k in InsertAll(messages, ms) && InsertAll(messages, ms)[k] == messages[k]
    ensures forall k | k in InsertAll(messages, ms) :: k in messages || InsertAll(messages, ms)[k] in ms
    ensures |InsertAll(messages, ms)| == |messages| + Written(messages, ms)
  {
    if |ms| == 0 {
    } else {
      InsertAllKeeps(messages, ms[..|ms| - 1]);
      var cur := InsertAll(messages, ms[..|ms| - 1]);
      assert cur.Keys <= InsertAll(messages, ms).Keys;
      forall k | k in InsertAll(messages, ms) && k !in messages ensures InsertAll(messages, ms)[k] in ms {
        if k in cur {
          assert cur[k] in ms[..|ms| - 1];
        }
      }
    }
  }

  /** What the plan is told of the tables: ids and seqs of the batch the group has rows for, and its open rows. */
  lemma BatchStateMeans(db: Db, groupId: string, batch: seq<Message>)
    ensures var st := BatchState(db, groupId, batch);
            && (forall m | m in batch ::
                  m.id in st.existingIds <==> m.id in db.messages && db.messages[m.id].groupId == groupId)
            && (forall m | m in batch ::
                  m.seqNo in st.existingSeqs
                  <==> exists k :: k in db.messages && db.messages[k].groupId == groupId
                                   && db.messages[k].seqNo == m.seqNo)
            && (forall c :: c in st.unconfirmedClientMessageIds
                            <==> c in db.outbox && db.outbox[c].groupId == groupId && db.outbox[c].state != Confirmed)
  {
  }

  /** The unique index: no two rows of a group share a seq. */
  ghost predicate UniqueSeqs(messages: map<string, Message>) {
    forall a, b | a in messages && b in messages && messages[a].groupId == messages[b].groupId
                  && messages[a].seqNo == messages[b].seqNo :: a == b
  }

  /** The message's id, or its group and seq, have a row. */
  ghost predicate Represented(messages: map<string, Message>, m: Message) {
    m.id in messages
    || exists k :: k in messages && messages[k].groupId == m.groupId && messages[k].seqNo == m.seqNo
  }

  /** Whatever is inserted, the index stays unique, every message is represented, and new rows are under their ids. */
  lemma {:induction false} InsertAllMeans(messages: map<string, Message>, ms: seq<Message>)
    requires UniqueSeqs(messages)
    ensures UniqueSeqs(InsertAll(messages, ms))
    ensures forall m | m in ms :: Represented(InsertAll(messages, ms), m)
    ensures forall k | k in InsertAll(messages, ms) && k !in messages :: InsertAll(messages, ms)[k].id == k
  {
    if |ms| == 0 {
    } else {
      var init, last := ms[..|ms| - 1], ms[|ms| - 1];
      assert ms == init + [last];
      InsertAllMeans(messages, init);
      var cur := InsertAll(messages, init);
      forall m | m in ms ensures Represented(InsertOrIgnore(cur, last), m) {
        if m in init {
          RepresentedStays(cur, last, m);
        }
      }
    }
  }

  lemma RepresentedStays(messages: map<string, Message>, last: Message, m: Message)
    requires Represented(messages, m)
    ensures Represented(InsertOrIgnore(messages, last), m)
  {
    var after := InsertOrIgnore(messages, last);
    if k :| k in messages && messages[k].groupId == m.groupId && messages[k].seqNo == m.seqNo {
      assert k in after && after[k] == messages[k];
    }
  }
}
