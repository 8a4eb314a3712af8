/** Catching up over `GET /v1/pending` while the socket is down. */
module RestDrain {
  import opened Entities
  import opened Reconciler
  import opened Tables
  import opened ServerLog
  import opened Sync

  const MAX_ROUNDS := 50

  datatype Bucket = Bucket(groupId: string, batch: seq<Message>, hasMore: bool)

  function First(ms: seq<Message>, n: nat): seq<Message> {
    ms[..if n <= |ms| then n else |ms|]
  }

  function DropFirst(ms: seq<Message>, n: nat): seq<Message> {
    ms[if n <= |ms| then n else |ms|..]
  }

  /** The server's undelivered messages of the account, per group and in order. */
  class PendingServer {
    var pending: map<string, seq<Message>>
    const groups: seq<string>

    constructor (groups: seq<string>, pending: map<string, seq<Message>>)
      ensures this.groups == groups && this.pending == pending
    {
      this.groups := groups;
      this.pending := pending;
    }

    /** One page: for every group its first `limit` undelivered messages. */
    method Pending(limit: nat) returns (page: seq<Bucket>)
      requires forall g | g in groups :: g in pending
      ensures |page| == |groups|
      ensures forall i | 0 <= i < |page| ::
                page[i] == Bucket(groups[i], First(pending[groups[i]], limit), |pending[groups[i]]| > limit)
    {
      page := seq(|groups|, i requires 0 <= i < |groups| && groups[i] in pending reads this =>
        Bucket(groups[i], First(pending[groups[i]], limit), |pending[groups[i]]| > limit));
    }

    /** An ack releases everything of the group up to its seq. */
    method Ack(g: string, n: int)
      requires g in pending
      modifies this`pending
      ensures pending == old(pending)[g := Above(old(pending)[g], n)]
    {
      pending := pending[g := Above(pending[g], n)];
    }
  }

  function Above(ms: seq<Message>, n: int): seq<Message> {
    if ms != [] && ms[0].seqNo <= n then Above(ms[1..], n) else ms
  }

  lemma {:induction false} AckReleasesBatch(ms: seq<Message>, k: nat)
    requires Ascending(ms) && 0 < k <= |ms|
    ensures Above(ms, ms[k - 1].seqNo) == ms[k..]
  {
    if k == 1 {
      assert ms[1..] != [] ==> ms[1..][0].seqNo > ms[0].seqNo;
    } else {
      assert ms[1..][k - 2] == ms[k - 1];
      AckReleasesBatch(ms[1..], k - 1);
      assert ms[1..][k - 1..] == ms[k..];
    }
  }

  lemma {:induction false} MaxSeqIsLast(ms: seq<Message>)
    requires Ascending(ms) && ms != []
    ensures MaxSeq(ms) == Some(ms[|ms| - 1].seqNo)
  {
    MaxSeqIsMaximum(ms);
  }

  /** Undelivered messages as the server keeps them: the log's own, ascending, with positive seqs. */
  ghost predicate Queue(log: Log, g: string, ms: seq<Message>) {
    BatchOf(log, g, ms) && Ascending(ms) && forall m | m in ms :: m.seqNo > 0
  }

  /** Some messages left the front of the queue, and every one of them is stored. */
  ghost predicate Released(before: seq<Message>, after: seq<Message>, messages: map<string, Message>) {
    && |after| <= |before| && after == before[|before| - |after|..]
    && forall j | 0 <= j < |before| - |after| :: before[j].id in messages
  }

  lemma ReleasedMore(before: seq<Message>, mid: seq<Message>, k: nat, messages: map<string, Message>,
      messages': map<string, Message>)
    requires Released(before, mid, messages) && messages.Keys <= messages'.Keys && k <= |mid|
    requires forall j | 0 <= j < k :: mid[j].id in messages'
    ensures Released(before, mid[k..], messages')
  {
    var d := |before| - |mid|;
    forall j | 0 <= j < d + k ensures before[j].id in messages' {
      if j >= d {
        assert before[j] == mid[j - d];
      }
    }
  }

  lemma QueueSuffix(log: Log, g: string, ms: seq<Message>, k: nat)
    requires Queue(log, g, ms) && k <= |ms|
    ensures Queue(log, g, ms[k..]) && Queue(log, g, ms[..k])
  {
  }

  /**
   * What becomes of a bucket: the store fails, or the bucket is stored, the lookup of an unknown group
   * having been answered or not, and its ack arrives or is lost.
   */
  datatype Fate = StoreFails | Stores(answered: bool, ackLost: bool)

  /** What goes wrong: the fetch of a round, a round's bucket; and which pages claim there is more. */
  datatype Faults = Faults(fetchFails: nat -> bool, fate: (nat, nat) -> Fate, cursor: nat -> bool)

  predicate Smooth(fate: Fate) {
    fate.Stores? && !fate.ackLost
  }

  /** Every store and every ack of round `r` succeeds. */
  ghost predicate PageSmooth(faults: Faults, r: nat, groups: nat) {
    forall i | 0 <= i < groups :: Smooth(faults.fate(r, i))
  }

  /** Store one bucket, then acknowledge it over REST. */
  method ApplyBucket(engine: SyncEngine, server: PendingServer, bucket: Bucket, fate: Fate, ghost log: Log,
                     ghost limit: nat)
    returns (ok: bool)
    requires LogOk(log) && StoredFrom(log, engine.store.messages) && limit >= 1
    requires bucket.groupId in server.pending && Queue(log, bucket.groupId, server.pending[bucket.groupId])
    requires bucket.batch == First(server.pending[bucket.groupId], limit)
    modifies engine.store, server`pending
    ensures StoredFrom(log, engine.store.messages) && old(engine.store.messages).Keys <= engine.store.messages.Keys
    ensures ok == fate.Stores?
    ensures ok ==> forall m | m in bucket.batch :: m.id in engine.store.messages
    ensures server.pending == if !Smooth(fate) then old(server.pending)
              else old(server.pending)[bucket.groupId := DropFirst(old(server.pending)[bucket.groupId], limit)]
  {
    ok := fate.Stores?;
    if !ok {
      return;
    }
    var fetch := if fate.answered then Found else FetchFailed;
    var g := bucket.groupId;
    ghost var queue := server.pending[g];
    QueuePrefix(log, g, queue, limit);
    AckReleasesBucket(log, g, queue, limit);
    hide LogOk, StoredFrom, Queue, BatchOf, First, DropFirst, Above, AckSeq;
    var ack := StoreBucket(engine, g, bucket.batch, fetch, log);
    assert server.pending[g := queue] == server.pending;
    if ack.Some? && !fate.ackLost {
      server.Ack(g, ack.value);
    }
  }

  method StoreBucket(engine: SyncEngine, g: string, batch: seq<Message>, fetch: Fetch, ghost log: Log)
    returns (ack: Option<int>)
    requires LogOk(log) && StoredFrom(log, engine.store.messages) && BatchOf(log, g, batch) && fetch != NotFound
    modifies engine.store
    ensures StoredFrom(log, engine.store.messages) && old(engine.store.messages).Keys <= engine.store.messages.Keys
    ensures forall m | m in batch :: m.id in engine.store.messages
    ensures ack == AckSeq(batch)
  {
    BucketIsStored(log, engine.store.Db(), g, batch, fetch);
    hide ApplyIncoming, LogOk, StoredFrom, BatchOf, AckSeq;
    var newIds;
    ack, newIds := engine.ApplyBatch(g, batch, fetch);
  }

  lemma QueuePrefix(log: Log, g: string, queue: seq<Message>, limit: nat)
    requires Queue(log, g, queue)
    ensures BatchOf(log, g, First(queue, limit))
  {
    QueueSuffix(log, g, queue, |First(queue, limit)|);
  }

  /** The ack of a page of a queue releases exactly that page; an empty queue yields no ack. */
  lemma AckReleasesBucket(log: Log, g: string, queue: seq<Message>, limit: nat)
    requires Queue(log, g, queue) && limit >= 1
    ensures var ack := AckSeq(First(queue, limit));
            if ack.Some? then Above(queue, ack.value) == DropFirst(queue, limit) else DropFirst(queue, limit) == queue
  {
    var batch := First(queue, limit);
    if batch != [] {
      assert forall i | 0 <= i < |batch| :: batch[i] == queue[i];
      MaxSeqIsLast(batch);
      AckReleasesBatch(queue, |batch|);
      assert batch[|batch| - 1] in queue;
    }
  }

  lemma BucketIsStored(log: Log, db: Db, g: string, batch: seq<Message>, fetch: Fetch)
    requires LogOk(log) && StoredFrom(log, db.messages) && BatchOf(log, g, batch) && fetch != NotFound
    ensures var after := ApplyIncoming(db, g, batch, fetch).db;
            && StoredFrom(log, after.messages) && db.messages.Keys <= after.messages.Keys
            && (forall m | m in batch :: m.id in after.messages)
    ensures ApplyIncoming(db, g, batch, fetch).ack == AckSeq(batch)
  {
    var known := if g !in db.groups && fetch == Found then db.(groups := db.groups[g := false]) else db;
    StoreBatchMessages(log, known, g, batch);
    assert forall m | m in batch :: m.id in Ids(batch);
  }

  /** Where every queue stands relative to the start. */
  ghost predicate AllReleased(groups: seq<string>, before: map<string, seq<Message>>, after: map<string, seq<Message>>,
                              log: Log, messages: map<string, Message>) {
    forall g | g in groups :: g in before && g in after && Queue(log, g, after[g])
        && Released(before[g], after[g], messages)
  }

  ghost predicate AllDropped(groups: seq<string>, before: map<string, seq<Message>>, after: map<string,
      seq<Message>>, n: nat) {
    forall g | g in groups :: g in before && g in after && after[g] == DropFirst(before[g], n)
  }

  lemma DropTwice(ms: seq<Message>, a: nat, b: nat)
    ensures DropFirst(DropFirst(ms, a), b) == DropFirst(ms, a + b)
  {
  }

  /** Initially nothing is released, and any member of the list has its queue. */
  lemma NothingReleased(groups: seq<string>, start: map<string, seq<Message>>, log: Log, messages: map<string, Message>)
    requires forall g | g in groups :: g in start && Queue(log, g, start[g])
    ensures AllReleased(groups, start, start, log, messages)
  {
  }

  lemma QueueOf(groups: seq<string>, start: map<string, seq<Message>>, after: map<string, seq<Message>>,
                log: Log, messages: map<string, Message>, i: nat)
    requires AllReleased(groups, start, after, log, messages) && i < |groups|
    ensures groups[i] in start && groups[i] in after && Queue(log, groups[i], after[groups[i]])
  {
    assert groups[i] in groups;
  }

  ghost predicate Distinct(groups: seq<string>) {
    forall i, j | 0 <= i < j < |groups| :: groups[i] != groups[j]
  }

  /** What `DrainPage` has done after `i` buckets. */
  ghost predicate PageDone(groups: seq<string>, start: map<string, seq<Message>>, now: map<string, seq<Message>>,
                           i: nat, limit: nat, faults: Faults, r: nat)
    requires i <= |groups|
  {
    && (forall j | 0 <= j < |groups| :: groups[j] in start && groups[j] in now)
    && (forall j | i <= j < |groups| :: now[groups[j]] == start[groups[j]])
    && (forall j | 0 <= j < i && Smooth(faults.fate(r, j)) :: now[groups[j]] == DropFirst(start[groups[j]], limit))
  }

  lemma PageDoneStep(groups: seq<string>, start: map<string, seq<Message>>, before: map<string, seq<Message>>,
                     after: map<string, seq<Message>>, i: nat, limit: nat, faults: Faults, r: nat)
    requires i < |groups| && PageDone(groups, start, before, i, limit, faults, r)
    requires Distinct(groups)
    requires after == if !Smooth(faults.fate(r, i)) then before
        else before[groups[i] := DropFirst(before[groups[i]], limit)]
    ensures PageDone(groups, start, after, i + 1, limit, faults, r)
  {
  }

  lemma PageDoneMeans(groups: seq<string>, start: map<string, seq<Message>>, now: map<string, seq<Message>>,
                      limit: nat, faults: Faults, r: nat)
    requires PageDone(groups, start, now, |groups|, limit, faults, r)
    ensures PageSmooth(faults, r, |groups|) ==> AllDropped(groups, start, now, limit)
  {
    if PageSmooth(faults, r, |groups|) {
      forall g | g in groups ensures g in start && g in now && now[g] == DropFirst(start[g], limit) {
        var j :| 0 <= j < |groups| && groups[j] == g;
        assert Smooth(faults.fate(r, j));
      }
    }
  }

  /** Some group has more than one page of undelivered messages. */
  ghost predicate AnyBeyond(groups: seq<string>, start: map<string, seq<Message>>, n: nat, limit: nat)
    requires n <= |groups|
  {
    exists j :: 0 <= j < n && groups[j] in start && |start[groups[j]]| > limit
  }

  lemma NothingDoneYet(groups: seq<string>, start: map<string, seq<Message>>, limit: nat, faults: Faults, r: nat)
    requires forall j | 0 <= j < |groups| :: groups[j] in start
    ensures PageDone(groups, start, start, 0, limit, faults, r)
  {}

  lemma NothingBeyond(groups: seq<string>, start: map<string, seq<Message>>, limit: nat)
    ensures !AnyBeyond(groups, start, 0, limit)
  {
  }

  /** A bucket that reports more, with messages in it, is one of a group with more than a page. */
  lemma BeyondStep(groups: seq<string>, start: map<string, seq<Message>>, i: nat, limit: nat)
    requires i < |groups| && groups[i] in start && limit >= 1
    ensures AnyBeyond(groups, start, i + 1, limit)
            <==> (|| AnyBeyond(groups, start, i, limit)
                  || (|start[groups[i]]| > limit && First(start[groups[i]], limit) != []))
  {
    if |start[groups[i]]| > limit {
      assert First(start[groups[i]], limit) == start[groups[i]][..limit];
    }
  }

  /** Bucket `i` of the page that was fetched when the queues were `start`. */
  method DrainBucket(engine: SyncEngine, server: PendingServer, bucket: Bucket, i: nat, faults: Faults, r: nat,
                     ghost start: map<string, seq<Message>>, ghost limit: nat, ghost log: Log)
    returns (ok: bool)
    requires LogOk(log) && StoredFrom(log, engine.store.messages) && limit >= 1 && i < |server.groups|
    requires Distinct(server.groups)
    requires AllReleased(server.groups, start, server.pending, log, engine.store.messages)
    requires PageDone(server.groups, start, server.pending, i, limit, faults, r)
    requires server.groups[i] in start && bucket.groupId == server.groups[i]
    requires bucket.batch == First(start[server.groups[i]], limit)
    modifies engine.store, server`pending
    ensures StoredFrom(log, engine.store.messages) && old(engine.store.messages).Keys <= engine.store.messages.Keys
    ensures AllReleased(server.groups, start, server.pending, log, engine.store.messages)
    ensures if ok then PageDone(server.groups, start, server.pending, i + 1, limit, faults, r)
            else !PageSmooth(faults, r, |server.groups|)
  {
    hide AllReleased, Queue, StoredFrom, LogOk, PageDone, First, DropFirst, Smooth, PageSmooth, Distinct;
    ghost var before, messages := server.pending, engine.store.messages;
    QueueOf(server.groups, start, before, log, messages, i);
    UntouchedYet(server.groups, start, before, i, limit, faults, r);
    ok := ApplyBucket(engine, server, bucket, faults.fate(r, i), log, limit);
    if !ok {
      SomethingFailed(faults, r, i, |server.groups|);
      AllReleasedStays(server.groups, start, before, log, messages, engine.store.messages);
    } else {
      PageStep(server.groups, start, before, server.pending, i, limit, log, messages, engine.store.messages);
      PageDoneStep(server.groups, start, before, server.pending, i, limit, faults, r);
    }
  }

  /** One page: each bucket stored, then acked; the page as a whole may say that there is more. */
  method DrainPage(engine: SyncEngine, server: PendingServer, limit: nat, faults: Faults, r: nat, ghost log: Log)
    returns (ok: bool, more: bool)
    requires LogOk(log) && StoredFrom(log, engine.store.messages) && limit >= 1
    requires Distinct(server.groups)
    requires forall g | g in server.groups :: g in server.pending && Queue(log, g, server.pending[g])
    modifies engine.store, server`pending
    ensures StoredFrom(log, engine.store.messages) && old(engine.store.messages).Keys <= engine.store.messages.Keys
    ensures AllReleased(server.groups, old(server.pending), server.pending, log, engine.store.messages)
    ensures PageSmooth(faults, r, |server.groups|) ==>
              ok && AllDropped(server.groups, old(server.pending), server.pending, limit)
    ensures ok ==> (more <==> AnyBeyond(server.groups, old(server.pending), |server.groups|, limit) || faults.cursor(r))
  {
    var page := server.Pending(limit);
    ghost var start := server.pending;
    NothingReleased(server.groups, start, log, engine.store.messages);
    AllQueued(server.groups, start, limit, faults, r, log, engine.store.messages);
    NothingBeyond(server.groups, start, limit);
    hide AllReleased, Queue, StoredFrom, LogOk, PageDone, AllDropped, First, DropFirst, AnyBeyond, Smooth, PageSmooth, Distinct;
    ok, more := true, false;
    for i := 0 to |page|
      invariant ok
      invariant StoredFrom(log, engine.store.messages) && old(engine.store.messages).Keys <= engine.store.messages.Keys
      invariant AllReleased(server.groups, start, server.pending, log, engine.store.messages)
      invariant PageDone(server.groups, start, server.pending, i, limit, faults, r)
      invariant more <==> AnyBeyond(server.groups, start, i, limit)
    {
      QueueOf(server.groups, start, server.pending, log, engine.store.messages, i);
      BeyondStep(server.groups, start, i, limit);
      ok := DrainBucket(engine, server, page[i], i, faults, r, start, limit, log);
      if !ok {
        return;
      }
      if page[i].hasMore && page[i].batch != [] {
        more := true;
      }
    }
    more := more || faults.cursor(r);
    PageDoneMeans(server.groups, start, server.pending, limit, faults, r);
  }

  lemma AllQueued(groups: seq<string>, start: map<string, seq<Message>>, limit: nat, faults: Faults, r: nat,
                  log: Log, messages: map<string, Message>)
    requires AllReleased(groups, start, start, log, messages)
    ensures PageDone(groups, start, start, 0, limit, faults, r)
  {
    assert forall j | 0 <= j < |groups| :: groups[j] in groups;
    NothingDoneYet(groups, start, limit, faults, r);
  }

  lemma SomethingFailed(faults: Faults, r: nat, i: nat, n: nat)
    requires i < n && faults.fate(r, i).StoreFails?
    ensures !Smooth(faults.fate(r, i)) && !PageSmooth(faults, r, n)
  {
    assert !Smooth(faults.fate(r, i));
  }

  lemma AllReleasedStays(groups: seq<string>, before: map<string, seq<Message>>, after: map<string, seq<Message>>,
                         log: Log, messages: map<string, Message>, messages': map<string, Message>)
    requires AllReleased(groups, before, after, log, messages) && messages.Keys <= messages'.Keys
    ensures AllReleased(groups, before, after, log, messages')
  {
    forall g | g in groups ensures Released(before[g], after[g], messages') {
      assert Released(before[g], after[g], messages);
    }
  }

  lemma UntouchedYet(groups: seq<string>, start: map<string, seq<Message>>, now: map<string, seq<Message>>,
                     i: nat, limit: nat, faults: Faults, r: nat)
    requires i < |groups| && PageDone(groups, start, now, i, limit, faults, r)
    ensures groups[i] in start && groups[i] in now && now[groups[i]] == start[groups[i]]
  {
  }

  lemma PageStep(groups: seq<string>, start: map<string, seq<Message>>, before: map<string, seq<Message>>,
                 after: map<string, seq<Message>>, i: nat, limit: nat, log: Log,
                 messages: map<string, Message>, messages': map<string, Message>)
    requires i < |groups| && groups[i] in before && messages.Keys <= messages'.Keys
    requires AllReleased(groups, start, before, log, messages)
    requires after == before || after == before[groups[i] := DropFirst(before[groups[i]], limit)]
    requires forall m | m in First(before[groups[i]], limit) :: m.id in messages'
    ensures AllReleased(groups, start, after, log, messages')
  {
    var q := before[groups[i]];
    var k := if limit <= |q| then limit else |q|;
    assert forall j | 0 <= j < k :: q[j] in q[..k];
    assert groups[i] in groups;
    ReleasedMore(start[groups[i]], q, k, messages, messages');
    QueueSuffix(log, groups[i], q, k);
    forall g | g in groups ensures Released(start[g], before[g], messages') {
    }
  }

  // ---- the rounds -----------------------------------------------------------------------

  /** Only more than `rounds` pages of a queue, or a page's claim, keep the rounds going. */
  ghost predicate GoesOnForAReason(groups: seq<string>, start: map<string, seq<Message>>, rounds: nat, limit: nat,
                                   faults: Faults) {
    rounds > 0 && AllSmooth(faults, rounds, |groups|) && !faults.cursor(rounds - 1) ==>
      Longer(groups, start, rounds * limit)
  }

  ghost predicate AllSmooth(faults: Faults, rounds: nat, groups: nat) {
    forall r, i | 0 <= r < rounds && 0 <= i < groups :: Smooth(faults.fate(r, i))
  }

  lemma ReleasedTrans(groups: seq<string>, start: map<string, seq<Message>>, mid: map<string, seq<Message>>,
                      after: map<string, seq<Message>>, log: Log, messages: map<string, Message>,
                          messages': map<string, Message>)
    requires AllReleased(groups, start, mid, log, messages) && AllReleased(groups, mid, after, log, messages')
    requires messages.Keys <= messages'.Keys
    ensures AllReleased(groups, start, after, log, messages')
  {
    forall g | g in groups ensures Released(start[g], after[g], messages') {
      var q, k := mid[g], |mid[g]| - |after[g]|;
      assert after[g] == q[k..];
      ReleasedMore(start[g], q, k, messages, messages');
    }
  }

  lemma DroppedTrans(groups: seq<string>, start: map<string, seq<Message>>, mid: map<string, seq<Message>>,
                     after: map<string, seq<Message>>, a: nat, b: nat)
    requires AllDropped(groups, start, mid, a) && AllDropped(groups, mid, after, b)
    ensures AllDropped(groups, start, after, a + b)
  {
    forall g | g in groups ensures after[g] == DropFirst(start[g], a + b) {
      DropTwice(start[g], a, b);
    }
  }

  lemma QueuesOf(groups: seq<string>, start: map<string, seq<Message>>, now: map<string, seq<Message>>,
                 log: Log, messages: map<string, Message>)
    requires AllReleased(groups, start, now, log, messages)
    ensures forall g | g in groups :: g in now && Queue(log, g, now[g])
  {
  }

  lemma OneMorePage(r: nat, limit: nat)
    ensures r * limit + limit == (r + 1) * limit
  {}

  lemma NothingDropped(groups: seq<string>, start: map<string, seq<Message>>)
    requires forall g | g in groups :: g in start
    ensures AllDropped(groups, start, start, 0)
  {
  }

  /** Every undelivered message of every group is in the table and nothing is left to deliver. */
  ghost predicate FullyDrained(groups: seq<string>, start: map<string, seq<Message>>, now: map<string, seq<Message>>,
                               messages: map<string, Message>) {
    forall g | g in groups :: g in start && g in now && now[g] == [] && forall m | m in start[g] :: m.id in messages
  }

  lemma LastPageEmpties(groups: seq<string>, start: map<string, seq<Message>>, mid: map<string, seq<Message>>,
                        after: map<string, seq<Message>>, limit: nat, log: Log, messages: map<string, Message>)
    requires AllReleased(groups, start, after, log, messages)
    requires AllDropped(groups, mid, after, limit) && !AnyBeyond(groups, mid, |groups|, limit)
    ensures FullyDrained(groups, start, after, messages)
  {
    forall g | g in groups ensures after[g] == [] && forall m | m in start[g] :: m.id in messages {
      var j :| 0 <= j < |groups| && groups[j] == g;
      assert |mid[groups[j]]| <= limit;
      assert Released(start[g], after[g], messages);
      forall m | m in start[g] ensures m.id in messages {
        var i :| 0 <= i < |start[g]| && start[g][i] == m;
        assert start[g][i].id in messages;
      }
    }
  }

  /** Where things stand after a number of rounds: what was released is stored; without failures, page by page. */
  ghost predicate Standing(groups: seq<string>, start: map<string, seq<Message>>, now: map<string, seq<Message>>,
                           rounds: nat, limit: nat, faults: Faults, log: Log, messages: map<string, Message>) {
    && AllReleased(groups, start, now, log, messages)
    && (AllSmooth(faults, rounds, |groups|) ==> AllDropped(groups, start, now, rounds * limit))
  }

  lemma StandingStep(groups: seq<string>, start: map<string, seq<Message>>, mid: map<string, seq<Message>>,
                     after: map<string, seq<Message>>, r: nat, limit: nat, faults: Faults, log: Log,
                     messages: map<string, Message>, messages': map<string, Message>)
    requires Standing(groups, start, mid, r, limit, faults, log, messages) && messages.Keys <= messages'.Keys
    requires AllReleased(groups, mid, after, log, messages')
    requires PageSmooth(faults, r, |groups|) ==> AllDropped(groups, mid, after, limit)
    ensures Standing(groups, start, after, r + 1, limit, faults, log, messages')
  {
    hide AllReleased, AllDropped, Smooth;
    ReleasedTrans(groups, start, mid, after, log, messages, messages');
    if AllSmooth(faults, r + 1, |groups|) {
      assert AllSmooth(faults, r, |groups|);
      DroppedTrans(groups, start, mid, after, r * limit, limit);
      OneMorePage(r, limit);
    }
  }

  /** Some queue was longer than `n`. */
  ghost predicate Longer(groups: seq<string>, start: map<string, seq<Message>>, n: nat) {
    exists g :: g in groups && g in start && |start[g]| > n
  }

  lemma BeyondMeansLonger(groups: seq<string>, start: map<string, seq<Message>>, mid: map<string, seq<Message>>,
                          r: nat, limit: nat)
    requires AllDropped(groups, start, mid, r * limit) && AnyBeyond(groups, mid, |groups|, limit)
    ensures Longer(groups, start, (r + 1) * limit)
  {
    var j :| 0 <= j < |groups| && groups[j] in mid && |mid[groups[j]]| > limit;
    OneMorePage(r, limit);
    var g := groups[j];
    assert g in groups && mid[g] == DropFirst(start[g], r * limit);
  }

  lemma FewerSmooth(faults: Faults, rounds: nat, n: nat)
    ensures AllSmooth(faults, rounds, n) ==> forall r: nat | r <= rounds :: AllSmooth(faults, r, n)
  {}

  /** One round: fetch a page and drain it. */
  method Round(engine: SyncEngine, server: PendingServer, limit: nat, faults: Faults, r: nat,
               ghost start: map<string, seq<Message>>, ghost log: Log)
    returns (ok: bool, more: bool)
    requires LogOk(log) && StoredFrom(log, engine.store.messages) && limit >= 1 && Distinct(server.groups)
    requires Standing(server.groups, start, server.pending, r, limit, faults, log, engine.store.messages)
    modifies engine.store, server`pending
    ensures StoredFrom(log, engine.store.messages)
    ensures Standing(server.groups, start, server.pending, r + 1, limit, faults, log, engine.store.messages)
    ensures AllSmooth(faults, r + 1, |server.groups|) ==> ok
    ensures ok && !more && AllSmooth(faults, r + 1, |server.groups|) ==>
              FullyDrained(server.groups, start, server.pending, engine.store.messages)
    ensures ok && more ==> GoesOnForAReason(server.groups, start, r + 1, limit, faults)
  {
    hide StoredFrom, LogOk, Queue, AnyBeyond, FullyDrained, Released, AllReleased, AllDropped, Distinct, Smooth;
    ghost var mid, messages := server.pending, engine.store.messages;
    QueuesOf(server.groups, start, mid, log, messages);
    ok, more := DrainPage(engine, server, limit, faults, r, log);
    StandingStep(server.groups, start, mid, server.pending, r, limit, faults, log, messages, engine.store.messages);
    LastRound(faults, r, |server.groups|);
    hide AllSmooth, Longer;
    if ok && more && AllSmooth(faults, r + 1, |server.groups|) && !faults.cursor(r) {
      FewerSmooth(faults, r + 1, |server.groups|);
      BeyondMeansLonger(server.groups, start, mid, r, limit);
    }
    if ok && !more && AllSmooth(faults, r + 1, |server.groups|) {
      LastPageEmpties(server.groups, start, mid, server.pending, limit, log, engine.store.messages);
    }
  }

  lemma LastRound(faults: Faults, r: nat, n: nat)
    ensures AllSmooth(faults, r + 1, n) ==> PageSmooth(faults, r, n)
  {}

  /**
   * `rest_catch_up`: at most 50 rounds. Always, whatever fails: what the server releases is stored. If all
   * stores and acks succeeded, each round takes exactly one page off every queue; and if it stopped because
   * nothing reported more, every undelivered message of every group is stored and every queue is empty. That
   * is where it ends if nothing fails, no page claims more than it has, and no queue is longer than 50 pages.
   */
  method RestCatchUp(engine: SyncEngine, server: PendingServer, limit: nat, faults: Faults, ghost log: Log)
    returns (ok: bool, rounds: nat, more: bool)
    requires LogOk(log) && StoredFrom(log, engine.store.messages) && limit >= 1 && Distinct(server.groups)
    requires forall g | g in server.groups :: g in server.pending && Queue(log, g, server.pending[g])
    modifies engine.store, server`pending
    ensures rounds <= 50 && (ok ==> rounds >= 1) && (ok && more ==> rounds == 50)
    ensures (forall r: nat | r < 50 :: !faults.fetchFails(r)) && AllSmooth(faults, 50, |server.groups|) ==> ok
    ensures ok && AllSmooth(faults, 50, |server.groups|) && (forall r: nat | r < 50 :: !faults.cursor(r))
            && !Longer(server.groups, old(server.pending), 50 * limit) ==>
              FullyDrained(server.groups, old(server.pending), server.pending, engine.store.messages)
    ensures Standing(server.groups, old(server.pending), server.pending, rounds, limit, faults, log,
                     engine.store.messages)
    ensures ok && !more && AllSmooth(faults, rounds, |server.groups|) ==>
              FullyDrained(server.groups, old(server.pending), server.pending, engine.store.messages)
  {
    ghost var start := server.pending;
    NothingReleased(server.groups, start, log, engine.store.messages);
    NothingDropped(server.groups, start);
    FewerSmooth(faults, 50, |server.groups|);
    assert Standing(server.groups, start, start, 0, limit, faults, log, engine.store.messages);
    hide StoredFrom, LogOk, Queue, FullyDrained, AllReleased, AllDropped, Distinct, AllSmooth, Longer, Standing;
    rounds, more := 0, true;
    while rounds < MAX_ROUNDS
      invariant rounds <= MAX_ROUNDS && more
      invariant GoesOnForAReason(server.groups, start, rounds, limit, faults)
      invariant StoredFrom(log, engine.store.messages)
      invariant Standing(server.groups, start, server.pending, rounds, limit, faults, log, engine.store.messages)
    {
      if faults.fetchFails(rounds) {
        return false, rounds, more;
      }
      ok, more := Round(engine, server, limit, faults, rounds, start, log);
      rounds := rounds + 1;
      if !ok {
        return false, rounds, more;
      }
      if !more {
        break;
      }
    }
    ok := true;
  }

  /** A round that loses no ack strictly shrinks every non-empty queue. */
  lemma RoundShrinks(groups: seq<string>, before: map<string, seq<Message>>, after: map<string, seq<Message>>,
      limit: nat, g: string)
    requires AllDropped(groups, before, after, limit) && limit >= 1 && g in groups && before[g] != []
    ensures |after[g]| < |before[g]|
  {
  }
}
