/** What a batch asks of a conversation: what is due, what is left over, what a gap-free batch leaves behind. */
module ForwardingBatches {
  import opened Entities
  import opened Reconciler
  import opened Forwarding

  // ---- an undisturbed forward, as a function ---------------------------------------------

  predicate Due(c: Conv, m: Message, base: int) {
    m.seqNo > base && m.id !in c.mapped && m.body != ""
  }

  function ForwardOne(c: Conv, m: Message, base: int): Conv {
    if Due(c, m, base) then Recorded(Sent(c, m), m) else c
  }

  function ForwardPrefix(c: Conv, ms: seq<Message>, n: nat): Conv
    requires n <= |ms|
  {
    if n == 0 then c else ForwardOne(ForwardPrefix(c, ms, n - 1), ms[n - 1], c.bookmark)
  }

  /** The newest seq that was sent, or the bookmark. */
  function TopSent(c: Conv, ms: seq<Message>, n: nat): int
    requires n <= |ms|
  {
    if n == 0 then c.bookmark
    else if Due(ForwardPrefix(c, ms, n - 1), ms[n - 1], c.bookmark) then Max(TopSent(c, ms, n - 1), ms[n - 1].seqNo)
    else TopSent(c, ms, n - 1)
  }

  function Settled(c: Conv, top: int): Conv {
    if top > c.bookmark then Blanked(Advanced(c, top), top) else c
  }

  function ForwardAll(c: Conv, batch: seq<Message>): Conv {
    var ms := SortBySeq(batch);
    Settled(ForwardPrefix(c, ms, |ms|), TopSent(c, ms, |ms|))
  }

  // ---- leftovers ----------------------------------------------------------------------------

  /** A row above the creation bookmark that was never recorded as delivered. */
  predicate Left(c: Conv, r: Message) {
    c.created < r.seqNo && r.id !in c.mapped
  }

  function LeftIn(c: Conv, rows: seq<Message>): seq<Message> {
    if |rows| == 0 then []
    else LeftIn(c, rows[..|rows| - 1]) + (if Left(c, rows[|rows| - 1]) then [rows[|rows| - 1]] else [])
  }

  function Leftovers(c: Conv): seq<Message> {
    LeftIn(c, c.local)
  }

  /** The newest `limit` rows, ascending by seq. */
  function Thread(rows: seq<Message>, limit: nat): seq<Message> {
    rows[if limit <= |rows| then |rows| - limit else 0..]
  }

  function WithText(rows: seq<Message>, bookmark: int): seq<Message> {
    if |rows| == 0 then []
    else
      var m := rows[|rows| - 1];
      WithText(rows[..|rows| - 1], bookmark) + (if m.seqNo > bookmark && m.body != "" then [m] else [])
  }

  /** What a new conversation imports: of the newest `limit` rows, those that still have their text. */
  function History(local: seq<Message>, limit: nat): seq<Message> {
    WithText(Thread(local, limit), if |local| > 0 then local[0].seqNo - 1 else 0)
  }

  function FlushBatch(c: Conv, limit: nat): seq<Message> {
    WithText(Thread(c.local, limit), c.bookmark)
  }

  lemma {:induction false} WithTextMembers(rows: seq<Message>, bookmark: int)
    ensures forall m :: m in WithText(rows, bookmark) <==> m in rows && m.seqNo > bookmark && m.body != ""
    ensures Ascending(rows) ==> Ascending(WithText(rows, bookmark))
  {
    if |rows| == 0 {
    } else {
      var init, last := rows[..|rows| - 1], rows[|rows| - 1];
      assert rows == init + [last];
      WithTextMembers(init, bookmark);
      var p := WithText(init, bookmark);
      if Ascending(rows) {
        forall i | 0 <= i < |p| ensures p[i].seqNo < last.seqNo {
          assert p[i] in init;
        }
      }
    }
  }

  /** Leftovers are what lies above a point, so counting them tells which rows they are. */
  lemma {:induction false} LeftIsSuffix(c: Conv, rows: seq<Message>)
    requires forall i, j | 0 <= i < j < |rows| :: Left(c, rows[i]) ==> Left(c, rows[j])
    ensures |LeftIn(c, rows)| <= |rows|
    ensures forall i | 0 <= i < |rows| :: Left(c, rows[i]) <==> i >= |rows| - |LeftIn(c, rows)|
  {
    if |rows| == 0 {
    } else {
      LeftIsSuffix(c, rows[..|rows| - 1]);
    }
  }

  lemma LeftIsUpward(c: Conv)
    requires Basic(c) && NoLoss(c)
    ensures forall i, j | 0 <= i < j < |c.local| :: Left(c, c.local[i]) ==> Left(c, c.local[j])
  {
    forall i, j | 0 <= i < j < |c.local| && Left(c, c.local[i]) ensures Left(c, c.local[j]) {
      var r, q := c.local[i], c.local[j];
      assert r in c.local && q in c.local;
      if q.id in c.mapped {
        var x :| x in c.recorded && x.id == q.id;
        SameRow(c, q, x);
      }
    }
  }

  /** The rows left over are exactly the newest ones, as many as are counted. */
  lemma LeftoversAreNewest(c: Conv)
    requires Basic(c) && NoLoss(c)
    ensures |Leftovers(c)| <= |c.local|
    ensures forall i | 0 <= i < |c.local| :: Left(c, c.local[i]) <==> i >= |c.local| - |Leftovers(c)|
  {
    LeftIsUpward(c);
    LeftIsSuffix(c, c.local);
  }

  lemma FlushBatchCached(c: Conv, limit: nat)
    ensures AllCached(c, FlushBatch(c, limit))
  {
    WithTextMembers(Thread(c.local, limit), c.bookmark);
    forall m | m in FlushBatch(c, limit) ensures Cached(c, m) {
      assert m in c.local;
      var i :| 0 <= i < |c.local| && c.local[i] == m;
      assert RowOf(c.local[i], m);
    }
  }

  lemma LeftIsPending(c: Conv, r: Message)
    requires NoLoss(c) && r in c.local && Left(c, r)
    ensures r.seqNo > c.bookmark && r.body != ""
  {}

  lemma RowInThread(c: Conv, limit: nat, i: nat)
    requires |c.local| - limit <= i < |c.local|
    ensures c.local[i] in Thread(c.local, limit)
  {
    var start := |c.local| - |Thread(c.local, limit)|;
    assert Thread(c.local, limit)[i - start] == c.local[i];
  }

  lemma LeftIsFlushed(c: Conv, limit: nat, r: Message)
    requires Basic(c) && NoLoss(c) && |Leftovers(c)| <= limit
    requires r in c.local && Left(c, r)
    ensures r in FlushBatch(c, limit)
  {
    hide Basic, Leftovers, Thread;
    LeftoversAreNewest(c);
    LeftIsPending(c, r);
    hide NoLoss;
    var i :| 0 <= i < |c.local| && c.local[i] == r;
    RowInThread(c, limit, i);
    WithTextMembers(Thread(c.local, limit), c.bookmark);
  }

  /** A flush whose window holds every leftover builds a gap-free batch. */
  lemma FlushBatchGapFree(c: Conv, limit: nat)
    requires Basic(c) && NoLoss(c) && |Leftovers(c)| <= limit
    ensures GapFree(c, FlushBatch(c, limit))
  {
    hide NoLoss, Basic, Leftovers, FlushBatch;
    forall r | r in c.local && Left(c, r) ensures InBatch(r.id, FlushBatch(c, limit)) {
      LeftIsFlushed(c, limit, r);
    }
  }

  /** One undisturbed flush. */
  function Flushed(c: Conv, limit: nat): Conv {
    ForwardAll(c, FlushBatch(c, limit))
  }

  lemma NothingToForward(c: Conv)
    ensures ForwardAll(c, []) == c
  {
    assert SortBySeq([]) == [];
  }

  // ---- one message after the other -------------------------------------------------------------

  lemma SkipKeeps(c: Conv, m: Message)
    requires Cached(c, m)
    requires m.seqNo <= c.bookmark || m.id in c.mapped || m.body == ""
    ensures NoLoss(c) ==> Done(c, m)
  {
    if NoLoss(c) && m.id !in c.mapped {
      SkippedIsDone(c, m);
    }
  }

  /** Everything below the message is delivered already, unless the bookmark has passed it. */
  ghost predicate Ready(c: Conv, m: Message) {
    m.seqNo > c.bookmark ==> MappedUpTo(c, m.seqNo - 1)
  }

  lemma ReadyStays(c: Conv, d: Conv, m: Message)
    requires Basic(c) && Basic(d) && Extends(c, d) && Cached(c, m) && m.seqNo > c.bookmark
    ensures d.created < m.seqNo
    ensures Ready(c, m) ==> MappedUpTo(d, m.seqNo - 1)
  {
    if Ready(c, m) {
      MappedUpToStays(c, d, m, m.seqNo - 1);
    }
  }

  lemma BlankStep(c: Conv, n: int)
    requires Basic(c)
    ensures Basic(Blanked(c, n)) && Extends(c, Blanked(c, n))
    ensures NoLoss(c) && n <= c.bookmark ==> NoLoss(Blanked(c, n))
  {
    BlankedExtends(c, n);
    BlankedBasic(c, n);
    if NoLoss(c) && n <= c.bookmark {
      BlankedNoLoss(c, n);
    }
  }

  lemma MappedStays(c: Conv, d: Conv)
    requires Extends(c, d)
    ensures c.mapped <= d.mapped && c.created == d.created && c.bookmark <= d.bookmark
  {}

  lemma SortedBatch(c: Conv, batch: seq<Message>)
    ensures WeaklyAscending(SortBySeq(batch))
    ensures forall m :: m in SortBySeq(batch) <==> m in batch
    ensures AllCached(c, batch) ==> AllCached(c, SortBySeq(batch))
    ensures GapFree(c, batch) <==> GapFree(c, SortBySeq(batch))
  {
    SortBySeqSorts(batch);
    var ms := SortBySeq(batch);
    forall m ensures m in ms <==> m in batch {
      assert m in ms <==> m in multiset(ms);
      assert m in batch <==> m in multiset(batch);
    }
    hide SortBySeq, Cached;
    forall id ensures InBatch(id, batch) <==> InBatch(id, ms) {}
  }

  lemma BasicAscends(c: Conv)
    requires Basic(c)
    ensures Ascending(c.local)
  {}

  ghost predicate TopIsOf(ms: seq<Message>, n: nat, base: int, top: int)
    requires n <= |ms|
  {
    base <= top && (top == base || exists j :: 0 <= j < n && ms[j].seqNo == top)
  }

  ghost predicate AllDone(c: Conv, ms: seq<Message>, n: nat)
    requires n <= |ms|
  {
    forall j | 0 <= j < n :: Done(c, ms[j])
  }

  lemma CachedAt(start: Conv, c: Conv, ms: seq<Message>, i: nat)
    requires AllCached(start, ms) && Extends(start, c) && i < |ms|
    ensures Cached(c, ms[i])
  {
    CachedStays(start, c, ms[i]);
  }

  /** In a sorted gap-free batch, the next message has nothing undelivered below it. */
  lemma NextIsReady(start: Conv, c: Conv, ms: seq<Message>, i: nat)
    requires Basic(c) && Extends(start, c) && AllCached(start, ms) && WeaklyAscending(ms) && i < |ms|
    ensures GapFree(start, ms) && AllDone(c, ms, i) ==> Ready(c, ms[i])
  {
    hide Extends, Cached;
    GapFreeStays(start, c, ms) by { BasicAscends(c); }
    hide Basic, GapFree, AllCached, Done, MappedUpTo;
    if GapFree(start, ms) && AllDone(c, ms, i) {
      var n := ms[i].seqNo - 1;
      forall m | m in ms && m.seqNo <= n ensures Done(c, m) {
        var j :| 0 <= j < |ms| && ms[j] == m;
      }
      DoneMeansMapped(c, ms, ms[i], n);
    }
  }

  lemma AllDoneStays(c: Conv, d: Conv, ms: seq<Message>, n: nat)
    requires Extends(c, d) && n <= |ms|
    ensures AllDone(c, ms, n) ==> AllDone(d, ms, n)
  {
    MappedStays(c, d);
  }

  /** After a gap-free batch has been worked through, nothing below its newest message is undelivered. */
  lemma AdvanceReady(start: Conv, c: Conv, ms: seq<Message>, base: int, top: int) returns (last: Message)
    requires Basic(c) && Extends(start, c) && AllCached(start, ms)
    requires TopIsOf(ms, |ms|, base, top) && base < top
    ensures Cached(c, last) && last.seqNo == top
    ensures GapFree(start, ms) && AllDone(c, ms, |ms|) ==> MappedUpTo(c, top)
  {
    hide Extends, Cached;
    GapFreeStays(start, c, ms) by { BasicAscends(c); }
    hide Basic, GapFree, Done, MappedUpTo;
    var j :| 0 <= j < |ms| && ms[j].seqNo == top;
    last := ms[j];
    if GapFree(start, ms) && AllDone(c, ms, |ms|) {
      DoneMeansMapped(c, ms, last, top);
    }
  }
}
