/** Exactly when an undisturbed flush delivers everything, and what it loses otherwise. */
module ForwardingLimits {
  import opened Entities
  import opened Reconciler
  import opened Forwarding
  import opened ForwardingBatches
  import ForwardingRuns

  lemma InsertLast(ms: seq<Message>, m: Message)
    requires |ms| > 0 ==> ms[|ms| - 1].seqNo < m.seqNo
    ensures InsertBySeq(ms, m) == ms + [m]
  {}

  lemma {:induction false} SortedStays(ms: seq<Message>)
    requires Ascending(ms)
    ensures SortBySeq(ms) == ms
  {
    hide InsertBySeq;
    if |ms| == 0 {
    } else {
      var init, last := ms[..|ms| - 1], ms[|ms| - 1];
      SortedStays(init);
      assert ms == init + [last];
      InsertLast(init, last);
    }
  }

  /** A message that a forward sends unless it has a mapping row already. */
  predicate Wanted(c: Conv, m: Message) {
    m.seqNo > c.bookmark && m.body != ""
  }

  lemma {:induction false} PrefixMapped(c: Conv, ms: seq<Message>, n: nat)
    requires n <= |ms|
    ensures var d := ForwardPrefix(c, ms, n);
            && d.local == c.local && d.created == c.created && d.bookmark == c.bookmark
            && forall id :: id in d.mapped <==>
                 id in c.mapped || exists j :: 0 <= j < n && ms[j].id == id && Wanted(c, ms[j])
  {
    if n == 0 {
    } else {
      PrefixMapped(c, ms, n - 1);
    }
  }

  lemma {:induction false} NothingDue(c: Conv, ms: seq<Message>, n: nat)
    requires n <= |ms| && forall m | m in ms :: m.id in c.mapped
    ensures ForwardPrefix(c, ms, n) == c && TopSent(c, ms, n) == c.bookmark
  {
    if n == 0 {
    } else {
      NothingDue(c, ms, n - 1);
      assert ms[n - 1] in ms;
    }
  }

  ghost predicate SameIdSameSeq(ms: seq<Message>) {
    forall i, j | 0 <= i < |ms| && 0 <= j < |ms| && ms[i].id == ms[j].id :: ms[i].seqNo == ms[j].seqNo
  }

  lemma CachedSameSeq(c: Conv, ms: seq<Message>)
    requires Basic(c) && AllCached(c, ms)
    ensures SameIdSameSeq(ms)
  {
    forall i, j | 0 <= i < |ms| && 0 <= j < |ms| && ms[i].id == ms[j].id
      ensures ms[i].seqNo == ms[j].seqNo
    {
      assert Cached(c, ms[i]) && Cached(c, ms[j]);
    }
  }

  lemma {:induction false} TopSentBounds(c: Conv, ms: seq<Message>, n: nat)
    requires n <= |ms| && SameIdSameSeq(ms)
    ensures TopIsOf(ms, n, c.bookmark, TopSent(c, ms, n))
    ensures forall j | 0 <= j < n && Due(c, ms[j], c.bookmark) :: ms[j].seqNo <= TopSent(c, ms, n)
  {
    if n == 0 {
    } else {
      TopSentBounds(c, ms, n - 1);
      PrefixMapped(c, ms, n - 1);
    }
  }

  lemma {:induction false} PrefixBasic(c: Conv, ms: seq<Message>, n: nat)
    requires n <= |ms| && Basic(c) && AllCached(c, ms)
    ensures Basic(ForwardPrefix(c, ms, n)) && Extends(c, ForwardPrefix(c, ms, n))
  {
    hide Basic, Extends, Cached;
    if n == 0 {
      SameExtends(c);
    } else {
      PrefixBasic(c, ms, n - 1);
      OneBasic(ForwardPrefix(c, ms, n - 1), ms[n - 1], c.bookmark) by {
        CachedAt(c, ForwardPrefix(c, ms, n - 1), ms, n - 1);
      }
      ExtendsTrans(c, ForwardPrefix(c, ms, n - 1), ForwardPrefix(c, ms, n));
    }
  }

  lemma OneBasic(c: Conv, m: Message, base: int)
    requires Basic(c) && Cached(c, m)
    ensures Basic(ForwardOne(c, m, base)) && Extends(c, ForwardOne(c, m, base))
  {
    hide Basic, Extends, Cached;
    SameExtends(c);
    if Due(c, m, base) {
      SentKeeps(c, m);
      CachedStays(c, Sent(c, m), m);
      RecordedBasic(Sent(c, m), m);
      ExtendsTrans(c, Sent(c, m), Recorded(Sent(c, m), m));
    }
  }

  lemma OneNoLoss(c: Conv, m: Message)
    requires Basic(c) && NoLoss(c) && Cached(c, m) && Ready(c, m)
    ensures NoLoss(ForwardOne(c, m, c.bookmark)) && Done(ForwardOne(c, m, c.bookmark), m)
  {
    if Due(c, m, c.bookmark) {
      SentKeeps(c, m);
      CachedStays(c, Sent(c, m), m);
      MappedUpToStays(c, Sent(c, m), m, m.seqNo - 1);
      hide NoLoss, Cached, Extends, MappedUpTo;
      RecordedNoLoss(Sent(c, m), m);
    } else {
      SkipKeeps(c, m);
    }
  }

  lemma {:induction false} PrefixNoLoss(c: Conv, ms: seq<Message>, n: nat)
    requires n <= |ms| && Basic(c) && AllCached(c, ms) && WeaklyAscending(ms)
    requires NoLoss(c) && GapFree(c, ms)
    ensures NoLoss(ForwardPrefix(c, ms, n)) && AllDone(ForwardPrefix(c, ms, n), ms, n)
  {
    hide Basic, NoLoss, Extends, Cached, AllCached, GapFree, WeaklyAscending, Ready, Done, Due;
    if n == 0 {
    } else {
      var d := ForwardPrefix(c, ms, n - 1);
      PrefixNoLoss(c, ms, n - 1);
      PrefixBasic(c, ms, n - 1);
      CachedAt(c, d, ms, n - 1);
      NextIsReady(c, d, ms, n - 1);
      PrefixMapped(c, ms, n - 1);
      OneNoLoss(d, ms[n - 1]);
      OneBasic(d, ms[n - 1], c.bookmark);
      AllDoneStays(d, ForwardPrefix(c, ms, n), ms, n - 1);
    }
  }

  /** What was sent: each of these once, none of them mapped before. */
  function Logs(ms: seq<Message>): (r: seq<SendLog>)
    ensures |r| == |ms| && forall i | 0 <= i < |ms| :: r[i] == SendLog(ms[i].id, false)
  {
    seq(|ms|, i requires 0 <= i < |ms| => SendLog(ms[i].id, false))
  }

  /** In seq order, no id twice. */
  ghost predicate OnceInOrder(ms: seq<Message>) {
    WeaklyAscending(ms) && forall i, j | 0 <= i < j < |ms| :: ms[i].id != ms[j].id
  }

  /** The messages of `ms` that were due, each once and in order, are what was sent and recorded since `c`. */
  ghost predicate SentExactly(c: Conv, ms: seq<Message>, sent: seq<Message>, d: Conv) {
    && d.sends == c.sends + Logs(sent) && d.recorded == c.recorded + sent && OnceInOrder(sent)
    && (forall x | x in sent :: x in ms)
    && (forall m | m in ms && m.seqNo > c.bookmark && m.body != "" && m.id !in c.mapped :: InBatch(m.id, sent))
    && (forall x | x in sent :: x.seqNo > c.bookmark && x.body != "" && x.id !in c.mapped)
  }

  /** The ids with a mapping row are those of before and those just sent. */
  ghost predicate MappedSince(c: Conv, sent: seq<Message>, d: Conv) {
    forall id :: id in d.mapped <==> id in c.mapped || InBatch(id, sent)
  }

  lemma InBatchPush(ms: seq<Message>, m: Message)
    ensures forall id :: InBatch(id, ms + [m]) <==> InBatch(id, ms) || id == m.id
  {
    forall id ensures InBatch(id, ms + [m]) <==> InBatch(id, ms) || id == m.id {
      assert m in ms + [m];
      if x :| x in ms && x.id == id {
        assert x in ms + [m];
      }
    }
  }

  lemma LogsPush(ms: seq<Message>, m: Message)
    ensures Logs(ms + [m]) == Logs(ms) + [SendLog(m.id, false)]
  {
  }

  lemma OncePush(ms: seq<Message>, m: Message)
    requires OnceInOrder(ms) && !InBatch(m.id, ms) && forall x | x in ms :: x.seqNo <= m.seqNo
    ensures OnceInOrder(ms + [m])
  {
  }

  /** One more message of the batch, in seq order. */
  lemma SendOne(c: Conv, ms: seq<Message>, m: Message, sent: seq<Message>, d: Conv)
    requires SentExactly(c, ms, sent, d) && MappedSince(c, sent, d)
    requires forall x | x in ms :: x.seqNo <= m.seqNo
    ensures var more := if Due(d, m, c.bookmark) then sent + [m] else sent;
            var e := ForwardOne(d, m, c.bookmark);
            SentExactly(c, ms + [m], more, e) && MappedSince(c, more, e)
  {
    InBatchPush(sent, m);
    LogsPush(sent, m);
    hide InBatch, WeaklyAscending;
    assert forall x :: x in ms + [m] <==> x in ms || x == m;
    if Due(d, m, c.bookmark) {
      OncePush(sent, m);
      hide Logs, OnceInOrder, Due;
      assert forall x :: x in sent + [m] <==> x in sent || x == m;
      assert c.sends + Logs(sent + [m]) == c.sends + Logs(sent) + [SendLog(m.id, false)];
      assert c.recorded + (sent + [m]) == c.recorded + sent + [m];
    }
  }

  lemma NothingSent(c: Conv)
    ensures SentExactly(c, [], [], c) && MappedSince(c, [], c)
  {
    assert c.sends + Logs([]) == c.sends && c.recorded + [] == c.recorded;
  }

  lemma {:induction false} PrefixSends(c: Conv, ms: seq<Message>, n: nat) returns (sent: seq<Message>)
    requires n <= |ms| && WeaklyAscending(ms)
    ensures SentExactly(c, ms[..n], sent, ForwardPrefix(c, ms, n)) && MappedSince(c, sent, ForwardPrefix(c, ms, n))
  {
    hide SentExactly, MappedSince, ForwardOne, Due;
    if n == 0 {
      sent := [];
      NothingSent(c);
    } else {
      var so := PrefixSends(c, ms, n - 1);
      var d := ForwardPrefix(c, ms, n - 1);
      assert ms[..n] == ms[..n - 1] + [ms[n - 1]];
      SendOne(c, ms[..n - 1], ms[n - 1], so, d);
      sent := if Due(d, ms[n - 1], c.bookmark) then so + [ms[n - 1]] else so;
    }
  }

  /**
   * An undisturbed forward sends exactly the messages of the batch that lie above the bookmark, have their
   * text and no mapping row: each once, in seq order, and records each as it sends it.
   */
  lemma ForwardSendsOnce(p: ForwardingRuns.Point, batch: seq<Message>, env: Env) returns (sent: seq<Message>)
    requires ForwardingRuns.Calm(env)
    ensures SentExactly(p.conv, batch, sent, ForwardingRuns.ForwardTo(p, batch, env).conv)
  {
    var c, ms := p.conv, SortBySeq(batch);
    ForwardingRuns.CalmForward(p, batch, env);
    SortBySeqSorts(batch);
    SameMembers(batch);
    SettlingSendsNothing(c, batch);
    hide SortBySeq, WeaklyAscending, ForwardPrefix, ForwardAll, SentExactly;
    sent := PrefixSends(c, ms, |ms|);
    assert ms[..|ms|] == ms;
    SameSent(c, ms, batch, sent, ForwardPrefix(c, ms, |ms|), ForwardAll(c, batch));
  }

  lemma SameMembers(batch: seq<Message>)
    ensures forall m :: m in SortBySeq(batch) <==> m in batch
  {
    SortBySeqSorts(batch);
    hide SortBySeq, WeaklyAscending;
    forall m ensures m in SortBySeq(batch) <==> m in batch {
      assert m in SortBySeq(batch) <==> m in multiset(SortBySeq(batch));
      assert m in batch <==> m in multiset(batch);
    }
  }

  lemma SettlingSendsNothing(c: Conv, batch: seq<Message>)
    ensures var ms := SortBySeq(batch);
            var d, e := ForwardPrefix(c, ms, |ms|), ForwardAll(c, batch);
            e.sends == d.sends && e.recorded == d.recorded
  {
  }

  lemma SameSent(c: Conv, ms: seq<Message>, batch: seq<Message>, sent: seq<Message>, d: Conv, e: Conv)
    requires SentExactly(c, ms, sent, d) && e.sends == d.sends && e.recorded == d.recorded
    requires forall m :: m in ms <==> m in batch
    ensures SentExactly(c, batch, sent, e)
  {
    hide Logs, OnceInOrder, InBatch;
  }

  /** An undisturbed forward of a gap-free batch loses nothing. */
  lemma ForwardAllNoLoss(c: Conv, batch: seq<Message>)
    requires Basic(c) && NoLoss(c) && AllCached(c, batch) && GapFree(c, batch)
    ensures NoLoss(ForwardAll(c, batch))
  {
    hide Basic, NoLoss, Extends, Cached, AllCached, GapFree, WeaklyAscending, Done, MappedUpTo, SortBySeq;
    var ms := SortBySeq(batch);
    SortedBatch(c, batch);
    PrefixNoLoss(c, ms, |ms|);
    PrefixBasic(c, ms, |ms|);
    PrefixMapped(c, ms, |ms|);
    CachedSameSeq(c, ms);
    TopSentBounds(c, ms, |ms|);
    var d, top := ForwardPrefix(c, ms, |ms|), TopSent(c, ms, |ms|);
    if top > c.bookmark {
      var last := AdvanceReady(c, d, ms, c.bookmark, top);
      AdvancedKeeps(d, top);
      BlankStep(Advanced(d, top), top);
    }
  }

  // ---- what skipping costs ------------------------------------------------------------------

  lemma MappedIsOlder(c: Conv, r: Message, m: Message)
    requires Basic(c) && NoLoss(c) && r in c.local && Left(c, r) && Cached(c, m) && m.id in c.mapped
    ensures m.seqNo < r.seqNo
  {
    var x :| x in c.recorded && x.id == m.id;
    assert x.seqNo == m.seqNo by { assert Cached(c, x); }
  }

  /** A message of the batch that lies above a leftover is itself due. */
  lemma AboveLeftIsDue(c: Conv, r: Message, m: Message)
    requires Basic(c) && NoLoss(c) && r in c.local && Left(c, r) && Cached(c, m) && r.seqNo <= m.seqNo
    ensures Due(c, m, c.bookmark)
  {
    LeftIsPending(c, r);
    if m.id in c.mapped {
      MappedIsOlder(c, r, m);
    } else if m.body == "" {
      SkippedIsDone(c, m);
    }
  }

  lemma SettledRow(c: Conv, top: int, r: Message)
    requires r in c.local && r.seqNo <= top && c.bookmark < top
    ensures r.(body := "") in Settled(c, top).local
    ensures Settled(c, top).bookmark == top && Settled(c, top).mapped == c.mapped
    ensures Settled(c, top).created == c.created
  {
    var i :| 0 <= i < |c.local| && c.local[i] == r;
    assert Settled(c, top).local[i] == r.(body := "");
  }

  lemma StaysUnmapped(c: Conv, ms: seq<Message>, id: string)
    requires id !in c.mapped && !InBatch(id, ms)
    ensures id !in ForwardPrefix(c, ms, |ms|).mapped
  {
    PrefixMapped(c, ms, |ms|);
    forall k | 0 <= k < |ms| ensures ms[k].id != id {
      assert ms[k] in ms;
    }
  }

  lemma TopCovers(c: Conv, ms: seq<Message>, m: Message)
    requires Basic(c) && AllCached(c, ms) && m in ms && Due(c, m, c.bookmark)
    ensures m.seqNo <= TopSent(c, ms, |ms|)
  {
    CachedSameSeq(c, ms);
    TopSentBounds(c, ms, |ms|);
    var j :| 0 <= j < |ms| && ms[j] == m;
  }

  /** A row passed over by an undisturbed forward is blanked although it was never delivered. */
  lemma {:induction false} SkippedIsLost(c: Conv, batch: seq<Message>, r: Message, m: Message)
    requires Basic(c) && NoLoss(c) && AllCached(c, batch)
    requires r in c.local && Left(c, r) && !InBatch(r.id, batch) && m in batch && r.seqNo <= m.seqNo
    ensures var d := ForwardAll(c, batch);
            r.(body := "") in d.local && r.seqNo <= d.bookmark && Left(d, r)
  {
    var ms := SortBySeq(batch);
    SortedBatch(c, batch);
    AboveLeftIsDue(c, r, m);
    hide SortBySeq, NoLoss, Basic, AllCached, Settled;
    TopCovers(c, ms, m);
    PrefixMapped(c, ms, |ms|);
    StaysUnmapped(c, ms, r.id);
    SettledRow(ForwardPrefix(c, ms, |ms|), TopSent(c, ms, |ms|), r);
  }

  lemma LostRow(c: Conv, r: Message)
    requires r in c.local && Left(c, r) && r.body == ""
    ensures !NoLoss(c)
  {}

  /** From a state without losses, an undisturbed forward stays without losses exactly for gap-free batches. */
  lemma {:induction false} LosesNothingIffGapFree(c: Conv, batch: seq<Message>)
    requires Basic(c) && NoLoss(c) && AllCached(c, batch)
    ensures NoLoss(ForwardAll(c, batch)) <==> GapFree(c, batch)
  {
    if GapFree(c, batch) {
      ForwardAllNoLoss(c, batch);
    } else {
      var r, m :| r in c.local && c.created < r.seqNo && m in batch && r.seqNo <= m.seqNo
                  && r.id !in c.mapped && !InBatch(r.id, batch);
      SkippedIsLost(c, batch, r, m);
      LostRow(ForwardAll(c, batch), r.(body := ""));
    }
  }

  // ---- the window -----------------------------------------------------------------------------

  lemma WindowAscends(c: Conv, limit: nat)
    requires Basic(c)
    ensures Ascending(FlushBatch(c, limit))
  {
    WithTextMembers(Thread(c.local, limit), c.bookmark);
  }

  lemma OutsideWindow(c: Conv, limit: nat, i: nat)
    requires Basic(c) && i < |c.local| - limit
    ensures !InBatch(c.local[i].id, FlushBatch(c, limit))
  {
    WithTextMembers(Thread(c.local, limit), c.bookmark);
    forall x | x in FlushBatch(c, limit) ensures x.id != c.local[i].id {
      var k :| 0 <= k < |Thread(c.local, limit)| && Thread(c.local, limit)[k] == x;
      assert c.local[|c.local| - limit + k] == x;
    }
  }

  lemma InsideWindow(c: Conv, limit: nat, i: nat)
    requires NoLoss(c) && |c.local| - limit <= i < |c.local| && Left(c, c.local[i])
    ensures c.local[i] in FlushBatch(c, limit)
  {
    LeftIsPending(c, c.local[i]);
    RowInThread(c, limit, i);
    WithTextMembers(Thread(c.local, limit), c.bookmark);
  }

  /** Flushing works through the window as it is: it is sorted already. */
  lemma FlushedMapped(c: Conv, limit: nat)
    requires Basic(c)
    ensures Flushed(c, limit).mapped == ForwardPrefix(c, FlushBatch(c, limit), |FlushBatch(c, limit)|).mapped
  {
    WindowAscends(c, limit);
    SortedStays(FlushBatch(c, limit));
  }

  lemma WindowIsMapped(c: Conv, limit: nat, r: Message)
    requires r in FlushBatch(c, limit) && Wanted(c, r)
    ensures r.id in ForwardPrefix(c, FlushBatch(c, limit), |FlushBatch(c, limit)|).mapped
  {
    hide FlushBatch, Wanted;
    var ms := FlushBatch(c, limit);
    PrefixMapped(c, ms, |ms|);
    var j :| 0 <= j < |ms| && ms[j] == r;
  }

  /** A leftover row gets its mapping in an undisturbed flush exactly when the window shows it. */
  lemma FlushDeliversTheWindow(c: Conv, limit: nat, i: nat)
    requires Basic(c) && NoLoss(c) && i < |c.local| && Left(c, c.local[i])
    ensures c.local[i].id in Flushed(c, limit).mapped <==> |c.local| - limit <= i
  {
    FlushedMapped(c, limit);
    LeftIsPending(c, c.local[i]);
    hide NoLoss, Basic, FlushBatch, Flushed, ForwardPrefix;
    if i < |c.local| - limit {
      OutsideWindow(c, limit, i);
      StaysUnmapped(c, FlushBatch(c, limit), c.local[i].id);
    } else {
      InsideWindow(c, limit, i);
      WindowIsMapped(c, limit, c.local[i]);
    }
  }

  /** An undisturbed flush keeps every promise exactly when the leftovers fit in its window. */
  lemma FlushIsSafeIffLeftoversFit(c: Conv, limit: nat)
    requires Basic(c) && NoLoss(c) && 0 < limit
    ensures NoLoss(Flushed(c, limit)) <==> |Leftovers(c)| <= limit
  {
    var batch := FlushBatch(c, limit);
    FlushBatchCached(c, limit);
    LosesNothingIffGapFree(c, batch);
    LeftoversAreNewest(c);
    if |Leftovers(c)| <= limit {
      FlushBatchGapFree(c, limit);
    } else {
      var n := |c.local|;
      var r, m := c.local[n - |Leftovers(c)|], c.local[n - 1];
      OutsideWindow(c, limit, n - |Leftovers(c)|);
      InsideWindow(c, limit, n - 1);
    }
  }

  /**
   * The flush that runs: undisturbed, from a state without losses, it stays without losses exactly when
   * the rows it reads hold no more undelivered ones than it looks at.
   */
  lemma RunningFlushIsSafeIffFits(p: ForwardingRuns.Point, env: Env)
    requires ForwardingRuns.Calm(env) && Basic(p.conv) && NoLoss(p.conv)
    ensures NoLoss(ForwardingRuns.Flush(p, env).conv) <==> ForwardingRuns.Fits(p, env)
  {
    hide NoLoss, Basic, Leftovers, Flushed, ForwardingRuns.Calm, ForwardingRuns.Flush, ForwardingRuns.Call;
    ForwardingRuns.CalmFlush(p, env);
    ForwardingRuns.CalmCall(p, ForwardingRuns.Read, env);
    FlushIsSafeIffLeftoversFit(p.conv, FLUSH_WINDOW);
  }

  lemma {:induction false} NoneLeft(c: Conv, rows: seq<Message>)
    requires forall i | 0 <= i < |rows| :: !Left(c, rows[i])
    ensures LeftIn(c, rows) == []
  {
    if |rows| == 0 {
    } else {
      NoneLeft(c, rows[..|rows| - 1]);
    }
  }

  lemma CachedBelowLast(c: Conv, m: Message)
    requires Ascending(c.local) && Cached(c, m)
    ensures |c.local| > 0 && m.seqNo <= c.local[|c.local| - 1].seqNo
  {}

  lemma TopIsLast(c: Conv, ms: seq<Message>)
    requires Basic(c) && AllCached(c, ms)
    requires |c.local| > 0 && c.local[|c.local| - 1] in ms && Due(c, c.local[|c.local| - 1], c.bookmark)
    ensures TopSent(c, ms, |ms|) == c.local[|c.local| - 1].seqNo
  {
    var last := c.local[|c.local| - 1];
    TopCovers(c, ms, last);
    CachedSameSeq(c, ms);
    BasicAscends(c);
    hide Basic, Cached, TopSent;
    TopSentBounds(c, ms, |ms|);
    forall m | m in ms ensures m.seqNo <= last.seqNo {
      CachedBelowLast(c, m);
    }
  }

  /** If anything is left over, the last row is. */
  lemma LastIsLeft(c: Conv)
    requires Basic(c) && NoLoss(c) && 0 < |Leftovers(c)|
    ensures |c.local| > 0 && Left(c, c.local[|c.local| - 1]) && Due(c, c.local[|c.local| - 1], c.bookmark)
  {
    LeftoversAreNewest(c);
    hide Leftovers, Basic;
    LeftIsPending(c, c.local[|c.local| - 1]);
  }

  lemma FlushTop(c: Conv, limit: nat)
    requires Basic(c) && NoLoss(c) && 0 < |Leftovers(c)| && 0 < limit
    ensures |c.local| > 0
    ensures var ms := FlushBatch(c, limit);
            TopSent(c, ms, |ms|) == c.local[|c.local| - 1].seqNo && c.bookmark < TopSent(c, ms, |ms|)
  {
    hide NoLoss, Basic, Leftovers, FlushBatch, TopSent, Left;
    LastIsLeft(c);
    FlushBatchCached(c, limit);
    InsideWindow(c, limit, |c.local| - 1);
    TopIsLast(c, FlushBatch(c, limit));
  }

  /** When they fit, everything cached is delivered and blanked, and the bookmark is at the end. */
  lemma {:induction false} FlushDeliversAll(c: Conv, limit: nat)
    requires Basic(c) && NoLoss(c) && 0 < |Leftovers(c)| <= limit
    ensures Leftovers(Flushed(c, limit)) == []
    ensures Flushed(c, limit).bookmark == c.local[|c.local| - 1].seqNo
    ensures forall r | r in Flushed(c, limit).local :: r.body == ""
  {
    var d, ms := Flushed(c, limit), FlushBatch(c, limit);
    WindowAscends(c, limit);
    SortedStays(ms);
    FlushTop(c, limit);
    PrefixMapped(c, ms, |ms|);
    LeftoversAreNewest(c);
    BasicAscends(c);
    hide NoLoss, Basic, FlushBatch, Leftovers, ForwardPrefix, TopSent;
    forall i | 0 <= i < |d.local| ensures !Left(d, d.local[i]) && d.local[i].body == "" {
      if Left(c, c.local[i]) {
        FlushDeliversTheWindow(c, limit, i);
      }
    }
    NoneLeft(d, d.local);
    assert Leftovers(d) == LeftIn(d, d.local) by { LeftoversDef(d); }
  }

  lemma LeftoversDef(c: Conv)
    ensures Leftovers(c) == LeftIn(c, c.local)
  {}

  // ---- two inputs that lose text ------------------------------------------------------------------

  /** `n` rows with text, seqs 1 to `n`, ids of growing length. */
  function Rows(n: nat): (r: seq<Message>)
    ensures |r| == n
    ensures forall i | 0 <= i < n :: r[i].seqNo == i + 1 && |r[i].id| == i + 1 && r[i].body == "hi"
  {
    if n == 0 then []
    else Rows(n - 1) + [Message(seq(n, _ => 'x'), "g", n, "u", "hi", None, 0)]
  }

  /** A new conversation with `n` rows to deliver. */
  function Fresh(n: nat): Conv {
    Conv(Rows(n), 0, 0, {}, [], [])
  }

  lemma FreshIsSound(n: nat)
    ensures Basic(Fresh(n)) && NoLoss(Fresh(n)) && |Leftovers(Fresh(n))| == n
  {
    AllLeft(Fresh(n), Rows(n));
  }

  lemma {:induction false} AllLeft(c: Conv, rows: seq<Message>)
    requires forall i | 0 <= i < |rows| :: Left(c, rows[i])
    ensures |LeftIn(c, rows)| == |rows|
  {
    if |rows| == 0 {
    } else {
      AllLeft(c, rows[..|rows| - 1]);
    }
  }

  /** Two rows, and a batch that holds only the newer one: the older one's text is gone, undelivered. */
  lemma SkippingLosesText()
    ensures var c := Fresh(2);
            && Basic(c) && NoLoss(c) && AllCached(c, [c.local[1]])
            && c.local[0].(body := "") in ForwardAll(c, [c.local[1]]).local
            && c.local[0].id !in ForwardAll(c, [c.local[1]]).mapped
            && !NoLoss(ForwardAll(c, [c.local[1]]))
  {
    var c := Fresh(2);
    var batch := [c.local[1]];
    FreshIsSound(2);
    assert RowOf(c.local[1], c.local[1]);
    assert forall m | m in batch :: Cached(c, m);
    assert c.local[1] in batch && c.local[0].id != c.local[1].id;
    hide NoLoss, Basic, ForwardAll;
    SkippedIsLost(c, batch, c.local[0], c.local[1]);
    LostRow(ForwardAll(c, batch), c.local[0].(body := ""));
  }

  /** One row more than the window shows: an undisturbed flush loses the first row's text. */
  lemma OverflowLosesText(env: Env)
    requires ForwardingRuns.Calm(env)
    ensures var c := Fresh(501);
            var d := ForwardingRuns.Flush(ForwardingRuns.Point(c, 0, true), env).conv;
            && Basic(c) && NoLoss(c) && |Leftovers(c)| == 501
            && c.local[0].id !in d.mapped && !NoLoss(d)
  {
    var c := Fresh(FLUSH_WINDOW + 1);
    FreshIsSound(FLUSH_WINDOW + 1);
    hide NoLoss, Basic, Leftovers, Flushed, Rows, ForwardingRuns.Calm, ForwardingRuns.Flush;
    ForwardingRuns.CalmFlush(ForwardingRuns.Point(c, 0, true), env);
    FlushIsSafeIffLeftoversFit(c, FLUSH_WINDOW);
    FlushDeliversTheWindow(c, FLUSH_WINDOW, 0);
  }

  // ---- creation -------------------------------------------------------------------------------

  /** The bookmark of a new conversation: just below the history, or at the end of the cache. */
  function Mark(local: seq<Message>, limit: nat): int {
    var history := History(local, limit);
    if |history| > 0 then Max(history[0].seqNo - 1, 0)
    else if |local| > 0 then Max(local[|local| - 1].seqNo, 0)
    else 0
  }

  /** The conversation made for a group whose cache is `local`. */
  function Created(local: seq<Message>, limit: nat): Conv {
    Conv(local, Mark(local, limit), Mark(local, limit), {}, [], [])
  }

  /** No blank row lies above one with text. */
  ghost predicate TextIsNewest(rows: seq<Message>) {
    forall i, j | 0 <= i < j < |rows| :: rows[i].body != "" ==> rows[j].body != ""
  }

  /** The first row with text, or the end. */
  lemma {:induction false} WithTextFirst(rows: seq<Message>, below: int) returns (k: nat)
    requires forall m | m in rows :: m.seqNo > below
    ensures k <= |rows| && forall i | 0 <= i < k :: rows[i].body == ""
    ensures k < |rows| ==> rows[k].body != "" && WithText(rows, below) != [] && WithText(rows, below)[0] == rows[k]
    ensures k == |rows| ==> WithText(rows, below) == []
  {
    if |rows| == 0 {
      k := 0;
    } else {
      var init, last := rows[..|rows| - 1], rows[|rows| - 1];
      assert last in rows && forall m | m in init :: m in rows;
      k := WithTextFirst(init, below);
      if k == |init| && last.body == "" {
        k := |rows|;
      }
    }
  }

  predicate Positive(rows: seq<Message>) {
    forall m | m in rows :: m.seqNo > 0
  }

  /** The bookmark lies just below the first imported row with text, or at the end of the cache. */
  lemma MarkIs(local: seq<Message>, limit: nat) returns (k: nat)
    requires Ascending(local) && Positive(local)
    ensures |local| - |Thread(local, limit)| <= k <= |local|
    ensures forall i | |local| - |Thread(local, limit)| <= i < k :: local[i].body == ""
    ensures k < |local| ==> local[k].body != "" && Mark(local, limit) == local[k].seqNo - 1
    ensures k == |local| ==> forall i | 0 <= i < |local| :: local[i].seqNo <= Mark(local, limit)
  {
    k := 0;
    if |local| > 0 {
      ThreadRows(local, limit);
      var tail := Thread(local, limit);
      var t := WithTextFirst(tail, local[0].seqNo - 1);
      k := |local| - |tail| + t;
      assert History(local, limit) == WithText(tail, local[0].seqNo - 1);
      hide WithText, Thread, Mark, History;
      if k < |local| {
        assert tail[t] == local[k] && local[k] in local;
        MarkBelowHistory(local, limit);
      } else {
        MarkAtEnd(local, limit);
      }
    }
  }

  lemma ThreadRows(local: seq<Message>, limit: nat)
    requires Ascending(local) && |local| > 0
    ensures |Thread(local, limit)| <= |local|
    ensures forall i | 0 <= i < |Thread(local, limit)| ::
              Thread(local, limit)[i] == local[|local| - |Thread(local, limit)| + i]
    ensures forall m | m in Thread(local, limit) :: m.seqNo > local[0].seqNo - 1
  {
    var tail := Thread(local, limit);
    var skip := |local| - |tail|;
    assert tail == local[skip..];
    hide Thread;
    forall m | m in tail ensures m.seqNo > local[0].seqNo - 1 {
      var i :| 0 <= i < |tail| && tail[i] == m;
      assert skip + i == 0 || local[0].seqNo < local[skip + i].seqNo;
    }
  }

  lemma MarkAtEnd(local: seq<Message>, limit: nat)
    requires Ascending(local) && |local| > 0 && History(local, limit) == []
    ensures forall i | 0 <= i < |local| :: local[i].seqNo <= Mark(local, limit)
  {
    hide History;
  }

  lemma MarkBelowHistory(local: seq<Message>, limit: nat)
    requires History(local, limit) != [] && History(local, limit)[0].seqNo > 0
    ensures Mark(local, limit) == History(local, limit)[0].seqNo - 1
  {
    hide History;
  }

  lemma NoneBlankAbove(local: seq<Message>, limit: nat, i: nat)
    requires Ascending(local) && Positive(local) && TextIsNewest(Thread(local, limit))
    requires i < |local| && local[i].seqNo > Mark(local, limit)
    ensures local[i].body != ""
  {
    var k := MarkIs(local, limit);
    var tail := Thread(local, limit);
    var skip := |local| - |tail|;
    assert tail[k - skip] == local[k] && tail[i - skip] == local[i];
  }

  lemma BlankAbove(local: seq<Message>, limit: nat, i: nat, j: nat)
    requires Ascending(local) && Positive(local)
    requires i < j < |Thread(local, limit)|
    requires Thread(local, limit)[i].body != "" && Thread(local, limit)[j].body == ""
    ensures exists r :: r in local && r.seqNo > Mark(local, limit) && r.body == ""
  {
    var k := MarkIs(local, limit);
    var tail := Thread(local, limit);
    var skip := |local| - |tail|;
    assert tail[i] == local[skip + i] && tail[j] == local[skip + j];
    assert local[skip + j] in local;
  }

  /**
   * A new conversation starts with nothing lost above its bookmark exactly when, among the newest `limit`
   * rows it looks at, no blank one lies above one with text.
   */
  lemma CreatedIsSoundIffTextIsNewest(local: seq<Message>, limit: nat)
    requires Ascending(local) && Positive(local)
    requires forall i, j | 0 <= i < j < |local| :: local[i].id != local[j].id
    ensures Basic(Created(local, limit))
    ensures NoLoss(Created(local, limit)) <==> TextIsNewest(Thread(local, limit))
  {
    hide Mark, Thread;
    if TextIsNewest(Thread(local, limit)) {
      forall r | r in local && r.seqNo > Mark(local, limit) ensures r.body != "" {
        var i :| 0 <= i < |local| && local[i] == r;
        NoneBlankAbove(local, limit, i);
      }
    } else {
      var tail := Thread(local, limit);
      var i, j :| 0 <= i < j < |tail| && tail[i].body != "" && tail[j].body == "";
      BlankAbove(local, limit, i, j);
    }
  }

  /** An own newer message, blanked on confirmation before the older one arrived. */
  function OwnBlankedFirst(): (r: seq<Message>)
    ensures |r| == 2 && Ascending(r) && Positive(r) && r[0].id != r[1].id && r[0].body != "" && r[1].body == ""
  {
    [Message("a", "g", 1, "u", "hi", None, 0), Message("bb", "g", 2, "me", "", None, 0)]
  }

  lemma BlankAboveTextIsUnsound()
    ensures Basic(Created(OwnBlankedFirst(), 100)) && !NoLoss(Created(OwnBlankedFirst(), 100))
  {
    var local := OwnBlankedFirst();
    assert Thread(local, 100) == local;
    hide NoLoss, Basic, Created, OwnBlankedFirst, Thread, Ascending, Positive;
    CreatedIsSoundIffTextIsNewest(local, 100);
  }
}
