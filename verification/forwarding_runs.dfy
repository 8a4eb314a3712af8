/**
 * Forwarding as it runs: every await may let rows arrive and may fail before or after taking effect. The
 * durable effect of each operation is a function of where it starts and of the environment; the class
 * performs the same operations step by step.
 */
module ForwardingRuns {
  import opened Entities
  import opened Reconciler
  import opened Forwarding
  import opened ForwardingBatches

  /** What a call does to the conversation when it takes effect. */
  datatype Effect =
    | Read
    | Send(message: Message)
    | Record(message: Message)
    | Advance(seqNo: int)
    | Blank(seqNo: int)

  /** The durable state, how many awaits have gone by, and whether all went well so far. */
  datatype Point = Point(conv: Conv, awaits: nat, ok: bool)

  /** How far the loop over a batch got, and the newest seq it sent. */
  datatype Progress = Progress(at: Point, top: int)

  function Apply(c: Conv, e: Effect): Conv {
    match e
    case Read => c
    case Send(m) => Sent(c, m)
    case Record(m) => Recorded(c, m)
    case Advance(n) => Advanced(c, n)
    case Blank(n) => Blanked(c, n)
  }

  /** An await: rows arrive, then the call takes effect unless it failed before it could. */
  function Call(p: Point, e: Effect, env: Env): Point {
    var c := ArriveAll(p.conv, env.arrives(p.awaits));
    var fault := env.fault(p.awaits);
    Point(if fault == FailsBefore then c else Apply(c, e), p.awaits + 1, fault == Fine)
  }

  /** Send a message, record its mapping, read the conversation back. */
  function Deliver(p: Point, m: Message, env: Env): Point {
    var sent := Call(p, Send(m), env);
    if !sent.ok then sent
    else
      var recorded := Call(sent, Record(m), env);
      if !recorded.ok then recorded else Call(recorded, Read, env)
  }

  /** A message above the bookmark that the lookup finds unmapped, with its text, is delivered. */
  predicate Delivers(p: Point, m: Message, base: int, env: Env) {
    var looked := Call(p, Read, env);
    m.seqNo > base && looked.ok && m.id !in looked.conv.mapped && m.body != ""
  }

  function ForwardMessage(p: Point, m: Message, base: int, env: Env): Point {
    if m.seqNo <= base then p
    else
      var looked := Call(p, Read, env);
      if Delivers(p, m, base, env) then Deliver(looked, m, env) else looked
  }

  /** The loop over the first `n` messages of a sorted batch. */
  function ForwardSorted(p: Point, ms: seq<Message>, n: nat, env: Env): Progress
    requires n <= |ms|
  {
    if n == 0 then Progress(p, p.conv.bookmark)
    else
      var so := ForwardSorted(p, ms, n - 1, env);
      if !so.at.ok then so
      else
        var m := ms[n - 1];
        var at := ForwardMessage(so.at, m, p.conv.bookmark, env);
        Progress(at, if at.ok && Delivers(so.at, m, p.conv.bookmark, env) then Max(so.top, m.seqNo) else so.top)
  }

  /** Move the bookmark, and blank the text once that is durable; failing to blank is no failure. */
  function Finish(p: Point, top: int, env: Env): Point {
    var moved := Call(p, Advance(top), env);
    if !moved.ok then moved else Call(moved, Blank(top), env).(ok := true)
  }

  function ForwardTo(p: Point, batch: seq<Message>, env: Env): Point {
    var read := Call(p, Read, env);
    if !read.ok then read
    else
      var ms := SortBySeq(batch);
      var done := ForwardSorted(read, ms, |ms|, env);
      if done.at.ok && done.top > read.conv.bookmark then Finish(done.at, done.top, env) else done.at
  }

  /** Where a flush started at `p` reads the rows. */
  function Look(p: Point, env: Env): Point {
    Call(p, Read, env)
  }

  function Flush(p: Point, env: Env): Point {
    var look := Look(p, env);
    var batch := FlushBatch(look.conv, FLUSH_WINDOW);
    if !look.ok || batch == [] then look else ForwardTo(look, batch, env)
  }

  /** After `rounds` flushes; the next one starts whatever became of the last. */
  function Flushes(p: Point, rounds: nat, env: Env): Point {
    if rounds == 0 then p else Flush(Flushes(p, rounds - 1, env), env)
  }

  // ---- one call ---------------------------------------------------------------------------------

  /** What a call needs to keep the basic promises. */
  ghost predicate Allowed(c: Conv, e: Effect) {
    match e
    case Read => true
    case Send(m) => m.id !in c.mapped
    case Record(m) => Cached(c, m) && WasSent(c, m.id)
    case Advance(n) => c.bookmark <= n
    case Blank(_) => true
  }

  ghost predicate CachedSeq(c: Conv, n: int) {
    exists m :: Cached(c, m) && m.seqNo == n
  }

  /** What a call needs to lose nothing. */
  ghost predicate Safe(c: Conv, e: Effect) {
    match e
    case Read => true
    case Send(m) => true
    case Record(m) => m.id !in c.mapped && c.created < m.seqNo && Cached(c, m) && MappedUpTo(c, m.seqNo - 1)
    case Advance(n) => CachedSeq(c, n) && MappedUpTo(c, n)
    case Blank(n) => n <= c.bookmark
  }

  lemma ApplyKeeps(c: Conv, e: Effect)
    requires Basic(c) && Allowed(c, e)
    ensures Basic(Apply(c, e)) && Extends(c, Apply(c, e))
    ensures NoLoss(c) && Safe(c, e) ==> NoLoss(Apply(c, e))
  {
    hide Basic, Extends, NoLoss, Cached, WasSent, MappedUpTo;
    match e
    case Read => SameExtends(c);
    case Send(m) => SentKeeps(c, m);
    case Record(m) =>
      RecordedBasic(c, m);
      if NoLoss(c) && Safe(c, e) {
        RecordedNoLoss(c, m);
      }
    case Advance(n) => AdvancedKeeps(c, n);
    case Blank(n) => BlankStep(c, n);
  }

  /** Rows that arrive take away neither what allows a call nor what makes it safe. */
  lemma GuardsStay(c: Conv, d: Conv, e: Effect)
    requires Basic(d) && Extends(c, d) && d.mapped == c.mapped && d.bookmark == c.bookmark
    ensures Allowed(c, e) ==> Allowed(d, e)
    ensures Safe(c, e) ==> Safe(d, e)
  {
    BasicAscends(d);
    hide Basic, Cached, WasSent, MappedUpTo;
    assert c.created == d.created;
    hide Extends;
    match e
    case Record(m) =>
      if Allowed(c, e) {
        CachedStays(c, d, m);
        WasSentStays(c, d, m.id);
      }
      if Safe(c, e) {
        CachedStays(c, d, m);
        MappedUpToStays(c, d, m, m.seqNo - 1);
      }
    case Advance(n) =>
      if Safe(c, e) {
        var m :| Cached(c, m) && m.seqNo == n;
        CachedStays(c, d, m);
        MappedUpToStays(c, d, m, n);
      }
    case _ =>
  }

  /** Whatever arrives and however the call ends, it keeps the promises. */
  lemma CallKeeps(p: Point, e: Effect, env: Env)
    requires Basic(p.conv) && Allowed(p.conv, e)
    ensures var q := Call(p, e, env); Basic(q.conv) && Extends(p.conv, q.conv)
    ensures NoLoss(p.conv) && Safe(p.conv, e) ==> NoLoss(Call(p, e, env).conv)
  {
    hide Basic, Extends, NoLoss, Allowed, Safe, Apply;
    var c := ArriveAll(p.conv, env.arrives(p.awaits));
    ArriveAllKeeps(p.conv, env.arrives(p.awaits));
    GuardsStay(p.conv, c, e);
    ApplyKeeps(c, e);
    ExtendsTrans(p.conv, c, Apply(c, e));
  }

  lemma ReadStays(p: Point, env: Env)
    requires Basic(p.conv)
    ensures var q := Call(p, Read, env);
            && Basic(q.conv) && Extends(p.conv, q.conv) && (NoLoss(p.conv) ==> NoLoss(q.conv))
            && q.conv.mapped == p.conv.mapped && q.conv.bookmark == p.conv.bookmark
  {
    hide Basic, Extends, NoLoss;
    ArriveAllKeeps(p.conv, env.arrives(p.awaits));
  }

  // ---- one message --------------------------------------------------------------------------------

  lemma SendTakesEffect(p: Point, m: Message, env: Env)
    requires Basic(p.conv)
    ensures var q := Call(p, Send(m), env);
            q.conv.mapped == p.conv.mapped && q.conv.bookmark == p.conv.bookmark && (q.ok ==> WasSent(q.conv, m.id))
  {
    ArriveAllKeeps(p.conv, env.arrives(p.awaits));
    SentExtends(ArriveAll(p.conv, env.arrives(p.awaits)), m);
  }

  lemma RecordTakesEffect(p: Point, m: Message, env: Env)
    requires Basic(p.conv)
    ensures var q := Call(p, Record(m), env);
            q.conv.bookmark == p.conv.bookmark && (q.ok ==> m.id in q.conv.mapped)
  {
    ArriveAllKeeps(p.conv, env.arrives(p.awaits));
  }

  /** Delivering the lowest message still due keeps everything, and success leaves it mapped. */
  lemma DeliverKeeps(p: Point, m: Message, env: Env)
    requires Basic(p.conv) && Cached(p.conv, m) && m.id !in p.conv.mapped
    ensures var q := Deliver(p, m, env);
            && Basic(q.conv) && Extends(p.conv, q.conv) && q.conv.bookmark == p.conv.bookmark
            && (q.ok ==> m.id in q.conv.mapped)
            && (NoLoss(p.conv) && p.conv.created < m.seqNo && MappedUpTo(p.conv, m.seqNo - 1) ==> NoLoss(q.conv))
  {
    hide Basic, Extends, NoLoss, Cached, WasSent, MappedUpTo, Call;
    var sent := Call(p, Send(m), env);
    CallKeeps(p, Send(m), env);
    SendTakesEffect(p, m, env);
    if sent.ok {
      CachedStays(p.conv, sent.conv, m);
      RecordIsSafe(p.conv, sent.conv, m);
      var recorded := Call(sent, Record(m), env);
      CallKeeps(sent, Record(m), env);
      RecordTakesEffect(sent, m, env);
      ExtendsTrans(p.conv, sent.conv, recorded.conv);
      ReadStays(recorded, env);
      ExtendsTrans(p.conv, recorded.conv, Call(recorded, Read, env).conv);
    }
  }

  lemma RecordIsSafe(c: Conv, d: Conv, m: Message)
    requires Basic(d) && Extends(c, d) && d.mapped == c.mapped && Cached(c, m) && m.id !in c.mapped
    ensures c.created < m.seqNo && MappedUpTo(c, m.seqNo - 1) ==> Safe(d, Record(m))
  {
    CachedStays(c, d, m);
    if MappedUpTo(c, m.seqNo - 1) {
      MappedUpToStays(c, d, m, m.seqNo - 1);
    }
  }

  /** A message at or below the bookmark, mapped or blank is skipped; any other is delivered. */
  lemma ForwardMessageKeeps(p: Point, m: Message, env: Env)
    requires p.ok && Basic(p.conv) && Cached(p.conv, m)
    ensures var q := ForwardMessage(p, m, p.conv.bookmark, env);
            && Basic(q.conv) && Extends(p.conv, q.conv) && q.conv.bookmark == p.conv.bookmark
            && (NoLoss(p.conv) && Ready(p.conv, m) ==> NoLoss(q.conv) && (q.ok ==> Done(q.conv, m)))
  {
    hide Basic, Extends, NoLoss, Cached, MappedUpTo, Call, Deliver;
    if m.seqNo <= p.conv.bookmark {
      SameExtends(p.conv);
      SkipKeeps(p.conv, m);
    } else {
      var looked := Call(p, Read, env);
      ReadStays(p, env);
      CachedStays(p.conv, looked.conv, m);
      if Delivers(p, m, p.conv.bookmark, env) {
        ReadyStays(p.conv, looked.conv, m);
        DeliverKeeps(looked, m, env);
        ExtendsTrans(p.conv, looked.conv, Deliver(looked, m, env).conv);
      } else if looked.ok {
        SkipKeeps(looked.conv, m);
      }
    }
  }

  // ---- a batch ----------------------------------------------------------------------------------

  /** The loop keeps every promise, and over a gap-free batch gets every message done. */
  lemma {:induction false} ForwardSortedKeeps(p: Point, ms: seq<Message>, n: nat, env: Env)
    requires p.ok && Basic(p.conv) && AllCached(p.conv, ms) && WeaklyAscending(ms) && n <= |ms|
    ensures var q := ForwardSorted(p, ms, n, env);
            && Basic(q.at.conv) && Extends(p.conv, q.at.conv) && q.at.conv.bookmark == p.conv.bookmark
            && TopIsOf(ms, n, p.conv.bookmark, q.top)
            && (NoLoss(p.conv) && GapFree(p.conv, ms) ==>
                  NoLoss(q.at.conv) && (q.at.ok ==> AllDone(q.at.conv, ms, n)))
  {
    hide Basic, Extends, NoLoss, Cached, AllCached, GapFree, Done, MappedUpTo, Ready, WeaklyAscending, Call,
         ForwardMessage, Delivers;
    if n == 0 {
      SameExtends(p.conv);
    } else {
      ForwardSortedKeeps(p, ms, n - 1, env);
      var so := ForwardSorted(p, ms, n - 1, env);
      if so.at.ok {
        var m := ms[n - 1];
        CachedAt(p.conv, so.at.conv, ms, n - 1);
        NextIsReady(p.conv, so.at.conv, ms, n - 1);
        ForwardMessageKeeps(so.at, m, env);
        DeliversIsNewer(so.at, m, p.conv.bookmark, env);
        var at := ForwardMessage(so.at, m, p.conv.bookmark, env);
        ExtendsTrans(p.conv, so.at.conv, at.conv);
        AllDoneStays(so.at.conv, at.conv, ms, n - 1);
      }
    }
  }

  lemma DeliversIsNewer(p: Point, m: Message, base: int, env: Env)
    ensures Delivers(p, m, base, env) ==> m.seqNo > base
  {}

  lemma FinishKeeps(p: Point, top: int, env: Env)
    requires Basic(p.conv) && p.conv.bookmark < top && CachedSeq(p.conv, top)
    ensures var q := Finish(p, top, env);
            && Basic(q.conv) && Extends(p.conv, q.conv)
            && (NoLoss(p.conv) && MappedUpTo(p.conv, top) ==> NoLoss(q.conv))
  {
    hide Basic, Extends, NoLoss, CachedSeq, MappedUpTo, Call;
    CallKeeps(p, Advance(top), env);
    var moved := Call(p, Advance(top), env);
    if moved.ok {
      AdvanceTakesEffect(p, top, env);
      CallKeeps(moved, Blank(top), env);
      ExtendsTrans(p.conv, moved.conv, Call(moved, Blank(top), env).conv);
    }
  }

  lemma AdvanceTakesEffect(p: Point, top: int, env: Env)
    ensures Call(p, Advance(top), env).ok ==> Call(p, Advance(top), env).conv.bookmark == top
  {}

  /** Whatever fails or arrives, forwarding a batch keeps the promises; a gap-free batch loses nothing. */
  lemma ForwardToKeeps(p: Point, batch: seq<Message>, env: Env)
    requires Basic(p.conv) && AllCached(p.conv, batch)
    ensures var q := ForwardTo(p, batch, env);
            && Basic(q.conv) && Extends(p.conv, q.conv)
            && (NoLoss(p.conv) && GapFree(p.conv, batch) ==> NoLoss(q.conv))
  {
    hide Basic, Extends, NoLoss, Cached, AllCached, GapFree, Done, MappedUpTo, WeaklyAscending, SortBySeq, Call,
         ForwardSorted, Finish;
    var ms := SortBySeq(batch);
    SortedBatch(p.conv, batch);
    var read := Call(p, Read, env);
    ReadStays(p, env);
    GapFreeStays(p.conv, read.conv, ms) by { BasicAscends(read.conv); }
    if read.ok {
      ForwardSortedKeeps(read, ms, |ms|, env);
      var done := ForwardSorted(read, ms, |ms|, env);
      ExtendsTrans(p.conv, read.conv, done.at.conv);
      if done.at.ok && done.top > read.conv.bookmark {
        var last := AdvanceReady(read.conv, done.at.conv, ms, read.conv.bookmark, done.top);
        assert CachedSeq(done.at.conv, done.top);
        FinishKeeps(done.at, done.top, env);
        ExtendsTrans(p.conv, done.at.conv, Finish(done.at, done.top, env).conv);
      }
    }
  }

  // ---- flushes ------------------------------------------------------------------------------------

  /** The rows that a flush finds undelivered when it reads them are no more than it looks at. */
  predicate Fits(p: Point, env: Env) {
    |Leftovers(Look(p, env).conv)| <= 500
  }

  lemma FlushKeeps(p: Point, env: Env)
    requires Basic(p.conv)
    ensures Basic(Flush(p, env).conv) && Extends(p.conv, Flush(p, env).conv)
    ensures NoLoss(p.conv) && Fits(p, env) ==> NoLoss(Flush(p, env).conv)
  {
    hide Basic, Extends, NoLoss, Leftovers, FlushBatch, GapFree, AllCached, Call, ForwardTo;
    var look := Look(p, env);
    ReadStays(p, env);
    var batch := FlushBatch(look.conv, FLUSH_WINDOW);
    if look.ok && batch != [] {
      FlushBatchCached(look.conv, FLUSH_WINDOW);
      if NoLoss(look.conv) && Fits(p, env) {
        FlushBatchGapFree(look.conv, FLUSH_WINDOW);
      }
      ForwardToKeeps(look, batch, env);
      ExtendsTrans(p.conv, look.conv, ForwardTo(look, batch, env).conv);
    }
  }

  /**
   * Any number of flushes, whatever fails and arrives in between. Always: nothing recorded is sent again,
   * nothing is recorded that was not sent, the bookmark never decreases and the record only grows. And if
   * each flush, when it read the rows, found no more undelivered ones than it looks at: the record is
   * strictly ascending by seq, and nothing above the creation bookmark is passed over or blanked
   * undelivered.
   */
  lemma {:induction false} FlushesKeepThePromises(p: Point, rounds: nat, env: Env)
    requires Basic(p.conv)
    ensures var q := Flushes(p, rounds, env); Basic(q.conv) && Extends(p.conv, q.conv)
    ensures NoLoss(p.conv) && (forall i: nat | i < rounds :: Fits(Flushes(p, i, env), env)) ==>
              NoLoss(Flushes(p, rounds, env).conv)
  {
    hide Basic, Extends, NoLoss, Flush, Fits;
    if rounds == 0 {
      SameExtends(p.conv);
    } else {
      var q := Flushes(p, rounds - 1, env);
      FlushesKeepThePromises(p, rounds - 1, env);
      FlushKeeps(q, env);
      ExtendsTrans(p.conv, q.conv, Flush(q, env).conv);
    }
  }

  // ---- undisturbed ----------------------------------------------------------------------------------

  /** Nothing fails and nothing arrives. */
  ghost predicate Calm(env: Env) {
    forall n: nat :: env.fault(n) == Fine && env.arrives(n) == []
  }

  lemma CalmCall(p: Point, e: Effect, env: Env)
    requires Calm(env)
    ensures Call(p, e, env) == Point(Apply(p.conv, e), p.awaits + 1, true)
  {}

  lemma CalmMessage(p: Point, m: Message, base: int, env: Env)
    requires Calm(env) && p.ok
    ensures ForwardMessage(p, m, base, env).ok && ForwardMessage(p, m, base, env).conv == ForwardOne(p.conv, m, base)
    ensures Delivers(p, m, base, env) == Due(p.conv, m, base)
  {
    hide Call, Calm;
    CalmCall(p, Read, env);
    var looked := Call(p, Read, env);
    CalmCall(looked, Send(m), env);
    var sent := Call(looked, Send(m), env);
    CalmCall(sent, Record(m), env);
    CalmCall(Call(sent, Record(m), env), Read, env);
  }

  lemma {:induction false} CalmSorted(p: Point, ms: seq<Message>, n: nat, env: Env)
    requires Calm(env) && p.ok && n <= |ms|
    ensures var q := ForwardSorted(p, ms, n, env);
            q.at.ok && q.at.conv == ForwardPrefix(p.conv, ms, n) && q.top == TopSent(p.conv, ms, n)
  {
    hide Calm, ForwardMessage, ForwardOne, Due, Delivers;
    if n == 0 {
    } else {
      CalmSorted(p, ms, n - 1, env);
      CalmMessage(ForwardSorted(p, ms, n - 1, env).at, ms[n - 1], p.conv.bookmark, env);
    }
  }

  /** Undisturbed, a forward is the plain one: deliver what is due in order, move the bookmark, blank. */
  lemma CalmForward(p: Point, batch: seq<Message>, env: Env)
    requires Calm(env)
    ensures ForwardTo(p, batch, env).ok && ForwardTo(p, batch, env).conv == ForwardAll(p.conv, batch)
  {
    hide Calm, Call, ForwardSorted, ForwardPrefix, TopSent, SortBySeq;
    var ms := SortBySeq(batch);
    CalmCall(p, Read, env);
    var read := Call(p, Read, env);
    CalmSorted(read, ms, |ms|, env);
    var done := ForwardSorted(read, ms, |ms|, env);
    CalmCall(done.at, Advance(done.top), env);
    CalmCall(Call(done.at, Advance(done.top), env), Blank(done.top), env);
    PrefixBookmark(p.conv, ms, |ms|);
  }

  lemma {:induction false} PrefixBookmark(c: Conv, ms: seq<Message>, n: nat)
    requires n <= |ms|
    ensures ForwardPrefix(c, ms, n).bookmark == c.bookmark
  {
    if n == 0 {
    } else {
      PrefixBookmark(c, ms, n - 1);
    }
  }

  lemma CalmFlush(p: Point, env: Env)
    requires Calm(env)
    ensures Flush(p, env).ok && Flush(p, env).conv == Flushed(p.conv, FLUSH_WINDOW)
  {
    hide Calm, Call, ForwardTo, ForwardAll, FlushBatch;
    CalmCall(p, Read, env);
    NothingToForward(p.conv);
    if FlushBatch(p.conv, FLUSH_WINDOW) != [] {
      CalmForward(Call(p, Read, env), FlushBatch(p.conv, FLUSH_WINDOW), env);
    }
  }

  // ---- the class --------------------------------------------------------------------------------------

  lemma {:induction false} FailureStays(p: Point, ms: seq<Message>, i: nat, n: nat, env: Env)
    requires i <= n <= |ms| && !ForwardSorted(p, ms, i, env).at.ok
    ensures ForwardSorted(p, ms, n, env) == ForwardSorted(p, ms, i, env)
  {
    if i < n {
      FailureStays(p, ms, i, n - 1, env);
    }
  }

  /** The bridge's side of one conversation: its durable state, and how many awaits have gone by. */
  class Forwarder {
    var conv: Conv
    var awaits: nat

    function Here(ok: bool): Point
      reads this
    {
      Point(conv, awaits, ok)
    }

    constructor (c: Conv)
      ensures conv == c && awaits == 0
    {
      conv, awaits := c, 0;
    }

    method Await(e: Effect, env: Env) returns (ok: bool)
      modifies this
      ensures Here(ok) == Call(old(Here(true)), e, env)
    {
      conv := ArriveAll(conv, env.arrives(awaits));
      var fault := env.fault(awaits);
      awaits := awaits + 1;
      if fault != FailsBefore {
        conv := Apply(conv, e);
      }
      ok := fault == Fine;
    }

    /** One message of a batch, `base` being the bookmark read under the lock. */
    method ForwardOne(m: Message, base: int, env: Env) returns (ok: bool, due: bool)
      modifies this
      ensures Here(ok) == ForwardMessage(old(Here(true)), m, base, env)
      ensures due == (ok && Delivers(old(Here(true)), m, base, env))
    {
      hide Call;
      ok, due := true, false;
      if m.seqNo <= base {
        return;
      }
      ok := Await(Read, env);
      if !ok || m.id in conv.mapped || m.body == "" {
        return;
      }
      ok := Await(Send(m), env);
      if !ok {
        return;
      }
      ok := Await(Record(m), env);
      if !ok {
        return;
      }
      ok := Await(Read, env);
      due := ok;
    }

    /**
     * Send what is due in seq order, move the bookmark, blank the text. Whatever fails or arrives, the
     * promises are kept; a batch without gaps loses nothing.
     */
    method Forward(batch: seq<Message>, env: Env) returns (ok: bool)
      requires Basic(conv) && AllCached(conv, batch)
      modifies this
      ensures Here(ok) == ForwardTo(old(Here(true)), batch, env)
      ensures Basic(conv) && Extends(old(conv), conv)
      ensures NoLoss(old(conv)) && GapFree(old(conv), batch) ==> NoLoss(conv)
    {
      ForwardToKeeps(Here(true), batch, env);
      hide Basic, AllCached, Extends, NoLoss, GapFree, Call, ForwardMessage, Delivers, SortBySeq;
      var ms := SortBySeq(batch);
      ok := Await(Read, env);
      if !ok {
        return;
      }
      ghost var read := Here(true);
      var base := conv.bookmark;
      var top := base;
      for i := 0 to |ms|
        invariant ok && ForwardSorted(read, ms, i, env) == Progress(Here(true), top)
      {
        var due;
        ok, due := ForwardOne(ms[i], base, env);
        if !ok {
          FailureStays(read, ms, i + 1, |ms|, env);
          return;
        }
        if due {
          top := Max(top, ms[i].seqNo);
        }
      }
      if top > base {
        ok := Await(Advance(top), env);
        if ok {
          var _ := Await(Blank(top), env);
        }
      }
    }

    /** Forward what the newest rows hold beyond the bookmark. */
    method FlushUnforwarded(env: Env) returns (ok: bool)
      requires Basic(conv)
      modifies this
      ensures Here(ok) == Flush(old(Here(true)), env)
      ensures Basic(conv) && Extends(old(conv), conv)
      ensures NoLoss(old(conv)) && |Leftovers(Look(old(Here(true)), env).conv)| <= 500 ==> NoLoss(conv)
    {
      FlushKeeps(Here(true), env);
      ReadStays(Here(true), env);
      hide Basic, Extends, NoLoss, Leftovers, FlushBatch, AllCached, Call, ForwardTo;
      ok := Await(Read, env);
      var pending := FlushBatch(conv, FLUSH_WINDOW);
      if !ok || pending == [] {
        return;
      }
      FlushBatchCached(conv, FLUSH_WINDOW);
      ok := Forward(pending, env);
    }

    /** The main loop's repeated flushes, whatever fails or arrives in between. */
    method KeepFlushing(rounds: nat, env: Env)
      requires Basic(conv)
      modifies this
      ensures exists ok :: Here(ok) == Flushes(old(Here(true)), rounds, env)
      ensures Basic(conv) && Extends(old(conv), conv)
      ensures NoLoss(old(conv)) && (forall i: nat | i < rounds :: Fits(Flushes(old(Here(true)), i, env), env)) ==>
                NoLoss(conv)
    {
      FlushesKeepThePromises(Here(true), rounds, env);
      hide Basic, Extends, NoLoss, Flush, Fits;
      ghost var p := Here(true);
      ghost var last := true;
      for i := 0 to rounds
        invariant Here(last) == Flushes(p, i, env)
        invariant Basic(conv)
      {
        FlushIgnoresOk(Here(last), env);
        FlushesKeepThePromises(p, i, env);
        var ok := FlushUnforwarded(env);
        last := ok;
      }
    }
  }

  /** A flush starts afresh, whatever became of the last one. */
  lemma FlushIgnoresOk(p: Point, env: Env)
    ensures Flush(p, env) == Flush(p.(ok := true), env)
  {}
}
