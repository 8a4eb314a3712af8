/**
 * Forwarding a group's messages to Telegram: a durable bookmark, a message-id mapping and redaction of
 * the cached text, with a failure, a crash or new arrivals possible at every await.
 */
module Forwarding {
  import opened Entities
  import opened Reconciler

  const FLUSH_WINDOW := 500

  /** A Telegram send, and whether the message had a mapping row already. */
  datatype SendLog = SendLog(id: string, mappedBefore: bool)

  /**
   * One conversation. `local` is the group's cached rows by seq; `created` is the bookmark the
   * conversation was created with; `mapped` are the message ids with a mapping row and `recorded` the
   * messages in the order their rows were written.
   */
  datatype Conv = Conv(
    local: seq<Message>,
    created: int,
    bookmark: int,
    mapped: set<string>,
    recorded: seq<Message>,
    sends: seq<SendLog>
  )

  /** How an await ends: well, failing with nothing done, or failing after it was done. */
  datatype Fault = Fine | FailsBefore | FailsAfter

  /** The environment, indexed by await: how it ends, and what arrives meanwhile. */
  datatype Env = Env(fault: nat -> Fault, arrives: nat -> seq<Message>)

  // ---- the steps on values ----------------------------------------------------------------

  predicate CanArrive(c: Conv, m: Message) {
    && m.body != "" && m.seqNo > c.bookmark
    && forall i | 0 <= i < |c.local| :: c.local[i].seqNo < m.seqNo && c.local[i].id != m.id
  }

  function Arrive(c: Conv, m: Message): Conv {
    if CanArrive(c, m) then c.(local := c.local + [m]) else c
  }

  function ArriveAll(c: Conv, ms: seq<Message>): Conv {
    if |ms| == 0 then c else Arrive(ArriveAll(c, ms[..|ms| - 1]), ms[|ms| - 1])
  }

  function Sent(c: Conv, m: Message): Conv {
    c.(sends := c.sends + [SendLog(m.id, m.id in c.mapped)])
  }

  function Recorded(c: Conv, m: Message): Conv {
    c.(mapped := c.mapped + {m.id}, recorded := c.recorded + [m])
  }

  function Advanced(c: Conv, n: int): Conv {
    c.(bookmark := n)
  }

  function BlankUpTo(ms: seq<Message>, n: int): (r: seq<Message>)
    ensures |r| == |ms|
    ensures forall i | 0 <= i < |ms| :: r[i] == if ms[i].seqNo <= n then ms[i].(body := "") else ms[i]
  {
    if |ms| == 0 then []
    else
      var m := ms[|ms| - 1];
      BlankUpTo(ms[..|ms| - 1], n) + [if m.seqNo <= n then m.(body := "") else m]
  }

  function Blanked(c: Conv, n: int): Conv {
    c.(local := BlankUpTo(c.local, n))
  }

  // ---- what is kept ---------------------------------------------------------------------

  /** The row of the cache that is message `m`; its text may have been blanked since. */
  predicate RowOf(r: Message, m: Message) {
    r.id == m.id && r.seqNo == m.seqNo && (m.body == "" ==> r.body == "")
  }

  ghost predicate Cached(c: Conv, m: Message) {
    exists i :: 0 <= i < |c.local| && RowOf(c.local[i], m)
  }

  ghost predicate WasSent(c: Conv, id: string) {
    exists s :: s in c.sends && s.id == id
  }

  /** Always kept, by every batch whatever it skips: recorded means sent, and nothing recorded is sent again. */
  ghost predicate Basic(c: Conv) {
    && Ascending(c.local)
    && (forall i, j | 0 <= i < j < |c.local| :: c.local[i].id != c.local[j].id)
    && c.created <= c.bookmark
    && (forall id | id in c.mapped :: exists x :: x in c.recorded && x.id == id)
    && (forall x | x in c.recorded :: x.id in c.mapped && Cached(c, x))
    && (forall s | s in c.sends :: !s.mappedBefore)
    && (forall id | id in c.mapped :: WasSent(c, id))
  }

  /** Above the creation bookmark: nothing passed over, nothing blanked undelivered, delivery in order. */
  ghost predicate NoLoss(c: Conv) {
    && (forall r | r in c.local && c.created < r.seqNo <= c.bookmark :: r.id in c.mapped)
    && (forall r | r in c.local && c.created < r.seqNo && r.body == "" :: r.id in c.mapped)
    && Ascending(c.recorded)
    && (forall r, x | r in c.local && c.created < r.seqNo && r.id !in c.mapped && x in c.recorded :: x.seqNo < r.seqNo)
  }

  /** Everything cached above the creation bookmark and up to `n` has a mapping row. */
  ghost predicate MappedUpTo(c: Conv, n: int) {
    forall r | r in c.local && c.created < r.seqNo <= n :: r.id in c.mapped
  }

  /** What only ever grows. */
  ghost predicate Extends(c: Conv, d: Conv) {
    && c.created == d.created && c.bookmark <= d.bookmark && c.mapped <= d.mapped
    && |c.recorded| <= |d.recorded| && d.recorded[..|c.recorded|] == c.recorded
    && |c.sends| <= |d.sends| && d.sends[..|c.sends|] == c.sends
    && |c.local| <= |d.local|
    && (forall i | 0 <= i < |c.local| ::
          d.local[i].id == c.local[i].id && d.local[i].seqNo == c.local[i].seqNo
          && (d.local[i].body == c.local[i].body || d.local[i].body == ""))
  }

  lemma ExtendsTrans(a: Conv, b: Conv, c: Conv)
    requires Extends(a, b) && Extends(b, c)
    ensures Extends(a, c)
  {
    assert c.recorded[..|a.recorded|] == c.recorded[..|b.recorded|][..|a.recorded|];
    assert c.sends[..|a.sends|] == c.sends[..|b.sends|][..|a.sends|];
  }

  lemma CachedStays(c: Conv, d: Conv, m: Message)
    requires Extends(c, d) && Cached(c, m)
    ensures Cached(d, m)
  {
    var i :| 0 <= i < |c.local| && RowOf(c.local[i], m);
    assert RowOf(d.local[i], m);
  }

  lemma WasSentStays(c: Conv, d: Conv, id: string)
    requires Extends(c, d) && WasSent(c, id)
    ensures WasSent(d, id)
  {
    forall s | s in c.sends ensures s in d.sends {
      assert d.sends[..|c.sends|] == c.sends;
    }
  }

  /** Rows arriving later lie above everything cached, so what was mapped up to `n` stays so. */
  lemma MappedUpToStays(c: Conv, d: Conv, m: Message, n: int)
    requires Extends(c, d) && Ascending(d.local) && Cached(c, m) && n <= m.seqNo && MappedUpTo(c, n)
    ensures MappedUpTo(d, n)
  {
    var i :| 0 <= i < |c.local| && RowOf(c.local[i], m);
    forall k | 0 <= k < |d.local| && d.created < d.local[k].seqNo <= n
      ensures d.local[k].id in d.mapped
    {
      assert k <= i;
      assert c.local[k] in c.local;
    }
  }

  lemma ArriveExtends(c: Conv, m: Message)
    ensures Extends(c, Arrive(c, m))
  {}

  lemma ArriveKeepsRows(c: Conv, m: Message)
    requires Ascending(c.local) && forall i, j | 0 <= i < j < |c.local| :: c.local[i].id != c.local[j].id
    ensures var d := Arrive(c, m);
            Ascending(d.local) && forall i, j | 0 <= i < j < |d.local| :: d.local[i].id != d.local[j].id
  {}

  lemma ArriveBasic(c: Conv, m: Message)
    requires Basic(c)
    ensures Basic(Arrive(c, m))
  {
    ArriveExtends(c, m);
    ArriveKeepsRows(c, m);
    var d := Arrive(c, m);
    assert d == c.(local := d.local);
    hide Arrive, Ascending;
    forall x | x in d.recorded ensures Cached(d, x) {
      assert Cached(c, x);
      CachedStays(c, d, x);
    }
    hide Extends, Cached;
    assert forall id | id in c.mapped :: WasSent(c, id);
  }

  lemma ArriveNoLoss(c: Conv, m: Message)
    requires Basic(c) && NoLoss(c)
    ensures NoLoss(Arrive(c, m))
  {
    if CanArrive(c, m) {
      ArrivedIsNewest(c, m);
      hide Basic, CanArrive, Ascending;
      assert Arrive(c, m) == c.(local := c.local + [m]);
      assert forall r :: r in c.local + [m] <==> r in c.local || r == m;
    }
  }

  lemma ArrivedIsNewest(c: Conv, m: Message)
    requires Basic(c) && CanArrive(c, m)
    ensures m.seqNo > c.bookmark && m.body != "" && forall x | x in c.recorded :: x.seqNo < m.seqNo
  {
    forall x | x in c.recorded ensures x.seqNo < m.seqNo {
      assert Cached(c, x);
    }
  }

  lemma {:induction false} ArriveAllKeeps(c: Conv, ms: seq<Message>)
    requires Basic(c)
    ensures Basic(ArriveAll(c, ms)) && Extends(c, ArriveAll(c, ms))
    ensures ArriveAll(c, ms).bookmark == c.bookmark && ArriveAll(c, ms).mapped == c.mapped
    ensures NoLoss(c) ==> NoLoss(ArriveAll(c, ms))
  {
    hide NoLoss, Basic;
    if |ms| == 0 {
      SameExtends(c);
    } else {
      ArriveAllKeeps(c, ms[..|ms| - 1]);
      var d := ArriveAll(c, ms[..|ms| - 1]);
      ArriveExtends(d, ms[|ms| - 1]);
      ArriveBasic(d, ms[|ms| - 1]);
      if NoLoss(d) {
        ArriveNoLoss(d, ms[|ms| - 1]);
      }
      ExtendsTrans(c, d, ArriveAll(c, ms));
    }
  }

  lemma SameExtends(c: Conv)
    ensures Extends(c, c)
  {}

  lemma SentExtends(c: Conv, m: Message)
    ensures Extends(c, Sent(c, m)) && WasSent(Sent(c, m), m.id)
  {
    assert SendLog(m.id, m.id in c.mapped) in Sent(c, m).sends;
  }

  lemma SentKeeps(c: Conv, m: Message)
    requires Basic(c) && m.id !in c.mapped
    ensures Basic(Sent(c, m)) && Extends(c, Sent(c, m)) && WasSent(Sent(c, m), m.id)
    ensures NoLoss(c) ==> NoLoss(Sent(c, m))
  {
    var d := Sent(c, m);
    SentExtends(c, m);
    forall id | id in d.mapped ensures WasSent(d, id) {
      WasSentStays(c, d, id);
    }
    forall x | x in d.recorded ensures Cached(d, x) {
      assert Cached(c, x);
      CachedStays(c, d, x);
    }
  }

  lemma RecordedExtends(c: Conv, m: Message)
    ensures Extends(c, Recorded(c, m))
  {}

  lemma RecordedBasic(c: Conv, m: Message)
    requires Basic(c) && Cached(c, m) && WasSent(c, m.id)
    ensures Basic(Recorded(c, m)) && Extends(c, Recorded(c, m))
  {
    var d := Recorded(c, m);
    RecordedExtends(c, m);
    forall x | x in d.recorded ensures x.id in d.mapped && Cached(d, x) {
      CachedStays(c, d, x);
    }
    forall id | id in d.mapped ensures WasSent(d, id) {
      WasSentStays(c, d, id);
    }
    hide Extends, Cached, WasSent;
    forall id | id in d.mapped ensures exists x :: x in d.recorded && x.id == id {
      if id in c.mapped {
        var x :| x in c.recorded && x.id == id;
        assert x in d.recorded;
      } else {
        assert m in d.recorded;
      }
    }
  }

  /** A message still due is newer than every recorded one. */
  lemma DueIsNewer(c: Conv, m: Message)
    requires NoLoss(c) && Cached(c, m) && m.id !in c.mapped && c.created < m.seqNo
    ensures forall x | x in c.recorded :: x.seqNo < m.seqNo
  {
    var i :| 0 <= i < |c.local| && RowOf(c.local[i], m);
    assert c.local[i] in c.local;
  }

  lemma SameSeqSameId(c: Conv, r: Message, m: Message)
    requires Ascending(c.local) && r in c.local && Cached(c, m) && r.seqNo == m.seqNo
    ensures r.id == m.id
  {
    var i :| 0 <= i < |c.local| && RowOf(c.local[i], m);
    var k :| 0 <= k < |c.local| && c.local[k] == r;
  }

  /** Recording the lowest message that is still due keeps deliveries in order. */
  lemma RecordedNoLoss(c: Conv, m: Message)
    requires Basic(c) && Cached(c, m) && m.id !in c.mapped
    requires NoLoss(c) && c.created < m.seqNo && MappedUpTo(c, m.seqNo - 1)
    ensures NoLoss(Recorded(c, m))
  {
    var d := Recorded(c, m);
    DueIsNewer(c, m);
    forall r | r in c.local && c.created < r.seqNo && r.id !in d.mapped
      ensures m.seqNo < r.seqNo
    {
      assert r.seqNo > m.seqNo - 1;
      if r.seqNo == m.seqNo {
        SameSeqSameId(c, r, m);
      }
    }
    hide Cached, Basic, MappedUpTo;
    assert forall x | x in d.recorded :: x in c.recorded || x == m;
  }

  lemma AdvancedKeeps(c: Conv, n: int)
    requires Basic(c) && c.bookmark <= n
    ensures Basic(Advanced(c, n)) && Extends(c, Advanced(c, n))
    ensures NoLoss(c) && MappedUpTo(c, n) ==> NoLoss(Advanced(c, n))
  {
    var d := Advanced(c, n);
    RecordsStay(c, d);
    hide Cached, WasSent, Ascending;
    assert d == c.(bookmark := n);
  }

  /** What is recorded stays cached and sent. */
  lemma RecordsStay(c: Conv, d: Conv)
    requires Basic(c) && Extends(c, d)
    ensures forall x | x in c.recorded :: Cached(d, x)
    ensures forall id | id in c.mapped :: WasSent(d, id)
  {
    forall x | x in c.recorded ensures Cached(d, x) {
      assert Cached(c, x);
      CachedStays(c, d, x);
    }
    forall id | id in c.mapped ensures WasSent(d, id) {
      assert WasSent(c, id);
      WasSentStays(c, d, id);
    }
  }

  lemma BlankedExtends(c: Conv, n: int)
    ensures Extends(c, Blanked(c, n))
  {}

  lemma BlankedBasic(c: Conv, n: int)
    requires Basic(c)
    ensures Basic(Blanked(c, n))
  {
    var d := Blanked(c, n);
    BlankedExtends(c, n);
    RecordsStay(c, d);
    hide Cached, WasSent;
  }

  lemma BlankedRow(c: Conv, n: int, r: Message) returns (q: Message)
    requires r in Blanked(c, n).local
    ensures q in c.local && q.id == r.id && q.seqNo == r.seqNo && (r.body == q.body || q.seqNo <= n)
  {
    var k :| 0 <= k < |c.local| && Blanked(c, n).local[k] == r;
    q := c.local[k];
  }

  lemma BlankedNoLoss(c: Conv, n: int)
    requires NoLoss(c) && n <= c.bookmark
    ensures NoLoss(Blanked(c, n))
  {
    var d := Blanked(c, n);
    assert d == c.(local := d.local);
    hide Blanked;
    forall r | r in d.local && c.created < r.seqNo && r.id !in c.mapped
      ensures r.seqNo > c.bookmark && r.body != ""
      ensures forall x | x in c.recorded :: x.seqNo < r.seqNo
    {
      var q := BlankedRow(c, n, r);
    }
  }

  // ---- gap-free batches -------------------------------------------------------------------

  predicate InBatch(id: string, batch: seq<Message>) {
    exists x :: x in batch && x.id == id
  }

  /** A batch skips nothing: every row up to its newest message is mapped, history, or in the batch. */
  ghost predicate GapFree(c: Conv, batch: seq<Message>) {
    forall r, m | r in c.local && c.created < r.seqNo && m in batch && r.seqNo <= m.seqNo ::
      r.id in c.mapped || InBatch(r.id, batch)
  }

  ghost predicate AllCached(c: Conv, batch: seq<Message>) {
    forall m | m in batch :: Cached(c, m)
  }

  lemma GapFreeStays(c: Conv, d: Conv, batch: seq<Message>)
    requires Extends(c, d) && Ascending(d.local) && AllCached(c, batch)
    ensures AllCached(d, batch)
    ensures GapFree(c, batch) ==> GapFree(d, batch)
  {
    forall m | m in batch ensures Cached(d, m) {
      CachedStays(c, d, m);
    }
    if GapFree(c, batch) {
      forall r, m | r in d.local && d.created < r.seqNo && m in batch && r.seqNo <= m.seqNo
        ensures r.id in d.mapped || InBatch(r.id, batch)
      {
        assert Cached(c, m);
        var i :| 0 <= i < |c.local| && RowOf(c.local[i], m);
        var k :| 0 <= k < |d.local| && d.local[k] == r;
        assert k <= i;
        assert c.local[k] in c.local;
      }
    }
  }

  /** A message of the batch that needs nothing more: mapped, or history of the conversation. */
  predicate Done(c: Conv, m: Message) {
    m.seqNo <= c.created || m.id in c.mapped
  }

  lemma SkippedIsDone(c: Conv, m: Message)
    requires NoLoss(c) && Cached(c, m) && (m.seqNo <= c.bookmark || m.body == "")
    ensures Done(c, m)
  {
    var i :| 0 <= i < |c.local| && RowOf(c.local[i], m);
    assert c.local[i] in c.local;
  }

  /** Once every batch message up to `n` is done, a gap-free batch leaves nothing behind up to `n`. */
  lemma DoneMeansMapped(c: Conv, batch: seq<Message>, top: Message, n: int)
    requires Basic(c) && AllCached(c, batch) && GapFree(c, batch)
    requires top in batch && n <= top.seqNo
    requires forall m | m in batch && m.seqNo <= n :: Done(c, m)
    ensures MappedUpTo(c, n)
  {
    forall r | r in c.local && c.created < r.seqNo <= n ensures r.id in c.mapped {
      if InBatch(r.id, batch) {
        var x :| x in batch && x.id == r.id;
        SameRow(c, r, x);
      }
    }
  }

  lemma SameRow(c: Conv, r: Message, x: Message)
    requires Basic(c) && r in c.local && Cached(c, x) && x.id == r.id
    ensures x.seqNo == r.seqNo
  {
    var i :| 0 <= i < |c.local| && RowOf(c.local[i], x);
    var k :| 0 <= k < |c.local| && c.local[k] == r;
    assert i == k;
  }
}
