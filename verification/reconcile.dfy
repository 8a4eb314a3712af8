/** The batch reconciler: what to do with an incoming batch, given what is stored. */
module Reconciler {
  import opened Entities

  datatype EchoConfirmation = EchoConfirmation(clientMessageId: string, serverId: string, seqNo: int)

  datatype ReconcilePlan = ReconcilePlan(
    toInsert: seq<Message>,
    echoConfirmations: seq<EchoConfirmation>,
    newMessageIds: seq<string>,
    maxSeq: Option<int>
  )

  datatype ReconcileState = ReconcileState(
    existingIds: set<string>,
    existingSeqs: set<int>,
    unconfirmedClientMessageIds: set<string>
  )

  const EMPTY_PLAN := ReconcilePlan([], [], [], None)

  // ---- what the plan means ------------------------------------------------

  /** Message `i` survives: new id, first of its id in the batch, new seq, first kept of its seq. */
  predicate Kept(batch: seq<Message>, st: ReconcileState, i: nat)
    requires i < |batch|
    decreases i
  {
    && batch[i].id !in st.existingIds
    && (forall j | 0 <= j < i :: batch[j].id != batch[i].id)
    && batch[i].seqNo !in st.existingSeqs
    && (forall j | 0 <= j < i && batch[j].seqNo == batch[i].seqNo :: !Kept(batch, st, j))
  }

  /** The survivors among the first `n` messages, in arrival order. */
  function KeptPrefix(batch: seq<Message>, st: ReconcileState, n: nat): seq<Message>
    requires n <= |batch|
  {
    if n == 0 then []
    else KeptPrefix(batch, st, n - 1) + (if Kept(batch, st, n - 1) then [batch[n - 1]] else [])
  }

  predicate IsEcho(m: Message, st: ReconcileState) {
    m.clientMessageId.Some? && m.clientMessageId.value in st.unconfirmedClientMessageIds
  }

  function EchoesOf(ms: seq<Message>, st: ReconcileState): seq<EchoConfirmation> {
    if |ms| == 0 then []
    else
      var m := ms[|ms| - 1];
      EchoesOf(ms[..|ms| - 1], st)
      + (if IsEcho(m, st) then [EchoConfirmation(m.clientMessageId.value, m.id, m.seqNo)] else [])
  }

  function NewIdsOf(ms: seq<Message>, st: ReconcileState): seq<string> {
    if |ms| == 0 then []
    else
      var m := ms[|ms| - 1];
      NewIdsOf(ms[..|ms| - 1], st) + (if IsEcho(m, st) then [] else [m.id])
  }

  function MaxSeq(ms: seq<Message>): Option<int> {
    if |ms| == 0 then None
    else
      var m := ms[|ms| - 1];
      match MaxSeq(ms[..|ms| - 1])
      case None => Some(m.seqNo)
      case Some(x) => Some(Max(x, m.seqNo))
  }

  function InsertBySeq(ms: seq<Message>, m: Message): seq<Message> {
    if |ms| > 0 && ms[|ms| - 1].seqNo > m.seqNo
    then InsertBySeq(ms[..|ms| - 1], m) + [ms[|ms| - 1]]
    else ms + [m]
  }

  /** Stable sort by seq. */
  function SortBySeq(ms: seq<Message>): seq<Message> {
    if |ms| == 0 then [] else InsertBySeq(SortBySeq(ms[..|ms| - 1]), ms[|ms| - 1])
  }

  function Plan(batch: seq<Message>, st: ReconcileState): ReconcilePlan {
    var kept := KeptPrefix(batch, st, |batch|);
    ReconcilePlan(SortBySeq(kept), EchoesOf(kept, st), NewIdsOf(kept, st), MaxSeq(batch))
  }

  ghost predicate Ascending(ms: seq<Message>) {
    forall i, j | 0 <= i < j < |ms| :: ms[i].seqNo < ms[j].seqNo
  }

  ghost predicate WeaklyAscending(ms: seq<Message>) {
    forall i, j | 0 <= i < j < |ms| :: ms[i].seqNo <= ms[j].seqNo
  }

  ghost predicate DistinctSeqs(ms: seq<Message>) {
    forall i, j | 0 <= i < j < |ms| :: ms[i].seqNo != ms[j].seqNo
  }

  // ---- sorting --------------------------------------------------------------

  lemma {:induction false} InsertBySeqPermutes(ms: seq<Message>, m: Message)
    ensures multiset(InsertBySeq(ms, m)) == multiset(ms) + multiset{m}
    ensures forall x :: x in InsertBySeq(ms, m) <==> x in ms || x == m
  {
    if |ms| > 0 && ms[|ms| - 1].seqNo > m.seqNo {
      assert ms == ms[..|ms| - 1] + [ms[|ms| - 1]];
      InsertBySeqPermutes(ms[..|ms| - 1], m);
    }
  }

  lemma {:induction false} InsertBySeqSorts(ms: seq<Message>, m: Message)
    requires WeaklyAscending(ms)
    ensures WeaklyAscending(InsertBySeq(ms, m))
  {
    if |ms| > 0 && ms[|ms| - 1].seqNo > m.seqNo {
      var init, last := ms[..|ms| - 1], ms[|ms| - 1];
      InsertBySeqSorts(init, m);
      InsertBySeqPermutes(init, m);
      var r := InsertBySeq(init, m);
      forall i | 0 <= i < |r| ensures r[i].seqNo <= last.seqNo {
        assert r[i] in r;
      }
    }
  }

  lemma {:induction false} SortBySeqSorts(ms: seq<Message>)
    ensures WeaklyAscending(SortBySeq(ms))
    ensures multiset(SortBySeq(ms)) == multiset(ms)
  {
    if |ms| == 0 {
    } else {
      assert ms == ms[..|ms| - 1] + [ms[|ms| - 1]];
      SortBySeqSorts(ms[..|ms| - 1]);
      InsertBySeqSorts(SortBySeq(ms[..|ms| - 1]), ms[|ms| - 1]);
      InsertBySeqPermutes(SortBySeq(ms[..|ms| - 1]), ms[|ms| - 1]);
    }
  }

  lemma {:induction false} InsertBySeqKeepsDistinct(ms: seq<Message>, m: Message)
    requires DistinctSeqs(ms) && forall x | x in ms :: x.seqNo != m.seqNo
    ensures DistinctSeqs(InsertBySeq(ms, m))
    ensures forall x :: x in InsertBySeq(ms, m) <==> x in ms || x == m
  {
    if |ms| > 0 && ms[|ms| - 1].seqNo > m.seqNo {
      var init, last := ms[..|ms| - 1], ms[|ms| - 1];
      assert ms == init + [last];
      InsertBySeqKeepsDistinct(init, m);
      var r := InsertBySeq(init, m);
      forall x | x in r ensures x.seqNo != last.seqNo {}
      assert forall i | 0 <= i < |r| :: r[i] in r;
    }
  }

  lemma {:induction false} SortBySeqKeepsDistinct(ms: seq<Message>)
    requires DistinctSeqs(ms)
    ensures DistinctSeqs(SortBySeq(ms))
    ensures forall x :: x in SortBySeq(ms) <==> x in ms
  {
    if |ms| == 0 {
    } else {
      var init, last := ms[..|ms| - 1], ms[|ms| - 1];
      assert ms == init + [last];
      SortBySeqKeepsDistinct(init);
      InsertBySeqKeepsDistinct(SortBySeq(init), last);
    }
  }

  // ---- the survivors ----------------------------------------------------------

  lemma {:induction false} KeptPrefixMembers(batch: seq<Message>, st: ReconcileState, n: nat)
    requires n <= |batch|
    ensures forall m :: m in KeptPrefix(batch, st, n)
                        <==> exists i :: 0 <= i < n && Kept(batch, st, i) && batch[i] == m
    ensures DistinctSeqs(KeptPrefix(batch, st, n))
  {
    if n == 0 {
    } else {
      KeptPrefixMembers(batch, st, n - 1);
      var k := KeptPrefix(batch, st, n - 1);
      forall i | 0 <= i < |k| && Kept(batch, st, n - 1)
        ensures k[i].seqNo != batch[n - 1].seqNo
      {
        assert k[i] in k;
      }
    }
  }

  lemma {:induction false} EchoesAndNewPartition(ms: seq<Message>, st: ReconcileState)
    ensures |EchoesOf(ms, st)| + |NewIdsOf(ms, st)| == |ms|
    ensures forall e :: e in EchoesOf(ms, st) <==>
              exists m :: m in ms && IsEcho(m, st) && e == EchoConfirmation(m.clientMessageId.value, m.id, m.seqNo)
    ensures forall id :: id in NewIdsOf(ms, st) <==> exists m :: m in ms && !IsEcho(m, st) && m.id == id
  {
    if |ms| == 0 {
    } else {
      var init, last := ms[..|ms| - 1], ms[|ms| - 1];
      assert ms == init + [last];
      assert forall x :: x in ms <==> x in init || x == last;
      EchoesAndNewPartition(init, st);
    }
  }

  lemma {:induction false} MaxSeqIsMaximum(ms: seq<Message>)
    ensures MaxSeq(ms).None? <==> ms == []
    ensures MaxSeq(ms).Some? ==>
              && (exists i :: 0 <= i < |ms| && ms[i].seqNo == MaxSeq(ms).value)
              && (forall i | 0 <= i < |ms| :: ms[i].seqNo <= MaxSeq(ms).value)
  {
    if |ms| == 0 {
    } else {
      var init := ms[..|ms| - 1];
      MaxSeqIsMaximum(init);
      if MaxSeq(init).Some? {
        var i :| 0 <= i < |init| && init[i].seqNo == MaxSeq(init).value;
        assert ms[i] == init[i];
      }
      assert ms[|ms| - 1].seqNo <= MaxSeq(ms).value;
    }
  }

  /**
   * What a plan says. `toInsert` holds exactly the survivors, strictly ascending by seq; echoes and
   * new ids split the survivors; `maxSeq` ranges over the whole batch, duplicates
   * included.
   */
  lemma PlanMeaning(batch: seq<Message>, st: ReconcileState)
    ensures var p := Plan(batch, st);
            var kept := KeptPrefix(batch, st, |batch|);
            && Ascending(p.toInsert)
            && multiset(p.toInsert) == multiset(kept)
            && (forall m :: m in p.toInsert <==> exists i :: 0 <= i < |batch| && Kept(batch, st, i) && batch[i] == m)
            && |p.echoConfirmations| + |p.newMessageIds| == |p.toInsert|
            && (forall e :: e in p.echoConfirmations <==>
                  exists m :: m in kept && IsEcho(m, st)
                      && e == EchoConfirmation(m.clientMessageId.value, m.id, m.seqNo))
            && (forall id :: id in p.newMessageIds <==> exists m :: m in kept && !IsEcho(m, st) && m.id == id)
            && (p.maxSeq.Some? <==> batch != [])
            && (p.maxSeq.Some? ==> forall i | 0 <= i < |batch| :: batch[i].seqNo <= p.maxSeq.value)
            && (p.maxSeq.Some? ==> exists i :: 0 <= i < |batch| && batch[i].seqNo == p.maxSeq.value)
  {
    var kept := KeptPrefix(batch, st, |batch|);
    KeptPrefixMembers(batch, st, |batch|);
    SortBySeqSorts(kept);
    SortBySeqKeepsDistinct(kept);
    assert |SortBySeq(kept)| == |multiset(SortBySeq(kept))| == |multiset(kept)| == |kept|;
    EchoesAndNewPartition(kept, st);
    MaxSeqIsMaximum(batch);
  }

  /** Positions in the batch, in arrival order. */
  ghost predicate Rising(at: seq<int>, n: int) {
    && (forall t | 0 <= t < |at| :: 0 <= at[t] < n)
    && (forall t, u | 0 <= t < u < |at| :: at[t] < at[u])
  }

  /** `echoAt` and `newAt` are the positions, below `n`, of the survivors that are echoes and of the others. */
  ghost predicate Split(batch: seq<Message>, st: ReconcileState, n: nat, echoAt: seq<int>, newAt: seq<int>)
    requires n <= |batch|
  {
    && Rising(echoAt, n) && Rising(newAt, n)
    && (forall i | 0 <= i < n :: i in echoAt <==> Kept(batch, st, i) && IsEcho(batch[i], st))
    && (forall i | 0 <= i < n :: i in newAt <==> Kept(batch, st, i) && !IsEcho(batch[i], st))
  }

  function EchoAt(batch: seq<Message>, i: int): EchoConfirmation
    requires 0 <= i < |batch| && batch[i].clientMessageId.Some?
  {
    EchoConfirmation(batch[i].clientMessageId.value, batch[i].id, batch[i].seqNo)
  }

  lemma PrefixPush(batch: seq<Message>, st: ReconcileState, n: nat)
    requires 0 < n <= |batch|
    ensures var before, after, m := KeptPrefix(batch, st, n - 1), KeptPrefix(batch, st, n), batch[n - 1];
            && EchoesOf(after, st) == (if Kept(batch, st, n - 1) && IsEcho(m, st)
                                       then EchoesOf(before, st) + [EchoAt(batch, n - 1)] else EchoesOf(before, st))
            && NewIdsOf(after, st) == (if Kept(batch, st, n - 1) && !IsEcho(m, st)
                                       then NewIdsOf(before, st) + [m.id] else NewIdsOf(before, st))
  {
    var before, m := KeptPrefix(batch, st, n - 1), batch[n - 1];
    hide Kept;
    if Kept(batch, st, n - 1) {
      assert (before + [m])[..|before|] == before;
      assert EchoesOf(before, st) + [] == EchoesOf(before, st) && NewIdsOf(before, st) + [] == NewIdsOf(before, st);
    } else {
      assert KeptPrefix(batch, st, n) == before;
    }
  }

  /** The echoes are those of the batch's messages at the positions, in that order. */
  ghost predicate EchoesRead(batch: seq<Message>, es: seq<EchoConfirmation>, at: seq<int>)
    requires Rising(at, |batch|)
  {
    |es| == |at| && forall t | 0 <= t < |at| :: batch[at[t]].clientMessageId.Some? && es[t] == EchoAt(batch, at[t])
  }

  ghost predicate IdsRead(batch: seq<Message>, ids: seq<string>, at: seq<int>)
    requires Rising(at, |batch|)
  {
    |ids| == |at| && forall t | 0 <= t < |at| :: ids[t] == batch[at[t]].id
  }

  lemma RisingPush(at: seq<int>, n: nat, m: nat)
    requires Rising(at, n) && n < m
    ensures Rising(at, m) && Rising(at + [n], m)
    ensures forall i | 0 <= i < n :: i in at + [n] <==> i in at
    ensures n in at + [n] && n !in at
  {
    assert forall i :: i in at + [n] <==> i in at || i == n;
  }

  lemma SplitPush(batch: seq<Message>, st: ReconcileState, n: nat, echoAt: seq<int>, newAt: seq<int>)
    requires 0 < n <= |batch| && Split(batch, st, n - 1, echoAt, newAt)
    ensures var kept, echo := Kept(batch, st, n - 1), IsEcho(batch[n - 1], st);
            Split(batch, st, n, if kept && echo then echoAt + [n - 1] else echoAt,
                                if kept && !echo then newAt + [n - 1] else newAt)
  {
    hide Kept, IsEcho;
    RisingPush(echoAt, n - 1, n);
    RisingPush(newAt, n - 1, n);
    hide Rising;
  }

  lemma RisingFits(at: seq<int>, n: nat, m: nat)
    requires Rising(at, n) && n <= m
    ensures Rising(at, m)
  {}

  lemma EchoesReadPush(batch: seq<Message>, es: seq<EchoConfirmation>, at: seq<int>, i: nat)
    requires Rising(at, |batch|) && Rising(at + [i], |batch|) && EchoesRead(batch, es, at)
    requires i < |batch| && batch[i].clientMessageId.Some?
    ensures EchoesRead(batch, es + [EchoAt(batch, i)], at + [i])
  {}

  lemma IdsReadPush(batch: seq<Message>, ids: seq<string>, at: seq<int>, i: nat)
    requires Rising(at, |batch|) && Rising(at + [i], |batch|) && IdsRead(batch, ids, at) && i < |batch|
    ensures IdsRead(batch, ids + [batch[i].id], at + [i])
  {}

  /** The lists of a plan for the first `n` messages read the batch off at these positions. */
  ghost predicate InArrivalOrder(batch: seq<Message>, st: ReconcileState, n: nat, echoAt: seq<int>, newAt: seq<int>)
    requires n <= |batch|
  {
    && Split(batch, st, n, echoAt, newAt) && Rising(echoAt, |batch|) && Rising(newAt, |batch|)
    && EchoesRead(batch, EchoesOf(KeptPrefix(batch, st, n), st), echoAt)
    && IdsRead(batch, NewIdsOf(KeptPrefix(batch, st, n), st), newAt)
  }

  lemma ArrivalOrderStep(batch: seq<Message>, st: ReconcileState, n: nat, e: seq<int>, w: seq<int>)
    requires 0 < n <= |batch| && InArrivalOrder(batch, st, n - 1, e, w)
    ensures var kept, echo := Kept(batch, st, n - 1), IsEcho(batch[n - 1], st);
            InArrivalOrder(batch, st, n, if kept && echo then e + [n - 1] else e, if kept && !echo then w + [n - 1]
                else w)
  {
    hide Kept, KeptPrefix, EchoesOf, NewIdsOf, EchoesRead, IdsRead, EchoAt, IsEcho;
    PrefixPush(batch, st, n);
    SplitPush(batch, st, n, e, w);
    var kept, echo := Kept(batch, st, n - 1), IsEcho(batch[n - 1], st);
    EchoHasId(batch[n - 1], st);
    if kept && echo {
      RisingFits(e + [n - 1], n, |batch|);
      hide Split, Rising;
      EchoesReadPush(batch, EchoesOf(KeptPrefix(batch, st, n - 1), st), e, n - 1);
    } else if kept {
      RisingFits(w + [n - 1], n, |batch|);
      hide Split, Rising;
      IdsReadPush(batch, NewIdsOf(KeptPrefix(batch, st, n - 1), st), w, n - 1);
    } else {
      hide Split, Rising;
    }
  }

  lemma EchoHasId(m: Message, st: ReconcileState)
    ensures IsEcho(m, st) ==> m.clientMessageId.Some?
  {}

  lemma {:induction false} PrefixKeepsArrivalOrder(batch: seq<Message>, st: ReconcileState, n: nat)
    returns (echoAt: seq<int>, newAt: seq<int>)
    requires n <= |batch|
    ensures InArrivalOrder(batch, st, n, echoAt, newAt)
  {
    hide Kept, InArrivalOrder;
    if n == 0 {
      echoAt, newAt := [], [];
      NothingInOrder(batch, st);
    } else {
      var e, w := PrefixKeepsArrivalOrder(batch, st, n - 1);
      ArrivalOrderStep(batch, st, n, e, w);
      var kept, echo := Kept(batch, st, n - 1), IsEcho(batch[n - 1], st);
      echoAt := if kept && echo then e + [n - 1] else e;
      newAt := if kept && !echo then w + [n - 1] else w;
    }
  }

  lemma NothingInOrder(batch: seq<Message>, st: ReconcileState)
    ensures InArrivalOrder(batch, st, 0, [], [])
  {}

  /** Echoes and new ids are listed in arrival order: each list reads the batch off at rising positions. */
  lemma PlanKeepsArrivalOrder(batch: seq<Message>, st: ReconcileState) returns (echoAt: seq<int>, newAt: seq<int>)
    ensures Split(batch, st, |batch|, echoAt, newAt)
    ensures EchoesRead(batch, Plan(batch, st).echoConfirmations, echoAt)
    ensures IdsRead(batch, Plan(batch, st).newMessageIds, newAt)
  {
    echoAt, newAt := PrefixKeepsArrivalOrder(batch, st, |batch|);
  }

  // ---- the loop -----------------------------------------------------------------

  /** What the loop's two "seen" sets hold after `n` messages. */
  ghost predicate Seen(batch: seq<Message>, st: ReconcileState, n: nat, ids: set<string>, seqs: set<int>)
    requires n <= |batch|
  {
    && (forall j | 0 <= j < n :: batch[j].id in st.existingIds || batch[j].id in ids)
    && (forall x | x in ids :: x !in st.existingIds && exists j :: 0 <= j < n && batch[j].id == x)
    && (forall j | 0 <= j < n && Kept(batch, st, j) :: batch[j].seqNo in seqs)
    && (forall x | x in seqs :: exists j :: 0 <= j < n && Kept(batch, st, j) && batch[j].seqNo == x)
  }

  lemma SeenDecidesKept(batch: seq<Message>, st: ReconcileState, n: nat, ids: set<string>, seqs: set<int>)
    requires n < |batch| && Seen(batch, st, n, ids, seqs)
    ensures var m := batch[n];
            Kept(batch, st, n)
            <==> m.id !in st.existingIds && m.id !in ids && m.seqNo !in st.existingSeqs && m.seqNo !in seqs
  {
  }

  lemma SeenStep(batch: seq<Message>, st: ReconcileState, n: nat, ids: set<string>, seqs: set<int>)
    requires n < |batch| && Seen(batch, st, n, ids, seqs)
    ensures var m := batch[n];
            Seen(batch, st, n + 1,
                 if m.id in st.existingIds then ids else ids + {m.id},
                 if Kept(batch, st, n) then seqs + {m.seqNo} else seqs)
  {
    var m := batch[n];
    var ids' := if m.id in st.existingIds then ids else ids + {m.id};
    var seqs' := if Kept(batch, st, n) then seqs + {m.seqNo} else seqs;
    forall x | x in ids' ensures x !in st.existingIds && exists j :: 0 <= j < n + 1 && batch[j].id == x {
      if x in ids {
        var j :| 0 <= j < n && batch[j].id == x;
      }
    }
    forall x | x in seqs' ensures exists j :: 0 <= j < n + 1 && Kept(batch, st, j) && batch[j].seqNo == x {
      if x in seqs {
        var j :| 0 <= j < n && Kept(batch, st, j) && batch[j].seqNo == x;
      }
    }
  }

  /** One pass over the batch with two "seen" sets, then an in-place sort of the survivors. */
  method Reconcile(batch: seq<Message>, st: ReconcileState) returns (plan: ReconcilePlan)
    ensures plan == Plan(batch, st)
  {
    assert Seen(batch, st, 0, {}, {});
    hide Seen, Kept;
    var toInsert: seq<Message> := [];
    var echoes: seq<EchoConfirmation> := [];
    var newIds: seq<string> := [];
    var maxSeq: Option<int> := None;
    var seenIds: set<string> := {};
    var seenSeqs: set<int> := {};
    for i := 0 to |batch|
      invariant toInsert == KeptPrefix(batch, st, i)
      invariant echoes == EchoesOf(toInsert, st) && newIds == NewIdsOf(toInsert, st)
      invariant maxSeq == MaxSeq(batch[..i])
      invariant Seen(batch, st, i, seenIds, seenSeqs)
    {
      var msg := batch[i];
      assert batch[..i + 1][..i] == batch[..i];
      SeenDecidesKept(batch, st, i, seenIds, seenSeqs);
      SeenStep(batch, st, i, seenIds, seenSeqs);
      maxSeq := match maxSeq
        case None => Some(msg.seqNo)
        case Some(x) => Some(Max(x, msg.seqNo));
      var freshId := msg.id !in st.existingIds && msg.id !in seenIds;
      if msg.id !in st.existingIds {
        seenIds := seenIds + {msg.id};
      }
      if freshId && msg.seqNo !in st.existingSeqs && msg.seqNo !in seenSeqs {
        seenSeqs := seenSeqs + {msg.seqNo};
        assert (toInsert + [msg])[..|toInsert|] == toInsert;
        if IsEcho(msg, st) {
          echoes := echoes + [EchoConfirmation(msg.clientMessageId.value, msg.id, msg.seqNo)];
        } else {
          newIds := newIds + [msg.id];
        }
        toInsert := toInsert + [msg];
      }
    }
    assert batch[..|batch|] == batch;
    plan := ReconcilePlan(SortBySeq(toInsert), echoes, newIds, maxSeq);
  }
}
