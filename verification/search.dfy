/** Live search through the newest messages of a group, page by page backwards. */
module Search {
  import opened Entities
  import opened Reconciler

  datatype Page = Page(items: seq<Message>, nextBeforeSeq: Option<int>)

  /** How many messages of the log lie below `before`. */
  function CountBelow(log: seq<Message>, before: Option<int>): (n: nat)
    ensures n <= |log|
  {
    if before.None? || |log| == 0 || log[|log| - 1].seqNo < before.value then |log|
    else CountBelow(log[..|log| - 1], before)
  }

  lemma {:induction false} CountBelowSplits(log: seq<Message>, before: Option<int>)
    requires Ascending(log)
    ensures var n := CountBelow(log, before);
            && (forall i | 0 <= i < n :: before.None? || log[i].seqNo < before.value)
            && (forall i | n <= i < |log| :: before.Some? && log[i].seqNo >= before.value)
  {
    if before.Some? && |log| > 0 && log[|log| - 1].seqNo >= before.value {
      var init := log[..|log| - 1];
      CountBelowSplits(init, before);
      assert forall i | 0 <= i < |init| :: init[i] == log[i];
    }
  }

  function Matching(ms: seq<Message>, matches: string -> bool): seq<Message> {
    if |ms| == 0 then []
    else Matching(ms[..|ms| - 1], matches) + (if matches(ms[|ms| - 1].body) then [ms[|ms| - 1]] else [])
  }

  /** The newest `n` messages of the log. */
  function Newest(log: seq<Message>, n: nat): seq<Message>
    requires n <= |log|
  {
    log[|log| - n..]
  }

  /** `found` holds each of `expected` once, in any order. */
  ghost predicate Holds(found: seq<Message>, expected: seq<Message>) {
    DistinctSeqs(found) && forall m :: m in found <==> m in expected
  }

  /**
   * The server: up to `limit` newest messages below `before`, in any order, at least one if there is any;
   * and, if it says so, any mark that has just the older ones below it.
   */
  method FetchPage(log: seq<Message>, before: Option<int>, limit: nat, size: nat, hint: bool) returns (page: Page)
    requires Ascending(log) && limit >= 1
    ensures var n, k := CountBelow(log, before), |page.items|;
            && k <= Min(limit, n) && (k == 0 <==> n == 0) && Holds(page.items, log[n - k..n])
            && (page.nextBeforeSeq.Some? ==> page.items != [] && CountBelow(log, page.nextBeforeSeq) == n - k)
  {
    var n := CountBelow(log, before);
    var k := Min(Max(size, 1), Min(limit, n));
    var items := log[n - k..n];
    SliceHolds(log, n - k, n);
    if k > 0 {
      BelowThePage(log, n - k);
    }
    hide Holds, Ascending, CountBelow;
    page := Page(items, if hint && k > 0 then Some(items[0].seqNo) else None);
  }

  lemma SliceHolds(log: seq<Message>, i: nat, j: nat)
    requires Ascending(log) && i <= j <= |log|
    ensures Holds(log[i..j], log[i..j])
  {}

  function MinSeq(ms: seq<Message>): int
    requires ms != []
  {
    if |ms| == 1 then ms[0].seqNo else Min(MinSeq(ms[..|ms| - 1]), ms[|ms| - 1].seqNo)
  }

  lemma {:induction false} MinSeqIsMinimum(ms: seq<Message>)
    requires ms != []
    ensures forall m | m in ms :: MinSeq(ms) <= m.seqNo
    ensures exists m :: m in ms && m.seqNo == MinSeq(ms)
  {
    if |ms| > 1 {
      var init, last := ms[..|ms| - 1], ms[|ms| - 1];
      assert ms == init + [last];
      MinSeqIsMinimum(init);
      var m :| m in init && m.seqNo == MinSeq(init);
      assert m in ms && last in ms;
    } else {
      assert ms[0] in ms;
    }
  }

  /** The least seq of a page marks exactly what is older. */
  lemma {:induction false} LeastOfPage(log: seq<Message>, rest: nat, items: seq<Message>)
    requires Ascending(log) && 0 < |items| <= rest <= |log| && Holds(items, log[rest - |items|..rest])
    ensures CountBelow(log, Some(MinSeq(items))) == rest - |items|
  {
    var first := log[rest - |items|];
    var page := log[rest - |items|..rest];
    MinSeqIsMinimum(items);
    BelowThePage(log, rest - |items|);
    hide CountBelow, MinSeq;
    assert page[0] == first && first in page;
    var least :| least in items && least.seqNo == MinSeq(items);
    FirstIsLeast(page, least);
  }

  lemma FirstIsLeast(ms: seq<Message>, m: Message)
    requires Ascending(ms) && m in ms
    ensures ms[0].seqNo <= m.seqNo
  {}

  // ---- sorting what the pages brought ---------------------------------------------------------

  lemma {:induction false} MatchingConcat(a: seq<Message>, b: seq<Message>, matches: string -> bool)
    ensures Matching(a + b, matches) == Matching(a, matches) + Matching(b, matches)
  {
    if b == [] {
      assert a + b == a;
    } else {
      MatchingConcat(a, b[..|b| - 1], matches);
      assert (a + b)[..|a + b| - 1] == a + b[..|b| - 1];
    }
  }

  lemma {:induction false} MatchingKeepsOrder(ms: seq<Message>, matches: string -> bool)
    requires Ascending(ms)
    ensures Ascending(Matching(ms, matches))
    ensures forall m :: m in Matching(ms, matches) <==> m in ms && matches(m.body)
  {
    if |ms| == 0 {
    } else {
      var init, last := ms[..|ms| - 1], ms[|ms| - 1];
      MatchingKeepsOrder(init, matches);
      var k := Matching(init, matches);
      assert ms == init + [last];
      forall i | 0 <= i < |k| ensures k[i].seqNo < last.seqNo {
        assert k[i] in init;
      }
    }
  }

  lemma LastIsGreatest(ms: seq<Message>, m: Message)
    requires Ascending(ms) && m in ms
    ensures m == ms[|ms| - 1] || m.seqNo < ms[|ms| - 1].seqNo
  {}

  /** Ascending sequences with the same members are equal. */
  lemma {:induction false} AscendingIsUnique(a: seq<Message>, b: seq<Message>)
    requires Ascending(a) && Ascending(b) && forall m :: m in a <==> m in b
    ensures a == b
  {
    hide Ascending;
    NonEmptyHasMember(a);
    NonEmptyHasMember(b);
    if a != [] && b != [] {
      var x := a[|a| - 1];
      LastsAgree(a, b);
      var a', b' := a[..|a| - 1], b[..|b| - 1];
      DropLastMembers(a, x);
      DropLastMembers(b, x);
      SameMembers(a, b, a', b', x);
      AscendingIsUnique(a', b');
    }
  }

  lemma LastsAgree(a: seq<Message>, b: seq<Message>)
    requires Ascending(a) && Ascending(b) && a != [] && b != [] && forall m :: m in a <==> m in b
    ensures a[|a| - 1] == b[|b| - 1]
  {
    hide Ascending;
    var x, y := a[|a| - 1], b[|b| - 1];
    assert x in a && y in b;
    LastIsGreatest(a, y);
    LastIsGreatest(b, x);
  }

  lemma SameMembers(a: seq<Message>, b: seq<Message>, a': seq<Message>, b': seq<Message>, x: Message)
    requires forall m :: m in a <==> m in b
    requires forall m :: m in a' <==> m in a && m != x
    requires forall m :: m in b' <==> m in b && m != x
    ensures forall m :: m in a' <==> m in b'
  {}

  lemma NonEmptyHasMember(a: seq<Message>)
    ensures a != [] ==> exists m :: m in a
  {
    if a != [] {
      assert a[0] in a;
    }
  }

  lemma DropLastMembers(a: seq<Message>, x: Message)
    requires Ascending(a) && a != [] && x == a[|a| - 1]
    ensures Ascending(a[..|a| - 1]) && a == a[..|a| - 1] + [x]
    ensures forall m :: m in a[..|a| - 1] <==> m in a && m != x
  {}

  lemma {:induction false} MatchingMembers(ms: seq<Message>, matches: string -> bool)
    ensures forall m :: m in Matching(ms, matches) <==> m in ms && matches(m.body)
    ensures DistinctSeqs(ms) ==> DistinctSeqs(Matching(ms, matches))
  {
    if |ms| == 0 {
    } else {
      var init, last := ms[..|ms| - 1], ms[|ms| - 1];
      assert ms == init + [last];
      MatchingMembers(init, matches);
      var k := Matching(init, matches);
      assert forall i | 0 <= i < |k| :: k[i] in k;
      assert DistinctSeqs(ms) ==> forall m | m in init :: m.seqNo != last.seqNo;
    }
  }

  lemma MergeHolds(found: seq<Message>, items: seq<Message>, page: seq<Message>, newer: seq<Message>,
      matches: string -> bool)
    requires Holds(items, page) && Holds(found, Matching(newer, matches))
    requires forall x, y | x in newer && y in page :: y.seqNo < x.seqNo
    ensures Holds(found + Matching(items, matches), Matching(page + newer, matches))
  {
    MatchingMembers(items, matches);
    MatchingMembers(newer, matches);
    MatchingMembers(page + newer, matches);
    hide Matching;
    DistinctConcat(found, Matching(items, matches));
    hide DistinctSeqs;
  }

  /** A page's matches come before everything found so far. */
  lemma PageExtends(log: seq<Message>, rest: nat, items: seq<Message>, found: seq<Message>, matches: string -> bool)
    requires Ascending(log) && |items| <= rest <= |log| && Holds(items, log[rest - |items|..rest])
    requires Holds(found, Matching(log[rest..], matches))
    ensures Holds(found + Matching(items, matches), Matching(log[rest - |items|..], matches))
  {
    hide Ascending, Holds, Matching;
    var page, newer := log[rest - |items|..rest], log[rest..];
    PagesApart(log, rest, |items|);
    SliceJoins(log, rest, |items|);
    MergeHolds(found, items, page, newer, matches);
  }

  lemma SliceJoins(log: seq<Message>, rest: nat, k: nat)
    requires k <= rest <= |log|
    ensures log[rest - k..] == log[rest - k..rest] + log[rest..]
  {}

  lemma PagesApart(log: seq<Message>, rest: nat, k: nat)
    requires Ascending(log) && k <= rest <= |log|
    ensures forall x, y | x in log[rest..] && y in log[rest - k..rest] :: y.seqNo < x.seqNo
  {
    hide Ascending;
    forall x, y | x in log[rest..] && y in log[rest - k..rest] ensures y.seqNo < x.seqNo {
      OlderPage(log, rest, k, x, y);
    }
  }

  lemma OlderPage(log: seq<Message>, rest: nat, k: nat, x: Message, y: Message)
    requires Ascending(log) && k <= rest <= |log| && x in log[rest..] && y in log[rest - k..rest]
    ensures y.seqNo < x.seqNo
  {
    var i :| 0 <= i < |log[rest..]| && log[rest..][i] == x;
    var j :| 0 <= j < k && log[rest - k..rest][j] == y;
    assert log[rest + i] == x && log[rest - k + j] == y;
  }

  lemma DistinctConcat(a: seq<Message>, b: seq<Message>)
    requires DistinctSeqs(a) && DistinctSeqs(b)
    requires forall x, y | x in a && y in b :: x.seqNo != y.seqNo
    ensures DistinctSeqs(a + b)
  {
    assert forall i | 0 <= i < |a| :: a[i] in a;
    assert forall i | 0 <= i < |b| :: b[i] in b;
  }

  lemma SortedIsExpected(log: seq<Message>, rest: nat, found: seq<Message>, matches: string -> bool)
    requires Ascending(log) && rest <= |log| && Holds(found, Matching(log[rest..], matches))
    ensures SortBySeq(found) == Matching(log[rest..], matches)
  {
    MatchingKeepsOrder(log[rest..], matches);
    SortBySeqSorts(found);
    SortBySeqKeepsDistinct(found);
    hide SortBySeq, Matching;
    AscendingIsUnique(SortBySeq(found), Matching(log[rest..], matches));
  }

  lemma NothingFound(log: seq<Message>, matches: string -> bool)
    ensures Holds([], Matching(log[|log|..], matches)) && CountBelow(log, None) == |log|
  {
  }

  lemma BelowThePage(log: seq<Message>, i: nat)
    requires Ascending(log) && i < |log|
    ensures CountBelow(log, Some(log[i].seqNo)) == i
  {
    CountBelowSplits(log, Some(log[i].seqNo));
  }

  /**
   * `find`: the pages' sizes are the server's choice, one per request. The result is exactly the
   * matching messages among the newest `min(limit, |log|)`, ascending, each once.
   */
  method Find(log: seq<Message>, matches: string -> bool, limit: nat, size: nat -> nat, hint: nat -> bool)
    returns (out: seq<Message>)
    requires Ascending(log)
    ensures out == Matching(Newest(log, Min(limit, |log|)), matches)
  {
    hide Matching, CountBelow, Holds, SortBySeq, MinSeq;
    NothingFound(log, matches);
    var found: seq<Message> := [];
    var before: Option<int> := None;
    var fetched := 0;
    var request := 0;
    ghost var rest := |log|;   // what lies below `before`
    while fetched < limit
      invariant fetched == |log| - rest && 0 <= rest <= |log| && fetched <= limit
      invariant rest == CountBelow(log, before)
      invariant Holds(found, Matching(log[rest..], matches))
      decreases limit - fetched
    {
      var page := FetchPage(log, before, Min(100, limit - fetched), size(request), hint(request));
      request := request + 1;
      if page.items == [] {
        break;
      }
      fetched := fetched + |page.items|;
      PageExtends(log, rest, page.items, found, matches);
      LeastOfPage(log, rest, page.items);
      found := found + Matching(page.items, matches);
      rest := rest - |page.items|;
      var next := if page.nextBeforeSeq.Some? then page.nextBeforeSeq.value else MinSeq(page.items);
      if before == Some(next) {
        break;
      }
      before := Some(next);
    }
    SortedIsExpected(log, rest, found, matches);
    out := SortBySeq(found);
  }
}
