/** Splitting an over-long text into messages of at most `max` characters. */
module Splitter {
  import opened Text

  /** Just after the first whitespace at or after `pos`: the end of `split_inclusive`'s next word. */
  function WordEnd(text: string, pos: nat): (e: nat)
    requires pos < |text|
    ensures pos < e <= |text|
    ensures forall i | pos <= i < e - 1 :: !IsSpace(text[i])
    ensures e == |text| || IsSpace(text[e - 1])
    decreases |text| - pos
  {
    if IsSpace(text[pos]) || pos + 1 == |text| then pos + 1 else WordEnd(text, pos + 1)
  }

  ghost predicate AllSpace(s: string) {
    forall i | 0 <= i < |s| :: IsSpace(s[i])
  }

  /** A maximal run of non-whitespace. */
  ghost predicate IsToken(text: string, s: int, e: int) {
    && 0 <= s < e <= |text|
    && (forall i | s <= i < e :: !IsSpace(text[i]))
    && (s == 0 || IsSpace(text[s - 1])) && (e == |text| || IsSpace(text[e]))
  }

  /** Cutting at `p` severs no token that fits in one message. */
  ghost predicate CleanCut(text: string, max: nat, p: int) {
    forall s, e | IsToken(text, s, e) && s < p < e :: e - s > max
  }

  /** `part` is the text between two cuts, up to trailing whitespace. */
  ghost predicate IsPiece(text: string, from: int, to: int, part: string) {
    0 <= from <= from + |part| <= to <= |text|
    && part == text[from..from + |part|] && AllSpace(text[from + |part|..to])
  }

  /** The parts lie end to end along the text; only whitespace falls between or after them. */
  ghost predicate IsSplit(text: string, max: nat, parts: seq<string>, cuts: seq<int>, end: int) {
    && |cuts| == |parts| + 1 && cuts[0] == 0 && cuts[|parts|] == end
    && (forall k | 0 <= k < |parts| :: IsPiece(text, cuts[k], cuts[k + 1], parts[k]) && |parts[k]| <= max)
    && (forall k | 0 <= k < |cuts| :: CleanCut(text, max, cuts[k]))
  }

  lemma {:induction false} TrimEndLeavesSpace(s: string)
    ensures |TrimEnd(s)| <= |s| && TrimEnd(s) == s[..|TrimEnd(s)|] && AllSpace(s[|TrimEnd(s)|..])
    ensures TrimEnd(s) == "" <==> AllSpace(s)
  {
    if |s| > 0 && IsSpace(s[|s| - 1]) {
      var init := s[..|s| - 1];
      TrimEndLeavesSpace(init);
      var n := |TrimEnd(s)|;
      assert s[n..] == init[n..] + [s[|s| - 1]];
      assert AllSpace(s) <==> AllSpace(init);
    }
  }

  lemma SplitPush(text: string, max: nat, parts: seq<string>, cuts: seq<int>, end: int, part: string, to: int)
    requires IsSplit(text, max, parts, cuts, end)
    requires IsPiece(text, end, to, part) && |part| <= max && CleanCut(text, max, to)
    ensures IsSplit(text, max, parts + [part], cuts + [to], to)
  {
  }

  lemma TrimmedIsPiece(text: string, from: int, to: int)
    requires 0 <= from <= to <= |text|
    ensures IsPiece(text, from, to, TrimEnd(text[from..to]))
  {
    var s := text[from..to];
    TrimEndLeavesSpace(s);
    var n := |TrimEnd(s)|;
    assert text[from + n..to] == s[n..];
    assert text[from..from + n] == s[..n];
  }

  /** Inside a word longer than `max`, a full chunk may be cut off anywhere. */
  lemma ChunkCutIsClean(text: string, max: nat, pos: int, q: int)
    requires 0 <= pos && pos + max <= q < |text|
    requires pos == 0 || IsSpace(text[pos - 1])
    requires forall i | pos <= i < q :: !IsSpace(text[i])
    ensures CleanCut(text, max, q)
  {
    forall s, e | IsToken(text, s, e) && s < q < e ensures e - s > max {
      assert s <= pos;
    }
  }

  /** A finished split: whatever is left after the last cut is whitespace. */
  ghost predicate Covers(text: string, max: nat, parts: seq<string>, cuts: seq<int>) {
    |cuts| == |parts| + 1 && IsSplit(text, max, parts, cuts, cuts[|parts|])
    && 0 <= cuts[|parts|] <= |text| && AllSpace(text[cuts[|parts|]..])
  }

  lemma NothingSplitYet(text: string, max: nat)
    ensures IsSplit(text, max, [], [0], 0)
  {
  }

  lemma SplitDone(text: string, max: nat, parts: seq<string>, cuts: seq<int>, end: int)
    requires IsSplit(text, max, parts, cuts, end) && 0 <= end <= |text| && AllSpace(text[end..])
    ensures Covers(text, max, parts, cuts)
    ensures forall p | p in parts :: |p| <= max
  {
    forall p | p in parts ensures |p| <= max {
      var k :| 0 <= k < |parts| && parts[k] == p;
    }
  }

  /** Emit `cur`, the text since the last cut, without its trailing whitespace. */
  lemma FlushIsSplit(text: string, max: nat, parts: seq<string>, cuts: seq<int>, start: int, pos: int)
    requires IsSplit(text, max, parts, cuts, start) && 0 <= start <= pos <= |text| && pos - start <= max
    requires pos == 0 || pos == |text| || IsSpace(text[pos - 1])
    ensures IsSplit(text, max, parts + [TrimEnd(text[start..pos])], cuts + [pos], pos)
  {
    TrimmedIsPiece(text, start, pos);
    SplitPush(text, max, parts, cuts, start, TrimEnd(text[start..pos]), pos);
  }

  lemma ChunkIsSplit(text: string, max: nat, parts: seq<string>, cuts: seq<int>, start: int, pos: int, q: int)
    requires IsSplit(text, max, parts, cuts, start) && 0 <= pos <= start && start + max == q < |text|
    requires pos == 0 || IsSpace(text[pos - 1])
    requires forall i | pos <= i < q :: !IsSpace(text[i])
    ensures IsSplit(text, max, parts + [text[start..q]], cuts + [q], q)
  {
    ChunkCutIsClean(text, max, pos, q);
    assert text[start + max..q] == "";
    SplitPush(text, max, parts, cuts, start, text[start..q], q);
  }

  /**
   * The `k`-th part is full: the text's next word would not have fitted behind it, and a cut that is not
   * behind whitespace leaves it exactly `max` characters.
   */
  ghost predicate Full(text: string, max: nat, cuts: seq<int>, k: int) {
    && 0 <= k && k + 1 < |cuts| && 0 <= cuts[k] < cuts[k + 1] < |text|
    && WordEnd(text, cuts[k + 1]) - cuts[k] > max
    && (IsSpace(text[cuts[k + 1] - 1]) || cuts[k + 1] - cuts[k] == max)
  }

  ghost predicate FullUpTo(text: string, max: nat, cuts: seq<int>, n: int) {
    forall k | 0 <= k < n :: Full(text, max, cuts, k)
  }

  /** The parts so far are a split up to `start`, and all of them are full. */
  ghost predicate Going(text: string, max: nat, parts: seq<string>, cuts: seq<int>, start: int) {
    |cuts| == |parts| + 1 && IsSplit(text, max, parts, cuts, start) && FullUpTo(text, max, cuts, |parts|)
  }

  lemma FullPush(text: string, max: nat, cuts: seq<int>, n: int, to: int)
    requires FullUpTo(text, max, cuts, n)
    ensures FullUpTo(text, max, cuts + [to], n)
  {
    hide WordEnd;
    forall k | 0 <= k < n ensures Full(text, max, cuts + [to], k) {
      assert Full(text, max, cuts, k);
    }
  }

  lemma NothingGoing(text: string, max: nat)
    ensures Going(text, max, [], [0], 0)
  {
    NothingSplitYet(text, max);
  }

  /** A part that is full is put out, and the next one starts. */
  lemma FullPartGoes(text: string, max: nat, parts: seq<string>, cuts: seq<int>, start: int, part: string, to: int)
    requires Going(text, max, parts, cuts, start) && IsSplit(text, max, parts + [part], cuts + [to], to)
    requires 0 <= start < to < |text| && WordEnd(text, to) - start > max
    requires IsSpace(text[to - 1]) || to - start == max
    ensures Going(text, max, parts + [part], cuts + [to], to)
  {
    FullPush(text, max, cuts, |parts|, to);
    assert (cuts + [to])[|parts|] == start;
    hide IsSplit, WordEnd;
    assert Full(text, max, cuts + [to], |parts|);
  }

  /** At the end of the text: what is left is put out if there is any, and may be short. */
  lemma LastPartGoes(text: string, max: nat, parts: seq<string>, cuts: seq<int>, start: int)
    requires Going(text, max, parts, cuts, start) && 0 <= start <= |text| && |text| - start <= max
    ensures var last := TrimEnd(text[start..]);
            if last == "" then Covers(text, max, parts, cuts) && FullUpTo(text, max, cuts, |parts| - 1)
            else Covers(text, max, parts + [last], cuts + [|text|]) && FullUpTo(text, max, cuts + [|text|], |parts|)
  {
    FullPush(text, max, cuts, |parts|, |text|);
    TrimEndLeavesSpace(text[start..]);
    assert text[start..] == text[start..|text|];
    FlushIsSplit(text, max, parts, cuts, start, |text|);
    hide IsSplit, AllSpace, Full;
    SplitEnds(text, max, parts, cuts, start);
  }

  lemma SplitEnds(text: string, max: nat, parts: seq<string>, cuts: seq<int>, start: int)
    requires IsSplit(text, max, parts, cuts, start) && 0 <= start <= |text| && |text| - start <= max
    requires IsSplit(text, max, parts + [TrimEnd(text[start..])], cuts + [|text|], |text|)
    ensures Covers(text, max, parts + [TrimEnd(text[start..])], cuts + [|text|])
    ensures AllSpace(text[start..]) ==> Covers(text, max, parts, cuts)
  {
    assert text[|text|..] == "";
    SplitDone(text, max, parts + [TrimEnd(text[start..])], cuts + [|text|], |text|);
    if AllSpace(text[start..]) {
      SplitDone(text, max, parts, cuts, start);
    }
  }

  lemma PartsAreShort(text: string, max: nat, parts: seq<string>, cuts: seq<int>)
    requires Covers(text, max, parts, cuts)
    ensures forall p | p in parts :: |p| <= max
  {
    SplitDone(text, max, parts, cuts, cuts[|parts|]);
  }

  /** A single huge word `text[pos..end]`: cut off full chunks, return the rest. */
  method HardSplit(text: string, max: nat, pos: nat, end: nat, parts: seq<string>, ghost cuts: seq<int>)
    returns (out: seq<string>, w: string, ghost outCuts: seq<int>, ghost start: int)
    requires max >= 1 && pos < end <= |text| && (pos == 0 || IsSpace(text[pos - 1]))
    requires forall i | pos <= i < end - 1 :: !IsSpace(text[i])
    requires Going(text, max, parts, cuts, pos)
    ensures pos <= start <= end && w == text[start..end] && |w| <= max
    ensures Going(text, max, out, outCuts, start)
  {
    hide IsSplit, Going;
    out, outCuts, start := parts, cuts, pos;
    w := "";
    for q := pos to end
      invariant pos <= start <= q && w == text[start..q] && |w| <= max
      invariant Going(text, max, out, outCuts, start)
    {
      if |w| >= max {
        ChunkGoes(text, max, out, outCuts, start, pos, q);
        out, outCuts, start := out + [w], outCuts + [q], q;
        w := "";
      }
      assert text[start..q + 1] == text[start..q] + [text[q]];
      w := w + [text[q]];
    }
  }

  /** A full chunk of a huge word goes. */
  lemma ChunkGoes(text: string, max: nat, parts: seq<string>, cuts: seq<int>, start: int, pos: int, q: int)
    requires Going(text, max, parts, cuts, start) && 0 <= pos <= start < q && start + max == q < |text|
    requires pos == 0 || IsSpace(text[pos - 1])
    requires forall i | pos <= i < q :: !IsSpace(text[i])
    ensures Going(text, max, parts + [text[start..q]], cuts + [q], q)
  {
    ChunkIsSplit(text, max, parts, cuts, start, pos, q);
    hide IsSplit;
    FullPartGoes(text, max, parts, cuts, start, text[start..q], q);
  }

  /** The text since the last cut goes, because the next word does not fit. */
  lemma CurrentGoes(text: string, max: nat, parts: seq<string>, cuts: seq<int>, start: int, pos: int)
    requires Going(text, max, parts, cuts, start) && 0 <= start < pos < |text| && pos - start <= max
    requires IsSpace(text[pos - 1])
    requires WordEnd(text, pos) - start > max
    ensures Going(text, max, parts + [TrimEnd(text[start..pos])], cuts + [pos], pos)
  {
    FlushIsSplit(text, max, parts, cuts, start, pos);
    hide IsSplit;
    FullPartGoes(text, max, parts, cuts, start, TrimEnd(text[start..pos]), pos);
  }

  lemma ShortTextIsOnePart(text: string, max: nat)
    requires |text| <= max
    ensures Covers(text, max, [text], [0, |text|]) && FullUpTo(text, max, [0, |text|], 0)
  {
    NothingSplitYet(text, max);
    SplitPush(text, max, [], [0], 0, text, |text|);
    SplitDone(text, max, [text], [0, |text|], |text|);
  }

  /**
   * For `max >= 1`: short parts, nothing but whitespace lost, no fitting token severed, and every part but
   * the last so full that the text's next word would not have fitted.
   */
  method SplitForTzibbur(text: string, max: nat) returns (parts: seq<string>, ghost cuts: seq<int>)
    requires max >= 1
    ensures Covers(text, max, parts, cuts)
    ensures forall p | p in parts :: |p| <= max
    ensures |text| <= max ==> parts == [text]
    ensures FullUpTo(text, max, cuts, |parts| - 1)
  {
    if |text| <= max {
      ShortTextIsOnePart(text, max);
      return [text], [0, |text|];
    }
    NothingGoing(text, max);
    hide IsSplit, Covers, Going, FullUpTo;
    parts, cuts := [], [0];
    var cur := "";
    var pos := 0;
    ghost var start := 0;
    while pos < |text|
      invariant 0 <= start <= pos <= |text| && cur == text[start..pos] && |cur| <= max
      invariant pos == 0 || pos == |text| || IsSpace(text[pos - 1])
      invariant Going(text, max, parts, cuts, start)
    {
      var end := WordEnd(text, pos);
      if |cur| + (end - pos) > max && cur != "" {
        CurrentGoes(text, max, parts, cuts, start, pos);
        parts, cuts := parts + [TrimEnd(cur)], cuts + [pos];
        start := pos;
        cur := "";
      }
      if end - pos > max {
        parts, cur, cuts, start := HardSplit(text, max, pos, end, parts, cuts);
      } else {
        assert text[start..end] == text[start..pos] + text[pos..end];
        cur := cur + text[pos..end];
      }
      pos := end;
    }
    assert text[start..] == cur;
    LastPartGoes(text, max, parts, cuts, start);
    if TrimEnd(cur) != "" {
      parts, cuts := parts + [TrimEnd(cur)], cuts + [|text|];
    }
    PartsAreShort(text, max, parts, cuts);
  }

  // ---- nothing but whitespace is lost ------------------------------------------------------

  function NonSpace(s: string): string {
    if s == "" then "" else NonSpace(s[..|s| - 1]) + (if IsSpace(s[|s| - 1]) then "" else [s[|s| - 1]])
  }

  function Joined(parts: seq<string>): string {
    if |parts| == 0 then "" else Joined(parts[..|parts| - 1]) + parts[|parts| - 1]
  }

  lemma {:induction false} NonSpaceConcat(a: string, b: string)
    ensures NonSpace(a + b) == NonSpace(a) + NonSpace(b)
  {
    if b == "" {
      assert a + b == a;
    } else {
      NonSpaceConcat(a, b[..|b| - 1]);
      assert (a + b)[..|a + b| - 1] == a + b[..|b| - 1];
    }
  }

  lemma {:induction false} SpaceVanishes(s: string)
    requires AllSpace(s)
    ensures NonSpace(s) == ""
  {
    if s != "" {
      SpaceVanishes(s[..|s| - 1]);
    }
  }

  lemma {:induction false} PartsKeepText(text: string, max: nat, parts: seq<string>, cuts: seq<int>, end: int)
    requires IsSplit(text, max, parts, cuts, end)
    ensures 0 <= end <= |text| && NonSpace(Joined(parts)) == NonSpace(text[..end])
  {
    var n := |parts|;
    if n == 0 {
    } else {
      var from, part := cuts[n - 1], parts[n - 1];
      PartsKeepText(text, max, parts[..n - 1], cuts[..n], from);
      assert IsPiece(text, from, end, part);
      var mid := from + |part|;
      assert text[..end] == text[..from] + part + text[mid..end];
      NonSpaceConcat(text[..from] + part, text[mid..end]);
      NonSpaceConcat(text[..from], part);
      NonSpaceConcat(Joined(parts[..n - 1]), part);
      SpaceVanishes(text[mid..end]);
    }
  }

  /** The parts joined keep exactly the non-whitespace characters of the text, in order. */
  lemma SplitKeepsCharacters(text: string, max: nat, parts: seq<string>, cuts: seq<int>)
    requires Covers(text, max, parts, cuts)
    ensures NonSpace(Joined(parts)) == NonSpace(text)
  {
    var end := cuts[|parts|];
    hide IsSplit;
    PartsKeepText(text, max, parts, cuts, end);
    NonSpaceConcat(text[..end], text[end..]);
    SpaceVanishes(text[end..]);
    assert text == text[..end] + text[end..];
  }

  lemma TokenBeforeSpace(text: string, s: int, e: int, mid: int, to: int)
    requires IsToken(text, s, e) && s < e <= to <= |text| && 0 <= mid <= to && AllSpace(text[mid..to])
    ensures e <= mid
  {
    forall i | mid <= i < to ensures IsSpace(text[i]) {
      assert text[mid..to][i - mid] == text[i];
    }
    assert !IsSpace(text[e - 1]);
  }

  lemma CleanCutComesAfter(text: string, max: nat, p: int, s: int, e: int)
    requires CleanCut(text, max, p) && IsToken(text, s, e) && e - s <= max && s < p
    ensures e <= p
  {
  }

  lemma SliceOfSlice(text: string, from: int, to: int, s: int, e: int)
    requires 0 <= from <= s <= e <= to <= |text|
    ensures text[from..to][s - from..e - from] == text[s..e]
  {
    var piece := text[from..to];
    var inner := piece[s - from..e - from];
    forall i | 0 <= i < |inner| ensures inner[i] == text[s..e][i] {
      assert inner[i] == piece[s - from + i];
    }
  }

  lemma TokenIsNonEmpty(text: string, s: int, e: int)
    requires IsToken(text, s, e)
    ensures 0 <= s < e <= |text|
  {
  }

  /** The part that starts at `from` contains `text[s..e]` in its place. */
  ghost predicate HoldsToken(text: string, part: string, from: int, s: int, e: int) {
    0 <= from <= s <= e <= from + |part| && e <= |text| && part[s - from..e - from] == text[s..e]
  }

  /** A token that fits in one message lies whole inside one part. */
  lemma FittingTokenStaysWhole(text: string, max: nat, parts: seq<string>, cuts: seq<int>, s: int, e: int)
    requires Covers(text, max, parts, cuts)
    requires IsToken(text, s, e) && e - s <= max
    ensures exists k :: 0 <= k < |parts| && HoldsToken(text, parts[k], cuts[k], s, e)
  {
    hide AllSpace, CleanCut, IsToken;
    var n := |parts|;
    TokenIsNonEmpty(text, s, e);
    if s >= cuts[n] {
      assert text[cuts[n]..] == text[cuts[n]..|text|];
      TokenBeforeSpace(text, s, e, cuts[n], |text|);
    }
    var k := LastCutAtOrBefore(cuts, s);
    var part := parts[k];
    assert IsPiece(text, cuts[k], cuts[k + 1], part);
    assert CleanCut(text, max, cuts[k + 1]);
    CleanCutComesAfter(text, max, cuts[k + 1], s, e);
    TokenBeforeSpace(text, s, e, cuts[k] + |part|, cuts[k + 1]);
    SliceOfSlice(text, cuts[k], cuts[k] + |part|, s, e);
    assert HoldsToken(text, part, cuts[k], s, e);
  }

  function LastCutAtOrBefore(cuts: seq<int>, s: int): (k: nat)
    requires |cuts| >= 2 && cuts[0] <= s < cuts[|cuts| - 1]
    ensures k + 1 < |cuts| && cuts[k] <= s < cuts[k + 1]
  {
    if |cuts| == 2 || cuts[|cuts| - 2] <= s then |cuts| - 2 else LastCutAtOrBefore(cuts[..|cuts| - 1], s)
  }
}
