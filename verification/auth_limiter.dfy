/** The sliding one-hour window on sign-in attempts. */
module AuthLimiter {

  datatype AuthStep = Start | Verify

  datatype Key = Key(user: int, step: AuthStep)

  /** One call of `allow_auth`; times in milliseconds of a monotone clock. */
  datatype Call = Call(key: Key, at: int)

  const WINDOW := 3600 * 1000

  function LimitPerHour(step: AuthStep): nat {
    match step
    case Start => 5
    case Verify => 15
  }

  /** The instants less than an hour old at `now`. */
  function Recent(times: seq<int>, now: int): seq<int> {
    if |times| == 0 then []
    else Recent(times[..|times| - 1], now) + (if now - times[|times| - 1] < WINDOW then [times[|times| - 1]] else [])
  }

  function Stored(attempts: map<Key, seq<int>>, key: Key): seq<int> {
    if key in attempts then attempts[key] else []
  }

  predicate Admits(attempts: map<Key, seq<int>>, c: Call) {
    |Recent(Stored(attempts, c.key), c.at)| < LimitPerHour(c.key.step)
  }

  function After(attempts: map<Key, seq<int>>, c: Call): map<Key, seq<int>> {
    var entry := Recent(Stored(attempts, c.key), c.at);
    attempts[c.key := if Admits(attempts, c) then entry + [c.at] else entry]
  }

  function Run(calls: seq<Call>): map<Key, seq<int>> {
    if |calls| == 0 then map[] else After(Run(calls[..|calls| - 1]), calls[|calls| - 1])
  }

  /** Call `i` of the run was let through. */
  predicate Allowed(calls: seq<Call>, i: nat)
    requires i < |calls|
  {
    Admits(Run(calls[..i]), calls[i])
  }

  /** When the calls of one key were let through, over the whole history. */
  function AllowedTimes(calls: seq<Call>, key: Key): seq<int> {
    if |calls| == 0 then []
    else
      var n := |calls| - 1;
      AllowedTimes(calls[..n], key)
      + (if calls[n].key == key && Admits(Run(calls[..n]), calls[n]) then [calls[n].at] else [])
  }

  ghost predicate Monotone(calls: seq<Call>) {
    forall i, j | 0 <= i <= j < |calls| :: calls[i].at <= calls[j].at
  }

  ghost predicate NonDecreasing(times: seq<int>) {
    forall i, j | 0 <= i <= j < |times| :: times[i] <= times[j]
  }

  // ---- filtering --------------------------------------------------------------------

  lemma {:induction false} RecentTwice(times: seq<int>, earlier: int, now: int)
    requires earlier <= now
    ensures Recent(Recent(times, earlier), now) == Recent(times, now)
  {
    if |times| == 0 {
    } else {
      var init, t := times[..|times| - 1], times[|times| - 1];
      RecentTwice(init, earlier, now);
      if earlier - t < WINDOW {
        assert (Recent(init, earlier) + [t])[..|Recent(init, earlier)|] == Recent(init, earlier);
      } else {
        assert Recent(times, earlier) == Recent(init, earlier);
      }
    }
  }

  lemma RecentPush(times: seq<int>, t: int, now: int)
    ensures Recent(times + [t], now) == Recent(times, now) + (if now - t < WINDOW then [t] else [])
  {
    assert (times + [t])[..|times|] == times;
  }

  /** One more call changes only its own key's entry. */
  lemma StoredAfter(attempts: map<Key, seq<int>>, c: Call, key: Key)
    ensures var entry := Recent(Stored(attempts, c.key), c.at);
            Stored(After(attempts, c), key)
            == if c.key != key then Stored(attempts, key) else if Admits(attempts, c) then entry + [c.at] else entry
  {
  }

  /** The table holds, per key, the allowed instants that were recent at the key's last call. */
  lemma {:induction false} TableIsRecentHistory(calls: seq<Call>, key: Key, now: int)
    requires Monotone(calls) && (calls == [] || calls[|calls| - 1].at <= now)
    ensures Recent(Stored(Run(calls), key), now) == Recent(AllowedTimes(calls, key), now)
  {
    if |calls| == 0 {
    } else {
      var n := |calls| - 1;
      var init, c := calls[..n], calls[n];
      var before := Run(init);
      TableIsRecentHistory(init, key, now);
      StoredAfter(before, c, key);
      if c.key == key {
        RecentTwice(Stored(before, key), c.at, now);
        if Admits(before, c) {
          RecentPush(Recent(Stored(before, key), c.at), c.at, now);
          RecentPush(AllowedTimes(init, key), c.at, now);
          assert AllowedTimes(calls, key) == AllowedTimes(init, key) + [c.at];
        } else {
          assert AllowedTimes(calls, key) == AllowedTimes(init, key);
        }
      } else {
        assert AllowedTimes(calls, key) == AllowedTimes(init, key);
      }
    }
  }

  /**
   * A call is refused exactly when its key has the limit of allowed calls, five to start and fifteen to
   * verify, within the last hour of the whole history.
   */
  lemma RefusedIffAtLimit(calls: seq<Call>, i: nat)
    requires Monotone(calls) && i < |calls|
    ensures var c := calls[i];
            var past := AllowedTimes(calls[..i], c.key);
            var limit := if c.key.step.Start? then 5 else 15;
            !Allowed(calls, i) <==> |past| >= limit && c.at - past[|past| - limit] < 3600000
  {
    Verdict(calls[..i], calls[i]);
  }

  /** How many instants are recent, told by the one that far from the end. */
  lemma {:induction false} RecentCount(times: seq<int>, now: int, k: nat)
    requires NonDecreasing(times) && 0 < k
    ensures |Recent(times, now)| >= k <==> |times| >= k && now - times[|times| - k] < 3600000
  {
    if |times| == 0 {
    } else {
      var n := |times| - 1;
      if now - times[n] < 3600000 {
        if 1 < k {
          RecentCount(times[..n], now, k - 1);
        }
      } else {
        RecentCount(times[..n], now, k);
      }
    }
  }

  // ---- the rate bound ----------------------------------------------------------------

  lemma {:induction false} AllowedTimesBounded(calls: seq<Call>, key: Key)
    requires Monotone(calls)
    ensures NonDecreasing(AllowedTimes(calls, key))
    ensures AllowedTimes(calls, key) == []
        || (calls != [] && AllowedTimes(calls, key)[|AllowedTimes(calls, key)| - 1] <= calls[|calls| - 1].at)
  {
    if |calls| == 0 {
    } else {
      AllowedTimesBounded(calls[..|calls| - 1], key);
    }
  }

  /** Any allowed calls of one key spanning less than an hour number at most the limit. */
  lemma {:induction false} AtMostLimitPerHour(calls: seq<Call>, key: Key, i: nat, j: nat)
    requires Monotone(calls) && i <= j < |AllowedTimes(calls, key)|
    requires AllowedTimes(calls, key)[j] - AllowedTimes(calls, key)[i] < 3600000
    ensures j - i + 1 <= if key.step.Start? then 5 else 15
  {
    var n := |calls| - 1;
    var init := calls[..n];
    var earlier := AllowedTimes(init, key);
    if j < |earlier| {
      AtMostLimitPerHour(init, key, i, j);
    } else if i < j {
      RefusedIffAtLimit(calls, n);
      AllowedTimesBounded(init, key);
      hide Allowed, Monotone;
    }
  }

  // ---- keys do not interfere -----------------------------------------------------------

  function OnlyKey(calls: seq<Call>, key: Key): seq<Call> {
    if |calls| == 0 then []
    else OnlyKey(calls[..|calls| - 1], key) + (if calls[|calls| - 1].key == key then [calls[|calls| - 1]] else [])
  }

  /** What one key sees is the same whether or not anyone else calls. */
  lemma {:induction false} KeysAreIndependent(calls: seq<Call>, key: Key)
    ensures Stored(Run(calls), key) == Stored(Run(OnlyKey(calls, key)), key)
    ensures AllowedTimes(calls, key) == AllowedTimes(OnlyKey(calls, key), key)
  {
    if |calls| == 0 {
    } else {
      var n := |calls| - 1;
      var c, own := calls[n], OnlyKey(calls[..n], key);
      KeysAreIndependent(calls[..n], key);
      StoredAfter(Run(calls[..n]), c, key);
      StoredAfter(Run(own), c, key);
      SameVerdict(Run(own), Run(calls[..n]), c, key);
      hide Admits, After, Recent, Stored;
      if c.key == key {
        assert (own + [c])[..|own|] == own;
        assert OnlyKey(calls, key) == own + [c];
      } else {
        assert OnlyKey(calls, key) == own;
        assert AllowedTimes(calls, key) == AllowedTimes(calls[..n], key);
      }
    }
  }

  lemma SameVerdict(a: map<Key, seq<int>>, b: map<Key, seq<int>>, c: Call, key: Key)
    requires Stored(a, key) == Stored(b, key)
    ensures c.key == key ==> Admits(a, c) == Admits(b, c)
  {
  }

  // ---- the limiter ---------------------------------------------------------------------

  lemma StillMonotone(calls: seq<Call>, c: Call)
    requires Monotone(calls) && (calls == [] || calls[|calls| - 1].at <= c.at)
    ensures Monotone(calls + [c])
  {}

  lemma RunOneMore(calls: seq<Call>, c: Call)
    ensures Run(calls + [c]) == After(Run(calls), c)
  {
    hide After;
    assert (calls + [c])[..|calls|] == calls;
  }

  lemma AllowedOneMore(calls: seq<Call>, c: Call)
    ensures AllowedTimes(calls + [c], c.key)
            == AllowedTimes(calls, c.key) + (if Admits(Run(calls), c) then [c.at] else [])
    ensures forall k | k != c.key :: AllowedTimes(calls + [c], k) == AllowedTimes(calls, k)
  {
    hide Run, Admits;
    var all, n := calls + [c], |calls|;
    assert all[..n] == calls && all[n] == c;
  }

  /** The table of recent attempts; `calls` is every attempt there ever was. */
  class Limiter {
    var attempts: map<Key, seq<int>>
    ghost var calls: seq<Call>

    ghost predicate Valid()
      reads this
    {
      attempts == Run(calls) && Monotone(calls)
    }

    constructor ()
      ensures Valid() && calls == []
    {
      attempts, calls := map[], [];
    }

    /**
     * Forget what is older than an hour, then refuse at the limit or record and allow. The verdict is the
     * one the whole history asks for.
     */
    method AllowAuth(key: Key, now: int) returns (allowed: bool)
      requires Valid() && (calls == [] || calls[|calls| - 1].at <= now)
      modifies this
      ensures Valid() && calls == old(calls) + [Call(key, now)]
      ensures var past := AllowedTimes(old(calls), key);
              var limit := if key.step.Start? then 5 else 15;
              allowed <==> !(|past| >= limit && now - past[|past| - limit] < 3600000)
      ensures AllowedTimes(calls, key) == AllowedTimes(old(calls), key) + (if allowed then [now] else [])
      ensures forall k | k != key :: AllowedTimes(calls, k) == AllowedTimes(old(calls), k)
    {
      ghost var before, c := calls, Call(key, now);
      Verdict(before, c);
      StillMonotone(before, c);
      RunOneMore(before, c);
      AllowedOneMore(before, c);
      hide Run, AllowedTimes, Monotone, Recent;
      var entry := Recent(Stored(attempts, key), now);
      allowed := |entry| < LimitPerHour(key.step);
      if allowed {
        entry := entry + [now];
      }
      attempts := attempts[key := entry];
      calls := calls + [c];
    }
  }

  /** What the table admits is what the whole history asks for. */
  lemma Verdict(calls: seq<Call>, c: Call)
    requires Monotone(calls) && (calls == [] || calls[|calls| - 1].at <= c.at)
    ensures var past := AllowedTimes(calls, c.key);
            var limit := if c.key.step.Start? then 5 else 15;
            Admits(Run(calls), c) <==> !(|past| >= limit && c.at - past[|past| - limit] < 3600000)
  {
    TableIsRecentHistory(calls, c.key, c.at);
    AllowedTimesBounded(calls, c.key);
    RecentCount(AllowedTimes(calls, c.key), c.at, if c.key.step.Start? then 5 else 15);
  }
}
