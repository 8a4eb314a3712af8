/** Grouping a flat message list by group, keeping arrival order. */
module Buckets {
  import opened Entities

  /** A message as received; the group may be missing. */
  datatype MessageDto = MessageDto(id: string, groupId: Option<string>, seqNo: int, body: string)

  datatype GroupMessages = GroupMessages(groupId: string, messages: seq<MessageDto>)

  function GroupOf(m: MessageDto): string {
    if m.groupId.Some? then m.groupId.value else ""
  }

  /** The messages of one group, in their order in the list. */
  function OfGroup(flat: seq<MessageDto>, g: string): seq<MessageDto> {
    if |flat| == 0 then []
    else OfGroup(flat[..|flat| - 1], g) + (if GroupOf(flat[|flat| - 1]) == g then [flat[|flat| - 1]] else [])
  }

  /** `g` first occurs before `h` does. */
  ghost predicate FirstBefore(flat: seq<MessageDto>, g: string, h: string) {
    exists i :: 0 <= i < |flat| && GroupOf(flat[i]) == g && forall j | 0 <= j <= i :: GroupOf(flat[j]) != h
  }

  function TotalLength(buckets: seq<GroupMessages>): nat {
    if |buckets| == 0 then 0 else TotalLength(buckets[..|buckets| - 1]) + |buckets[|buckets| - 1].messages|
  }

  /** What the bucketing promises. */
  ghost predicate IsBucketing(flat: seq<MessageDto>, r: seq<GroupMessages>) {
    && (forall i, j | 0 <= i < j < |r| :: r[i].groupId != r[j].groupId && FirstBefore(flat, r[i].groupId, r[j].groupId))
    && (forall i | 0 <= i < |r| :: r[i].messages == OfGroup(flat, r[i].groupId) && r[i].messages != [])
    && (forall m | m in flat :: exists i :: 0 <= i < |r| && r[i].groupId == GroupOf(m))
  }

  lemma OfGroupPush(flat: seq<MessageDto>, m: MessageDto, g: string)
    ensures OfGroup(flat + [m], g) == OfGroup(flat, g) + (if GroupOf(m) == g then [m] else [])
  {
    assert (flat + [m])[..|flat|] == flat;
  }

  lemma FirstBeforeGrows(flat: seq<MessageDto>, m: MessageDto, g: string, h: string)
    requires FirstBefore(flat, g, h)
    ensures FirstBefore(flat + [m], g, h)
  {
    var i :| 0 <= i < |flat| && GroupOf(flat[i]) == g && forall j | 0 <= j <= i :: GroupOf(flat[j]) != h;
    assert GroupOf((flat + [m])[i]) == g;
  }

  lemma NewGroupComesLast(flat: seq<MessageDto>, m: MessageDto, g: string)
    requires exists x :: x in flat && GroupOf(x) == g
    requires forall x | x in flat :: GroupOf(x) != GroupOf(m)
    ensures FirstBefore(flat + [m], g, GroupOf(m))
  {
    var i :| 0 <= i < |flat| && GroupOf(flat[i]) == g;
    assert GroupOf((flat + [m])[i]) == g;
    assert forall j | 0 <= j <= i :: flat[j] in flat;
  }

  /** What the loop's first-seen order and bucket map hold after a prefix. */
  ghost predicate Bucketed(flat: seq<MessageDto>, order: seq<string>, buckets: map<string, seq<MessageDto>>) {
    Ordered(flat, order) && Listed(flat, order, buckets) && Filled(flat, buckets)
  }

  /** Order and buckets have exactly the groups that occur. */
  ghost predicate Listed(flat: seq<MessageDto>, order: seq<string>, buckets: map<string, seq<MessageDto>>) {
    forall g :: (g in order <==> g in buckets) && (g in buckets <==> Occurs(flat, g))
  }

  ghost predicate Filled(flat: seq<MessageDto>, buckets: map<string, seq<MessageDto>>) {
    forall g | g in buckets :: buckets[g] == OfGroup(flat, g) && buckets[g] != []
  }

  ghost predicate Ordered(flat: seq<MessageDto>, order: seq<string>) {
    forall i, j | 0 <= i < j < |order| :: order[i] != order[j] && FirstBefore(flat, order[i], order[j])
  }

  ghost predicate Occurs(flat: seq<MessageDto>, g: string) {
    exists m :: m in flat && GroupOf(m) == g
  }

  lemma OccursPush(flat: seq<MessageDto>, m: MessageDto, g: string)
    ensures Occurs(flat + [m], g) <==> Occurs(flat, g) || GroupOf(m) == g
  {
    var flat' := flat + [m];
    assert m in flat';
    if x :| x in flat && GroupOf(x) == g {
      assert x in flat';
    }
  }

  /** The order stays first-seen: old groups keep their order, a new one comes last. */
  lemma OrderStep(flat: seq<MessageDto>, m: MessageDto, order: seq<string>)
    requires Ordered(flat, order) && forall g :: g in order <==> Occurs(flat, g)
    ensures Ordered(flat + [m], if GroupOf(m) in order then order else order + [GroupOf(m)])
  {
    var order' := if GroupOf(m) in order then order else order + [GroupOf(m)];
    forall i, j | 0 <= i < j < |order'| ensures order'[i] != order'[j]
        && FirstBefore(flat + [m], order'[i], order'[j]) {
      if j < |order| {
        FirstBeforeGrows(flat, m, order[i], order[j]);
      } else {
        assert order[i] in order;
        assert Occurs(flat, order[i]) && !Occurs(flat, GroupOf(m));
        NewGroupComesLast(flat, m, order[i]);
      }
    }
  }

  lemma BucketedStep(flat: seq<MessageDto>, m: MessageDto, order: seq<string>, buckets: map<string, seq<MessageDto>>)
    requires Bucketed(flat, order, buckets)
    ensures var g := GroupOf(m);
            Bucketed(flat + [m], if g in buckets then order else order + [g],
                     buckets[g := (if g in buckets then buckets[g] else []) + [m]])
  {
    OrderStep(flat, m, order);
    GroupsStep(flat, m, order, buckets);
    ContentsStep(flat, m, order, buckets);
    assert GroupOf(m) in order <==> GroupOf(m) in buckets;
    hide Ordered, Listed, Filled;
  }

  lemma GroupsStep(flat: seq<MessageDto>, m: MessageDto, order: seq<string>, buckets: map<string, seq<MessageDto>>)
    requires Listed(flat, order, buckets)
    ensures var g := GroupOf(m);
            Listed(flat + [m], if g in buckets then order else order + [g],
                   buckets[g := (if g in buckets then buckets[g] else []) + [m]])
  {
    hide Occurs;
    forall h ensures h in buckets || h == GroupOf(m) <==> Occurs(flat + [m], h) {
      OccursPush(flat, m, h);
    }
  }

  lemma ContentsStep(flat: seq<MessageDto>, m: MessageDto, order: seq<string>,
                     buckets: map<string, seq<MessageDto>>)
    requires Listed(flat, order, buckets) && Filled(flat, buckets)
    ensures var g := GroupOf(m);
            Filled(flat + [m], buckets[g := (if g in buckets then buckets[g] else []) + [m]])
  {
    hide OfGroup, Occurs;
    if !Occurs(flat, GroupOf(m)) {
      NoneOfGroup(flat, GroupOf(m));
    }
    forall h ensures OfGroup(flat + [m], h) == OfGroup(flat, h) + (if GroupOf(m) == h then [m] else []) {
      OfGroupPush(flat, m, h);
    }
  }

  lemma {:induction false} NoneOfGroup(flat: seq<MessageDto>, g: string)
    requires !Occurs(flat, g)
    ensures OfGroup(flat, g) == []
  {
    if |flat| == 0 {
    } else {
      assert forall m | m in flat[..|flat| - 1] :: m in flat;
      NoneOfGroup(flat[..|flat| - 1], g);
      assert flat[|flat| - 1] in flat;
    }
  }

  lemma NothingBucketed()
    ensures Bucketed([], [], map[])
  {
  }

  /** The flat form of `parse_message_buckets`. */
  method BucketByGroup(flat: seq<MessageDto>) returns (r: seq<GroupMessages>)
    ensures IsBucketing(flat, r)
  {
    hide IsBucketing, Bucketed;
    var order: seq<string> := [];
    var buckets: map<string, seq<MessageDto>> := map[];
    NothingBucketed();
    assert flat[..0] == [];
    for i := 0 to |flat|
      invariant Bucketed(flat[..i], order, buckets)
    {
      var m := flat[i];
      var g := GroupOf(m);
      BucketedStep(flat[..i], m, order, buckets);
      assert flat[..i + 1] == flat[..i] + [m];
      if g !in buckets {
        order := order + [g];
      }
      buckets := buckets[g := (if g in buckets then buckets[g] else []) + [m]];
    }
    assert flat[..|flat|] == flat;
    OrderIsKnown(flat, order, buckets);
    r := seq(|order|, i requires 0 <= i < |order| => GroupMessages(order[i], buckets[order[i]]));
    BucketsAreTheResult(flat, order, buckets, r);
  }

  lemma OrderIsKnown(flat: seq<MessageDto>, order: seq<string>, buckets: map<string, seq<MessageDto>>)
    requires Bucketed(flat, order, buckets)
    ensures forall k | 0 <= k < |order| :: order[k] in buckets
  {
    assert forall k | 0 <= k < |order| :: order[k] in order;
  }

  lemma BucketsAreTheResult(flat: seq<MessageDto>, order: seq<string>, buckets: map<string, seq<MessageDto>>,
      r: seq<GroupMessages>)
    requires Bucketed(flat, order, buckets) && |r| == |order|
    requires forall k | 0 <= k < |r| :: order[k] in buckets && r[k] == GroupMessages(order[k], buckets[order[k]])
    ensures IsBucketing(flat, r)
  {
    forall m | m in flat ensures exists i :: 0 <= i < |r| && r[i].groupId == GroupOf(m) {
      assert Occurs(flat, GroupOf(m));
      var i :| 0 <= i < |order| && order[i] == GroupOf(m);
      assert r[i].groupId == GroupOf(m);
    }
  }

  // ---- nothing is lost or duplicated -----------------------------------------------------

  function Flatten(r: seq<GroupMessages>): seq<MessageDto> {
    if |r| == 0 then [] else Flatten(r[..|r| - 1]) + r[|r| - 1].messages
  }

  lemma {:induction false} OfGroupCounts(flat: seq<MessageDto>, g: string, m: MessageDto)
    ensures multiset(OfGroup(flat, g))[m] == if GroupOf(m) == g then multiset(flat)[m] else 0
  {
    if |flat| == 0 {
    } else {
      assert flat == flat[..|flat| - 1] + [flat[|flat| - 1]];
      OfGroupCounts(flat[..|flat| - 1], g, m);
    }
  }

  ghost predicate HasGroup(r: seq<GroupMessages>, g: string) {
    exists i :: 0 <= i < |r| && r[i].groupId == g
  }

  lemma HasGroupPush(r: seq<GroupMessages>, g: string)
    requires r != []
    ensures HasGroup(r, g) <==> HasGroup(r[..|r| - 1], g) || r[|r| - 1].groupId == g
  {
    var init := r[..|r| - 1];
    if i :| 0 <= i < |init| && init[i].groupId == g {
      assert r[i].groupId == g;
    }
    if i :| 0 <= i < |r| && r[i].groupId == g {
      assert i < |init| ==> init[i].groupId == g;
    }
  }

  lemma {:induction false} FlattenCounts(flat: seq<MessageDto>, r: seq<GroupMessages>, m: MessageDto)
    requires forall i, j | 0 <= i < j < |r| :: r[i].groupId != r[j].groupId
    requires forall i | 0 <= i < |r| :: r[i].messages == OfGroup(flat, r[i].groupId)
    ensures multiset(Flatten(r))[m] == if HasGroup(r, GroupOf(m)) then multiset(flat)[m] else 0
  {
    if |r| == 0 {
    } else {
      var n := |r| - 1;
      FlattenCounts(flat, r[..n], m);
      OfGroupCounts(flat, r[n].groupId, m);
      HasGroupPush(r, GroupOf(m));
      hide OfGroup;
      assert r[n].groupId == GroupOf(m) ==> !HasGroup(r[..n], GroupOf(m));
    }
  }

  /** A bucket holds the messages that name its group; those that name none share the bucket of the empty name. */
  lemma BucketHoldsItsGroup(flat: seq<MessageDto>, r: seq<GroupMessages>, i: nat)
    requires IsBucketing(flat, r) && i < |r|
    ensures forall m :: m in r[i].messages
                        <==> m in flat && (m.groupId == Some(r[i].groupId) || (m.groupId.None? && r[i].groupId == ""))
  {
    forall m ensures m in r[i].messages <==> m in flat && GroupOf(m) == r[i].groupId {
      OfGroupCounts(flat, r[i].groupId, m);
      assert m in r[i].messages <==> multiset(r[i].messages)[m] > 0;
      assert m in flat <==> multiset(flat)[m] > 0;
    }
  }

  /** Every message lands in exactly one bucket, as often as it occurs. */
  lemma NothingLostOrDuplicated(flat: seq<MessageDto>, r: seq<GroupMessages>)
    requires IsBucketing(flat, r)
    ensures multiset(Flatten(r)) == multiset(flat)
  {
    forall m ensures multiset(Flatten(r))[m] == multiset(flat)[m] {
      FlattenCounts(flat, r, m);
      if m in flat {
        var i :| 0 <= i < |r| && r[i].groupId == GroupOf(m);
      } else {
        assert multiset(flat)[m] == 0;
      }
    }
  }
}
