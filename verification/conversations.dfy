/**
 * Mapping a group to a Telegram conversation when many tasks ask at once. Each caller of
 * `ensure_conversation` advances one await at a time; the durable rows and the per-group locks are shared.
 */
module Conversations {
  import opened Entities
  import ForwardingBatches

  /** A caller between two awaits. */
  datatype Pc =
    | Entered
    | Waiting            // found nothing, wants the group's lock
    | Checking           // holds the lock, looks again
    | Creating           // holds the lock, found nothing
    | Importing(conv: int)  // holds the lock, created the row, forwards the history
    | Returned(conv: int)
    | Failed

  datatype Caller = Caller(groupId: string, pc: Pc)

  /**
   * `rows` maps a conversation id to its group; `late` holds the rows of creations that were given up on
   * while the request was still on its way; `lock` maps a group to whoever holds its lock.
   */
  datatype State = State(rows: map<int, string>, late: map<int, string>, lock: map<string, int>,
                         callers: map<int, Caller>)

  /** What a lookup answers: an error, or the row the store found, if any. */
  datatype Lookup = StoreError | NoRow | Row(id: int)

  /** How creating the row ended: refused, given up on, stored but the reply lost, or stored and told. */
  datatype Creation = Refused | GivenUp | StoredUntold | StoredTold

  datatype Action =
    | Call(k: int, groupId: string)
    | FirstLook(k: int, found: Lookup)
    | TakeLock(k: int)
    | SecondLook(k: int, found: Lookup)
    | CacheFails(k: int)
    | Create(k: int, id: int, creation: Creation, cached: seq<Message>, limit: nat)
    | Land(id: int)
    | Forward(k: int)
    | OtherLocks(task: int, groupId: string)
    | OtherUnlocks(groupId: string)
    | Crash

  predicate HasRow(s: State, g: string) {
    exists id :: id in s.rows && s.rows[id] == g
  }

  predicate OnItsWay(s: State, g: string) {
    exists id :: id in s.late && s.late[id] == g
  }

  /** The store answers truthfully or not at all. */
  predicate Truthful(s: State, g: string, found: Lookup) {
    match found
    case StoreError => true
    case NoRow => !HasRow(s, g)
    case Row(id) => id in s.rows && s.rows[id] == g
  }

  predicate Stands(s: State, k: int, pc: Pc) {
    k in s.callers && s.callers[k].pc == pc
  }

  function Move(s: State, k: int, pc: Pc): State
    requires k in s.callers
  {
    s.(callers := s.callers[k := Caller(s.callers[k].groupId, pc)])
  }

  function Leave(s: State, k: int, pc: Pc): State
    requires k in s.callers
  {
    Move(s, k, pc).(lock := s.lock - {s.callers[k].groupId})
  }

  /** Something of the history still has its text, so it is imported. */
  predicate HasHistory(cached: seq<Message>, limit: nat) {
    ForwardingBatches.History(cached, limit) != []
  }

  function DoCreate(s: State, k: int, id: int, creation: Creation, cached: seq<Message>, limit: nat): State {
    if !Stands(s, k, Creating) || id in s.rows || id in s.late then s
    else
      var g := s.callers[k].groupId;
      var stored := s.(rows := s.rows[id := g]);
      match creation
      case Refused => Leave(s, k, Failed)
      case GivenUp => Leave(s.(late := s.late[id := g]), k, Failed)
      case StoredUntold => Leave(stored, k, Failed)
      case StoredTold =>
        if HasHistory(cached, limit) then Move(stored, k, Importing(id)) else Leave(stored, k, Returned(id))
  }

  function Next(s: State, a: Action): State {
    match a
    case Call(k, g) =>
      if k >= 0 && k !in s.callers then s.(callers := s.callers[k := Caller(g, Entered)]) else s
    case FirstLook(k, found) =>
      if !Stands(s, k, Entered) || !Truthful(s, s.callers[k].groupId, found) then s
      else
        (match found
         case StoreError => Move(s, k, Failed)
         case NoRow => Move(s, k, Waiting)
         case Row(id) => Move(s, k, Returned(id)))
    case TakeLock(k) =>
      if Stands(s, k, Waiting) && s.callers[k].groupId !in s.lock
      then Move(s, k, Checking).(lock := s.lock[s.callers[k].groupId := k])
      else s
    case SecondLook(k, found) =>
      if !Stands(s, k, Checking) || !Truthful(s, s.callers[k].groupId, found) then s
      else
        (match found
         case StoreError => Leave(s, k, Failed)
         case NoRow => Move(s, k, Creating)
         case Row(id) => Leave(s, k, Returned(id)))
    case CacheFails(k) => if Stands(s, k, Creating) then Leave(s, k, Failed) else s
    case Create(k, id, creation, cached, limit) => DoCreate(s, k, id, creation, cached, limit)
    case Land(id) =>
      if id in s.late then s.(rows := s.rows[id := s.late[id]], late := s.late - {id}) else s
    case Forward(k) =>
      // `forward_to` takes the group's lock itself before it does anything.
      if k in s.callers && s.callers[k].pc.Importing? && s.callers[k].groupId !in s.lock
      then Leave(s, k, Returned(s.callers[k].pc.conv))
      else s
    case OtherLocks(task, g) => if task < 0 && g !in s.lock then s.(lock := s.lock[g := task]) else s
    case OtherUnlocks(g) => if g in s.lock && s.lock[g] < 0 then s.(lock := s.lock - {g}) else s
    case Crash => s.(lock := map[], callers := map[])
  }

  function Run(s: State, actions: seq<Action>): State {
    if |actions| == 0 then s else Next(Run(s, actions[..|actions| - 1]), actions[|actions| - 1])
  }

  const EMPTY := State(map[], map[], map[], map[])

  // ---- what every step keeps ------------------------------------------------------------

  /** Who works under the lock holds it, and who has a row has one of its own group. */
  predicate CallerInv(s: State, k: int) {
    k in s.callers ==>
      var g, pc := s.callers[k].groupId, s.callers[k].pc;
      && k >= 0
      && (pc.Checking? || pc.Creating? || pc.Importing? ==> g in s.lock && s.lock[g] == k)
      && (pc.Importing? || pc.Returned? ==> pc.conv in s.rows && s.rows[pc.conv] == g)
  }

  ghost predicate CallersInv(s: State) {
    (forall k :: CallerInv(s, k)) && s.rows.Keys !! s.late.Keys
  }

  /** A step moves at most its own caller, and releases at most that caller's lock. */
  lemma StepKeepsCaller(s: State, a: Action, k: int)
    requires CallersInv(s)
    ensures CallerInv(Next(s, a), k)
  {
    var actor := if a.SecondLook? || a.CacheFails? || a.Create? || a.Forward? then a.k else 0;
    assert CallerInv(s, actor) && CallerInv(s, k);
    hide HasRow, HasHistory, CallersInv;
    if a.Create? {
      CreateKeepsCaller(s, a, k);
    }
  }

  lemma CreateKeepsCaller(s: State, a: Action, k: int)
    requires CallerInv(s, k) && a.Create? && CallerInv(s, a.k)
    ensures CallerInv(DoCreate(s, a.k, a.id, a.creation, a.cached, a.limit), k)
  {
    hide HasHistory;
  }

  lemma StepKeepsKeys(s: State, a: Action)
    requires s.rows.Keys !! s.late.Keys
    ensures Next(s, a).rows.Keys !! Next(s, a).late.Keys
  {
    hide Truthful, HasHistory;
  }

  lemma StepKeepsCallers(s: State, a: Action)
    requires CallersInv(s)
    ensures CallersInv(Next(s, a))
  {
    StepKeepsKeys(s, a);
    forall k ensures CallerInv(Next(s, a), k) {
      StepKeepsCaller(s, a, k);
    }
  }

  lemma {:induction false} RunKeepsCallers(s: State, actions: seq<Action>)
    requires CallersInv(s)
    ensures CallersInv(Run(s, actions))
  {
    if |actions| == 0 {
    } else {
      RunKeepsCallers(s, actions[..|actions| - 1]);
      StepKeepsCallers(Run(s, actions[..|actions| - 1]), actions[|actions| - 1]);
    }
  }

  /** What a caller does with the answer to a look: who finds the row returns it, at either look. */
  lemma WhereLooksLead(s: State, k: int, found: Lookup)
    requires k in s.callers && Truthful(s, s.callers[k].groupId, found)
    ensures s.callers[k].pc == Entered ==>
              var t := Next(s, FirstLook(k, found));
              && Stands(t, k, match found case Row(id) => Returned(id) case NoRow => Waiting case StoreError => Failed)
              && t.lock == s.lock && OnlyCallerMoved(s, t, k)
    ensures s.callers[k].pc == Checking ==>
              var t := Next(s, SecondLook(k, found));
              && Stands(t, k, match found case Row(id) => Returned(id) case NoRow => Creating case StoreError => Failed)
              && t.lock == (if found == NoRow then s.lock else s.lock - {s.callers[k].groupId})
              && OnlyCallerMoved(s, t, k)
  {
  }

  /**
   * What creating the row leads to, for every outcome: the row is stored, on its way, or neither; who was not
   * told of it fails and frees the lock; who was told returns it, or holds the lock while history is imported.
   */
  lemma WhereCreationsLead(s: State, k: int, id: int, creation: Creation, cached: seq<Message>, limit: nat)
    requires Stands(s, k, Creating) && id !in s.rows && id !in s.late
    ensures var t := Next(s, Create(k, id, creation, cached, limit));
            var g := s.callers[k].groupId;
            && t.rows == (if creation.StoredUntold? || creation.StoredTold? then s.rows[id := g] else s.rows)
            && t.late == (if creation.GivenUp? then s.late[id := g] else s.late)
            && t.lock == (if t.callers[k].pc.Importing? then s.lock else s.lock - {g})
            && (creation.StoredTold? ==> Stands(t, k, Importing(id)) || Stands(t, k, Returned(id)))
            && (!creation.StoredTold? ==> Stands(t, k, Failed))
            && t.callers.Keys == s.callers.Keys && forall j | j in s.callers && j != k :: t.callers[j] == s.callers[j]
  {
    hide HasHistory;
  }

  /** Tables and everybody else's standing are as before. */
  predicate OnlyCallerMoved(s: State, t: State, k: int) {
    && t.rows == s.rows && t.late == s.late && t.callers.Keys == s.callers.Keys
    && forall j | j in s.callers ::
         t.callers[j].groupId == s.callers[j].groupId && (j != k ==> t.callers[j] == s.callers[j])
  }

  /** A lock held by a caller is held for its own group, and while it works under it. */
  predicate HolderInv(s: State, g: string) {
    g in s.lock && s.lock[g] >= 0 ==>
      var k := s.lock[g];
      k in s.callers && s.callers[k].groupId == g
      && (s.callers[k].pc.Checking? || s.callers[k].pc.Creating? || s.callers[k].pc.Importing?)
  }

  ghost predicate HoldersInv(s: State) {
    forall g :: HolderInv(s, g)
  }

  lemma StepKeepsHolder(s: State, a: Action, g: string)
    requires CallersInv(s) && HoldersInv(s)
    ensures HolderInv(Next(s, a), g)
  {
    assert HolderInv(s, g);
    hide HasRow, HasHistory, CallersInv, HoldersInv;
    if a.Create? {
      CreateKeepsHolder(s, a, g);
    }
  }

  lemma CreateKeepsHolder(s: State, a: Action, g: string)
    requires a.Create? && HolderInv(s, g)
    ensures HolderInv(DoCreate(s, a.k, a.id, a.creation, a.cached, a.limit), g)
  {
    hide HasHistory;
  }

  /** Over all runs: who has returned, has failed, or is still on its way to the lock holds none. */
  lemma {:induction false} OnlyWorkersHoldLocks(actions: seq<Action>, g: string)
    ensures CallersInv(Run(EMPTY, actions)) && HoldersInv(Run(EMPTY, actions))
    ensures var s := Run(EMPTY, actions);
            g in s.lock && s.lock[g] in s.callers ==>
              var c := s.callers[s.lock[g]];
              c.groupId == g && !c.pc.Entered? && !c.pc.Waiting? && !c.pc.Returned? && !c.pc.Failed?
  {
    var s := Run(EMPTY, actions);
    RunKeepsCallers(EMPTY, actions);
    if |actions| == 0 {
    } else {
      var before := Run(EMPTY, actions[..|actions| - 1]);
      OnlyWorkersHoldLocks(actions[..|actions| - 1], g);
      forall h ensures HolderInv(s, h) {
        StepKeepsHolder(before, actions[|actions| - 1], h);
      }
    }
    hide Run;
    assert HolderInv(s, g);
    assert g in s.lock ==> CallerInv(s, s.lock[g]);
  }

  // ---- at most one mapping --------------------------------------------------------------

  ghost predicate OneRowPerGroup(s: State) {
    forall a, b | a in s.rows && b in s.rows && s.rows[a] == s.rows[b] :: a == b
  }

  ghost predicate OneLatePerGroup(s: State) {
    forall a, b | a in s.late && b in s.late && s.late[a] == s.late[b] :: a == b
  }

  /** Nothing of the group is stored or on its way while somebody creates it or its creation is on its way. */
  ghost predicate Exclusive(s: State) {
    && OneRowPerGroup(s) && OneLatePerGroup(s)
    && (forall id | id in s.late :: !HasRow(s, s.late[id]))
    && (forall k | k in s.callers && s.callers[k].pc.Creating? ::
          !HasRow(s, s.callers[k].groupId) && !OnItsWay(s, s.callers[k].groupId))
  }

  /** A second look that finds nothing although a creation of the group is still on its way. */
  predicate Overtakes(s: State, a: Action) {
    a.SecondLook? && a.found == NoRow && Stands(s, a.k, Checking) && OnItsWay(s, s.callers[a.k].groupId)
  }

  ghost predicate Overtaken(actions: seq<Action>) {
    exists i :: 0 <= i < |actions| && Overtakes(Run(EMPTY, actions[..i]), actions[i])
  }

  /** The creator is the only one creating its group. */
  lemma CreatorIsAlone(s: State, k: int, other: int)
    requires CallersInv(s) && Stands(s, k, Creating) && Stands(s, other, Creating) && k != other
    ensures s.callers[k].groupId != s.callers[other].groupId
  {
    assert CallerInv(s, k) && CallerInv(s, other);
  }

  /** A row of the creator's group, stored or on its way, keeps things exclusive once the creator is done. */
  lemma AddingKeepsExclusive(s: State, t: State, k: int, id: int)
    requires CallersInv(s) && Exclusive(s) && Stands(s, k, Creating) && id !in s.rows && id !in s.late
    requires var g := s.callers[k].groupId;
             || (t.rows == s.rows && t.late == s.late)
             || (t.rows == s.rows[id := g] && t.late == s.late)
             || (t.rows == s.rows && t.late == s.late[id := g])
    requires forall c | c in t.callers && t.callers[c].pc.Creating? ::
               c != k && Stands(s, c, Creating) && t.callers[c].groupId == s.callers[c].groupId
    ensures Exclusive(t)
  {
    var g := s.callers[k].groupId;
    assert !HasRow(s, g) && !OnItsWay(s, g);
    assert forall r | r in s.rows :: s.rows[r] != g;
    assert forall r | r in s.late :: s.late[r] != g;
    forall h | h != g ensures HasRow(t, h) == HasRow(s, h) && OnItsWay(t, h) == OnItsWay(s, h) {
      SameElsewhere(s, t, g, h, id);
    }
    forall c | c in t.callers && t.callers[c].pc.Creating?
      ensures !HasRow(t, t.callers[c].groupId) && !OnItsWay(t, t.callers[c].groupId)
    {
      CreatorIsAlone(s, k, c);
    }
    hide CallersInv;
  }

  lemma SameElsewhere(s: State, t: State, g: string, h: string, id: int)
    requires h != g && id !in s.rows && id !in s.late
    requires t.rows == s.rows || t.rows == s.rows[id := g]
    requires t.late == s.late || t.late == s.late[id := g]
    ensures HasRow(t, h) == HasRow(s, h) && OnItsWay(t, h) == OnItsWay(s, h)
  {
    forall r | r in s.rows ensures r in t.rows && t.rows[r] == s.rows[r] {}
    forall r | r in s.late ensures r in t.late && t.late[r] == s.late[r] {}
  }

  lemma CreateMovesOn(s: State, k: int, id: int, creation: Creation, cached: seq<Message>, limit: nat)
    requires Stands(s, k, Creating) && id !in s.rows && id !in s.late
    ensures var t := DoCreate(s, k, id, creation, cached, limit);
            var g := s.callers[k].groupId;
            && (|| (t.rows == s.rows && t.late == s.late)
                || (t.rows == s.rows[id := g] && t.late == s.late)
                || (t.rows == s.rows && t.late == s.late[id := g]))
            && forall c | c in t.callers && t.callers[c].pc.Creating? ::
                 c != k && Stands(s, c, Creating) && t.callers[c].groupId == s.callers[c].groupId
  {
    hide HasHistory;
  }

  lemma CreateKeepsExclusive(s: State, a: Action)
    requires CallersInv(s) && Exclusive(s) && a.Create?
    ensures Exclusive(Next(s, a))
  {
    var t := DoCreate(s, a.k, a.id, a.creation, a.cached, a.limit);
    assert Next(s, a) == t;
    hide Next, CallersInv, Exclusive, HasHistory;
    if Stands(s, a.k, Creating) && a.id !in s.rows && a.id !in s.late {
      CreateMovesOn(s, a.k, a.id, a.creation, a.cached, a.limit);
      hide DoCreate;
      AddingKeepsExclusive(s, t, a.k, a.id);
    }
  }

  lemma LandKeepsExclusive(s: State, id: int)
    requires CallersInv(s) && Exclusive(s)
    ensures Exclusive(Next(s, Land(id)))
  {
    var t := Next(s, Land(id));
    if id in s.late {
      var g := s.late[id];
      assert !HasRow(s, g) && OnItsWay(s, g);
      forall k | k in t.callers && t.callers[k].pc.Creating?
        ensures !HasRow(t, t.callers[k].groupId) && !OnItsWay(t, t.callers[k].groupId)
      {
        assert !HasRow(s, s.callers[k].groupId) && !OnItsWay(s, s.callers[k].groupId);
      }
      forall other | other in t.late ensures !HasRow(t, t.late[other]) {
        assert t.late[other] != g && !HasRow(s, s.late[other]);
      }
    }
  }

  lemma LooksKeepTables(s: State, a: Action)
    requires !a.Create? && !a.Land?
    ensures Next(s, a).rows == s.rows && Next(s, a).late == s.late
  {
    hide DoCreate, Truthful;
  }

  lemma StepKeepsExclusive(s: State, a: Action)
    requires CallersInv(s) && Exclusive(s) && !Overtakes(s, a)
    ensures Exclusive(Next(s, a))
  {
    if a.Create? {
      CreateKeepsExclusive(s, a);
    } else if a.Land? {
      LandKeepsExclusive(s, a.id);
    } else {
      var t := Next(s, a);
      LooksKeepTables(s, a);
      hide DoCreate;
      assert forall g :: HasRow(t, g) == HasRow(s, g) && OnItsWay(t, g) == OnItsWay(s, g);
    }
  }

  lemma {:induction false} RunKeepsExclusive(actions: seq<Action>)
    requires !Overtaken(actions)
    ensures CallersInv(Run(EMPTY, actions)) && Exclusive(Run(EMPTY, actions))
  {
    RunKeepsCallers(EMPTY, actions);
    if |actions| == 0 {
    } else {
      var n := |actions| - 1;
      var init := actions[..n];
      forall i | 0 <= i < n ensures !Overtakes(Run(EMPTY, init[..i]), init[i]) {
        assert init[..i] == actions[..i];
      }
      RunKeepsExclusive(init);
      assert !Overtakes(Run(EMPTY, actions[..n]), actions[n]);
      StepKeepsExclusive(Run(EMPTY, init), actions[n]);
    }
  }

  /** One row per group, and who returned for a group returned that row. */
  ghost predicate MappedOnce(s: State) {
    && OneRowPerGroup(s)
    && forall j, k | j in s.callers && k in s.callers && s.callers[j].pc.Returned? && s.callers[k].pc.Returned?
                     && s.callers[j].groupId == s.callers[k].groupId ::
         s.callers[j].pc.conv == s.callers[k].pc.conv && s.callers[j].pc.conv in s.rows
  }

  /**
   * At most one mapping: after every interleaving, with lookups and creations failing or their replies
   * lost, tasks crashing and other tasks taking the lock, each group has at most one row and all callers
   * that returned for it returned that row. The one exception is a run in which somebody looked a second
   * time while a creation that had been given up on was still on its way.
   */
  lemma {:induction false} AtMostOneMapping(actions: seq<Action>)
    ensures MappedOnce(Run(EMPTY, actions)) || Overtaken(actions)
  {
    if !Overtaken(actions) {
      RunKeepsExclusive(actions);
      var s := Run(EMPTY, actions);
      forall k | k in s.callers && s.callers[k].pc.Returned?
        ensures s.callers[k].pc.conv in s.rows && s.rows[s.callers[k].pc.conv] == s.callers[k].groupId
      {
        assert CallerInv(s, k);
      }
    }
  }

  /** The exception is real: once overtaken, two creations that both succeed make two rows. */
  lemma OvertakingDuplicates(s: State, k: int, found: Action, late: int, id: int, cached: seq<Message>, limit: nat)
    requires CallersInv(s) && found == SecondLook(k, NoRow) && Overtakes(s, found)
    requires Truthful(s, s.callers[k].groupId, NoRow)
    requires late in s.late && s.late[late] == s.callers[k].groupId && id !in s.rows && id !in s.late
    ensures !OneRowPerGroup(Next(Next(Next(s, found), Create(k, id, StoredTold, cached, limit)), Land(late)))
  {
    var g := s.callers[k].groupId;
    var t := Next(Next(s, found), Create(k, id, StoredTold, cached, limit));
    assert id in t.rows && t.rows[id] == g && late in t.late && t.late[late] == g;
    var u := Next(t, Land(late));
    assert id in u.rows && late in u.rows && u.rows[id] == u.rows[late] && id != late;
  }

  lemma RunSnoc(s: State, actions: seq<Action>, a: Action)
    ensures Run(s, actions + [a]) == Next(Run(s, actions), a)
  {
    assert (actions + [a])[..|actions|] == actions;
  }

  /** One caller alone finds nothing, takes the lock and finds nothing again. */
  function Alone(k: int): seq<Action> {
    [Call(k, "g")] + [FirstLook(k, NoRow)] + [TakeLock(k)] + [SecondLook(k, NoRow)]
  }

  lemma AloneCreates(s: State, before: seq<Action>, k: int)
    requires s == Run(EMPTY, before) && s.rows == map[] && s.lock == map[] && k >= 0 && k !in s.callers
    ensures Run(EMPTY, before + Alone(k))
            == s.(lock := map["g" := k], callers := s.callers[k := Caller("g", Creating)])
    ensures OnItsWay(s, "g") ==>
              Overtakes(s.(lock := map["g" := k], callers := s.callers[k := Caller("g", Checking)]),
                  SecondLook(k, NoRow))
              && Run(EMPTY, before + Alone(k)[..3])
                 == s.(lock := map["g" := k], callers := s.callers[k := Caller("g", Checking)])
  {
    var a := before + [Call(k, "g")];
    var b := a + [FirstLook(k, NoRow)];
    var c := b + [TakeLock(k)];
    assert before + Alone(k) == c + [SecondLook(k, NoRow)] && before + Alone(k)[..3] == c;
    RunSnoc(EMPTY, before, Call(k, "g"));
    RunSnoc(EMPTY, a, FirstLook(k, NoRow));
    RunSnoc(EMPTY, b, TakeLock(k));
    RunSnoc(EMPTY, c, SecondLook(k, NoRow));
    hide Run, Next;
    AloneLocks(s, k);
    AloneLooksAgain(s, k);
  }

  lemma AloneLocks(s: State, k: int)
    requires s.rows == map[] && s.lock == map[] && k >= 0 && k !in s.callers
    ensures Next(Next(Next(s, Call(k, "g")), FirstLook(k, NoRow)), TakeLock(k))
            == s.(lock := map["g" := k], callers := s.callers[k := Caller("g", Checking)])
  {
    hide DoCreate, OnItsWay;
    var entered := s.(callers := s.callers[k := Caller("g", Entered)]);
    assert Next(s, Call(k, "g")) == entered;
    var waiting := s.(callers := s.callers[k := Caller("g", Waiting)]);
    assert Next(entered, FirstLook(k, NoRow)) == waiting;
  }

  lemma AloneLooksAgain(s: State, k: int)
    requires s.rows == map[] && s.lock == map[] && k >= 0 && k !in s.callers
    ensures var t := s.(lock := map["g" := k], callers := s.callers[k := Caller("g", Checking)]);
            && Next(t, SecondLook(k, NoRow)) == t.(callers := s.callers[k := Caller("g", Creating)])
            && (OnItsWay(s, "g") ==> Overtakes(t, SecondLook(k, NoRow)))
  {
    hide DoCreate;
  }

  /** The first caller gives up on a creation that is still on its way. */
  lemma FirstGivesUp() returns (actions: seq<Action>)
    ensures Run(EMPTY, actions) == State(map[], map[1 := "g"], map[], map[0 := Caller("g", Failed)])
  {
    AloneCreates(EMPTY, [], 0);
    assert [] + Alone(0) == Alone(0);
    actions := Alone(0) + [Create(0, 1, GivenUp, [], 0)];
    RunSnoc(EMPTY, Alone(0), Create(0, 1, GivenUp, [], 0));
    hide Run, Next;
    GivesUp();
  }

  lemma GivesUp()
    ensures Next(State(map[], map[], map["g" := 0], map[0 := Caller("g", Creating)]), Create(0, 1, GivenUp, [], 0))
            == State(map[], map[1 := "g"], map[], map[0 := Caller("g", Failed)])
  {
    hide HasHistory, HasRow;
  }

  /** A concrete run in which that creation lands after a second caller's: two rows for one group. */
  lemma LateCreationDuplicates() returns (actions: seq<Action>)
    ensures Overtaken(actions) && !OneRowPerGroup(Run(EMPTY, actions))
  {
    var before := FirstGivesUp();
    var s := Run(EMPTY, before);
    assert s.late[1] == "g";
    AloneCreates(s, before, 1);
    var checking := before + Alone(1)[..3];
    var look, create, land := SecondLook(1, NoRow), Create(1, 2, StoredTold, [], 0), Land(1);
    actions := checking + [look] + [create] + [land];
    RunSnoc(EMPTY, checking, look);
    RunSnoc(EMPTY, checking + [look], create);
    RunSnoc(EMPTY, checking + [look] + [create], land);
    RunKeepsCallers(EMPTY, checking);
    var t := Run(EMPTY, checking);
    assert !HasRow(t, "g");
    assert actions[..|checking|] == checking && actions[|checking|] == look;
    hide Run, Next, Overtakes, CallersInv, OneRowPerGroup;
    OvertakingDuplicates(t, 1, look, 1, 2, [], 0);
  }

  /** Rows are never dropped or moved to another group. */
  lemma {:induction false} RowsStay(s: State, actions: seq<Action>, id: int)
    requires CallersInv(s) && id in s.rows
    ensures id in Run(s, actions).rows && Run(s, actions).rows[id] == s.rows[id]
  {
    if |actions| == 0 {
    } else {
      RowsStay(s, actions[..|actions| - 1], id);
      RunKeepsCallers(s, actions[..|actions| - 1]);
      StepKeepsRow(Run(s, actions[..|actions| - 1]), actions[|actions| - 1], id);
    }
  }

  lemma StepKeepsRow(s: State, a: Action, id: int)
    requires s.rows.Keys !! s.late.Keys && id in s.rows
    ensures id in Next(s, a).rows && Next(s, a).rows[id] == s.rows[id]
  {
    hide Truthful, HasHistory;
  }

  // ---- when the creator returns --------------------------------------------------------

  /**
   * Having created the row, the caller returns at once exactly when none of the newest `limit` cached
   * messages has its text; otherwise it goes on to import them, still holding the lock.
   */
  lemma CreatorReturnsIffNoHistory(s: State, k: int, id: int, cached: seq<Message>, limit: nat)
    requires CallersInv(s) && Stands(s, k, Creating) && id !in s.rows && id !in s.late
    requires forall i, j | 0 <= i < j < |cached| :: cached[i].seqNo < cached[j].seqNo
    ensures var t := Next(s, Create(k, id, StoredTold, cached, limit));
            var blank := forall i | Max(0, |cached| - limit) <= i < |cached| :: cached[i].body == "";
            && (blank <==> Stands(t, k, Returned(id)) && t.callers[k].groupId !in t.lock)
            && (!blank <==> Stands(t, k, Importing(id)) && t.callers[k].groupId in t.lock
                            && t.lock[t.callers[k].groupId] == k)
  {
    assert CallerInv(s, k);
    HistoryIsText(cached, limit);
    hide HasHistory, CallersInv;
  }

  lemma HistoryIsText(cached: seq<Message>, limit: nat)
    requires forall i, j | 0 <= i < j < |cached| :: cached[i].seqNo < cached[j].seqNo
    ensures HasHistory(cached, limit)
            <==> exists i :: Max(0, |cached| - limit) <= i < |cached| && cached[i].body != ""
  {
    if |cached| > 0 {
      HistoryMembers(cached, limit);
      hide ForwardingBatches.History;
      var history := ForwardingBatches.History(cached, limit);
      if history != [] {
        assert history[0] in history;
        TailRow(cached, limit, history[0]);
      }
      forall i | Max(0, |cached| - limit) <= i < |cached| && cached[i].body != "" ensures history != [] {
        TailHolds(cached, limit, i);
        assert cached[i] in history;
      }
    }
  }

  lemma HistoryMembers(cached: seq<Message>, limit: nat)
    requires |cached| > 0
    ensures forall m :: m in ForwardingBatches.History(cached, limit)
              <==> m in ForwardingBatches.Thread(cached, limit) && m.seqNo > cached[0].seqNo - 1 && m.body != ""
  {
    ForwardingBatches.WithTextMembers(ForwardingBatches.Thread(cached, limit), cached[0].seqNo - 1);
  }

  lemma TailRow(cached: seq<Message>, limit: nat, m: Message)
    requires m in ForwardingBatches.Thread(cached, limit)
    ensures exists i :: Max(0, |cached| - limit) <= i < |cached| && cached[i] == m
  {
    var tail := ForwardingBatches.Thread(cached, limit);
    var i :| 0 <= i < |tail| && tail[i] == m;
    assert cached[Max(0, |cached| - limit) + i] == m;
  }

  lemma TailHolds(cached: seq<Message>, limit: nat, i: nat)
    requires forall i, j | 0 <= i < j < |cached| :: cached[i].seqNo < cached[j].seqNo
    requires Max(0, |cached| - limit) <= i < |cached|
    ensures cached[i] in ForwardingBatches.Thread(cached, limit) && cached[i].seqNo > cached[0].seqNo - 1
  {
    assert ForwardingBatches.Thread(cached, limit)[i - Max(0, |cached| - limit)] == cached[i];
  }

  /**
   * With history to forward the creator waits for the lock it holds itself: short of a crash it stays
   * there, and the group's lock stays taken, whatever happens next.
   */
  lemma {:induction false} CreatorWithHistoryNeverReturns(s: State, k: int, conv: int, actions: seq<Action>)
    requires CallersInv(s) && Stands(s, k, Importing(conv))
    requires forall a | a in actions :: a != Crash
    ensures var t := Run(s, actions);
            Stands(t, k, Importing(conv)) && t.callers[k].groupId == s.callers[k].groupId
            && t.callers[k].groupId in t.lock && t.lock[t.callers[k].groupId] == k
  {
    assert CallerInv(s, k);
    if |actions| == 0 {
    } else {
      var n := |actions| - 1;
      var mid := Run(s, actions[..n]);
      forall a | a in actions[..n] ensures a in actions {}
      CreatorWithHistoryNeverReturns(s, k, conv, actions[..n]);
      RunKeepsCallers(s, actions[..n]);
      assert actions[n] in actions;
      StillImporting(mid, k, conv, actions[n]);
    }
  }

  lemma StillImporting(s: State, k: int, conv: int, a: Action)
    requires CallersInv(s) && Stands(s, k, Importing(conv)) && a != Crash
    ensures Stands(Next(s, a), k, Importing(conv)) && Next(s, a).callers[k].groupId == s.callers[k].groupId
    ensures var g := s.callers[k].groupId; g in Next(s, a).lock && Next(s, a).lock[g] == k
  {
    assert CallerInv(s, k);
    var other := if a.SecondLook? || a.CacheFails? || a.Create? || a.Forward? then a.k else k;
    assert CallerInv(s, other);
    hide HasRow, HasHistory;
  }

  lemma OneMessageIsHistory(s: State, m: Message)
    requires CallersInv(s) && Stands(s, 0, Creating) && 1 !in s.rows && 1 !in s.late && m.body != ""
    ensures Stands(Next(s, Create(0, 1, StoredTold, [m], 100)), 0, Importing(1))
  {
    hide CallersInv, Next;
    assert [m][0].body != "";
    CreatorReturnsIffNoHistory(s, 0, 1, [m], 100);
  }

  /** One caller and one cached message with text: five steps after which it waits for itself, whatever follows. */
  lemma FiveStepsToDeadlock() returns (five: seq<Action>)
    ensures |five| == 5
    ensures forall actions | (forall a | a in actions :: a != Crash) ::
              Stands(Run(Run(EMPTY, five), actions), 0, Importing(1))
  {
    var m := Message("m", "g", 1, "u", "hi", None, 0);
    AloneCreates(EMPTY, [], 0);
    assert [] + Alone(0) == Alone(0);
    five := Alone(0) + [Create(0, 1, StoredTold, [m], 100)];
    RunSnoc(EMPTY, Alone(0), Create(0, 1, StoredTold, [m], 100));
    RunKeepsCallers(EMPTY, Alone(0));
    RunKeepsCallers(EMPTY, five);
    hide Run, Next, CallersInv, CallerInv;
    OneMessageIsHistory(Run(EMPTY, Alone(0)), m);
    var stuck := Run(EMPTY, five);
    forall actions: seq<Action> | (forall a | a in actions :: a != Crash)
      ensures Stands(Run(stuck, actions), 0, Importing(1))
    {
      CreatorWithHistoryNeverReturns(stuck, 0, 1, actions);
    }
  }
}
