/**
 * The whole messaging system as steps over explicit state: the local tables, the outbox dispatcher, the
 * socket and REST paths, and a store-and-forward server. Every step may be interleaved with every other;
 * a step whose guard fails changes nothing.
 */
module System {
  import opened Entities
  import opened Reconciler
  import opened Tables
  import opened OutboxRules
  import opened ServerLog
  import opened OutboxDispatchers
  import opened Sync

  /** What never changes: the groups this account belongs to, and the bodies the server executes. */
  datatype World = World(members: iset<string>, commands: iset<string>)

  /** Consecutive messages of a group, pushed on a socket or pulled over REST. */
  datatype Frame = Frame(groupId: string, batch: seq<Message>)

  datatype Ack = Ack(groupId: string, seqNo: int)

  /** A send request; the server may see it late, more than once, or never. */
  datatype Post = Post(clientMessageId: string, groupId: string, body: string)

  /** Where the dispatcher stands inside `step`. */
  datatype Phase =
    | Resting
    | Picked(row: OutboxRow)
    | Marked(row: OutboxRow)
    | Posted(row: OutboxRow)
    | Storing(row: OutboxRow, message: Message)

  /** Frames and acks on their way. */
  datatype Net = Net(
    wire: seq<Frame>,             // pushed, not yet received
    events: seq<Frame>,           // received, not yet handled
    outbound: seq<Ack>,           // queued by the engine; survives reconnects
    ackWire: seq<Ack>,            // sent, not yet processed by the server
    pulls: seq<Frame>,            // REST pages fetched, not yet applied
    restAcks: seq<Ack>            // REST acks on their way
  )

  /** The server: its log, and per group the seqs it assigned, had acknowledged, and has in flight. */
  datatype Server = Server(
    log: Log,
    nextSeq: map<string, int>,    // above every seq assigned; seqs start at 1
    cursor: map<string, int>,     // acknowledged up to here
    connected: bool,
    inflight: map<string, int>    // last seq of the one un-acked socket batch
  )

  /** What happened so far: requests sent, messages enqueued here, ids reported new. */
  datatype Past = Past(posts: set<Post>, enqueued: map<string, Post>, reported: set<string>)

  datatype Sys = Sys(db: Db, phase: Phase, server: Server, net: Net, past: Past)

  function Init(): Sys {
    Sys(Db(map[], map[], map[]), Resting, Server(map[], map[], map[], false, map[]),
        Net([], [], [], [], [], []), Past({}, map[], {}))
  }

  function At(m: map<string, int>, g: string): int {
    if g in m then m[g] else 0
  }

  function FreeSeq(nextSeq: map<string, int>, g: string): int {
    if g in nextSeq then nextSeq[g] else 1
  }

  datatype Action =
    // the user, and housekeeping
    | Enqueue(c: string, groupId: string, body: string, now: int)
    | UserRetry(c: string, now: int)
    | BlankMessages(groupId: string, upTo: int)
    | BlankConfirmed
    | PurgeOld(before: int)
    | GroupSeen(groupId: string)
    | GroupGone(groupId: string)
    // the dispatcher, one statement at a time
    | Pick(c: string, now: int)
    | Mark(now: int)
    | Send
    | Reply(outcome: SendOutcome, now: int, delay: int)
    | ConfirmReply
    | Abort
    | Restart(now: int)
    // the server
    | StorePost(post: Post, id: string, seqNo: int, senderId: string, shown: string, at: int)
    | OtherMessage(m: Message)
    | Connect
    | Disconnect
    | Push(groupId: string, batch: seq<Message>)
    | AckArrives
    | AcksLost
    | RestAckArrives(i: nat)
    | RestAckLost(i: nat)
    // the client's receiving side
    | Receive
    | Lag(n: nat)
    | HandleEvent(fetch: Fetch)
    | HandleFails
    | SendAck
    | OutboundLost
    | Pull(groupId: string, batch: seq<Message>)
    | HandlePull(fetch: Fetch)
    | PullFails
    | History(groupId: string, batch: seq<Message>, fetch: Fetch)
    | OlderPage(groupId: string, batch: seq<Message>)

  // ---- guards --------------------------------------------------------------------

  /** The next undelivered messages of a group, gap-free from `base`, in order. */
  ghost predicate NextBatch(log: Log, groupId: string, base: int, batch: seq<Message>) {
    && batch != [] && BatchOf(log, groupId, batch) && Ascending(batch)
    && (forall m | m in batch :: m.seqNo > base)
    && (forall k, m | k in log && log[k].groupId == groupId && m in batch && base < log[k].seqNo <= m.seqNo ::
        log[k] in batch)
  }

  ghost predicate UnusedId(s: Sys, c: string) {
    && c !in s.past.enqueued && c !in s.db.outbox
    && forall k | k in s.server.log :: s.server.log[k].clientMessageId != Some(c)
  }

  /** The server assigns a fresh id and a seq above all others of the group. */
  ghost predicate CanAppend(s: Sys, m: Message) {
    && m.id !in s.server.log && m.seqNo >= FreeSeq(s.server.nextSeq, m.groupId)
    && (m.clientMessageId.Some? ==>
          forall k | k in s.server.log :: s.server.log[k].clientMessageId != m.clientMessageId)
  }

  /** A group the account belongs to is never answered with 404. */
  ghost predicate HonestFetch(w: World, groupId: string, fetch: Fetch) {
    groupId in w.members ==> fetch != NotFound
  }

  /** Replies the server can give: a stored reply carries the log's entry, a command reply answers a command. */
  ghost predicate HonestReply(w: World, s: Sys, row: OutboxRow, outcome: SendOutcome) {
    && (outcome.Stored? ==>
          InLog(s.server.log, outcome.message) && outcome.message.clientMessageId == Some(row.clientMessageId))
    && (outcome.Command? ==> row.body in w.commands)
  }

  // ---- effects -------------------------------------------------------------------

  function Append(v: Server, m: Message): Server {
    v.(log := v.log[m.id := m], nextSeq := v.nextSeq[m.groupId := m.seqNo + 1])
  }

  /** Acknowledgement: the cursor moves forward only. */
  function Acked(v: Server, a: Ack): Server {
    v.(cursor := v.cursor[a.groupId := Max(At(v.cursor, a.groupId), a.seqNo)])
  }

  /** A dead connection forgets its un-acked batches and what was still on the wire. */
  function Dropped(s: Sys): Sys {
    s.(server := s.server.(connected := false, inflight := map[]), net := s.net.(wire := []))
  }

  function Applying(s: Sys, r: Applied): Sys {
    s.(db := r.db, past := s.past.(reported := s.past.reported + (set id | id in r.newIds)))
  }

  function AckList(g: string, ack: Option<int>): seq<Ack> {
    if ack.Some? then [Ack(g, ack.value)] else []
  }

  function Without(acks: seq<Ack>, i: nat): (r: seq<Ack>)
    requires i < |acks|
    ensures forall a | a in r :: a in acks
  {
    acks[..i] + acks[i + 1..]
  }

  function WithOutbox(s: Sys, outbox: map<string, OutboxRow>): Sys {
    s.(db := s.db.(outbox := outbox))
  }

  // ---- the dispatcher's steps --------------------------------------------------------

  ghost function DoReply(w: World, s: Sys, outcome: SendOutcome, now: int, delay: int): Sys {
    if !s.phase.Posted? || !HonestReply(w, s, s.phase.row, outcome) then s
    else
      var row := s.phase.row;
      match outcome
      case Stored(m) =>
        Applying(s, Applied(StoreBatch(s.db, row.groupId, [m]), None, BatchPlan(s.db, row.groupId, [m]).newMessageIds))
          .(phase := Storing(row, m))
      case _ => s.(db := Settle(s.db, row, outcome, now, delay), phase := Resting)
  }

  ghost function DoDispatch(w: World, s: Sys, a: Action): Sys {
    match a
    case Pick(c, now) =>
      if s.phase.Resting? && c in s.db.outbox && DueAt(s.db.outbox[c], now)
      then s.(phase := Picked(s.db.outbox[c]))
      else s
    case Mark(now) =>
      if s.phase.Picked? then
        WithOutbox(s, MarkInFlight(s.db.outbox, s.phase.row.clientMessageId, now)).(phase := Marked(s.phase.row))
      else s
    case Send =>
      if s.phase.Marked? then
        var row := s.phase.row;
        s.(past := s.past.(posts := s.past.posts + {Post(row.clientMessageId, row.groupId, row.body)}),
            phase := Posted(row))
      else s
    case Reply(outcome, now, delay) => DoReply(w, s, outcome, now, delay)
    case ConfirmReply =>
      if s.phase.Storing? then
        var m := s.phase.message;
        WithOutbox(s, ConfirmSent(s.db.outbox, s.phase.row.clientMessageId, m.id, m.seqNo)).(phase := Resting)
      else s
    case Abort => s.(phase := Resting)
    case Restart(now) =>
      var t := Dropped(WithOutbox(s, Repair(s.db.outbox, now)));
      t.(phase := Resting, net := t.net.(events := [], outbound := [], pulls := []))
    case _ => s
  }

  // ---- the user's steps --------------------------------------------------------------

  ghost function DoLocal(s: Sys, a: Action): Sys {
    match a
    case Enqueue(c, g, body, now) =>
      if UnusedId(s, c) then
        WithOutbox(s, s.db.outbox[c := NewRow(c, g, body,
            now)]).(past := s.past.(enqueued := s.past.enqueued[c := Post(c, g, body)]))
      else s
    case UserRetry(c, now) => WithOutbox(s, Tables.Retry(s.db.outbox, c, now))
    case BlankMessages(g, upTo) => s.(db := s.db.(messages := Redact(s.db.messages, g, upTo)))
    case BlankConfirmed => WithOutbox(s, RedactConfirmed(s.db.outbox))
    case PurgeOld(before) => WithOutbox(s, PurgeConfirmed(s.db.outbox, before))
    case GroupSeen(g) => s.(db := s.db.(groups := s.db.groups[g := false]))
    case GroupGone(g) => if g in s.db.groups then s.(db := s.db.(groups := s.db.groups[g := true])) else s
    case _ => s
  }

  // ---- the server's steps ------------------------------------------------------------

  ghost function DoServer(w: World, s: Sys, a: Action): Sys {
    match a
    case StorePost(p, id, seqNo, sender, shown, at) =>
      var m := Message(id, p.groupId, seqNo, sender, shown, Some(p.clientMessageId), at);
      if p in s.past.posts && p.body !in w.commands && CanAppend(s, m) then s.(server := Append(s.server, m)) else s
    case OtherMessage(m) =>
      if CanAppend(s, m) && (m.clientMessageId.Some? ==> m.clientMessageId.value !in s.past.enqueued)
      then s.(server := Append(s.server, m)) else s
    case Connect => var t := Dropped(s); t.(server := t.server.(connected := true))
    case Disconnect => Dropped(s)
    case Push(g, batch) =>
      if s.server.connected && g !in s.server.inflight && NextBatch(s.server.log, g, At(s.server.cursor, g), batch) then
        s.(net := s.net.(wire := s.net.wire + [Frame(g, batch)]),
           server := s.server.(inflight := s.server.inflight[g := batch[|batch| - 1].seqNo]))
      else s
    case AckArrives =>
      if s.net.ackWire == [] then s
      else
        var k := s.net.ackWire[0];
        var inflight := s.server.inflight;
        var released :=
          if k.groupId in inflight && inflight[k.groupId] <= k.seqNo then inflight - {k.groupId} else inflight;
        s.(server := Acked(s.server, k).(inflight := released), net := s.net.(ackWire := s.net.ackWire[1..]))
    case AcksLost => s.(net := s.net.(ackWire := []))
    case RestAckArrives(i) =>
      if i < |s.net.restAcks| then
        s.(server := Acked(s.server, s.net.restAcks[i]), net := s.net.(restAcks := Without(s.net.restAcks, i)))
      else s
    case RestAckLost(i) => if i < |s.net.restAcks| then s.(net := s.net.(restAcks := Without(s.net.restAcks, i))) else s
    case _ => s
  }

  // ---- the client's receiving steps ----------------------------------------------------

  ghost function DoHandleEvent(w: World, s: Sys, fetch: Fetch): Sys {
    if s.net.events == [] || !HonestFetch(w, s.net.events[0].groupId, fetch) then s
    else
      var f := s.net.events[0];
      var r := ApplyIncoming(s.db, f.groupId, f.batch, fetch);
      Applying(s, r).(net := s.net.(events := s.net.events[1..],
          outbound := s.net.outbound + AckList(f.groupId, r.ack)))
  }

  ghost function DoHandlePull(w: World, s: Sys, fetch: Fetch): Sys {
    if s.net.pulls == [] || !HonestFetch(w, s.net.pulls[0].groupId, fetch) then s
    else
      var f := s.net.pulls[0];
      var r := ApplyIncoming(s.db, f.groupId, f.batch, fetch);
      Applying(s, r).(net := s.net.(pulls := s.net.pulls[1..], restAcks := s.net.restAcks + AckList(f.groupId, r.ack)))
  }

  ghost function DoHistory(s: Sys, g: string, batch: seq<Message>, fetch: Fetch): Sys {
    if BatchOf(s.server.log, g, batch) then Applying(s, ApplyIncoming(s.db, g, batch, fetch)) else s
  }

  ghost function DoOlderPage(s: Sys, g: string, batch: seq<Message>): Sys {
    if BatchOf(s.server.log, g, batch) then s.(db := s.db.(messages := InsertAll(s.db.messages, batch))) else s
  }

  ghost function DoReceive(s: Sys, a: Action): Sys {
    var n := s.net;
    match a
    case Receive => if n.wire == [] then s else s.(net := n.(events := n.events + [n.wire[0]], wire := n.wire[1..]))
    case Lag(k) => if k <= |n.events| then var t := Dropped(s); t.(net := t.net.(events := n.events[k..])) else s
    case HandleFails => if n.events == [] then s else s.(net := n.(events := n.events[1..]))
    case SendAck =>
      if !s.server.connected || n.outbound == [] then s
      else s.(net := n.(ackWire := n.ackWire + [n.outbound[0]], outbound := n.outbound[1..]))
    case OutboundLost => if n.outbound == [] then s else s.(net := n.(outbound := n.outbound[1..]))
    case Pull(g, batch) =>
      if NextBatch(s.server.log, g, At(s.server.cursor, g), batch)
          then s.(net := n.(pulls := n.pulls + [Frame(g, batch)]))
      else s
    case PullFails => if n.pulls == [] then s else s.(net := n.(pulls := n.pulls[1..]))
    case _ => s
  }

  predicate IsLocal(a: Action) {
    a.Enqueue? || a.UserRetry? || a.BlankMessages? || a.BlankConfirmed? || a.PurgeOld? || a.GroupSeen? || a.GroupGone?
  }

  predicate IsDispatch(a: Action) {
    a.Pick? || a.Mark? || a.Send? || a.Reply? || a.ConfirmReply? || a.Abort? || a.Restart?
  }

  predicate IsServer(a: Action) {
    || a.StorePost? || a.OtherMessage? || a.Connect? || a.Disconnect? || a.Push?
    || a.AckArrives? || a.AcksLost? || a.RestAckArrives? || a.RestAckLost?
  }

  ghost function Next(w: World, s: Sys, a: Action): Sys {
    if IsLocal(a) then DoLocal(s, a)
    else if IsDispatch(a) then DoDispatch(w, s, a)
    else if IsServer(a) then DoServer(w, s, a)
    else
      match a
      case HandleEvent(fetch) => DoHandleEvent(w, s, fetch)
      case HandlePull(fetch) => DoHandlePull(w, s, fetch)
      case History(g, batch, fetch) => DoHistory(s, g, batch, fetch)
      case OlderPage(g, batch) => DoOlderPage(s, g, batch)
      case _ => DoReceive(s, a)
  }

  /** The state after a run from the empty system. */
  ghost function Run(w: World, actions: seq<Action>): Sys {
    if |actions| == 0 then Init() else Next(w, Run(w, actions[..|actions| - 1]), actions[|actions| - 1])
  }
}
