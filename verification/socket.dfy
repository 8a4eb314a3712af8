/** The reconnecting socket: its lifecycle, and how fast it may come back. */
module Sockets {
  import opened Entities
  import opened Backoff

  const WS_PROTOCOL_VERSION := 1
  const CLOSE_SESSION_REVOKED := 4001
  const CLOSE_TOO_MANY_CONNECTIONS := 4029
  const TOO_MANY_CONNECTIONS_WAIT := 60000

  datatype SyncState = Idle | Connecting | Connected | BackingOff | UpdateRequired

  /** Frames that matter to the lifecycle; `updateCode` says whether an error code demands an update. */
  datatype ServerFrame =
    | Hello(protocolVersion: nat)
    | Messages
    | ErrorFrame(updateCode: bool, pushFailed: bool)
    | OtherFrame

  datatype Reason = Closed(code: Option<int>) | Error | UpdateDemanded

  /** Three ways to go on: come back after the usual delay, come back later still, or give up. */
  datatype AfterEnd = Backoff | WaitAtLeast(ms: int) | Halt

  /** Answer to a handshake. */
  datatype Handshake = Accepted | HttpRefused(status: int, retryAfterMs: Option<int>) | ConnectFailed

  function AfterOf(reason: Reason): AfterEnd {
    match reason
    case UpdateDemanded => Halt
    case Closed(Some(code)) =>
      if code == CLOSE_SESSION_REVOKED then Halt
      else if code == CLOSE_TOO_MANY_CONNECTIONS then WaitAtLeast(TOO_MANY_CONNECTIONS_WAIT)
      else Backoff
    case _ => Backoff
  }

  /** Where the connection loop stands. `Ended` keeps its task handle until someone calls `stop`. */
  datatype Loop = NoLoop | Top | Shaking | Open(gotHello: bool) | Waiting(until: int) | Ended

  /**
   * The socket, with a clock (ms), the number of connection attempts ever made, and the current stretch
   * since the loop started or the last `hello` or `messages`: when it began, its attempts and its waits.
   */
  datatype Sock = Sock(
    state: SyncState,
    loop: Loop,
    attempt: nat,
    clock: int,
    tries: nat,
    stretchStart: int,
    stretchTries: nat,
    waits: nat
  )

  const INIT := Sock(Idle, NoLoop, 0, 0, 0, 0, 0, 0)

  predicate Running(s: Sock) {
    !s.loop.NoLoop?
  }

  function SetIdle(s: Sock): Sock {
    if s.state == UpdateRequired then s else s.(state := Idle)
  }

  function Start(s: Sock): Sock {
    if Running(s) || s.state == UpdateRequired then s
    else s.(loop := Top, attempt := 0, stretchStart := s.clock, stretchTries := 0, waits := 0)
  }

  function Stop(s: Sock): Sock {
    SetIdle(s.(loop := NoLoop))
  }

  function Reconnect(s: Sock): Sock {
    if Running(s) then Start(Stop(s)) else s
  }

  /** The loop's task is over; its wrapper resets the state. */
  function End(s: Sock): Sock {
    SetIdle(s.(loop := Ended))
  }

  /** `hello`, or the first payload of a server that skips it. */
  function Greeted(s: Sock): Sock {
    s.(state := Connected, loop := Open(true), attempt := 0, stretchStart := s.clock, stretchTries := 0, waits := 0)
  }

  /** A payload on a greeted connection: the stretch is over, though `attempt` is zero already. */
  function Payload(s: Sock): Sock {
    s.(stretchStart := s.clock, stretchTries := 0, waits := 0)
  }

  /** `backoff_wait`: the jittered delay, or longer if a minimum was asked for. */
  function BackOff(s: Sock, draw: int, minWait: Option<int>): Sock {
    var delay := if minWait.Some? then Max(draw, minWait.value) else draw;
    s.(state := BackingOff, loop := Waiting(s.clock + delay),
       attempt := Min(s.attempt + 1, U32_MAX), waits := s.waits + 1)
  }

  function ConnectionEnds(s: Sock, reason: Reason, draw: int): Sock {
    match AfterOf(reason)
    case Halt => End(if reason.UpdateDemanded? then s.(state := UpdateRequired) else s)
    case WaitAtLeast(ms) => BackOff(s, draw, Some(ms))
    case Backoff => BackOff(s, draw, None)
  }

  /** `handle_frame`: the reason to tear the connection down, if any, and the new state. */
  function HandleFrame(s: Sock, f: ServerFrame): (r: (Option<Reason>, Sock))
    requires s.loop.Open?
  {
    match f
    case Hello(v) => if v > WS_PROTOCOL_VERSION then (Some(UpdateDemanded), s) else (None, Greeted(s))
    case Messages => (None, if s.loop.gotHello then Payload(s) else Greeted(s))
    case ErrorFrame(update, pushFailed) =>
      (if update then Some(UpdateDemanded) else if pushFailed then Some(Error) else None, s)
    case OtherFrame => (None, s)
  }

  datatype Event =
    | CallStart
    | CallStop
    | CallReconnect
    | Tick(ms: nat)
    | NoToken
    | Attempt
    | Answer(h: Handshake, draw: int)
    | Receive(f: ServerFrame, draw: int)
    | Drop(reason: Reason, draw: int)
    | WaitOver

  function Next(s: Sock, e: Event): Sock {
    match e
    case CallStart => Start(s)
    case CallStop => Stop(s)
    case CallReconnect => Reconnect(s)
    case Tick(ms) => s.(clock := s.clock + ms)
    case NoToken => if s.loop.Top? then End(s.(state := Connecting)) else s
    case Attempt =>
      if s.loop.Top? then s.(state := Connecting, loop := Shaking, tries := s.tries + 1,
          stretchTries := s.stretchTries + 1)
      else s
    case Answer(h, draw) =>
      if !s.loop.Shaking? || !Jittered(s.attempt, draw) then s
      else
        (match h
         case Accepted => s.(loop := Open(false))
         case HttpRefused(status, retryAfter) =>
           if status == 401 || status == 403 then End(s)
           else BackOff(s, draw, if status == 429 then retryAfter else None)
         case ConnectFailed => BackOff(s, draw, None))
    case Receive(f, draw) =>
      if !s.loop.Open? || !Jittered(s.attempt, draw) then s
      else
        var (reason, t) := HandleFrame(s, f);
        if reason.Some? then ConnectionEnds(t, reason.value, draw) else t
    case Drop(reason, draw) =>
      if !s.loop.Open? || reason.UpdateDemanded? || !Jittered(s.attempt, draw) then s
      else ConnectionEnds(s, reason, draw)
    case WaitOver => if s.loop.Waiting? && s.clock >= s.loop.until then s.(loop := Top) else s
  }

  function Run(s: Sock, events: seq<Event>): Sock {
    if |events| == 0 then s else Next(Run(s, events[..|events| - 1]), events[|events| - 1])
  }

  // ---- lifecycle ----------------------------------------------------------------------

  /** Once an update is demanded the loop is over. */
  predicate StickyInv(s: Sock) {
    s.state == UpdateRequired ==> s.loop.Ended? || s.loop.NoLoop?
  }

  lemma {:induction false} RunKeepsSticky(s: Sock, events: seq<Event>)
    requires StickyInv(s)
    ensures StickyInv(Run(s, events))
  {
    if |events| == 0 {
    } else {
      RunKeepsSticky(s, events[..|events| - 1]);
    }
  }

  /** After any run that ends in UpdateRequired, nothing ever leaves it or attempts a connection again. */
  lemma {:induction false} UpdateRequiredIsFinal(past: seq<Event>, future: seq<Event>)
    requires Run(INIT, past).state == UpdateRequired
    ensures Run(Run(INIT, past), future).state == UpdateRequired
    ensures Run(Run(INIT, past), future).tries == Run(INIT, past).tries
  {
    RunKeepsSticky(INIT, past);
    if |future| == 0 {
    } else {
      UpdateRequiredIsFinal(past, future[..|future| - 1]);
      RunKeepsSticky(Run(INIT, past), future[..|future| - 1]);
    }
  }

  /** An event at which the server kills the session: 401/403 at the handshake, or close code 4001. */
  predicate Revokes(s: Sock, e: Event) {
    || (e.Answer? && s.loop.Shaking? && Jittered(s.attempt, e.draw) && e.h.HttpRefused?
        && (e.h.status == 401 || e.h.status == 403))
    || (e.Drop? && s.loop.Open? && Jittered(s.attempt, e.draw) && e.reason == Closed(Some(CLOSE_SESSION_REVOKED)))
  }

  predicate Stopped(events: seq<Event>) {
    exists e :: e in events && e.CallStop?
  }

  /** While the loop's handle is there, `reconnect` revives it; once `stop` has dropped it, `start` does. */
  predicate RevivesAt(events: seq<Event>, i: nat)
    requires i < |events|
  {
    if Stopped(events[..i]) then events[i].CallStart? else events[i].CallReconnect?
  }

  ghost predicate Revives(events: seq<Event>) {
    exists i: nat :: i < |events| && RevivesAt(events, i)
  }

  predicate Down(s: Sock) {
    s.loop == Ended || s.loop == NoLoop
  }

  /** No connection is attempted at any time of the future: the loop is down after each of its prefixes. */
  ghost predicate DownThroughout(s: Sock, future: seq<Event>) {
    forall i | 0 <= i <= |future| :: Down(Run(s, future[..i]))
  }

  lemma StepWhileDown(s: Sock, e: Event)
    requires Down(s) && s.state != UpdateRequired
    ensures var t := Next(s, e);
            var revives := if s.loop == NoLoop then e.CallStart? else e.CallReconnect?;
            && t.tries == s.tries && t.state != UpdateRequired
            && t.loop == if revives then Top else if e.CallStop? then NoLoop else s.loop
  {
    hide Jittered;
  }

  lemma RevokedIsDown(s: Sock, e: Event)
    requires StickyInv(s) && Revokes(s, e)
    ensures Next(s, e).loop == Ended && Next(s, e).state != UpdateRequired && Next(s, e).tries == s.tries
  {
    hide Jittered;
  }

  lemma StoppedPush(events: seq<Event>, e: Event)
    ensures Stopped(events + [e]) <==> Stopped(events) || e.CallStop?
  {
    assert forall x :: x in events + [e] <==> x in events || x == e;
  }

  lemma RevivesPush(events: seq<Event>, n: nat)
    requires n <= |events| && Revives(events[..n])
    ensures Revives(events)
  {
    var i: nat :| i < n && RevivesAt(events[..n], i);
    assert events[..n][..i] == events[..i];
    assert RevivesAt(events, i);
  }

  /**
   * After a revocation, as long as nothing revives the loop: no connection has been attempted, and the
   * handle is gone exactly if someone called `stop`.
   */
  lemma {:induction false} RevokedStaysDown(s: Sock, e: Event, future: seq<Event>)
    requires StickyInv(s) && Revokes(s, e) && !Revives(future)
    ensures var t := Run(Next(s, e), future);
            && t.tries == s.tries && t.state != UpdateRequired
            && t.loop == if Stopped(future) then NoLoop else Ended
  {
    hide Revokes, StickyInv;
    RevokedIsDown(s, e);
    if future == [] {
      RunNothing(Next(s, e));
    } else {
      var n := |future| - 1;
      var init, last := future[..n], future[n];
      assert future == init + [last];
      if Revives(init) {
        RevivesPush(future, n);
      }
      RevokedStaysDown(s, e, init);
      assert !RevivesAt(future, n);
      RunPush(Next(s, e), init, last);
      StoppedPush(init, last);
      StepWhileDown(Run(Next(s, e), init), last);
    }
  }

  /** A future that revives the loop brings it back to the point where it dials. */
  lemma {:induction false} RevivedComesBack(s: Sock, e: Event, future: seq<Event>) returns (n: nat)
    requires StickyInv(s) && Revokes(s, e) && Revives(future)
    ensures n <= |future| && Run(Next(s, e), future[..n]).loop == Top
    ensures Run(Next(s, e), future[..n] + [Attempt]).tries == s.tries + 1
    decreases |future|
  {
    hide Revokes, StickyInv;
    var i: nat :| i < |future| && RevivesAt(future, i);
    var before := future[..i];
    if Revives(before) {
      n := RevivedComesBack(s, e, before);
      assert before[..n] == future[..n];
    } else {
      n := i + 1;
      RevokedStaysDown(s, e, before);
      assert future[..n] == before + [future[i]];
      RunPush(Next(s, e), before, future[i]);
      StepWhileDown(Run(Next(s, e), before), future[i]);
      RunPush(Next(s, e), future[..n], Attempt);
      hide Run;
    }
  }

  /**
   * "No reconnect" after a revocation, exactly: in every run and for every future, the loop stays down
   * throughout if and only if nobody calls `reconnect` before a `stop`, or `start` after one.
   */
  lemma RevokedIffNotRevived(past: seq<Event>, e: Event, future: seq<Event>)
    requires Revokes(Run(INIT, past), e)
    ensures DownThroughout(Next(Run(INIT, past), e), future) <==> !Revives(future)
  {
    var s := Run(INIT, past);
    RunKeepsSticky(INIT, past);
    hide Run, Revokes, StickyInv;
    if Revives(future) {
      var n := RevivedComesBack(s, e, future);
      assert !Down(Run(Next(s, e), future[..n]));
    } else {
      forall i | 0 <= i <= |future| ensures Down(Run(Next(s, e), future[..i])) {
        if Revives(future[..i]) {
          RevivesPush(future, i);
        }
        RevokedStaysDown(s, e, future[..i]);
      }
    }
  }

  /** The promise fails on a concrete run: 401 at the first handshake, `reconnect`, and a second attempt. */
  lemma ReconnectAfter401()
    ensures var refused := [CallStart, Attempt, Answer(HttpRefused(401, None), 1000)];
            && Run(INIT, refused).tries == 1 && Run(INIT, refused).loop == Ended
            && Run(INIT, refused + [CallReconnect, Attempt]).tries == 2
  {
    var refused := [CallStart] + [Attempt] + [Answer(HttpRefused(401, None), 1000)];
    assert refused == [CallStart, Attempt, Answer(HttpRefused(401, None), 1000)];
    assert refused + [CallReconnect] + [Attempt] == refused + [CallReconnect, Attempt];
    RunPush(INIT, [], CallStart);
    assert [] + [CallStart] == [CallStart];
    RunPush(INIT, [CallStart], Attempt);
    RunPush(INIT, [CallStart] + [Attempt], Answer(HttpRefused(401, None), 1000));
    RunPush(INIT, refused, CallReconnect);
    RunPush(INIT, refused + [CallReconnect], Attempt);
    RunNothing(INIT);
    FirstDelay();
    hide Run, Jittered;
  }

  lemma FirstDelay()
    ensures Jittered(0, 1000)
  {
    assert Pow2(0) == 1;
  }

  /**
   * Exactly what revives an ended loop in one call: `reconnect` unless an update was demanded. `start`
   * alone never does, because the ended loop's handle is still there; `stop` then `start` does.
   */
  lemma WhatRevives(s: Sock, e: Event)
    requires s.loop == Ended
    ensures Next(s, e).loop == Top <==> e.CallReconnect? && s.state != UpdateRequired
    ensures Next(Next(s, CallStop), CallStart).loop == Top <==> s.state != UpdateRequired
    ensures Next(s, CallStart) == s
  {
  }

// ---- which event leads where ----------------------------------------------------------

  /** Back to sleep: the drawn delay, or the minimum asked for if that is longer, and one more on the counter. */
  ghost predicate FallsAsleep(s: Sock, t: Sock, draw: int, atLeast: int) {
    && t.state == BackingOff && t.loop == Waiting(s.clock + Max(draw, atLeast))
    && t.attempt == Min(s.attempt + 1, 0xFFFF_FFFF) && t.waits == s.waits + 1 && t.clock == s.clock
    && t.tries == s.tries && t.stretchTries == s.stretchTries && t.stretchStart == s.stretchStart
  }

  /** Connected, and a new stretch begins. */
  ghost predicate FreshlyConnected(s: Sock, t: Sock) {
    && t.state == Connected && t.loop == Open(true) && t.attempt == 0 && t.clock == s.clock && t.tries == s.tries
    && t.stretchStart == s.clock && t.stretchTries == 0 && t.waits == 0
  }

  /** The loop is over; nothing but its state has changed. */
  ghost predicate GaveUp(s: Sock, t: Sock) {
    t == s.(state := t.state, loop := Ended)
  }

  /**
   * Where each frame leads on an open connection: a `hello` of version 1 or lower greets; a higher version
   * or an update code ends the loop for good; `push_failed` backs off; other error frames and other frames
   * change nothing; a payload greets where no `hello` came, and otherwise only begins a new stretch.
   */
  lemma WhereFramesLead(s: Sock, f: ServerFrame, draw: int)
    requires s.loop.Open? && Jittered(s.attempt, draw)
    ensures var t := Next(s, Receive(f, draw));
            match f
            case Hello(v) =>
              && (v <= 1 ==> FreshlyConnected(s, t))
              && (v > 1 ==> GaveUp(s, t) && t.state == UpdateRequired)
            case Messages =>
              && (!s.loop.gotHello ==> FreshlyConnected(s, t))
              && (s.loop.gotHello ==> t == s.(stretchStart := s.clock, stretchTries := 0, waits := 0))
            case ErrorFrame(update, pushFailed) =>
              && (update ==> GaveUp(s, t) && t.state == UpdateRequired)
              && (!update && pushFailed ==> FallsAsleep(s, t, draw, 0))
              && (!update && !pushFailed ==> t == s)
            case OtherFrame => t == s
  {
    JitterBounds(s.attempt, draw);
    hide Jittered, BackoffBase;
  }

  /** Where each answer to the handshake leads: 401 and 403 end the loop, any other refusal waits. */
  lemma WhereAnswersLead(s: Sock, h: Handshake, draw: int)
    requires s.loop.Shaking? && Jittered(s.attempt, draw)
    ensures var t := Next(s, Answer(h, draw));
            match h
            case Accepted => t == s.(loop := Open(false))
            case HttpRefused(status, retryAfter) =>
              && (status == 401 || status == 403 ==> GaveUp(s, t) && (s.state != UpdateRequired ==> t.state == Idle))
              && (status == 429 && retryAfter.Some? ==> FallsAsleep(s, t, draw, retryAfter.value))
              && (status != 401 && status != 403 && (status != 429 || retryAfter.None?) ==> FallsAsleep(s, t, draw, 0))
            case ConnectFailed => FallsAsleep(s, t, draw, 0)
  {
    JitterBounds(s.attempt, draw);
    hide Jittered, BackoffBase;
  }

  /** Where the end of a connection leads: code 4001 ends the loop, 4029 waits a minute, anything else waits. */
  lemma WhereDropsLead(s: Sock, reason: Reason, draw: int)
    requires s.loop.Open? && !reason.UpdateDemanded? && Jittered(s.attempt, draw)
    ensures var t := Next(s, Drop(reason, draw));
            && (reason == Closed(Some(4001)) ==> GaveUp(s, t) && (s.state != UpdateRequired ==> t.state == Idle))
            && (reason == Closed(Some(4029)) ==> FallsAsleep(s, t, draw, 60000))
            && (reason != Closed(Some(4001)) && reason != Closed(Some(4029)) ==> FallsAsleep(s, t, draw, 0))
  {
    JitterBounds(s.attempt, draw);
    hide Jittered, BackoffBase;
  }

  /** Where the caller and the loop itself lead: `start` begins a stretch, `stop` drops the loop. */
  lemma WhereCallsLead(s: Sock)
    ensures s.loop == NoLoop && s.state != UpdateRequired ==>
              Next(s, CallStart)
              == s.(loop := Top, attempt := 0, stretchStart := s.clock, stretchTries := 0, waits := 0)
    ensures s.loop != NoLoop || s.state == UpdateRequired ==> Next(s, CallStart) == s
    ensures Next(s, CallStop) == s.(loop := NoLoop, state := if s.state == UpdateRequired then UpdateRequired else Idle)
    ensures s.loop == NoLoop ==> Next(s, CallReconnect) == s
    ensures s.loop != NoLoop ==> Next(s, CallReconnect) == Next(Next(s, CallStop), CallStart)
    ensures s.loop == Top ==> Next(s, NoToken) == s.(state := Idle, loop := Ended)
    ensures s.loop == Top ==>
              Next(s, Attempt) == s.(state := Connecting, loop := Shaking, tries := s.tries + 1,
                                     stretchTries := s.stretchTries + 1)
    ensures s.loop.Waiting? ==>
              Next(s, WaitOver) == if s.clock >= s.loop.until then s.(loop := Top) else s
  {
  }

  /** On an open connection, a `hello` of a version above 1 or an error frame with an update code. */
  predicate DemandsUpdate(s: Sock, e: Event) {
    && e.Receive? && s.loop.Open? && Jittered(s.attempt, e.draw)
    && ((e.f.Hello? && e.f.protocolVersion > 1) || (e.f.ErrorFrame? && e.f.updateCode))
  }

  ghost predicate UpdateDemandedIn(s: Sock, events: seq<Event>) {
    exists i: nat :: i < |events| && DemandsUpdate(Run(s, events[..i]), events[i])
  }

  lemma StepDemands(s: Sock, e: Event)
    requires s.state != UpdateRequired
    ensures Next(s, e).state == UpdateRequired <==> DemandsUpdate(s, e)
  {
    hide Jittered;
  }

  /** A run enters UpdateRequired exactly if at some event of it the server demands the update. */
  lemma {:induction false} UpdateRequiredIffDemanded(s: Sock, events: seq<Event>)
    requires StickyInv(s) && s.state != UpdateRequired
    ensures Run(s, events).state == UpdateRequired <==> UpdateDemandedIn(s, events)
  {
    if events == [] {
      RunNothing(s);
    } else {
      var n := |events| - 1;
      var init, last := events[..n], events[n];
      assert events == init + [last];
      UpdateRequiredIffDemanded(s, init);
      RunKeepsSticky(s, init);
      RunPush(s, init, last);
      assert forall i: nat | i < n :: events[..i] == init[..i] && events[i] == init[i];
      if Run(s, init).state == UpdateRequired {
        UpdateSticks(Run(s, init), last);
        hide DemandsUpdate, Run, Next, StickyInv;
        var i: nat :| i < |init| && DemandsUpdate(Run(s, init[..i]), init[i]);
        assert DemandsUpdate(Run(s, events[..i]), events[i]);
      } else {
        StepDemands(Run(s, init), last);
        hide DemandsUpdate, Run, Next, StickyInv;
        DemandPush(s, init, last);
      }
    }
  }

  lemma UpdateSticks(s: Sock, e: Event)
    requires StickyInv(s) && s.state == UpdateRequired
    ensures Next(s, e).state == UpdateRequired
  {
    hide Jittered;
  }

  lemma DemandPush(s: Sock, init: seq<Event>, last: Event)
    ensures UpdateDemandedIn(s, init + [last]) <==> UpdateDemandedIn(s, init) || DemandsUpdate(Run(s, init), last)
  {
    hide DemandsUpdate, Run;
    var events, n := init + [last], |init|;
    assert forall i: nat | i < n :: events[..i] == init[..i] && events[i] == init[i];
    assert events[..n] == init && events[n] == last;
    if UpdateDemandedIn(s, init) {
      var i: nat :| i < |init| && DemandsUpdate(Run(s, init[..i]), init[i]);
      assert DemandsUpdate(Run(s, events[..i]), events[i]);
    }
    if UpdateDemandedIn(s, events) {
      var i: nat :| i < |events| && DemandsUpdate(Run(s, events[..i]), events[i]);
      assert i < n ==> DemandsUpdate(Run(s, init[..i]), init[i]);
    }
    if DemandsUpdate(Run(s, init), last) {
      assert DemandsUpdate(Run(s, events[..n]), events[n]);
    }
  }

  /** What takes a running loop down: `stop`, a missing token, a revoked session, a demanded update. */
  predicate TakesDown(s: Sock, e: Event) {
    e.CallStop? || (e.NoToken? && s.loop.Top?) || Revokes(s, e) || DemandsUpdate(s, e)
  }

  ghost predicate TakenDownIn(s: Sock, events: seq<Event>) {
    exists i: nat :: i < |events| && TakesDown(Run(s, events[..i]), events[i])
  }

  lemma StepTakesDown(s: Sock, e: Event)
    requires !Down(s)
    ensures Down(Next(s, e)) <==> TakesDown(s, e) || (e.CallReconnect? && s.state == UpdateRequired)
  {
    hide Jittered;
  }

  lemma DownStays(s: Sock, e: Event)
    requires Down(s) && !e.CallStart? && !e.CallReconnect?
    ensures Down(Next(s, e))
  {
    hide Jittered;
  }

  /**
   * A running loop, left to itself and `stop`, is down after a run exactly if something in the run took it
   * down: no number of refusals, failed connects, dropped connections or error frames does.
   */
  lemma {:induction false} DownIffTakenDown(s: Sock, events: seq<Event>)
    requires !Down(s) && LoopEvents(events)
    ensures Down(Run(s, events)) <==> TakenDownIn(s, events)
  {
    if events == [] {
      RunNothing(s);
    } else {
      var n := |events| - 1;
      var init, last := events[..n], events[n];
      assert events == init + [last] && last in events;
      assert forall x | x in init :: x in events;
      DownIffTakenDown(s, init);
      RunPush(s, init, last);
      if Down(Run(s, init)) {
        DownStays(Run(s, init), last);
      } else {
        StepTakesDown(Run(s, init), last);
      }
      hide TakesDown, Run, Next, Down;
      TakenPush(s, init, last);
    }
  }

  lemma TakenPush(s: Sock, init: seq<Event>, last: Event)
    ensures TakenDownIn(s, init + [last]) <==> TakenDownIn(s, init) || TakesDown(Run(s, init), last)
  {
    hide TakesDown, Run;
    var events, n := init + [last], |init|;
    assert forall i: nat | i < n :: events[..i] == init[..i] && events[i] == init[i];
    assert events[..n] == init && events[n] == last;
    if TakenDownIn(s, init) {
      var i: nat :| i < |init| && TakesDown(Run(s, init[..i]), init[i]);
      assert TakesDown(Run(s, events[..i]), events[i]);
    }
    if TakenDownIn(s, events) {
      var i: nat :| i < |events| && TakesDown(Run(s, events[..i]), events[i]);
      assert i < n ==> TakesDown(Run(s, init[..i]), init[i]);
    }
    if TakesDown(Run(s, init), last) {
      assert TakesDown(Run(s, events[..n]), events[n]);
    }
  }

    // ---- rate ---------------------------------------------------------------------------

  /** Half the delay after `n` waits: the least that jitter leaves of it. */
  function HalfDelay(n: nat): (r: int)
    ensures r >= 0
  {
    Min(300000, 2000 * Pow2(n)) / 2
  }

  /** Sum of the half delays of the first `n` attempts of a stretch. */
  function HalfSum(n: nat): (r: int)
    ensures r >= 0
  {
    if n == 0 then 0 else HalfSum(n - 1) + HalfDelay(n - 1)
  }

  lemma {:induction false} HalfSumMonotone(m: nat, n: nat)
    requires m <= n
    ensures HalfSum(m) <= HalfSum(n)
  {
    hide HalfDelay;
    if m < n {
      HalfSumMonotone(m, n - 1);
    }
  }

  /** The attempt counter counts the stretch's waits, and the clock has seen them all. */
  predicate RateInv(s: Sock) {
    && (s.loop.NoLoop? || s.loop.Ended? || s.attempt == Min(s.waits, U32_MAX))
    && (s.loop == Open(true) ==> s.waits == 0 && s.stretchTries == 0)
    && (s.loop.Top? || s.loop.Waiting? ==> s.stretchTries <= s.waits)
    && (s.loop.Shaking? || s.loop == Open(false) ==> s.stretchTries <= s.waits + 1)
    && (s.loop.Top? || s.loop.Shaking? || s.loop.Open? ==> s.clock >= s.stretchStart + HalfSum(s.waits))
    && (s.loop.Waiting? ==> s.loop.until >= s.stretchStart + HalfSum(s.waits))
  }

  /** A saturated counter still yields the delay of the true count. */
  lemma SaturatedDelay(waits: nat)
    ensures BackoffBase(Min(waits, U32_MAX)) / 2 == HalfDelay(waits)
  {
    BackoffIsCappedDoubling(Min(waits, U32_MAX));
    if waits > U32_MAX {
      Pow2Monotone(8, U32_MAX);
      Pow2Monotone(8, waits);
    }
  }

  lemma BackOffKeepsRate(s: Sock, draw: int, minWait: Option<int>)
    requires RateInv(s) && (s.loop.Shaking? || s.loop.Open?) && Jittered(s.attempt, draw)
    ensures RateInv(BackOff(s, draw, minWait))
  {
    SaturatedDelay(s.waits);
    JitterBounds(s.attempt, draw);
    hide Pow2, BackoffBase, Jittered, HalfDelay;
  }

  lemma StepKeepsRate(s: Sock, e: Event)
    requires RateInv(s)
    ensures RateInv(Next(s, e))
  {
    hide BackOff, Jittered, HalfSum, Pow2;
    NothingYet();
    match e
    case Answer(h, draw) =>
      if s.loop.Shaking? && Jittered(s.attempt, draw) && !h.Accepted? {
        BackOffKeepsRate(s, draw, if h.HttpRefused? && h.status == 429 then h.retryAfterMs else None);
      }
    case Receive(f, draw) =>
      if s.loop.Open? && Jittered(s.attempt, draw) && f.ErrorFrame? {
        BackOffKeepsRate(s, draw, None);
      }
    case Drop(reason, draw) =>
      if s.loop.Open? && Jittered(s.attempt, draw) {
        BackOffKeepsRate(s, draw, None);
        BackOffKeepsRate(s, draw, Some(TOO_MANY_CONNECTIONS_WAIT));
      }
    case _ =>
  }

  lemma NothingYet()
    ensures HalfSum(0) == 0
  {
  }

  lemma {:induction false} RunKeepsRate(s: Sock, events: seq<Event>)
    requires RateInv(s)
    ensures RateInv(Run(s, events))
  {
    if |events| == 0 {
    } else {
      RunKeepsRate(s, events[..|events| - 1]);
      StepKeepsRate(Run(s, events[..|events| - 1]), events[|events| - 1]);
    }
  }

  lemma InitKeepsRate()
    ensures RateInv(INIT)
  {
    NothingYet();
  }

  /**
   * Reconnect rate: in any run, when the stretch since the loop was started or last heard `hello` or
   * `messages` makes its (n+1)-th attempt, at least the sum over i < n of min(300 s, 2 s * 2^i) / 2 has
   * passed since it began, for every n, however large.
   */
  lemma ReconnectRate(events: seq<Event>, n: nat)
    requires var s := Run(INIT, events); s.loop.Top? && s.stretchTries == n
    ensures var s := Run(INIT, events);
            s.clock - s.stretchStart >= HalfSum(n) && Next(s, Attempt).stretchTries == n + 1
  {
    InitKeepsRate();
    RunKeepsRate(INIT, events);
    HalfSumMonotone(n, Run(INIT, events).waits);
  }

  /** Every wait: at least half the base, at least what was asked, at most five minutes unless more was asked. */
  lemma WaitBounds(s: Sock, draw: int, minWait: Option<int>)
    requires Jittered(s.attempt, draw)
    ensures var t := BackOff(s, draw, minWait);
            var wait := t.loop.until - s.clock;
            && wait >= BackoffBase(s.attempt) / 2
            && (minWait.Some? ==> wait >= minWait.value)
            && wait <= Max(300000, if minWait.Some? then minWait.value else 0)
  {
    JitterBounds(s.attempt, draw);
  }

  /** Close code 4029 waits a minute at least; a 429 handshake waits its Retry-After at least. */
  lemma ServerAskedToWait(s: Sock, draw: int, retryAfterMs: int)
    requires Jittered(s.attempt, draw)
    ensures s.loop.Open? ==>
              var t := Next(s, Drop(Closed(Some(CLOSE_TOO_MANY_CONNECTIONS)), draw));
              t.loop.Waiting? && t.loop.until >= s.clock + 60000 && t.loop.until <= s.clock + BACKOFF_CAP
    ensures s.loop.Shaking? ==>
              var t := Next(s, Answer(HttpRefused(429, Some(retryAfterMs)), draw));
              t.loop.Waiting? && t.loop.until >= s.clock + retryAfterMs
              && t.loop.until <= s.clock + Max(BACKOFF_CAP, retryAfterMs)
  {
    JitterBounds(s.attempt, draw);
  }

  // ---- the socket object ----------------------------------------------------------------

  lemma RunConcat(s: Sock, a: seq<Event>, b: seq<Event>)
    ensures Run(s, a + b) == Run(Run(s, a), b)
    decreases |b|
  {
    if b == [] {
      assert a + b == a;
    } else {
      assert (a + b)[..|a + b| - 1] == a + b[..|b| - 1];
      RunConcat(s, a, b[..|b| - 1]);
    }
  }

  lemma RunPush(s: Sock, a: seq<Event>, e: Event)
    ensures Run(s, a + [e]) == Next(Run(s, a), e)
  {
    assert (a + [e])[..|a|] == a;
  }

  /** A jittered delay picked by `r`. */
  function Draw(attempt: nat, r: nat): (d: int)
    ensures Jittered(attempt, d)
  {
    var base := BackoffBase(attempt);
    base / 2 + r % (Max(base, base / 2 + 1) - base / 2 + 1)
  }

  /**
   * What the network does to the `n`-th connection of a loop, `ends` being how it ends if no frame ends it,
   * and at which points `stop` is called: at the top of the turn, while it dials, before each frame and at
   * the end of the frames, or while it sleeps.
   */
  datatype Wire = Wire(
    token: nat -> bool,
    dialMs: nat -> nat,
    answer: nat -> Handshake,
    frames: nat -> seq<ServerFrame>,
    gapMs: (nat, nat) -> nat,
    ends: nat -> Reason,
    random: nat -> nat,
    stop: (nat, nat) -> bool
  )

  const AT_TOP := 0
  const WHILE_DIALING := 1
  const WHILE_SLEEPING := 2
  const WHILE_SERVING := 3

  /** What the loop itself does, and `stop`. */
  predicate LoopEvents(events: seq<Event>) {
    forall e | e in events :: !e.CallStart? && !e.CallReconnect?
  }

  /** A running loop loses its handle to `stop` and to nothing else. */
  lemma {:induction false} OnlyStopDropsTheHandle(s: Sock, events: seq<Event>)
    requires LoopEvents(events) && !s.loop.NoLoop?
    ensures Run(s, events).loop.NoLoop? <==> Stopped(events)
  {
    if events == [] {
      RunNothing(s);
    } else {
      var init, last := events[..|events| - 1], events[|events| - 1];
      assert events == init + [last];
      assert forall x | x in init :: x in events;
      OnlyStopDropsTheHandle(s, init);
      assert last in events;
      StoppedPush(init, last);
      RunPush(s, init, last);
      HandleStep(Run(s, init), last);
    }
  }

  lemma HandleStep(s: Sock, e: Event)
    requires !e.CallStart? && !e.CallReconnect?
    ensures Next(s, e).loop.NoLoop? <==> s.loop.NoLoop? || e.CallStop?
  {
    hide Jittered;
  }

  /** The frames a run has received, in order. */
  function Received(events: seq<Event>): seq<ServerFrame> {
    if |events| == 0 then []
    else
      var e := events[|events| - 1];
      Received(events[..|events| - 1]) + (if e.Receive? then [e.f] else [])
  }

  lemma ReceivedPush(events: seq<Event>, e: Event)
    ensures Received(events + [e]) == Received(events) + if e.Receive? then [e.f] else []
  {
    assert (events + [e])[..|events|] == events;
  }

  lemma {:induction false} EventsConcat(a: seq<Event>, b: seq<Event>)
    ensures Received(a + b) == Received(a) + Received(b)
    ensures Stopped(a + b) <==> Stopped(a) || Stopped(b)
    ensures LoopEvents(a) && LoopEvents(b) ==> LoopEvents(a + b)
  {
    if b == [] {
      assert a + b == a;
    } else {
      var n := |b| - 1;
      assert a + b == (a + b[..n]) + [b[n]] && b == b[..n] + [b[n]];
      EventsConcat(a, b[..n]);
      ReceivedPush(a + b[..n], b[n]);
      StoppedPush(a + b[..n], b[n]);
      StoppedPush(b[..n], b[n]);
    }
  }

  /**
   * The frames received are those sent, in order: all of them up to and including the first fatal one,
   * unless `stop` came.
   */
  ghost predicate ServedAsSent(events: seq<Event>, frames: seq<ServerFrame>) {
    var got := Received(events);
    && got <= frames && (forall j | 0 <= j < |got| - 1 :: !Fatal(frames[j]))
    && (got == frames || Stopped(events) || (got != [] && Fatal(frames[|got| - 1])))
  }

  /** A frame after which the connection is closed. */
  predicate Fatal(f: ServerFrame) {
    (f.Hello? && f.protocolVersion > 1) || (f.ErrorFrame? && (f.updateCode || f.pushFailed))
  }

  /** The first `i` frames have been received, none of them fatal, and nobody has called `stop`. */
  ghost predicate ServedSoFar(events: seq<Event>, frames: seq<ServerFrame>, i: nat) {
    i <= |frames| && Received(events) == frames[..i] && !Stopped(events) && forall j | 0 <= j < i :: !Fatal(frames[j])
  }

  lemma ServedPush(events: seq<Event>, more: seq<Event>, frames: seq<ServerFrame>, i: nat, over: bool)
    requires ServedSoFar(events, frames, i) && i < |frames|
    requires Received(more) == if Stopped(more) then [] else [frames[i]]
    requires over <==> Stopped(more) || Fatal(frames[i])
    ensures if over then ServedAsSent(events + more, frames) else ServedSoFar(events + more, frames, i + 1)
  {
    EventsConcat(events, more);
    hide Received, Stopped, Fatal;
  }

  lemma ServedAll(events: seq<Event>, last: seq<Event>, frames: seq<ServerFrame>)
    requires ServedSoFar(events, frames, |frames|) && Received(last) == []
    ensures ServedAsSent(events + last, frames)
  {
    EventsConcat(events, last);
    hide Received, Stopped, Fatal;
  }

  lemma NothingServed(frames: seq<ServerFrame>)
    ensures ServedSoFar([], frames, 0) && LoopEvents([])
  {}

  class TzibburSocket {
    var state: SyncState
    var loop: Loop
    var attempt: nat
    var clock: int
    var tries: nat
    var stretchStart: int
    var stretchTries: nat
    var waits: nat

    function Value(): Sock
      reads this
    {
      Sock(state, loop, attempt, clock, tries, stretchStart, stretchTries, waits)
    }

    ghost predicate Valid()
      reads this
    {
      StickyInv(Value()) && RateInv(Value())
    }

    constructor ()
      ensures Valid() && Value() == INIT
    {
      state, loop, attempt, clock, tries, stretchStart, stretchTries, waits := Idle, NoLoop, 0, 0, 0, 0, 0, 0;
      new;
      InitKeepsRate();
    }

    method StartLoop()
      requires Valid()
      modifies this
      ensures Valid() && Value() == Next(old(Value()), CallStart)
    {
      StepKeepsValid(Value(), CallStart);
      if !loop.NoLoop? || state == UpdateRequired {
        return;
      }
      loop := Top;
      attempt := 0;
      stretchStart, stretchTries, waits := clock, 0, 0;
    }

    method StopLoop()
      requires Valid()
      modifies this
      ensures Valid() && Value() == Next(old(Value()), CallStop)
    {
      StepKeepsValid(Value(), CallStop);
      loop := NoLoop;
      if state != UpdateRequired {
        state := Idle;
      }
    }

    method ReconnectNow()
      requires Valid()
      modifies this
      ensures Valid() && Value() == Next(old(Value()), CallReconnect)
    {
      if !loop.NoLoop? {
        StopLoop();
        StartLoop();
      }
    }

    /** Returns the reason when the connection must be torn down. */
    method OnFrame(f: ServerFrame) returns (reason: Option<Reason>)
      requires loop.Open?
      modifies this
      ensures (reason, Value()) == HandleFrame(old(Value()), f)
    {
      reason := None;
      match f
      case Hello(version) =>
        if version > WS_PROTOCOL_VERSION {
          return Some(UpdateDemanded);
        }
        attempt := 0;
        state, loop := Connected, Open(true);
        stretchStart, stretchTries, waits := clock, 0, 0;
      case Messages =>
        if !loop.gotHello {
          attempt := 0;
          state, loop := Connected, Open(true);
        }
        stretchStart, stretchTries, waits := clock, 0, 0;
      case ErrorFrame(update, pushFailed) =>
        if update {
          reason := Some(UpdateDemanded);
        } else if pushFailed {
          reason := Some(Error);
        }
      case OtherFrame =>
    }

    method BackoffWait(draw: int, minWait: Option<int>)
      requires Jittered(attempt, draw) && attempt <= U32_MAX
      modifies this
      ensures Value() == BackOff(old(Value()), draw, minWait)
    {
      state := BackingOff;
      var delay := draw;
      if minWait.Some? && minWait.value > delay {
        delay := minWait.value;
      }
      if attempt < U32_MAX {
        attempt := attempt + 1;
      }
      loop := Waiting(clock + delay);
      waits := waits + 1;
    }

    method EndLoop()
      modifies this
      ensures Value() == End(old(Value()))
    {
      loop := Ended;
      if state != UpdateRequired {
        state := Idle;
      }
    }

    /** Leave the loop, or go to sleep for as long as the reason asks. */
    method EndConnection(reason: Reason, draw: int)
      requires Jittered(attempt, draw) && attempt <= U32_MAX
      modifies this
      ensures Value() == ConnectionEnds(old(Value()), reason, draw)
    {
      if reason.UpdateDemanded? {
        state := UpdateRequired;
      }
      match AfterOf(reason)
      case Halt => EndLoop();
      case WaitAtLeast(ms) => BackoffWait(draw, Some(ms));
      case Backoff => BackoffWait(draw, None);
    }

    method Refused(h: Handshake, draw: int)
      requires Jittered(attempt, draw) && attempt <= U32_MAX && loop.Shaking? && !h.Accepted?
      modifies this
      ensures Value() == Next(old(Value()), Answer(h, draw))
    {
      if h.HttpRefused? && (h.status == 401 || h.status == 403) {
        EndLoop();
      } else {
        BackoffWait(draw, if h.HttpRefused? && h.status == 429 then h.retryAfterMs else None);
      }
    }

    /** Time passes, and `stop` may be called at its end. */
    method Pass(ms: nat, stop: bool) returns (ghost events: seq<Event>)
      requires Valid() && !loop.NoLoop?
      modifies this
      ensures Value() == Run(old(Value()), events) && LoopEvents(events) && Received(events) == []
      ensures Stopped(events) <==> stop
      ensures stop ==> loop.NoLoop? && tries == old(tries)
      ensures !stop ==> Valid() && Value() == old(Value()).(clock := old(clock) + ms)
    {
      hide Jittered, RateInv, StickyInv, Run;
      ghost var start := Value();
      RunNothing(start);
      RunPush(start, [], Tick(ms));
      ReceivedPush([], Tick(ms));
      events := [] + [Tick(ms)];
      clock := clock + ms;
      RunKeepsValid(start, events);
      if stop {
        RunPush(start, events, CallStop);
        ReceivedPush(events, CallStop);
        events := events + [CallStop];
        StopLoop();
      }
    }

    /** Wait for the `i`-th frame and act on it, unless `stop` comes first; tells whether the connection is over. */
    method ServeFrame(wire: Wire, n: nat, i: nat) returns (over: bool, ghost events: seq<Event>)
      requires Valid() && loop.Open? && i < |wire.frames(n)|
      modifies this
      ensures Value() == Run(old(Value()), events) && LoopEvents(events) && tries == old(tries)
      ensures if over then loop.Waiting? || Down(Value()) else Valid() && loop.Open?
      ensures Received(events) == if Stopped(events) then [] else [wire.frames(n)[i]]
      ensures over <==> Stopped(events) || Fatal(wire.frames(n)[i])
    {
      hide Jittered, RateInv, StickyInv, Run, Fatal;
      ghost var start := Value();
      events := Pass(wire.gapMs(n, i), wire.stop(n, WHILE_SERVING + i));
      if loop.NoLoop? {
        return true, events;
      }
      AttemptFits(Value());
      var f, draw := wire.frames(n)[i], Draw(attempt, wire.random(n));
      RunPush(start, events, Receive(f, draw));
      ReceivedPush(events, Receive(f, draw));
      StoppedPush(events, Receive(f, draw));
      events := events + [Receive(f, draw)];
      over := ActOn(f, draw);
      RunKeepsValid(start, events);
    }

    /** Act on one frame; tells whether it ended the connection. */
    method ActOn(f: ServerFrame, draw: int) returns (over: bool)
      requires loop.Open? && Jittered(attempt, draw) && attempt <= U32_MAX
      modifies this
      ensures Value() == Next(old(Value()), Receive(f, draw)) && tries == old(tries)
      ensures if over then loop.Waiting? || Down(Value()) else loop.Open?
      ensures over <==> Fatal(f)
    {
      SameAttempt(Value(), f);
      var reason := OnFrame(f);
      over := reason.Some?;
      if over {
        EndConnection(reason.value, draw);
      }
    }

    /** Frame after frame, in order, until one of them is fatal, `stop` is called, or the network ends it. */
    method ServeConnection(wire: Wire, n: nat) returns (ghost events: seq<Event>)
      requires Valid() && loop.Open?
      modifies this
      ensures Value() == Run(old(Value()), events) && LoopEvents(events) && tries == old(tries)
      ensures loop.Waiting? || Down(Value())
      ensures ServedAsSent(events, wire.frames(n))
    {
      ghost var start := Value();
      var frames := wire.frames(n);
      RunNothing(start);
      NothingServed(frames);
      hide RateInv, StickyInv, Run, Received, Stopped, Fatal, LoopEvents, ServedSoFar, ServedAsSent;
      events := [];
      var i := 0;
      while i < |frames|
        invariant Valid() && loop.Open? && Value() == Run(start, events) && LoopEvents(events) && i <= |frames|
        invariant ServedSoFar(events, frames, i) && tries == old(tries)
      {
        ghost var more;
        var over;
        over, more := ServeFrame(wire, n, i);
        RunConcat(start, events, more);
        EventsConcat(events, more);
        ServedPush(events, more, frames, i, over);
        events := events + more;
        if over {
          return;
        }
        i := i + 1;
      }
      ghost var last := EndOfFrames(wire, n);
      RunConcat(start, events, last);
      EventsConcat(events, last);
      ServedAll(events, last, frames);
      events := events + last;
    }

    /** Whatever time after the last frame, `stop` or the network ends the connection. */
    method EndOfFrames(wire: Wire, n: nat) returns (ghost events: seq<Event>)
      requires Valid() && loop.Open?
      modifies this
      ensures Value() == Run(old(Value()), events) && LoopEvents(events) && tries == old(tries)
      ensures loop.Waiting? || Down(Value())
      ensures Received(events) == []
    {
      hide Jittered, RateInv, StickyInv, Run;
      ghost var start := Value();
      var k := |wire.frames(n)|;
      events := Pass(wire.gapMs(n, k), wire.stop(n, WHILE_SERVING + k));
      if loop.NoLoop? {
        return;
      }
      AttemptFits(Value());
      var draw := Draw(attempt, wire.random(n));
      var reason := if wire.ends(n).UpdateDemanded? then Error else wire.ends(n);
      RunPush(start, events, Drop(reason, draw));
      ReceivedPush(events, Drop(reason, draw));
      events := events + [Drop(reason, draw)];
      HangUp(reason, draw);
    }

    /** The network ends the connection. */
    method HangUp(reason: Reason, draw: int)
      requires loop.Open? && !reason.UpdateDemanded? && Jittered(attempt, draw) && attempt <= U32_MAX
      modifies this
      ensures Value() == Next(old(Value()), Drop(reason, draw)) && tries == old(tries)
      ensures loop.Waiting? || Down(Value())
    {
      EndConnection(reason, draw);
    }

    /** Ask for the token and shake hands; without a token the loop ends. */
    method Dial(wire: Wire, n: nat) returns (ghost events: seq<Event>)
      requires Valid() && loop.Top?
      modifies this
      ensures Value() == Run(old(Value()), events) && LoopEvents(events)
      ensures loop.Shaking? || Down(Value())
      ensures loop.Shaking? ==> wire.token(n) && tries == old(tries) + 1
    {
      hide Run, RateInv, StickyInv;
      ghost var start := Value();
      RunNothing(start);
      if wire.stop(n, AT_TOP) {
        events := [] + [CallStop];
        RunPush(start, [], CallStop);
        StopLoop();
        return;
      }
      state := Connecting;
      if !wire.token(n) {
        events := [] + [NoToken];
        RunPush(start, [], NoToken);
        EndLoop();
        return;
      }
      events := [] + [Attempt];
      RunPush(start, [], Attempt);
      loop, tries, stretchTries := Shaking, tries + 1, stretchTries + 1;
      RunKeepsValid(start, events);
      ghost var more := Pass(wire.dialMs(n), wire.stop(n, WHILE_DIALING));
      RunConcat(start, events, more);
      events := events + more;
    }

    /** Act on the server's answer; an accepted connection is served to its end. */
    method Answered(wire: Wire, n: nat) returns (ghost events: seq<Event>)
      requires Valid() && loop.Shaking?
      modifies this
      ensures Value() == Run(old(Value()), events) && LoopEvents(events)
      ensures loop.Waiting? || Down(Value())
      ensures tries == old(tries)
      ensures events != [] && events[0].Answer? && events[0].h == wire.answer(n)
    {
      hide Jittered, RateInv, StickyInv, Run;
      ghost var start := Value();
      RunNothing(start);
      AttemptFits(start);
      var draw, h := Draw(attempt, wire.random(n)), wire.answer(n);
      events := [] + [Answer(h, draw)];
      RunPush(start, [], Answer(h, draw));
      if h.Accepted? {
        loop := Open(false);
        RunKeepsValid(start, events);
        ghost var more := ServeConnection(wire, n);
        RunConcat(start, events, more);
        events := events + more;
      } else {
        Refused(h, draw);
      }
    }

    /** Sleep the wait out, unless `stop` cuts it short. */
    method Sleep(wire: Wire, n: nat) returns (ghost events: seq<Event>)
      requires Valid() && loop.Waiting?
      modifies this
      ensures Value() == Run(old(Value()), events) && LoopEvents(events)
      ensures loop.Top? || Down(Value())
      ensures tries == old(tries)
    {
      hide Run, RateInv, StickyInv;
      ghost var start := Value();
      RunNothing(start);
      if wire.stop(n, WHILE_SLEEPING) {
        events := [] + [CallStop];
        RunPush(start, [], CallStop);
        StopLoop();
        return;
      }
      var rest := if loop.until > clock then loop.until - clock else 0;
      events := [] + [Tick(rest)];
      RunPush(start, [], Tick(rest));
      clock := clock + rest;
      RunPush(start, events, WaitOver);
      loop := Top;
      events := events + [WaitOver];
    }

    /** One turn of the loop: token, handshake, connection, and the wait before the next. */
    method ConnectOnce(wire: Wire, n: nat) returns (ghost events: seq<Event>)
      requires Valid() && loop.Top?
      modifies this
      ensures Value() == Run(old(Value()), events) && LoopEvents(events)
      ensures loop.Top? || Down(Value())
      ensures loop.Top? ==> tries == old(tries) + 1
    {
      hide RateInv, StickyInv, Run;
      ghost var start := Value();
      events := Dial(wire, n);
      ghost var more;
      if loop.Shaking? {
        RunKeepsValid(start, events);
        more := Answered(wire, n);
        RunConcat(start, events, more);
        events := events + more;
      }
      if loop.Waiting? {
        RunKeepsValid(start, events);
        more := Sleep(wire, n);
        RunConcat(start, events, more);
        events := events + more;
      }
    }

    /**
     * `run_loop` for up to `rounds` turns. Whatever the network does and wherever `stop` is called, what the
     * loop does is a run of the event machine without `start` and `reconnect`, so all that is proved of such
     * runs holds of it. Between two turns the delays of the stretch have been waited out; a loop that is not
     * down has dialed once a turn; it is down exactly if something took it down, in UpdateRequired exactly if
     * the server demanded it, and its handle is gone exactly if `stop` was called.
     */
    method RunLoop(wire: Wire, rounds: nat) returns (ghost events: seq<Event>)
      requires Valid() && loop.Top?
      modifies this
      ensures Valid() && Value() == Run(old(Value()), events) && LoopEvents(events)
      ensures loop.Top? || Down(Value())
      ensures loop.NoLoop? <==> Stopped(events)
      ensures loop.Top? ==> clock - stretchStart >= HalfSum(stretchTries)
      ensures loop.Top? ==> tries == old(tries) + rounds
      ensures Down(Value()) <==> TakenDownIn(old(Value()), events)
      ensures state == UpdateRequired <==> UpdateDemandedIn(old(Value()), events)
    {
      ghost var start := Value();
      RateAtTop(start);
      hide Jittered, Run, RateInv, StickyInv;
      events := [];
      RunNothing(start);
      for n := 0 to rounds
        invariant Valid() && Value() == Run(start, events) && LoopEvents(events)
        invariant loop.Top? || Down(Value())
        invariant loop.Top? ==> tries == old(tries) + n
      {
        if !loop.Top? {
          break;
        }
        ghost var more := ConnectOnce(wire, n);
        RunConcat(start, events, more);
        events := events + more;
        RunKeepsValid(start, events);
      }
      RateAtTop(Value());
      UpdateRequiredIffDemanded(start, events);
      DownIffTakenDown(start, events);
      OnlyStopDropsTheHandle(start, events);
    }
  }

  lemma RunNothing(s: Sock)
    ensures Run(s, []) == s
  {}

  lemma StepKeepsValid(s: Sock, e: Event)
    requires StickyInv(s) && RateInv(s)
    ensures StickyInv(Next(s, e)) && RateInv(Next(s, e))
  {
    hide RateInv, StickyInv, Next;
    StepKeepsRate(s, e);
    RunKeepsSticky(s, [e]);
    RunPush(s, [], e);
    RunNothing(s);
    assert [] + [e] == [e];
  }

  lemma RunKeepsValid(s: Sock, events: seq<Event>)
    requires StickyInv(s) && RateInv(s)
    ensures StickyInv(Run(s, events)) && RateInv(Run(s, events))
  {
    RunKeepsSticky(s, events);
    RunKeepsRate(s, events);
  }

  lemma AttemptFits(s: Sock)
    requires RateInv(s) && !s.loop.NoLoop? && !s.loop.Ended?
    ensures s.attempt <= U32_MAX
  {}

  /** A frame that tears the connection down leaves the attempt counter alone; no frame lets it overflow. */
  lemma SameAttempt(s: Sock, f: ServerFrame)
    requires s.loop.Open?
    ensures var (reason, t) := HandleFrame(s, f);
            t.loop.Open? && t.attempt <= s.attempt && (reason.Some? ==> t.attempt == s.attempt)
  {}

  lemma RateAtTop(s: Sock)
    requires RateInv(s) && StickyInv(s)
    ensures s.loop.Top? ==> s.clock - s.stretchStart >= HalfSum(s.stretchTries)
    ensures s.state == UpdateRequired ==> s.loop.Ended? || s.loop.NoLoop?
  {
    if s.loop.Top? {
      HalfSumMonotone(s.stretchTries, s.waits);
    }
  }
}
