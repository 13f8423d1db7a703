/**
 When a relayed connection ends, and that nothing else ends it: each cause said in the terms of the sockets, the client's
 frames and the registry, for any number of tokens; and what a connection that has not ended forwards.
 */
module SignalingEnds {
  import opened Wrappers
  import opened SignalingRelay

  /** What the phases and stages say in every run. */
  ghost predicate Steady(g: Gateway) {
    && (g.phase == Closed ==> g.aborted)
    && (g.phase == Relaying ==> !g.aborted && g.upstream.Some?)
    && (forall n :: 0 <= n < |g.attempts| ==> StageOk(g.attempts[n]))
  }

  predicate StageOk(a: Attempt) {
    && (a.stage == Active <==> a.connector.activated)
    && (a.stage == Authorizing ==> a.connector == FreshConnector())
    && (a.stage == Handshaking ==> !a.connector.settled && !a.connector.authenticated)
    && (a.stage == Connected ==> a.connector.authenticated)
    && (a.connector.authenticated ==> a.connector.settled)
  }

  // ---------- the causes ----------

  /** A frame for the client cannot be sent: the client is leaving, or its send buffer is full. */
  predicate CannotSend(g: Gateway, ahead: nat, room: nat -> bool) {
    !g.clientOpen || !room(|g.toClient| + ahead)
  }

  /** Something among the events is no frame, or cannot be sent after the ones before it. */
  predicate Stops(g: Gateway, ahead: nat, events: seq<Buffered>, room: nat -> bool) {
    exists i :: 0 <= i < |events| && StopsAt(g, ahead, events, room, i)
  }

  predicate StopsAt(g: Gateway, ahead: nat, events: seq<Buffered>, room: nat -> bool, i: nat)
    requires i < |events|
  {
    !events[i].Message? || CannotSend(g, ahead + i, room)
  }

  /** One of the ways in which the event ends a connection that has not ended. */
  predicate Ends(g: Gateway, e: Event) {
    match e
    case ClientGone => true
    case AuthTimeout => true
    case WriteFails => true
    case NotAuthorized(_) => true
    case RefusalArrives(_) => true
    case SessionEnds(_) => true
    case ClientSends(token, _, upstreamTakes) =>
      // no token, too early, or the upstream cannot take the frame
      (g.phase == Authenticating && token.None?) || g.phase == Connecting || (g.phase == Relaying && !upstreamTakes)
    case Socket(n, event, room) =>
      // the upstream that was handed over ends, or sends what the client cannot get
      At(g, n, Active) && (event == SocketError || event == SocketClosed || (event.Arrives? && CannotSend(g, 0, room)))
    case ConnectionArrives(n, room) =>
      // `ready` or a buffered frame cannot be sent, or the buffer has an end of the upstream in it
      n < |g.attempts| && (
        || CannotSend(g, 0, room)
        || Stops(g, 1, g.attempts[n].connector.buffer, room))
    case ClientClosing => false
    case Authorized(_, _, _) => false
  }

  // ---------- each event ----------

  lemma ShutdownSteady(g: Gateway)
    requires Steady(g)
    ensures Steady(Shutdown(g)) && Shutdown(g).aborted && Shutdown(g).phase == Closed
  {
    var t := Shutdown(g);
    forall n | 0 <= n < |t.attempts| ensures StageOk(t.attempts[n]) {
      assert t.attempts[n] == g.attempts[n] || t.attempts[n] == AbortOne(g.attempts[n]);
      assert StageOk(g.attempts[n]);
    }
  }

  /** The same attempts but one. */
  lemma ReplacedSteady(g: Gateway, n: nat, a: Attempt)
    requires Steady(g) && n < |g.attempts| && StageOk(a)
    ensures Steady(SetAttempt(g, n, a))
  {
    hide StageOk;
  }

  /** How the socket's report moves an attempt on. */
  function Moved(maxPayload: nat, a: Attempt, e: SocketEvent): Attempt {
    var k := OnSocket(maxPayload, a.connector, e);
    var stage := if a.stage != Handshaking then a.stage
                 else if k.authenticated then Connected
                 else if k.settled then Refused else Handshaking;
    a.(stage := stage, connector := k, heard := if e.Arrives? then a.heard + [e.frame] else a.heard)
  }

  lemma MovedOk(maxPayload: nat, a: Attempt, e: SocketEvent)
    requires StageOk(a) && a.stage != Authorizing
    ensures StageOk(Moved(maxPayload, a, e))
  {
  }

  lemma SocketEnds(maxPayload: nat, g: Gateway, n: nat, e: SocketEvent, room: nat -> bool)
    requires Steady(g) && Enabled(g, Socket(n, e, room))
    ensures var t := DoSocket(maxPayload, g, n, e, room);
      Steady(t) && (t.aborted <==> g.aborted || Ends(g, Socket(n, e, room)))
  {
    var a := g.attempts[n];
    assert StageOk(a);
    var next := SetAttempt(g, n, Moved(maxPayload, a, e));
    MovedOk(maxPayload, a, e);
    ReplacedSteady(g, n, Moved(maxPayload, a, e));
    ShutdownSteady(next);
    hide OnSocket, Steady, Shutdown, StageOk;
    assert next.aborted == g.aborted && next.clientOpen == g.clientOpen && next.toClient == g.toClient;
    if e.Arrives? && a.connector.activated && !CannotSend(g, 0, room) {
      assert DoSocket(maxPayload, g, n, e, room) == next.(toClient := next.toClient + [Relayed(e.frame)]);
      SentSteady(next, next.toClient + [Relayed(e.frame)]);
    }
  }

  lemma SentSteady(g: Gateway, toClient: seq<ClientFrame>)
    requires Steady(g)
    ensures Steady(g.(toClient := toClient))
  {
  }

  /** What the dispatch of a buffer comes to: every frame is sent, or the connection is shut down at the first that cannot be. */
  lemma {:induction false} DispatchEnds(g: Gateway, events: seq<Buffered>, room: nat -> bool)
    requires !g.aborted && g.phase == Relaying
    ensures DispatchAll(g, events, room).aborted <==> Stops(g, 0, events, room)
    decreases |events|
  {
    if events != [] {
      var u := Dispatch(g, events[0], room);
      var rest := events[1..];
      if !events[0].Message? || CannotSend(g, 0, room) {
        DispatchEither(u, rest, room);
        assert StopsAt(g, 0, events, room, 0);
      } else {
        assert u == g.(toClient := g.toClient + [Relayed(events[0].frame)]);
        DispatchEnds(u, rest, room);
        StopsLater(g, u, 0, events, room);
      }
    }
  }

  /** Counted from the second event on, with one frame more behind. */
  lemma StopsLater(g: Gateway, u: Gateway, ahead: nat, events: seq<Buffered>, room: nat -> bool)
    requires events != [] && u.clientOpen == g.clientOpen && |u.toClient| == |g.toClient| + 1
    requires events[0].Message? && !CannotSend(g, ahead, room)
    ensures Stops(u, ahead, events[1..], room) <==> Stops(g, ahead, events, room)
  {
    var rest := events[1..];
    if Stops(g, ahead, events, room) {
      var i :| 0 <= i < |events| && StopsAt(g, ahead, events, room, i);
      assert i > 0 && rest[i - 1] == events[i];
      assert StopsAt(u, ahead, rest, room, i - 1);
    }
    if Stops(u, ahead, rest, room) {
      var i :| 0 <= i < |rest| && StopsAt(u, ahead, rest, room, i);
      assert rest[i] == events[i + 1];
      assert StopsAt(g, ahead, events, room, i + 1);
    }
  }

  lemma StopsAfter(g: Gateway, u: Gateway, events: seq<Buffered>, room: nat -> bool)
    requires u.clientOpen == g.clientOpen && |u.toClient| == |g.toClient| + 1
    ensures Stops(u, 0, events, room) <==> Stops(g, 1, events, room)
  {
    assert forall i :: 0 <= i < |events| ==> (StopsAt(u, 0, events, room, i) <==> StopsAt(g, 1, events, room, i));
  }

  lemma HandedSteady(g: Gateway, n: nat)
    requires Steady(g) && At(g, n, Connected) && !g.aborted
    ensures Steady(HandedOver(g, n)) && Steady(Shutdown(HandedOver(g, n))) && Shutdown(HandedOver(g, n)).aborted
  {
    assert StageOk(g.attempts[n]);
    var a := g.attempts[n];
    assert StageOk(a.(stage := Active, connector := Activated(a.connector)));
    ReplacedSteady(g, n, a.(stage := Active, connector := Activated(a.connector)));
    hide StageOk;
    ShutdownSteady(HandedOver(g, n));
  }

  /** The hand-over's shape: `ready` and the buffer are dispatched, and that adds frames and shuts down or not. */
  lemma ArrivalShape(g: Gateway, n: nat, room: nat -> bool)
    requires At(g, n, Connected) && !g.aborted
    ensures var t := DoConnectionArrives(g, n, room);
      var relaying := HandedOver(g, n);
      && (t == relaying.(toClient := t.toClient) || t == Shutdown(relaying).(toClient := t.toClient))
      && (CannotSend(g, 0, room) ==> t == Shutdown(relaying).(toClient := t.toClient))
  {
    var relaying := HandedOver(g, n);
    var a := g.attempts[n];
    var u := ToClient(relaying, Ready(a.sessionId), room);
    DispatchEither(u, a.connector.buffer, room);
    ShutdownApart(relaying, u.toClient);
    assert relaying.clientOpen == g.clientOpen && relaying.toClient == g.toClient;
    hide DispatchAll, HandedOver, Shutdown;
  }

  lemma ArrivalCause(g: Gateway, n: nat, room: nat -> bool)
    requires At(g, n, Connected) && !g.aborted && !CannotSend(g, 0, room)
    ensures DoConnectionArrives(g, n, room).aborted <==> Ends(g, ConnectionArrives(n, room))
  {
    var events := g.attempts[n].connector.buffer;
    var u := HandedOver(g, n).(toClient := g.toClient + [Ready(g.attempts[n].sessionId)]);
    DispatchEnds(u, events, room);
    StopsAfter(g, u, events, room);
    assert DoConnectionArrives(g, n, room) == DispatchAll(u, events, room);
    hide DispatchAll, Shutdown, HandedOver, DoConnectionArrives, Stops;
  }

  lemma ArrivalEnds(g: Gateway, n: nat, room: nat -> bool)
    requires Steady(g) && At(g, n, Connected)
    ensures var t := DoConnectionArrives(g, n, room);
      Steady(t) && (t.aborted <==> g.aborted || Ends(g, ConnectionArrives(n, room)))
  {
    var a := g.attempts[n];
    if g.aborted {
      assert StageOk(a);
      ReplacedSteady(g, n, a.(stage := Over, connector := a.connector.(terminated := true)));
    } else {
      var relaying, t := HandedOver(g, n), DoConnectionArrives(g, n, room);
      HandedSteady(g, n);
      ArrivalShape(g, n, room);
      SentSteady(relaying, t.toClient);
      SentSteady(Shutdown(relaying), t.toClient);
      if !CannotSend(g, 0, room) { ArrivalCause(g, n, room); }
      hide Steady, DoConnectionArrives, HandedOver, Shutdown;
    }
  }

  lemma AuthorizedSteady(g: Gateway, n: nat, sessionId: string, validTarget: bool)
    requires Steady(g) && At(g, n, Authorizing)
    ensures var t := DoAuthorized(g, n, sessionId, validTarget); Steady(t) && t.aborted == g.aborted
  {
    var t := DoAuthorized(g, n, sessionId, validTarget);
    forall m | 0 <= m < |t.attempts| ensures StageOk(t.attempts[m]) {
      if m != n { assert t.attempts[m] == g.attempts[m]; }
    }
    hide StageOk;
  }

  lemma OverSteady(g: Gateway, n: nat)
    requires Steady(g) && (At(g, n, Authorizing) || At(g, n, Refused))
    ensures var t := Shutdown(SetAttempt(g, n, g.attempts[n].(stage := Over))); Steady(t) && t.aborted
  {
    assert StageOk(g.attempts[n]);
    ReplacedSteady(g, n, g.attempts[n].(stage := Over));
    ShutdownSteady(SetAttempt(g, n, g.attempts[n].(stage := Over)));
  }

  lemma ClientEnds(g: Gateway, token: Option<string>, frame: Frame, upstreamTakes: bool)
    requires Steady(g)
    ensures var t := DoClientSends(g, token, frame, upstreamTakes);
      Steady(t) && (t.aborted <==> g.aborted || Ends(g, ClientSends(token, frame, upstreamTakes)))
  {
    ShutdownSteady(g);
    var heard := g.(fromClient := g.fromClient + [frame]);
    assert Steady(heard);
    ShutdownSteady(heard);
    hide Shutdown;
    if g.phase == Authenticating && token.Some? {
      assert StageOk(Attempt(token.value, Authorizing, "", FreshConnector(), []));
      hide StageOk;
    }
  }

  /** One step: an event ends the connection exactly when it is a cause. */
  lemma EndStep(maxPayload: nat, g: Gateway, e: Event)
    requires Steady(g) && Enabled(g, e)
    ensures Steady(Next(maxPayload, g, e))
    ensures Next(maxPayload, g, e).aborted <==> g.aborted || Ends(g, e)
  {
    ShutdownSteady(g);
    hide DoSocket, DoConnectionArrives, DoAuthorized, DoClientSends, Shutdown, TokenUnused, Closers, StageOk;
    match e
    case ClientSends(token, frame, upstreamTakes) => ClientEnds(g, token, frame, upstreamTakes);
    case ClientClosing =>
    case ClientGone => ShutdownSteady(g.(clientOpen := false));
    case Authorized(n, sessionId, validTarget) => AuthorizedSteady(g, n, sessionId, validTarget);
    case NotAuthorized(n) => OverSteady(g, n);
    case RefusalArrives(n) => OverSteady(g, n);
    case Socket(n, event, room) => SocketEnds(maxPayload, g, n, event, room);
    case ConnectionArrives(n, room) => ArrivalEnds(g, n, room);
    case SessionEnds(sessionId) => ShutdownSteady(g.(registered := g.registered - Closers(g, sessionId)));
    case _ =>
  }

  // ---------- whole runs ----------

  ghost predicate EndsIn(maxPayload: nat, g: Gateway, es: seq<Event>)
    requires Legal(maxPayload, g, es)
    decreases |es|
  {
    es != [] && (Ends(g, es[0]) || EndsIn(maxPayload, Next(maxPayload, g, es[0]), es[1..]))
  }

  lemma {:induction false} EndRun(maxPayload: nat, g: Gateway, es: seq<Event>)
    requires Legal(maxPayload, g, es) && Steady(g)
    ensures Steady(Exec(maxPayload, g, es))
    ensures Exec(maxPayload, g, es).aborted <==> g.aborted || EndsIn(maxPayload, g, es)
    decreases |es|
  {
    hide Steady, Next, Enabled, Ends;
    if es != [] {
      EndStep(maxPayload, g, es[0]);
      EndRun(maxPayload, Next(maxPayload, g, es[0]), es[1..]);
    }
  }

  /** A connection has been ended if and only if one of the causes has occurred, in every run with any number of tokens. */
  lemma EndedExactly(maxPayload: nat, es: seq<Event>)
    requires Legal(maxPayload, FreshGateway(), es)
    ensures Exec(maxPayload, FreshGateway(), es).aborted <==> EndsIn(maxPayload, FreshGateway(), es)
  {
    assert Steady(FreshGateway());
    EndRun(maxPayload, FreshGateway(), es);
  }

  /** Frames of the client that its upstream can take. */
  ghost predicate Taken(es: seq<Event>) {
    forall i :: 0 <= i < |es| ==> es[i].ClientSends? && es[i].upstreamTakes
  }

  function FramesOf(es: seq<Event>): seq<Frame>
    requires forall i :: 0 <= i < |es| ==> es[i].ClientSends?
  {
    seq(|es|, i requires 0 <= i < |es| => es[i].frame)
  }

  lemma {:induction false} Forwarded(maxPayload: nat, g: Gateway, more: seq<Event>)
    requires Steady(g) && g.phase == Relaying && Taken(more)
    ensures Legal(maxPayload, g, more)
    ensures var t := Exec(maxPayload, g, more);
      && t.phase == Relaying && !t.aborted && t.clientOpen == g.clientOpen && t.registered == g.registered
      && t.toUpstream == g.toUpstream + FramesOf(more) && t.toClient == g.toClient
    decreases |more|
  {
    if more == [] {
      assert FramesOf(more) == [];
    } else {
      var t := Next(maxPayload, g, more[0]);
      EndStep(maxPayload, g, more[0]);
      Forwarded(maxPayload, t, more[1..]);
      assert FramesOf(more) == [more[0].frame] + FramesOf(more[1..]);
      assert g.toUpstream + ([more[0].frame] + FramesOf(more[1..])) == (g.toUpstream + [more[0].frame]) + FramesOf(more[1..]);
    }
  }

  /**
   While it relays, a connection forwards: in every run that has come to relaying, any further frames of the client that
   the upstream can take are all sent to it, in order, and leave the connection as it was.
   */
  lemma ClientFramesAreForwarded(maxPayload: nat, es: seq<Event>, more: seq<Event>)
    requires Legal(maxPayload, FreshGateway(), es) && Exec(maxPayload, FreshGateway(), es).phase == Relaying && Taken(more)
    ensures var g := Exec(maxPayload, FreshGateway(), es);
      && Legal(maxPayload, g, more)
      && var t := Exec(maxPayload, g, more);
      && t.phase == Relaying && !t.aborted && t.clientOpen == g.clientOpen && t.registered == g.registered
      && t.toUpstream == g.toUpstream + FramesOf(more) && t.toClient == g.toClient
  {
    assert Steady(FreshGateway());
    EndRun(maxPayload, FreshGateway(), es);
    hide Steady, Legal, Exec;
    Forwarded(maxPayload, Exec(maxPayload, FreshGateway(), es), more);
  }

  // ---------- the handshake and the hand-off buffer ----------

  /**
   In every run an upstream handshake succeeds exactly with the text frame that says it is authenticated, and fails exactly
   with any other report of the socket.
   */
  lemma HandshakeExactly(maxPayload: nat, es: seq<Event>, n: nat, e: SocketEvent, room: nat -> bool)
    requires Legal(maxPayload, FreshGateway(), es) && At(Exec(maxPayload, FreshGateway(), es), n, Handshaking)
    ensures var g := Exec(maxPayload, FreshGateway(), es);
      var t := Next(maxPayload, g, Socket(n, e, room));
      && (At(t, n, Connected) <==> e.Arrives? && e.hello && !e.frame.binary)
      && (At(t, n, Refused) <==> !(e.Arrives? && e.hello && !e.frame.binary))
  {
    assert Steady(FreshGateway());
    EndRun(maxPayload, FreshGateway(), es);
    hide Legal, Exec;
    var g := Exec(maxPayload, FreshGateway(), es);
    assert StageOk(g.attempts[n]);
    assert !g.attempts[n].connector.activated;
  }

  /** Before activation a frame is kept unless there are 16 events already or the bytes would exceed four payloads. */
  lemma BufferedExactly(maxPayload: nat, k: Connector, frame: Frame, hello: bool)
    requires ConnectorOk(maxPayload, k) && k.authenticated && !k.activated
    ensures var t := OnSocket(maxPayload, k, Arrives(frame, hello));
      && (t.buffer == k.buffer + [Message(frame)] <==> |k.buffer| < 16 && MessageBytes(k.buffer) + |frame.data| <= 4 * maxPayload)
      && (t.buffer != k.buffer + [Message(frame)] ==> t.terminated && t.buffer == k.buffer + [ErrorEvent])
  {
    hide Lead, MessageBytes, MessageCount, OnlyMessages;
    assert (k.buffer + [Message(frame)])[|k.buffer|] != (k.buffer + [ErrorEvent])[|k.buffer|];
  }

  // ---------- ends that come early or late ----------

  /** The attempt's buffer tells of the end of its upstream. */
  ghost predicate HasEnd(a: Attempt) {
    exists i :: 0 <= i < |a.connector.buffer| && !a.connector.buffer[i].Message?
  }

  lemma EndIsBuffered(maxPayload: nat, a: Attempt, e: SocketEvent)
    requires StageOk(a) && a.stage == Connected
    ensures Moved(maxPayload, a, e).stage == Connected
    ensures HasEnd(a) || e == SocketError || e == SocketClosed ==> HasEnd(Moved(maxPayload, a, e))
  {
    var b := Moved(maxPayload, a, e);
    assert a.connector.buffer <= b.connector.buffer;
    if HasEnd(a) {
      var i :| 0 <= i < |a.connector.buffer| && !a.connector.buffer[i].Message?;
      assert b.connector.buffer[i] == a.connector.buffer[i];
    } else if e == SocketError || e == SocketClosed {
      assert !b.connector.buffer[|a.connector.buffer|].Message?;
    }
  }

  /** A connected attempt changes by its own socket and by its hand-over only. */
  lemma ConnectedKept(maxPayload: nat, g: Gateway, e: Event, n: nat)
    requires Steady(g) && Enabled(g, e) && At(g, n, Connected)
    ensures var t := Next(maxPayload, g, e);
      At(t, n, Connected) ==> t.attempts[n] == if e.Socket? && e.attempt == n then Moved(maxPayload, g.attempts[n], e.event) else g.attempts[n]
  {
    assert StageOk(g.attempts[n]);
    if e.ConnectionArrives? {
      ArrivalAttempts(g, e.attempt, e.room, n);
      hide DoConnectionArrives, AbortAll, Moved, StageOk;
    } else if e.Socket? {
      SocketAttempts(maxPayload, g, e.attempt, e.event, e.room, n);
      hide DoSocket, AbortAll, Moved, StageOk;
    } else {
      hide OnSocket, DispatchAll, TokenUnused, Closers, StageOk;
    }
  }

  lemma ArrivalAttempts(g: Gateway, m: nat, room: nat -> bool, n: nat)
    requires At(g, m, Connected) && At(g, n, Connected)
    ensures var t := DoConnectionArrives(g, m, room);
      |t.attempts| == |g.attempts| && (m != n ==> t.attempts[n] == g.attempts[n]) && (m == n ==> t.attempts[n].stage != Connected)
  {
    if !g.aborted { ArrivalShape(g, m, room); }
    hide DispatchAll;
  }

  lemma SocketAttempts(maxPayload: nat, g: Gateway, m: nat, e: SocketEvent, room: nat -> bool, n: nat)
    requires Steady(g) && Enabled(g, Socket(m, e, room)) && At(g, n, Connected)
    ensures var t := DoSocket(maxPayload, g, m, e, room);
      |t.attempts| == |g.attempts| && t.attempts[n] == if m == n then Moved(maxPayload, g.attempts[n], e) else g.attempts[n]
  {
    assert StageOk(g.attempts[m]) && StageOk(g.attempts[n]);
    hide OnSocket;
  }

  lemma {:induction false} EndKept(maxPayload: nat, g: Gateway, es: seq<Event>, n: nat)
    requires Legal(maxPayload, g, es) && Steady(g) && At(g, n, Connected) && HasEnd(g.attempts[n])
    requires forall i :: 0 <= i < |es| ==> !(es[i].ConnectionArrives? && es[i].attempt == n)
    ensures var t := Exec(maxPayload, g, es); Steady(t) && At(t, n, Connected) && HasEnd(t.attempts[n])
    decreases |es|
  {
    hide Steady, HasEnd, Next, Enabled;
    if es != [] {
      EndStep(maxPayload, g, es[0]);
      EndKeptStep(maxPayload, g, es[0], n);
      EndKept(maxPayload, Next(maxPayload, g, es[0]), es[1..], n);
    }
  }

  lemma EndKeptStep(maxPayload: nat, g: Gateway, e: Event, n: nat)
    requires Steady(g) && Enabled(g, e) && At(g, n, Connected) && HasEnd(g.attempts[n])
    requires !(e.ConnectionArrives? && e.attempt == n)
    ensures var t := Next(maxPayload, g, e); At(t, n, Connected) && HasEnd(t.attempts[n])
  {
    assert StageOk(g.attempts[n]);
    if e.Socket? && e.attempt == n { EndIsBuffered(maxPayload, g.attempts[n], e.event); }
    StaysConnected(maxPayload, g, e, n);
    ConnectedKept(maxPayload, g, e, n);
    hide Next, HasEnd, Moved, StageOk;
  }

  lemma StaysConnected(maxPayload: nat, g: Gateway, e: Event, n: nat)
    requires Steady(g) && Enabled(g, e) && At(g, n, Connected) && !(e.ConnectionArrives? && e.attempt == n)
    ensures At(Next(maxPayload, g, e), n, Connected)
  {
    if e.ConnectionArrives? {
      ArrivalAttempts(g, e.attempt, e.room, n);
      hide DoConnectionArrives;
    } else if e.Socket? {
      SocketAttempts(maxPayload, g, e.attempt, e.event, e.room, n);
      if e.attempt == n { assert StageOk(g.attempts[n]); EndIsBuffered(maxPayload, g.attempts[n], e.event); }
      hide DoSocket, Moved;
    } else {
      hide OnSocket, DispatchAll, TokenUnused, Closers;
    }
  }

  /**
   An upstream that ends before its connection is handed over is not forgotten: whatever runs in between, the hand-over ends
   the connection.
   */
  lemma EarlyEndCounts(maxPayload: nat, es: seq<Event>, n: nat, end: SocketEvent, more: seq<Event>, room: nat -> bool)
    requires Legal(maxPayload, FreshGateway(), es) && At(Exec(maxPayload, FreshGateway(), es), n, Connected)
    requires end == SocketError || end == SocketClosed
    requires var t := Next(maxPayload, Exec(maxPayload, FreshGateway(), es), Socket(n, end, room)); Legal(maxPayload, t, more)
    requires forall i :: 0 <= i < |more| ==> !(more[i].ConnectionArrives? && more[i].attempt == n)
    ensures var u := Exec(maxPayload, Next(maxPayload, Exec(maxPayload, FreshGateway(), es), Socket(n, end, room)), more);
      Enabled(u, ConnectionArrives(n, room)) && Next(maxPayload, u, ConnectionArrives(n, room)).aborted
  {
    assert Steady(FreshGateway());
    EndRun(maxPayload, FreshGateway(), es);
    var g := Exec(maxPayload, FreshGateway(), es);
    var e := Socket(n, end, room);
    hide Legal, Exec;
    assert StageOk(g.attempts[n]);
    EndStep(maxPayload, g, e);
    StaysConnected(maxPayload, g, e, n);
    ConnectedKept(maxPayload, g, e, n);
    EndIsBuffered(maxPayload, g.attempts[n], end);
    var t := Next(maxPayload, g, e);
    hide Moved, StageOk, Next;
    EndKept(maxPayload, t, more, n);
    var u := Exec(maxPayload, t, more);
    HandOverEnds(maxPayload, u, n, room);
  }

  lemma HandOverEnds(maxPayload: nat, g: Gateway, n: nat, room: nat -> bool)
    requires Steady(g) && At(g, n, Connected) && HasEnd(g.attempts[n])
    ensures Enabled(g, ConnectionArrives(n, room)) && Next(maxPayload, g, ConnectionArrives(n, room)).aborted
  {
    EndStep(maxPayload, g, ConnectionArrives(n, room));
    hide Steady, Next;
    var i :| 0 <= i < |g.attempts[n].connector.buffer| && !g.attempts[n].connector.buffer[i].Message?;
    assert StopsAt(g, 1, g.attempts[n].connector.buffer, room, i);
  }

  lemma {:induction false} ClosingRun(maxPayload: nat, g: Gateway, es: seq<Event>)
    requires !g.clientOpen && Legal(maxPayload, g, es)
    ensures var t := Exec(maxPayload, g, es); !t.clientOpen && t.toClient == g.toClient
    decreases |es|
  {
    if es != [] {
      ClosingStep(maxPayload, g, es[0]);
      hide Next, Enabled;
      ClosingRun(maxPayload, Next(maxPayload, g, es[0]), es[1..]);
    }
  }

  lemma ClosingStep(maxPayload: nat, g: Gateway, e: Event)
    requires !g.clientOpen && Enabled(g, e)
    ensures var t := Next(maxPayload, g, e); !t.clientOpen && t.toClient == g.toClient
  {
    hide OnSocket, AbortAll, TokenUnused, Closers;
    if e.ConnectionArrives? && !g.aborted {
      var relaying := HandedOver(g, e.attempt);
      hide DispatchAll;
      ClosedDispatch(Shutdown(relaying), g.attempts[e.attempt].connector.buffer, e.room);
    }
  }

  lemma {:induction false} ClosedDispatch(g: Gateway, events: seq<Buffered>, room: nat -> bool)
    requires !g.clientOpen
    ensures var t := DispatchAll(g, events, room); !t.clientOpen && t.toClient == g.toClient
    decreases |events|
  {
    hide AbortAll;
    if events != [] { ClosedDispatch(Dispatch(g, events[0], room), events[1..], room); }
  }

  /** A client that is closing or gone gets nothing more, in the rest of any run. */
  lemma NothingAfterClosing(maxPayload: nat, g: Gateway, e: Event, es: seq<Event>)
    requires (e.ClientClosing? || e.ClientGone?) && Legal(maxPayload, Next(maxPayload, g, e), es)
    ensures Exec(maxPayload, Next(maxPayload, g, e), es).toClient == g.toClient
  {
    hide AbortAll;
    assert !Next(maxPayload, g, e).clientOpen && Next(maxPayload, g, e).toClient == g.toClient;
    hide Next;
    ClosingRun(maxPayload, Next(maxPayload, g, e), es);
  }

  /** The authentication timer runs until a token is accepted or the connection is closed, and never after. */
  lemma {:induction false} TimerRun(maxPayload: nat, g: Gateway, es: seq<Event>)
    requires Legal(maxPayload, g, es) && Steady(g) && (g.timer <==> g.authorised == [] && g.phase != Closed)
    ensures var t := Exec(maxPayload, g, es); t.timer <==> t.authorised == [] && t.phase != Closed
    decreases |es|
  {
    hide Steady, Next, Enabled;
    if es != [] {
      EndStep(maxPayload, g, es[0]);
      TimerStep(maxPayload, g, es[0]);
      TimerRun(maxPayload, Next(maxPayload, g, es[0]), es[1..]);
    }
  }

  lemma TimerStep(maxPayload: nat, g: Gateway, e: Event)
    requires Enabled(g, e) && (g.timer <==> g.authorised == [] && g.phase != Closed)
    requires Steady(g)
    ensures var t := Next(maxPayload, g, e); t.timer <==> t.authorised == [] && t.phase != Closed
  {
    hide OnSocket, AbortAll, TokenUnused, Closers, StageOk;
    if e.ConnectionArrives? && !g.aborted {
      ArrivalShape(g, e.attempt, e.room);
      hide DoConnectionArrives;
    }
  }

  lemma TimerExactly(maxPayload: nat, es: seq<Event>)
    requires Legal(maxPayload, FreshGateway(), es)
    ensures var t := Exec(maxPayload, FreshGateway(), es); t.timer <==> t.authorised == [] && t.phase != Closed
  {
    assert Steady(FreshGateway());
    TimerRun(maxPayload, FreshGateway(), es);
  }
}
