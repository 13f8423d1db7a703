/**
 The relay of src/signaling: the connector's handshake with its hand-off buffer (upstream-connector.ts) under the gateway's
 phases (signaling-gateway.ts). One machine stands for one client connection, with every attempt it makes to connect
 upstream. Library events arrive in any order; a promise continuation is an event of its own.
 */
module SignalingRelay {
  import opened Wrappers

  datatype Frame = Frame(data: string, binary: bool)

  const MAXIMUM_BUFFERED_EVENTS := 16

  // ---------- the connector ----------

  datatype Buffered = Message(frame: Frame) | CloseEvent | ErrorEvent

  /** `received` is a ledger of the frames that arrived after authentication. */
  datatype Connector = Connector(
    settled: bool,
    authenticated: bool,
    activated: bool,
    buffer: seq<Buffered>,
    bytes: nat,
    terminated: bool,
    received: seq<Frame>)

  function FreshConnector(): Connector {
    Connector(false, false, false, [], 0, false, [])
  }

  /** What the socket reports to the connector. `hello` says whether a frame is the authenticated frame. */
  datatype SocketEvent = Arrives(frame: Frame, hello: bool) | SocketError | SocketClosed | HandshakeFails

  /** fail: settles the handshake, once; afterwards the socket is not listened to. */
  function FailHandshake(k: Connector): Connector {
    if k.settled then k else k.(settled := true, terminated := true)
  }

  /** A frame before activation: into the buffer, or an error event when that is full. */
  function BufferFrame(maxPayload: nat, k: Connector, frame: Frame): Connector {
    if |k.buffer| >= MAXIMUM_BUFFERED_EVENTS || k.bytes + |frame.data| > maxPayload * 4
    then k.(buffer := k.buffer + [ErrorEvent], terminated := true, received := k.received + [frame])
    else k.(buffer := k.buffer + [Message(frame)], bytes := k.bytes + |frame.data|, received := k.received + [frame])
  }

  /** The connector's reaction; an activated connection hands everything on and keeps nothing. */
  function OnSocket(maxPayload: nat, k: Connector, e: SocketEvent): Connector {
    match e
    case HandshakeFails => FailHandshake(k)
    case Arrives(frame, hello) =>
      if !k.authenticated then
        if frame.binary || !hello then FailHandshake(k)
        else if k.settled then k
        else k.(authenticated := true, settled := true)
      else if k.activated then k.(received := k.received + [frame])
      else BufferFrame(maxPayload, k, frame)
    case SocketError =>
      if !k.authenticated then FailHandshake(k)
      else if k.activated then k
      else k.(buffer := k.buffer + [ErrorEvent])
    case SocketClosed =>
      if !k.authenticated then FailHandshake(k)
      else if k.activated then k
      else k.(buffer := k.buffer + [CloseEvent])
  }

  /** activate: the buffer is handed over and emptied. */
  function Activated(k: Connector): Connector {
    k.(activated := true, buffer := [], bytes := 0)
  }

  // ---------- what the buffer holds ----------

  /** The messages before the first event that ends the connection. */
  function Lead(events: seq<Buffered>): seq<Frame> {
    if events == [] || !events[0].Message? then [] else [events[0].frame] + Lead(events[1..])
  }

  predicate OnlyMessages(events: seq<Buffered>) {
    forall i :: 0 <= i < |events| ==> events[i].Message?
  }

  function MessageCount(events: seq<Buffered>): nat {
    if events == [] then 0 else MessageCount(events[..|events| - 1]) + if events[|events| - 1].Message? then 1 else 0
  }

  function MessageBytes(events: seq<Buffered>): nat {
    if events == [] then 0
    else MessageBytes(events[..|events| - 1]) + if events[|events| - 1].Message? then |events[|events| - 1].frame.data| else 0
  }

  /**
   Before activation the buffer holds at most 16 messages and four times the payload limit; its messages up to the first
   closing event are the first frames received, all of them when there is no such event.
   */
  ghost predicate ConnectorOk(maxPayload: nat, k: Connector) {
    && (k.authenticated ==> k.settled)
    && (k.activated ==> k.authenticated && k.buffer == [])
    && (!k.authenticated ==> k.buffer == [] && k.received == [])
    && MessageCount(k.buffer) <= MAXIMUM_BUFFERED_EVENTS
    && k.bytes == MessageBytes(k.buffer) <= maxPayload * 4
    && (!k.activated ==> Lead(k.buffer) <= k.received && (OnlyMessages(k.buffer) ==> Lead(k.buffer) == k.received))
  }

  lemma {:induction false} LeadOne(events: seq<Buffered>, e: Buffered)
    ensures Lead(events + [e]) == if OnlyMessages(events) && e.Message? then Lead(events) + [e.frame] else Lead(events)
  {
    if events == [] {
      assert [e][1..] == [];
    } else if events[0].Message? {
      LeadOne(events[1..], e);
      assert (events + [e])[1..] == events[1..] + [e];
      assert OnlyMessages(events) <==> OnlyMessages(events[1..]) by { OnlyMessagesTail(events); }
    } else {
      assert !OnlyMessages(events);
    }
  }

  lemma OnlyMessagesTail(events: seq<Buffered>)
    requires events != [] && events[0].Message?
    ensures OnlyMessages(events) <==> OnlyMessages(events[1..])
  {
    if OnlyMessages(events[1..]) {
      forall i | 0 <= i < |events| ensures events[i].Message? {
        assert i > 0 ==> events[i] == events[1..][i - 1];
      }
    }
  }

  lemma {:induction false} CountAtMost(events: seq<Buffered>)
    ensures MessageCount(events) <= |events|
  {
    if events != [] { CountAtMost(events[..|events| - 1]); }
  }

  lemma OneMore(events: seq<Buffered>, e: Buffered)
    ensures MessageCount(events + [e]) == MessageCount(events) + if e.Message? then 1 else 0
    ensures MessageBytes(events + [e]) == MessageBytes(events) + if e.Message? then |e.frame.data| else 0
    ensures OnlyMessages(events + [e]) <==> OnlyMessages(events) && e.Message?
  {
    assert (events + [e])[..|events + [e]| - 1] == events;
    assert forall i :: 0 <= i < |events| ==> (events + [e])[i] == events[i];
    assert (events + [e])[|events|] == e;
  }

  lemma BufferKeeps(maxPayload: nat, k: Connector, e: Buffered, bytes: nat, received: seq<Frame>, terminated: bool)
    requires ConnectorOk(maxPayload, k) && k.authenticated && !k.activated
    requires e.Message? ==> |k.buffer| < MAXIMUM_BUFFERED_EVENTS && bytes == k.bytes + |e.frame.data| <= maxPayload * 4
    requires e.Message? ==> received == k.received + [e.frame]
    requires !e.Message? ==> bytes == k.bytes && k.received <= received
    ensures ConnectorOk(maxPayload, k.(buffer := k.buffer + [e], bytes := bytes, received := received, terminated := terminated))
  {
    LeadOne(k.buffer, e);
    OneMore(k.buffer, e);
    CountAtMost(k.buffer);
    hide Lead, MessageCount, MessageBytes, OnlyMessages;
  }

  lemma ConnectorStep(maxPayload: nat, k: Connector, e: SocketEvent)
    requires ConnectorOk(maxPayload, k)
    ensures ConnectorOk(maxPayload, OnSocket(maxPayload, k, e))
  {
    var t := OnSocket(maxPayload, k, e);
    if k.authenticated && !k.activated && !e.HandshakeFails? {
      BufferKeeps(maxPayload, k, t.buffer[|t.buffer| - 1], t.bytes, t.received, t.terminated);
    }
    hide Lead, MessageCount, MessageBytes, OnlyMessages;
  }

  /** An overflow shows up as the frames that fitted, in order, and then an error. */
  lemma OverflowEndsInError(maxPayload: nat, k: Connector, frame: Frame)
    requires ConnectorOk(maxPayload, k) && k.authenticated && !k.activated && OnlyMessages(k.buffer)
    requires |k.buffer| >= MAXIMUM_BUFFERED_EVENTS || k.bytes + |frame.data| > maxPayload * 4
    ensures var t := OnSocket(maxPayload, k, Arrives(frame, false));
      t.terminated && t.buffer == k.buffer + [ErrorEvent] && Lead(t.buffer) == k.received && t.received == k.received + [frame]
  {
    LeadOne(k.buffer, ErrorEvent);
    hide Lead, MessageCount, MessageBytes, OnlyMessages;
  }

  // ---------- the gateway ----------

  datatype Phase = Authenticating | Connecting | Relaying | Closed

  datatype Stage = Authorizing | Handshaking | Connected | Refused | Active | Over

  /** One token frame and what comes of it. `heard` is a ledger of the frames its upstream socket has delivered. */
  datatype Attempt = Attempt(token: string, stage: Stage, sessionId: string, connector: Connector, heard: seq<Frame>)

  datatype ClientFrame = Ready(sessionId: string) | Relayed(frame: Frame)

  /**
   `registered` are the attempts with a closer in the registry; `unregister` is the one whose closure is kept. Ledgers:
   `authorised` are the attempts whose token was accepted, in order, and `fromClient` the frames sent while relaying.
   */
  datatype Gateway = Gateway(
    phase: Phase,
    aborted: bool,
    timer: bool,
    upstream: Option<nat>,
    unregister: Option<nat>,
    registered: set<nat>,
    attempts: seq<Attempt>,
    authorised: seq<nat>,
    clientOpen: bool,
    toClient: seq<ClientFrame>,
    fromClient: seq<Frame>,
    toUpstream: seq<Frame>)

  function FreshGateway(): Gateway {
    Gateway(Authenticating, false, true, None, None, {}, [], [], true, [], [], [])
  }

  /** Aborting fails every handshake that is under way; its promise is rejected. */
  function AbortOne(a: Attempt): Attempt {
    if a.stage == Handshaking then a.(stage := Refused, connector := FailHandshake(a.connector)) else a
  }

  function AbortAll(attempts: seq<Attempt>): seq<Attempt> {
    seq(|attempts|, i requires 0 <= i < |attempts| => AbortOne(attempts[i]))
  }

  function Shutdown(g: Gateway): Gateway {
    if g.phase == Closed then g
    else
      g.(phase := Closed, timer := false, aborted := true, clientOpen := false,
         attempts := if g.aborted then g.attempts else AbortAll(g.attempts),
         registered := if g.unregister.Some? then g.registered - {g.unregister.value} else g.registered)
  }

  /** forward to the client; `room` says whether the next frame fits the send buffer. */
  function ToClient(g: Gateway, f: ClientFrame, room: nat -> bool): Gateway {
    if !g.clientOpen || !room(|g.toClient|) then Shutdown(g) else g.(toClient := g.toClient + [f])
  }

  function Dispatch(g: Gateway, e: Buffered, room: nat -> bool): Gateway {
    if e.Message? then ToClient(g, Relayed(e.frame), room) else Shutdown(g)
  }

  function DispatchAll(g: Gateway, events: seq<Buffered>, room: nat -> bool): Gateway
    decreases |events|
  {
    if events == [] then g else DispatchAll(Dispatch(g, events[0], room), events[1..], room)
  }

  datatype Event =
    | ClientSends(token: Option<string>, frame: Frame, upstreamTakes: bool)
    | ClientClosing
    | ClientGone
    | AuthTimeout
    | Authorized(attempt: nat, sessionId: string, validTarget: bool)
    | NotAuthorized(attempt: nat)
    | RefusalArrives(attempt: nat)
    | Socket(attempt: nat, event: SocketEvent, room: nat -> bool)
    | ConnectionArrives(attempt: nat, room: nat -> bool)
    | WriteFails
    | SessionEnds(sessionId: string)

  predicate At(g: Gateway, n: nat, stage: Stage) {
    n < |g.attempts| && g.attempts[n].stage == stage
  }

  /** A token is deleted when it is presented, so no two attempts are authorised by the same one. */
  predicate TokenUnused(g: Gateway, n: nat)
    requires n < |g.attempts|
  {
    forall m :: m in g.authorised && m < |g.attempts| ==> g.attempts[m].token != g.attempts[n].token
  }

  /** The registrations of a session. */
  function Closers(g: Gateway, sessionId: string): set<nat> {
    set n | n in g.registered && n < |g.attempts| && g.attempts[n].sessionId == sessionId
  }

  predicate Enabled(g: Gateway, e: Event) {
    match e
    case AuthTimeout => g.timer
    case Authorized(n, _, _) => At(g, n, Authorizing) && TokenUnused(g, n)
    case NotAuthorized(n) => At(g, n, Authorizing)
    case RefusalArrives(n) => At(g, n, Refused)
    case Socket(n, _, _) => At(g, n, Handshaking) || At(g, n, Connected) || At(g, n, Active)
    case ConnectionArrives(n, _) => At(g, n, Connected)
    case SessionEnds(sessionId) => Closers(g, sessionId) != {}
    case _ => true
  }

  function SetAttempt(g: Gateway, n: nat, a: Attempt): Gateway
    requires n < |g.attempts|
  {
    g.(attempts := g.attempts[n := a])
  }

  function DoClientSends(g: Gateway, token: Option<string>, frame: Frame, upstreamTakes: bool): Gateway {
    match g.phase
    case Authenticating =>
      if token.None? then Shutdown(g)
      else g.(attempts := g.attempts + [Attempt(token.value, Authorizing, "", FreshConnector(), [])])
    case Connecting => Shutdown(g)
    case Relaying =>
      if g.upstream.None? then g
      else
        var heard := g.(fromClient := g.fromClient + [frame]);
        if upstreamTakes then heard.(toUpstream := g.toUpstream + [frame]) else Shutdown(heard)
    case Closed => g
  }

  /** The phase becomes connecting even when the connection was closed meanwhile; the connector then refuses at once. */
  function DoAuthorized(g: Gateway, n: nat, sessionId: string, validTarget: bool): Gateway
    requires n < |g.attempts|
  {
    var stage := if validTarget && !g.aborted then Handshaking else Refused;
    SetAttempt(g, n, Attempt(g.attempts[n].token, stage, sessionId, FreshConnector(), [])).(
      phase := Connecting, timer := false, unregister := Some(n), registered := g.registered + {n}, authorised := g.authorised + [n])
  }

  function DoSocket(maxPayload: nat, g: Gateway, n: nat, e: SocketEvent, room: nat -> bool): Gateway
    requires n < |g.attempts|
  {
    var a := g.attempts[n];
    var k := OnSocket(maxPayload, a.connector, e);
    var stage := if a.stage != Handshaking then a.stage
                 else if k.authenticated then Connected
                 else if k.settled then Refused else Handshaking;
    var next := SetAttempt(g, n, a.(stage := stage, connector := k, heard := if e.Arrives? then a.heard + [e.frame] else a.heard));
    if !a.connector.activated then next
    else
      match e
      case Arrives(frame, _) => ToClient(next, Relayed(frame), room)
      case HandshakeFails => next
      case _ => Shutdown(next)
  }

  /** The connection that is handed over, with nothing forwarded yet. */
  function HandedOver(g: Gateway, n: nat): Gateway
    requires n < |g.attempts|
  {
    SetAttempt(g, n, g.attempts[n].(stage := Active, connector := Activated(g.attempts[n].connector))).(upstream := Some(n), phase := Relaying)
  }

  function DoConnectionArrives(g: Gateway, n: nat, room: nat -> bool): Gateway
    requires n < |g.attempts|
  {
    var a := g.attempts[n];
    if g.aborted then SetAttempt(g, n, a.(stage := Over, connector := a.connector.(terminated := true)))
    else DispatchAll(ToClient(HandedOver(g, n), Ready(a.sessionId), room), a.connector.buffer, room)
  }

  /** The registry takes all closers of the session out and calls them; each shuts this connection down. */
  function DoSessionEnds(g: Gateway, sessionId: string): Gateway {
    Shutdown(g.(registered := g.registered - Closers(g, sessionId)))
  }

  function Next(maxPayload: nat, g: Gateway, e: Event): Gateway
    requires Enabled(g, e)
  {
    match e
    case ClientSends(token, frame, upstreamTakes) => DoClientSends(g, token, frame, upstreamTakes)
    case ClientClosing => g.(clientOpen := false)
    case ClientGone => Shutdown(g.(clientOpen := false))
    case AuthTimeout => Shutdown(g)
    case Authorized(n, sessionId, validTarget) => DoAuthorized(g, n, sessionId, validTarget)
    case NotAuthorized(n) => Shutdown(SetAttempt(g, n, g.attempts[n].(stage := Over)))
    case RefusalArrives(n) => Shutdown(SetAttempt(g, n, g.attempts[n].(stage := Over)))
    case Socket(n, event, room) => DoSocket(maxPayload, g, n, event, room)
    case ConnectionArrives(n, room) => DoConnectionArrives(g, n, room)
    case WriteFails => Shutdown(g)
    case SessionEnds(sessionId) => DoSessionEnds(g, sessionId)
  }

  // ---------- what holds with at most one authorised attempt ----------

  ghost predicate AttemptOk(maxPayload: nat, a: Attempt) {
    && ConnectorOk(maxPayload, a.connector)
    && (a.stage == Active <==> a.connector.activated)
    && (a.stage == Connected ==> a.connector.authenticated)
    && (a.stage == Authorizing || a.stage == Handshaking ==> !a.connector.authenticated && !a.connector.settled && a.heard == [])
    && (a.connector.authenticated ==> a.heard != [] && a.connector.received == a.heard[1..])
  }

  function Prefixed(sessionId: string, frames: seq<Frame>): seq<ClientFrame> {
    [Ready(sessionId)] + Wrapped(frames)
  }

  function Wrapped(frames: seq<Frame>): seq<ClientFrame> {
    seq(|frames|, i requires 0 <= i < |frames| => Relayed(frames[i]))
  }

  /** Ready first and once, then the frames received so far from the first on, without gap; all of them while the client is open. */
  ghost predicate Relays(g: Gateway, a: Attempt) {
    && (a.stage != Active ==> g.toClient == [])
    && g.toClient <= Prefixed(a.sessionId, a.connector.received)
    && (a.stage == Active && g.clientOpen ==> g.toClient == Prefixed(a.sessionId, a.connector.received))
  }

  /** The registration is the one whose closure is kept, and a closed connection has none. */
  ghost predicate RegistrationOk(g: Gateway) {
    && (g.authorised == [] ==> g.registered == {} && g.unregister == None && (g.phase == Authenticating || g.phase == Closed))
    && (g.authorised != [] ==> g.registered <= {g.authorised[0]} && g.unregister == Some(g.authorised[0]))
    && (g.phase == Closed ==> g.registered == {} && !g.clientOpen && g.aborted)
    && (g.aborted ==> !g.clientOpen && g.phase != Relaying)
    && (g.aborted && g.authorised != [] ==> !At(g, g.authorised[0], Handshaking))
    && (g.aborted && g.phase != Closed ==> g.authorised != [] && At(g, g.authorised[0], Refused))
  }

  /** An attempt whose token was not, or not yet, accepted does nothing. */
  ghost predicate OthersIdle(g: Gateway) {
    forall m :: 0 <= m < |g.attempts| && m !in g.authorised ==> g.attempts[m].stage == Authorizing || g.attempts[m].stage == Over
  }

  ghost predicate RelayOk(maxPayload: nat, g: Gateway) {
    && |g.authorised| <= 1
    && (g.authorised == [] ==> g.toClient == [])
    && (g.authorised != [] ==>
          g.authorised[0] < |g.attempts| && g.attempts[g.authorised[0]].stage != Authorizing
          && AttemptOk(maxPayload, g.attempts[g.authorised[0]]) && Relays(g, g.attempts[g.authorised[0]]))
    && OthersIdle(g)
    && RegistrationOk(g)
    && g.toUpstream <= g.fromClient && (!g.aborted ==> g.toUpstream == g.fromClient)
  }

  lemma ShutdownKeeps(maxPayload: nat, g: Gateway)
    requires RelayOk(maxPayload, g)
    ensures RelayOk(maxPayload, Shutdown(g)) && Shutdown(g).phase == Closed && Shutdown(g).toClient == g.toClient
  {
    hide Lead, MessageCount, MessageBytes, OnlyMessages, Prefixed;
    if g.authorised != [] {
      assert AbortAll(g.attempts)[g.authorised[0]] == AbortOne(g.attempts[g.authorised[0]]);
    }
  }

  /** Shutting down does not look at the frames. */
  lemma ShutdownApart(g: Gateway, toClient: seq<ClientFrame>)
    ensures Shutdown(g.(toClient := toClient)) == Shutdown(g).(toClient := toClient)
    ensures Shutdown(Shutdown(g)) == Shutdown(g) && Shutdown(g).toClient == g.toClient
  {
  }

  /** Whatever is dispatched only adds frames, and ends the connection or not. */
  lemma {:induction false} DispatchEither(g: Gateway, events: seq<Buffered>, room: nat -> bool)
    ensures var t := DispatchAll(g, events, room); t == g.(toClient := t.toClient) || t == Shutdown(g).(toClient := t.toClient)
    decreases |events|
  {
    if events != [] {
      var u := Dispatch(g, events[0], room);
      DispatchEither(u, events[1..], room);
      ShutdownApart(g, u.toClient);
      hide Shutdown;
    }
  }

  /** A hand-over forwards the lead of the buffer, as far as there is room. */
  lemma {:induction false} DispatchShape(g: Gateway, events: seq<Buffered>, room: nat -> bool)
    requires g.phase == Closed ==> !g.clientOpen
    ensures var t := DispatchAll(g, events, room);
      && g.toClient <= t.toClient <= g.toClient + Wrapped(Lead(events))
      && (t.clientOpen ==> g.clientOpen && OnlyMessages(events) && t.toClient == g.toClient + Wrapped(Lead(events)))
    decreases |events|
  {
    if events != [] {
      var u := Dispatch(g, events[0], room);
      DispatchShape(u, events[1..], room);
      ClosedStays(u, events[1..], room);
      if events[0].Message? {
        OnlyMessagesTail(events);
        WrappedCons(events[0].frame, Lead(events[1..]));
        var rest := Wrapped(Lead(events[1..]));
        assert g.toClient + ([Relayed(events[0].frame)] + rest) == g.toClient + [Relayed(events[0].frame)] + rest;
        assert g.toClient <= g.toClient + ([Relayed(events[0].frame)] + rest);
      } else {
        assert !OnlyMessages(events);
      }
    }
  }

  lemma WrappedCons(frame: Frame, frames: seq<Frame>)
    ensures Wrapped([frame] + frames) == [Relayed(frame)] + Wrapped(frames)
  {
  }

  /** Once closed, nothing more reaches the client. */
  lemma {:induction false} ClosedStays(g: Gateway, events: seq<Buffered>, room: nat -> bool)
    ensures g.phase == Closed && !g.clientOpen ==> DispatchAll(g, events, room) == g
    decreases |events|
  {
    if events != [] {
      ClosedStays(Dispatch(g, events[0], room), events[1..], room);
    }
  }

  lemma HandOverKeeps(maxPayload: nat, g: Gateway, n: nat, room: nat -> bool)
    requires RelayOk(maxPayload, g) && At(g, n, Connected)
    ensures RelayOk(maxPayload, DoConnectionArrives(g, n, room))
  {
    assert g.authorised != [] && n == g.authorised[0] by { hide AttemptOk; }
    if g.aborted {
      LateKeeps(maxPayload, g, n, room);
    } else {
      ConnectedShape(maxPayload, g, n);
      HandOverShape(g, n, room);
      NoHandshakes(g, n);
      HandedAttempt(maxPayload, g.attempts[n]);
      hide *;
      HandedSame(g, n);
      HandedKeeps(maxPayload, g, n, DoConnectionArrives(g, n, room));
    }
  }

  lemma HandedSame(g: Gateway, n: nat)
    requires n < |g.attempts|
    ensures var a, b := g.attempts[n], HandedOver(g, n).attempts[n];
      b == a.(stage := Active, connector := Activated(a.connector)) && b.sessionId == a.sessionId && b.connector.received == a.connector.received
  {
  }

  lemma ConnectedShape(maxPayload: nat, g: Gateway, n: nat)
    requires RelayOk(maxPayload, g) && At(g, n, Connected) && g.authorised == [n]
    ensures g.toClient == [] && OthersIdle(g) && AttemptOk(maxPayload, g.attempts[n])
    ensures var k := g.attempts[n].connector;
      Lead(k.buffer) <= k.received && (OnlyMessages(k.buffer) ==> Lead(k.buffer) == k.received)
  {
    hide Lead, MessageCount, MessageBytes, OnlyMessages, Prefixed;
  }

  /** A connection that comes back after the abort is terminated. */
  lemma LateKeeps(maxPayload: nat, g: Gateway, n: nat, room: nat -> bool)
    requires RelayOk(maxPayload, g) && At(g, n, Connected) && g.authorised == [n] && g.aborted
    ensures RelayOk(maxPayload, DoConnectionArrives(g, n, room))
  {
    hide Lead, MessageCount, MessageBytes, OnlyMessages, Prefixed;
  }

  lemma HandedAttempt(maxPayload: nat, a: Attempt)
    requires AttemptOk(maxPayload, a) && a.stage == Connected
    ensures AttemptOk(maxPayload, a.(stage := Active, connector := Activated(a.connector)))
  {
    assert MessageCount([]) == 0 && MessageBytes([]) == 0;
    hide Lead, OnlyMessages;
  }

  lemma HandedKeeps(maxPayload: nat, g: Gateway, n: nat, t: Gateway)
    requires RelayOk(maxPayload, g) && At(g, n, Connected) && g.authorised == [n] && !g.aborted
    requires AttemptOk(maxPayload, HandedOver(g, n).attempts[n])
    requires AbortAll(HandedOver(g, n).attempts) == HandedOver(g, n).attempts
    requires t == HandedOver(g, n).(toClient := t.toClient) || t == Shutdown(HandedOver(g, n)).(toClient := t.toClient)
    requires var a := HandedOver(g, n).attempts[n];
      t.toClient <= Prefixed(a.sessionId, a.connector.received)
      && (t.clientOpen ==> t.toClient == Prefixed(a.sessionId, a.connector.received))
    ensures RelayOk(maxPayload, t)
  {
    hide AttemptOk, Prefixed, AbortAll;
  }

  /** Nothing is left to abort after the hand-over. */
  lemma NoHandshakes(g: Gateway, n: nat)
    requires OthersIdle(g) && n < |g.attempts| && forall m :: m in g.authorised ==> m == n
    ensures AbortAll(HandedOver(g, n).attempts) == HandedOver(g, n).attempts
  {
  }

  /** The hand-over: ready, then the buffer, into whatever room the client has. */
  lemma HandOverShape(g: Gateway, n: nat, room: nat -> bool)
    requires n < |g.attempts| && g.toClient == [] && !g.aborted
    requires var k := g.attempts[n].connector;
      Lead(k.buffer) <= k.received && (OnlyMessages(k.buffer) ==> Lead(k.buffer) == k.received)
    ensures var t := DoConnectionArrives(g, n, room);
      && t.toClient <= Prefixed(g.attempts[n].sessionId, g.attempts[n].connector.received)
      && (t.clientOpen ==> t.toClient == Prefixed(g.attempts[n].sessionId, g.attempts[n].connector.received))
      && (t == HandedOver(g, n).(toClient := t.toClient) || t == Shutdown(HandedOver(g, n)).(toClient := t.toClient))
  {
    var a := g.attempts[n];
    var relaying := HandedOver(g, n);
    var buffer := a.connector.buffer;
    var u := ToClient(relaying, Ready(a.sessionId), room);
    DispatchShape(u, buffer, room);
    DispatchEither(u, buffer, room);
    ShutdownApart(relaying, u.toClient);
    if u.phase == Closed {
      ClosedStays(u, buffer, room);
    } else {
      var lead := Wrapped(Lead(buffer));
      assert lead <= Wrapped(a.connector.received);
      assert [Ready(a.sessionId)] + lead <= Prefixed(a.sessionId, a.connector.received);
      hide Wrapped, Lead, OnlyMessages, DispatchAll;
    }
  }

  lemma SocketKeeps(maxPayload: nat, g: Gateway, n: nat, e: SocketEvent, room: nat -> bool)
    requires RelayOk(maxPayload, g) && Enabled(g, Socket(n, e, room))
    ensures RelayOk(maxPayload, DoSocket(maxPayload, g, n, e, room))
  {
    assert g.authorised != [] && n == g.authorised[0];
    ConnectorStep(maxPayload, g.attempts[n].connector, e);
    hide Lead, MessageCount, MessageBytes, OnlyMessages, Wrapped, ConnectorOk, OnSocket;
    if !g.attempts[n].connector.activated {
      PassiveKeeps(maxPayload, g, n, e, room);
    } else {
      ActiveKeeps(maxPayload, g, n, e, room);
    }
  }

  /** Before activation: what a socket event does to the connector's progress and to the frames it has taken. */
  lemma PassiveShape(maxPayload: nat, k: Connector, e: SocketEvent)
    requires !k.activated && (k.authenticated ==> k.settled) && (!k.authenticated ==> k.received == [])
    ensures var t := OnSocket(maxPayload, k, e);
      && !t.activated && (k.authenticated ==> t.authenticated) && (t.authenticated ==> t.settled)
      && (!k.authenticated && t.authenticated ==> e.Arrives? && t.received == [])
      && (k.authenticated ==> t.received == if e.Arrives? then k.received + [e.frame] else k.received)
      && (e.Arrives? ==> t.settled)
  {
  }

  /** The attempt after a socket event before activation. */
  function AfterSocket(maxPayload: nat, a: Attempt, e: SocketEvent): Attempt {
    var k := OnSocket(maxPayload, a.connector, e);
    a.(stage := if a.stage != Handshaking then a.stage
                else if k.authenticated then Connected
                else if k.settled then Refused else Handshaking,
       connector := k,
       heard := if e.Arrives? then a.heard + [e.frame] else a.heard)
  }

  lemma PassiveAttempt(maxPayload: nat, a: Attempt, e: SocketEvent)
    requires AttemptOk(maxPayload, a) && !a.connector.activated && (a.stage == Handshaking || a.stage == Connected)
    requires ConnectorOk(maxPayload, OnSocket(maxPayload, a.connector, e))
    ensures AttemptOk(maxPayload, AfterSocket(maxPayload, a, e)) && AfterSocket(maxPayload, a, e).stage != Active
    ensures AfterSocket(maxPayload, a, e).stage == Handshaking ==> a.stage == Handshaking
    ensures AfterSocket(maxPayload, a, e).stage != Authorizing
  {
    var k := a.connector;
    assert (k.authenticated ==> k.settled) && (!k.authenticated ==> k.received == []);
    PassiveShape(maxPayload, k, e);
    hide ConnectorOk, OnSocket;
    var heard := AfterSocket(maxPayload, a, e).heard;
    assert e.Arrives? && k.authenticated ==> heard[1..] == a.heard[1..] + [e.frame];
    assert e.Arrives? && !k.authenticated && a.heard == [] ==> heard[1..] == [];
  }

  lemma PassiveKeeps(maxPayload: nat, g: Gateway, n: nat, e: SocketEvent, room: nat -> bool)
    requires RelayOk(maxPayload, g) && Enabled(g, Socket(n, e, room)) && g.authorised == [n] && !g.attempts[n].connector.activated
    requires ConnectorOk(maxPayload, OnSocket(maxPayload, g.attempts[n].connector, e))
    ensures RelayOk(maxPayload, DoSocket(maxPayload, g, n, e, room))
  {
    var a := g.attempts[n];
    PassiveAttempt(maxPayload, a, e);
    assert DoSocket(maxPayload, g, n, e, room) == SetAttempt(g, n, AfterSocket(maxPayload, a, e)) by { hide OnSocket, RelayOk; }
    assert AfterSocket(maxPayload, a, e).sessionId == a.sessionId by { hide OnSocket; }
    assert g.toClient == [] by { hide ConnectorOk; }
    hide AttemptOk, OnSocket, Prefixed, AfterSocket, ConnectorOk, DoSocket;
    ReplacedKeeps(maxPayload, g, n, AfterSocket(maxPayload, a, e));
  }

  /** An attempt that is not handed over yet may go on. */
  lemma ReplacedKeeps(maxPayload: nat, g: Gateway, n: nat, a: Attempt)
    requires RelayOk(maxPayload, g) && g.authorised == [n] && g.toClient == []
    requires AttemptOk(maxPayload, a) && a.stage != Active && a.stage != Authorizing
    requires (a.stage == Handshaking ==> At(g, n, Handshaking)) && !At(g, n, Refused)
    ensures RelayOk(maxPayload, SetAttempt(g, n, a))
  {
    hide AttemptOk, Prefixed;
  }

  lemma ActiveKeeps(maxPayload: nat, g: Gateway, n: nat, e: SocketEvent, room: nat -> bool)
    requires RelayOk(maxPayload, g) && At(g, n, Active) && g.authorised == [n]
    requires ConnectorOk(maxPayload, OnSocket(maxPayload, g.attempts[n].connector, e))
    ensures RelayOk(maxPayload, DoSocket(maxPayload, g, n, e, room))
  {
    var a := g.attempts[n];
    var k := OnSocket(maxPayload, a.connector, e);
    assert a.connector.activated && a.connector.authenticated && a.connector.settled;
    assert k == if e.Arrives? then a.connector.(received := a.connector.received + [e.frame]) else a.connector;
    hide ConnectorOk, OnSocket;
    var next := SetAttempt(g, n, a.(connector := k, heard := if e.Arrives? then a.heard + [e.frame] else a.heard));
    assert AbortAll(next.attempts) == next.attempts;
    if e.Arrives? {
      WrappedSnoc(a.connector.received, e.frame);
      hide Wrapped;
      assert Prefixed(a.sessionId, k.received) == Prefixed(a.sessionId, a.connector.received) + [Relayed(e.frame)];
    }
    hide Prefixed;
  }

  lemma WrappedSnoc(frames: seq<Frame>, frame: Frame)
    ensures Wrapped(frames + [frame]) == Wrapped(frames) + [Relayed(frame)]
  {
  }

  lemma AuthorizedKeeps(maxPayload: nat, g: Gateway, n: nat, sessionId: string, validTarget: bool)
    requires RelayOk(maxPayload, g) && At(g, n, Authorizing) && g.authorised == []
    ensures RelayOk(maxPayload, DoAuthorized(g, n, sessionId, validTarget))
  {
    assert MessageCount([]) == 0 && MessageBytes([]) == 0;
  }

  lemma SubmitKeeps(maxPayload: nat, g: Gateway, token: Option<string>, frame: Frame, upstreamTakes: bool)
    requires RelayOk(maxPayload, g)
    ensures RelayOk(maxPayload, DoClientSends(g, token, frame, upstreamTakes))
  {
    ShutdownKeeps(maxPayload, g);
    if g.phase == Relaying { LastFrameLost(g, frame); }
    hide AttemptOk, Prefixed, Shutdown;
  }

  /** The frame that could not be forwarded is the last one heard. */
  lemma LastFrameLost(g: Gateway, frame: Frame)
    requires g.phase != Closed
    ensures Shutdown(g.(fromClient := g.fromClient + [frame])) == Shutdown(g).(fromClient := g.fromClient + [frame])
    ensures Shutdown(g).aborted && Shutdown(g).fromClient == g.fromClient
  {
  }

  lemma OverKeeps(maxPayload: nat, g: Gateway, n: nat)
    requires RelayOk(maxPayload, g) && (At(g, n, Authorizing) || At(g, n, Refused))
    ensures RelayOk(maxPayload, Shutdown(SetAttempt(g, n, g.attempts[n].(stage := Over))))
  {
    var u := SetAttempt(g, n, g.attempts[n].(stage := Over));
    hide ConnectorOk, Prefixed;
    if g.aborted && g.phase != Closed {
    } else {
      ShutdownKeeps(maxPayload, u);
    }
  }

  lemma EndsKeeps(maxPayload: nat, g: Gateway, sessionId: string)
    requires RelayOk(maxPayload, g)
    ensures RelayOk(maxPayload, DoSessionEnds(g, sessionId))
  {
    var u := g.(registered := g.registered - Closers(g, sessionId));
    assert RelayOk(maxPayload, u) by { hide AttemptOk, Prefixed, Closers; }
    ShutdownKeeps(maxPayload, u);
  }

  lemma ClosingKeeps(maxPayload: nat, g: Gateway)
    requires RelayOk(maxPayload, g)
    ensures RelayOk(maxPayload, g.(clientOpen := false))
  {
    hide ConnectorOk, Prefixed;
  }

  /** The hypothesis: the client has no second token accepted on this connection. */
  predicate OneAccepted(g: Gateway, e: Event) {
    e.Authorized? ==> g.authorised == []
  }

  lemma RelayStep(maxPayload: nat, g: Gateway, e: Event)
    requires RelayOk(maxPayload, g) && Enabled(g, e) && OneAccepted(g, e)
    ensures RelayOk(maxPayload, Next(maxPayload, g, e))
  {
    hide RelayOk, DoSocket, DoConnectionArrives, DoAuthorized, DoClientSends, DoSessionEnds, Shutdown, TokenUnused, Closers;
    match e
    case ClientSends(token, frame, upstreamTakes) => SubmitKeeps(maxPayload, g, token, frame, upstreamTakes);
    case ClientClosing => ClosingKeeps(maxPayload, g);
    case ClientGone =>
      ClosingKeeps(maxPayload, g);
      ShutdownKeeps(maxPayload, g.(clientOpen := false));
    case AuthTimeout => ShutdownKeeps(maxPayload, g);
    case Authorized(n, sessionId, validTarget) => AuthorizedKeeps(maxPayload, g, n, sessionId, validTarget);
    case NotAuthorized(n) => OverKeeps(maxPayload, g, n);
    case RefusalArrives(n) => OverKeeps(maxPayload, g, n);
    case Socket(n, event, room) => SocketKeeps(maxPayload, g, n, event, room);
    case ConnectionArrives(n, room) => HandOverKeeps(maxPayload, g, n, room);
    case WriteFails => ShutdownKeeps(maxPayload, g);
    case SessionEnds(sessionId) => EndsKeeps(maxPayload, g, sessionId);
  }

  // ---------- whole runs ----------

  ghost predicate Legal(maxPayload: nat, g: Gateway, es: seq<Event>)
    decreases |es|
  {
    es == [] || (Enabled(g, es[0]) && Legal(maxPayload, Next(maxPayload, g, es[0]), es[1..]))
  }

  ghost function Exec(maxPayload: nat, g: Gateway, es: seq<Event>): Gateway
    requires Legal(maxPayload, g, es)
    decreases |es|
  {
    if es == [] then g else Exec(maxPayload, Next(maxPayload, g, es[0]), es[1..])
  }

  lemma AuthorisedGrows(maxPayload: nat, g: Gateway, e: Event)
    requires Enabled(g, e)
    ensures Next(maxPayload, g, e).authorised == if e.Authorized? then g.authorised + [e.attempt] else g.authorised
  {
    hide AbortAll, OnSocket, TokenUnused, DispatchAll;
    if e.ConnectionArrives? && !g.aborted {
      DispatchAuthorised(ToClient(HandedOver(g, e.attempt), Ready(g.attempts[e.attempt].sessionId), e.room),
                         g.attempts[e.attempt].connector.buffer, e.room);
    }
  }

  lemma {:induction false} DispatchAuthorised(g: Gateway, events: seq<Buffered>, room: nat -> bool)
    ensures DispatchAll(g, events, room).authorised == g.authorised
    decreases |events|
  {
    if events != [] { DispatchAuthorised(Dispatch(g, events[0], room), events[1..], room); }
  }

  /** A run that ends with at most one accepted token has had at most one all along. */
  lemma {:induction false} RelayRun(maxPayload: nat, g: Gateway, es: seq<Event>)
    requires Legal(maxPayload, g, es) && RelayOk(maxPayload, g)
    requires |Exec(maxPayload, g, es).authorised| <= 1
    ensures RelayOk(maxPayload, Exec(maxPayload, g, es))
    decreases |es|
  {
    hide RelayOk, Next, Enabled;
    if es != [] {
      AuthorisedGrows(maxPayload, g, es[0]);
      AuthorisedOnlyGrows(maxPayload, Next(maxPayload, g, es[0]), es[1..]);
      RelayStep(maxPayload, g, es[0]);
      RelayRun(maxPayload, Next(maxPayload, g, es[0]), es[1..]);
    }
  }

  lemma {:induction false} AuthorisedOnlyGrows(maxPayload: nat, g: Gateway, es: seq<Event>)
    requires Legal(maxPayload, g, es)
    ensures |g.authorised| <= |Exec(maxPayload, g, es).authorised|
    decreases |es|
  {
    hide Next, Enabled;
    if es != [] {
      AuthorisedGrows(maxPayload, g, es[0]);
      AuthorisedOnlyGrows(maxPayload, Next(maxPayload, g, es[0]), es[1..]);
    }
  }

  /** A run, with any number of token frames, in which at most one token was accepted. */
  ghost predicate SingleRun(maxPayload: nat, es: seq<Event>) {
    Legal(maxPayload, FreshGateway(), es) && |Exec(maxPayload, FreshGateway(), es).authorised| <= 1
  }

  /**
   The relay theorem. In every run in which at most one token was accepted, and whenever the hand-over happens, the client
   has received nothing, or `ready` once and first and then the upstream's frames from the first on, in order and without
   gap or repeat.
   */
  lemma RelayPrefix(maxPayload: nat, es: seq<Event>)
    requires SingleRun(maxPayload, es)
    ensures var g := Exec(maxPayload, FreshGateway(), es);
      && (g.toClient != [] ==>
            g.authorised != [] && g.authorised[0] < |g.attempts|
            && g.toClient <= Prefixed(g.attempts[g.authorised[0]].sessionId, g.attempts[g.authorised[0]].connector.received))
      && (forall i :: 1 <= i < |g.toClient| ==> g.toClient[i].Relayed?)
  {
    RelayRun(maxPayload, FreshGateway(), es);
    var g := Exec(maxPayload, FreshGateway(), es);
    hide Exec, Legal, AttemptOk, RegistrationOk, OthersIdle;
    if g.authorised != [] {
      var a := g.attempts[g.authorised[0]];
      var all := Prefixed(a.sessionId, a.connector.received);
      forall i | 1 <= i < |g.toClient| ensures g.toClient[i].Relayed? {
        assert all[i] == Wrapped(a.connector.received)[i - 1];
      }
    }
  }

  /** The other way: the upstream has an in-order prefix of what the client sent while relaying, all of it until the end. */
  lemma ClientFramesInOrder(maxPayload: nat, es: seq<Event>)
    requires SingleRun(maxPayload, es)
    ensures var g := Exec(maxPayload, FreshGateway(), es);
      g.toUpstream <= g.fromClient && (!g.aborted ==> g.toUpstream == g.fromClient)
  {
    RelayRun(maxPayload, FreshGateway(), es);
    hide Exec, Legal, AttemptOk, RegistrationOk, Relays, OthersIdle;
  }

  /** While the client is open and the hand-over is done, nothing is missing. */
  lemma NothingWithheld(maxPayload: nat, es: seq<Event>, n: nat)
    requires SingleRun(maxPayload, es)
    ensures var g := Exec(maxPayload, FreshGateway(), es);
      At(g, n, Active) && g.clientOpen ==> g.toClient == Prefixed(g.attempts[n].sessionId, g.attempts[n].connector.received)
  {
    RelayRun(maxPayload, FreshGateway(), es);
    hide Exec, Legal, AttemptOk, RegistrationOk, Prefixed;
  }

  /** The hand-off buffer is bounded, in every such run. */
  lemma BufferBounded(maxPayload: nat, es: seq<Event>, n: nat)
    requires SingleRun(maxPayload, es)
    ensures var g := Exec(maxPayload, FreshGateway(), es);
      n in g.authorised && n < |g.attempts| ==>
        var k := g.attempts[n].connector;
        MessageCount(k.buffer) <= MAXIMUM_BUFFERED_EVENTS && MessageBytes(k.buffer) <= 4 * maxPayload
  {
    RelayRun(maxPayload, FreshGateway(), es);
    hide Exec, Legal, Relays, RegistrationOk, Lead, OnlyMessages, MessageCount, MessageBytes, OthersIdle;
  }

  /**
   Closed is left only by an authorisation that was under way, and only until the refused connect comes back; otherwise a
   closed connection holds no registration, and nothing is sent to its client again.
   */
  lemma ClosedForGood(maxPayload: nat, es: seq<Event>)
    requires SingleRun(maxPayload, es)
    ensures var g := Exec(maxPayload, FreshGateway(), es);
      && (g.phase == Closed ==> g.registered == {} && !g.clientOpen)
      && (g.aborted && g.phase != Closed ==> g.authorised != [] && At(g, g.authorised[0], Refused) && !g.clientOpen)
      && |g.registered| <= 1
  {
    RelayRun(maxPayload, FreshGateway(), es);
    hide Exec, Legal, Relays, AttemptOk, OthersIdle;
    var g := Exec(maxPayload, FreshGateway(), es);
    if g.authorised != [] { AtMostOne(g.registered, g.authorised[0]); }
  }

  lemma AtMostOne(s: set<nat>, n: nat)
    requires s <= {n}
    ensures |s| <= 1
  {
    if n in s { assert s == {n}; } else { assert s == {}; }
  }

  // ---------- any number of accepted tokens ----------

  function Readies(frames: seq<ClientFrame>): nat {
    if frames == [] then 0 else Readies(frames[..|frames| - 1]) + if frames[|frames| - 1].Ready? then 1 else 0
  }

  ghost predicate SomeActive(g: Gateway) {
    exists m :: At(g, m, Active)
  }

  /** The registrations that closing the connection will not give up. */
  function Stranded(g: Gateway): set<nat> {
    if g.unregister.Some? then g.registered - {g.unregister.value} else g.registered
  }

  /** What holds in every run, whatever the client sends. */
  ghost predicate GatewayOk(g: Gateway) {
    && (forall n :: n in g.authorised ==> n < |g.attempts|)
    && (forall n :: 0 <= n < |g.attempts| ==> (n in g.authorised <==> Accepted(g, n)))
    && (forall n :: n in g.registered ==> n in g.authorised)
    && g.unregister == (if g.authorised == [] then None else Some(g.authorised[|g.authorised| - 1]))
    && (g.phase == Closed ==> g.registered == Stranded(g) && g.aborted)
    && (g.aborted ==> !g.clientOpen)
    && (!g.aborted ==> (SomeActive(g) <==> Readies(g.toClient) > 0))
  }

  /** Every attempt past the check of its token, and some that are over, had it accepted. */
  ghost predicate Accepted(g: Gateway, n: nat)
    requires n < |g.attempts|
  {
    g.attempts[n].stage != Authorizing && (g.attempts[n].stage == Over ==> n in g.authorised)
  }

  lemma ReadiesOne(frames: seq<ClientFrame>, f: ClientFrame)
    ensures Readies(frames + [f]) == Readies(frames) + if f.Ready? then 1 else 0
  {
    assert (frames + [f])[..|frames + [f]| - 1] == frames;
  }

  lemma {:induction false} ReadiesWrapped(frames: seq<ClientFrame>, more: seq<Frame>)
    ensures Readies(frames + Wrapped(more)) == Readies(frames)
    decreases |more|
  {
    if more == [] {
      assert frames + Wrapped(more) == frames;
    } else {
      var n := |more| - 1;
      ReadiesWrapped(frames, more[..n]);
      assert frames + Wrapped(more) == (frames + Wrapped(more[..n])) + [Relayed(more[n])];
      ReadiesOne(frames + Wrapped(more[..n]), Relayed(more[n]));
    }
  }

  /** A run of relayed frames, cut short anywhere, adds no `ready`. */
  lemma ReadiesBetween(frames: seq<ClientFrame>, after: seq<ClientFrame>, more: seq<Frame>)
    requires frames <= after <= frames + Wrapped(more)
    ensures Readies(after) == Readies(frames)
  {
    var k := |after| - |frames|;
    assert after == frames + Wrapped(more[..k]);
    ReadiesWrapped(frames, more[..k]);
  }

  lemma ShutdownGateway(g: Gateway)
    requires GatewayOk(g)
    ensures GatewayOk(Shutdown(g)) && Shutdown(g).toClient == g.toClient
  {
    hide Readies;
    var t := Shutdown(g);
    forall n | 0 <= n < |g.attempts| ensures |t.attempts| == |g.attempts| && (Accepted(t, n) <==> Accepted(g, n)) {
      assert g.phase != Closed && !g.aborted ==> t.attempts[n] == AbortOne(g.attempts[n]);
    }
  }

  /** A step that leaves the ledger, the registrations and the stages that matter as they are. */
  lemma SameGateway(g: Gateway, t: Gateway)
    requires GatewayOk(g)
    requires t.authorised == g.authorised && t.registered <= g.registered && t.unregister == g.unregister && |g.attempts| <= |t.attempts|
    requires forall n :: 0 <= n < |g.attempts| ==> (Accepted(t, n) <==> Accepted(g, n)) && (t.attempts[n].stage == Active <==> g.attempts[n].stage == Active)
    requires forall n :: |g.attempts| <= n < |t.attempts| ==> t.attempts[n].stage == Authorizing
    requires t.phase == g.phase && t.aborted == g.aborted && (t.clientOpen ==> g.clientOpen) && Readies(t.toClient) == Readies(g.toClient)
    requires t.phase == Closed ==> t.registered == g.registered
    ensures GatewayOk(t)
  {
    hide Readies;
    assert SomeActive(t) <==> SomeActive(g) by {
      if SomeActive(t) { var m :| At(t, m, Active); assert At(g, m, Active); }
      if SomeActive(g) { var m :| At(g, m, Active); assert At(t, m, Active); }
    }
    hide SomeActive;
  }

  lemma SocketGateway(maxPayload: nat, g: Gateway, n: nat, e: SocketEvent, room: nat -> bool)
    requires GatewayOk(g) && Enabled(g, Socket(n, e, room))
    ensures GatewayOk(DoSocket(maxPayload, g, n, e, room)) && Readies(DoSocket(maxPayload, g, n, e, room).toClient) == Readies(g.toClient)
  {
    var a := g.attempts[n];
    var next := SetAttempt(g, n, AfterSocket(maxPayload, a, e));
    StagesApart(maxPayload, a, e);
    hide Readies, OnSocket, AfterSocket;
    SameGateway(g, next);
    ShutdownGateway(next);
    SocketForwards(maxPayload, g, n, e, room, next);
    if e.Arrives? {
      ReadiesOne(next.toClient, Relayed(e.frame));
      var more := next.(toClient := next.toClient + [Relayed(e.frame)]);
      SameGateway(next, more);
    }
  }

  lemma StagesApart(maxPayload: nat, a: Attempt, e: SocketEvent)
    requires a.stage == Handshaking || a.stage == Connected || a.stage == Active
    ensures var t := AfterSocket(maxPayload, a, e);
      t.stage != Authorizing && t.stage != Over && (t.stage == Active <==> a.stage == Active)
  {
    hide OnSocket;
  }

  lemma SocketForwards(maxPayload: nat, g: Gateway, n: nat, e: SocketEvent, room: nat -> bool, next: Gateway)
    requires n < |g.attempts| && next == SetAttempt(g, n, AfterSocket(maxPayload, g.attempts[n], e))
    ensures var t := DoSocket(maxPayload, g, n, e, room);
      t == next || t == Shutdown(next) || (e.Arrives? && t == next.(toClient := next.toClient + [Relayed(e.frame)]))
  {
    hide OnSocket, Shutdown;
  }

  lemma AuthorizedGateway(g: Gateway, n: nat, sessionId: string, validTarget: bool)
    requires GatewayOk(g) && At(g, n, Authorizing)
    ensures GatewayOk(DoAuthorized(g, n, sessionId, validTarget))
  {
    hide Readies;
    var t := DoAuthorized(g, n, sessionId, validTarget);
    assert SomeActive(t) <==> SomeActive(g) by {
      if SomeActive(t) { var m :| At(t, m, Active); assert At(g, m, Active); }
      if SomeActive(g) { var m :| At(g, m, Active); assert At(t, m, Active); }
    }
    hide SomeActive;
    forall m | 0 <= m < |t.attempts| ensures m in t.authorised <==> Accepted(t, m) {
      if m != n { assert Accepted(t, m) <==> Accepted(g, m); }
    }
  }

  lemma OverGateway(g: Gateway, n: nat)
    requires GatewayOk(g) && (At(g, n, Authorizing) || At(g, n, Refused))
    ensures GatewayOk(Shutdown(SetAttempt(g, n, g.attempts[n].(stage := Over))))
  {
    var u := SetAttempt(g, n, g.attempts[n].(stage := Over));
    assert n !in g.authorised ==> g.attempts[n].stage == Authorizing;
    hide Readies;
    SameGateway(g, u);
    ShutdownGateway(u);
  }

  /** The hand-over with its ready: one more is active. */
  lemma ReadyGateway(g: Gateway, n: nat, f: ClientFrame)
    requires GatewayOk(g) && At(g, n, Connected) && !g.aborted && f.Ready?
    ensures GatewayOk(HandedOver(g, n).(toClient := g.toClient + [f]))
  {
    ReadiesOne(g.toClient, f);
    hide Readies;
    var v := HandedOver(g, n).(toClient := g.toClient + [f]);
    assert At(v, n, Active);
    hide SomeActive;
    assert SomeActive(v) by { ActiveAt(v, n); }
    forall m | 0 <= m < |v.attempts| ensures m in v.authorised <==> Accepted(v, m) {
      assert m != n ==> (Accepted(v, m) <==> Accepted(g, m));
      assert m == n ==> Accepted(g, n);
    }
  }

  lemma ActiveAt(g: Gateway, n: nat)
    requires At(g, n, Active)
    ensures SomeActive(g)
  {
  }

  /** And without it, when there was no room: the connection is shut down. */
  lemma HandedGateway(g: Gateway, n: nat, f: ClientFrame)
    requires GatewayOk(g) && At(g, n, Connected) && !g.aborted && f.Ready?
    ensures GatewayOk(HandedOver(g, n).(toClient := g.toClient + [f]))
    ensures GatewayOk(Shutdown(HandedOver(g, n)))
  {
    var u := HandedOver(g, n);
    var v := u.(toClient := g.toClient + [f]);
    ReadyGateway(g, n, f);
    ShutdownGateway(v);
    ShutdownApart(u, v.toClient);
    assert Shutdown(u) == Shutdown(v).(toClient := g.toClient);
    AbortedFrames(Shutdown(v), g.toClient);
    hide GatewayOk, HandedOver, Shutdown, Readies;
  }

  /** Once aborted, the count of frames says nothing any more. */
  lemma AbortedFrames(g: Gateway, toClient: seq<ClientFrame>)
    requires GatewayOk(g) && g.aborted
    ensures GatewayOk(g.(toClient := toClient))
  {
    hide Readies, SomeActive;
    var t := g.(toClient := toClient);
    forall m | 0 <= m < |t.attempts| ensures m in t.authorised <==> Accepted(t, m) {
      assert Accepted(t, m) <==> Accepted(g, m);
    }
  }

  lemma ArrivesGateway(g: Gateway, n: nat, room: nat -> bool)
    requires GatewayOk(g) && At(g, n, Connected)
    ensures var t := DoConnectionArrives(g, n, room);
      && GatewayOk(t)
      && Readies(t.toClient) == Readies(g.toClient) + if !g.aborted && g.clientOpen && room(|g.toClient|) then 1 else 0
  {
    var a := g.attempts[n];
    if g.aborted {
      hide Readies;
      assert Accepted(g, n);
      LateGateway(g, DoConnectionArrives(g, n, room), n);
    } else {
      var relaying := HandedOver(g, n);
      var f := Ready(a.sessionId);
      var u := ToClient(relaying, f, room);
      HandedGateway(g, n, f);
      ReadiesOne(g.toClient, f);
      DispatchShape(u, a.connector.buffer, room);
      DispatchEither(u, a.connector.buffer, room);
      var t := DispatchAll(u, a.connector.buffer, room);
      ReadiesBetween(u.toClient, t.toClient, Lead(a.connector.buffer));
      ShutdownGateway(u);
      hide Readies, DispatchAll, Lead, Wrapped, OnlyMessages;
      SameFrames(u, t.toClient);
      SameFrames(Shutdown(u), t.toClient);
    }
  }

  lemma SameFrames(g: Gateway, toClient: seq<ClientFrame>)
    requires GatewayOk(g) && Readies(toClient) == Readies(g.toClient)
    ensures GatewayOk(g.(toClient := toClient))
  {
    hide Readies;
    SameGateway(g, g.(toClient := toClient));
  }

  /** An aborted connection whose connect comes back late: the attempt is over. */
  lemma LateGateway(g: Gateway, t: Gateway, n: nat)
    requires GatewayOk(g) && At(g, n, Connected) && g.aborted && n in g.authorised
    requires |t.attempts| == |g.attempts| && t == SetAttempt(g, n, t.attempts[n]) && t.attempts[n].stage == Over
    ensures GatewayOk(t)
  {
    hide Readies;
    forall m | 0 <= m < |t.attempts| ensures m in t.authorised <==> Accepted(t, m) {
      if m != n { assert Accepted(t, m) <==> Accepted(g, m); }
    }
  }

  lemma ClientGateway(g: Gateway, token: Option<string>, frame: Frame, upstreamTakes: bool)
    requires GatewayOk(g)
    ensures GatewayOk(DoClientSends(g, token, frame, upstreamTakes)) && DoClientSends(g, token, frame, upstreamTakes).toClient == g.toClient
  {
    hide Readies;
    ShutdownGateway(g);
    var heard := g.(fromClient := g.fromClient + [frame]);
    SameGateway(g, heard);
    ShutdownGateway(heard);
    var t := DoClientSends(g, token, frame, upstreamTakes);
    hide Shutdown;
    if g.phase == Authenticating && token.Some? {
      SameGateway(g, t);
    } else if g.phase == Relaying && g.upstream.Some? && upstreamTakes {
      SameGateway(g, t);
    }
  }

  lemma EndsGateway(g: Gateway, sessionId: string)
    requires GatewayOk(g)
    ensures GatewayOk(DoSessionEnds(g, sessionId)) && DoSessionEnds(g, sessionId).toClient == g.toClient
  {
    hide Readies, Closers;
    var u := g.(registered := g.registered - Closers(g, sessionId));
    assert GatewayOk(u) by {
      assert SomeActive(u) <==> SomeActive(g) by {
        if SomeActive(u) { var m :| At(u, m, Active); assert At(g, m, Active); }
        if SomeActive(g) { var m :| At(g, m, Active); assert At(u, m, Active); }
      }
      hide SomeActive;
      forall m | 0 <= m < |u.attempts| ensures m in u.authorised <==> Accepted(u, m) {
        assert Accepted(u, m) <==> Accepted(g, m);
      }
    }
    ShutdownGateway(u);
  }

  lemma ClosingGateway(g: Gateway)
    requires GatewayOk(g)
    ensures GatewayOk(g.(clientOpen := false))
  {
    hide Readies;
    SameGateway(g, g.(clientOpen := false));
  }

  /** The second hand-over into an open connection with room. */
  ghost predicate HandsOverAgain(g: Gateway, e: Event) {
    e.ConnectionArrives? && !g.aborted && g.clientOpen && e.room(|g.toClient|) && SomeActive(g)
  }

  /** Every step keeps the invariant; and it sends a `ready` after another exactly when it is a second hand-over. */
  lemma GatewayStep(maxPayload: nat, g: Gateway, e: Event)
    requires GatewayOk(g) && Enabled(g, e)
    ensures GatewayOk(Next(maxPayload, g, e))
    ensures Readies(g.toClient) <= Readies(Next(maxPayload, g, e).toClient) <= Readies(g.toClient) + 1
    ensures 0 < Readies(g.toClient) < Readies(Next(maxPayload, g, e).toClient) <==> HandsOverAgain(g, e)
  {
    hide Readies, DoSocket, DoConnectionArrives, DoAuthorized, DoClientSends, DoSessionEnds, TokenUnused, Closers;
    ShutdownGateway(g);
    assert !g.aborted ==> (SomeActive(g) <==> Readies(g.toClient) > 0);
    hide SomeActive;
    match e
    case ClientSends(token, frame, upstreamTakes) => ClientGateway(g, token, frame, upstreamTakes);
    case ClientClosing => ClosingGateway(g);
    case ClientGone =>
      ClosingGateway(g);
      ShutdownGateway(g.(clientOpen := false));
    case Authorized(n, sessionId, validTarget) =>
      AuthorizedGateway(g, n, sessionId, validTarget);
      assert DoAuthorized(g, n, sessionId, validTarget).toClient == g.toClient by { AuthorizedFrames(g, n, sessionId, validTarget); }
    case NotAuthorized(n) => OverGateway(g, n);
    case RefusalArrives(n) => OverGateway(g, n);
    case Socket(n, event, room) => SocketGateway(maxPayload, g, n, event, room);
    case ConnectionArrives(n, room) => ArrivesGateway(g, n, room);
    case SessionEnds(sessionId) => EndsGateway(g, sessionId);
    case _ =>
  }

  lemma AuthorizedFrames(g: Gateway, n: nat, sessionId: string, validTarget: bool)
    requires n < |g.attempts|
    ensures DoAuthorized(g, n, sessionId, validTarget).toClient == g.toClient
  {
  }

  /** Some step of the run is a second hand-over. */
  ghost predicate HandsOverTwice(maxPayload: nat, g: Gateway, es: seq<Event>)
    requires Legal(maxPayload, g, es)
    decreases |es|
  {
    es != [] && (HandsOverAgain(g, es[0]) || HandsOverTwice(maxPayload, Next(maxPayload, g, es[0]), es[1..]))
  }

  lemma {:induction false} ReadyRun(maxPayload: nat, g: Gateway, es: seq<Event>)
    requires Legal(maxPayload, g, es) && GatewayOk(g)
    ensures GatewayOk(Exec(maxPayload, g, es)) && Readies(g.toClient) <= Readies(Exec(maxPayload, g, es).toClient)
    ensures Readies(Exec(maxPayload, g, es).toClient) >= 2 <==> Readies(g.toClient) >= 2 || HandsOverTwice(maxPayload, g, es)
    decreases |es|
  {
    hide GatewayOk, Next, Enabled, Readies, HandsOverAgain;
    if es != [] {
      GatewayStep(maxPayload, g, es[0]);
      ReadyRun(maxPayload, Next(maxPayload, g, es[0]), es[1..]);
    }
  }

  /**
   When the client gets `ready` more than once, in any run: exactly when a connection is handed over to an open client with
   room while another one already has been, for which two tokens must have been accepted.
   */
  lemma ReadyTwiceExactly(maxPayload: nat, es: seq<Event>)
    requires Legal(maxPayload, FreshGateway(), es)
    ensures var g := Exec(maxPayload, FreshGateway(), es);
      && (Readies(g.toClient) >= 2 <==> HandsOverTwice(maxPayload, FreshGateway(), es))
      && (Readies(g.toClient) >= 2 ==> |g.authorised| >= 2)
  {
    assert GatewayOk(FreshGateway());
    ReadyRun(maxPayload, FreshGateway(), es);
    hide HandsOverTwice;
    var g := Exec(maxPayload, FreshGateway(), es);
    if Readies(g.toClient) >= 2 && |g.authorised| < 2 {
      RelayPrefix(maxPayload, es);
      AtMostOneReady(g.toClient);
    }
  }

  lemma {:induction false} AtMostOneReady(frames: seq<ClientFrame>)
    requires forall i :: 1 <= i < |frames| ==> frames[i].Relayed?
    ensures Readies(frames) <= 1
  {
    if |frames| > 1 { AtMostOneReady(frames[..|frames| - 1]); }
  }

  // ---------- what a closed connection leaves in the registry ----------

  /** An authorisation while another registration is held overwrites the closure that would give that one up. */
  predicate Overwrites(g: Gateway, e: Event) {
    e.Authorized? && g.registered != {}
  }

  /** Stranded registrations are made by overwriting only, and only the end of their session takes them away. */
  lemma StrandedStep(maxPayload: nat, g: Gateway, e: Event)
    requires GatewayOk(g) && Enabled(g, e)
    ensures Stranded(Next(maxPayload, g, e)) ==
              (if e.Authorized? then g.registered else if e.SessionEnds? then Stranded(g) - Closers(g, e.sessionId) else Stranded(g))
  {
    hide Readies, OnSocket, TokenUnused, DispatchAll, AbortAll;
    if e.Authorized? { assert e.attempt !in g.authorised; }
    if e.ConnectionArrives? && !g.aborted {
      hide Lead, Wrapped, OnlyMessages;
      var relaying := HandedOver(g, e.attempt);
      var u := ToClient(relaying, Ready(g.attempts[e.attempt].sessionId), e.room);
      ShutdownStrands(relaying);
      StrandedDispatch(u, g.attempts[e.attempt].connector.buffer, e.room);
    }
  }

  lemma ShutdownStrands(g: Gateway)
    ensures Stranded(Shutdown(g)) == Stranded(g)
  {
  }

  lemma {:induction false} StrandedDispatch(g: Gateway, events: seq<Buffered>, room: nat -> bool)
    ensures Stranded(DispatchAll(g, events, room)) == Stranded(g)
    decreases |events|
  {
    if events != [] {
      ShutdownStrands(g);
      StrandedDispatch(Dispatch(g, events[0], room), events[1..], room);
    }
  }

  ghost predicate OverwritesIn(maxPayload: nat, g: Gateway, es: seq<Event>)
    requires Legal(maxPayload, g, es)
    decreases |es|
  {
    es != [] && (Overwrites(g, es[0]) || OverwritesIn(maxPayload, Next(maxPayload, g, es[0]), es[1..]))
  }

  lemma {:induction false} StrandedRun(maxPayload: nat, g: Gateway, es: seq<Event>)
    requires Legal(maxPayload, g, es) && GatewayOk(g) && forall i :: 0 <= i < |es| ==> !es[i].SessionEnds?
    ensures Stranded(Exec(maxPayload, g, es)) != {} <==> Stranded(g) != {} || OverwritesIn(maxPayload, g, es)
    ensures GatewayOk(Exec(maxPayload, g, es))
    decreases |es|
  {
    hide GatewayOk, Next, Enabled;
    if es != [] {
      GatewayStep(maxPayload, g, es[0]);
      StrandedStep(maxPayload, g, es[0]);
      assert Stranded(g) <= g.registered;
      hide Stranded;
      StrandedRun(maxPayload, Next(maxPayload, g, es[0]), es[1..]);
    }
  }

  /**
   When a closed connection is still registered, in any run before its sessions end: exactly when some token was accepted
   while the registration of an earlier one was held.
   */
  lemma LeftRegisteredExactly(maxPayload: nat, es: seq<Event>)
    requires Legal(maxPayload, FreshGateway(), es) && forall i :: 0 <= i < |es| ==> !es[i].SessionEnds?
    ensures var g := Exec(maxPayload, FreshGateway(), es);
      g.phase == Closed ==> (g.registered != {} <==> OverwritesIn(maxPayload, FreshGateway(), es))
  {
    assert GatewayOk(FreshGateway());
    StrandedRun(maxPayload, FreshGateway(), es);
    hide Exec, Legal, OverwritesIn, Readies;
  }

  /** Closing any connection leaves it registered exactly when something else than the kept closure's was registered. */
  lemma ShutdownLeavesExactly(g: Gateway)
    requires GatewayOk(g)
    ensures Shutdown(g).registered != {} <==> exists n :: n in g.registered && g.unregister != Some(n)
  {
    hide Readies, SomeActive;
    if Shutdown(g).registered != {} {
      var n :| n in Shutdown(g).registered;
      assert n in g.registered && g.unregister != Some(n);
    } else {
      assert forall n :: n in g.registered && g.unregister != Some(n) ==> n in Shutdown(g).registered;
    }
  }

  // ---------- two accepted tokens ----------

  lemma LegalCons(maxPayload: nat, g: Gateway, e: Event, es: seq<Event>)
    requires Enabled(g, e) && Legal(maxPayload, Next(maxPayload, g, e), es)
    ensures Legal(maxPayload, g, [e] + es) && Exec(maxPayload, g, [e] + es) == Exec(maxPayload, Next(maxPayload, g, e), es)
  {
    hide Enabled, Next;
    assert ([e] + es)[1..] == es;
  }

  const HELLO := Frame("authenticated", false)

  /** Both tokens accepted and both upstreams connected, with nothing handed over. */
  function BothUp(): Gateway {
    var k := FreshConnector().(settled := true, authenticated := true);
    Gateway(Connecting, false, false, None, Some(1), {0, 1},
            [Attempt("t", Connected, "a", k, [HELLO]), Attempt("u", Connected, "b", k, [HELLO])], [0, 1], true, [], [], [])
  }

  /** Both tokens accepted, and both handshakes under way. */
  function BothAccepted(): Gateway {
    Gateway(Connecting, false, false, None, Some(1), {0, 1},
            [Attempt("t", Handshaking, "a", FreshConnector(), []), Attempt("u", Handshaking, "b", FreshConnector(), [])], [0, 1],
            true, [], [], [])
  }

  /** Two tokens, the second sent while the first is being checked, are both accepted. */
  lemma TwoAccepted(maxPayload: nat, tail: seq<Event>) returns (es: seq<Event>)
    requires Legal(maxPayload, BothAccepted(), tail)
    ensures Legal(maxPayload, FreshGateway(), es)
    ensures Exec(maxPayload, FreshGateway(), es) == Exec(maxPayload, BothAccepted(), tail)
  {
    var send, again := ClientSends(Some("t"), HELLO, true), ClientSends(Some("u"), HELLO, true);
    var first, second := Authorized(0, "a", true), Authorized(1, "b", true);
    var g1 := Next(maxPayload, FreshGateway(), send);
    var g2 := Next(maxPayload, g1, again);
    var g3 := Next(maxPayload, g2, first);
    assert "t"[0] != "u"[0];
    assert Enabled(g3, second);
    var g4 := Next(maxPayload, g3, second);
    assert g4.attempts == BothAccepted().attempts && g4.registered == {0, 1} && g4.authorised == [0, 1];
    assert g4 == BothAccepted();
    hide *;
    var s3 := [second] + tail;
    var s2 := [first] + s3;
    var s1 := [again] + s2;
    LegalCons(maxPayload, g3, second, tail);
    LegalCons(maxPayload, g2, first, s3);
    LegalCons(maxPayload, g1, again, s2);
    LegalCons(maxPayload, FreshGateway(), send, s1);
    es := [send] + s1;
  }

  /** And both upstreams connect. */
  lemma TwoAttempts(maxPayload: nat, tail: seq<Event>) returns (es: seq<Event>)
    requires Legal(maxPayload, BothUp(), tail)
    ensures Legal(maxPayload, FreshGateway(), es)
    ensures Exec(maxPayload, FreshGateway(), es) == Exec(maxPayload, BothUp(), tail)
  {
    var up0, up1 := Socket(0, Arrives(HELLO, true), x => true), Socket(1, Arrives(HELLO, true), x => true);
    var g4 := BothAccepted();
    var g5 := Next(maxPayload, g4, up0);
    var g6 := Next(maxPayload, g5, up1);
    assert [] + [HELLO] == [HELLO];
    assert g5.attempts[1] == g4.attempts[1];
    assert g6.attempts == BothUp().attempts;
    assert g6 == BothUp();
    assert Enabled(g5, up1) && Enabled(g4, up0);
    hide *;
    var s5 := [up1] + tail;
    LegalCons(maxPayload, g5, up1, tail);
    LegalCons(maxPayload, g4, up0, s5);
    es := TwoAccepted(maxPayload, [up0] + s5);
  }

  /** Handing both over, and the client leaving. */
  lemma HandsBothOver(maxPayload: nat) returns (es: seq<Event>)
    ensures Legal(maxPayload, BothUp(), es)
    ensures var g := Exec(maxPayload, BothUp(), es);
      g.toClient == [Ready("a"), Ready("b")] && g.phase == Closed && g.registered == {0}
  {
    var a, b := ConnectionArrives(0, x => true), ConnectionArrives(1, x => true);
    var g0 := BothUp();
    var g1 := Next(maxPayload, g0, a);
    assert g1.toClient == [Ready("a")] && g1.attempts[1] == g0.attempts[1] && g1.registered == {0, 1} && g1.unregister == Some(1);
    var g2 := Next(maxPayload, g1, b);
    assert g2.toClient == [Ready("a"), Ready("b")] && g2.registered == {0, 1} && g2.unregister == Some(1) && g2.phase == Relaying;
    var g3 := Next(maxPayload, g2, ClientGone);
    assert g3.registered == {0} && g3.phase == Closed && g3.toClient == [Ready("a"), Ready("b")] by { hide AbortAll; }
    assert Legal(maxPayload, g3, []) && Exec(maxPayload, g3, []) == g3;
    assert Enabled(g0, a) && Enabled(g1, b) && Enabled(g2, ClientGone);
    hide *;
    LegalCons(maxPayload, g2, ClientGone, []);
    LegalCons(maxPayload, g1, b, [ClientGone] + []);
    LegalCons(maxPayload, g0, a, [b] + ([ClientGone] + []));
    es := [a] + ([b] + ([ClientGone] + []));
  }

  /**
   A run from the start, with two different tokens for two sessions: the client gets `ready` twice, and when it has left the
   first registration is still there.
   */
  lemma TwoTokensTwoReadies(maxPayload: nat) returns (es: seq<Event>)
    ensures Legal(maxPayload, FreshGateway(), es)
    ensures var g := Exec(maxPayload, FreshGateway(), es);
      g.toClient == [Ready("a"), Ready("b")] && g.phase == Closed && g.registered == {0}
  {
    var tail := HandsBothOver(maxPayload);
    es := TwoAttempts(maxPayload, tail);
  }
}
