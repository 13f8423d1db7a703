/** The mutable objects behind the relay machine of SignalingRelay, callback by callback. */
module SignalingObjects {
  import opened Wrappers
  import opened SignalingRelay

  /** The closure variables of one WebSocketSignalingConnector.connect. */
  class UpstreamConnection {
    const maxPayloadBytes: nat
    var settled: bool
    var authenticated: bool
    var activated: bool
    var bufferedEvents: seq<Buffered>
    var bufferedBytes: nat
    var terminated: bool
    var received: seq<Frame>

    constructor (maxPayloadBytes: nat)
      ensures this.maxPayloadBytes == maxPayloadBytes && View() == FreshConnector() && ConnectorOk(maxPayloadBytes, View())
    {
      this.maxPayloadBytes := maxPayloadBytes;
      settled, authenticated, activated, terminated := false, false, false, false;
      bufferedEvents, received := [], [];
      bufferedBytes := 0;
    }

    function View(): Connector
      reads this
    {
      Connector(settled, authenticated, activated, bufferedEvents, bufferedBytes, terminated, received)
    }

    method Fail()
      modifies this`settled, this`terminated
      ensures View() == FailHandshake(old(View()))
    {
      if settled {
        return;
      }
      settled := true;
      terminated := true;
    }

    /** `handed` is what goes to the handlers at once. */
    method OnMessage(frame: Frame, hello: bool) returns (handed: seq<Buffered>)
      requires ConnectorOk(maxPayloadBytes, View())
      modifies this
      ensures View() == OnSocket(maxPayloadBytes, old(View()), Arrives(frame, hello)) && ConnectorOk(maxPayloadBytes, View())
      ensures handed == if old(activated) then [Message(frame)] else []
    {
      ConnectorStep(maxPayloadBytes, View(), Arrives(frame, hello));
      hide Lead, MessageCount, MessageBytes, OnlyMessages;
      handed := [];
      if !authenticated {
        if frame.binary || !hello {
          Fail();
          return;
        }
        if settled {
          return;
        }
        authenticated := true;
        settled := true;
        return;
      }
      received := received + [frame];
      if activated {
        handed := [Message(frame)];
        return;
      }
      if |bufferedEvents| >= MAXIMUM_BUFFERED_EVENTS || bufferedBytes + |frame.data| > maxPayloadBytes * 4 {
        bufferedEvents := bufferedEvents + [ErrorEvent];
        terminated := true;
        return;
      }
      bufferedBytes := bufferedBytes + |frame.data|;
      bufferedEvents := bufferedEvents + [Message(frame)];
    }

    method OnError() returns (handed: seq<Buffered>)
      requires ConnectorOk(maxPayloadBytes, View())
      modifies this
      ensures View() == OnSocket(maxPayloadBytes, old(View()), SocketError) && ConnectorOk(maxPayloadBytes, View())
      ensures handed == if old(activated) then [ErrorEvent] else []
    {
      ConnectorStep(maxPayloadBytes, View(), SocketError);
      hide Lead, MessageCount, MessageBytes, OnlyMessages;
      handed := [];
      if !authenticated {
        Fail();
      } else if activated {
        handed := [ErrorEvent];
      } else {
        bufferedEvents := bufferedEvents + [ErrorEvent];
      }
    }

    method OnClose() returns (handed: seq<Buffered>)
      requires ConnectorOk(maxPayloadBytes, View())
      modifies this
      ensures View() == OnSocket(maxPayloadBytes, old(View()), SocketClosed) && ConnectorOk(maxPayloadBytes, View())
      ensures handed == if old(activated) then [CloseEvent] else []
    {
      ConnectorStep(maxPayloadBytes, View(), SocketClosed);
      hide Lead, MessageCount, MessageBytes, OnlyMessages;
      handed := [];
      if !authenticated {
        Fail();
      } else if activated {
        handed := [CloseEvent];
      } else {
        bufferedEvents := bufferedEvents + [CloseEvent];
      }
    }

    /** Empties the buffer into the handlers, in order, before anything newer can be handed on. */
    method Activate() returns (handed: seq<Buffered>)
      requires ConnectorOk(maxPayloadBytes, View()) && authenticated && !activated
      modifies this`activated, this`bufferedEvents, this`bufferedBytes
      ensures View() == Activated(old(View())) && ConnectorOk(maxPayloadBytes, View())
      ensures handed == old(bufferedEvents) && Lead(handed) <= received
    {
      activated := true;
      var events := bufferedEvents;
      bufferedEvents := [];
      handed := [];
      var i := 0;
      while i < |events|
        invariant 0 <= i <= |events| && handed == events[..i]
      {
        handed := handed + [events[i]];
        i := i + 1;
      }
      bufferedBytes := 0;
      assert MessageCount([]) == 0 && MessageBytes([]) == 0;
    }
  }

  /** The closure variables of one SignalingGateway.handle. */
  class ClientConnection {
    var phase: Phase
    var aborted: bool
    var timer: bool
    var upstream: Option<nat>
    var unregister: Option<nat>
    var registered: set<nat>
    var attempts: seq<Attempt>
    var authorised: seq<nat>
    var clientOpen: bool
    var toClient: seq<ClientFrame>
    var fromClient: seq<Frame>
    var toUpstream: seq<Frame>

    constructor ()
      ensures View() == FreshGateway()
    {
      phase, aborted, timer := Authenticating, false, true;
      upstream, unregister := None, None;
      registered, attempts, authorised := {}, [], [];
      clientOpen := true;
      toClient, fromClient, toUpstream := [], [], [];
    }

    function View(): Gateway
      reads this
    {
      Gateway(phase, aborted, timer, upstream, unregister, registered, attempts, authorised, clientOpen, toClient, fromClient, toUpstream)
    }

    /** Abort: every handshake under way is failed by its listener. */
    method Abort()
      modifies this`aborted, this`attempts
      ensures aborted && attempts == if old(aborted) then old(attempts) else AbortAll(old(attempts))
    {
      if aborted {
        return;
      }
      aborted := true;
      var i := 0;
      while i < |attempts|
        invariant 0 <= i <= |attempts| == |old(attempts)| && aborted
        invariant forall j :: 0 <= j < i ==> attempts[j] == AbortOne(old(attempts)[j])
        invariant forall j :: i <= j < |attempts| ==> attempts[j] == old(attempts)[j]
      {
        attempts := attempts[i := AbortOne(attempts[i])];
        i := i + 1;
      }
    }

    method Close()
      modifies this
      ensures View() == Shutdown(old(View()))
    {
      if phase == Closed {
        return;
      }
      phase := Closed;
      timer := false;
      Abort();
      if unregister.Some? {
        registered := registered - {unregister.value};
      }
      clientOpen := false;
    }

    method ForwardToClient(frame: ClientFrame, room: nat -> bool)
      modifies this
      ensures View() == ToClient(old(View()), frame, room)
    {
      if !clientOpen {
        Close();
        return;
      }
      if !room(|toClient|) {
        Close();
        return;
      }
      toClient := toClient + [frame];
    }

    method OnClientMessage(token: Option<string>, frame: Frame, upstreamTakes: bool)
      modifies this
      ensures View() == DoClientSends(old(View()), token, frame, upstreamTakes)
    {
      match phase {
        case Authenticating =>
          if token.None? {
            Close();
            return;
          }
          attempts := attempts + [Attempt(token.value, Authorizing, "", FreshConnector(), [])];
        case Connecting =>
          Close();
        case Relaying =>
          if upstream.Some? {
            fromClient := fromClient + [frame];
            if upstreamTakes {
              toUpstream := toUpstream + [frame];
            } else {
              Close();
            }
          }
        case Closed =>
      }
    }

    /** The continuation of authorizeSignalingToken, up to the connector's own checks. */
    method OnAuthorized(n: nat, sessionId: string, validTarget: bool)
      requires n < |attempts|
      modifies this
      ensures View() == DoAuthorized(old(View()), n, sessionId, validTarget)
    {
      phase := Connecting;
      timer := false;
      unregister := Some(n);
      registered := registered + {n};
      var stage := Handshaking;
      if !validTarget || aborted {
        stage := Refused;
      }
      attempts := attempts[n := Attempt(attempts[n].token, stage, sessionId, FreshConnector(), [])];
      authorised := authorised + [n];
    }

    /** The continuation of connect: ready, then the buffered events, one handler call each. */
    method OnConnected(n: nat, room: nat -> bool)
      requires n < |attempts|
      modifies this
      ensures View() == DoConnectionArrives(old(View()), n, room)
    {
      var attempt := attempts[n];
      if aborted {
        attempts := attempts[n := attempt.(stage := Over, connector := attempt.connector.(terminated := true))];
        return;
      }
      upstream := Some(n);
      phase := Relaying;
      attempts := attempts[n := attempt.(stage := Active, connector := Activated(attempt.connector))];
      ForwardToClient(Ready(attempt.sessionId), room);
      var events := attempt.connector.buffer;
      ghost var before := View();
      var i := 0;
      assert events[0..] == events;
      while i < |events|
        invariant 0 <= i <= |events|
        invariant DispatchAll(before, events, room) == DispatchAll(View(), events[i..], room)
      {
        assert events[i..][0] == events[i] && events[i..][1..] == events[i + 1..];
        if events[i].Message? {
          ForwardToClient(Relayed(events[i].frame), room);
        } else {
          Close();
        }
        i := i + 1;
      }
    }
  }
}
