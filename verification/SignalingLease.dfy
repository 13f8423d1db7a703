/**
 The signaling proxy inside the session container, createSignalingProxy of session/supervisor.mjs: any number of clients may
 connect, one at a time holds the lease. With the connector at the other end it makes the whole relay chain.
 */
module SignalingLease {
  import opened Wrappers
  import R = SignalingRelay

  datatype Phase = Authenticating | Connecting | Relaying | Closed

  datatype Out = Authenticated | Frame(frame: R.Frame)

  /** `arrived` is a ledger of the upstream frames that came while the lease was relaying. */
  datatype Lease = Lease(phase: Phase, clientOpen: bool, toClient: seq<Out>, arrived: seq<R.Frame>, toUpstream: seq<R.Frame>)

  datatype Proxy = Proxy(leases: seq<Lease>, active: Option<nat>)

  function FreshLease(): Lease {
    Lease(Authenticating, true, [], [], [])
  }

  /** What can happen to one lease. */
  datatype LeaseEvent =
    | ClientSends(authentic: bool, frame: R.Frame, upstreamTakes: bool)
    | UpstreamOpens
    | UpstreamSends(frame: R.Frame, room: bool)
    | ClientClosing
    | Ends

  function ShutDown(l: Lease): Lease {
    if l.phase == Closed then l else l.(phase := Closed, clientOpen := false)
  }

  function OnLease(l: Lease, e: LeaseEvent): Lease {
    match e
    case ClientSends(authentic, frame, upstreamTakes) =>
      (match l.phase
       case Authenticating => if authentic then l.(phase := Connecting) else ShutDown(l)
       case Connecting => ShutDown(l)
       case Relaying => if upstreamTakes then l.(toUpstream := l.toUpstream + [frame]) else ShutDown(l)
       case Closed => l)
    case UpstreamOpens =>
      if l.phase != Connecting then l
      else l.(phase := Relaying, toClient := if l.clientOpen then l.toClient + [Authenticated] else l.toClient)
    case UpstreamSends(frame, room) =>
      if l.phase != Relaying then l
      else if l.clientOpen && room then l.(arrived := l.arrived + [frame], toClient := l.toClient + [Frame(frame)])
      else ShutDown(l.(arrived := l.arrived + [frame]))
    case ClientClosing => l.(clientOpen := false)
    case Ends => ShutDown(l)
  }

  datatype Event = Connects | Happens(lease: nat, event: LeaseEvent)

  predicate Enabled(p: Proxy, e: Event) {
    e.Happens? ==> e.lease < |p.leases|
  }

  /** A second client is turned away; a closed lease gives the place back, if it is the one that holds it. */
  function Next(p: Proxy, e: Event): Proxy
    requires Enabled(p, e)
  {
    match e
    case Connects => if p.active.Some? then p else Proxy(p.leases + [FreshLease()], Some(|p.leases|))
    case Happens(n, event) =>
      var l := OnLease(p.leases[n], event);
      Proxy(p.leases[n := l],
            if p.leases[n].phase != Closed && l.phase == Closed && p.active == Some(n) then None else p.active)
  }

  function Outs(frames: seq<R.Frame>): seq<Out> {
    [Authenticated] + seq(|frames|, i requires 0 <= i < |frames| => Frame(frames[i]))
  }

  /** One authenticated frame, then the upstream's frames from the first on; all of them while client and lease last. */
  ghost predicate LeaseOk(l: Lease) {
    && l.toClient <= Outs(l.arrived)
    && (l.phase == Authenticating || l.phase == Connecting ==> l.toClient == [] && l.arrived == [])
    && (l.phase == Relaying && l.clientOpen ==> l.toClient == Outs(l.arrived))
    && (l.phase == Closed ==> !l.clientOpen)
  }

  /** The lease that is not closed is the active one, so there is at most one. */
  ghost predicate ProxyOk(p: Proxy) {
    && (forall n :: 0 <= n < |p.leases| ==> LeaseOk(p.leases[n]))
    && (forall n :: 0 <= n < |p.leases| ==> (p.leases[n].phase != Closed <==> p.active == Some(n)))
    && (p.active.Some? ==> p.active.value < |p.leases|)
  }

  lemma OutsSnoc(frames: seq<R.Frame>, frame: R.Frame)
    ensures Outs(frames + [frame]) == Outs(frames) + [Frame(frame)]
  {
  }

  lemma LeaseStep(l: Lease, e: LeaseEvent)
    requires LeaseOk(l)
    ensures LeaseOk(OnLease(l, e))
    ensures l.phase == Closed ==> OnLease(l, e) == l
    ensures l.toClient <= OnLease(l, e).toClient && l.arrived <= OnLease(l, e).arrived
  {
    if e.UpstreamSends? {
      OutsSnoc(l.arrived, e.frame);
      hide Outs;
    }
  }

  lemma ProxyStep(p: Proxy, e: Event)
    requires ProxyOk(p) && Enabled(p, e)
    ensures ProxyOk(Next(p, e))
  {
    if e.Happens? {
      LeaseStep(p.leases[e.lease], e.event);
      hide OnLease, LeaseOk;
    }
  }

  ghost predicate Legal(p: Proxy, es: seq<Event>)
    decreases |es|
  {
    es == [] || (Enabled(p, es[0]) && Legal(Next(p, es[0]), es[1..]))
  }

  ghost function Exec(p: Proxy, es: seq<Event>): Proxy
    requires Legal(p, es)
    decreases |es|
  {
    if es == [] then p else Exec(Next(p, es[0]), es[1..])
  }

  lemma {:induction false} ProxyRun(p: Proxy, es: seq<Event>)
    requires ProxyOk(p) && Legal(p, es)
    ensures ProxyOk(Exec(p, es))
    decreases |es|
  {
    hide ProxyOk, Next, Enabled;
    if es != [] {
      ProxyStep(p, es[0]);
      ProxyRun(Next(p, es[0]), es[1..]);
    }
  }

  /** In every run at most one client is served, and what a client got is its own upstream's frames, in order, after one greeting. */
  lemma OneController(es: seq<Event>, a: nat, b: nat)
    requires Legal(Proxy([], None), es)
    ensures var p := Exec(Proxy([], None), es);
      a < |p.leases| && b < |p.leases| ==>
        && (p.leases[a].phase != Closed && p.leases[b].phase != Closed ==> a == b)
        && p.leases[a].toClient <= Outs(p.leases[a].arrived)
  {
    ProxyRun(Proxy([], None), es);
    hide Exec, Legal, Outs;
  }

  // ---------- when a lease ends, and what it forwards ----------

  /** The causes that end a lease which has not ended. */
  predicate EndsLease(l: Lease, e: LeaseEvent) {
    match e
    case Ends => true
    case ClientSends(authentic, _, upstreamTakes) =>
      (l.phase == Authenticating && !authentic) || l.phase == Connecting || (l.phase == Relaying && !upstreamTakes)
    case UpstreamSends(_, room) => l.phase == Relaying && (!l.clientOpen || !room)
    case UpstreamOpens => false
    case ClientClosing => false
  }

  function LeaseExec(l: Lease, es: seq<LeaseEvent>): Lease
    decreases |es|
  {
    if es == [] then l else LeaseExec(OnLease(l, es[0]), es[1..])
  }

  predicate EndsLeaseIn(l: Lease, es: seq<LeaseEvent>)
    decreases |es|
  {
    es != [] && (EndsLease(l, es[0]) || EndsLeaseIn(OnLease(l, es[0]), es[1..]))
  }

  /** A lease has ended if and only if one of the causes has occurred. */
  lemma {:induction false} LeaseEndsExactly(l: Lease, es: seq<LeaseEvent>)
    ensures LeaseExec(l, es).phase == Closed <==> l.phase == Closed || EndsLeaseIn(l, es)
    decreases |es|
  {
    if es != [] { LeaseEndsExactly(OnLease(l, es[0]), es[1..]); }
  }

  /** While relaying, both directions are forwarded in order: all frames that the other side can take, and the lease goes on. */
  lemma {:induction false} LeaseForwards(l: Lease, es: seq<LeaseEvent>)
    requires l.phase == Relaying && l.clientOpen
    requires forall i :: 0 <= i < |es| ==> (es[i].ClientSends? && es[i].upstreamTakes) || (es[i].UpstreamSends? && es[i].room)
    ensures var t := LeaseExec(l, es);
      && t.phase == Relaying && t.clientOpen
      && t.toUpstream == l.toUpstream + FromClient(es) && t.arrived == l.arrived + FromUpstream(es)
      && t.toClient == l.toClient + seq(|FromUpstream(es)|, i requires 0 <= i < |FromUpstream(es)| => Frame(FromUpstream(es)[i]))
    decreases |es|
  {
    if es != [] {
      LeaseForwards(OnLease(l, es[0]), es[1..]);
    }
  }

  function FromClient(es: seq<LeaseEvent>): seq<R.Frame> {
    if es == [] then [] else (if es[0].ClientSends? then [es[0].frame] else []) + FromClient(es[1..])
  }

  function FromUpstream(es: seq<LeaseEvent>): seq<R.Frame> {
    if es == [] then [] else (if es[0].UpstreamSends? then [es[0].frame] else []) + FromUpstream(es[1..])
  }

  /** The only way to relaying: an authentic client, then an upstream that opens, with the greeting for an open client. */
  lemma LeaseStarts(l: Lease, e: LeaseEvent)
    ensures l.phase != Connecting && OnLease(l, e).phase == Connecting <==> l.phase == Authenticating && e.ClientSends? && e.authentic
    ensures l.phase != Relaying && OnLease(l, e).phase == Relaying <==> l.phase == Connecting && e.UpstreamOpens?
    ensures l.phase == Connecting && e.UpstreamOpens? && l.clientOpen ==> OnLease(l, e).toClient == l.toClient + [Authenticated]
  {
  }

  // ---------- the whole chain ----------

  /** What the proxy's frames are on the wire; the greeting is the connector's authenticated frame. */
  function OnWire(outs: seq<Out>, greeting: R.Frame): seq<R.Frame> {
    seq(|outs|, i requires 0 <= i < |outs| => if outs[i].Frame? then outs[i].frame else greeting)
  }

  /**
   End to end. The container's proxy serves a lease, the gateway has one token accepted, and the socket between them has
   delivered the first frames of what the proxy sent. Then, at any point of any run and whenever the hand-over happens,
   the browser has received nothing, or `ready` and an in-order prefix of the frames the lease's own upstream sent.
   */
  lemma ChainPrefix(maxPayload: nat, es: seq<R.Event>, l: Lease, greeting: R.Frame)
    requires R.SingleRun(maxPayload, es) && LeaseOk(l)
    requires var g := R.Exec(maxPayload, R.FreshGateway(), es);
      g.authorised != [] && g.authorised[0] < |g.attempts| ==> g.attempts[g.authorised[0]].heard <= OnWire(l.toClient, greeting)
    ensures var g := R.Exec(maxPayload, R.FreshGateway(), es);
      g.toClient != [] ==>
        g.authorised != [] && g.authorised[0] < |g.attempts| && g.toClient <= R.Prefixed(g.attempts[g.authorised[0]].sessionId, l.arrived)
  {
    R.RelayPrefix(maxPayload, es);
    R.RelayRun(maxPayload, R.FreshGateway(), es);
    var g := R.Exec(maxPayload, R.FreshGateway(), es);
    hide R.Exec, R.Legal, R.RegistrationOk, R.OthersIdle, R.ConnectorOk, R.Prefixed;
    if g.toClient != [] {
      var a := g.attempts[g.authorised[0]];
      hide *;
      assert a.connector.authenticated && a.heard != [] && a.connector.received == a.heard[1..] by { HandedOverHeard(maxPayload, g); }
      WirePrefix(l, greeting, a.heard);
      PrefixGrows(a.sessionId, a.connector.received, l.arrived);
    }
  }

  /** A client that has received anything has an attempt that was handed over, and the greeting was heard first. */
  lemma HandedOverHeard(maxPayload: nat, g: R.Gateway)
    requires R.RelayOk(maxPayload, g) && g.toClient != [] && g.authorised != [] && g.authorised[0] < |g.attempts|
    ensures var a := g.attempts[g.authorised[0]];
      a.connector.authenticated && a.heard != [] && a.connector.received == a.heard[1..]
  {
    hide R.Prefixed, R.Lead, R.OnlyMessages, R.MessageCount, R.MessageBytes, R.RegistrationOk, R.OthersIdle;
  }

  /** Behind the greeting, the wire carries the upstream's frames from the first on. */
  lemma WirePrefix(l: Lease, greeting: R.Frame, heard: seq<R.Frame>)
    requires LeaseOk(l) && heard != [] && heard <= OnWire(l.toClient, greeting)
    ensures heard[1..] <= l.arrived
  {
    forall i | 1 <= i < |heard| ensures i - 1 < |l.arrived| && heard[i] == l.arrived[i - 1] {
      assert l.toClient[i] == Outs(l.arrived)[i] == Frame(l.arrived[i - 1]);
    }
  }

  lemma PrefixGrows(sessionId: string, a: seq<R.Frame>, b: seq<R.Frame>)
    requires a <= b
    ensures R.Prefixed(sessionId, a) <= R.Prefixed(sessionId, b)
  {
  }

  // ---------- the objects ----------

  class LeaseObject {
    var phase: Phase
    var clientOpen: bool
    var toClient: seq<Out>
    var arrived: seq<R.Frame>
    var toUpstream: seq<R.Frame>

    constructor ()
      ensures Value() == FreshLease()
    {
      phase, clientOpen := Authenticating, true;
      toClient, arrived, toUpstream := [], [], [];
    }

    function Value(): Lease
      reads this
    {
      Lease(phase, clientOpen, toClient, arrived, toUpstream)
    }
  }

  class SignalingProxy {
    var activeLease: LeaseObject?
    ghost var leases: set<LeaseObject>

    constructor ()
      ensures Valid() && activeLease == null && leases == {}
    {
      activeLease := null;
      leases := {};
    }

    ghost predicate Valid()
      reads this, leases
    {
      && (forall l :: l in leases ==> (l.phase != Closed <==> l == activeLease))
      && (activeLease != null ==> activeLease in leases)
    }

    /** A client gets the lease exactly when nobody holds it. */
    method Connect() returns (lease: LeaseObject?)
      requires Valid()
      modifies this
      ensures Valid()
      ensures old(activeLease) != null ==> lease == null && activeLease == old(activeLease) && leases == old(leases)
      ensures old(activeLease) == null ==>
                lease != null && fresh(lease) && activeLease == lease && lease.Value() == FreshLease() && leases == old(leases) + {lease}
    {
      if activeLease != null {
        return null;
      }
      lease := new LeaseObject();
      activeLease := lease;
      leases := leases + {lease};
    }

    method ShutdownLease(target: LeaseObject)
      requires Valid() && target in leases
      modifies this`activeLease, target
      ensures Valid() && target.Value() == ShutDown(old(target.Value()))
      ensures activeLease == if old(target.phase) != Closed && old(activeLease) == target then null else old(activeLease)
    {
      if target.phase == Closed {
        return;
      }
      target.phase := Closed;
      if activeLease == target {
        activeLease := null;
      }
      target.clientOpen := false;
    }

    method OnClientMessage(lease: LeaseObject, authentic: bool, frame: R.Frame, upstreamTakes: bool)
      requires Valid() && lease in leases
      modifies this`activeLease, lease
      ensures Valid() && lease.Value() == OnLease(old(lease.Value()), ClientSends(authentic, frame, upstreamTakes))
    {
      if lease.phase == Authenticating {
        if !authentic {
          ShutdownLease(lease);
          return;
        }
        lease.phase := Connecting;
        return;
      }
      if lease.phase == Connecting {
        ShutdownLease(lease);
        return;
      }
      if lease.phase == Relaying {
        if upstreamTakes {
          lease.toUpstream := lease.toUpstream + [frame];
        } else {
          ShutdownLease(lease);
        }
      }
    }

    method OnUpstreamOpen(lease: LeaseObject)
      requires Valid() && lease in leases
      modifies lease
      ensures Valid() && lease.Value() == OnLease(old(lease.Value()), UpstreamOpens)
    {
      if lease.phase != Connecting {
        return;
      }
      lease.phase := Relaying;
      if lease.clientOpen {
        lease.toClient := lease.toClient + [Authenticated];
      }
    }

    method OnUpstreamMessage(lease: LeaseObject, frame: R.Frame, room: bool)
      requires Valid() && lease in leases
      modifies this`activeLease, lease
      ensures Valid() && lease.Value() == OnLease(old(lease.Value()), UpstreamSends(frame, room))
    {
      if lease.phase == Relaying {
        lease.arrived := lease.arrived + [frame];
        if !lease.clientOpen || !room {
          ShutdownLease(lease);
          return;
        }
        lease.toClient := lease.toClient + [Frame(frame)];
      }
    }
  }
}
