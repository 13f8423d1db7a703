/**
 The connection registry of src/signaling/connection-registry.ts, with its sets as objects: the closure returned by
 `register` keeps the set it was made for, which need not be the one the map holds later.
 */
module SignalingRegistry {
  import opened Wrappers

  /** A Set of closers, made for one session; a closer is known by its registration. */
  class CloserSet {
    const sessionId: string
    var members: set<nat>

    constructor (sessionId: string)
      ensures members == {} && this.sessionId == sessionId
    {
      this.sessionId := sessionId;
      members := {};
    }
  }

  class SignalingConnectionRegistry {
    var connections: map<string, CloserSet>

    constructor ()
      ensures connections == map[] && Valid()
    {
      connections := map[];
    }

    /** What a revocation of the session would close now. */
    ghost function Live(sessionId: string): set<nat>
      reads this, if sessionId in connections then {connections[sessionId]} else {}
    {
      if sessionId in connections then connections[sessionId].members else {}
    }

    /** Every session has its own set object, and an empty one is not kept. */
    ghost predicate Valid()
      reads this, connections.Values
    {
      forall s :: s in connections ==> connections[s].sessionId == s && connections[s].members != {}
    }

    /** The closer joins what is live for its session; the set it joined is handed back for `Unregister`. */
    method Register(sessionId: string, close: nat) returns (mine: CloserSet)
      requires Valid()
      modifies this, if sessionId in connections then {connections[sessionId]} else {}
      ensures Valid() && sessionId in connections && connections[sessionId] == mine && mine.sessionId == sessionId
      ensures connections == old(connections)[sessionId := mine]
      ensures if sessionId in old(connections) then mine == old(connections[sessionId]) else fresh(mine)
      ensures Live(sessionId) == old(Live(sessionId)) + {close}
      ensures forall s :: s in old(connections) && s != sessionId ==> connections[s].members == old(connections[s].members)
    {
      if sessionId in connections {
        mine := connections[sessionId];
      } else {
        mine := new CloserSet(sessionId);
      }
      mine.members := mine.members + {close};
      connections := connections[sessionId := mine];
    }

    /**
     The returned closure. A registration has a closer of its own, so the closer is in no set but `mine`; then the closure
     removes that closer and nothing else if and only if nothing is mapped under the session, or `mine` is, or `mine` still
     holds another closer. No other session is touched.
     */
    method Unregister(mine: CloserSet, close: nat)
      requires Valid()
      modifies this, mine
      ensures Valid() && mine.members == old(mine.members) - {close}
      ensures connections == if mine.members == {} then old(connections) - {mine.sessionId} else old(connections)
      ensures (mine.sessionId in old(connections) && old(connections)[mine.sessionId] != mine ==> close !in old(Live(mine.sessionId))) ==>
        (Live(mine.sessionId) == old(Live(mine.sessionId)) - {close} <==>
           mine.sessionId !in old(connections) || old(connections)[mine.sessionId] == mine || mine.members != {})
      ensures forall s :: s in old(connections) && s != mine.sessionId ==>
                s in connections && connections[s] == old(connections)[s] && connections[s].members == old(connections[s].members)
    {
      mine.members := mine.members - {close};
      if mine.members == {} {
        connections := connections - {mine.sessionId};
      }
    }

    /**
     The loop of revoke, over a set the map no longer holds. The closer c may run the closure of registration
     `undoes(c)`, its own or, when a connection has overwritten its closure, another one; a closer that is removed before
     its turn is not called.
     */
    method CallClosers(closers: CloserSet, undoes: nat -> Option<nat>) returns (called: seq<nat>)
      requires Valid() && closers.sessionId !in connections
      modifies this, closers
      ensures connections == old(connections) && Valid()
      ensures CalledOnce(called, old(closers.members), undoes)
      ensures closers.members == old(closers.members) - Undone(called, undoes)
    {
      called := [];
      ghost var all := closers.members;
      var visited: set<nat> := {};
      while closers.members - visited != {}
        invariant connections == old(connections) && Valid()
        invariant visited == set c | c in called
        invariant Distinct(called) && InTurn(called, undoes)
        invariant visited <= all && closers.members == all - Undone(called, undoes)
        decreases closers.members - visited
      {
        var close :| close in closers.members - visited;
        OneMoreCalled(called, close, undoes);
        called := called + [close];
        visited := visited + {close};
        if undoes(close).Some? {
          Unregister(closers, undoes(close).value);
          assert connections == old(connections);
        }
      }
      forall c | c in all && c !in called ensures c in Undone(called, undoes) {
        assert c !in closers.members - visited;
      }
    }

    /** revoke: takes the session out first, then calls its closers, each at most once, in some order. */
    method Revoke(sessionId: string, undoes: nat -> Option<nat>) returns (called: seq<nat>)
      requires Valid()
      modifies this, if sessionId in connections then {connections[sessionId]} else {}
      ensures Valid() && sessionId !in connections && connections == old(connections) - {sessionId}
      ensures CalledOnce(called, old(Live(sessionId)), undoes)
      ensures forall s :: s in connections ==> connections[s].members == old(connections[s].members)
      ensures sessionId in old(connections) ==>
                old(connections)[sessionId].members == old(Live(sessionId)) - Undone(called, undoes)
    {
      if sessionId !in connections {
        return [];
      }
      var closers := connections[sessionId];
      connections := connections - {sessionId};
      called := CallClosers(closers, undoes);
    }

    /** What goes wrong otherwise: a closure of a revoked set, run late, takes the next connection out of reach. */
    method LateUnregister(sessionId: string, old_: nat, new_: nat) returns (reachable: bool)
      requires Valid() && sessionId !in connections && old_ != new_
      modifies this
      ensures !reachable
    {
      var first := Register(sessionId, old_);
      var nothing: nat -> Option<nat> := x => None;
      var called := Revoke(sessionId, nothing);
      UndoesNothing(called, nothing);
      var second := Register(sessionId, new_);
      Unregister(first, old_);
      reachable := sessionId in connections;
    }
  }

  predicate Distinct(s: seq<nat>) {
    forall i, j :: 0 <= i < j < |s| ==> s[i] != s[j]
  }

  /** The registrations that the called closers have undone. */
  function Undone(called: seq<nat>, undoes: nat -> Option<nat>): set<nat> {
    set i | 0 <= i < |called| && undoes(called[i]).Some? :: undoes(called[i]).value
  }

  /** A closer that has been undone is not called any more. */
  predicate InTurn(called: seq<nat>, undoes: nat -> Option<nat>) {
    forall i :: 0 <= i < |called| ==> called[i] !in Undone(called[..i], undoes)
  }

  /** No closer is called twice or after it has been undone, and a live one is passed over only when it has been undone. */
  ghost predicate CalledOnce(called: seq<nat>, live: set<nat>, undoes: nat -> Option<nat>) {
    && Distinct(called)
    && InTurn(called, undoes)
    && (forall c :: c in called ==> c in live)
    && (forall c :: c in live && c !in called ==> c in Undone(called, undoes))
  }

  lemma OneMoreCalled(called: seq<nat>, close: nat, undoes: nat -> Option<nat>)
    ensures InTurn(called, undoes) && close !in Undone(called, undoes) ==> InTurn(called + [close], undoes)
    ensures Undone(called + [close], undoes) ==
              Undone(called, undoes) + if undoes(close).Some? then {undoes(close).value} else {}
    ensures (set c | c in called + [close]) == (set c | c in called) + {close}
  {
    var after := called + [close];
    forall u | u in Undone(called, undoes) ensures u in Undone(after, undoes) {
      var i :| 0 <= i < |called| && undoes(called[i]).Some? && undoes(called[i]).value == u;
      assert after[i] == called[i];
    }
    assert after[|called|] == close;
    assert after[..|called|] == called;
    assert forall i :: 0 <= i <= |called| ==> after[..i] == called[..i];
  }

  lemma UndoesNothing(called: seq<nat>, undoes: nat -> Option<nat>)
    requires forall x :: undoes(x) == None
    ensures Undone(called, undoes) == {}
  {
  }

  /**
   When a revocation calls every live closer: whenever the closers undo no registration but their own, as they do for
   connections with one accepted token. A closer that is passed over has been undone by one that was called, which shuts
   the same connection down.
   */
  lemma AllCalled(called: seq<nat>, live: set<nat>, undoes: nat -> Option<nat>)
    requires CalledOnce(called, live, undoes)
    ensures (forall c :: c in live && undoes(c).Some? ==> undoes(c).value == c) ==> (set c | c in called) == live
    ensures forall c :: c in live && c !in called ==> exists d :: d in called && d != c && undoes(d) == Some(c)
  {
    forall c | c in live && c !in called ensures exists d :: d in called && d != c && undoes(d) == Some(c) {
      var i :| 0 <= i < |called| && undoes(called[i]).Some? && undoes(called[i]).value == c;
      assert called[i] in called && undoes(called[i]) == Some(c);
    }
  }
}
