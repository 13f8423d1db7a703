/** What every step of the session service keeps, for every interleaving. */
module SessionInvariant {
  import opened Wrappers
  import opened SessionModel

  // ---------- the records and the suspended calls ----------

  /** The id was handed out and its create is over: it can never become a new session again. */
  predicate Settled(s: State, key: Key) {
    key.id in s.usedIds && key.id !in s.reservations
  }

  predicate CallOk(c: Config, s: State, cont: Continuation) {
    match cont
    case CreateCall(id, tenantId) => id in s.reservations && s.reservations[id].tenantId == tenantId
    case InspectCall(key, record, _) => record.key == key && record.phase == Active && record.quota == c.quota && Settled(s, key)
    case Observed(key, record, _) => record.key == key && Settled(s, key)
    case DestroyCall(key, record) => record.key == key && record.quota == c.quota && Settled(s, key) && !IsActive(s, key)
  }

  ghost predicate Structure(c: Config, s: State) {
    && (forall k :: k in s.sessions ==> s.sessions[k].key == k && s.sessions[k].quota == c.quota && Settled(s, k))
    && (forall i :: i in s.reservations ==> i in s.usedIds && s.reservations[i].quota == c.quota)
    && (forall n :: n in s.calls ==> CallOk(c, s, s.calls[n]))
    && OneCreatePerId(s)
    && ReservationsPending(s)
  }

  ghost predicate OneCreatePerId(s: State) {
    forall a, b :: a in s.calls && b in s.calls && a != b && s.calls[a].CreateCall? && s.calls[b].CreateCall? ==>
      s.calls[a].id != s.calls[b].id
  }

  /** A reservation is held only while its create is waiting for the runtime. */
  ghost predicate ReservationsPending(s: State) {
    forall i :: i in s.reservations ==> exists n :: n in s.calls && s.calls[n] == CreateCall(i, s.reservations[i].tenantId)
  }

  lemma StructureBeginCreate(c: Config, s: State, call: nat, tenantId: string, id: string)
    requires Structure(c, s) && Enabled(s, BeginCreate(call, tenantId, id))
    ensures Structure(c, DoBeginCreate(c, s, call, tenantId, id).after)
  {
    hide Admits;
    var t := DoBeginCreate(c, s, call, tenantId, id).after;
    if !Admits(c, s, tenantId) {
      StructureFrame(c, s, t);
    } else {
      StructureReserved(c, s, t, call, tenantId, id);
    }
  }

  lemma StructureReserved(c: Config, s: State, t: State, call: nat, tenantId: string, id: string)
    requires Structure(c, s) && Reserves(c, s, t, call, tenantId, id)
    requires t.sessions == s.sessions && t.usedIds == s.usedIds + {id}
    ensures Structure(c, t)
  {
    ReservedPending(c, s, t, call, tenantId, id);
    ReservedOnce(c, s, t, call, tenantId, id);
    hide ReservationsPending, OneCreatePerId;
    forall n | n in t.calls ensures CallOk(c, t, t.calls[n]) {
      if n != call { ReservedCallOk(c, s, t, call, tenantId, id, n); }
    }
  }

  lemma ReservedCallOk(c: Config, s: State, t: State, call: nat, tenantId: string, id: string, n: nat)
    requires Structure(c, s) && Reserves(c, s, t, call, tenantId, id) && t.sessions == s.sessions && s.usedIds <= t.usedIds
    requires n in s.calls
    ensures CallOk(c, t, s.calls[n])
  {
    hide ReservationsPending, OneCreatePerId;
    assert CallOk(c, s, s.calls[n]);
  }

  ghost predicate Reserves(c: Config, s: State, t: State, call: nat, tenantId: string, id: string) {
    && call !in s.calls && id !in s.usedIds
    && t.reservations == s.reservations[id := Reservation(tenantId, c.quota)]
    && t.calls == s.calls[call := CreateCall(id, tenantId)]
  }

  lemma ReservedPending(c: Config, s: State, t: State, call: nat, tenantId: string, id: string)
    requires Structure(c, s) && Reserves(c, s, t, call, tenantId, id)
    ensures ReservationsPending(t)
  {
    hide CallOk;
    forall i | i in t.reservations
      ensures exists n :: n in t.calls && t.calls[n] == CreateCall(i, t.reservations[i].tenantId)
    {
      if i == id {
        assert t.calls[call] == CreateCall(i, t.reservations[i].tenantId);
      } else {
        var n :| n in s.calls && s.calls[n] == CreateCall(i, s.reservations[i].tenantId);
        assert t.calls[n] == s.calls[n];
      }
    }
  }

  lemma ReservedOnce(c: Config, s: State, t: State, call: nat, tenantId: string, id: string)
    requires Structure(c, s) && Reserves(c, s, t, call, tenantId, id)
    ensures OneCreatePerId(t)
  {
    hide ReservationsPending;
    forall n | n in s.calls && s.calls[n].CreateCall? ensures s.calls[n].id != id {
      assert CallOk(c, s, s.calls[n]);
    }
  }

  lemma StructureRuntimeCreated(c: Config, s: State, call: nat, runtime: Option<Resource>, random: Hash)
    requires Structure(c, s) && Enabled(s, RuntimeCreated(call, runtime, random))
    ensures Structure(c, DoRuntimeCreated(c, s, call, runtime, random).after)
  {
    var t := DoRuntimeCreated(c, s, call, runtime, random).after;
    forall n | n in t.calls ensures CallOk(c, t, t.calls[n]) {
      assert CallOk(c, s, s.calls[n]);
    }
    forall i | i in t.reservations
      ensures exists n :: n in t.calls && t.calls[n] == CreateCall(i, t.reservations[i].tenantId)
    {
      var n :| n in s.calls && s.calls[n] == CreateCall(i, s.reservations[i].tenantId);
      assert t.calls[n] == s.calls[n];
    }
  }

  /** Steps that only move one call between waiting states, or finish it, and leave sessions and reservations alone. */
  ghost predicate OnlyMoves(s: State, t: State, call: nat) {
    && t.sessions == s.sessions && t.reservations == s.reservations && t.usedIds == s.usedIds
    && (t.calls == s.calls || t.calls == s.calls - {call} || (call in t.calls && t.calls == s.calls[call := t.calls[call]]))
    && (call in s.calls ==> !s.calls[call].CreateCall?)
    && (call in t.calls ==> !t.calls[call].CreateCall?)
  }

  lemma StructureMoves(c: Config, s: State, t: State, call: nat)
    requires Structure(c, s) && OnlyMoves(s, t, call)
    requires call in t.calls ==> CallOk(c, t, t.calls[call])
    ensures Structure(c, t)
  {
    forall n | n in t.calls ensures CallOk(c, t, t.calls[n]) {
      if n != call { assert CallOk(c, s, s.calls[n]); }
    }
    forall i | i in t.reservations
      ensures exists n :: n in t.calls && t.calls[n] == CreateCall(i, t.reservations[i].tenantId)
    {
      var n :| n in s.calls && s.calls[n] == CreateCall(i, s.reservations[i].tenantId);
      assert t.calls[n] == s.calls[n];
    }
  }

  /** Steps that replace or delete the record of a settled session and move the call that does it. */
  lemma StructureRewrites(c: Config, s: State, t: State, call: nat, key: Key)
    requires Structure(c, s) && Settled(s, key)
    requires t.reservations == s.reservations && t.usedIds == s.usedIds
    requires (key in t.sessions && t.sessions == s.sessions[key := t.sessions[key]]) || t.sessions == s.sessions - {key}
    requires key in t.sessions ==> t.sessions[key].key == key && t.sessions[key].quota == c.quota && t.sessions[key].phase != Active
    requires t.calls == s.calls - {call} || (call in t.calls && t.calls == s.calls[call := t.calls[call]])
    requires call in s.calls ==> !s.calls[call].CreateCall?
    requires call in t.calls ==> !t.calls[call].CreateCall? && CallOk(c, t, t.calls[call])
    ensures Structure(c, t)
  {
    forall n | n in t.calls ensures CallOk(c, t, t.calls[n]) {
      if n != call { assert CallOk(c, s, s.calls[n]); }
    }
    forall i | i in t.reservations
      ensures exists n :: n in t.calls && t.calls[n] == CreateCall(i, t.reservations[i].tenantId)
    {
      var n :| n in s.calls && s.calls[n] == CreateCall(i, s.reservations[i].tenantId);
      assert t.calls[n] == s.calls[n];
    }
  }

  lemma StructureStep(c: Config, s: State, e: Event)
    requires Structure(c, s) && Enabled(s, e)
    ensures Structure(c, Next(c, s, e).after)
  {
    match e
    case BeginCreate(call, tenantId, id) => StructureBeginCreate(c, s, call, tenantId, id);
    case RuntimeCreated(call, runtime, random) => StructureRuntimeCreated(c, s, call, runtime, random);
    case BeginRead(call, key, purpose) =>
      StructureBeginRead(c, s, call, key, purpose);
    case BeginExchange(call, presented) => StructureExchange(c, s, call, presented);
    case BeginAuthorize(call, presented) => StructureAuthorize(c, s, call, presented);
    case BeginBurn(call, key) => StructureBeginBurn(c, s, call, key);
    case Inspected(call, inspection) => StructureInspected(c, s, call, inspection);
    case Continue(call, random) =>
      StructureContinue(c, s, call, random);
    case Destroyed(call, succeeded) => StructureDestroyed(c, s, call, succeeded);
    case ClockMoves(now) =>
      StructureFrame(c, s, s.(clock := now));
  }

  lemma StructureFrame(c: Config, s: State, t: State)
    requires Structure(c, s)
    requires t.sessions == s.sessions && t.reservations == s.reservations && t.calls == s.calls && s.usedIds <= t.usedIds
    ensures Structure(c, t)
  {
    forall n | n in t.calls ensures CallOk(c, t, t.calls[n]) {
      assert CallOk(c, s, s.calls[n]);
    }
    assert ReservationsPending(t) by {
      hide CallOk;
    }
  }

  lemma StructureBeginRead(c: Config, s: State, call: nat, key: Key, purpose: Purpose)
    requires Structure(c, s) && Enabled(s, BeginRead(call, key, purpose))
    ensures Structure(c, DoBeginRead(s, call, key, purpose).after)
  {
    StructureMoves(c, s, DoBeginRead(s, call, key, purpose).after, call);
  }

  lemma StructureContinue(c: Config, s: State, call: nat, random: Hash)
    requires Structure(c, s) && Enabled(s, Continue(call, random))
    ensures Structure(c, DoContinue(c, s, call, random).after)
  {
    hide Structure;
    ContinueFrame(c, s, call, random);
    StructureMoves(c, s, DoContinue(c, s, call, random).after, call);
  }

  lemma ContinueFrame(c: Config, s: State, call: nat, random: Hash)
    requires Enabled(s, Continue(call, random))
    ensures var t := DoContinue(c, s, call, random).after;
      t.sessions == s.sessions && t.reservations == s.reservations && t.usedIds == s.usedIds && t.calls == s.calls - {call}
      && t.disconnected == s.disconnected && t.clock == s.clock
  {
  }

  lemma StructureExchange(c: Config, s: State, call: nat, presented: Option<Hash>)
    requires Structure(c, s) && Enabled(s, BeginExchange(call, presented))
    ensures Structure(c, DoBeginExchange(s, call, presented).after)
  {
    hide Structure, TakeTicket, CallOk;
    if presented.Some? { TakeFrame(s, presented.value); }
    MovesOk(c, s, call, presented);
    StructureMoves(c, s, DoBeginExchange(s, call, presented).after, call);
  }

  lemma StructureAuthorize(c: Config, s: State, call: nat, presented: Option<Hash>)
    requires Structure(c, s) && Enabled(s, BeginAuthorize(call, presented))
    ensures Structure(c, DoBeginAuthorize(s, call, presented).after)
  {
    hide Structure, TakeToken, CallOk;
    if presented.Some? { TakeFrame(s, presented.value); }
    MovesOk(c, s, call, presented);
    StructureMoves(c, s, DoBeginAuthorize(s, call, presented).after, call);
  }

  /** The inspection an exchange or an authorisation goes on to is well formed. */
  lemma MovesOk(c: Config, s: State, call: nat, presented: Option<Hash>)
    requires Structure(c, s) && call !in s.calls
    ensures var t := DoBeginExchange(s, call, presented).after;
      call in t.calls ==> CallOk(c, t, t.calls[call])
    ensures var t := DoBeginAuthorize(s, call, presented).after;
      call in t.calls ==> CallOk(c, t, t.calls[call])
  {
    hide OneCreatePerId, ReservationsPending, TakeTicket, TakeToken;
    if presented.Some? { TakeFrame(s, presented.value); }
  }

  lemma StructureBeginBurn(c: Config, s: State, call: nat, key: Key)
    requires Structure(c, s) && Enabled(s, BeginBurn(call, key))
    ensures Structure(c, DoBeginBurn(s, call, key).after)
  {
    var t := DoBeginBurn(s, call, key).after;
    if key in s.sessions { StructureRewrites(c, s, t, call, key); }
  }

  lemma StructureInspected(c: Config, s: State, call: nat, inspection: Inspection)
    requires Structure(c, s) && Enabled(s, Inspected(call, inspection))
    ensures Structure(c, DoInspected(s, call, inspection).after)
  {
    var t := DoInspected(s, call, inspection).after;
    var InspectCall(key, record, purpose) := s.calls[call];
    assert CallOk(c, s, s.calls[call]);
    if t.sessions == s.sessions {
      StructureMoves(c, s, t, call);
    } else {
      StructureRewrites(c, s, t, call, key);
    }
  }

  lemma StructureDestroyed(c: Config, s: State, call: nat, succeeded: bool)
    requires Structure(c, s) && Enabled(s, Destroyed(call, succeeded))
    ensures Structure(c, DoDestroyed(s, call, succeeded).after)
  {
    assert CallOk(c, s, s.calls[call]);
    StructureRewrites(c, s, DoDestroyed(s, call, succeeded).after, call, s.calls[call].key);
  }

  // ---------- what each step leaves alone ----------

  lemma CreateMaps(c: Config, s: State, call: nat, tenantId: string, id: string)
    ensures var t := DoBeginCreate(c, s, call, tenantId, id).after;
      && t.sessions == s.sessions && StartsNoBurn(s, t) && s.usedIds <= t.usedIds && t.disconnected == s.disconnected
      && t.reservations == if Admits(c, s, tenantId) then s.reservations[id := Reservation(tenantId, c.quota)] else s.reservations
  {
    hide Admits;
  }

  lemma ReadMaps(s: State, call: nat, key: Key, purpose: Purpose)
    ensures var t := DoBeginRead(s, call, key, purpose).after;
      t.reservations == s.reservations && t.sessions == s.sessions && StartsNoBurn(s, t) && s.usedIds <= t.usedIds && t.disconnected == s.disconnected
  {
  }

  lemma ExchangeMaps(s: State, call: nat, presented: Option<Hash>)
    ensures var t := DoBeginExchange(s, call, presented).after;
      t.reservations == s.reservations && t.sessions == s.sessions && StartsNoBurn(s, t) && s.usedIds <= t.usedIds && t.disconnected == s.disconnected
  {
    hide TakeTicket;
    if presented.Some? { TakeFrame(s, presented.value); }
  }

  lemma AuthorizeMaps(s: State, call: nat, presented: Option<Hash>)
    ensures var t := DoBeginAuthorize(s, call, presented).after;
      t.reservations == s.reservations && t.sessions == s.sessions && StartsNoBurn(s, t) && s.usedIds <= t.usedIds && t.disconnected == s.disconnected
  {
    hide TakeToken;
    if presented.Some? { TakeFrame(s, presented.value); }
  }

  ghost predicate StartsNoBurn(s: State, t: State) {
    forall n :: n in t.calls && t.calls[n].DestroyCall? ==> n in s.calls && s.calls[n] == t.calls[n]
  }

  lemma CreatedMaps(c: Config, s: State, call: nat, runtime: Option<Resource>, random: Hash)
    requires Enabled(s, RuntimeCreated(call, runtime, random))
    ensures var t := DoRuntimeCreated(c, s, call, runtime, random).after;
      var key := Key(s.calls[call].tenantId, s.calls[call].id);
      && t.reservations == s.reservations - {s.calls[call].id}
      && (t.sessions.Keys == s.sessions.Keys || t.sessions.Keys == s.sessions.Keys + {key})
      && (runtime.Some? ==> t.sessions.Keys == s.sessions.Keys + {key})
      && StartsNoBurn(s, t) && s.usedIds <= t.usedIds && s.sessions.Keys <= t.sessions.Keys && t.disconnected == s.disconnected
      && (runtime.Some? ==> t.sessions[key].phase == Active && t.sessions == s.sessions[key := t.sessions[key]])
      && (runtime.None? ==> t.sessions == s.sessions)
  {
  }

  lemma BurnMaps(s: State, call: nat, key: Key)
    requires Enabled(s, BeginBurn(call, key))
    ensures var t := DoBeginBurn(s, call, key).after;
      t.reservations == s.reservations && t.sessions.Keys == s.sessions.Keys
  {
  }

  lemma InspectedMaps(c: Config, s: State, call: nat, inspection: Inspection)
    requires Enabled(s, Inspected(call, inspection))
    ensures var t := DoInspected(s, call, inspection).after;
      t.reservations == s.reservations && t.sessions.Keys == s.sessions.Keys && StartsNoBurn(s, t) && s.usedIds <= t.usedIds
  {
  }
}
