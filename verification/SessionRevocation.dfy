/**
 Revocation is final, and what a ticket rotation kills. Both are statements about every continuation of a run, with any
 number of methods already suspended when the session leaves `active` or when the rotation happens.
 */
module SessionRevocation {
  import opened Wrappers
  import opened SessionModel
  import opened SessionInvariant
  import opened SessionCredentials
  import opened SessionProvenance

  /** The session was created once and is not active now: failed, burning, or deleted. */
  predicate Gone(s: State, key: Key) {
    Settled(s, key) && !IsActive(s, key)
  }

  // ---------- the session stays gone ----------

  lemma GoneFrame(s: State, t: State, key: Key)
    requires Gone(s, key) && s.usedIds <= t.usedIds
    requires t.sessions == s.sessions && t.reservations == s.reservations
    ensures Gone(t, key)
  {
  }

  lemma GoneBeginCreate(c: Config, s: State, call: nat, tenantId: string, id: string, key: Key)
    requires Enabled(s, BeginCreate(call, tenantId, id)) && Gone(s, key)
    ensures Gone(DoBeginCreate(c, s, call, tenantId, id).after, key)
  {
    hide DoBeginCreate;
    CreateMaps(c, s, call, tenantId, id);
  }

  lemma GoneRuntimeCreated(c: Config, s: State, call: nat, runtime: Option<Resource>, random: Hash, key: Key)
    requires Enabled(s, RuntimeCreated(call, runtime, random))
    requires Structure(c, s) && Gone(s, key)
    ensures Gone(DoRuntimeCreated(c, s, call, runtime, random).after, key)
  {
    hide DoRuntimeCreated, OneCreatePerId, ReservationsPending;
    assert CallOk(c, s, s.calls[call]);
    CreatedMaps(c, s, call, runtime, random);
  }

  lemma GoneBeginBurn(s: State, call: nat, k: Key, key: Key)
    requires Gone(s, key)
    ensures Gone(DoBeginBurn(s, call, k).after, key)
  {
  }

  lemma GoneInspected(s: State, call: nat, inspection: Inspection, key: Key)
    requires Enabled(s, Inspected(call, inspection)) && Gone(s, key)
    ensures Gone(DoInspected(s, call, inspection).after, key)
  {
  }

  lemma GoneDestroyed(s: State, call: nat, succeeded: bool, key: Key)
    requires Enabled(s, Destroyed(call, succeeded)) && Gone(s, key)
    ensures Gone(DoDestroyed(s, call, succeeded).after, key)
  {
  }

  /** A session that left `active` never becomes active again. */
  lemma GoneStep(c: Config, s: State, e: Event, t: State, key: Key)
    requires Enabled(s, e) && t == Next(c, s, e).after
    requires Structure(c, s) && Gone(s, key)
    ensures Gone(t, key)
  {
    hide Structure, Gone, DoBeginCreate, DoRuntimeCreated, DoBeginRead, DoBeginExchange, DoBeginAuthorize,
      DoBeginBurn, DoInspected, DoContinue, DoDestroyed;
    match e
    case BeginCreate(call, tenantId, id) => GoneBeginCreate(c, s, call, tenantId, id, key);
    case RuntimeCreated(call, runtime, random) => GoneRuntimeCreated(c, s, call, runtime, random, key);
    case BeginRead(call, k, purpose) => ReadMaps(s, call, k, purpose); GoneFrame(s, t, key);
    case BeginExchange(call, presented) => ExchangeMaps(s, call, presented); GoneFrame(s, t, key);
    case BeginAuthorize(call, presented) => AuthorizeMaps(s, call, presented); GoneFrame(s, t, key);
    case BeginBurn(call, k) => GoneBeginBurn(s, call, k, key);
    case Inspected(call, inspection) => GoneInspected(s, call, inspection, key);
    case Continue(call, random) => ContinueFrame(c, s, call, random); GoneFrame(s, t, key);
    case Destroyed(call, succeeded) => GoneDestroyed(s, call, succeeded, key);
    case ClockMoves(now) => GoneFrame(s, t, key);
  }

  // ---------- nothing more is handed out for it ----------

  /** The tokens of authorisations of this session whose inspection already came back with an active record. */
  function Approved(calls: map<nat, Continuation>, key: Key): set<Hash> {
    set n | n in calls && calls[n].Observed? && calls[n].key == key && calls[n].record.phase == Active
            && calls[n].purpose.ForAuthorize? :: calls[n].purpose.token
  }

  /** What one step may still book for a gone session: nothing, but for an already approved authorisation. */
  lemma GoneBooksNothing(c: Config, s: State, e: Event, t: State, key: Key)
    requires Enabled(s, e) && t == Next(c, s, e).after
    requires Structure(c, s) && CredentialsAgree(s) && Gone(s, key)
    ensures forall i :: |s.issued| <= i < |t.issued| ==> t.issued[i].key != key
    ensures forall i :: |s.minted| <= i < |t.minted| ==> t.minted[i].key != key
    ensures forall i :: |s.granted| <= i < |t.granted| && t.granted[i].key == key ==> t.granted[i].token in Approved(s.calls, key)
    ensures s.issued <= t.issued && s.minted <= t.minted && s.granted <= t.granted
  {
    LedgersRecordOutcomes(c, s, e);
    hide Structure, CredentialsAgree, DoBeginCreate, DoRuntimeCreated, DoBeginRead, DoBeginExchange, DoBeginAuthorize,
      DoBeginBurn, DoInspected, DoContinue, DoDestroyed, Gone, Approved;
    match e
    case RuntimeCreated(call, runtime, random) => GoneIsNotCreated(c, s, call, runtime, random, key);
    case Continue(call, random) => GoneContinue(c, s, call, random, key);
    case BeginCreate(call, tenantId, id) => BookedBeginCreate(c, s, call, tenantId, id); NotIssuedByBegin(c, s, e);
    case _ => NotIssuedByBegin(c, s, e);
  }

  /** Only a create and a resumed rotation issue tickets. */
  lemma NotIssuedByBegin(c: Config, s: State, e: Event)
    requires Enabled(s, e) && !e.RuntimeCreated? && !e.Continue?
    ensures !Next(c, s, e).outcome.Created? && !Next(c, s, e).outcome.TicketIssued?
  {
    hide Admits, Revoke, TakeTicket, TakeToken;
  }

  lemma GoneIsNotCreated(c: Config, s: State, call: nat, runtime: Option<Resource>, random: Hash, key: Key)
    requires Enabled(s, RuntimeCreated(call, runtime, random))
    requires Structure(c, s) && Gone(s, key)
    ensures var r := DoRuntimeCreated(c, s, call, runtime, random);
      !r.outcome.TicketIssued? && (r.outcome.Created? ==> r.outcome.key != key)
  {
    hide OneCreatePerId, ReservationsPending, Rotate;
    assert CallOk(c, s, s.calls[call]);
  }

  lemma GoneContinue(c: Config, s: State, call: nat, random: Hash, key: Key)
    requires Enabled(s, Continue(call, random))
    requires Structure(c, s) && CredentialsAgree(s) && Gone(s, key)
    ensures var r := DoContinue(c, s, call, random);
      && !r.outcome.Created?
      && (s.calls[call].key == key ==> !r.outcome.TicketIssued? && !r.outcome.TokenMinted?)
      && (r.outcome.Authorized? && Key(r.outcome.tenantId, r.outcome.sessionId) == key ==>
            CarriedToken(s.calls[call]).Some? && CarriedToken(s.calls[call]).value in Approved(s.calls, key))
  {
    hide OneCreatePerId, ReservationsPending, Rotate, MintToken, TicketsIndexed, TokensIndexed;
    assert CallOk(c, s, s.calls[call]);
    assert key !in s.credentials;
  }

  /** An inspection that comes back stopped for the record that is still in the map. */
  predicate FindsStopped(s: State, e: Event, key: Key) {
    e.Inspected? && e.call in s.calls && s.calls[e.call].InspectCall? && s.calls[e.call].key == key && e.inspection.Stopped?
    && key in s.sessions && s.sessions[key] == s.calls[e.call].record
  }

  /** The only two ways out of `active`, the synchronous part of a burn and a failed inspection; both are final. */
  lemma LeavesActive(c: Config, s: State, e: Event, t: State, key: Key)
    requires Enabled(s, e) && t == Next(c, s, e).after
    requires Structure(c, s) && IsActive(s, key)
    ensures !IsActive(t, key) <==> (e.BeginBurn? && e.key == key) || FindsStopped(s, e, key)
    ensures !IsActive(t, key) ==> Gone(t, key)
  {
    hide DoBeginCreate, DoRuntimeCreated, DoBeginRead, DoBeginExchange, DoBeginAuthorize, DoBeginBurn, DoInspected, DoContinue,
      DoDestroyed, ReservationsPending, OneCreatePerId, Structure;
    ActiveSettled(c, s, key);
    match e
    case BeginCreate(call, tenantId, id) => CreateMaps(c, s, call, tenantId, id); SettledAfterCreate(c, s, call, tenantId, id, key);
    case RuntimeCreated(call, runtime, random) => ActiveThroughCreate(c, s, call, runtime, random, key);
    case BeginRead(call, k, purpose) => ReadMaps(s, call, k, purpose);
    case BeginExchange(call, presented) => ExchangeMaps(s, call, presented);
    case BeginAuthorize(call, presented) => AuthorizeMaps(s, call, presented);
    case BeginBurn(call, k) => BurnLeaves(s, call, k, key);
    case Inspected(call, inspection) => InspectionLeaves(s, call, inspection, key);
    case Continue(call, random) => ContinueFrame(c, s, call, random);
    case Destroyed(call, succeeded) => ActiveThroughDestroy(c, s, call, succeeded, key);
    case ClockMoves(now) =>
  }

  lemma ActiveSettled(c: Config, s: State, key: Key)
    requires Structure(c, s) && IsActive(s, key)
    ensures Settled(s, key)
  {
    hide ReservationsPending, OneCreatePerId, CallOk;
  }

  lemma SettledAfterCreate(c: Config, s: State, call: nat, tenantId: string, id: string, key: Key)
    requires Enabled(s, BeginCreate(call, tenantId, id)) && IsActive(s, key)
    ensures IsActive(DoBeginCreate(c, s, call, tenantId, id).after, key)
  {
    hide Admits;
  }

  lemma ActiveThroughCreate(c: Config, s: State, call: nat, runtime: Option<Resource>, random: Hash, key: Key)
    requires Enabled(s, RuntimeCreated(call, runtime, random)) && IsActive(s, key)
    ensures IsActive(DoRuntimeCreated(c, s, call, runtime, random).after, key)
  {
  }

  lemma BurnLeaves(s: State, call: nat, k: Key, key: Key)
    requires IsActive(s, key) && Settled(s, key)
    ensures var t := DoBeginBurn(s, call, k).after; (!IsActive(t, key) <==> k == key) && Settled(t, key)
  {
  }

  lemma InspectionLeaves(s: State, call: nat, inspection: Inspection, key: Key)
    requires Enabled(s, Inspected(call, inspection)) && IsActive(s, key) && Settled(s, key)
    ensures var t := DoInspected(s, call, inspection).after;
      (!IsActive(t, key) <==> FindsStopped(s, Inspected(call, inspection), key)) && Settled(t, key)
  {
  }

  lemma ActiveThroughDestroy(c: Config, s: State, call: nat, succeeded: bool, key: Key)
    requires Structure(c, s) && Enabled(s, Destroyed(call, succeeded)) && IsActive(s, key)
    ensures IsActive(DoDestroyed(s, call, succeeded).after, key)
  {
    hide ReservationsPending, OneCreatePerId;
    assert CallOk(c, s, s.calls[call]);
  }

  // ---------- presenting a credential ----------

  /** A ticket gets as far as the inspection exactly when it is live and unexpired; presented, it is dead in any case. */
  lemma ExchangeBegins(c: Config, s: State, call: nat, presented: Option<Hash>)
    requires Enabled(s, BeginExchange(call, presented)) && CredentialsAgree(s)
    ensures var r := DoBeginExchange(s, call, presented);
      && (r.outcome == Suspended <==> presented.Some? && presented.value in s.pairingTickets
                                      && s.clock < s.pairingTickets[presented.value].expiresAt)
      && (r.outcome != Suspended ==> r.outcome == Threw(SignalingCredentialInvalid) && r.after.calls == s.calls)
      && (presented.Some? ==> r.after.pairingTickets == s.pairingTickets - {presented.value})
      && (r.outcome == Suspended ==> call in r.after.calls && r.after.calls[call].InspectCall?
                                     && r.after.calls[call].key == s.pairingTickets[presented.value].key)
  {
    hide TokensIndexed, LiveUsed;
    if presented.Some? && presented.value in s.pairingTickets {
      TakeFrame(s, presented.value);
      assert s.pairingTickets[presented.value].key in s.credentials;
      assert s.pairingTickets[presented.value].key in TakeTicket(s, presented.value).credentials;
    }
  }

  /** The same for a token. */
  lemma AuthorizeBegins(c: Config, s: State, call: nat, presented: Option<Hash>)
    requires Enabled(s, BeginAuthorize(call, presented)) && CredentialsAgree(s)
    ensures var r := DoBeginAuthorize(s, call, presented);
      && (r.outcome == Suspended <==> presented.Some? && presented.value in s.signalingTokens
                                      && s.clock < s.signalingTokens[presented.value].expiresAt)
      && (r.outcome != Suspended ==> r.outcome == Threw(SignalingCredentialInvalid) && r.after.calls == s.calls)
      && (presented.Some? ==> r.after.signalingTokens == s.signalingTokens - {presented.value})
      && (r.outcome == Suspended ==> call in r.after.calls && r.after.calls[call].InspectCall?
                                     && r.after.calls[call].key == s.signalingTokens[presented.value].key)
  {
    hide TicketsIndexed, LiveUsed;
    if presented.Some? && presented.value in s.signalingTokens {
      TakeFrame(s, presented.value);
      assert s.signalingTokens[presented.value].key in s.credentials;
    }
  }

  // ---------- suspended methods throw ----------

  /** A suspended method that can no longer get anything out of the session. */
  predicate Doomed(cont: Continuation, key: Key) {
    match cont
    case InspectCall(k, _, purpose) => k == key && purpose != ForGet
    case Observed(k, record, purpose) => k == key && purpose != ForGet && record.phase != Active
    case _ => false
  }

  /** While the session is gone, a doomed method stays doomed, and when it ends it throws. */
  lemma DoomedStep(c: Config, s: State, e: Event, t: State, key: Key, n: nat)
    requires Enabled(s, e) && t == Next(c, s, e).after
    requires Structure(c, s) && Gone(s, key) && n in s.calls && Doomed(s.calls[n], key)
    ensures n in t.calls ==> Doomed(t.calls[n], key)
    ensures n !in t.calls ==> Next(c, s, e).outcome.Threw?
  {
    hide Structure, DoBeginCreate, DoRuntimeCreated, DoBeginRead, DoBeginExchange, DoBeginAuthorize,
      DoBeginBurn, DoInspected, DoContinue, DoDestroyed;
    assert s.calls[n].InspectCall? || s.calls[n].Observed?;
    if e.ClockMoves? || e.call != n {
      OthersWait(c, s, e, t, n);
    } else if e.Inspected? {
      DoomedInspected(c, s, e.call, e.inspection, key);
    } else if e.Continue? {
      DoomedContinue(c, s, e.call, e.random, key);
      ContinueFrame(c, s, e.call, e.random);
    }
  }

  /** A step touches only the call it is about. */
  lemma OthersWait(c: Config, s: State, e: Event, t: State, n: nat)
    requires Enabled(s, e) && t == Next(c, s, e).after
    requires n in s.calls && (e.ClockMoves? || e.call != n)
    ensures n in t.calls && t.calls[n] == s.calls[n]
  {
    hide Admits, DoContinue, DoRuntimeCreated, DoBeginExchange, DoBeginAuthorize, DoBeginBurn, DoInspected;
    match e
    case RuntimeCreated(call, runtime, random) => CreatedOthers(c, s, call, runtime, random);
    case BeginExchange(call, presented) => ExchangeTakes(s, call, presented);
    case BeginAuthorize(call, presented) => AuthorizeTakes(s, call, presented);
    case BeginBurn(call, key) => BurnOthers(s, call, key, n);
    case Inspected(call, inspection) => InspectedOthers(s, call, inspection, n);
    case Continue(call, random) => ContinueFrame(c, s, call, random);
    case _ =>
  }

  lemma BurnOthers(s: State, call: nat, key: Key, n: nat)
    requires n in s.calls && n != call
    ensures var t := DoBeginBurn(s, call, key).after; n in t.calls && t.calls[n] == s.calls[n]
  {
    hide Revoke;
    RevokeCalls(s, key);
  }

  lemma InspectedOthers(s: State, call: nat, inspection: Inspection, n: nat)
    requires Enabled(s, Inspected(call, inspection)) && n in s.calls && n != call
    ensures var t := DoInspected(s, call, inspection).after; n in t.calls && t.calls[n] == s.calls[n]
  {
    hide Revoke;
    RevokeCalls(s, s.calls[call].key);
  }

  lemma RevokeCalls(s: State, key: Key)
    ensures Revoke(s, key).calls == s.calls
  {
  }

  lemma CreatedOthers(c: Config, s: State, call: nat, runtime: Option<Resource>, random: Hash)
    requires Enabled(s, RuntimeCreated(call, runtime, random))
    ensures DoRuntimeCreated(c, s, call, runtime, random).after.calls == s.calls - {call}
  {
  }

  lemma DoomedInspected(c: Config, s: State, call: nat, inspection: Inspection, key: Key)
    requires Enabled(s, Inspected(call, inspection))
    requires Structure(c, s) && Gone(s, key) && Doomed(s.calls[call], key)
    ensures var r := DoInspected(s, call, inspection);
      if call in r.after.calls then Doomed(r.after.calls[call], key) else r.outcome.Threw?
  {
    hide OneCreatePerId, ReservationsPending, Revoke;
    assert CallOk(c, s, s.calls[call]);
  }

  lemma DoomedContinue(c: Config, s: State, call: nat, random: Hash, key: Key)
    requires Enabled(s, Continue(call, random)) && Doomed(s.calls[call], key)
    ensures DoContinue(c, s, call, random).outcome.Threw?
  {
    hide Rotate, MintToken;
  }

  /** How call n ends in a run, if it ends. */
  ghost function Ending(c: Config, s: State, es: seq<Event>, n: nat): Option<Outcome>
    requires Legal(c, s, es) && n in s.calls
    decreases |es|
  {
    if es == [] then None
    else
      var r := Next(c, s, es[0]);
      if n !in r.after.calls then Some(r.outcome) else Ending(c, r.after, es[1..], n)
  }

  lemma {:induction false} DoomedThrows(c: Config, s: State, es: seq<Event>, key: Key, n: nat)
    requires Legal(c, s, es) && n in s.calls
    requires Structure(c, s) && Gone(s, key) && Doomed(s.calls[n], key)
    ensures Ending(c, s, es, n).None? || Ending(c, s, es, n).value.Threw?
    decreases |es|
  {
    hide Structure, Gone, Doomed, Next, Enabled;
    if es != [] {
      var t := Next(c, s, es[0]).after;
      StructureStep(c, s, es[0]);
      GoneStep(c, s, es[0], t, key);
      DoomedStep(c, s, es[0], t, key, n);
      if n in t.calls {
        DoomedThrows(c, t, es[1..], key, n);
      }
    }
  }

  /**
   Revocation is final. Once a session is gone it stays gone; no ticket is issued and no token minted for it again; and
   the only authorisations still granted are those whose inspection had already come back before it went.
   */
  lemma {:induction false} RevocationIsFinal(c: Config, s: State, es: seq<Event>, key: Key)
    requires Legal(c, s, es)
    requires Structure(c, s) && CredentialsAgree(s) && Gone(s, key)
    ensures var t := Exec(c, s, es);
      && Gone(t, key)
      && s.issued <= t.issued && (forall i :: |s.issued| <= i < |t.issued| ==> t.issued[i].key != key)
      && s.minted <= t.minted && (forall i :: |s.minted| <= i < |t.minted| ==> t.minted[i].key != key)
      && s.granted <= t.granted
      && (forall i :: |s.granted| <= i < |t.granted| && t.granted[i].key == key ==> t.granted[i].token in Approved(s.calls, key))
    decreases |es|
  {
    hide Structure, CredentialsAgree, Gone, Next, Enabled, Approved;
    if es != [] {
      var t := Next(c, s, es[0]).after;
      StructureStep(c, s, es[0]);
      CredentialsStep(c, s, es[0]);
      GoneStep(c, s, es[0], t, key);
      GoneBooksNothing(c, s, es[0], t, key);
      ApprovedShrinks(c, s, es[0], t, key);
      RevocationIsFinal(c, t, es[1..], key);
    }
  }

  /** While the session is gone, no further authorisation of it is approved. */
  lemma ApprovedShrinks(c: Config, s: State, e: Event, t: State, key: Key)
    requires Enabled(s, e) && t == Next(c, s, e).after
    requires Structure(c, s) && Gone(s, key)
    ensures Approved(t.calls, key) <= Approved(s.calls, key)
  {
    forall n | n in t.calls && t.calls[n].Observed? && t.calls[n].key == key && t.calls[n].record.phase == Active
      ensures n in s.calls && s.calls[n] == t.calls[n]
    {
      ApprovedBefore(c, s, e, t, key, n);
    }
    hide Structure, Next;
  }

  lemma ApprovedBefore(c: Config, s: State, e: Event, t: State, key: Key, n: nat)
    requires Enabled(s, e) && t == Next(c, s, e).after
    requires n in t.calls && t.calls[n].Observed? && t.calls[n].key == key && t.calls[n].record.phase == Active
    requires Structure(c, s) && Gone(s, key)
    ensures n in s.calls && s.calls[n] == t.calls[n]
  {
    hide Structure, Admits, Revoke, TakeTicket, TakeToken, DoContinue, DoRuntimeCreated, DoInspected, DoBeginExchange, DoBeginAuthorize;
    match e
    case RuntimeCreated(call, runtime, random) => CreatedOthers(c, s, call, runtime, random);
    case BeginExchange(call, presented) => BeginsInspect(s, call, presented);
    case BeginAuthorize(call, presented) => BeginsInspect(s, call, presented);
    case BeginBurn(call, k) => RevokeCalls(s, k);
    case Inspected(call, inspection) => ApprovedInspected(c, s, call, inspection, key, n);
    case Continue(call, random) => ContinueFrame(c, s, call, random);
    case _ =>
  }

  /** An exchange and an authorisation start with an inspection, never with an approval. */
  lemma BeginsInspect(s: State, call: nat, presented: Option<Hash>)
    requires call !in s.calls
    ensures var t := DoBeginExchange(s, call, presented).after;
      t.calls == s.calls || (call in t.calls && t.calls[call].InspectCall? && t.calls == s.calls[call := t.calls[call]])
    ensures var t := DoBeginAuthorize(s, call, presented).after;
      t.calls == s.calls || (call in t.calls && t.calls[call].InspectCall? && t.calls == s.calls[call := t.calls[call]])
  {
    hide TakeTicket, TakeToken;
    if presented.Some? { TakeFrame(s, presented.value); }
  }

  lemma ApprovedInspected(c: Config, s: State, call: nat, inspection: Inspection, key: Key, n: nat)
    requires Enabled(s, Inspected(call, inspection))
    requires var t := DoInspected(s, call, inspection).after;
      n in t.calls && t.calls[n].Observed? && t.calls[n].key == key && t.calls[n].record.phase == Active
    requires Gone(s, key)
    ensures n in s.calls && s.calls[n] == DoInspected(s, call, inspection).after.calls[n]
  {
    hide Revoke;
  }

  // ---------- what a rotation kills ----------

  /** At the moment of a rotation: one live ticket of the session, the new one, and no live token. */
  ghost predicate JustRotated(t: State, key: Key, ticket: Hash) {
    && ticket in t.pairingTickets
    && (forall h :: h in t.pairingTickets ==> (t.pairingTickets[h].key == key <==> h == ticket))
    && (forall h :: h in t.signalingTokens ==> t.signalingTokens[h].key != key)
  }

  /** Whatever live credentials the session had, a resumed rotation leaves exactly the ticket it returns. */
  lemma RotationReplaces(c: Config, s: State, call: nat, random: Hash)
    requires Enabled(s, Continue(call, random)) && DoContinue(c, s, call, random).outcome.TicketIssued?
    requires CredentialsAgree(s)
    ensures var r := DoContinue(c, s, call, random);
      r.outcome.ticket == random && JustRotated(r.after, s.calls[call].key, random)
  {
    CredentialsContinue(c, s, call, random);
    RotatedCredentials(c, s, call, random);
    var t := DoContinue(c, s, call, random).after;
    hide DoContinue, ActiveOnly, LiveUsed;
    var key := s.calls[call].key;
    assert t.credentials[key].ticket == Some(random);
    forall h | h in t.pairingTickets && t.pairingTickets[h].key == key ensures h == random {
      assert t.credentials[key].ticket == Some(h);
    }
    forall h | h in t.signalingTokens ensures t.signalingTokens[h].key != key {
      assert h in t.credentials[t.signalingTokens[h].key].tokens;
    }
  }

  lemma RotatedCredentials(c: Config, s: State, call: nat, random: Hash)
    requires Enabled(s, Continue(call, random)) && DoContinue(c, s, call, random).outcome.TicketIssued?
    ensures var r := DoContinue(c, s, call, random);
      && r.outcome.ticket == random && s.calls[call].key in r.after.credentials
      && r.after.credentials[s.calls[call].key].ticket == Some(random) && r.after.credentials[s.calls[call].key].tokens == {}
  {
  }

  /** The tickets a later token may stem from: this one, a later one, or one an exchange had already taken. */
  ghost predicate Allowed(t: State, key: Key, ticket: Hash, origin: Hash) {
    origin == ticket || origin !in t.usedHashes
    || exists n :: n in Exchanges(t.calls) && Exchanges(t.calls)[n] == Taken(origin, key)
  }

  /** What stays true of the credentials of `key` in every state `u` of a run that starts in the rotated state `t`. */
  ghost predicate Descends(t: State, key: Key, ticket: Hash, u: State) {
    && t.usedHashes <= u.usedHashes
    && (forall h :: h in u.pairingTickets && u.pairingTickets[h].key == key ==> Allowed(t, key, ticket, h))
    && (forall n :: n in Exchanges(u.calls) && Exchanges(u.calls)[n].key == key ==>
          Allowed(t, key, ticket, Exchanges(u.calls)[n].hash))
    && (forall i :: 0 <= i < |u.minted| && u.minted[i].token in u.signalingTokens && u.minted[i].key == key ==>
          Allowed(t, key, ticket, u.minted[i].ticket))
  }

  lemma RotatedDescends(t: State, key: Key, ticket: Hash)
    requires Ledgers(t) && JustRotated(t, key, ticket)
    ensures Descends(t, key, ticket, t)
  {
    hide TicketLedger;
    forall i | 0 <= i < |t.minted| && t.minted[i].token in t.signalingTokens ensures t.minted[i].key != key {
      TokenOfKey(t, i);
    }
  }

  /** A live token belongs to the session it was minted for. */
  lemma TokenOfKey(t: State, i: nat)
    requires i < |t.minted| && t.minted[i].token in t.signalingTokens
    requires Ledgers(t)
    ensures t.signalingTokens[t.minted[i].token].key == t.minted[i].key
  {
    hide TicketLedger;
    var h := t.minted[i].token;
    var j :| 0 <= j < |t.minted| && t.minted[j].token == h && t.minted[j].key == t.signalingTokens[h].key;
    assert i == j;
  }

  /** Steps that take up no credential of the session and mint nothing. */
  lemma DescendsShrink(t: State, key: Key, ticket: Hash, u: State, v: State)
    requires Descends(t, key, ticket, u)
    requires u.usedHashes <= v.usedHashes && v.minted == u.minted
    requires forall h :: h in v.pairingTickets ==> (h in u.pairingTickets && u.pairingTickets[h] == v.pairingTickets[h]) || h !in u.usedHashes
    requires v.signalingTokens.Keys <= u.signalingTokens.Keys
    requires forall n :: n in Exchanges(v.calls) ==> n in Exchanges(u.calls) && Exchanges(u.calls)[n] == Exchanges(v.calls)[n]
    ensures Descends(t, key, ticket, v)
  {
    hide Exchanges;
  }

  lemma DescendsTake(t: State, key: Key, ticket: Hash, u: State, call: nat, presented: Option<Hash>)
    requires Enabled(u, BeginExchange(call, presented)) && Descends(t, key, ticket, u)
    ensures Descends(t, key, ticket, DoBeginExchange(u, call, presented).after)
  {
    var v := DoBeginExchange(u, call, presented).after;
    ExchangeTakes(u, call, presented);
    hide DoBeginExchange, Allowed;
    if v.calls == u.calls {
      DescendsShrink(t, key, ticket, u, v);
    } else {
      CarriedAdd(u.calls, call, v.calls[call]);
      hide Exchanges, Authorizations;
      assert Exchanges(v.calls) == Exchanges(u.calls)[call := Taken(presented.value, u.pairingTickets[presented.value].key)];
    }
  }

  lemma DescendsMint(c: Config, t: State, key: Key, ticket: Hash, u: State, call: nat, random: Hash)
    requires Enabled(u, Continue(call, random)) && DoContinue(c, u, call, random).outcome.TokenMinted?
    requires Descends(t, key, ticket, u) && Ledgers(u)
    ensures Descends(t, key, ticket, DoContinue(c, u, call, random).after)
  {
    var v := DoContinue(c, u, call, random).after;
    MintTokensUsed(u);
    hide Descends, Ledgers;
    MintedParts(c, u, call, random);
    hide DoContinue;
    DescendsMinted(t, key, ticket, u, v, call, random);
  }

  lemma DescendsMinted(t: State, key: Key, ticket: Hash, u: State, v: State, call: nat, random: Hash)
    requires call in u.calls && CarriedTicket(u.calls[call]).Some? && random !in u.usedHashes
    requires v.calls == u.calls - {call} && v.pairingTickets == u.pairingTickets
    requires v.signalingTokens.Keys == u.signalingTokens.Keys + {random} && v.usedHashes == u.usedHashes + {random}
    requires v.minted == u.minted + [Mint(random, CarriedTicket(u.calls[call]).value, u.calls[call].key)]
    requires forall i :: 0 <= i < |u.minted| ==> u.minted[i].token in u.usedHashes
    requires Descends(t, key, ticket, u)
    ensures Descends(t, key, ticket, v)
  {
    hide Allowed;
    CarriedDrop(u.calls, call);
    assert Exchanges(u.calls)[call] == Taken(CarriedTicket(u.calls[call]).value, u.calls[call].key);
    hide Exchanges, Authorizations;
    forall i | 0 <= i < |v.minted| && v.minted[i].token in v.signalingTokens && v.minted[i].key == key
      ensures Allowed(t, key, ticket, v.minted[i].ticket)
    {
      if i < |u.minted| {
        assert v.minted[i] == u.minted[i];
      }
    }
  }

  lemma MintTokensUsed(u: State)
    requires Ledgers(u)
    ensures forall i :: 0 <= i < |u.minted| ==> u.minted[i].token in u.usedHashes
  {
    hide TicketLedger;
  }

  lemma MintedParts(c: Config, u: State, call: nat, random: Hash)
    requires Enabled(u, Continue(call, random)) && DoContinue(c, u, call, random).outcome.TokenMinted?
    ensures var v := DoContinue(c, u, call, random).after;
      && u.calls[call].purpose.ForExchange?
      && CarriedTicket(u.calls[call]) == Some(u.calls[call].purpose.ticket)
      && v.calls == u.calls - {call} && v.pairingTickets == u.pairingTickets
      && v.signalingTokens.Keys == u.signalingTokens.Keys + {random} && v.usedHashes == u.usedHashes + {random}
      && v.minted == u.minted + [Mint(random, u.calls[call].purpose.ticket, u.calls[call].key)]
  {
  }

  lemma DescendsContinue(c: Config, t: State, key: Key, ticket: Hash, u: State, call: nat, random: Hash)
    requires Enabled(u, Continue(call, random))
    requires Descends(t, key, ticket, u) && Ledgers(u)
    ensures Descends(t, key, ticket, DoContinue(c, u, call, random).after)
  {
    hide Descends, Ledgers;
    if DoContinue(c, u, call, random).outcome.TokenMinted? {
      DescendsMint(c, t, key, ticket, u, call, random);
    } else {
      var v := DoContinue(c, u, call, random).after;
      CarriedDrop(u.calls, call);
      ContinueFrame(c, u, call, random);
      ContinueShrinks(c, u, call, random);
      hide DoContinue;
      DescendsShrink(t, key, ticket, u, v);
    }
  }

  lemma ContinueShrinks(c: Config, u: State, call: nat, random: Hash)
    requires Enabled(u, Continue(call, random)) && !DoContinue(c, u, call, random).outcome.TokenMinted?
    ensures var v := DoContinue(c, u, call, random).after;
      && u.usedHashes <= v.usedHashes && v.minted == u.minted
      && v.signalingTokens.Keys <= u.signalingTokens.Keys
      && forall h :: h in v.pairingTickets ==> (h in u.pairingTickets && u.pairingTickets[h] == v.pairingTickets[h]) || h !in u.usedHashes
  {
  }

  lemma DescendsRuntimeCreated(c: Config, t: State, key: Key, ticket: Hash, u: State, call: nat, runtime: Option<Resource>, random: Hash)
    requires Enabled(u, RuntimeCreated(call, runtime, random))
    requires Descends(t, key, ticket, u)
    ensures Descends(t, key, ticket, DoRuntimeCreated(c, u, call, runtime, random).after)
  {
    hide Descends;
    var v := DoRuntimeCreated(c, u, call, runtime, random).after;
    CarriedDrop(u.calls, call);
    CreatedOthers(c, u, call, runtime, random);
    CreatedShrinks(c, u, call, runtime, random);
    hide DoRuntimeCreated;
    DescendsShrink(t, key, ticket, u, v);
  }

  lemma CreatedShrinks(c: Config, u: State, call: nat, runtime: Option<Resource>, random: Hash)
    requires Enabled(u, RuntimeCreated(call, runtime, random))
    ensures var v := DoRuntimeCreated(c, u, call, runtime, random).after;
      && u.usedHashes <= v.usedHashes && v.minted == u.minted
      && v.signalingTokens.Keys <= u.signalingTokens.Keys
      && forall h :: h in v.pairingTickets ==> (h in u.pairingTickets && u.pairingTickets[h] == v.pairingTickets[h]) || h !in u.usedHashes
  {
  }

  lemma DescendsAuthorize(t: State, key: Key, ticket: Hash, u: State, call: nat, presented: Option<Hash>)
    requires Enabled(u, BeginAuthorize(call, presented)) && Descends(t, key, ticket, u)
    ensures Descends(t, key, ticket, DoBeginAuthorize(u, call, presented).after)
  {
    hide Descends, DoBeginAuthorize;
    var v := DoBeginAuthorize(u, call, presented).after;
    AuthorizeTakes(u, call, presented);
    if v.calls != u.calls { CarriedAdd(u.calls, call, v.calls[call]); }
    DescendsShrink(t, key, ticket, u, v);
  }

  lemma DescendsInspected(t: State, key: Key, ticket: Hash, u: State, call: nat, inspection: Inspection)
    requires Enabled(u, Inspected(call, inspection)) && Descends(t, key, ticket, u)
    ensures Descends(t, key, ticket, DoInspected(u, call, inspection).after)
  {
    hide Descends;
    DescendsShrink(t, key, ticket, u, DoInspected(u, call, inspection).after);
  }

  lemma DescendsBeginBurn(t: State, key: Key, ticket: Hash, u: State, call: nat, k: Key)
    requires Enabled(u, BeginBurn(call, k)) && Descends(t, key, ticket, u)
    ensures Descends(t, key, ticket, DoBeginBurn(u, call, k).after)
  {
    hide Descends;
    DescendsShrink(t, key, ticket, u, DoBeginBurn(u, call, k).after);
  }

  lemma DescendsBeginCreate(c: Config, t: State, key: Key, ticket: Hash, u: State, call: nat, tenantId: string, id: string)
    requires Enabled(u, BeginCreate(call, tenantId, id)) && Descends(t, key, ticket, u)
    ensures Descends(t, key, ticket, DoBeginCreate(c, u, call, tenantId, id).after)
  {
    hide Descends, Admits;
    DescendsShrink(t, key, ticket, u, DoBeginCreate(c, u, call, tenantId, id).after);
  }

  lemma DescendsBeginRead(t: State, key: Key, ticket: Hash, u: State, call: nat, k: Key, purpose: Purpose)
    requires Enabled(u, BeginRead(call, k, purpose)) && Descends(t, key, ticket, u)
    ensures Descends(t, key, ticket, DoBeginRead(u, call, k, purpose).after)
  {
    hide Descends;
    DescendsShrink(t, key, ticket, u, DoBeginRead(u, call, k, purpose).after);
  }

  lemma DescendsDestroyed(t: State, key: Key, ticket: Hash, u: State, call: nat, succeeded: bool)
    requires Enabled(u, Destroyed(call, succeeded)) && Descends(t, key, ticket, u)
    ensures Descends(t, key, ticket, DoDestroyed(u, call, succeeded).after)
  {
    hide Descends;
    DescendsShrink(t, key, ticket, u, DoDestroyed(u, call, succeeded).after);
  }

  lemma DescendsStep(c: Config, t: State, key: Key, ticket: Hash, u: State, e: Event, v: State)
    requires Enabled(u, e) && v == Next(c, u, e).after
    requires Descends(t, key, ticket, u) && Ledgers(u)
    ensures Descends(t, key, ticket, v)
  {
    hide Descends, Ledgers, DoBeginCreate, DoRuntimeCreated, DoBeginRead, DoBeginExchange, DoBeginAuthorize,
      DoBeginBurn, DoInspected, DoContinue, DoDestroyed;
    match e
    case RuntimeCreated(call, runtime, random) => DescendsRuntimeCreated(c, t, key, ticket, u, call, runtime, random);
    case BeginExchange(call, presented) => DescendsTake(t, key, ticket, u, call, presented);
    case BeginAuthorize(call, presented) => DescendsAuthorize(t, key, ticket, u, call, presented);
    case BeginBurn(call, k) => DescendsBeginBurn(t, key, ticket, u, call, k);
    case Inspected(call, inspection) => DescendsInspected(t, key, ticket, u, call, inspection);
    case Continue(call, random) => DescendsContinue(c, t, key, ticket, u, call, random);
    case BeginCreate(call, tenantId, id) => DescendsBeginCreate(c, t, key, ticket, u, call, tenantId, id);
    case BeginRead(call, k, purpose) => DescendsBeginRead(t, key, ticket, u, call, k, purpose);
    case Destroyed(call, succeeded) => DescendsDestroyed(t, key, ticket, u, call, succeeded);
    case ClockMoves(now) => DescendsShrink(t, key, ticket, u, v);
  }

  lemma {:induction false} DescendsAlways(c: Config, t: State, key: Key, ticket: Hash, u: State, es: seq<Event>)
    requires Legal(c, u, es)
    requires Structure(c, u) && Ledgers(u) && Descends(t, key, ticket, u)
    ensures Descends(t, key, ticket, Exec(c, u, es)) && Ledgers(Exec(c, u, es))
    decreases |es|
  {
    hide Structure, Ledgers, Descends, Next, Enabled;
    if es != [] {
      var v := Next(c, u, es[0]).after;
      StructureStep(c, u, es[0]);
      LedgersStep(c, u, es[0]);
      DescendsStep(c, t, key, ticket, u, es[0], v);
      DescendsAlways(c, t, key, ticket, v, es[1..]);
    }
  }

  /**
   The rotation law. After a rotation every live token of the session, at any later time, was minted from the rotated
   ticket, from a ticket issued later, or by an exchange that had already taken its ticket when the rotation ran.
   */
  lemma RotationLaw(c: Config, t: State, key: Key, ticket: Hash, es: seq<Event>, token: Hash)
    requires Legal(c, t, es)
    requires Structure(c, t) && Ledgers(t) && JustRotated(t, key, ticket)
    requires token in Exec(c, t, es).signalingTokens && Exec(c, t, es).signalingTokens[token].key == key
    ensures var u := Exec(c, t, es);
      exists i :: 0 <= i < |u.minted| && u.minted[i].token == token && u.minted[i].key == key
        && Allowed(t, key, ticket, u.minted[i].ticket)
  {
    RotatedDescends(t, key, ticket);
    DescendsAlways(c, t, key, ticket, t, es);
    var u := Exec(c, t, es);
    LiveTokenMinted(u, token);
    hide Ledgers, Structure, Allowed;
  }

  lemma LiveTokenMinted(u: State, token: Hash)
    requires token in u.signalingTokens
    requires Ledgers(u)
    ensures MintedFor(u.minted, token, u.signalingTokens[token].key)
  {
    hide TicketLedger;
  }

  // ---------- what a rotation does not stop ----------

  /** An exchange of this session that has taken its ticket and waits, for the inspection or after it. */
  ghost predicate InFlight(s: State, n: nat, key: Key, ticket: Hash, stamp: nat) {
    && n in s.calls && (s.calls[n].InspectCall? || s.calls[n].Observed?)
    && s.calls[n].key == key && s.calls[n].purpose == ForExchange(ticket, stamp)
    && (IsActive(s, key) ==> key in s.credentials && s.credentials[key].stamp == stamp
                             && (s.calls[n].Observed? ==> s.calls[n].record.phase == Active))
  }

  /** This is how an exchange starts. */
  lemma ExchangeTakesOff(c: Config, s: State, call: nat, ticket: Hash)
    requires Enabled(s, BeginExchange(call, Some(ticket))) && CredentialsAgree(s)
    requires DoBeginExchange(s, call, Some(ticket)).outcome == Suspended
    ensures var t := DoBeginExchange(s, call, Some(ticket)).after;
      var key := s.pairingTickets[ticket].key;
      key in t.credentials && InFlight(t, call, key, ticket, t.credentials[key].stamp) && t.calls[call].InspectCall?
  {
    hide TicketsIndexed, TokensIndexed, LiveUsed;
    TakeFrame(s, ticket);
    var key := s.pairingTickets[ticket].key;
    assert key in s.credentials && key in TakeTicket(s, ticket).credentials;
    assert TakeTicket(s, ticket).credentials[key].stamp == s.credentials[key].stamp;
  }

  /** As long as the session has credentials it has the same credentials object: rotation mutates it in place. */
  lemma StampKept(c: Config, s: State, e: Event, t: State, key: Key)
    requires Enabled(s, e) && t == Next(c, s, e).after
    requires Structure(c, s) && CredentialsAgree(s)
    requires key in s.credentials && key in t.credentials
    ensures t.credentials[key].stamp == s.credentials[key].stamp
  {
    hide DoBeginCreate, DoRuntimeCreated, DoBeginExchange, DoBeginAuthorize, DoBeginBurn, DoInspected, DoContinue, DoDestroyed,
      Structure, TicketsIndexed, TokensIndexed, LiveUsed;
    match e
    case BeginCreate(call, tenantId, id) => KeptByCreate(c, s, call, tenantId, id);
    case RuntimeCreated(call, runtime, random) => KeptByCreated(c, s, call, runtime, random, key);
    case BeginExchange(call, presented) => KeptByExchange(s, call, presented, key);
    case BeginAuthorize(call, presented) => KeptByAuthorize(s, call, presented, key);
    case BeginBurn(call, k) => KeptByBurn(s, call, k, key);
    case Inspected(call, inspection) => KeptByInspected(s, call, inspection, key);
    case Continue(call, random) => KeptByContinue(c, s, call, random, key);
    case Destroyed(call, succeeded) => KeptByDestroyed(s, call, succeeded);
    case _ =>
  }

  lemma KeptByCreate(c: Config, s: State, call: nat, tenantId: string, id: string)
    ensures DoBeginCreate(c, s, call, tenantId, id).after.credentials == s.credentials
  {
    hide Admits;
  }

  lemma KeptByCreated(c: Config, s: State, call: nat, runtime: Option<Resource>, random: Hash, key: Key)
    requires Enabled(s, RuntimeCreated(call, runtime, random)) && Structure(c, s) && IsActive(s, key) && key in s.credentials
    ensures var t := DoRuntimeCreated(c, s, call, runtime, random).after;
      key in t.credentials && t.credentials[key] == s.credentials[key]
  {
    hide OneCreatePerId, ReservationsPending;
    assert CallOk(c, s, s.calls[call]);
  }

  lemma KeptByExchange(s: State, call: nat, presented: Option<Hash>, key: Key)
    requires key in s.credentials
    ensures var t := DoBeginExchange(s, call, presented).after;
      key in t.credentials && t.credentials[key].stamp == s.credentials[key].stamp
  {
  }

  lemma KeptByAuthorize(s: State, call: nat, presented: Option<Hash>, key: Key)
    requires key in s.credentials
    ensures var t := DoBeginAuthorize(s, call, presented).after;
      key in t.credentials && t.credentials[key].stamp == s.credentials[key].stamp
  {
  }

  lemma KeptByBurn(s: State, call: nat, k: Key, key: Key)
    requires key in s.credentials && key in DoBeginBurn(s, call, k).after.credentials
    ensures DoBeginBurn(s, call, k).after.credentials[key] == s.credentials[key]
  {
  }

  lemma KeptByInspected(s: State, call: nat, inspection: Inspection, key: Key)
    requires Enabled(s, Inspected(call, inspection))
    requires key in s.credentials && key in DoInspected(s, call, inspection).after.credentials
    ensures DoInspected(s, call, inspection).after.credentials[key] == s.credentials[key]
  {
  }

  lemma KeptByContinue(c: Config, s: State, call: nat, random: Hash, key: Key)
    requires Enabled(s, Continue(call, random)) && key in s.credentials
    ensures var t := DoContinue(c, s, call, random).after;
      key in t.credentials && t.credentials[key].stamp == s.credentials[key].stamp
  {
  }

  lemma KeptByDestroyed(s: State, call: nat, succeeded: bool)
    requires Enabled(s, Destroyed(call, succeeded))
    ensures DoDestroyed(s, call, succeeded).after.credentials == s.credentials
  {
  }

  lemma InFlightInspected(s: State, n: nat, inspection: Inspection, t: State, key: Key, ticket: Hash, stamp: nat)
    requires Enabled(s, Inspected(n, inspection)) && t == DoInspected(s, n, inspection).after && n in t.calls
    requires InFlight(s, n, key, ticket, stamp)
    ensures t.calls[n].Observed? && t.calls[n].key == key && t.calls[n].purpose == ForExchange(ticket, stamp)
    ensures IsActive(t, key) ==> t.calls[n].record.phase == Active
  {
  }

  lemma InFlightStep(c: Config, s: State, e: Event, t: State, n: nat, key: Key, ticket: Hash, stamp: nat)
    requires Enabled(s, e) && t == Next(c, s, e).after && n in t.calls
    requires Structure(c, s) && CredentialsAgree(s) && InFlight(s, n, key, ticket, stamp)
    ensures InFlight(t, n, key, ticket, stamp)
  {
    CredentialsStep(c, s, e);
    SettledCall(c, s, n);
    if !IsActive(s, key) { GoneStep(c, s, e, t, key); }
    if IsActive(t, key) { StampKept(c, s, e, t, key); }
    hide Structure, DoBeginCreate, DoRuntimeCreated, DoBeginRead, DoBeginExchange, DoBeginAuthorize, DoBeginBurn, DoInspected,
      DoContinue, DoDestroyed, TicketsIndexed, TokensIndexed;
    if e.ClockMoves? || e.call != n {
      OthersWait(c, s, e, t, n);
    } else if e.Inspected? {
      InFlightInspected(s, n, e.inspection, t, key, ticket, stamp);
    } else if e.Continue? {
      ContinueFrame(c, s, n, e.random);
    }
  }

  lemma SettledCall(c: Config, s: State, n: nat)
    requires Structure(c, s) && n in s.calls && (s.calls[n].InspectCall? || s.calls[n].Observed?)
    ensures Settled(s, s.calls[n].key)
  {
    hide OneCreatePerId, ReservationsPending;
    assert CallOk(c, s, s.calls[n]);
  }

  /**
   A rotation does not stop an exchange that has already taken its ticket, from the start of its inspection on. Whatever
   runs while the exchange waits, with any number of rotations of the session's ticket, when it resumes it mints its
   token if and only if the session is still active.
   */
  lemma {:induction false} InFlightExchangeSurvives(c: Config, s: State, es: seq<Event>, n: nat, key: Key, ticket: Hash,
      stamp: nat, random: Hash)
    requires Legal(c, s, es) && Structure(c, s) && CredentialsAgree(s)
    requires n in s.calls && InFlight(s, n, key, ticket, stamp)
    requires Ending(c, s, es, n) == None && Enabled(Exec(c, s, es), Continue(n, random))
    ensures var t := Exec(c, s, es);
      DoContinue(c, t, n, random).outcome == if IsActive(t, key) then TokenMinted(random) else Threw(SignalingCredentialInvalid)
    decreases |es|
  {
    if es == [] {
      hide Structure, TicketsIndexed, TokensIndexed, LiveUsed, Rotate, MintToken;
    } else {
      var t := Next(c, s, es[0]).after;
      hide Structure, CredentialsAgree, Next, Enabled, InFlight, DoContinue;
      StructureStep(c, s, es[0]);
      CredentialsStep(c, s, es[0]);
      InFlightStep(c, s, es[0], t, n, key, ticket, stamp);
      InFlightExchangeSurvives(c, t, es[1..], n, key, ticket, stamp, random);
    }
  }
}
