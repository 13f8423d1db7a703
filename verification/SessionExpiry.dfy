/** Lifetimes of tickets and tokens: what is handed out dies by its configured time, in every run with a clock that does not go back. */
module SessionExpiry {
  import opened Wrappers
  import opened SessionModel
  import opened SessionInvariant
  import opened SessionCredentials

  /** A live credential is an old one, unchanged, or one just handed out with the full lifetime. */
  ghost predicate Evolves(before: map<Hash, Binding>, after: map<Hash, Binding>, used: set<Hash>, clock: int, ttl: nat) {
    forall h :: h in after ==>
      (h in before && after[h] == before[h]) || (h !in used && after[h].expiresAt == clock + ttl * 1000)
  }

  ghost predicate BothEvolve(c: Config, s: State, t: State) {
    && Evolves(s.pairingTickets, t.pairingTickets, s.usedHashes, s.clock, c.ticketTtl)
    && Evolves(s.signalingTokens, t.signalingTokens, s.usedHashes, s.clock, c.tokenTtl)
  }

  lemma SameEvolve(c: Config, s: State, t: State)
    requires t.pairingTickets == s.pairingTickets && t.signalingTokens == s.signalingTokens
    ensures BothEvolve(c, s, t)
  {
  }

  lemma RotateEvolves(c: Config, s: State, key: Key, random: Hash)
    requires key in s.credentials && random !in s.usedHashes
    ensures BothEvolve(c, s, Rotate(c, s, key, random))
  {
  }

  lemma RevokeEvolves(c: Config, s: State, key: Key)
    ensures BothEvolve(c, s, Revoke(s, key))
  {
  }

  lemma MintEvolves(c: Config, s: State, key: Key, ticket: Hash, random: Hash)
    requires key in s.credentials && random !in s.usedHashes
    ensures BothEvolve(c, s, MintToken(c, s, key, ticket, random))
  {
  }

  /** The same two maps, seen from a state with the same clock and the same used values. */
  lemma EvolvesFrom(c: Config, s: State, u: State, t: State, v: State)
    requires BothEvolve(c, u, t)
    requires u.pairingTickets == s.pairingTickets && u.signalingTokens == s.signalingTokens && u.usedHashes == s.usedHashes && u.clock == s.clock
    requires v.pairingTickets == t.pairingTickets && v.signalingTokens == t.signalingTokens
    ensures BothEvolve(c, s, v)
  {
  }

  lemma CreatedEvolves(c: Config, s: State, call: nat, runtime: Option<Resource>, random: Hash, t: State)
    requires Enabled(s, RuntimeCreated(call, runtime, random)) && t == DoRuntimeCreated(c, s, call, runtime, random).after
    ensures BothEvolve(c, s, t)
  {
    if runtime.None? {
      SameEvolve(c, s, t);
    } else {
      var key := Key(s.calls[call].tenantId, s.calls[call].id);
      var u := s.(calls := s.calls - {call}, reservations := s.reservations - {s.calls[call].id},
                  sessions := s.sessions[key := Record(s.nextStamp, key, Active, c.quota, runtime.value, None)],
                  credentials := s.credentials[key := Credentials(s.nextStamp + 1, None, {})],
                  nextStamp := s.nextStamp + 2);
      hide Rotate, BothEvolve;
      RotateEvolves(c, u, key, random);
      EvolvesFrom(c, s, u, t, t);
    }
  }

  lemma BurnEvolves(c: Config, s: State, call: nat, key: Key, t: State)
    requires Enabled(s, BeginBurn(call, key)) && t == DoBeginBurn(s, call, key).after
    ensures BothEvolve(c, s, t)
  {
    if key in s.sessions {
      RevokeEvolves(c, s, key);
      hide Revoke, BothEvolve;
      EvolvesFrom(c, s, s, Revoke(s, key), t);
    } else {
      SameEvolve(c, s, t);
    }
  }

  lemma InspectedIndexes(s: State, call: nat, inspection: Inspection, t: State)
    requires Enabled(s, Inspected(call, inspection)) && t == DoInspected(s, call, inspection).after
    ensures (t.pairingTickets == s.pairingTickets && t.signalingTokens == s.signalingTokens)
            || (t.pairingTickets == Revoke(s, s.calls[call].key).pairingTickets && t.signalingTokens == Revoke(s, s.calls[call].key).signalingTokens)
  {
    hide Revoke;
  }

  lemma InspectedEvolves(c: Config, s: State, call: nat, inspection: Inspection, t: State)
    requires Enabled(s, Inspected(call, inspection)) && t == DoInspected(s, call, inspection).after
    ensures BothEvolve(c, s, t)
  {
    InspectedIndexes(s, call, inspection, t);
    RevokeEvolves(c, s, s.calls[call].key);
    hide Revoke, BothEvolve, DoInspected;
    if t.pairingTickets == s.pairingTickets && t.signalingTokens == s.signalingTokens {
      SameEvolve(c, s, t);
    } else {
      EvolvesFrom(c, s, s, Revoke(s, s.calls[call].key), t);
    }
  }

  lemma ContinueEvolves(c: Config, s: State, call: nat, random: Hash, t: State)
    requires Enabled(s, Continue(call, random)) && t == DoContinue(c, s, call, random).after
    ensures BothEvolve(c, s, t)
  {
    var Observed(key, record, purpose) := s.calls[call];
    var u := s.(calls := s.calls - {call});
    if DoContinue(c, s, call, random).outcome.TicketIssued? {
      RotateEvolves(c, u, key, random);
      hide Rotate, BothEvolve;
      EvolvesFrom(c, s, u, t, t);
    } else if DoContinue(c, s, call, random).outcome.TokenMinted? {
      MintEvolves(c, u, key, purpose.ticket, random);
      hide MintToken, BothEvolve;
      EvolvesFrom(c, s, u, t, t);
    } else {
      hide Rotate, MintToken;
      SameEvolve(c, s, t);
    }
  }

  lemma ExchangeEvolves(c: Config, s: State, call: nat, presented: Option<Hash>, t: State)
    requires t == DoBeginExchange(s, call, presented).after
    ensures BothEvolve(c, s, t)
  {
    hide TakeTicket;
    if presented.Some? { TakeFrame(s, presented.value); }
  }

  lemma AuthorizeEvolves(c: Config, s: State, call: nat, presented: Option<Hash>, t: State)
    requires t == DoBeginAuthorize(s, call, presented).after
    ensures BothEvolve(c, s, t)
  {
    hide TakeToken;
    if presented.Some? { TakeFrame(s, presented.value); }
  }

  lemma StepEvolves(c: Config, s: State, e: Event, t: State)
    requires Enabled(s, e) && t == Next(c, s, e).after
    ensures BothEvolve(c, s, t)
    ensures s.usedHashes <= t.usedHashes && (!e.ClockMoves? ==> t.clock == s.clock)
  {
    hide BothEvolve;
    UsedGrows(c, s, e, t);
    hide DoBeginCreate, DoRuntimeCreated, DoBeginExchange, DoBeginAuthorize, DoBeginBurn, DoInspected, DoContinue, DoDestroyed;
    match e
    case BeginCreate(call, tenantId, id) => CreateEvolves(c, s, call, tenantId, id, t);
    case RuntimeCreated(call, runtime, random) => CreatedEvolves(c, s, call, runtime, random, t);
    case BeginRead(call, key, purpose) => SameEvolve(c, s, t);
    case BeginExchange(call, presented) => ExchangeEvolves(c, s, call, presented, t);
    case BeginAuthorize(call, presented) => AuthorizeEvolves(c, s, call, presented, t);
    case BeginBurn(call, key) => BurnEvolves(c, s, call, key, t);
    case Inspected(call, inspection) => InspectedEvolves(c, s, call, inspection, t);
    case Continue(call, random) => ContinueEvolves(c, s, call, random, t);
    case Destroyed(call, succeeded) => DestroyedEvolves(c, s, call, succeeded, t);
    case ClockMoves(now) => SameEvolve(c, s, t);
  }

  lemma CreateEvolves(c: Config, s: State, call: nat, tenantId: string, id: string, t: State)
    requires t == DoBeginCreate(c, s, call, tenantId, id).after
    ensures BothEvolve(c, s, t)
  {
    hide Admits;
    SameEvolve(c, s, t);
  }

  lemma DestroyedEvolves(c: Config, s: State, call: nat, succeeded: bool, t: State)
    requires Enabled(s, Destroyed(call, succeeded)) && t == DoDestroyed(s, call, succeeded).after
    ensures BothEvolve(c, s, t)
  {
    SameEvolve(c, s, t);
  }

  lemma UsedGrows(c: Config, s: State, e: Event, t: State)
    requires Enabled(s, e) && t == Next(c, s, e).after
    ensures s.usedHashes <= t.usedHashes && (!e.ClockMoves? ==> t.clock == s.clock)
  {
    hide Admits, DoBeginExchange, DoBeginAuthorize, DoContinue, DoInspected, DoRuntimeCreated, DoBeginBurn;
    match e
    case BeginExchange(call, presented) => UsedByExchange(s, call, presented);
    case BeginAuthorize(call, presented) => UsedByAuthorize(s, call, presented);
    case Continue(call, random) => UsedByContinue(c, s, call, random);
    case Inspected(call, inspection) => UsedByInspected(s, call, inspection);
    case RuntimeCreated(call, runtime, random) => UsedByCreated(c, s, call, runtime, random);
    case BeginBurn(call, key) => UsedByBurn(s, call, key);
    case _ =>
  }

  lemma UsedByExchange(s: State, call: nat, presented: Option<Hash>)
    ensures var t := DoBeginExchange(s, call, presented).after; t.usedHashes == s.usedHashes && t.clock == s.clock
  {
    hide TakeTicket;
    if presented.Some? { TakeFrame(s, presented.value); }
  }

  lemma UsedByAuthorize(s: State, call: nat, presented: Option<Hash>)
    ensures var t := DoBeginAuthorize(s, call, presented).after; t.usedHashes == s.usedHashes && t.clock == s.clock
  {
    hide TakeToken;
    if presented.Some? { TakeFrame(s, presented.value); }
  }

  lemma UsedByContinue(c: Config, s: State, call: nat, random: Hash)
    requires call in s.calls && s.calls[call].Observed?
    ensures var t := DoContinue(c, s, call, random).after; s.usedHashes <= t.usedHashes && t.clock == s.clock
  {
  }

  lemma UsedByInspected(s: State, call: nat, inspection: Inspection)
    requires call in s.calls && s.calls[call].InspectCall?
    ensures var t := DoInspected(s, call, inspection).after; t.usedHashes == s.usedHashes && t.clock == s.clock
  {
  }

  lemma UsedByCreated(c: Config, s: State, call: nat, runtime: Option<Resource>, random: Hash)
    requires call in s.calls && s.calls[call].CreateCall?
    ensures var t := DoRuntimeCreated(c, s, call, runtime, random).after; s.usedHashes <= t.usedHashes && t.clock == s.clock
  {
  }

  lemma UsedByBurn(s: State, call: nat, key: Key)
    ensures var t := DoBeginBurn(s, call, key).after; t.usedHashes == s.usedHashes && t.clock == s.clock
  {
  }

  /** The clock does not go back. */
  ghost predicate Forward(c: Config, s: State, es: seq<Event>)
    requires Legal(c, s, es)
    decreases |es|
  {
    es == [] || ((es[0].ClockMoves? ==> s.clock <= es[0].now) && Forward(c, Next(c, s, es[0]).after, es[1..]))
  }

  /** No live credential has longer to live than its lifetime. */
  ghost predicate Lifetimes(c: Config, s: State) {
    && (forall h :: h in s.pairingTickets ==> s.pairingTickets[h].expiresAt <= s.clock + c.ticketTtl * 1000)
    && (forall h :: h in s.signalingTokens ==> s.signalingTokens[h].expiresAt <= s.clock + c.tokenTtl * 1000)
  }

  /** What was live and still is has kept its expiry. */
  ghost predicate Unextended(s: State, t: State) {
    && s.usedHashes <= t.usedHashes
    && (forall h :: h in s.usedHashes && h in t.pairingTickets ==> h in s.pairingTickets && t.pairingTickets[h] == s.pairingTickets[h])
    && (forall h :: h in s.usedHashes && h in t.signalingTokens ==> h in s.signalingTokens && t.signalingTokens[h] == s.signalingTokens[h])
  }

  lemma {:induction false} LifetimesRun(c: Config, s: State, es: seq<Event>)
    requires Legal(c, s, es) && Forward(c, s, es) && Lifetimes(c, s)
    ensures var t := Exec(c, s, es); Lifetimes(c, t) && Unextended(s, t) && s.clock <= t.clock
    decreases |es|
  {
    if es != [] {
      var t := Next(c, s, es[0]).after;
      StepEvolves(c, s, es[0], t);
      if es[0].ClockMoves? { ClockIs(c, s, es[0], t); }
      hide Next, Enabled;
      LifetimesRun(c, t, es[1..]);
    }
  }

  lemma ClockIs(c: Config, s: State, e: Event, t: State)
    requires Enabled(s, e) && t == Next(c, s, e).after && e.ClockMoves?
    ensures t.clock == e.now
  {
  }

  /**
   Expiry: once the configured lifetime has passed, a ticket or a token that was live can no longer be used, whatever
   happened in between.
   */
  lemma ExpiresInTime(c: Config, s: State, es: seq<Event>, call: nat, h: Hash)
    requires Legal(c, s, es) && Forward(c, s, es) && Lifetimes(c, s) && LiveUsed(s)
    requires call !in Exec(c, s, es).calls
    ensures var t := Exec(c, s, es);
      && (h in s.pairingTickets && s.clock + c.ticketTtl * 1000 <= t.clock ==>
            DoBeginExchange(t, call, Some(h)).outcome == Threw(SignalingCredentialInvalid))
      && (h in s.signalingTokens && s.clock + c.tokenTtl * 1000 <= t.clock ==>
            DoBeginAuthorize(t, call, Some(h)).outcome == Threw(SignalingCredentialInvalid))
  {
    LifetimesRun(c, s, es);
    hide Legal, Exec, Forward, TakeTicket, TakeToken;
  }

  lemma InitialLifetimes(c: Config)
    ensures Lifetimes(c, Initial()) && LiveUsed(Initial())
  {
  }

  /**
   The same from the empty service on, with no hypothesis about the state: in any run `before` and any continuation
   `after`, a credential that was live in between is refused once its lifetime has passed since.
   */
  lemma ExpiryEver(c: Config, before: seq<Event>, after: seq<Event>, call: nat, h: Hash)
    requires Legal(c, Initial(), before) && Forward(c, Initial(), before)
    requires Legal(c, Exec(c, Initial(), before), after) && Forward(c, Exec(c, Initial(), before), after)
    requires call !in Exec(c, Exec(c, Initial(), before), after).calls
    ensures var s := Exec(c, Initial(), before);
      var t := Exec(c, s, after);
      && (h in s.pairingTickets && s.clock + c.ticketTtl * 1000 <= t.clock ==>
            DoBeginExchange(t, call, Some(h)).outcome == Threw(SignalingCredentialInvalid))
      && (h in s.signalingTokens && s.clock + c.tokenTtl * 1000 <= t.clock ==>
            DoBeginAuthorize(t, call, Some(h)).outcome == Threw(SignalingCredentialInvalid))
  {
    InitialLifetimes(c);
    hide Legal, Exec, Forward, Lifetimes, DoBeginExchange, DoBeginAuthorize;
    LifetimesRun(c, Initial(), before);
    CredentialsAlways(c, before);
    ExpiresInTime(c, Exec(c, Initial(), before), after, call, h);
  }
}
