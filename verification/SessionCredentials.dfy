/**
 The three credential maps of the session service agree in every reachable state: a session has credentials exactly
 while it is active, and the live tickets and tokens are exact inverse indexes of what the credentials hold.
 */
module SessionCredentials {
  import opened Wrappers
  import opened SessionModel
  import opened SessionInvariant

  ghost predicate TicketsIndexed(tickets: map<Hash, Binding>, credentials: map<Key, Credentials>) {
    && (forall h :: h in tickets ==> tickets[h].key in credentials && credentials[tickets[h].key].ticket == Some(h))
    && (forall k :: k in credentials && credentials[k].ticket.Some? ==>
          credentials[k].ticket.value in tickets && tickets[credentials[k].ticket.value].key == k)
  }

  ghost predicate TokensIndexed(tokens: map<Hash, Binding>, credentials: map<Key, Credentials>) {
    && (forall h :: h in tokens ==> tokens[h].key in credentials && h in credentials[tokens[h].key].tokens)
    && (forall k, h :: k in credentials && h in credentials[k].tokens ==> h in tokens && tokens[h].key == k)
  }

  ghost predicate ActiveOnly(s: State) {
    forall k :: k in s.credentials <==> IsActive(s, k)
  }

  /** Random values that are live were all handed out. */
  ghost predicate LiveUsed(s: State) {
    s.pairingTickets.Keys <= s.usedHashes && s.signalingTokens.Keys <= s.usedHashes
  }

  ghost predicate CredentialsAgree(s: State) {
    && ActiveOnly(s)
    && TicketsIndexed(s.pairingTickets, s.credentials)
    && TokensIndexed(s.signalingTokens, s.credentials)
    && LiveUsed(s)
  }

  ghost predicate Indexed(s: State) {
    TicketsIndexed(s.pairingTickets, s.credentials) && TokensIndexed(s.signalingTokens, s.credentials) && LiveUsed(s)
  }

  /** The session ids whose relays were told to close include every session that is no longer active. */
  ghost predicate RelaysClosed(s: State) {
    && (forall k :: k in s.sessions && s.sessions[k].phase != Active ==> k.id in s.disconnected)
    && (forall n :: n in s.calls && s.calls[n].DestroyCall? ==> s.calls[n].key.id in s.disconnected)
  }

  lemma RevokeIndexed(s: State, key: Key)
    requires Indexed(s)
    ensures Indexed(Revoke(s, key))
    ensures Revoke(s, key).credentials == s.credentials - {key}
  {
    if key in s.credentials {
      RevokeTickets(s, key);
      RevokeTokens(s, key);
    } else {
      assert s.credentials - {key} == s.credentials;
    }
  }

  lemma RevokeTickets(s: State, key: Key)
    requires key in s.credentials && TicketsIndexed(s.pairingTickets, s.credentials)
    ensures TicketsIndexed(s.pairingTickets - TicketOf(s.credentials[key]), s.credentials - {key})
  {
    forall h | h in s.pairingTickets && h !in TicketOf(s.credentials[key]) ensures s.pairingTickets[h].key != key {
      assert s.credentials[s.pairingTickets[h].key].ticket == Some(h);
    }
  }

  lemma RevokeTokens(s: State, key: Key)
    requires key in s.credentials && TokensIndexed(s.signalingTokens, s.credentials)
    ensures TokensIndexed(s.signalingTokens - s.credentials[key].tokens, s.credentials - {key})
  {
    TokensDisjoint(s.signalingTokens, s.credentials, key);
  }

  /** No token of another session is lost when one session's tokens are deleted. */
  lemma TokensDisjoint(tokens: map<Hash, Binding>, credentials: map<Key, Credentials>, key: Key)
    requires key in credentials && TokensIndexed(tokens, credentials)
    ensures forall h :: h in tokens - credentials[key].tokens ==> tokens[h].key != key
    ensures forall k, h :: k in credentials && k != key && h in credentials[k].tokens ==>
              h in tokens - credentials[key].tokens && (tokens - credentials[key].tokens)[h].key == k
  {
    forall h | h in tokens && h !in credentials[key].tokens ensures tokens[h].key != key {
      assert h in credentials[tokens[h].key].tokens;
    }
    forall k, h | k in credentials && k != key && h in credentials[k].tokens
      ensures h in tokens - credentials[key].tokens && (tokens - credentials[key].tokens)[h].key == k
    {
      assert tokens[h].key == k;
      assert h !in credentials[key].tokens;
    }
  }

  lemma RotateTickets(tickets: map<Hash, Binding>, credentials: map<Key, Credentials>, key: Key, after: Credentials, random: Hash, binding: Binding)
    requires key in credentials && TicketsIndexed(tickets, credentials)
    requires random !in tickets && after.ticket == Some(random) && binding.key == key
    ensures TicketsIndexed((tickets - TicketOf(credentials[key]))[random := binding], credentials[key := after])
  {
    forall h | h in tickets && h !in TicketOf(credentials[key]) ensures tickets[h].key != key {
      assert credentials[tickets[h].key].ticket == Some(h);
    }
  }

  lemma RotateTokens(tokens: map<Hash, Binding>, credentials: map<Key, Credentials>, key: Key, after: Credentials)
    requires key in credentials && TokensIndexed(tokens, credentials) && after.tokens == {}
    ensures TokensIndexed(tokens - credentials[key].tokens, credentials[key := after])
  {
    TokensDisjoint(tokens, credentials, key);
  }

  lemma RotateIndexed(c: Config, s: State, key: Key, random: Hash)
    requires Indexed(s) && key in s.credentials && random !in s.usedHashes
    ensures Indexed(Rotate(c, s, key, random))
    ensures Rotate(c, s, key, random).credentials.Keys == s.credentials.Keys
  {
    var t := Rotate(c, s, key, random);
    RotateTickets(s.pairingTickets, s.credentials, key, t.credentials[key], random, t.pairingTickets[random]);
    RotateTokens(s.signalingTokens, s.credentials, key, t.credentials[key]);
  }

  lemma CredentialsRuntimeCreated(c: Config, s: State, call: nat, runtime: Option<Resource>, random: Hash)
    requires Structure(c, s) && CredentialsAgree(s) && Enabled(s, RuntimeCreated(call, runtime, random))
    ensures CredentialsAgree(DoRuntimeCreated(c, s, call, runtime, random).after)
  {
    var CreateCall(id, tenantId) := s.calls[call];
    if runtime.Some? {
      var key := Key(tenantId, id);
      CreatedKeyIsNew(c, s, call);
      var s1 := s.(credentials := s.credentials[key := Credentials(s.nextStamp + 1, None, {})]);
      NewCredentials(s, s1, key);
      RotateIndexed(c, s1, key, random);
      CreatedParts(c, s, call, runtime, random);
    }
  }

  lemma CreatedKeyIsNew(c: Config, s: State, call: nat)
    requires Structure(c, s) && ActiveOnly(s) && call in s.calls && s.calls[call].CreateCall?
    ensures Key(s.calls[call].tenantId, s.calls[call].id) !in s.sessions
    ensures Key(s.calls[call].tenantId, s.calls[call].id) !in s.credentials
  {
    hide OneCreatePerId, ReservationsPending;
    assert CallOk(c, s, s.calls[call]);
    var key := Key(s.calls[call].tenantId, s.calls[call].id);
    assert !IsActive(s, key);
  }

  lemma CreatedParts(c: Config, s: State, call: nat, runtime: Option<Resource>, random: Hash)
    requires ActiveOnly(s) && Enabled(s, RuntimeCreated(call, runtime, random)) && runtime.Some?
    requires Key(s.calls[call].tenantId, s.calls[call].id) !in s.credentials
    ensures var key := Key(s.calls[call].tenantId, s.calls[call].id);
      var t := DoRuntimeCreated(c, s, call, runtime, random).after;
      var r := Rotate(c, s.(credentials := s.credentials[key := Credentials(s.nextStamp + 1, None, {})]), key, random);
      t.credentials == r.credentials && t.pairingTickets == r.pairingTickets && t.signalingTokens == r.signalingTokens
      && t.usedHashes == r.usedHashes && ActiveOnly(t)
  {
  }

  lemma NewCredentials(s: State, t: State, key: Key)
    requires Indexed(s) && key !in s.credentials
    requires exists n :: t == s.(credentials := s.credentials[key := Credentials(n, None, {})])
    ensures Indexed(t)
  {
  }

  lemma CredentialsBeginExchange(c: Config, s: State, call: nat, presented: Option<Hash>)
    requires CredentialsAgree(s) && Enabled(s, BeginExchange(call, presented))
    ensures CredentialsAgree(DoBeginExchange(s, call, presented).after)
  {
    if presented.Some? && presented.value in s.pairingTickets {
      var ticket := presented.value;
      var key := s.pairingTickets[ticket].key;
      var after := s.credentials[key].(ticket := None);
      TakenTicketIndexed(s.pairingTickets, s.credentials, ticket);
      TokensFrame(s.signalingTokens, s.credentials, key, after);
    }
  }

  lemma TakenTicketIndexed(tickets: map<Hash, Binding>, credentials: map<Key, Credentials>, ticket: Hash)
    requires TicketsIndexed(tickets, credentials) && ticket in tickets
    ensures var key := tickets[ticket].key;
      TicketsIndexed(tickets - {ticket}, credentials[key := credentials[key].(ticket := None)])
  {
  }

  lemma TokensFrame(tokens: map<Hash, Binding>, credentials: map<Key, Credentials>, key: Key, after: Credentials)
    requires TokensIndexed(tokens, credentials) && key in credentials && after.tokens == credentials[key].tokens
    ensures TokensIndexed(tokens, credentials[key := after])
  {
  }

  lemma TicketsFrame(tickets: map<Hash, Binding>, credentials: map<Key, Credentials>, key: Key, after: Credentials)
    requires TicketsIndexed(tickets, credentials) && key in credentials && after.ticket == credentials[key].ticket
    ensures TicketsIndexed(tickets, credentials[key := after])
  {
  }

  lemma CredentialsBeginAuthorize(c: Config, s: State, call: nat, presented: Option<Hash>)
    requires CredentialsAgree(s) && Enabled(s, BeginAuthorize(call, presented))
    ensures CredentialsAgree(DoBeginAuthorize(s, call, presented).after)
  {
    if presented.Some? && presented.value in s.signalingTokens {
      var token := presented.value;
      var key := s.signalingTokens[token].key;
      var after := s.credentials[key].(tokens := s.credentials[key].tokens - {token});
      TakenTokenIndexed(s.signalingTokens, s.credentials, token, after);
      TicketsFrame(s.pairingTickets, s.credentials, key, after);
    }
  }

  lemma TakenTokenIndexed(tokens: map<Hash, Binding>, credentials: map<Key, Credentials>, token: Hash, after: Credentials)
    requires TokensIndexed(tokens, credentials) && token in tokens
    requires after.tokens == credentials[tokens[token].key].tokens - {token}
    ensures TokensIndexed(tokens - {token}, credentials[tokens[token].key := after])
  {
  }

  lemma CredentialsBeginBurn(c: Config, s: State, call: nat, key: Key)
    requires CredentialsAgree(s) && Enabled(s, BeginBurn(call, key))
    ensures CredentialsAgree(DoBeginBurn(s, call, key).after)
  {
    hide Revoke, TicketsIndexed, TokensIndexed;
    RevokeIndexed(s, key);
  }

  lemma CredentialsInspected(c: Config, s: State, call: nat, inspection: Inspection)
    requires Structure(c, s) && CredentialsAgree(s) && Enabled(s, Inspected(call, inspection))
    ensures CredentialsAgree(DoInspected(s, call, inspection).after)
  {
    hide Revoke, TicketsIndexed, TokensIndexed, OneCreatePerId, ReservationsPending;
    assert CallOk(c, s, s.calls[call]);
    RevokeIndexed(s, s.calls[call].key);
  }

  lemma CredentialsContinue(c: Config, s: State, call: nat, random: Hash)
    requires CredentialsAgree(s) && Enabled(s, Continue(call, random))
    ensures CredentialsAgree(DoContinue(c, s, call, random).after)
  {
    var Observed(key, record, purpose) := s.calls[call];
    if key in s.credentials {
      var s0 := s.(calls := s.calls - {call});
      match purpose
      case ForIssue => RotateIndexed(c, s0, key, random); RotateKeeps(c, s, call, random);
      case ForExchange(ticket, stamp) => MintIndexed(c, s0, key, ticket, random);
      case _ =>
    }
  }

  lemma RotateKeeps(c: Config, s: State, call: nat, random: Hash)
    requires ActiveOnly(s) && Enabled(s, Continue(call, random))
    ensures ActiveOnly(DoContinue(c, s, call, random).after)
  {
  }

  lemma MintIndexed(c: Config, s: State, key: Key, ticket: Hash, random: Hash)
    requires Indexed(s) && key in s.credentials && random !in s.usedHashes
    ensures Indexed(MintToken(c, s, key, ticket, random))
    ensures MintToken(c, s, key, ticket, random).credentials.Keys == s.credentials.Keys
  {
    var t := MintToken(c, s, key, ticket, random);
    TicketsFrame(s.pairingTickets, s.credentials, key, t.credentials[key]);
    AddToken(s.signalingTokens, s.credentials, key, random, t.signalingTokens[random], t.credentials[key]);
  }

  lemma AddToken(tokens: map<Hash, Binding>, credentials: map<Key, Credentials>, key: Key, random: Hash, binding: Binding, after: Credentials)
    requires TokensIndexed(tokens, credentials) && key in credentials && random !in tokens && binding.key == key
    requires after.tokens == credentials[key].tokens + {random}
    ensures TokensIndexed(tokens[random := binding], credentials[key := after])
  {
  }

  lemma CredentialsDestroyed(c: Config, s: State, call: nat, succeeded: bool)
    requires Structure(c, s) && CredentialsAgree(s) && Enabled(s, Destroyed(call, succeeded))
    ensures CredentialsAgree(DoDestroyed(s, call, succeeded).after)
  {
    hide TicketsIndexed, TokensIndexed, OneCreatePerId, ReservationsPending;
    assert CallOk(c, s, s.calls[call]);
  }

  lemma CredentialsStep(c: Config, s: State, e: Event)
    requires Structure(c, s) && CredentialsAgree(s) && Enabled(s, e)
    ensures CredentialsAgree(Next(c, s, e).after)
  {
    hide Structure, TicketsIndexed, TokensIndexed, Revoke, Rotate, MintToken, Admits;
    match e
    case BeginCreate(call, tenantId, id) =>
    case RuntimeCreated(call, runtime, random) => CredentialsRuntimeCreated(c, s, call, runtime, random);
    case BeginRead(call, key, purpose) =>
    case BeginExchange(call, presented) => CredentialsBeginExchange(c, s, call, presented);
    case BeginAuthorize(call, presented) => CredentialsBeginAuthorize(c, s, call, presented);
    case BeginBurn(call, key) => CredentialsBeginBurn(c, s, call, key);
    case Inspected(call, inspection) => CredentialsInspected(c, s, call, inspection);
    case Continue(call, random) => CredentialsContinue(c, s, call, random);
    case Destroyed(call, succeeded) => CredentialsDestroyed(c, s, call, succeeded);
    case ClockMoves(now) =>
  }

  lemma RelaysClosedStep(c: Config, s: State, e: Event, t: State)
    requires Enabled(s, e) && t == Next(c, s, e).after
    requires Structure(c, s) && RelaysClosed(s)
    ensures RelaysClosed(t)
  {
    hide Structure, RelaysClosed, DoBeginCreate, DoRuntimeCreated, DoBeginRead, DoBeginExchange, DoBeginAuthorize,
      DoBeginBurn, DoInspected, DoContinue, DoDestroyed;
    match e
    case BeginCreate(call, tenantId, id) => CreateMaps(c, s, call, tenantId, id); RelaysFrame(s, t);
    case RuntimeCreated(call, runtime, random) => RelaysRuntimeCreated(c, s, call, runtime, random);
    case BeginRead(call, key, purpose) => ReadMaps(s, call, key, purpose); RelaysFrame(s, t);
    case BeginExchange(call, presented) => ExchangeMaps(s, call, presented); RelaysFrame(s, t);
    case BeginAuthorize(call, presented) => AuthorizeMaps(s, call, presented); RelaysFrame(s, t);
    case BeginBurn(call, key) => RelaysBeginBurn(c, s, call, key);
    case Inspected(call, inspection) => RelaysInspected(c, s, call, inspection);
    case Continue(call, random) => ContinueFrame(c, s, call, random); RelaysFrame(s, t);
    case Destroyed(call, succeeded) => RelaysDestroyed(c, s, call, succeeded);
    case ClockMoves(now) => RelaysFrame(s, t);
  }

  lemma RelaysDestroyed(c: Config, s: State, call: nat, succeeded: bool)
    requires RelaysClosed(s) && Enabled(s, Destroyed(call, succeeded))
    ensures RelaysClosed(DoDestroyed(s, call, succeeded).after)
  {
  }

  lemma RelaysFrame(s: State, t: State)
    requires RelaysClosed(s) && t.sessions == s.sessions && s.disconnected == t.disconnected
    requires StartsNoBurn(s, t)
    ensures RelaysClosed(t)
  {
  }

  lemma RelaysRuntimeCreated(c: Config, s: State, call: nat, runtime: Option<Resource>, random: Hash)
    requires RelaysClosed(s) && Enabled(s, RuntimeCreated(call, runtime, random))
    ensures RelaysClosed(DoRuntimeCreated(c, s, call, runtime, random).after)
  {
    hide DoRuntimeCreated;
    CreatedMaps(c, s, call, runtime, random);
  }

  lemma RelaysBeginBurn(c: Config, s: State, call: nat, key: Key)
    requires Structure(c, s) && RelaysClosed(s) && Enabled(s, BeginBurn(call, key))
    ensures RelaysClosed(DoBeginBurn(s, call, key).after)
  {
    hide OneCreatePerId, ReservationsPending;
  }

  lemma RelaysInspected(c: Config, s: State, call: nat, inspection: Inspection)
    requires Structure(c, s) && RelaysClosed(s) && Enabled(s, Inspected(call, inspection))
    ensures RelaysClosed(DoInspected(s, call, inspection).after)
  {
    hide OneCreatePerId, ReservationsPending;
    assert CallOk(c, s, s.calls[call]);
  }

  /** The main theorem: in every state of every run the three credential maps agree and closed relays are told. */
  lemma {:induction false} CredentialAgreement(c: Config, s: State, es: seq<Event>)
    requires Structure(c, s) && CredentialsAgree(s) && RelaysClosed(s) && Legal(c, s, es)
    ensures var t := Exec(c, s, es); Structure(c, t) && CredentialsAgree(t) && RelaysClosed(t)
    decreases |es|
  {
    hide Structure, CredentialsAgree, RelaysClosed, Next;
    if es != [] {
      StructureStep(c, s, es[0]);
      CredentialsStep(c, s, es[0]);
      RelaysClosedStep(c, s, es[0], Next(c, s, es[0]).after);
      CredentialAgreement(c, Next(c, s, es[0]).after, es[1..]);
    }
  }

  lemma InitiallyAgreed(c: Config)
    ensures Structure(c, Initial()) && CredentialsAgree(Initial()) && RelaysClosed(Initial())
  {
  }

  /** In every reachable state. */
  lemma CredentialsAlways(c: Config, es: seq<Event>)
    requires Legal(c, Initial(), es)
    ensures var t := Exec(c, Initial(), es); CredentialsAgree(t) && RelaysClosed(t) && Structure(c, t)
  {
    InitiallyAgreed(c);
    CredentialAgreement(c, Initial(), es);
  }
}
