/**
 One use and provenance of signaling credentials, over every run of the session service.

 A ticket is issued, waits in `pairingTickets`, is carried by a suspended exchange, and is spent on one token; a token
 is minted, waits in `signalingTokens`, is carried by a suspended authorisation, and is granted once. Each of the two
 ledgers below says that a credential is in at most one of these places and where it came from.
 */
module SessionProvenance {
  import opened Wrappers
  import opened SessionModel
  import opened SessionInvariant

  function CarriedTicket(cont: Continuation): Option<Hash> {
    if (cont.InspectCall? || cont.Observed?) && cont.purpose.ForExchange? then Some(cont.purpose.ticket) else None
  }

  function CarriedToken(cont: Continuation): Option<Hash> {
    if (cont.InspectCall? || cont.Observed?) && cont.purpose.ForAuthorize? then Some(cont.purpose.token) else None
  }

  /** A ticket or a token that a suspended method has taken, and the session it was for. */
  datatype Taken = Taken(hash: Hash, key: Key)

  /** The suspended exchanges: which ticket each took, and for which session. */
  function Exchanges(calls: map<nat, Continuation>): map<nat, Taken> {
    map n | n in calls && CarriedTicket(calls[n]).Some? :: Taken(CarriedTicket(calls[n]).value, calls[n].key)
  }

  /** The suspended authorisations: which token each took, and for which session. */
  function Authorizations(calls: map<nat, Continuation>): map<nat, Taken> {
    map n | n in calls && CarriedToken(calls[n]).Some? :: Taken(CarriedToken(calls[n]).value, calls[n].key)
  }

  // ---------- tickets ----------

  ghost predicate Spent(minted: seq<Mint>, ticket: Hash) {
    exists i :: 0 <= i < |minted| && minted[i].ticket == ticket
  }

  ghost predicate DistinctTickets(minted: seq<Mint>) {
    forall i, j :: 0 <= i < j < |minted| ==> minted[i].ticket != minted[j].ticket
  }

  ghost predicate TicketLedger(tickets: map<Hash, Binding>, carried: map<nat, Taken>, issued: seq<Issue>, minted: seq<Mint>, used: set<Hash>) {
    && (forall h :: h in tickets ==> Issue(h, tickets[h].key) in issued && !Spent(minted, h))
    && (forall n :: n in carried ==> Issue(carried[n].hash, carried[n].key) in issued && carried[n].hash !in tickets && !Spent(minted, carried[n].hash))
    && (forall a, b :: a in carried && b in carried && a != b ==> carried[a].hash != carried[b].hash)
    && (forall i :: i in issued ==> i.ticket in used)
    && (forall i, j :: 0 <= i < j < |issued| ==> issued[i].ticket != issued[j].ticket)
    && (forall m :: m in minted ==> Issue(m.ticket, m.key) in issued)
    && DistinctTickets(minted)
    && |minted| + |tickets| + |carried| <= |issued|
  }

  lemma TicketsShrink(tickets: map<Hash, Binding>, carried: map<nat, Taken>, issued: seq<Issue>, minted: seq<Mint>, used: set<Hash>,
                      tickets': map<Hash, Binding>, carried': map<nat, Taken>, used': set<Hash>)
    requires TicketLedger(tickets, carried, issued, minted, used) && used <= used'
    requires tickets'.Keys <= tickets.Keys && forall h :: h in tickets' ==> tickets'[h] == tickets[h]
    requires carried'.Keys <= carried.Keys && forall n :: n in carried' ==> carried'[n] == carried[n]
    ensures TicketLedger(tickets', carried', issued, minted, used')
  {
    CardinalitySubset(tickets'.Keys, tickets.Keys);
    CardinalitySubset(carried'.Keys, carried.Keys);
    assert |tickets'| == |tickets'.Keys| && |tickets| == |tickets.Keys|;
    assert |carried'| == |carried'.Keys| && |carried| == |carried.Keys|;
  }

  lemma {:induction false} CardinalitySubset<T>(a: set<T>, b: set<T>)
    requires a <= b
    ensures |a| <= |b|
  {
    assert b == a + (b - a);
  }

  lemma TicketsIssue(tickets: map<Hash, Binding>, carried: map<nat, Taken>, issued: seq<Issue>, minted: seq<Mint>, used: set<Hash>,
                     random: Hash, binding: Binding)
    requires TicketLedger(tickets, carried, issued, minted, used) && random !in used
    ensures TicketLedger(tickets[random := binding], carried, issued + [Issue(random, binding.key)], minted, used + {random})
  {
    forall i | 0 <= i < |minted| ensures minted[i].ticket != random {
      assert minted[i] in minted;
    }
    forall i | 0 <= i < |issued| ensures issued[i].ticket != random {
      assert issued[i] in issued;
    }
    assert forall n :: n in carried ==> carried[n].hash != random;
    assert |tickets[random := binding]| <= |tickets| + 1;
  }

  lemma TicketsCarry(tickets: map<Hash, Binding>, carried: map<nat, Taken>, issued: seq<Issue>, minted: seq<Mint>, used: set<Hash>,
                     ticket: Hash, call: nat)
    requires TicketLedger(tickets, carried, issued, minted, used) && ticket in tickets && call !in carried
    ensures TicketLedger(tickets - {ticket}, carried[call := Taken(ticket, tickets[ticket].key)], issued, minted, used)
  {
    assert (tickets - {ticket}).Keys == tickets.Keys - {ticket};
    assert |tickets - {ticket}| == |(tickets - {ticket}).Keys|;
    assert |tickets| == |tickets.Keys|;
  }

  lemma TicketsMint(tickets: map<Hash, Binding>, carried: map<nat, Taken>, issued: seq<Issue>, minted: seq<Mint>, used: set<Hash>,
                    call: nat, token: Hash)
    requires TicketLedger(tickets, carried, issued, minted, used) && call in carried
    ensures TicketLedger(tickets, carried - {call}, issued, minted + [Mint(token, carried[call].hash, carried[call].key)], used + {token})
  {
    var m := Mint(token, carried[call].hash, carried[call].key);
    var after := minted + [m];
    forall h | Spent(after, h) && h != m.ticket ensures Spent(minted, h) {
      var i :| 0 <= i < |after| && after[i].ticket == h;
      assert minted[i].ticket == h;
    }
    assert (carried - {call}).Keys == carried.Keys - {call};
    assert |carried - {call}| == |(carried - {call}).Keys|;
    assert |carried| == |carried.Keys|;
    forall x | x in after ensures Issue(x.ticket, x.key) in issued {
      if x in minted { } else { assert x == m; assert carried[call] == Taken(x.ticket, x.key); }
    }
  }

  // ---------- tokens ----------

  ghost predicate MintedFor(minted: seq<Mint>, token: Hash, key: Key) {
    exists i :: 0 <= i < |minted| && minted[i].token == token && minted[i].key == key
  }

  ghost predicate Granted(granted: seq<Grant>, token: Hash) {
    exists i :: 0 <= i < |granted| && granted[i].token == token
  }

  ghost predicate TokenLedger(tokens: map<Hash, Binding>, carried: map<nat, Taken>, minted: seq<Mint>, granted: seq<Grant>, used: set<Hash>) {
    && (forall h :: h in tokens ==> MintedFor(minted, h, tokens[h].key) && !Granted(granted, h))
    && (forall n :: n in carried ==> MintedFor(minted, carried[n].hash, carried[n].key))
    && (forall n :: n in carried ==> carried[n].hash !in tokens && !Granted(granted, carried[n].hash))
    && (forall a, b :: a in carried && b in carried && a != b ==> carried[a].hash != carried[b].hash)
    && (forall i :: 0 <= i < |minted| ==> minted[i].token in used)
    && (forall i, j :: 0 <= i < j < |minted| ==> minted[i].token != minted[j].token)
    && (forall i :: 0 <= i < |granted| ==> MintedFor(minted, granted[i].token, granted[i].key))
    && (forall i, j :: 0 <= i < j < |granted| ==> granted[i].token != granted[j].token)
    && |granted| + |tokens| + |carried| <= |minted|
  }

  lemma TokensShrink(tokens: map<Hash, Binding>, carried: map<nat, Taken>, minted: seq<Mint>, granted: seq<Grant>, used: set<Hash>,
                     tokens': map<Hash, Binding>, carried': map<nat, Taken>, used': set<Hash>)
    requires TokenLedger(tokens, carried, minted, granted, used) && used <= used'
    requires tokens'.Keys <= tokens.Keys && forall h :: h in tokens' ==> tokens'[h] == tokens[h]
    requires carried'.Keys <= carried.Keys && forall n :: n in carried' ==> carried'[n] == carried[n]
    ensures TokenLedger(tokens', carried', minted, granted, used')
  {
    CardinalitySubset(tokens'.Keys, tokens.Keys);
    CardinalitySubset(carried'.Keys, carried.Keys);
    assert |tokens'| == |tokens'.Keys| && |tokens| == |tokens.Keys|;
    assert |carried'| == |carried'.Keys| && |carried| == |carried.Keys|;
  }

  lemma TokensMint(tokens: map<Hash, Binding>, carried: map<nat, Taken>, minted: seq<Mint>, granted: seq<Grant>, used: set<Hash>,
                   random: Hash, binding: Binding, ticket: Hash)
    requires TokenLedger(tokens, carried, minted, granted, used) && random !in used
    ensures TokenLedger(tokens[random := binding], carried, minted + [Mint(random, ticket, binding.key)], granted, used + {random})
  {
    var after := minted + [Mint(random, ticket, binding.key)];
    forall h, k | MintedFor(minted, h, k) ensures h != random && MintedFor(after, h, k) {
      var i :| 0 <= i < |minted| && minted[i].token == h && minted[i].key == k;
      assert after[i] == minted[i];
    }
    assert after[|minted|].token == random && MintedFor(after, random, binding.key);
    forall i | 0 <= i < |granted| ensures granted[i].token != random {
      assert MintedFor(minted, granted[i].token, granted[i].key);
    }
    assert |tokens[random := binding]| <= |tokens| + 1;
  }

  lemma TokensCarry(tokens: map<Hash, Binding>, carried: map<nat, Taken>, minted: seq<Mint>, granted: seq<Grant>, used: set<Hash>,
                    token: Hash, call: nat)
    requires TokenLedger(tokens, carried, minted, granted, used) && token in tokens && call !in carried
    ensures TokenLedger(tokens - {token}, carried[call := Taken(token, tokens[token].key)], minted, granted, used)
  {
    hide MintedFor, Granted;
    assert (tokens - {token}).Keys == tokens.Keys - {token};
    assert |tokens - {token}| == |(tokens - {token}).Keys|;
    assert |tokens| == |tokens.Keys|;
  }

  lemma GrantedLater(granted: seq<Grant>, g: Grant)
    ensures forall h :: Granted(granted + [g], h) && h != g.token ==> Granted(granted, h)
  {
    forall h | Granted(granted + [g], h) && h != g.token ensures Granted(granted, h) {
      var i :| 0 <= i < |granted + [g]| && (granted + [g])[i].token == h;
      assert granted[i].token == h;
    }
  }

  lemma TokensGrant(tokens: map<Hash, Binding>, carried: map<nat, Taken>, minted: seq<Mint>, granted: seq<Grant>, used: set<Hash>, call: nat, g: Grant)
    requires call in carried && carried[call] == Taken(g.token, g.key)
    requires TokenLedger(tokens, carried, minted, granted, used)
    ensures TokenLedger(tokens, carried - {call}, minted, granted + [g], used)
  {
    GrantDistinct(granted, g);
    GrantMinted(minted, granted, g);
    CarriedLess(carried, call);
    hide MintedFor, Granted;
    GrantSpares(tokens, carried, granted, call, g);
  }

  /** A grant touches no token but the one it takes. */
  lemma GrantSpares(tokens: map<Hash, Binding>, carried: map<nat, Taken>, granted: seq<Grant>, call: nat, g: Grant)
    requires call in carried && carried[call] == Taken(g.token, g.key)
    requires forall h :: h in tokens ==> !Granted(granted, h)
    requires forall n :: n in carried ==> carried[n].hash !in tokens && !Granted(granted, carried[n].hash)
    requires forall a, b :: a in carried && b in carried && a != b ==> carried[a].hash != carried[b].hash
    ensures forall n :: n in carried - {call} ==> !Granted(granted + [g], (carried - {call})[n].hash)
    ensures forall h :: h in tokens ==> !Granted(granted + [g], h)
  {
    GrantedLater(granted, g);
    hide Granted;
  }

  lemma GrantMinted(minted: seq<Mint>, granted: seq<Grant>, g: Grant)
    requires MintedFor(minted, g.token, g.key)
    requires forall i :: 0 <= i < |granted| ==> MintedFor(minted, granted[i].token, granted[i].key)
    ensures var after := granted + [g]; forall i :: 0 <= i < |after| ==> MintedFor(minted, after[i].token, after[i].key)
  {
    hide MintedFor;
  }

  lemma CarriedLess<T>(carried: map<nat, T>, call: nat)
    requires call in carried
    ensures |carried - {call}| == |carried| - 1
  {
    assert (carried - {call}).Keys == carried.Keys - {call};
    assert |carried - {call}| == |(carried - {call}).Keys|;
    assert |carried| == |carried.Keys|;
  }

  lemma GrantDistinct(granted: seq<Grant>, g: Grant)
    requires !Granted(granted, g.token)
    requires forall i, j :: 0 <= i < j < |granted| ==> granted[i].token != granted[j].token
    ensures var after := granted + [g]; forall i, j :: 0 <= i < j < |after| ==> after[i].token != after[j].token
  {
  }

  // ---------- every step keeps both ledgers ----------

  ghost predicate Ledgers(s: State) {
    && TicketLedger(s.pairingTickets, Exchanges(s.calls), s.issued, s.minted, s.usedHashes)
    && TokenLedger(s.signalingTokens, Authorizations(s.calls), s.minted, s.granted, s.usedHashes)
  }

  /** Credentials may disappear, and calls may end or start, as long as no call takes up a credential. */
  lemma LedgersShrink(s: State, t: State)
    requires Ledgers(s)
    requires t.issued == s.issued && t.minted == s.minted && t.granted == s.granted && s.usedHashes <= t.usedHashes
    requires t.pairingTickets.Keys <= s.pairingTickets.Keys && forall h :: h in t.pairingTickets ==> t.pairingTickets[h] == s.pairingTickets[h]
    requires t.signalingTokens.Keys <= s.signalingTokens.Keys && forall h :: h in t.signalingTokens ==> t.signalingTokens[h] == s.signalingTokens[h]
    requires forall n :: n in t.calls && (CarriedTicket(t.calls[n]).Some? || CarriedToken(t.calls[n]).Some?) ==>
               n in s.calls && CarriedTicket(s.calls[n]) == CarriedTicket(t.calls[n])
               && CarriedToken(s.calls[n]) == CarriedToken(t.calls[n]) && s.calls[n].key == t.calls[n].key
    ensures Ledgers(t)
  {
    hide TicketLedger, TokenLedger;
    TicketsShrink(s.pairingTickets, Exchanges(s.calls), s.issued, s.minted, s.usedHashes,
                  t.pairingTickets, Exchanges(t.calls), t.usedHashes);
    TokensShrink(s.signalingTokens, Authorizations(s.calls), s.minted, s.granted, s.usedHashes,
                 t.signalingTokens, Authorizations(t.calls), t.usedHashes);
  }

  lemma LedgersRotate(c: Config, s: State, key: Key, random: Hash)
    requires Ledgers(s) && key in s.credentials && random !in s.usedHashes
    ensures Ledgers(Rotate(c, s, key, random))
  {
    hide TicketLedger, TokenLedger;
    var t := Rotate(c, s, key, random);
    var kept := s.pairingTickets - TicketOf(s.credentials[key]);
    var ex, au := Exchanges(s.calls), Authorizations(s.calls);
    TicketsShrink(s.pairingTickets, ex, s.issued, s.minted, s.usedHashes, kept, ex, s.usedHashes);
    TicketsIssue(kept, ex, s.issued, s.minted, s.usedHashes, random, t.pairingTickets[random]);
    TokensShrink(s.signalingTokens, au, s.minted, s.granted, s.usedHashes, t.signalingTokens, au, t.usedHashes);
  }

  lemma CarriedDrop(calls: map<nat, Continuation>, call: nat)
    ensures Exchanges(calls - {call}) == Exchanges(calls) - {call}
    ensures Authorizations(calls - {call}) == Authorizations(calls) - {call}
    ensures call in calls && CarriedTicket(calls[call]).None? ==> Exchanges(calls - {call}) == Exchanges(calls)
    ensures call in calls && CarriedToken(calls[call]).None? ==> Authorizations(calls - {call}) == Authorizations(calls)
  {
  }

  lemma CarriedAdd(calls: map<nat, Continuation>, call: nat, cont: Continuation)
    requires call !in calls
    ensures CarriedTicket(cont).None? ==> Exchanges(calls[call := cont]) == Exchanges(calls)
    ensures CarriedToken(cont).None? ==> Authorizations(calls[call := cont]) == Authorizations(calls)
    ensures CarriedTicket(cont).Some? ==>
              Exchanges(calls[call := cont]) == Exchanges(calls)[call := Taken(CarriedTicket(cont).value, cont.key)]
    ensures CarriedToken(cont).Some? ==>
              Authorizations(calls[call := cont]) == Authorizations(calls)[call := Taken(CarriedToken(cont).value, cont.key)]
  {
  }

  lemma LedgersMint(c: Config, s: State, call: nat, key: Key, ticket: Hash, random: Hash)
    requires Ledgers(s) && random !in s.usedHashes && key in s.credentials
    requires call in s.calls && CarriedTicket(s.calls[call]) == Some(ticket) && s.calls[call].key == key
    ensures Ledgers(MintToken(c, s.(calls := s.calls - {call}), key, ticket, random))
  {
    hide TicketLedger, TokenLedger;
    var t := MintToken(c, s.(calls := s.calls - {call}), key, ticket, random);
    var ex := Exchanges(s.calls);
    assert ex[call] == Taken(ticket, key);
    CarriedDrop(s.calls, call);
    TicketsMint(s.pairingTickets, ex, s.issued, s.minted, s.usedHashes, call, random);
    TokensMint(s.signalingTokens, Authorizations(s.calls), s.minted, s.granted, s.usedHashes, random,
               t.signalingTokens[random], ticket);
  }

  lemma LedgersContinueExchange(c: Config, s: State, call: nat, random: Hash)
    requires Ledgers(s) && Enabled(s, Continue(call, random)) && s.calls[call].purpose.ForExchange?
    ensures Ledgers(DoContinue(c, s, call, random).after)
  {
    hide Ledgers, MintToken;
    var Observed(key, record, purpose) := s.calls[call];
    var s0 := s.(calls := s.calls - {call});
    if record.phase != Active || key !in s.credentials || s.credentials[key].stamp != purpose.credentials {
      LedgersShrink(s, s0);
    } else {
      LedgersMint(c, s, call, key, purpose.ticket, random);
    }
  }

  lemma LedgersGrant(s: State, call: nat, key: Key, token: Hash)
    requires Ledgers(s)
    requires call in s.calls && CarriedToken(s.calls[call]) == Some(token) && s.calls[call].key == key
    ensures Ledgers(s.(calls := s.calls - {call}, granted := s.granted + [Grant(token, key)]))
  {
    hide TicketLedger, TokenLedger;
    var au := Authorizations(s.calls);
    assert au[call] == Taken(token, key);
    CarriedDrop(s.calls, call);
    TokensGrant(s.signalingTokens, au, s.minted, s.granted, s.usedHashes, call, Grant(token, key));
  }

  lemma LedgersContinueAuthorize(c: Config, s: State, call: nat, random: Hash)
    requires Structure(c, s) && Ledgers(s) && Enabled(s, Continue(call, random)) && s.calls[call].purpose.ForAuthorize?
    ensures Ledgers(DoContinue(c, s, call, random).after)
  {
    hide Ledgers, OneCreatePerId, ReservationsPending;
    assert CallOk(c, s, s.calls[call]);
    var Observed(key, record, purpose) := s.calls[call];
    var s0 := s.(calls := s.calls - {call});
    if record.phase != Active {
      LedgersShrink(s, s0);
    } else {
      LedgersGrant(s, call, key, purpose.token);
    }
  }

  lemma LedgersContinueIssue(c: Config, s: State, call: nat, random: Hash)
    requires Ledgers(s) && Enabled(s, Continue(call, random)) && s.calls[call].purpose.ForIssue?
    ensures Ledgers(DoContinue(c, s, call, random).after)
  {
    hide Ledgers, Rotate;
    var s0 := s.(calls := s.calls - {call});
    LedgersShrink(s, s0);
    if s.calls[call].key in s.credentials { LedgersRotate(c, s0, s.calls[call].key, random); }
  }

  lemma LedgersContinueRead(c: Config, s: State, call: nat, random: Hash)
    requires Ledgers(s) && Enabled(s, Continue(call, random)) && (s.calls[call].purpose.ForGet? || s.calls[call].purpose.ForTabs?)
    ensures Ledgers(DoContinue(c, s, call, random).after)
  {
    hide Ledgers;
    LedgersShrink(s, s.(calls := s.calls - {call}));
  }

  lemma LedgersContinue(c: Config, s: State, call: nat, random: Hash, t: State)
    requires Enabled(s, Continue(call, random)) && t == DoContinue(c, s, call, random).after
    requires Structure(c, s) && Ledgers(s)
    ensures Ledgers(t)
  {
    hide Ledgers, Structure, DoContinue;
    match s.calls[call].purpose
    case ForGet => LedgersContinueRead(c, s, call, random);
    case ForTabs => LedgersContinueRead(c, s, call, random);
    case ForIssue => LedgersContinueIssue(c, s, call, random);
    case ForExchange(_, _) => LedgersContinueExchange(c, s, call, random);
    case ForAuthorize(_) => LedgersContinueAuthorize(c, s, call, random);
  }

  lemma LedgersBeginExchange(s: State, call: nat, presented: Option<Hash>)
    requires Enabled(s, BeginExchange(call, presented))
    requires Ledgers(s)
    ensures Ledgers(DoBeginExchange(s, call, presented).after)
  {
    hide Ledgers, DoBeginExchange;
    ExchangeTakes(s, call, presented);
    var t := DoBeginExchange(s, call, presented).after;
    if t.calls == s.calls {
      LedgersShrink(s, t);
    } else {
      LedgersTakeTicket(s, t, call, presented.value);
    }
  }

  /** What the synchronous prefix takes: nothing, or the presented ticket, with or without going on to an inspection. */
  lemma ExchangeTakes(s: State, call: nat, presented: Option<Hash>)
    requires call !in s.calls
    ensures var t := DoBeginExchange(s, call, presented).after;
      && t.issued == s.issued && t.minted == s.minted && t.granted == s.granted && t.usedHashes == s.usedHashes
      && t.signalingTokens == s.signalingTokens
      && (t.pairingTickets == s.pairingTickets
          || (presented.Some? && presented.value in s.pairingTickets && t.pairingTickets == s.pairingTickets - {presented.value}))
      && (t.calls == s.calls
          || (presented.Some? && presented.value in s.pairingTickets && t.pairingTickets == s.pairingTickets - {presented.value}
              && call in t.calls && t.calls == s.calls[call := t.calls[call]]
              && CarriedTicket(t.calls[call]) == Some(presented.value) && t.calls[call].key == s.pairingTickets[presented.value].key))
  {
    hide TakeTicket;
    if presented.Some? { TakeFrame(s, presented.value); }
  }

  lemma LedgersTakeTicket(s: State, t: State, call: nat, ticket: Hash)
    requires Ledgers(s) && ticket in s.pairingTickets && call !in s.calls && call in t.calls
    requires t.calls == s.calls[call := t.calls[call]]
    requires CarriedTicket(t.calls[call]) == Some(ticket) && t.calls[call].key == s.pairingTickets[ticket].key
    requires t.pairingTickets == s.pairingTickets - {ticket} && t.signalingTokens == s.signalingTokens
    requires t.issued == s.issued && t.minted == s.minted && t.granted == s.granted && t.usedHashes == s.usedHashes
    ensures Ledgers(t)
  {
    hide TicketLedger, TokenLedger, Exchanges, Authorizations;
    CarriedAdd(s.calls, call, t.calls[call]);
    ExchangesOf(s.calls);
    TicketsCarry(s.pairingTickets, Exchanges(s.calls), s.issued, s.minted, s.usedHashes, ticket, call);
  }

  lemma ExchangesOf(calls: map<nat, Continuation>)
    ensures Exchanges(calls).Keys <= calls.Keys && Authorizations(calls).Keys <= calls.Keys
  {
  }

  lemma LedgersBeginAuthorize(s: State, call: nat, presented: Option<Hash>)
    requires Enabled(s, BeginAuthorize(call, presented))
    requires Ledgers(s)
    ensures Ledgers(DoBeginAuthorize(s, call, presented).after)
  {
    hide Ledgers, DoBeginAuthorize;
    AuthorizeTakes(s, call, presented);
    var t := DoBeginAuthorize(s, call, presented).after;
    if t.calls == s.calls {
      LedgersShrink(s, t);
    } else {
      LedgersTakeToken(s, t, call, presented.value);
    }
  }

  /** What the synchronous prefix takes: nothing, or the presented token, with or without going on to an inspection. */
  lemma AuthorizeTakes(s: State, call: nat, presented: Option<Hash>)
    requires call !in s.calls
    ensures var t := DoBeginAuthorize(s, call, presented).after;
      && t.issued == s.issued && t.minted == s.minted && t.granted == s.granted && t.usedHashes == s.usedHashes
      && t.pairingTickets == s.pairingTickets
      && (t.signalingTokens == s.signalingTokens
          || (presented.Some? && presented.value in s.signalingTokens && t.signalingTokens == s.signalingTokens - {presented.value}))
      && (t.calls == s.calls
          || (presented.Some? && presented.value in s.signalingTokens && t.signalingTokens == s.signalingTokens - {presented.value}
              && call in t.calls && t.calls == s.calls[call := t.calls[call]]
              && CarriedToken(t.calls[call]) == Some(presented.value) && t.calls[call].key == s.signalingTokens[presented.value].key))
  {
    hide TakeToken;
    if presented.Some? { TakeFrame(s, presented.value); }
  }

  lemma LedgersTakeToken(s: State, t: State, call: nat, token: Hash)
    requires Ledgers(s) && token in s.signalingTokens && call !in s.calls && call in t.calls
    requires t.calls == s.calls[call := t.calls[call]]
    requires CarriedToken(t.calls[call]) == Some(token) && t.calls[call].key == s.signalingTokens[token].key
    requires t.signalingTokens == s.signalingTokens - {token} && t.pairingTickets == s.pairingTickets
    requires t.issued == s.issued && t.minted == s.minted && t.granted == s.granted && t.usedHashes == s.usedHashes
    ensures Ledgers(t)
  {
    hide TicketLedger, TokenLedger, Exchanges, Authorizations;
    CarriedAdd(s.calls, call, t.calls[call]);
    ExchangesOf(s.calls);
    TokensCarry(s.signalingTokens, Authorizations(s.calls), s.minted, s.granted, s.usedHashes, token, call);
  }

  lemma LedgersRuntimeCreated(c: Config, s: State, call: nat, runtime: Option<Resource>, random: Hash)
    requires Ledgers(s) && Enabled(s, RuntimeCreated(call, runtime, random))
    ensures Ledgers(DoRuntimeCreated(c, s, call, runtime, random).after)
  {
    hide Ledgers;
    var t := DoRuntimeCreated(c, s, call, runtime, random).after;
    var CreateCall(id, tenantId) := s.calls[call];
    var s0 := s.(calls := s.calls - {call}, reservations := s.reservations - {id});
    LedgersShrink(s, s0);
    match runtime
    case None =>
    case Some(r) =>
      var key := Key(tenantId, id);
      var s1 := s0.(sessions := s.sessions[key := Record(s.nextStamp, key, Active, c.quota, r, None)],
                    credentials := s.credentials[key := Credentials(s.nextStamp + 1, None, {})],
                    nextStamp := s.nextStamp + 2);
      LedgersShrink(s0, s1);
      LedgersRotate(c, s1, key, random);
  }

  lemma LedgersBeginBurn(s: State, call: nat, key: Key)
    requires Ledgers(s) && Enabled(s, BeginBurn(call, key))
    ensures Ledgers(DoBeginBurn(s, call, key).after)
  {
    hide Ledgers;
    LedgersShrink(s, DoBeginBurn(s, call, key).after);
  }

  lemma LedgersInspected(s: State, call: nat, inspection: Inspection)
    requires Ledgers(s) && Enabled(s, Inspected(call, inspection))
    ensures Ledgers(DoInspected(s, call, inspection).after)
  {
    hide Ledgers;
    LedgersShrink(s, DoInspected(s, call, inspection).after);
  }

  lemma LedgersStep(c: Config, s: State, e: Event)
    requires Structure(c, s) && Ledgers(s) && Enabled(s, e)
    ensures Ledgers(Next(c, s, e).after)
  {
    hide Structure, Ledgers, DoBeginCreate, DoContinue, DoBeginExchange, DoBeginAuthorize, DoRuntimeCreated, DoBeginBurn,
      DoInspected, DoBeginRead, DoDestroyed;
    match e
    case BeginCreate(call, tenantId, id) => LedgersBeginCreate(c, s, call, tenantId, id);
    case RuntimeCreated(call, runtime, random) => LedgersRuntimeCreated(c, s, call, runtime, random);
    case BeginRead(call, key, purpose) => LedgersBeginRead(s, call, key, purpose);
    case BeginExchange(call, presented) => LedgersBeginExchange(s, call, presented);
    case BeginAuthorize(call, presented) => LedgersBeginAuthorize(s, call, presented);
    case BeginBurn(call, key) => LedgersBeginBurn(s, call, key);
    case Inspected(call, inspection) => LedgersInspected(s, call, inspection);
    case Continue(call, random) => LedgersContinue(c, s, call, random, DoContinue(c, s, call, random).after);
    case Destroyed(call, succeeded) => LedgersDestroyed(s, call, succeeded);
    case ClockMoves(now) => LedgersShrink(s, s.(clock := now));
  }

  lemma LedgersBeginCreate(c: Config, s: State, call: nat, tenantId: string, id: string)
    requires Ledgers(s) && Enabled(s, BeginCreate(call, tenantId, id))
    ensures Ledgers(DoBeginCreate(c, s, call, tenantId, id).after)
  {
    hide Ledgers, Admits;
    LedgersShrink(s, DoBeginCreate(c, s, call, tenantId, id).after);
  }

  lemma LedgersBeginRead(s: State, call: nat, key: Key, purpose: Purpose)
    requires Ledgers(s) && Enabled(s, BeginRead(call, key, purpose))
    ensures Ledgers(DoBeginRead(s, call, key, purpose).after)
  {
    hide Ledgers;
    LedgersShrink(s, DoBeginRead(s, call, key, purpose).after);
  }

  lemma LedgersDestroyed(s: State, call: nat, succeeded: bool)
    requires Ledgers(s) && Enabled(s, Destroyed(call, succeeded))
    ensures Ledgers(DoDestroyed(s, call, succeeded).after)
  {
    hide Ledgers;
    LedgersShrink(s, DoDestroyed(s, call, succeeded).after);
  }

  /** What the ledgers mean: one use of every ticket and token, an origin for every grant, and the two counts. */
  ghost predicate OneUse(s: State) {
    && (forall i, j :: 0 <= i < j < |s.minted| ==> s.minted[i].ticket != s.minted[j].ticket)
    && (forall i, j :: 0 <= i < j < |s.granted| ==> s.granted[i].token != s.granted[j].token)
    && (forall g :: 0 <= g < |s.granted| ==> Origin(s, s.granted[g]))
    && |s.granted| <= |s.minted| <= |s.issued|
  }

  /** The granted token was minted from a ticket that was issued for the very session the grant names. */
  ghost predicate Origin(s: State, g: Grant) {
    exists i, j :: 0 <= i < |s.minted| && 0 <= j < |s.issued|
      && s.minted[i].token == g.token && s.minted[i].key == g.key
      && s.issued[j].ticket == s.minted[i].ticket && s.issued[j].key == g.key
  }

  lemma LedgersMeanOneUse(s: State)
    requires Ledgers(s)
    ensures OneUse(s)
  {
    forall g | 0 <= g < |s.granted| ensures Origin(s, s.granted[g]) {
      var i :| 0 <= i < |s.minted| && s.minted[i].token == s.granted[g].token && s.minted[i].key == s.granted[g].key;
      assert s.minted[i] in s.minted;
      var j :| 0 <= j < |s.issued| && s.issued[j] == Issue(s.minted[i].ticket, s.minted[i].key);
    }
  }

  lemma {:induction false} OneUseAlways(c: Config, s: State, es: seq<Event>)
    requires Structure(c, s) && Ledgers(s) && Legal(c, s, es)
    ensures OneUse(Exec(c, s, es))
    ensures Ledgers(Exec(c, s, es))
    decreases |es|
  {
    hide Structure, Ledgers, OneUse, Next;
    if es == [] {
      LedgersMeanOneUse(s);
    } else {
      StructureStep(c, s, es[0]);
      LedgersStep(c, s, es[0]);
      OneUseAlways(c, Next(c, s, es[0]).after, es[1..]);
    }
  }

  lemma InitialLedgers()
    ensures Ledgers(Initial())
  {
  }

  /** What one step may write into the ledgers: exactly its successful result. */
  ghost predicate Booked(s: State, e: Event, r: Step) {
    && r.after.issued == s.issued + (match r.outcome
                                     case Created(key, ticket) => [Issue(ticket, key)]
                                     case TicketIssued(ticket) => if e.Continue? && e.call in s.calls && s.calls[e.call].Observed?
                                                                  then [Issue(ticket, s.calls[e.call].key)] else []
                                     case _ => [])
    && r.after.minted == s.minted + (if r.outcome.TokenMinted? && e.Continue? && e.call in s.calls && CarriedTicket(s.calls[e.call]).Some?
                                     then [Mint(r.outcome.token, CarriedTicket(s.calls[e.call]).value, s.calls[e.call].key)] else [])
    && r.after.granted == s.granted + (if r.outcome.Authorized? && e.Continue? && e.call in s.calls && CarriedToken(s.calls[e.call]).Some?
                                       then [Grant(CarriedToken(s.calls[e.call]).value, Key(r.outcome.tenantId, r.outcome.sessionId))] else [])
  }

  /** Nothing is handed out off the books, and nothing is booked that was not handed out. */
  lemma LedgersRecordOutcomes(c: Config, s: State, e: Event)
    requires Enabled(s, e)
    ensures Booked(s, e, Next(c, s, e))
    ensures Next(c, s, e).outcome.TokenMinted? ==> e.Continue? && CarriedTicket(s.calls[e.call]).Some?
    ensures Next(c, s, e).outcome.Authorized? ==> e.Continue? && CarriedToken(s.calls[e.call]).Some?
  {
    hide DoBeginCreate, DoRuntimeCreated, DoContinue, DoInspected, DoBeginBurn, DoDestroyed, DoBeginExchange, DoBeginAuthorize,
      DoBeginRead, Booked;
    match e
    case BeginCreate(call, tenantId, id) => BookedBeginCreate(c, s, call, tenantId, id);
    case RuntimeCreated(call, runtime, random) => BookedRuntimeCreated(c, s, call, runtime, random);
    case BeginRead(call, key, purpose) => BookedBeginRead(s, call, key, purpose);
    case BeginExchange(call, presented) => BookedBeginExchange(s, call, presented);
    case BeginAuthorize(call, presented) => BookedBeginAuthorize(s, call, presented);
    case BeginBurn(call, key) => BookedBeginBurn(s, call, key);
    case Inspected(call, inspection) => BookedInspected(s, call, inspection);
    case Continue(call, random) => BookedContinue(c, s, call, random);
    case Destroyed(call, succeeded) => BookedDestroyed(s, call, succeeded);
    case ClockMoves(now) => BookedClock(s, now);
  }

  lemma BookedBeginCreate(c: Config, s: State, call: nat, tenantId: string, id: string)
    requires Enabled(s, BeginCreate(call, tenantId, id))
    ensures var r := DoBeginCreate(c, s, call, tenantId, id);
      Booked(s, BeginCreate(call, tenantId, id), r) && !r.outcome.TokenMinted? && !r.outcome.Authorized?
  {
    hide Admits;
  }

  lemma BookedRuntimeCreated(c: Config, s: State, call: nat, runtime: Option<Resource>, random: Hash)
    requires Enabled(s, RuntimeCreated(call, runtime, random))
    ensures var r := DoRuntimeCreated(c, s, call, runtime, random);
      Booked(s, RuntimeCreated(call, runtime, random), r) && !r.outcome.TokenMinted? && !r.outcome.Authorized?
  {
  }

  lemma BookedBeginRead(s: State, call: nat, key: Key, purpose: Purpose)
    ensures var r := DoBeginRead(s, call, key, purpose);
      Booked(s, BeginRead(call, key, purpose), r) && !r.outcome.TokenMinted? && !r.outcome.Authorized?
  {
  }

  lemma BookedBeginExchange(s: State, call: nat, presented: Option<Hash>)
    ensures var r := DoBeginExchange(s, call, presented);
      Booked(s, BeginExchange(call, presented), r) && !r.outcome.TokenMinted? && !r.outcome.Authorized?
  {
    hide TakeTicket;
    if presented.Some? { TakeFrame(s, presented.value); }
  }

  lemma BookedBeginAuthorize(s: State, call: nat, presented: Option<Hash>)
    ensures var r := DoBeginAuthorize(s, call, presented);
      Booked(s, BeginAuthorize(call, presented), r) && !r.outcome.TokenMinted? && !r.outcome.Authorized?
  {
    hide TakeToken;
    if presented.Some? { TakeFrame(s, presented.value); }
  }

  lemma BookedBeginBurn(s: State, call: nat, key: Key)
    requires Enabled(s, BeginBurn(call, key))
    ensures var r := DoBeginBurn(s, call, key);
      Booked(s, BeginBurn(call, key), r) && !r.outcome.TokenMinted? && !r.outcome.Authorized?
  {
  }

  lemma BookedInspected(s: State, call: nat, inspection: Inspection)
    requires Enabled(s, Inspected(call, inspection))
    ensures var r := DoInspected(s, call, inspection);
      Booked(s, Inspected(call, inspection), r) && !r.outcome.TokenMinted? && !r.outcome.Authorized?
  {
  }

  lemma BookedDestroyed(s: State, call: nat, succeeded: bool)
    requires Enabled(s, Destroyed(call, succeeded))
    ensures var r := DoDestroyed(s, call, succeeded);
      Booked(s, Destroyed(call, succeeded), r) && !r.outcome.TokenMinted? && !r.outcome.Authorized?
  {
  }

  lemma BookedClock(s: State, now: int)
    ensures Booked(s, ClockMoves(now), Step(s.(clock := now), Ticked))
  {
  }

  lemma BookedContinue(c: Config, s: State, call: nat, random: Hash)
    requires Enabled(s, Continue(call, random))
    ensures var r := DoContinue(c, s, call, random);
      && Booked(s, Continue(call, random), r)
      && (r.outcome.TokenMinted? ==> CarriedTicket(s.calls[call]).Some?)
      && (r.outcome.Authorized? ==> CarriedToken(s.calls[call]).Some?)
  {
  }

  /** In every reachable state. */
  lemma OneUseEver(c: Config, es: seq<Event>)
    requires Legal(c, Initial(), es)
    ensures OneUse(Exec(c, Initial(), es))
  {
    hide OneUse, Ledgers;
    assert Structure(c, Initial());
    InitialLedgers();
    OneUseAlways(c, Initial(), es);
  }
}
