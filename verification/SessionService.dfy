/**
 The session service itself: the five maps of src/domain/session-service.ts as fields, and its methods as imperative
 segments, one per stretch of code between two awaits. Each segment is proved to do exactly what the step machine of
 SessionModel says, so every theorem about its runs is a theorem about these methods.
 */
module SessionService {
  import opened Wrappers
  import opened SessionModel

  /** Quotas may be summed in any order. */
  lemma {:induction false} TotalWithout<K>(quotas: map<K, Quota>, k: K)
    requires k in quotas
    ensures Total(quotas) == Plus(quotas[k], Total(quotas - {k}))
    decreases |quotas|
  {
    var j := AnyKey(quotas);
    if j != k {
      OneLess(quotas, j);
      OneLess(quotas, k);
      TotalWithout(quotas - {j}, k);
      TotalWithout(quotas - {k}, j);
      assert quotas - {j} - {k} == quotas - {k} - {j};
    }
  }

  lemma MapSize<K, V, W>(a: map<K, V>, b: map<K, W>)
    requires a.Keys == b.Keys
    ensures |a| == |b|
  {
    assert |a| == |a.Keys| && |b| == |b.Keys|;
  }

  lemma PlusFromZero(q: Quota)
    ensures Plus(Quota(0, 0, 0), q) == q
  {
  }

  lemma PlusAssociates(a: Quota, b: Quota, d: Quota)
    ensures Plus(Plus(a, b), d) == Plus(a, Plus(b, d))
  {
  }

  lemma PlusZero(q: Quota)
    ensures Plus(q, Quota(0, 0, 0)) == q
  {
  }

  /** The reduction in currentAllocation, over one of the two maps. */
  method AddQuotas<K(==)>(quotas: map<K, Quota>, start: Capacity) returns (sum: Capacity)
    ensures sum == Capacity(start.maximumSessions + |quotas|, Plus(start.quota, Total(quotas)))
  {
    hide Total, Plus;
    var count, total := start.maximumSessions, start.quota;
    var rest := quotas;
    while rest != map[]
      invariant count + |rest| == start.maximumSessions + |quotas|
      invariant Plus(total, Total(rest)) == Plus(start.quota, Total(quotas))
      decreases |rest|
    {
      var k :| k in rest;
      TotalWithout(rest, k);
      PlusAssociates(total, rest[k], Total(rest - {k}));
      OneLess(rest, k);
      count, total := count + 1, Plus(total, rest[k]);
      rest := rest - {k};
    }
    TotalOfNothing<K>();
    PlusZero(total);
    sum := Capacity(count, total);
  }

  lemma OneLess<K, V>(m: map<K, V>, k: K)
    requires k in m
    ensures |m| == |m - {k}| + 1
  {
    assert (m - {k}).Keys == m.Keys - {k};
    assert |m - {k}| == |(m - {k}).Keys| && |m| == |m.Keys|;
  }

  lemma TotalOfNothing<K>()
    ensures Total<K>(map[]) == Quota(0, 0, 0)
  {
  }

  function TenantSessionCount(sessions: map<Key, Record>, tenantId: string): nat {
    |set k | k in sessions && sessions[k].key.tenantId == tenantId|
  }

  function TenantReservationCount(reservations: map<string, Reservation>, tenantId: string): nat {
    |set i | i in reservations && reservations[i].tenantId == tenantId|
  }

  class SessionService {
    const config: Config
    var sessions: map<Key, Record>
    var reservations: map<string, Reservation>
    var credentials: map<Key, Credentials>
    var pairingTickets: map<Hash, Binding>
    var signalingTokens: map<Hash, Binding>
    // The suspended methods, the clock, and the supply of object identities belong to the JavaScript runtime.
    var calls: map<nat, Continuation>
    var clock: int
    var nextStamp: nat
    ghost var usedIds: set<string>
    ghost var usedHashes: set<Hash>
    ghost var issued: seq<Issue>
    ghost var minted: seq<Mint>
    ghost var granted: seq<Grant>
    ghost var disconnected: set<string>

    ghost function View(): State
      reads this
    {
      State(sessions, reservations, credentials, pairingTickets, signalingTokens, calls, clock, nextStamp,
            usedIds, usedHashes, issued, minted, granted, disconnected)
    }

    constructor (config: Config)
      requires ValidConfig(config)
      ensures this.config == config && View() == Initial()
    {
      this.config := config;
      sessions, reservations, credentials, pairingTickets, signalingTokens, calls := map[], map[], map[], map[], map[], map[];
      clock, nextStamp := 0, 0;
      usedIds, usedHashes, issued, minted, granted, disconnected := {}, {}, [], [], [], {};
    }

    method CurrentAllocation() returns (allocation: Capacity)
      ensures allocation == Allocation(View())
    {
      hide Total, Plus;
      var a := map k | k in sessions :: sessions[k].quota;
      var b := map i | i in reservations :: reservations[i].quota;
      assert a == SessionQuotas(sessions) && b == ReservedQuotas(reservations);
      assert a.Keys == sessions.Keys && b.Keys == reservations.Keys;
      allocation := AddQuotas(a, Capacity(0, Quota(0, 0, 0)));
      allocation := AddQuotas(b, allocation);
      PlusFromZero(Total(a));
      MapSize(a, sessions);
      MapSize(b, reservations);
    }

    method Reserve(id: string, tenantId: string) returns (reserved: bool)
      modifies this`reservations
      ensures reserved <==> old(Admits(config, View(), tenantId))
      ensures reservations == if reserved then old(reservations)[id := Reservation(tenantId, config.quota)] else old(reservations)
    {
      hide Allocation;
      ghost var before := View();
      var tenantSessions := TenantSessionCount(sessions, tenantId);
      var tenantReservations := TenantReservationCount(reservations, tenantId);
      assert TenantSlots(before, tenantId) == tenantSessions + tenantReservations;
      hide TenantSlots;
      if tenantSessions + tenantReservations >= config.maximumSessionsPerTenant {
        return false;
      }
      var allocation := CurrentAllocation();
      if allocation.maximumSessions + 1 > config.capacity.maximumSessions
         || allocation.quota.memoryMiB + config.quota.memoryMiB > config.capacity.quota.memoryMiB
         || allocation.quota.cpuShares + config.quota.cpuShares > config.capacity.quota.cpuShares
         || allocation.quota.pids + config.quota.pids > config.capacity.quota.pids {
        return false;
      }
      reservations := reservations[id := Reservation(tenantId, config.quota)];
      return true;
    }

    /** Deletes the tokens of one session, one by one. */
    method DeleteTokens(tokens: set<Hash>)
      modifies this`signalingTokens
      ensures signalingTokens == old(signalingTokens) - tokens
    {
      var rest := tokens;
      while rest != {}
        invariant rest <= tokens
        invariant signalingTokens == old(signalingTokens) - (tokens - rest)
        decreases rest
      {
        var h :| h in rest;
        signalingTokens := signalingTokens - {h};
        rest := rest - {h};
      }
    }

    /** The lines revocation and rotation share: the live ticket and every live token of one session. */
    method DeleteLive(held: Credentials)
      modifies this`pairingTickets, this`signalingTokens
      ensures pairingTickets == old(pairingTickets) - TicketOf(held)
      ensures signalingTokens == old(signalingTokens) - held.tokens
    {
      if held.ticket.Some? {
        pairingTickets := pairingTickets - {held.ticket.value};
      }
      DeleteTokens(held.tokens);
    }

    method RevokeCredentials(key: Key)
      modifies this`pairingTickets, this`signalingTokens, this`credentials
      ensures View() == Revoke(old(View()), key)
    {
      if key !in credentials {
        return;
      }
      var held := credentials[key];
      DeleteLive(held);
      credentials := credentials - {key};
    }

    method RotateSignalingTicket(key: Key, random: Hash) returns (rotated: bool)
      modifies this`pairingTickets, this`signalingTokens, this`credentials, this`usedHashes, this`issued
      ensures rotated <==> key in old(credentials)
      ensures View() == if rotated then Rotate(config, old(View()), key, random) else old(View())
    {
      if key !in credentials {
        return false;
      }
      var held := credentials[key];
      DeleteLive(held);
      credentials := credentials[key := Credentials(held.stamp, Some(random), {})];
      pairingTickets := pairingTickets[random := Binding(key, clock + config.ticketTtl * 1000)];
      usedHashes := usedHashes + {random};
      issued := issued + [Issue(random, key)];
      return true;
    }

    method MintSignalingToken(key: Key, ticket: Hash, random: Hash)
      requires key in credentials
      modifies this`credentials, this`signalingTokens, this`usedHashes, this`minted
      ensures View() == MintToken(config, old(View()), key, ticket, random)
    {
      credentials := credentials[key := credentials[key].(tokens := credentials[key].tokens + {random})];
      signalingTokens := signalingTokens[random := Binding(key, clock + config.tokenTtl * 1000)];
      usedHashes := usedHashes + {random};
      minted := minted + [Mint(random, ticket, key)];
    }

    // ---------- create ----------

    method BeginCreate(call: nat, tenantId: string, id: string) returns (outcome: Outcome)
      modifies this
      ensures Step(View(), outcome) == old(DoBeginCreate(config, View(), call, tenantId, id))
    {
      hide Admits;
      ghost var before := View();
      usedIds := usedIds + {id};
      AdmitsIgnoresIds(config, before, View(), tenantId);
      var reserved := Reserve(id, tenantId);
      if !reserved {
        return Threw(SessionLimitReached);
      }
      calls := calls[call := CreateCall(id, tenantId)];
      return Suspended;
    }

    /** A new record, and credentials that hold nothing yet. */
    method AddSession(key: Key, runtime: Resource)
      modifies this`sessions, this`credentials, this`nextStamp
      ensures var s := old(View());
        View() == s.(sessions := s.sessions[key := Record(s.nextStamp, key, Active, config.quota, runtime, None)],
                     credentials := s.credentials[key := Credentials(s.nextStamp + 1, None, {})],
                     nextStamp := s.nextStamp + 2)
    {
      sessions := sessions[key := Record(nextStamp, key, Active, config.quota, runtime, None)];
      credentials := credentials[key := Credentials(nextStamp + 1, None, {})];
      nextStamp := nextStamp + 2;
    }

    method RuntimeCreated(call: nat, runtime: Option<Resource>, random: Hash) returns (outcome: Outcome)
      requires call in calls && calls[call].CreateCall?
      modifies this
      ensures Step(View(), outcome) == old(DoRuntimeCreated(config, View(), call, runtime, random))
    {
      hide Rotate;
      var CreateCall(id, tenantId) := calls[call];
      calls := calls - {call};
      if runtime.None? {
        reservations := reservations - {id};
        return Threw(RuntimeFailure);
      }
      var key := Key(tenantId, id);
      AddSession(key, runtime.value);
      ghost var made := View();
      RotateIgnoresReservations(config, made, key, random, reservations - {id});
      var rotated := RotateSignalingTicket(key, random);
      reservations := reservations - {id};
      assert View() == Rotate(config, made.(reservations := reservations), key, random);
      return Created(key, random);
    }

    // ---------- observeRuntime and its callers ----------

    method Observe(call: nat, key: Key, record: Record, purpose: Purpose)
      modifies this`calls
      ensures View() == SessionModel.Observe(old(View()), call, key, record, purpose).after
    {
      if record.phase != Active {
        calls := calls[call := Observed(key, record, purpose)];
      } else {
        calls := calls[call := InspectCall(key, record, purpose)];
      }
    }

    method BeginRead(call: nat, key: Key, purpose: Purpose) returns (outcome: Outcome)
      modifies this
      ensures Step(View(), outcome) == old(DoBeginRead(View(), call, key, purpose))
    {
      if key !in sessions {
        return Threw(SessionNotFound);
      }
      Observe(call, key, sessions[key], purpose);
      return Suspended;
    }

    method BeginExchange(call: nat, presented: Option<Hash>) returns (outcome: Outcome)
      modifies this
      ensures Step(View(), outcome) == old(DoBeginExchange(View(), call, presented))
    {
      if presented.None? {
        return Threw(SignalingCredentialInvalid);
      }
      var ticket := presented.value;
      if ticket !in pairingTickets {
        return Threw(SignalingCredentialInvalid);
      }
      var binding := pairingTickets[ticket];
      pairingTickets := pairingTickets - {ticket};
      var key := binding.key;
      if key in credentials && credentials[key].ticket == Some(ticket) {
        credentials := credentials[key := credentials[key].(ticket := None)];
      }
      if binding.expiresAt <= clock || key !in sessions || sessions[key].phase != Active || key !in credentials {
        return Threw(SignalingCredentialInvalid);
      }
      Observe(call, key, sessions[key], ForExchange(ticket, credentials[key].stamp));
      return Suspended;
    }

    method BeginAuthorize(call: nat, presented: Option<Hash>) returns (outcome: Outcome)
      modifies this
      ensures Step(View(), outcome) == old(DoBeginAuthorize(View(), call, presented))
    {
      if presented.None? {
        return Threw(SignalingCredentialInvalid);
      }
      var token := presented.value;
      if token !in signalingTokens {
        return Threw(SignalingCredentialInvalid);
      }
      var binding := signalingTokens[token];
      signalingTokens := signalingTokens - {token};
      var key := binding.key;
      if key in credentials {
        credentials := credentials[key := credentials[key].(tokens := credentials[key].tokens - {token})];
      }
      if binding.expiresAt <= clock || key !in sessions || sessions[key].phase != Active {
        return Threw(SignalingCredentialInvalid);
      }
      Observe(call, key, sessions[key], ForAuthorize(token));
      return Suspended;
    }

    method Inspected(call: nat, inspection: Inspection) returns (outcome: Outcome)
      requires call in calls && calls[call].InspectCall?
      modifies this
      ensures Step(View(), outcome) == old(DoInspected(View(), call, inspection))
    {
      var InspectCall(key, record, purpose) := calls[call];
      if inspection == Unknown {
        calls := calls - {call};
        return Threw(RuntimeFailure);
      }
      if key !in sessions {
        calls := calls - {call};
        return Threw(SessionNotFound);
      }
      var current := sessions[key];
      if current != record || current.phase != Active || inspection == Running {
        calls := calls[call := Observed(key, current, purpose)];
        return Suspended;
      }
      RevokeCredentials(key);
      disconnected := disconnected + {record.key.id};
      var failed := record.(stamp := nextStamp, phase := Failed, failure := Some(inspection.failure));
      nextStamp := nextStamp + 1;
      sessions := sessions[key := failed];
      calls := calls[call := Observed(key, failed, purpose)];
      return Suspended;
    }

    method Continue(call: nat, random: Hash) returns (outcome: Outcome)
      requires call in calls && calls[call].Observed?
      modifies this
      ensures Step(View(), outcome) == old(DoContinue(config, View(), call, random))
    {
      hide Rotate, MintToken;
      var Observed(key, record, purpose) := calls[call];
      calls := calls - {call};
      match purpose {
        case ForGet => return Viewed(record);
        case ForTabs =>
          if record.phase != Active {
            return Threw(TabRuntimeUnavailable);
          }
          return RuntimeFor(record.runtime);
        case ForIssue =>
          if record.phase != Active {
            return Threw(SignalingUnavailable);
          }
          var rotated := RotateSignalingTicket(key, random);
          if !rotated {
            return Threw(SignalingUnavailable);
          }
          return TicketIssued(random);
        case ForExchange(ticket, stamp) =>
          if record.phase != Active || key !in credentials || credentials[key].stamp != stamp {
            return Threw(SignalingCredentialInvalid);
          }
          MintSignalingToken(key, ticket, random);
          return TokenMinted(random);
        case ForAuthorize(token) =>
          if record.phase != Active {
            return Threw(SignalingCredentialInvalid);
          }
          granted := granted + [Grant(token, record.key)];
          return Authorized(record.key.id, record.key.tenantId, record.runtime);
      }
    }

    // ---------- burn ----------

    method BeginBurn(call: nat, key: Key) returns (outcome: Outcome)
      modifies this
      ensures Step(View(), outcome) == old(DoBeginBurn(View(), call, key))
    {
      if key !in sessions {
        return Threw(SessionNotFound);
      }
      var record := sessions[key];
      RevokeCredentials(key);
      disconnected := disconnected + {record.key.id};
      sessions := sessions[key := record.(stamp := nextStamp, phase := Burning, failure := None)];
      nextStamp := nextStamp + 1;
      calls := calls[call := DestroyCall(key, record)];
      return Suspended;
    }

    method Destroyed(call: nat, succeeded: bool) returns (outcome: Outcome)
      requires call in calls && calls[call].DestroyCall?
      modifies this
      ensures Step(View(), outcome) == old(DoDestroyed(View(), call, succeeded))
    {
      var DestroyCall(key, record) := calls[call];
      calls := calls - {call};
      if succeeded {
        sessions := sessions - {key};
        return Burned;
      }
      sessions := sessions[key := record.(stamp := nextStamp, phase := Failed, failure := Some("runtime cleanup failed"))];
      nextStamp := nextStamp + 1;
      return Threw(RuntimeFailure);
    }
  }

  /** Admission looks at sessions and reservations only. */
  lemma RotateIgnoresReservations(c: Config, s: State, key: Key, random: Hash, reservations: map<string, Reservation>)
    requires key in s.credentials
    ensures Rotate(c, s.(reservations := reservations), key, random) == Rotate(c, s, key, random).(reservations := reservations)
  {
  }

  lemma AdmitsIgnoresIds(c: Config, s: State, t: State, tenantId: string)
    requires t.sessions == s.sessions && t.reservations == s.reservations
    ensures Admits(c, t, tenantId) <==> Admits(c, s, tenantId)
  {
    assert TenantSessions(t, tenantId) == TenantSessions(s, tenantId);
    assert TenantReservations(t, tenantId) == TenantReservations(s, tenantId);
  }
}
