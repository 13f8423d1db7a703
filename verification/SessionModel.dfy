/**
 The session service of src/domain/session-service.ts as a step machine.

 Every public method of the service suspends at a call of the container runtime. The model cuts each method at every
 await; a suspended method is a `Continuation` in `calls`, and one `Event` runs one uninterrupted segment. Any order
 of events is allowed, so a run is an arbitrary interleaving of any number of method calls.

 A credential is represented by its hash, the hash being taken as injective. Random values are new: they were never
 used before. Objects whose identity the code compares carry a `stamp` that is new for every object created.
 */
module SessionModel {
  import opened Wrappers

  type Hash = nat

  /** The map key of a session. SessionKeys shows that the string the code builds is as good. */
  datatype Key = Key(tenantId: string, id: string)

  datatype Phase = Active | Burning | Failed

  datatype Quota = Quota(memoryMiB: nat, cpuShares: nat, pids: nat)

  datatype Capacity = Capacity(maximumSessions: nat, quota: Quota)

  datatype Resource = Resource(sessionId: string, containerId: string)

  datatype Record = Record(stamp: nat, key: Key, phase: Phase, quota: Quota, runtime: Resource, failure: Option<string>)

  datatype Binding = Binding(key: Key, expiresAt: int)

  datatype Credentials = Credentials(stamp: nat, ticket: Option<Hash>, tokens: set<Hash>)

  datatype Reservation = Reservation(tenantId: string, quota: Quota)

  datatype Config = Config(maximumSessionsPerTenant: nat, quota: Quota, capacity: Capacity, ticketTtl: nat, tokenTtl: nat)

  datatype Inspection = Running | Stopped(failure: string) | Unknown

  /** Which public method is waiting for observeRuntime. */
  datatype Purpose =
    | ForGet
    | ForTabs
    | ForIssue
    | ForExchange(ticket: Hash, credentials: nat)
    | ForAuthorize(token: Hash)

  datatype Continuation =
    | CreateCall(id: string, tenantId: string)
    | InspectCall(key: Key, record: Record, purpose: Purpose)
    | Observed(key: Key, record: Record, purpose: Purpose)
    | DestroyCall(key: Key, record: Record)

  // Append-only ledgers of what the service handed out.
  datatype Issue = Issue(ticket: Hash, key: Key)
  datatype Mint = Mint(token: Hash, ticket: Hash, key: Key)
  datatype Grant = Grant(token: Hash, key: Key)

  datatype State = State(
    sessions: map<Key, Record>,
    reservations: map<string, Reservation>,
    credentials: map<Key, Credentials>,
    pairingTickets: map<Hash, Binding>,
    signalingTokens: map<Hash, Binding>,
    calls: map<nat, Continuation>,
    clock: int,
    nextStamp: nat,
    usedIds: set<string>,
    usedHashes: set<Hash>,
    issued: seq<Issue>,
    minted: seq<Mint>,
    granted: seq<Grant>,
    disconnected: set<string>)

  datatype ErrorCode =
    | SessionNotFound
    | SessionLimitReached
    | SignalingUnavailable
    | SignalingCredentialInvalid
    | TabRuntimeUnavailable
    | RuntimeFailure

  datatype Outcome =
    | Suspended
    | Threw(error: ErrorCode)
    | Created(key: Key, ticket: Hash)
    | Viewed(record: Record)
    | RuntimeFor(runtime: Resource)
    | TicketIssued(ticket: Hash)
    | TokenMinted(token: Hash)
    | Authorized(sessionId: string, tenantId: string, runtime: Resource)
    | Burned
    | Ticked

  datatype Step = Step(after: State, outcome: Outcome)

  datatype Event =
    | BeginCreate(call: nat, tenantId: string, id: string)
    | RuntimeCreated(call: nat, runtime: Option<Resource>, random: Hash)
    | BeginRead(call: nat, key: Key, purpose: Purpose)
    | BeginExchange(call: nat, presented: Option<Hash>)
    | BeginAuthorize(call: nat, presented: Option<Hash>)
    | BeginBurn(call: nat, key: Key)
    | Inspected(call: nat, inspection: Inspection)
    | Continue(call: nat, random: Hash)
    | Destroyed(call: nat, succeeded: bool)
    | ClockMoves(now: int)

  function Initial(): State {
    State(map[], map[], map[], map[], map[], map[], 0, 0, {}, {}, [], [], [], {})
  }

  /** The constructor's checks. */
  predicate ValidConfig(c: Config) {
    && 0 < c.maximumSessionsPerTenant
    && 0 < c.quota.memoryMiB && 0 < c.quota.cpuShares && 0 < c.quota.pids
    && 0 < c.capacity.maximumSessions
    && FitsWithin(c.quota, c.capacity.quota)
  }

  predicate FitsWithin(quota: Quota, capacity: Quota) {
    quota.memoryMiB <= capacity.memoryMiB && quota.cpuShares <= capacity.cpuShares && quota.pids <= capacity.pids
  }

  // ---------- admission ----------

  function Plus(a: Quota, b: Quota): Quota {
    Quota(a.memoryMiB + b.memoryMiB, a.cpuShares + b.cpuShares, a.pids + b.pids)
  }

  /** The sum of a bag of quotas, in whatever order the map is walked. */
  ghost function Total<K>(quotas: map<K, Quota>): Quota {
    if quotas == map[] then Quota(0, 0, 0)
    else
      var k := AnyKey(quotas);
      Plus(quotas[k], Total(quotas - {k}))
  }

  ghost function AnyKey<K, V>(m: map<K, V>): (k: K)
    requires m != map[]
    ensures k in m
  {
    var k :| k in m;
    k
  }

  function SessionQuotas(sessions: map<Key, Record>): map<Key, Quota> {
    map k | k in sessions :: sessions[k].quota
  }

  function ReservedQuotas(reservations: map<string, Reservation>): map<string, Quota> {
    map i | i in reservations :: reservations[i].quota
  }

  /** currentAllocation: the number of sessions and reservations, and what they take. */
  ghost function Allocation(s: State): Capacity {
    Capacity(|s.sessions| + |s.reservations|,
             Plus(Total(SessionQuotas(s.sessions)), Total(ReservedQuotas(s.reservations))))
  }

  function TenantSessions(s: State, tenantId: string): set<Key> {
    set k | k in s.sessions && s.sessions[k].key.tenantId == tenantId
  }

  function TenantReservations(s: State, tenantId: string): set<string> {
    set i | i in s.reservations && s.reservations[i].tenantId == tenantId
  }

  function TenantSlots(s: State, tenantId: string): nat {
    |TenantSessions(s, tenantId)| + |TenantReservations(s, tenantId)|
  }

  ghost predicate HostAdmits(c: Config, s: State) {
    var a := Allocation(s);
    && a.maximumSessions + 1 <= c.capacity.maximumSessions
    && FitsWithin(Plus(a.quota, c.quota), c.capacity.quota)
  }

  ghost predicate Admits(c: Config, s: State, tenantId: string) {
    TenantSlots(s, tenantId) < c.maximumSessionsPerTenant && HostAdmits(c, s)
  }

  // ---------- credentials ----------

  function TicketOf(credentials: Credentials): set<Hash> {
    match credentials.ticket
    case None => {}
    case Some(t) => {t}
  }

  /** revokeCredentials */
  function Revoke(s: State, key: Key): State {
    if key !in s.credentials then s
    else
      var held := s.credentials[key];
      s.(pairingTickets := s.pairingTickets - TicketOf(held),
         signalingTokens := s.signalingTokens - held.tokens,
         credentials := s.credentials - {key})
  }

  /** rotateSignalingTicket: the credentials object keeps its identity and loses everything it held. */
  function Rotate(c: Config, s: State, key: Key, random: Hash): State
    requires key in s.credentials
  {
    var held := s.credentials[key];
    s.(pairingTickets := (s.pairingTickets - TicketOf(held))[random := Binding(key, s.clock + c.ticketTtl * 1000)],
       signalingTokens := s.signalingTokens - held.tokens,
       credentials := s.credentials[key := Credentials(held.stamp, Some(random), {})],
       usedHashes := s.usedHashes + {random},
       issued := s.issued + [Issue(random, key)])
  }

  predicate IsActive(s: State, key: Key) {
    key in s.sessions && s.sessions[key].phase == Active
  }

  // ---------- the segments ----------

  ghost function DoBeginCreate(c: Config, s: State, call: nat, tenantId: string, id: string): Step {
    var s1 := s.(usedIds := s.usedIds + {id});
    if !Admits(c, s, tenantId) then Step(s1, Threw(SessionLimitReached))
    else
      Step(s1.(reservations := s.reservations[id := Reservation(tenantId, c.quota)],
               calls := s.calls[call := CreateCall(id, tenantId)]),
           Suspended)
  }

  function DoRuntimeCreated(c: Config, s: State, call: nat, runtime: Option<Resource>, random: Hash): Step
    requires call in s.calls && s.calls[call].CreateCall?
  {
    var CreateCall(id, tenantId) := s.calls[call];
    var s0 := s.(calls := s.calls - {call}, reservations := s.reservations - {id});
    match runtime
    case None => Step(s0, Threw(RuntimeFailure))
    case Some(r) =>
      var key := Key(tenantId, id);
      var s1 := s0.(sessions := s.sessions[key := Record(s.nextStamp, key, Active, c.quota, r, None)],
                    credentials := s.credentials[key := Credentials(s.nextStamp + 1, None, {})],
                    nextStamp := s.nextStamp + 2);
      Step(Rotate(c, s1, key, random), Created(key, random))
  }

  /** The synchronous prefix of observeRuntime: only an active record is inspected. */
  function Observe(s: State, call: nat, key: Key, record: Record, purpose: Purpose): Step {
    var next := if record.phase == Active then InspectCall(key, record, purpose) else Observed(key, record, purpose);
    Step(s.(calls := s.calls[call := next]), Suspended)
  }

  function DoBeginRead(s: State, call: nat, key: Key, purpose: Purpose): Step {
    if key !in s.sessions then Step(s, Threw(SessionNotFound))
    else Observe(s, call, key, s.sessions[key], purpose)
  }

  /** A presented ticket is deleted first, and forgotten by the credentials that held it. */
  function TakeTicket(s: State, ticket: Hash): State
    requires ticket in s.pairingTickets
  {
    var key := s.pairingTickets[ticket].key;
    var held := if key in s.credentials && s.credentials[key].ticket == Some(ticket)
                then s.credentials[key := s.credentials[key].(ticket := None)]
                else s.credentials;
    s.(pairingTickets := s.pairingTickets - {ticket}, credentials := held)
  }

  /** A presented token is deleted first, and forgotten by the credentials that held it. */
  function TakeToken(s: State, token: Hash): State
    requires token in s.signalingTokens
  {
    var key := s.signalingTokens[token].key;
    var held := if key in s.credentials
                then s.credentials[key := s.credentials[key].(tokens := s.credentials[key].tokens - {token})]
                else s.credentials;
    s.(signalingTokens := s.signalingTokens - {token}, credentials := held)
  }

  function DoBeginExchange(s: State, call: nat, presented: Option<Hash>): Step {
    if presented.None? || presented.value !in s.pairingTickets then Step(s, Threw(SignalingCredentialInvalid))
    else
      var ticket := presented.value;
      var binding := s.pairingTickets[ticket];
      var key := binding.key;
      var s2 := TakeTicket(s, ticket);
      if binding.expiresAt <= s.clock || !IsActive(s, key) || key !in s.credentials
      then Step(s2, Threw(SignalingCredentialInvalid))
      else Observe(s2, call, key, s.sessions[key], ForExchange(ticket, s.credentials[key].stamp))
  }

  function DoBeginAuthorize(s: State, call: nat, presented: Option<Hash>): Step {
    if presented.None? || presented.value !in s.signalingTokens then Step(s, Threw(SignalingCredentialInvalid))
    else
      var token := presented.value;
      var binding := s.signalingTokens[token];
      var key := binding.key;
      var s2 := TakeToken(s, token);
      if binding.expiresAt <= s.clock || !IsActive(s, key) then Step(s2, Threw(SignalingCredentialInvalid))
      else Observe(s2, call, key, s.sessions[key], ForAuthorize(token))
  }

  function DoBeginBurn(s: State, call: nat, key: Key): Step {
    if key !in s.sessions then Step(s, Threw(SessionNotFound))
    else
      var record := s.sessions[key];
      var s1 := Revoke(s, key);
      Step(s1.(sessions := s.sessions[key := record.(stamp := s.nextStamp, phase := Burning, failure := None)],
               calls := s.calls[call := DestroyCall(key, record)],
               nextStamp := s.nextStamp + 1,
               disconnected := s.disconnected + {record.key.id}),
           Suspended)
  }

  /** The part of observeRuntime after the inspection. */
  function DoInspected(s: State, call: nat, inspection: Inspection): Step
    requires call in s.calls && s.calls[call].InspectCall?
  {
    var InspectCall(key, record, purpose) := s.calls[call];
    var s0 := s.(calls := s.calls - {call});
    if inspection == Unknown then Step(s0, Threw(RuntimeFailure))
    else if key !in s.sessions then Step(s0, Threw(SessionNotFound))
    else
      var current := s.sessions[key];
      if current != record || current.phase != Active || inspection == Running
      then Step(s.(calls := s.calls[call := Observed(key, current, purpose)]), Suspended)
      else
        var failed := record.(stamp := s.nextStamp, phase := Failed, failure := Some(inspection.failure));
        Step(Revoke(s, key).(sessions := s.sessions[key := failed],
                             calls := s.calls[call := Observed(key, failed, purpose)],
                             nextStamp := s.nextStamp + 1,
                             disconnected := s.disconnected + {record.key.id}),
             Suspended)
  }

  /** The rest of the method that called observeRuntime. */
  function DoContinue(c: Config, s: State, call: nat, random: Hash): Step
    requires call in s.calls && s.calls[call].Observed?
  {
    var Observed(key, record, purpose) := s.calls[call];
    var s0 := s.(calls := s.calls - {call});
    match purpose
    case ForGet => Step(s0, Viewed(record))
    case ForTabs =>
      Step(s0, if record.phase != Active then Threw(TabRuntimeUnavailable) else RuntimeFor(record.runtime))
    case ForIssue =>
      if record.phase != Active || key !in s.credentials then Step(s0, Threw(SignalingUnavailable))
      else Step(Rotate(c, s0, key, random), TicketIssued(random))
    case ForExchange(ticket, stamp) =>
      if record.phase != Active || key !in s.credentials || s.credentials[key].stamp != stamp
      then Step(s0, Threw(SignalingCredentialInvalid))
      else Step(MintToken(c, s0, key, ticket, random), TokenMinted(random))
    case ForAuthorize(token) =>
      if record.phase != Active then Step(s0, Threw(SignalingCredentialInvalid))
      else Step(s0.(granted := s.granted + [Grant(token, record.key)]),
                Authorized(record.key.id, record.key.tenantId, record.runtime))
  }

  function MintToken(c: Config, s: State, key: Key, ticket: Hash, random: Hash): State
    requires key in s.credentials
  {
    s.(credentials := s.credentials[key := s.credentials[key].(tokens := s.credentials[key].tokens + {random})],
       signalingTokens := s.signalingTokens[random := Binding(key, s.clock + c.tokenTtl * 1000)],
       usedHashes := s.usedHashes + {random},
       minted := s.minted + [Mint(random, ticket, key)])
  }

  function DoDestroyed(s: State, call: nat, succeeded: bool): Step
    requires call in s.calls && s.calls[call].DestroyCall?
  {
    var DestroyCall(key, record) := s.calls[call];
    var s0 := s.(calls := s.calls - {call});
    if succeeded then Step(s0.(sessions := s.sessions - {key}), Burned)
    else
      var failed := record.(stamp := s.nextStamp, phase := Failed, failure := Some("runtime cleanup failed"));
      Step(s0.(sessions := s.sessions[key := failed], nextStamp := s.nextStamp + 1), Threw(RuntimeFailure))
  }

  /** Everything but the credential maps is left alone by taking a ticket or a token. */
  lemma TakeFrame(s: State, h: Hash)
    ensures h in s.pairingTickets ==> var t := TakeTicket(s, h);
              t == s.(pairingTickets := s.pairingTickets - {h}, credentials := t.credentials)
    ensures h in s.signalingTokens ==> var t := TakeToken(s, h);
              t == s.(signalingTokens := s.signalingTokens - {h}, credentials := t.credentials)
  {
  }

  // ---------- runs ----------

  /** What the environment may do next: new calls get new numbers, random values are new, and only a waiting call resumes. */
  predicate Enabled(s: State, e: Event) {
    match e
    case BeginCreate(call, _, id) => call !in s.calls && id !in s.usedIds
    case RuntimeCreated(call, _, random) => call in s.calls && s.calls[call].CreateCall? && random !in s.usedHashes
    case BeginRead(call, _, purpose) => call !in s.calls && (purpose == ForGet || purpose == ForTabs || purpose == ForIssue)
    case BeginExchange(call, _) => call !in s.calls
    case BeginAuthorize(call, _) => call !in s.calls
    case BeginBurn(call, _) => call !in s.calls
    case Inspected(call, _) => call in s.calls && s.calls[call].InspectCall?
    case Continue(call, random) => call in s.calls && s.calls[call].Observed? && random !in s.usedHashes
    case Destroyed(call, _) => call in s.calls && s.calls[call].DestroyCall?
    case ClockMoves(_) => true
  }

  ghost function Next(c: Config, s: State, e: Event): Step
    requires Enabled(s, e)
  {
    match e
    case BeginCreate(call, tenantId, id) => DoBeginCreate(c, s, call, tenantId, id)
    case RuntimeCreated(call, runtime, random) => DoRuntimeCreated(c, s, call, runtime, random)
    case BeginRead(call, key, purpose) => DoBeginRead(s, call, key, purpose)
    case BeginExchange(call, presented) => DoBeginExchange(s, call, presented)
    case BeginAuthorize(call, presented) => DoBeginAuthorize(s, call, presented)
    case BeginBurn(call, key) => DoBeginBurn(s, call, key)
    case Inspected(call, inspection) => DoInspected(s, call, inspection)
    case Continue(call, random) => DoContinue(c, s, call, random)
    case Destroyed(call, succeeded) => DoDestroyed(s, call, succeeded)
    case ClockMoves(now) => Step(s.(clock := now), Ticked)
  }

  ghost predicate Legal(c: Config, s: State, es: seq<Event>)
    decreases |es|
  {
    es == [] || (Enabled(s, es[0]) && Legal(c, Next(c, s, es[0]).after, es[1..]))
  }

  ghost function Exec(c: Config, s: State, es: seq<Event>): State
    requires Legal(c, s, es)
    decreases |es|
  {
    if es == [] then s else Exec(c, Next(c, s, es[0]).after, es[1..])
  }

  lemma {:induction false} ExecAppend(c: Config, s: State, a: seq<Event>, b: seq<Event>)
    requires Legal(c, s, a) && Legal(c, Exec(c, s, a), b)
    ensures Legal(c, s, a + b)
    ensures Exec(c, s, a + b) == Exec(c, Exec(c, s, a), b)
    decreases |a|
  {
    hide Next, Enabled;
    if a == [] {
      assert a + b == b;
    } else {
      ExecAppend(c, Next(c, s, a[0]).after, a[1..], b);
      assert (a + b)[1..] == a[1..] + b;
    }
  }

}

/** The string key `${tenantId}:${id}` of the source identifies the pair, because tenant ids contain no colon. */
module SessionKeys {
  import opened SessionModel

  function Text(key: Key): string {
    key.tenantId + ":" + key.id
  }

  /** The alphabet of isSafeTenantId and isSafeIdentifier, without their length bounds. */
  predicate SafeTenantId(t: string) {
    forall i :: 0 <= i < |t| ==> 'a' <= t[i] <= 'z' || 'A' <= t[i] <= 'Z' || '0' <= t[i] <= '9' || t[i] == '_' || t[i] == '-'
  }

  lemma TextIsInjective(a: Key, b: Key)
    requires SafeTenantId(a.tenantId) && SafeTenantId(b.tenantId)
    requires Text(a) == Text(b)
    ensures a == b
  {
    var n, m := |a.tenantId|, |b.tenantId|;
    assert Text(a)[n] == ':' && Text(b)[m] == ':';
    assert forall i :: 0 <= i < n ==> Text(a)[i] == a.tenantId[i] && a.tenantId[i] != ':';
    assert forall i :: 0 <= i < m ==> Text(b)[i] == b.tenantId[i] && b.tenantId[i] != ':';
    assert n == m;
    assert Text(a)[..n] == a.tenantId && Text(b)[..n] == b.tenantId;
    assert Text(a)[n + 1..] == a.id && Text(b)[n + 1..] == b.id;
  }
}
