/**
 Quotas of the session service. Admission is exact; quotas hold in every run in which no burn of a session starts while
 another burn of it is waiting; and one step breaks them exactly when a failed burn writes back a session that another
 burn has already deleted.
 */
module SessionQuota {
  import opened Wrappers
  import opened SessionModel
  import opened SessionInvariant

  function Slots(s: State): nat {
    |s.sessions| + |s.reservations|
  }

  function Min(a: nat, b: nat): nat {
    if a <= b then a else b
  }

  /** How many times a demand fits into a capacity, rounded down. */
  function Fit(capacity: nat, demand: nat): nat
    requires 0 < demand
  {
    capacity / demand
  }

  /** How many sessions the host can hold. */
  function HostLimit(c: Config): nat
    requires ValidConfig(c)
  {
    Min(c.capacity.maximumSessions,
        Min(Fit(c.capacity.quota.memoryMiB, c.quota.memoryMiB),
            Min(Fit(c.capacity.quota.cpuShares, c.quota.cpuShares), Fit(c.capacity.quota.pids, c.quota.pids))))
  }

  function Times(n: nat, q: Quota): Quota {
    Quota(n * q.memoryMiB, n * q.cpuShares, n * q.pids)
  }

  lemma {:induction false} TotalOfEqual<K>(quotas: map<K, Quota>, q: Quota)
    requires forall k :: k in quotas ==> quotas[k] == q
    ensures Total(quotas) == Times(|quotas|, q)
  {
    hide Times, Plus;
    if quotas == map[] {
      assert Times(0, q) == Quota(0, 0, 0) by { TimesZero(q); }
    } else {
      var k := AnyKey(quotas);
      TotalOfEqual(quotas - {k}, q);
      SmallerMap(quotas, k);
      TimesNext(|quotas - {k}|, q);
    }
  }

  lemma TimesZero(q: Quota)
    ensures Times(0, q) == Quota(0, 0, 0)
  {
  }

  lemma SmallerMap<K, V>(m: map<K, V>, k: K)
    requires k in m
    ensures |m| == |m - {k}| + 1
  {
    assert (m - {k}).Keys == m.Keys - {k};
    assert |m - {k}| == |(m - {k}).Keys| && |m| == |m.Keys|;
  }

  lemma TimesNext(n: nat, q: Quota)
    ensures Times(n + 1, q) == Plus(q, Times(n, q))
  {
    MulNext(n, q.memoryMiB);
    MulNext(n, q.cpuShares);
    MulNext(n, q.pids);
  }

  lemma MulNext(n: nat, x: nat)
    ensures (n + 1) * x == x + n * x
  {
  }

  lemma TimesPlus(m: nat, n: nat, q: Quota)
    ensures Plus(Times(m, q), Times(n, q)) == Times(m + n, q)
  {
    assert forall x: nat :: m * x + n * x == (m + n) * x;
  }

  /** What is allocated is exactly one quota per session and reservation. */
  lemma AllocationIsUniform(c: Config, s: State)
    requires Structure(c, s)
    ensures Allocation(s) == Capacity(Slots(s), Times(Slots(s), c.quota))
  {
    hide Structure, Times, Plus, SessionQuotas, ReservedQuotas, Total;
    var a, b := SessionQuotas(s.sessions), ReservedQuotas(s.reservations);
    UniformMaps(c, s);
    TotalOfEqual(a, c.quota);
    TotalOfEqual(b, c.quota);
    TimesPlus(|a|, |b|, c.quota);
  }

  lemma UniformMaps(c: Config, s: State)
    requires Structure(c, s)
    ensures var a := SessionQuotas(s.sessions); |a| == |s.sessions| && forall k :: k in a ==> a[k] == c.quota
    ensures var b := ReservedQuotas(s.reservations); |b| == |s.reservations| && forall k :: k in b ==> b[k] == c.quota
  {
    hide OneCreatePerId, ReservationsPending, CallOk;
    var a, b := SessionQuotas(s.sessions), ReservedQuotas(s.reservations);
    assert a.Keys == s.sessions.Keys && b.Keys == s.reservations.Keys;
    assert |a| == |a.Keys| && |b| == |b.Keys| && |s.sessions| == |s.sessions.Keys| && |s.reservations| == |s.reservations.Keys|;
  }

  lemma FitsExactly(n: nat, q: nat, capacity: nat)
    requires 0 < q
    ensures n * q <= capacity <==> n <= Fit(capacity, q)
  {
    hide Fit;
    var d := Fit(capacity, q);
    DivBounds(capacity, q);
    if n <= d {
      MulMonotone(n, d, q);
    } else {
      MulMonotone(d + 1, n, q);
    }
  }

  lemma DivBounds(capacity: nat, q: nat)
    requires 0 < q
    ensures Fit(capacity, q) * q <= capacity < (Fit(capacity, q) + 1) * q
  {
    var d := capacity / q;
    assert capacity == d * q + capacity % q;
    assert (d + 1) * q == d * q + q;
  }

  lemma {:induction false} MulMonotone(a: nat, b: nat, q: nat)
    requires a <= b
    ensures a * q <= b * q
    decreases b
  {
    if a < b {
      MulMonotone(a, b - 1, q);
      MulNext(b - 1, q);
    }
  }

  lemma FitsWithinExactly(n: nat, q: Quota, capacity: Quota)
    requires 0 < q.memoryMiB && 0 < q.cpuShares && 0 < q.pids
    ensures FitsWithin(Times(n, q), capacity) <==>
              n <= Fit(capacity.memoryMiB, q.memoryMiB) && n <= Fit(capacity.cpuShares, q.cpuShares) && n <= Fit(capacity.pids, q.pids)
  {
    hide Fit;
    FitsExactly(n, q.memoryMiB, capacity.memoryMiB);
    FitsExactly(n, q.cpuShares, capacity.cpuShares);
    FitsExactly(n, q.pids, capacity.pids);
  }

  /** The host refuses a create if and only if it already holds as many sessions and reservations as it can. */
  lemma AdmissionIsExact(c: Config, s: State)
    requires ValidConfig(c) && Structure(c, s)
    ensures HostAdmits(c, s) <==> Slots(s) < HostLimit(c)
    ensures 1 <= HostLimit(c)
  {
    hide Structure, Fit, Times, FitsWithin, Plus, Allocation, Slots;
    AllocationIsUniform(c, s);
    var n := Slots(s);
    TimesNext(n, c.quota);
    PlusComm(c.quota, Times(n, c.quota));
    FitsWithinExactly(n + 1, c.quota, c.capacity.quota);
    FitsWithinExactly(1, c.quota, c.capacity.quota);
    TimesNext(0, c.quota);
    PlusZero(c.quota);
  }

  lemma PlusZero(q: Quota)
    ensures Times(1, q) == q
  {
  }

  lemma PlusComm(a: Quota, b: Quota)
    ensures Plus(a, b) == Plus(b, a)
  {
  }

  // ---------- quota safety ----------

  ghost predicate QuotaSafe(c: Config, s: State)
    requires ValidConfig(c)
  {
    Slots(s) <= HostLimit(c) && forall t :: TenantSlots(s, t) <= c.maximumSessionsPerTenant
  }

  /** Quota safety, in the units the operator configured. */
  lemma QuotaSafeMeansCapacity(c: Config, s: State)
    requires ValidConfig(c) && Structure(c, s) && QuotaSafe(c, s)
    ensures Allocation(s).maximumSessions <= c.capacity.maximumSessions
    ensures FitsWithin(Allocation(s).quota, c.capacity.quota)
  {
    hide Structure, Fit, Times, FitsWithin, Allocation, Slots, TenantSlots;
    AllocationIsUniform(c, s);
    FitsWithinExactly(Slots(s), c.quota, c.capacity.quota);
  }

  function TenantKeys(keys: set<Key>, t: string): set<Key> {
    set k | k in keys && k.tenantId == t
  }

  lemma TenantSessionsAreKeys(c: Config, s: State, t: string)
    requires Structure(c, s)
    ensures TenantSessions(s, t) == TenantKeys(s.sessions.Keys, t)
  {
    hide OneCreatePerId, ReservationsPending, CallOk;
  }

  /** How one step changes the slots: what it adds to and removes from the sessions and the reservations. */
  lemma SlotsOfMaps(c: Config, s: State)
    requires Structure(c, s)
    ensures Slots(s) == |s.sessions.Keys| + |s.reservations.Keys|
    ensures forall t :: TenantSlots(s, t) == |TenantKeys(s.sessions.Keys, t)| + |TenantIds(s.reservations, t)|
  {
    hide Structure;
    assert |s.sessions| == |s.sessions.Keys| && |s.reservations| == |s.reservations.Keys|;
    forall t ensures TenantSlots(s, t) == |TenantKeys(s.sessions.Keys, t)| + |TenantIds(s.reservations, t)| {
      TenantSessionsAreKeys(c, s, t);
      assert TenantReservations(s, t) == TenantIds(s.reservations, t);
    }
  }

  lemma KeysAdd(keys: set<Key>, key: Key, t: string)
    requires key !in keys
    ensures |keys + {key}| == |keys| + 1
    ensures |TenantKeys(keys + {key}, t)| == |TenantKeys(keys, t)| + if key.tenantId == t then 1 else 0
  {
    var now := TenantKeys(keys + {key}, t);
    if key.tenantId == t {
      assert now == TenantKeys(keys, t) + {key};
    } else {
      assert now == TenantKeys(keys, t);
    }
  }

  function TenantIds<K>(reservations: map<K, Reservation>, t: string): set<K> {
    set i | i in reservations && reservations[i].tenantId == t
  }

  lemma ReservationsAdd<K>(m: map<K, Reservation>, id: K, r: Reservation, t: string)
    requires id !in m
    ensures |m[id := r].Keys| == |m.Keys| + 1
    ensures |TenantIds(m[id := r], t)| == |TenantIds(m, t)| + if r.tenantId == t then 1 else 0
  {
    assert m[id := r].Keys == m.Keys + {id};
    TenantIdsAdd(m, id, r, t);
    hide TenantIds;
  }

  lemma TenantIdsAdd<K>(m: map<K, Reservation>, id: K, r: Reservation, t: string)
    requires id !in m
    ensures id !in TenantIds(m, t)
    ensures TenantIds(m[id := r], t) == TenantIds(m, t) + if r.tenantId == t then {id} else {}
  {
  }

  lemma ReservationsRemove<K>(m: map<K, Reservation>, id: K, t: string)
    requires id in m
    ensures |(m - {id}).Keys| == |m.Keys| - 1
    ensures |TenantIds(m - {id}, t)| == |TenantIds(m, t)| - if m[id].tenantId == t then 1 else 0
  {
    assert (m - {id})[id := m[id]] == m;
    ReservationsAdd(m - {id}, id, m[id], t);
  }

  /** The failed burn that brings back a session which is no longer in the map. */
  predicate WritesBack(s: State, e: Event) {
    e.Destroyed? && !e.succeeded && e.call in s.calls && s.calls[e.call].DestroyCall? && s.calls[e.call].key !in s.sessions
  }

  /** Slots never grow, except by an admitted create and by a write-back, which both take one more. */
  ghost predicate SlotsChange(c: Config, s: State, e: Event, t: State) {
    if e.BeginCreate? && Admits(c, s, e.tenantId) then
      Slots(t) == Slots(s) + 1
      && forall x :: TenantSlots(t, x) == TenantSlots(s, x) + if x == e.tenantId then 1 else 0
    else if WritesBack(s, e) then
      Slots(t) == Slots(s) + 1
      && forall x :: TenantSlots(t, x) == TenantSlots(s, x) + if x == s.calls[e.call].key.tenantId then 1 else 0
    else
      Slots(t) <= Slots(s) && forall x :: TenantSlots(t, x) <= TenantSlots(s, x)
  }

  /** Steps that keep the keys of both maps. */
  lemma SlotsSame(c: Config, s: State, t: State)
    requires Structure(c, s) && Structure(c, t)
    requires t.sessions.Keys == s.sessions.Keys && t.reservations == s.reservations
    ensures Slots(t) == Slots(s) && forall x :: TenantSlots(t, x) == TenantSlots(s, x)
  {
    hide Structure;
    SlotsOfMaps(c, s);
    SlotsOfMaps(c, t);
  }

  lemma SlotsAddSession(c: Config, s: State, t: State, key: Key)
    requires Structure(c, s) && Structure(c, t)
    requires key !in s.sessions && t.sessions.Keys == s.sessions.Keys + {key} && t.reservations == s.reservations
    ensures Slots(t) == Slots(s) + 1
    ensures forall x :: TenantSlots(t, x) == TenantSlots(s, x) + if x == key.tenantId then 1 else 0
  {
    hide Structure;
    SlotsOfMaps(c, s);
    SlotsOfMaps(c, t);
    KeysAdd(s.sessions.Keys, key, "");
    forall x ensures TenantSlots(t, x) == TenantSlots(s, x) + if x == key.tenantId then 1 else 0 {
      KeysAdd(s.sessions.Keys, key, x);
    }
  }

  lemma SlotsRemoveSession(c: Config, s: State, t: State, key: Key)
    requires Structure(c, s) && Structure(c, t)
    requires t.sessions.Keys == s.sessions.Keys - {key} && t.reservations == s.reservations
    ensures Slots(t) <= Slots(s) && forall x :: TenantSlots(t, x) <= TenantSlots(s, x)
  {
    hide Structure, Slots, TenantSlots;
    if key in s.sessions {
      assert s.sessions.Keys == t.sessions.Keys + {key};
      SlotsAddSession(c, t, s, key);
    } else {
      assert t.sessions.Keys == s.sessions.Keys;
      SlotsSame(c, s, t);
    }
  }

  lemma SlotsReserve(c: Config, s: State, t: State, id: string, r: Reservation)
    requires Structure(c, s) && Structure(c, t)
    requires id !in s.reservations && t.sessions == s.sessions && t.reservations == s.reservations[id := r]
    ensures Slots(t) == Slots(s) + 1
    ensures forall x :: TenantSlots(t, x) == TenantSlots(s, x) + if x == r.tenantId then 1 else 0
  {
    hide Structure;
    SlotsOfMaps(c, s);
    SlotsOfMaps(c, t);
    ReservationsAdd(s.reservations, id, r, "");
    forall x ensures TenantSlots(t, x) == TenantSlots(s, x) + if x == r.tenantId then 1 else 0 {
      ReservationsAdd(s.reservations, id, r, x);
    }
  }

  /** A create that ends turns its reservation into a session of the same tenant, or gives it up. */
  lemma SlotsCreated(c: Config, s: State, t: State, id: string, key: Key)
    requires Structure(c, s) && Structure(c, t)
    requires id in s.reservations && t.reservations == s.reservations - {id} && key.tenantId == s.reservations[id].tenantId
    requires t.sessions.Keys == s.sessions.Keys || (key !in s.sessions && t.sessions.Keys == s.sessions.Keys + {key})
    ensures Slots(t) <= Slots(s) && forall x :: TenantSlots(t, x) <= TenantSlots(s, x)
  {
    hide Structure;
    SlotsOfMaps(c, s);
    SlotsOfMaps(c, t);
    ReservationsRemove(s.reservations, id, "");
    if key !in s.sessions { KeysAdd(s.sessions.Keys, key, ""); }
    forall x ensures TenantSlots(t, x) <= TenantSlots(s, x) {
      ReservationsRemove(s.reservations, id, x);
      if key !in s.sessions { KeysAdd(s.sessions.Keys, key, x); }
    }
  }

  lemma SlotsStep(c: Config, s: State, e: Event, t: State)
    requires Enabled(s, e) && t == Next(c, s, e).after
    requires Structure(c, s)
    ensures SlotsChange(c, s, e, t)
  {
    StructureStep(c, s, e);
    hide Structure, Slots, TenantSlots, Admits, DoBeginCreate, DoRuntimeCreated, DoBeginRead, DoBeginExchange, DoBeginAuthorize,
      DoBeginBurn, DoInspected, DoContinue, DoDestroyed;
    match e
    case BeginCreate(call, tenantId, id) => SlotsBeginCreate(c, s, call, tenantId, id, t);
    case RuntimeCreated(call, runtime, random) => SlotsRuntimeCreated(c, s, call, runtime, random, t);
    case BeginRead(call, key, purpose) => ReadMaps(s, call, key, purpose); SlotsSame(c, s, t);
    case BeginExchange(call, presented) => ExchangeMaps(s, call, presented); SlotsSame(c, s, t);
    case BeginAuthorize(call, presented) => AuthorizeMaps(s, call, presented); SlotsSame(c, s, t);
    case BeginBurn(call, key) => BurnMaps(s, call, key); SlotsSame(c, s, t);
    case Inspected(call, inspection) => InspectedMaps(c, s, call, inspection); SlotsSame(c, s, t);
    case Continue(call, random) => ContinueFrame(c, s, call, random); SlotsSame(c, s, t);
    case Destroyed(call, succeeded) => SlotsDestroyed(c, s, call, succeeded, t);
    case ClockMoves(now) => SlotsSame(c, s, t);
  }

  lemma SlotsBeginCreate(c: Config, s: State, call: nat, tenantId: string, id: string, t: State)
    requires Enabled(s, BeginCreate(call, tenantId, id)) && t == DoBeginCreate(c, s, call, tenantId, id).after
    requires Structure(c, s) && Structure(c, t)
    ensures SlotsChange(c, s, BeginCreate(call, tenantId, id), t)
  {
    hide Structure, Slots, TenantSlots, Admits, DoBeginCreate;
    NotReserved(c, s, id);
    CreateMaps(c, s, call, tenantId, id);
    if Admits(c, s, tenantId) {
      SlotsReserve(c, s, t, id, Reservation(tenantId, c.quota));
    } else {
      SlotsSame(c, s, t);
    }
  }

  lemma SlotsRuntimeCreated(c: Config, s: State, call: nat, runtime: Option<Resource>, random: Hash, t: State)
    requires Enabled(s, RuntimeCreated(call, runtime, random)) && t == DoRuntimeCreated(c, s, call, runtime, random).after
    requires Structure(c, s) && Structure(c, t)
    ensures SlotsChange(c, s, RuntimeCreated(call, runtime, random), t)
  {
    hide Structure, Slots, TenantSlots, DoRuntimeCreated;
    ReservedForCreate(c, s, call);
    CreatedMaps(c, s, call, runtime, random);
    SlotsCreated(c, s, t, s.calls[call].id, Key(s.calls[call].tenantId, s.calls[call].id));
  }

  lemma SlotsDestroyed(c: Config, s: State, call: nat, succeeded: bool, t: State)
    requires Enabled(s, Destroyed(call, succeeded)) && t == DoDestroyed(s, call, succeeded).after
    requires Structure(c, s) && Structure(c, t)
    ensures SlotsChange(c, s, Destroyed(call, succeeded), t)
  {
    hide Structure, Slots, TenantSlots, Admits;
    var key := s.calls[call].key;
    if succeeded {
      assert t.sessions.Keys == s.sessions.Keys - {key};
      SlotsRemoveSession(c, s, t, key);
    } else if key in s.sessions {
      assert t.sessions.Keys == s.sessions.Keys;
      SlotsSame(c, s, t);
    } else {
      assert t.sessions.Keys == s.sessions.Keys + {key};
      SlotsAddSession(c, s, t, key);
    }
  }

  lemma NotReserved(c: Config, s: State, id: string)
    requires id !in s.usedIds
    requires Structure(c, s)
    ensures id !in s.reservations
  {
  }

  lemma ReservedForCreate(c: Config, s: State, call: nat)
    requires call in s.calls && s.calls[call].CreateCall?
    requires Structure(c, s)
    ensures s.calls[call].id in s.reservations
    ensures s.reservations[s.calls[call].id].tenantId == s.calls[call].tenantId
    ensures Key(s.calls[call].tenantId, s.calls[call].id) !in s.sessions
  {
    hide OneCreatePerId, ReservationsPending;
    assert CallOk(c, s, s.calls[call]);
  }

  /** One step breaks quota safety if and only if it is a write-back into a full tenant or a full host. */
  lemma QuotaBreaksExactly(c: Config, s: State, e: Event)
    requires Enabled(s, e)
    requires ValidConfig(c) && Structure(c, s) && QuotaSafe(c, s)
    ensures !QuotaSafe(c, Next(c, s, e).after) <==>
              WritesBack(s, e)
              && (Slots(s) == HostLimit(c) || TenantSlots(s, s.calls[e.call].key.tenantId) == c.maximumSessionsPerTenant)
  {
    hide Structure, Next, Slots, TenantSlots, HostLimit, HostAdmits, Enabled;
    var t := Next(c, s, e).after;
    SlotsStep(c, s, e, t);
    AdmissionIsExact(c, s);
    if WritesBack(s, e) {
      var x := s.calls[e.call].key.tenantId;
      assert TenantSlots(t, x) == TenantSlots(s, x) + 1;
    }
  }

  // ---------- runs whose burns do not overlap ----------

  /** A burn may start when no burn of the same session is waiting. */
  predicate Apart(s: State, e: Event) {
    e.BeginBurn? ==> forall n :: n in s.calls && s.calls[n].DestroyCall? ==> s.calls[n].key != e.key
  }

  ghost predicate AllApart(c: Config, s: State, es: seq<Event>)
    requires Legal(c, s, es)
    decreases |es|
  {
    es != [] ==> Apart(s, es[0]) && AllApart(c, Next(c, s, es[0]).after, es[1..])
  }

  /** Every waiting burn still finds its session, and is the only one of it. */
  ghost predicate BurnsApart(s: State) {
    && (forall n :: n in s.calls && s.calls[n].DestroyCall? ==> s.calls[n].key in s.sessions)
    && (forall a, b :: a in s.calls && b in s.calls && a != b && s.calls[a].DestroyCall? && s.calls[b].DestroyCall? ==>
          s.calls[a].key != s.calls[b].key)
  }

  /** Steps that keep every session and start no burn. */
  lemma BurnsApartFrame(s: State, t: State)
    requires BurnsApart(s) && s.sessions.Keys <= t.sessions.Keys
    requires StartsNoBurn(s, t)
    ensures BurnsApart(t)
  {
  }

  lemma BurnsApartBegin(s: State, call: nat, key: Key)
    requires BurnsApart(s) && Enabled(s, BeginBurn(call, key)) && Apart(s, BeginBurn(call, key))
    ensures BurnsApart(DoBeginBurn(s, call, key).after)
  {
  }

  lemma BurnsApartDestroyed(s: State, call: nat, succeeded: bool)
    requires BurnsApart(s) && Enabled(s, Destroyed(call, succeeded))
    ensures BurnsApart(DoDestroyed(s, call, succeeded).after)
  {
  }

  lemma BurnsApartStep(c: Config, s: State, e: Event, t: State)
    requires Enabled(s, e) && t == Next(c, s, e).after
    requires BurnsApart(s) && Apart(s, e)
    ensures BurnsApart(t)
  {
    hide BurnsApart, DoBeginCreate, DoRuntimeCreated, DoBeginRead, DoBeginExchange, DoBeginAuthorize,
      DoBeginBurn, DoInspected, DoContinue, DoDestroyed;
    match e
    case BeginCreate(call, tenantId, id) => CreateMaps(c, s, call, tenantId, id); BurnsApartFrame(s, t);
    case RuntimeCreated(call, runtime, random) => CreatedMaps(c, s, call, runtime, random); BurnsApartFrame(s, t);
    case BeginRead(call, key, purpose) => ReadMaps(s, call, key, purpose); BurnsApartFrame(s, t);
    case BeginExchange(call, presented) => ExchangeMaps(s, call, presented); BurnsApartFrame(s, t);
    case BeginAuthorize(call, presented) => AuthorizeMaps(s, call, presented); BurnsApartFrame(s, t);
    case BeginBurn(call, key) => BurnsApartBegin(s, call, key);
    case Inspected(call, inspection) => InspectedMaps(c, s, call, inspection); BurnsApartFrame(s, t);
    case Continue(call, random) => ContinueFrame(c, s, call, random); BurnsApartFrame(s, t);
    case Destroyed(call, succeeded) => BurnsApartDestroyed(s, call, succeeded);
    case ClockMoves(now) => BurnsApartFrame(s, t);
  }

  /** The main theorem: quotas hold in every state of every run whose burns of one session do not overlap. */
  lemma {:induction false} QuotaAlways(c: Config, s: State, es: seq<Event>)
    requires Legal(c, s, es) && AllApart(c, s, es)
    requires ValidConfig(c) && Structure(c, s) && QuotaSafe(c, s) && BurnsApart(s)
    ensures QuotaSafe(c, Exec(c, s, es))
    ensures FitsWithin(Allocation(Exec(c, s, es)).quota, c.capacity.quota)
    decreases |es|
  {
    hide Structure, QuotaSafe, BurnsApart, Next, Apart, ValidConfig, Allocation;
    if es == [] {
      QuotaSafeMeansCapacity(c, s);
    } else {
      var t := Next(c, s, es[0]).after;
      StructureStep(c, s, es[0]);
      BurnsApartStep(c, s, es[0], t);
      BurnsApartMeansNoWriteBack(s, es[0]);
      QuotaBreaksExactly(c, s, es[0]);
      QuotaAlways(c, t, es[1..]);
    }
  }

  lemma BurnsApartMeansNoWriteBack(s: State, e: Event)
    requires BurnsApart(s)
    ensures !WritesBack(s, e)
  {
  }

  lemma InitiallySafe(c: Config)
    requires ValidConfig(c)
    ensures Structure(c, Initial()) && QuotaSafe(c, Initial()) && BurnsApart(Initial())
  {
    AdmissionIsExact(c, Initial());
    forall t ensures TenantSlots(Initial(), t) == 0 {
      assert TenantSessions(Initial(), t) == {} && TenantReservations(Initial(), t) == {};
    }
  }

  /** From an empty service: as long as burns of one session do not overlap, every phase stays within quota and capacity. */
  lemma QuotaEver(c: Config, es: seq<Event>)
    requires ValidConfig(c) && Legal(c, Initial(), es) && AllApart(c, Initial(), es)
    ensures QuotaSafe(c, Exec(c, Initial(), es))
    ensures FitsWithin(Allocation(Exec(c, Initial(), es)).quota, c.capacity.quota)
  {
    hide QuotaSafe, FitsWithin, ValidConfig;
    InitiallySafe(c);
    QuotaAlways(c, Initial(), es);
  }

  // ---------- the hypothesis is needed ----------

  const SMALL := Config(1, Quota(1, 1, 1), Capacity(8, Quota(8, 8, 8)), 60, 30)

  lemma ExecCons(c: Config, s: State, e: Event, es: seq<Event>)
    requires Enabled(s, e) && Legal(c, Next(c, s, e).after, es)
    ensures Legal(c, s, [e] + es)
    ensures Exec(c, s, [e] + es) == Exec(c, Next(c, s, e).after, es)
  {
    assert ([e] + es)[1..] == es;
  }

  /** An empty tenant of a small service can always create. */
  lemma SmallAdmits(s: State, t: string)
    requires Structure(SMALL, s) && s.sessions == map[] && s.reservations == map[]
    ensures Admits(SMALL, s, t)
  {
    hide Structure;
    AdmissionIsExact(SMALL, s);
    assert TenantSessions(s, t) == {} && TenantReservations(s, t) == {};
  }

  // The run, step by step: what holds before each event of it.

  ghost predicate Creating(s: State) {
    && Structure(SMALL, s) && s.calls == map[0 := CreateCall("a", "t")] && s.usedHashes == {} && s.usedIds == {"a"}
    && s.sessions == map[] && s.reservations.Keys == {"a"}
  }

  ghost predicate Burns(s: State, calls: set<nat>) {
    && Structure(SMALL, s) && s.reservations == map[] && s.sessions.Keys == {Key("t", "a")} && s.usedIds == {"a"}
    && s.calls.Keys == calls
    && (forall n :: n in calls ==> s.calls[n].DestroyCall? && s.calls[n].key == Key("t", "a"))
  }

  ghost predicate Deleted(s: State) {
    && Structure(SMALL, s) && s.sessions == map[] && s.reservations == map[] && s.usedIds == {"a"}
    && s.calls.Keys == {2} && s.calls[2].DestroyCall? && s.calls[2].key == Key("t", "a")
  }

  ghost predicate Refilled(s: State) {
    && Structure(SMALL, s) && s.sessions == map[] && 2 in s.calls && s.calls[2].DestroyCall? && s.calls[2].key == Key("t", "a")
    && TenantSlots(s, "t") == 1
  }

  lemma FirstCreate(s: State, e: Event)
    requires s == Initial() && e == BeginCreate(0, "t", "a")
    ensures Enabled(s, e) && Creating(Next(SMALL, s, e).after)
  {
    hide Structure, DoBeginCreate, Admits, QuotaSafe, BurnsApart;
    InitiallySafe(SMALL);
    StructureStep(SMALL, s, e);
    SmallAdmits(s, "t");
    AdmittedCreate(s, 0, "t", "a");
  }

  lemma AdmittedCreate(s: State, call: nat, t: string, id: string)
    requires Admits(SMALL, s, t)
    ensures DoBeginCreate(SMALL, s, call, t, id).after
            == s.(usedIds := s.usedIds + {id}, reservations := s.reservations[id := Reservation(t, SMALL.quota)],
                  calls := s.calls[call := CreateCall(id, t)])
  {
    hide Admits;
  }

  lemma FirstCreated(s: State, e: Event)
    requires Creating(s) && e == RuntimeCreated(0, Some(Resource("a", "c")), 0)
    ensures Enabled(s, e) && Burns(Next(SMALL, s, e).after, {})
  {
    StructureStep(SMALL, s, e);
    hide Structure;
  }

  lemma BurnBegins(s: State, e: Event, calls: set<nat>, call: nat)
    requires Burns(s, calls) && call !in calls && e == BeginBurn(call, Key("t", "a"))
    ensures Enabled(s, e) && Burns(Next(SMALL, s, e).after, calls + {call})
  {
    StructureStep(SMALL, s, e);
    BurnMaps(s, call, Key("t", "a"));
    hide Structure;
  }

  lemma FirstDestroyed(s: State, e: Event)
    requires Burns(s, {1, 2}) && e == Destroyed(1, true)
    ensures Enabled(s, e) && Deleted(Next(SMALL, s, e).after)
  {
    StructureStep(SMALL, s, e);
    hide Structure;
  }

  lemma SecondCreate(s: State, e: Event)
    requires Deleted(s) && e == BeginCreate(3, "t", "b")
    ensures Enabled(s, e) && Refilled(Next(SMALL, s, e).after)
  {
    hide Structure, DoBeginCreate, Admits, TenantSlots, Slots;
    StructureStep(SMALL, s, e);
    SmallAdmits(s, "t");
    AdmittedCreate(s, 3, "t", "b");
    NoSlots(s, "t");
    SlotsStep(SMALL, s, e, Next(SMALL, s, e).after);
  }

  lemma NoSlots(s: State, t: string)
    requires s.sessions == map[] && s.reservations == map[]
    ensures TenantSlots(s, t) == 0
  {
    assert TenantSessions(s, t) == {} && TenantReservations(s, t) == {};
  }

  lemma SecondDestroyed(s: State, e: Event)
    requires Refilled(s) && e == Destroyed(2, false)
    ensures Enabled(s, e) && !QuotaSafe(SMALL, Next(SMALL, s, e).after)
  {
    hide Structure, TenantSlots, Slots;
    var t := Next(SMALL, s, e).after;
    SlotsStep(SMALL, s, e, t);
    assert TenantSlots(t, "t") == 2;
  }

  /** A run in which two burns of one session overlap and the tenant ends up over its limit. */
  lemma OverlappingBurnsBreakQuota()
    ensures ValidConfig(SMALL)
    ensures exists es :: Legal(SMALL, Initial(), es) && !QuotaSafe(SMALL, Exec(SMALL, Initial(), es))
  {
    var a := CreateRun();
    var s2 := Exec(SMALL, Initial(), a);
    var b := BurnTwice(s2);
    ExecAppend(SMALL, Initial(), a, b);
    var s4 := Exec(SMALL, s2, b);
    var d := WriteBackRun(s4);
    ExecAppend(SMALL, Initial(), a + b, d);
    assert !QuotaSafe(SMALL, Exec(SMALL, Initial(), a + b + d));
  }

  lemma CreateRun() returns (es: seq<Event>)
    ensures Legal(SMALL, Initial(), es) && Burns(Exec(SMALL, Initial(), es), {})
  {
    var e0, e1 := BeginCreate(0, "t", "a"), RuntimeCreated(0, Some(Resource("a", "c")), 0);
    hide Next, Enabled, Structure, Creating, Burns, ValidConfig, QuotaSafe;
    var s0 := Initial();
    FirstCreate(s0, e0);
    var s1 := Next(SMALL, s0, e0).after;
    FirstCreated(s1, e1);
    ExecCons(SMALL, s1, e1, []);
    ExecCons(SMALL, s0, e0, [e1] + []);
    es := [e0] + ([e1] + []);
  }

  lemma BurnTwice(s: State) returns (es: seq<Event>)
    requires Burns(s, {})
    ensures Legal(SMALL, s, es) && Burns(Exec(SMALL, s, es), {1, 2})
  {
    hide Next, Enabled, Structure, Burns;
    var e2, e3 := BeginBurn(1, Key("t", "a")), BeginBurn(2, Key("t", "a"));
    BurnBegins(s, e2, {}, 1);
    var s3 := Next(SMALL, s, e2).after;
    assert {} + {1} == {1} && {1} + {2} == {1, 2};
    BurnBegins(s3, e3, {1}, 2);
    ExecCons(SMALL, s3, e3, []);
    ExecCons(SMALL, s, e2, [e3] + []);
    es := [e2] + ([e3] + []);
  }

  lemma WriteBackRun(s: State) returns (es: seq<Event>)
    requires Burns(s, {1, 2})
    ensures Legal(SMALL, s, es) && !QuotaSafe(SMALL, Exec(SMALL, s, es))
  {
    var e4, e5, e6 := Destroyed(1, true), BeginCreate(3, "t", "b"), Destroyed(2, false);
    hide Next, Enabled, Structure, QuotaSafe, Burns, Deleted, Refilled;
    FirstDestroyed(s, e4);
    var s5 := Next(SMALL, s, e4).after;
    SecondCreate(s5, e5);
    var s6 := Next(SMALL, s5, e5).after;
    SecondDestroyed(s6, e6);
    ExecCons(SMALL, s6, e6, []);
    ExecCons(SMALL, s5, e5, [e6] + []);
    ExecCons(SMALL, s, e4, [e5] + ([e6] + []));
    es := [e4] + ([e5] + ([e6] + []));
  }
}
