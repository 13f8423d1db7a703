/**
 What the session service answers. Whatever runs in between, a waiting call comes back with the session as it is in the map
 then, under the key it asked for; every runtime handed out is the one the container engine returned when that very session
 was created; and every failure shown was told by an inspection or a cleanup of it in the run.
 */
module SessionAnswers {
  import opened Wrappers
  import opened SessionModel
  import opened SessionInvariant
  import opened SessionCredentials
  import opened SessionProvenance
  import opened SessionQuota
  import opened SessionRevocation

  // ---------- where runtimes and failures come from ----------

  /** What a step makes known of a session: the runtime it was created with, or why it failed. */
  datatype Fact = Made(key: Key, runtime: Resource) | Told(key: Key, failure: string)

  /** The session as the returning create names it, the engine's resource, and the reports of inspection and cleanup. */
  ghost predicate Reports(c: Config, s: State, e: Event, fact: Fact)
    requires Enabled(s, e)
  {
    match fact
    case Made(key, runtime) =>
      e.RuntimeCreated? && e.runtime == Some(runtime) && Next(c, s, e).outcome.Created? && Next(c, s, e).outcome.key == key
    case Told(key, failure) =>
      || (e.Inspected? && FindsStopped(s, e, key) && e.inspection == Stopped(failure))
      || (e.Destroyed? && !e.succeeded && s.calls[e.call].key == key && failure == "runtime cleanup failed")
  }

  ghost predicate RecordFrom(r: Record, facts: iset<Fact>) {
    && Made(r.key, r.runtime) in facts
    && (r.phase == Failed ==> r.failure.Some? && Told(r.key, r.failure.value) in facts)
    && (r.phase != Failed ==> r.failure == None)
  }

  predicate HasRecord(cont: Continuation) {
    !cont.CreateCall?
  }

  ghost predicate AllFrom(s: State, facts: iset<Fact>) {
    && (forall k :: k in s.sessions ==> RecordFrom(s.sessions[k], facts))
    && (forall n :: n in s.calls && HasRecord(s.calls[n]) ==> RecordFrom(s.calls[n].record, facts))
  }

  ghost function StepFacts(c: Config, s: State, e: Event): iset<Fact>
    requires Enabled(s, e)
  {
    iset fact | Reports(c, s, e, fact)
  }

  lemma MoreFacts(s: State, facts: iset<Fact>, more: iset<Fact>)
    requires AllFrom(s, facts)
    ensures AllFrom(s, facts + more)
  {
  }

  /** Records that are only passed on. */
  lemma PassedOn(s: State, t: State, facts: iset<Fact>)
    requires AllFrom(s, facts)
    requires forall k :: k in t.sessions ==> k in s.sessions && t.sessions[k] == s.sessions[k]
    requires forall n :: n in t.calls && HasRecord(t.calls[n]) ==>
               || (n in s.calls && t.calls[n] == s.calls[n])
               || (t.calls[n].key in s.sessions && t.calls[n].record == s.sessions[t.calls[n].key])
               || (n in s.calls && HasRecord(s.calls[n]) && t.calls[n].record == s.calls[n].record)
    ensures AllFrom(t, facts)
  {
  }

  lemma FromCreated(c: Config, s: State, call: nat, runtime: Option<Resource>, random: Hash, facts: iset<Fact>)
    requires Enabled(s, RuntimeCreated(call, runtime, random)) && AllFrom(s, facts)
    requires runtime.Some? ==> Made(Key(s.calls[call].tenantId, s.calls[call].id), runtime.value) in facts
    ensures AllFrom(DoRuntimeCreated(c, s, call, runtime, random).after, facts)
  {
    CreatedOthers(c, s, call, runtime, random);
    CreatedRecord(c, s, call, runtime, random);
    hide DoRuntimeCreated;
  }

  lemma CreatedRecord(c: Config, s: State, call: nat, runtime: Option<Resource>, random: Hash)
    requires Enabled(s, RuntimeCreated(call, runtime, random))
    ensures var t := DoRuntimeCreated(c, s, call, runtime, random).after;
      var key := Key(s.calls[call].tenantId, s.calls[call].id);
      t.sessions == if runtime.Some? then s.sessions[key := Record(s.nextStamp, key, Active, c.quota, runtime.value, None)] else s.sessions
  {
  }

  lemma FromBurn(s: State, call: nat, key: Key, facts: iset<Fact>)
    requires Enabled(s, BeginBurn(call, key)) && AllFrom(s, facts)
    ensures AllFrom(DoBeginBurn(s, call, key).after, facts)
  {
    RevokeCalls(s, key);
    hide Revoke;
  }

  lemma FromInspected(s: State, call: nat, inspection: Inspection, facts: iset<Fact>)
    requires Enabled(s, Inspected(call, inspection)) && AllFrom(s, facts)
    requires FindsStopped(s, Inspected(call, inspection), s.calls[call].key) ==>
               Told(s.sessions[s.calls[call].key].key, inspection.failure) in facts
    ensures AllFrom(DoInspected(s, call, inspection).after, facts)
  {
    RevokeCalls(s, s.calls[call].key);
    hide Revoke;
  }

  lemma FromDestroyed(s: State, call: nat, succeeded: bool, facts: iset<Fact>)
    requires Enabled(s, Destroyed(call, succeeded)) && AllFrom(s, facts)
    requires !succeeded ==> Told(s.calls[call].record.key, "runtime cleanup failed") in facts
    ensures AllFrom(DoDestroyed(s, call, succeeded).after, facts)
  {
  }

  lemma FromStep(c: Config, s: State, e: Event, t: State, facts: iset<Fact>)
    requires Enabled(s, e) && t == Next(c, s, e).after
    requires Structure(c, s) && AllFrom(s, facts)
    ensures AllFrom(t, facts + StepFacts(c, s, e))
  {
    var now := facts + StepFacts(c, s, e);
    MoreFacts(s, facts, StepFacts(c, s, e));
    hide AllFrom, Structure, DoBeginCreate, DoRuntimeCreated, DoBeginRead, DoBeginExchange, DoBeginAuthorize,
      DoBeginBurn, DoInspected, DoContinue, DoDestroyed, StepFacts, RecordFrom;
    match e
    case BeginCreate(call, tenantId, id) => FromBeginCreate(c, s, call, tenantId, id, now);
    case RuntimeCreated(call, runtime, random) =>
      if runtime.Some? { CreatedReports(c, s, e); }
      FromCreated(c, s, call, runtime, random, now);
    case BeginRead(call, k, purpose) => FromRead(s, call, k, purpose, now);
    case BeginExchange(call, presented) => FromExchange(s, call, presented, now);
    case BeginAuthorize(call, presented) => FromAuthorize(s, call, presented, now);
    case BeginBurn(call, k) => FromBurn(s, call, k, now);
    case Inspected(call, inspection) =>
      if FindsStopped(s, e, s.calls[call].key) { StoppedReports(c, s, e); }
      FromInspected(s, call, inspection, now);
    case Continue(call, random) =>
      ContinueFrame(c, s, call, random);
      PassedOn(s, t, now);
    case Destroyed(call, succeeded) =>
      if !succeeded { CleanupReports(c, s, e); }
      FromDestroyed(s, call, succeeded, now);
    case ClockMoves(_) => PassedOn(s, t, now);
  }

  lemma CreatedReports(c: Config, s: State, e: Event)
    requires Enabled(s, e) && e.RuntimeCreated? && e.runtime.Some?
    ensures Made(Key(s.calls[e.call].tenantId, s.calls[e.call].id), e.runtime.value) in StepFacts(c, s, e)
  {
    hide Rotate;
  }

  lemma StoppedReports(c: Config, s: State, e: Event)
    requires Enabled(s, e) && e.Inspected? && FindsStopped(s, e, s.calls[e.call].key) && Structure(c, s)
    ensures Told(s.sessions[s.calls[e.call].key].key, e.inspection.failure) in StepFacts(c, s, e)
  {
    hide OneCreatePerId, ReservationsPending, CallOk;
  }

  lemma CleanupReports(c: Config, s: State, e: Event)
    requires Enabled(s, e) && e.Destroyed? && !e.succeeded && Structure(c, s)
    ensures Told(s.calls[e.call].record.key, "runtime cleanup failed") in StepFacts(c, s, e)
  {
    hide OneCreatePerId, ReservationsPending;
    assert CallOk(c, s, s.calls[e.call]);
  }

  lemma FromBeginCreate(c: Config, s: State, call: nat, tenantId: string, id: string, facts: iset<Fact>)
    requires Enabled(s, BeginCreate(call, tenantId, id)) && AllFrom(s, facts)
    ensures AllFrom(DoBeginCreate(c, s, call, tenantId, id).after, facts)
  {
    hide Admits, RecordFrom;
  }

  lemma FromRead(s: State, call: nat, key: Key, purpose: Purpose, facts: iset<Fact>)
    requires Enabled(s, BeginRead(call, key, purpose)) && AllFrom(s, facts)
    ensures AllFrom(DoBeginRead(s, call, key, purpose).after, facts)
  {
    hide RecordFrom;
  }

  lemma FromExchange(s: State, call: nat, presented: Option<Hash>, facts: iset<Fact>)
    requires Enabled(s, BeginExchange(call, presented)) && AllFrom(s, facts)
    ensures AllFrom(DoBeginExchange(s, call, presented).after, facts)
  {
    hide RecordFrom, TakeTicket;
    if presented.Some? { TakeFrame(s, presented.value); }
  }

  lemma FromAuthorize(s: State, call: nat, presented: Option<Hash>, facts: iset<Fact>)
    requires Enabled(s, BeginAuthorize(call, presented)) && AllFrom(s, facts)
    ensures AllFrom(DoBeginAuthorize(s, call, presented).after, facts)
  {
    hide RecordFrom, TakeToken;
    if presented.Some? { TakeFrame(s, presented.value); }
  }

  /** All that the steps of a run make known. */
  ghost function RunFacts(c: Config, s: State, es: seq<Event>): iset<Fact>
    requires Legal(c, s, es)
    decreases |es|
  {
    if es == [] then iset{} else StepFacts(c, s, es[0]) + RunFacts(c, Next(c, s, es[0]).after, es[1..])
  }

  lemma {:induction false} FromRun(c: Config, s: State, es: seq<Event>, facts: iset<Fact>)
    requires Legal(c, s, es) && Structure(c, s) && AllFrom(s, facts)
    ensures AllFrom(Exec(c, s, es), facts + RunFacts(c, s, es)) && Structure(c, Exec(c, s, es))
    decreases |es|
  {
    hide Structure, AllFrom, Next, Enabled, StepFacts;
    if es == [] {
      assert facts + RunFacts(c, s, es) == facts;
    } else {
      var t := Next(c, s, es[0]).after;
      StructureStep(c, s, es[0]);
      FromStep(c, s, es[0], t, facts);
      FromRun(c, t, es[1..], facts + StepFacts(c, s, es[0]));
      assert facts + StepFacts(c, s, es[0]) + RunFacts(c, t, es[1..]) == facts + RunFacts(c, s, es);
    }
  }

  /** The state before the i-th event of a run. */
  ghost function Before(c: Config, s: State, es: seq<Event>, i: nat): (t: State)
    requires Legal(c, s, es) && i < |es|
    ensures Enabled(t, es[i])
    decreases |es|
  {
    if i == 0 then s else Before(c, Next(c, s, es[0]).after, es[1..], i - 1)
  }

  /** Some event of the run has reported it. */
  ghost predicate Reported(c: Config, s: State, es: seq<Event>, fact: Fact)
    requires Legal(c, s, es)
  {
    exists i :: 0 <= i < |es| && Reports(c, Before(c, s, es, i), es[i], fact)
  }

  lemma {:induction false} RunReports(c: Config, s: State, es: seq<Event>, fact: Fact)
    requires Legal(c, s, es)
    ensures fact in RunFacts(c, s, es) ==> Reported(c, s, es, fact)
    decreases |es|
  {
    hide Next, Enabled, Reports;
    if es != [] {
      var t := Next(c, s, es[0]).after;
      RunReports(c, t, es[1..], fact);
      if fact in StepFacts(c, s, es[0]) {
        assert Reports(c, Before(c, s, es, 0), es[0], fact);
      } else if fact in RunFacts(c, t, es[1..]) {
        var i :| 0 <= i < |es[1..]| && Reports(c, Before(c, t, es[1..], i), es[1..][i], fact);
        assert es[1..][i] == es[i + 1] && Before(c, s, es, i + 1) == Before(c, t, es[1..], i);
      }
    }
  }

  /** What is shown of a record is what the run has reported of its session. */
  ghost predicate RecordReported(c: Config, es: seq<Event>, r: Record)
    requires Legal(c, Initial(), es)
  {
    && Reported(c, Initial(), es, Made(r.key, r.runtime))
    && (r.phase == Failed ==> r.failure.Some? && Reported(c, Initial(), es, Told(r.key, r.failure.value)))
    && (r.phase != Failed ==> r.failure == None)
  }

  /**
   Every answer with a session in it, in every run: an authorisation and a tab call hand out the runtime that the engine
   returned when the very session was created, and a view shows that runtime, and a failure only if the session has failed,
   in the words in which an inspection or a cleanup of it said so.
   */
  lemma AnswersAreReported(c: Config, es: seq<Event>, e: Event)
    requires Legal(c, Initial(), es) && Enabled(Exec(c, Initial(), es), e)
    ensures var s := Exec(c, Initial(), es);
      var outcome := Next(c, s, e).outcome;
      && (outcome.Authorized? ==> Reported(c, Initial(), es, Made(Key(outcome.tenantId, outcome.sessionId), outcome.runtime)))
      && (outcome.RuntimeFor? ==> e.Continue? && Reported(c, Initial(), es, Made(s.calls[e.call].key, outcome.runtime)))
      && (outcome.Viewed? ==>
            e.Continue? && outcome.record.key == s.calls[e.call].key && RecordReported(c, es, outcome.record))
  {
    InitiallyAgreed(c);
    assert AllFrom(Initial(), iset{});
    FromRun(c, Initial(), es, iset{});
    var s := Exec(c, Initial(), es);
    var facts := RunFacts(c, Initial(), es);
    assert iset{} + facts == facts;
    AnswersFrom(c, s, e, facts);
    forall fact | fact in facts ensures Reported(c, Initial(), es, fact) { RunReports(c, Initial(), es, fact); }
    hide Next, Legal, Exec, Reported, Structure, AllFrom, RunFacts;
  }

  lemma AnswersFrom(c: Config, s: State, e: Event, facts: iset<Fact>)
    requires Enabled(s, e) && Structure(c, s) && AllFrom(s, facts)
    ensures var outcome := Next(c, s, e).outcome;
      && (outcome.Authorized? ==> Made(Key(outcome.tenantId, outcome.sessionId), outcome.runtime) in facts)
      && (outcome.RuntimeFor? ==> e.Continue? && Made(s.calls[e.call].key, outcome.runtime) in facts)
      && (outcome.Viewed? ==> e.Continue? && outcome.record.key == s.calls[e.call].key && RecordFrom(outcome.record, facts))
  {
    hide Rotate, MintToken, Revoke, TakeTicket, TakeToken, OneCreatePerId, ReservationsPending, Admits;
    if e.Continue? { assert CallOk(c, s, s.calls[e.call]); }
  }

  // ---------- what a waiting call comes back with ----------

  /** The call waits, in or after its inspection, and while the session is active it has the record that is in the map. */
  ghost predicate Waits(s: State, n: nat, key: Key, purpose: Purpose) {
    && n in s.calls && (s.calls[n].InspectCall? || s.calls[n].Observed?)
    && s.calls[n].key == key && s.calls[n].purpose == purpose
    && (IsActive(s, key) ==> s.calls[n].record == s.sessions[key])
  }

  /** A session's record is not replaced while it is active. */
  lemma ActiveRecordKept(c: Config, s: State, e: Event, t: State, key: Key)
    requires Enabled(s, e) && t == Next(c, s, e).after
    requires Structure(c, s) && IsActive(s, key) && IsActive(t, key)
    ensures t.sessions[key] == s.sessions[key]
  {
    hide DoBeginCreate, DoRuntimeCreated, DoBeginRead, DoBeginExchange, DoBeginAuthorize, DoBeginBurn, DoInspected, DoContinue,
      DoDestroyed, Structure;
    match e
    case BeginCreate(call, tenantId, id) => CreateMaps(c, s, call, tenantId, id);
    case RuntimeCreated(call, runtime, random) => KeptThroughCreate(c, s, call, runtime, random, key);
    case BeginRead(call, k, purpose) => ReadMaps(s, call, k, purpose);
    case BeginExchange(call, presented) => ExchangeMaps(s, call, presented);
    case BeginAuthorize(call, presented) => AuthorizeMaps(s, call, presented);
    case BeginBurn(call, k) => KeptThroughBurn(s, call, k, key);
    case Inspected(call, inspection) => KeptThroughInspection(s, call, inspection, key);
    case Continue(call, random) => ContinueFrame(c, s, call, random);
    case Destroyed(call, succeeded) => KeptThroughDestroy(c, s, call, succeeded, key);
    case ClockMoves(now) =>
  }

  lemma KeptThroughCreate(c: Config, s: State, call: nat, runtime: Option<Resource>, random: Hash, key: Key)
    requires Enabled(s, RuntimeCreated(call, runtime, random)) && Structure(c, s) && IsActive(s, key)
    ensures var t := DoRuntimeCreated(c, s, call, runtime, random).after; key in t.sessions && t.sessions[key] == s.sessions[key]
  {
    hide OneCreatePerId, ReservationsPending;
    assert CallOk(c, s, s.calls[call]);
    CreatedRecord(c, s, call, runtime, random);
    hide DoRuntimeCreated;
  }

  lemma KeptThroughBurn(s: State, call: nat, k: Key, key: Key)
    requires IsActive(s, key) && IsActive(DoBeginBurn(s, call, k).after, key)
    ensures DoBeginBurn(s, call, k).after.sessions[key] == s.sessions[key]
  {
    hide Revoke;
  }

  lemma KeptThroughInspection(s: State, call: nat, inspection: Inspection, key: Key)
    requires Enabled(s, Inspected(call, inspection)) && IsActive(s, key) && IsActive(DoInspected(s, call, inspection).after, key)
    ensures DoInspected(s, call, inspection).after.sessions[key] == s.sessions[key]
  {
  }

  lemma KeptThroughDestroy(c: Config, s: State, call: nat, succeeded: bool, key: Key)
    requires Enabled(s, Destroyed(call, succeeded)) && Structure(c, s) && IsActive(s, key)
    ensures var t := DoDestroyed(s, call, succeeded).after; key in t.sessions && t.sessions[key] == s.sessions[key]
  {
    hide OneCreatePerId, ReservationsPending;
    assert CallOk(c, s, s.calls[call]);
  }

  lemma WaitsInspected(s: State, n: nat, inspection: Inspection, t: State, key: Key, purpose: Purpose)
    requires Enabled(s, Inspected(n, inspection)) && t == DoInspected(s, n, inspection).after && n in t.calls
    requires Waits(s, n, key, purpose)
    ensures Waits(t, n, key, purpose)
  {
    hide Revoke;
  }

  lemma WaitsStep(c: Config, s: State, e: Event, t: State, n: nat, key: Key, purpose: Purpose)
    requires Enabled(s, e) && t == Next(c, s, e).after && n in t.calls
    requires Structure(c, s) && Waits(s, n, key, purpose)
    ensures Waits(t, n, key, purpose)
  {
    SettledCall(c, s, n);
    if !IsActive(s, key) { GoneStep(c, s, e, t, key); }
    if IsActive(s, key) && IsActive(t, key) { ActiveRecordKept(c, s, e, t, key); }
    hide Structure, DoBeginCreate, DoRuntimeCreated, DoBeginRead, DoBeginExchange, DoBeginAuthorize, DoBeginBurn, DoInspected,
      DoContinue, DoDestroyed;
    if e.ClockMoves? || e.call != n {
      OthersWait(c, s, e, t, n);
    } else if e.Inspected? {
      WaitsInspected(s, n, e.inspection, t, key, purpose);
    } else if e.Continue? {
      ContinueFrame(c, s, n, e.random);
    }
  }

  /**
   What a waiting call comes back with, whatever runs while it waits: when its session is active at the end, the session as
   it is in the map then, its runtime, a new ticket, or the authorisation for it; when it is not, no ticket.
   */
  lemma {:induction false} ResumedAnswers(c: Config, s: State, es: seq<Event>, n: nat, key: Key, purpose: Purpose, random: Hash)
    requires Legal(c, s, es) && Structure(c, s) && CredentialsAgree(s)
    requires n in s.calls && Waits(s, n, key, purpose)
    requires Ending(c, s, es, n) == None && Enabled(Exec(c, s, es), Continue(n, random))
    ensures var t := Exec(c, s, es);
      var outcome := DoContinue(c, t, n, random).outcome;
      && (IsActive(t, key) ==>
            && (purpose == ForGet ==> outcome == Viewed(t.sessions[key]))
            && (purpose == ForTabs ==> outcome == RuntimeFor(t.sessions[key].runtime))
            && (purpose == ForIssue ==> outcome == TicketIssued(random))
            && (purpose.ForAuthorize? ==> outcome == Authorized(key.id, key.tenantId, t.sessions[key].runtime)))
      && (!IsActive(t, key) ==>
            && (purpose == ForGet ==> outcome.Viewed? && outcome.record.key == key)
            && (purpose == ForIssue ==> outcome == Threw(SignalingUnavailable)))
    decreases |es|
  {
    if es == [] {
      ResumesNow(c, s, n, key, purpose, random);
    } else {
      var t := Next(c, s, es[0]).after;
      hide Structure, CredentialsAgree, Next, Enabled, Waits, DoContinue;
      StructureStep(c, s, es[0]);
      CredentialsStep(c, s, es[0]);
      WaitsStep(c, s, es[0], t, n, key, purpose);
      ResumedAnswers(c, t, es[1..], n, key, purpose, random);
    }
  }

  lemma ResumesNow(c: Config, s: State, n: nat, key: Key, purpose: Purpose, random: Hash)
    requires Structure(c, s) && CredentialsAgree(s) && Waits(s, n, key, purpose) && Enabled(s, Continue(n, random))
    ensures var outcome := DoContinue(c, s, n, random).outcome;
      && (IsActive(s, key) ==>
            && (purpose == ForGet ==> outcome == Viewed(s.sessions[key]))
            && (purpose == ForTabs ==> outcome == RuntimeFor(s.sessions[key].runtime))
            && (purpose == ForIssue ==> outcome == TicketIssued(random))
            && (purpose.ForAuthorize? ==> outcome == Authorized(key.id, key.tenantId, s.sessions[key].runtime)))
      && (!IsActive(s, key) ==>
            && (purpose == ForGet ==> outcome.Viewed? && outcome.record.key == key)
            && (purpose == ForIssue ==> outcome == Threw(SignalingUnavailable)))
  {
    hide TicketsIndexed, TokensIndexed, LiveUsed, OneCreatePerId, ReservationsPending, Rotate, MintToken;
    assert CallOk(c, s, s.calls[n]);
  }

  /** This is how reads, exchanges and authorisations start. */
  lemma CallsWait(c: Config, s: State, e: Event)
    requires Enabled(s, e) && (e.BeginRead? || e.BeginExchange? || e.BeginAuthorize?) && Next(c, s, e).outcome == Suspended
    ensures var t := Next(c, s, e).after;
      e.call in t.calls && !t.calls[e.call].CreateCall? && !t.calls[e.call].DestroyCall?
      && Waits(t, e.call, t.calls[e.call].key, t.calls[e.call].purpose)
      && (e.BeginRead? ==> t.calls[e.call].key == e.key && t.calls[e.call].purpose == e.purpose)
      && (e.BeginExchange? ==> e.presented.Some? && e.presented.value in s.pairingTickets
                               && t.calls[e.call].key == s.pairingTickets[e.presented.value].key && t.calls[e.call].purpose.ForExchange?)
      && (e.BeginAuthorize? ==> e.presented.Some? && e.presented.value in s.signalingTokens
                                && t.calls[e.call].key == s.signalingTokens[e.presented.value].key && t.calls[e.call].purpose.ForAuthorize?)
  {
    hide TakeTicket, TakeToken;
    if e.BeginExchange? { TakeFrame(s, e.presented.value); }
    if e.BeginAuthorize? { TakeFrame(s, e.presented.value); }
  }

  // ---------- what is answered at once ----------

  /** A create is refused if and only if its tenant has its number of sessions, or the host can hold no more. */
  lemma CreateRefusedExactly(c: Config, s: State, call: nat, tenantId: string, id: string)
    requires ValidConfig(c) && Structure(c, s) && Enabled(s, BeginCreate(call, tenantId, id))
    ensures var r := DoBeginCreate(c, s, call, tenantId, id);
      && (r.outcome == Threw(SessionLimitReached) <==>
            TenantSlots(s, tenantId) >= c.maximumSessionsPerTenant || Slots(s) >= HostLimit(c))
      && (r.outcome != Threw(SessionLimitReached) ==> r.outcome == Suspended && Slots(r.after) == Slots(s) + 1)
      && (r.outcome == Threw(SessionLimitReached) ==> Slots(r.after) == Slots(s) && r.after.calls == s.calls)
  {
    hide *;
    AdmissionIsExact(c, s);
    AdmitsTwice(c, s, tenantId);
    CreateSlots(c, s, call, tenantId, id);
  }

  lemma AdmitsTwice(c: Config, s: State, tenantId: string)
    ensures Admits(c, s, tenantId) <==> TenantSlots(s, tenantId) < c.maximumSessionsPerTenant && HostAdmits(c, s)
  {
  }

  lemma CreateSlots(c: Config, s: State, call: nat, tenantId: string, id: string)
    requires Structure(c, s) && Enabled(s, BeginCreate(call, tenantId, id))
    ensures var r := DoBeginCreate(c, s, call, tenantId, id);
      && (Admits(c, s, tenantId) ==> r.outcome == Suspended && Slots(r.after) == Slots(s) + 1)
      && (!Admits(c, s, tenantId) ==> r.outcome == Threw(SessionLimitReached) && Slots(r.after) == Slots(s) && r.after.calls == s.calls)
  {
    hide Admits, OneCreatePerId, ReservationsPending, CallOk;
    var more := s.reservations[id := Reservation(tenantId, c.quota)];
    assert id !in s.reservations;
    assert |more| == |s.reservations| + 1;
  }

  /** A create whose container is up answers with a live session, its record and a live ticket; one that failed holds nothing. */
  lemma CreateEnds(c: Config, s: State, call: nat, runtime: Option<Resource>, random: Hash)
    requires Enabled(s, RuntimeCreated(call, runtime, random))
    ensures var r := DoRuntimeCreated(c, s, call, runtime, random);
      var key := Key(s.calls[call].tenantId, s.calls[call].id);
      && s.calls[call].id !in r.after.reservations && call !in r.after.calls
      && (runtime.None? ==> r.outcome == Threw(RuntimeFailure) && r.after.sessions == s.sessions && r.after.pairingTickets == s.pairingTickets)
      && (runtime.Some? ==>
            && r.outcome == Created(key, random) && IsActive(r.after, key)
            && r.after.sessions[key].runtime == runtime.value && r.after.sessions[key].quota == c.quota
            && random in r.after.pairingTickets && r.after.pairingTickets[random] == Binding(key, s.clock + c.ticketTtl * 1000))
  {
  }

  /** Reads and burns of a session that is not there fail at once, and no others do. */
  lemma NotFoundExactly(c: Config, s: State, call: nat, key: Key, purpose: Purpose)
    requires call !in s.calls
    ensures (DoBeginRead(s, call, key, purpose).outcome == Threw(SessionNotFound) <==> key !in s.sessions)
    ensures (DoBeginRead(s, call, key, purpose).outcome == Suspended <==> key in s.sessions)
    ensures (DoBeginBurn(s, call, key).outcome == Threw(SessionNotFound) <==> key !in s.sessions)
    ensures (DoBeginBurn(s, call, key).outcome == Suspended <==> key in s.sessions)
  {
    hide Revoke;
  }

  /** A burn ends with the session out of the map, or back in it as failed; and from its start the session is burning. */
  lemma BurnAnswers(s: State, call: nat, key: Key, succeeded: bool)
    requires call !in s.calls && key in s.sessions
    ensures var t := DoBeginBurn(s, call, key).after;
      var r := DoDestroyed(t, call, succeeded);
      && t.sessions[key].phase == Burning && t.sessions[key].runtime == s.sessions[key].runtime && key !in t.credentials
      && (succeeded ==> r.outcome == Burned && r.after.sessions == s.sessions - {key})
      && (!succeeded ==>
            && r.outcome == Threw(RuntimeFailure) && key in r.after.sessions && r.after.sessions[key].phase == Failed
            && r.after.sessions[key].runtime == s.sessions[key].runtime && key !in r.after.credentials)
  {
  }

  /** The ways an inspection ends its call: the engine could not say, or the session has gone meanwhile. */
  lemma InspectionAnswers(s: State, call: nat, inspection: Inspection)
    requires Enabled(s, Inspected(call, inspection))
    ensures var r := DoInspected(s, call, inspection);
      && (r.outcome == Threw(RuntimeFailure) <==> inspection == Unknown)
      && (r.outcome == Threw(SessionNotFound) <==> inspection != Unknown && s.calls[call].key !in s.sessions)
      && (r.outcome == Suspended <==> inspection != Unknown && s.calls[call].key in s.sessions)
  {
    hide Revoke;
  }
}
