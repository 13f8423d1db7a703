/**
 The session service of src/domain/session-service.ts running on the container engine of
 src/runtime/docker-engine-runtime.ts: every container and network the process makes stays accounted for.

 Each create or destroy of the service is a job of DockerLifecycle. Engine replies of different jobs, service segments and
 resources that vanish by themselves interleave freely, and several burns of one session may overlap.
 */
module NoSilentOrphan {
  import opened Wrappers
  import opened SessionModel
  import opened SessionInvariant
  import opened DockerLifecycle

  /** `owners` remembers which session every container was made for; `failedRollbacks` the creates that reported one. */
  datatype System = System(
    service: State,
    engine: Engine,
    owners: map<string, string>,
    jobs: map<nat, Job>,
    failedRollbacks: set<string>)

  datatype SystemEvent =
    | Serves(event: Event)
    | Replies(call: nat, reply: Reply)
    | Vanishes(containers: set<string>, networks: set<string>)

  /** A create or a destroy resumes with what its job came to; container ids are never handed out twice. */
  ghost predicate Ready(y: System, e: SystemEvent) {
    match e
    case Serves(event) => Enabled(y.service, event) && Delivers(y.jobs, event)
    case Replies(call, reply) =>
      call in y.jobs && Possible(y.engine, y.jobs[call], reply) && (reply.ContainerMade? ==> reply.containerId !in y.owners)
    case Vanishes(_, _) => true
  }

  predicate Delivers(jobs: map<nat, Job>, event: Event) {
    match event
    case RuntimeCreated(call, runtime, _) =>
      call in jobs &&
      match jobs[call] {
        case CreateSucceeded(id, containerId) => runtime == Some(Resource(id, containerId))
        case CreateFailed(_, _) => runtime == None
        case _ => false
      }
    case Destroyed(call, succeeded) => call in jobs && jobs[call].DestroyFinished? && jobs[call].succeeded == succeeded
    case _ => true
  }

  /** The runtime calls a service segment starts and ends. */
  ghost function JobsAfter(s: State, t: State, jobs: map<nat, Job>, event: Event): map<nat, Job> {
    match event
    case BeginCreate(call, _, id) => if call in t.calls then jobs[call := NetworkPending(id)] else jobs
    case BeginBurn(call, key) =>
      if key in s.sessions
      then jobs[call := DestroyContainer(s.sessions[key].runtime.sessionId, s.sessions[key].runtime.containerId)]
      else jobs
    case RuntimeCreated(call, _, _) => jobs - {call}
    case Destroyed(call, _) => jobs - {call}
    case _ => jobs
  }

  function Reported(jobs: map<nat, Job>, event: Event): set<string> {
    if event.RuntimeCreated? && event.call in jobs && jobs[event.call].CreateFailed? && jobs[event.call].rollbackFailed
    then {jobs[event.call].id} else {}
  }

  ghost function SystemNext(c: Config, attempts: nat, y: System, e: SystemEvent): System
    requires Ready(y, e)
  {
    match e
    case Serves(event) =>
      var t := Next(c, y.service, event).after;
      y.(service := t, jobs := JobsAfter(y.service, t, y.jobs, event), failedRollbacks := y.failedRollbacks + Reported(y.jobs, event))
    case Replies(call, reply) =>
      var (engine, job) := Advance(attempts, y.engine, y.jobs[call], reply);
      y.(engine := engine, jobs := y.jobs[call := job],
         owners := if reply.ContainerMade? then y.owners[reply.containerId := y.jobs[call].id] else y.owners)
    case Vanishes(containers, networks) =>
      y.(engine := Engine(y.engine.containers - containers, y.engine.networks - networks))
  }

  // ---------- what the service's state claims of the engine ----------

  datatype Burn = Burn(key: Key, runtime: Resource)

  datatype Claims = Claims(
    runtimes: map<Key, Resource>,
    reserved: set<string>,
    creating: map<nat, string>,
    burning: map<nat, Burn>,
    usedIds: set<string>)

  function RuntimesOf(sessions: map<Key, Record>): map<Key, Resource> {
    map k | k in sessions :: sessions[k].runtime
  }

  function CreatingOf(calls: map<nat, Continuation>): map<nat, string> {
    map n | n in calls && calls[n].CreateCall? :: calls[n].id
  }

  function BurningOf(calls: map<nat, Continuation>): map<nat, Burn> {
    map n | n in calls && calls[n].DestroyCall? :: Burn(calls[n].key, calls[n].record.runtime)
  }

  function ClaimsOf(s: State): Claims {
    Claims(RuntimesOf(s.sessions), s.reservations.Keys, CreatingOf(s.calls), BurningOf(s.calls), s.usedIds)
  }

  ghost predicate Settles(k: Claims, id: string) {
    id in k.usedIds && id !in k.reserved
  }

  /** Follows from SessionInvariant.Structure. */
  ghost predicate ClaimsOk(k: Claims) {
    && (forall key :: key in k.runtimes ==> Settles(k, key.id))
    && k.reserved <= k.usedIds
    && (forall n :: n in k.creating ==> k.creating[n] in k.reserved)
    && (forall a, b :: a in k.creating && b in k.creating && a != b ==> k.creating[a] != k.creating[b])
    && (forall n :: n in k.burning ==> Settles(k, k.burning[n].key.id))
    && k.creating.Keys !! k.burning.Keys
  }

  /** The one container the session can have; the resource names its session. */
  ghost predicate Sole(engine: Engine, owners: map<string, string>, id: string, r: Resource) {
    r.sessionId == id && OnlyContainer(engine, id, r.containerId) && r.containerId in owners && owners[r.containerId] == id
  }

  ghost predicate Accounted(k: Claims, failed: set<string>, id: string) {
    id in k.reserved || id in failed || exists key :: key in k.runtimes && key.id == id
  }

  predicate CreateJob(job: Job) {
    !job.DestroyContainer? && !job.DestroyNetwork? && !job.DestroyFinished?
  }

  predicate ReferenceOwned(owners: map<string, string>, job: Job) {
    match job
    case StartPending(id, x) => x in owners && owners[x] == id
    case HealthPending(id, x, _) => x in owners && owners[x] == id
    case RollbackContainer(id, r) => r.Some? ==> r.value in owners && owners[r.value] == id
    case CreateSucceeded(id, x) => x in owners && owners[x] == id
    case DestroyContainer(id, x) => x in owners && owners[x] == id
    case _ => true
  }

  ghost predicate JobOk(engine: Engine, owners: map<string, string>, job: Job) {
    JobInvariant(engine, job) && ReferenceOwned(owners, job)
  }

  ghost predicate JobFits(k: Claims, n: nat, job: Job) {
    && (n in k.creating ==> CreateJob(job) && job.id == k.creating[n])
    && (n in k.burning ==> !CreateJob(job) && job.id == k.burning[n].key.id)
  }

  ghost predicate Backed(k: Claims, engine: Engine, owners: map<string, string>) {
    && (forall key :: key in k.runtimes ==> Sole(engine, owners, key.id, k.runtimes[key]))
    && (forall n :: n in k.burning ==> Sole(engine, owners, k.burning[n].key.id, k.burning[n].runtime))
    && (forall x :: x in engine.containers ==> x in owners && owners[x] == engine.containers[x])
  }

  ghost predicate JobsOk(k: Claims, engine: Engine, owners: map<string, string>, jobs: map<nat, Job>) {
    && jobs.Keys == k.creating.Keys + k.burning.Keys
    && (forall n :: n in jobs ==> JobOk(engine, owners, jobs[n]) && JobFits(k, n, jobs[n]))
  }

  /** Every container and network belongs to a session in the map, a reserved create, or a create that reported a failed rollback. */
  ghost predicate NothingOrphaned(k: Claims, engine: Engine, failed: set<string>) {
    && failed <= k.usedIds
    && (forall x :: x in engine.containers ==> Accounted(k, failed, engine.containers[x]))
    && (forall id :: id in engine.networks ==> Accounted(k, failed, id))
  }

  ghost predicate SystemOk(c: Config, y: System) {
    var k := ClaimsOf(y.service);
    && Structure(c, y.service)
    && Backed(k, y.engine, y.owners)
    && JobsOk(k, y.engine, y.owners, y.jobs)
    && NothingOrphaned(k, y.engine, y.failedRollbacks)
  }

  lemma StructureGivesClaims(c: Config, s: State)
    requires Structure(c, s)
    ensures ClaimsOk(ClaimsOf(s))
  {
    hide ReservationsPending;
    var k := ClaimsOf(s);
    forall n | n in s.calls ensures CallOk(c, s, s.calls[n]) {
    }
  }

  // ---------- what a service segment does to the claims ----------

  datatype Change =
    | NoChange
    | StartsCreate(call: nat, id: string)
    | EndsCreate(call: nat, made: Option<(Key, Resource)>)
    | StartsBurn(call: nat, key: Key)
    | EndsBurn(call: nat, succeeded: bool)

  ghost predicate Fits(k: Claims, change: Change) {
    match change
    case NoChange => true
    case StartsCreate(call, id) => call !in k.creating && call !in k.burning && id !in k.usedIds
    case EndsCreate(call, made) => call in k.creating && (made.Some? ==> made.value.0.id == k.creating[call])
    case StartsBurn(call, key) => call !in k.creating && call !in k.burning && key in k.runtimes
    case EndsBurn(call, _) => call in k.burning
  }

  ghost function Apply(k: Claims, change: Change): Claims
    requires Fits(k, change)
  {
    match change
    case NoChange => k
    case StartsCreate(call, id) =>
      k.(reserved := k.reserved + {id}, creating := k.creating[call := id], usedIds := k.usedIds + {id})
    case EndsCreate(call, made) =>
      k.(reserved := k.reserved - {k.creating[call]}, creating := k.creating - {call},
         runtimes := if made.Some? then k.runtimes[made.value.0 := made.value.1] else k.runtimes)
    case StartsBurn(call, key) => k.(burning := k.burning[call := Burn(key, k.runtimes[key])])
    case EndsBurn(call, succeeded) =>
      var burn := k.burning[call];
      k.(burning := k.burning - {call},
         runtimes := if succeeded then k.runtimes - {burn.key} else k.runtimes[burn.key := burn.runtime])
  }

  ghost function ChangeOf(c: Config, s: State, event: Event): Change
    requires Enabled(s, event)
  {
    match event
    case BeginCreate(call, tenantId, id) => if Admits(c, s, tenantId) then StartsCreate(call, id) else NoChange
    case RuntimeCreated(call, runtime, _) =>
      EndsCreate(call, if runtime.Some? then Some((Key(s.calls[call].tenantId, s.calls[call].id), runtime.value)) else None)
    case BeginBurn(call, key) => if key in s.sessions then StartsBurn(call, key) else NoChange
    case Destroyed(call, succeeded) => EndsBurn(call, succeeded)
    case _ => NoChange
  }

  /** The claims only change as ChangeOf says, but for ids that were tried and refused. */
  ghost predicate Tracks(k: Claims, after: Claims, change: Change) {
    Fits(k, change) && k.usedIds <= after.usedIds && after == Apply(k, change).(usedIds := after.usedIds)
    && Apply(k, change).usedIds <= after.usedIds
  }

  lemma CallRemoved(calls: map<nat, Continuation>, call: nat)
    ensures CreatingOf(calls - {call}) == CreatingOf(calls) - {call}
    ensures BurningOf(calls - {call}) == BurningOf(calls) - {call}
  {
  }

  lemma CallSet(calls: map<nat, Continuation>, call: nat, cont: Continuation)
    requires call !in calls || (!calls[call].CreateCall? && !calls[call].DestroyCall?)
    ensures CreatingOf(calls[call := cont]) == if cont.CreateCall? then CreatingOf(calls)[call := cont.id] else CreatingOf(calls)
    ensures BurningOf(calls[call := cont]) ==
              if cont.DestroyCall? then BurningOf(calls)[call := Burn(cont.key, cont.record.runtime)] else BurningOf(calls)
  {
  }

  lemma CallOfKind(calls: map<nat, Continuation>, call: nat)
    requires call in calls
    ensures call in CreatingOf(calls) <==> calls[call].CreateCall?
    ensures call in BurningOf(calls) <==> calls[call].DestroyCall?
    ensures !calls[call].CreateCall? ==> CreatingOf(calls) - {call} == CreatingOf(calls)
    ensures !calls[call].DestroyCall? ==> BurningOf(calls) - {call} == BurningOf(calls)
  {
  }

  lemma RecordSet(sessions: map<Key, Record>, key: Key, record: Record)
    ensures RuntimesOf(sessions[key := record]) == RuntimesOf(sessions)[key := record.runtime]
    ensures RuntimesOf(sessions - {key}) == RuntimesOf(sessions) - {key}
    ensures key in sessions && record.runtime == sessions[key].runtime ==> RuntimesOf(sessions[key := record]) == RuntimesOf(sessions)
  {
  }

  lemma CreateTracks(c: Config, s: State, call: nat, tenantId: string, id: string, t: State)
    requires Enabled(s, BeginCreate(call, tenantId, id)) && t == DoBeginCreate(c, s, call, tenantId, id).after
    ensures Tracks(ClaimsOf(s), ClaimsOf(t), ChangeOf(c, s, BeginCreate(call, tenantId, id)))
  {
    hide Admits;
    CallSet(s.calls, call, CreateCall(id, tenantId));
  }

  lemma CreatedTracks(c: Config, s: State, call: nat, runtime: Option<Resource>, random: Hash, t: State)
    requires Enabled(s, RuntimeCreated(call, runtime, random)) && t == DoRuntimeCreated(c, s, call, runtime, random).after
    ensures Tracks(ClaimsOf(s), ClaimsOf(t), ChangeOf(c, s, RuntimeCreated(call, runtime, random)))
  {
    hide RuntimesOf, CreatingOf, BurningOf;
    CallRemoved(s.calls, call);
    CallOfKind(s.calls, call);
    CallNamed(s.calls, call);
    if runtime.Some? {
      var key := Key(s.calls[call].tenantId, s.calls[call].id);
      RecordSet(s.sessions, key, t.sessions[key]);
    }
  }

  lemma CallNamed(calls: map<nat, Continuation>, call: nat)
    requires call in calls
    ensures calls[call].CreateCall? ==> CreatingOf(calls)[call] == calls[call].id
    ensures calls[call].DestroyCall? ==> BurningOf(calls)[call] == Burn(calls[call].key, calls[call].record.runtime)
  {
  }

  lemma BurnTracks(c: Config, s: State, call: nat, key: Key, t: State)
    requires Enabled(s, BeginBurn(call, key)) && t == DoBeginBurn(s, call, key).after
    ensures Tracks(ClaimsOf(s), ClaimsOf(t), ChangeOf(c, s, BeginBurn(call, key)))
  {
    hide CreatingOf, BurningOf, Revoke;
    if key in s.sessions {
      assert Revoke(s, key).calls == s.calls && Revoke(s, key).reservations == s.reservations && Revoke(s, key).usedIds == s.usedIds by {
        RevokeFrame(s, key);
      }
      CallSet(s.calls, call, DestroyCall(key, s.sessions[key]));
      CallAbsent(s.calls, call);
      BurnedRecord(s, key, t);
    }
  }

  lemma BurnedRecord(s: State, key: Key, t: State)
    requires key in s.sessions && key in t.sessions && t.sessions == s.sessions[key := t.sessions[key]] && t.sessions[key].runtime == s.sessions[key].runtime
    ensures RuntimesOf(t.sessions) == RuntimesOf(s.sessions)
  {
  }

  lemma RevokeFrame(s: State, key: Key)
    ensures var t := Revoke(s, key);
      t.calls == s.calls && t.reservations == s.reservations && t.usedIds == s.usedIds && t.sessions == s.sessions
  {
  }

  lemma CallAbsent(calls: map<nat, Continuation>, call: nat)
    requires call !in calls
    ensures call !in CreatingOf(calls) && call !in BurningOf(calls)
  {
  }

  lemma DestroyedTracks(c: Config, s: State, call: nat, succeeded: bool, t: State)
    requires Enabled(s, Destroyed(call, succeeded)) && t == DoDestroyed(s, call, succeeded).after
    ensures Tracks(ClaimsOf(s), ClaimsOf(t), ChangeOf(c, s, Destroyed(call, succeeded)))
  {
    hide RuntimesOf, CreatingOf, BurningOf;
    CallRemoved(s.calls, call);
    CallOfKind(s.calls, call);
    CallNamed(s.calls, call);
    var DestroyCall(key, record) := s.calls[call];
    RecordSet(s.sessions, key, record.(stamp := s.nextStamp, phase := Failed, failure := Some("runtime cleanup failed")));
  }

  lemma SameClaims(s: State, t: State, call: nat)
    requires t.sessions == s.sessions && t.reservations == s.reservations && t.usedIds == s.usedIds
    requires t.calls == s.calls || t.calls == s.calls - {call} || (call in t.calls && t.calls == s.calls[call := t.calls[call]])
    requires call in s.calls ==> !s.calls[call].CreateCall? && !s.calls[call].DestroyCall?
    requires call in t.calls ==> !t.calls[call].CreateCall? && !t.calls[call].DestroyCall?
    ensures ClaimsOf(t) == ClaimsOf(s)
  {
    hide RuntimesOf, CreatingOf, BurningOf;
    CallRemoved(s.calls, call);
    if call in s.calls { CallOfKind(s.calls, call); }
    if call in t.calls { CallSet(s.calls, call, t.calls[call]); }
  }

  lemma InspectedTracks(c: Config, s: State, call: nat, inspection: Inspection, t: State)
    requires Enabled(s, Inspected(call, inspection)) && t == DoInspected(s, call, inspection).after
    ensures ClaimsOf(t) == ClaimsOf(s)
  {
    hide RuntimesOf, CreatingOf, BurningOf, Revoke;
    CallRemoved(s.calls, call);
    CallOfKind(s.calls, call);
    if call in t.calls { CallSet(s.calls, call, t.calls[call]); }
    var InspectCall(key, record, purpose) := s.calls[call];
    RevokeFrame(s, key);
    if t.sessions != s.sessions {
      BurnedRecord(s, key, t);
    }
  }

  lemma ReadTracks(c: Config, s: State, e: Event, t: State)
    requires Enabled(s, e) && t == Next(c, s, e).after
    requires e.BeginRead? || e.Continue? || e.ClockMoves?
    ensures ClaimsOf(t) == ClaimsOf(s)
  {
    hide DoContinue, ClaimsOf;
    match e
    case BeginRead(call, key, purpose) => SameClaims(s, t, call);
    case Continue(call, random) =>
      ContinueFrame(c, s, call, random);
      SameClaims(s, t, call);
    case ClockMoves(now) => ClockClaims(s, t);
  }

  lemma ExchangeTracks(c: Config, s: State, call: nat, presented: Option<Hash>, t: State)
    requires Enabled(s, BeginExchange(call, presented)) && t == DoBeginExchange(s, call, presented).after
    ensures ClaimsOf(t) == ClaimsOf(s)
  {
    hide TakeTicket, ClaimsOf;
    if presented.Some? { TakeFrame(s, presented.value); }
    SameClaims(s, t, call);
  }

  lemma AuthorizeTracks(c: Config, s: State, call: nat, presented: Option<Hash>, t: State)
    requires Enabled(s, BeginAuthorize(call, presented)) && t == DoBeginAuthorize(s, call, presented).after
    ensures ClaimsOf(t) == ClaimsOf(s)
  {
    hide TakeToken, ClaimsOf;
    if presented.Some? { TakeFrame(s, presented.value); }
    SameClaims(s, t, call);
  }

  lemma ClockClaims(s: State, t: State)
    requires t.sessions == s.sessions && t.reservations == s.reservations && t.usedIds == s.usedIds && t.calls == s.calls
    ensures ClaimsOf(t) == ClaimsOf(s)
  {
  }

  lemma ServiceTracks(c: Config, s: State, e: Event, t: State)
    requires Enabled(s, e) && t == Next(c, s, e).after
    ensures Tracks(ClaimsOf(s), ClaimsOf(t), ChangeOf(c, s, e))
  {
    hide ClaimsOf, DoBeginCreate, DoRuntimeCreated, DoBeginRead, DoBeginExchange, DoBeginAuthorize, DoBeginBurn, DoInspected,
      DoContinue, DoDestroyed, Admits;
    match e
    case BeginCreate(call, tenantId, id) => CreateTracks(c, s, call, tenantId, id, t);
    case RuntimeCreated(call, runtime, random) => CreatedTracks(c, s, call, runtime, random, t);
    case BeginBurn(call, key) => BurnTracks(c, s, call, key, t);
    case Destroyed(call, succeeded) => DestroyedTracks(c, s, call, succeeded, t);
    case Inspected(call, inspection) => InspectedTracks(c, s, call, inspection, t);
    case BeginExchange(call, presented) => ExchangeTracks(c, s, call, presented, t);
    case BeginAuthorize(call, presented) => AuthorizeTracks(c, s, call, presented, t);
    case _ => ReadTracks(c, s, e, t);
  }

  // ---------- a service segment keeps the accounts ----------

  /** The jobs move with the claims. */
  ghost predicate JobsFollow(k: Claims, jobs: map<nat, Job>, after: map<nat, Job>, change: Change)
    requires Fits(k, change)
  {
    match change
    case NoChange => after == jobs
    case StartsCreate(call, id) => after == jobs[call := NetworkPending(id)]
    case EndsCreate(call, made) =>
      && after == jobs - {call} && call in jobs
      && (made.Some? ==> jobs[call] == CreateSucceeded(made.value.1.sessionId, made.value.1.containerId))
      && (made.None? ==> jobs[call].CreateFailed?)
    case StartsBurn(call, key) => after == jobs[call := DestroyContainer(k.runtimes[key].sessionId, k.runtimes[key].containerId)]
    case EndsBurn(call, succeeded) => after == jobs - {call} && call in jobs && jobs[call].DestroyFinished? && jobs[call].succeeded == succeeded
  }

  ghost predicate FailuresFollow(jobs: map<nat, Job>, failed: set<string>, after: set<string>, change: Change) {
    after == failed + if change.EndsCreate? && change.call in jobs && jobs[change.call].CreateFailed? && jobs[change.call].rollbackFailed
                      then {jobs[change.call].id} else {}
  }

  lemma BackedAfter(k: Claims, after: Claims, change: Change, engine: Engine, owners: map<string, string>,
                    jobs: map<nat, Job>, jobsAfter: map<nat, Job>)
    requires Tracks(k, after, change) && JobsFollow(k, jobs, jobsAfter, change)
    requires Backed(k, engine, owners) && JobsOk(k, engine, owners, jobs)
    ensures Backed(after, engine, owners)
  {
    hide JobsOk, NoContainer;
    if change.EndsCreate? && change.made.Some? {
      MadeIsSole(k, change, engine, owners, jobs);
    }
    hide Sole;
  }

  lemma MadeIsSole(k: Claims, change: Change, engine: Engine, owners: map<string, string>, jobs: map<nat, Job>)
    requires change.EndsCreate? && change.made.Some? && Fits(k, change) && change.call in jobs
    requires jobs[change.call] == CreateSucceeded(change.made.value.1.sessionId, change.made.value.1.containerId)
    requires JobsOk(k, engine, owners, jobs)
    ensures Sole(engine, owners, change.made.value.0.id, change.made.value.1)
  {
    hide OnlyContainer;
    assert JobOk(engine, owners, jobs[change.call]) && JobFits(k, change.call, jobs[change.call]);
  }

  lemma JobsOkAfter(k: Claims, after: Claims, change: Change, engine: Engine, owners: map<string, string>, failed: set<string>,
                    jobs: map<nat, Job>, jobsAfter: map<nat, Job>)
    requires Tracks(k, after, change) && JobsFollow(k, jobs, jobsAfter, change)
    requires ClaimsOk(k) && Backed(k, engine, owners) && JobsOk(k, engine, owners, jobs) && NothingOrphaned(k, engine, failed)
    ensures JobsOk(after, engine, owners, jobsAfter)
  {
    hide OnlyContainer, NoContainer, JobInvariant, Backed, NothingOrphaned;
    NewJobOk(k, change, engine, owners, failed);
    forall n | n in jobsAfter ensures JobOk(engine, owners, jobsAfter[n]) && JobFits(after, n, jobsAfter[n]) {
      JobOkAfter(k, after, change, engine, owners, jobs, jobsAfter, n);
    }
  }

  lemma JobOkAfter(k: Claims, after: Claims, change: Change, engine: Engine, owners: map<string, string>,
                   jobs: map<nat, Job>, jobsAfter: map<nat, Job>, n: nat)
    requires Tracks(k, after, change) && JobsFollow(k, jobs, jobsAfter, change)
    requires JobsOk(k, engine, owners, jobs) && n in jobsAfter
    requires change.StartsCreate? ==> JobOk(engine, owners, NetworkPending(change.id))
    requires change.StartsBurn? ==>
      var r := k.runtimes[change.key];
      r.sessionId == change.key.id && JobOk(engine, owners, DestroyContainer(r.sessionId, r.containerId))
    ensures JobOk(engine, owners, jobsAfter[n]) && JobFits(after, n, jobsAfter[n])
  {
    hide JobOk;
    if n in jobs && jobsAfter[n] == jobs[n] {
      assert JobOk(engine, owners, jobs[n]) && JobFits(k, n, jobs[n]);
    }
  }

  lemma NewJobOk(k: Claims, change: Change, engine: Engine, owners: map<string, string>, failed: set<string>)
    requires Fits(k, change)
    requires ClaimsOk(k) && Backed(k, engine, owners) && NothingOrphaned(k, engine, failed)
    ensures change.StartsCreate? ==> JobOk(engine, owners, NetworkPending(change.id))
    ensures change.StartsBurn? ==>
      var r := k.runtimes[change.key];
      r.sessionId == change.key.id && JobOk(engine, owners, DestroyContainer(r.sessionId, r.containerId))
  {
    if change.StartsCreate? {
      assert !Accounted(k, failed, change.id);
    }
  }

  lemma OrphansAfter(k: Claims, after: Claims, change: Change, engine: Engine, owners: map<string, string>, failed: set<string>,
                     failedAfter: set<string>, jobs: map<nat, Job>, jobsAfter: map<nat, Job>)
    requires Tracks(k, after, change) && JobsFollow(k, jobs, jobsAfter, change) && FailuresFollow(jobs, failed, failedAfter, change)
    requires ClaimsOk(k) && JobsOk(k, engine, owners, jobs) && NothingOrphaned(k, engine, failed)
    ensures NothingOrphaned(after, engine, failedAfter)
  {
    hide NothingOrphaned, JobsOk, ClaimsOk;
    forall id | Accounted(k, failed, id) && !Accounted(after, failedAfter, id) ensures Clean(engine, id) {
      LosesClean(k, after, change, engine, owners, failed, failedAfter, jobs, jobsAfter, id);
    }
    OrphansFrame(k, after, engine, failed, failedAfter);
    assert failedAfter <= after.usedIds by {
      FailedUsed(k, after, change, engine, owners, failed, failedAfter, jobs, jobsAfter);
    }
    assert NothingOrphaned(after, engine, failedAfter) by { Assemble(after, engine, failedAfter); }
  }

  lemma Assemble(k: Claims, engine: Engine, failed: set<string>)
    requires failed <= k.usedIds
    requires forall x :: x in engine.containers ==> Accounted(k, failed, engine.containers[x])
    requires forall id :: id in engine.networks ==> Accounted(k, failed, id)
    ensures NothingOrphaned(k, engine, failed)
  {
  }

  lemma OrphansFrame(k: Claims, after: Claims, engine: Engine, failed: set<string>, failedAfter: set<string>)
    requires NothingOrphaned(k, engine, failed)
    requires forall id :: Accounted(k, failed, id) && !Accounted(after, failedAfter, id) ==> Clean(engine, id)
    ensures forall x :: x in engine.containers ==> Accounted(after, failedAfter, engine.containers[x])
    ensures forall id :: id in engine.networks ==> Accounted(after, failedAfter, id)
  {
    hide Accounted;
    forall x | x in engine.containers ensures Accounted(after, failedAfter, engine.containers[x]) {
      assert Accounted(k, failed, engine.containers[x]);
    }
  }

  lemma FailedUsed(k: Claims, after: Claims, change: Change, engine: Engine, owners: map<string, string>, failed: set<string>,
                   failedAfter: set<string>, jobs: map<nat, Job>, jobsAfter: map<nat, Job>)
    requires Tracks(k, after, change) && JobsFollow(k, jobs, jobsAfter, change) && FailuresFollow(jobs, failed, failedAfter, change)
    requires ClaimsOk(k) && JobsOk(k, engine, owners, jobs) && NothingOrphaned(k, engine, failed)
    ensures failedAfter <= after.usedIds
  {
    hide JobOk, Accounted;
    if change.EndsCreate? {
      assert JobFits(k, change.call, jobs[change.call]);
    }
  }

  /** A reservation is only let go of by a create that made a session, reported a failure, or left nothing. */
  lemma ReservationLeft(k: Claims, after: Claims, change: Change, engine: Engine, owners: map<string, string>, failed: set<string>,
                        failedAfter: set<string>, jobs: map<nat, Job>, jobsAfter: map<nat, Job>, id: string)
    requires Tracks(k, after, change) && JobsFollow(k, jobs, jobsAfter, change) && FailuresFollow(jobs, failed, failedAfter, change)
    requires JobsOk(k, engine, owners, jobs)
    requires id in k.reserved && !Accounted(after, failedAfter, id)
    ensures Clean(engine, id)
  {
    hide NoContainer, OnlyContainer;
    assert change.EndsCreate? && id == k.creating[change.call];
    assert JobOk(engine, owners, jobs[change.call]) && JobFits(k, change.call, jobs[change.call]);
  }

  /** A session only leaves the map through a destroy that removed everything. */
  lemma SessionLeft(k: Claims, after: Claims, change: Change, engine: Engine, owners: map<string, string>,
                    jobs: map<nat, Job>, jobsAfter: map<nat, Job>, key: Key)
    requires Tracks(k, after, change) && JobsFollow(k, jobs, jobsAfter, change)
    requires JobsOk(k, engine, owners, jobs)
    requires key in k.runtimes && key !in after.runtimes
    ensures Clean(engine, key.id)
  {
    hide NoContainer, OnlyContainer;
    assert change.EndsBurn? && change.succeeded && key == k.burning[change.call].key;
    assert JobOk(engine, owners, jobs[change.call]) && JobFits(k, change.call, jobs[change.call]);
  }

  /** What stops being accounted for has nothing left in the engine. */
  lemma LosesClean(k: Claims, after: Claims, change: Change, engine: Engine, owners: map<string, string>, failed: set<string>,
                   failedAfter: set<string>, jobs: map<nat, Job>, jobsAfter: map<nat, Job>, id: string)
    requires Tracks(k, after, change) && JobsFollow(k, jobs, jobsAfter, change) && FailuresFollow(jobs, failed, failedAfter, change)
    requires JobsOk(k, engine, owners, jobs)
    requires Accounted(k, failed, id) && !Accounted(after, failedAfter, id)
    ensures Clean(engine, id)
  {
    hide Clean, JobsOk, JobsFollow, Tracks;
    if id in k.reserved {
      ReservationLeft(k, after, change, engine, owners, failed, failedAfter, jobs, jobsAfter, id);
    } else {
      var key :| key in k.runtimes && key.id == id;
      SessionLeft(k, after, change, engine, owners, jobs, jobsAfter, key);
    }
  }

  lemma JobsDoFollow(c: Config, y: System, event: Event, t: State)
    requires Ready(y, Serves(event)) && t == Next(c, y.service, event).after
    requires JobsOk(ClaimsOf(y.service), y.engine, y.owners, y.jobs)
    requires Tracks(ClaimsOf(y.service), ClaimsOf(t), ChangeOf(c, y.service, event))
    ensures JobsFollow(ClaimsOf(y.service), y.jobs, JobsAfter(y.service, t, y.jobs, event), ChangeOf(c, y.service, event))
    ensures FailuresFollow(y.jobs, y.failedRollbacks, y.failedRollbacks + Reported(y.jobs, event), ChangeOf(c, y.service, event))
  {
    hide JobOk, JobFits, Admits, DoRuntimeCreated, DoBeginRead, DoBeginExchange, DoBeginAuthorize, DoBeginBurn, DoInspected,
      DoContinue, DoDestroyed;
  }

  lemma ServiceKeeps(c: Config, attempts: nat, y: System, event: Event, t: State)
    requires Ready(y, Serves(event)) && t == Next(c, y.service, event).after
    requires SystemOk(c, y)
    ensures SystemOk(c, SystemNext(c, attempts, y, Serves(event)))
  {
    hide Next, Structure, ClaimsOf, Backed, JobsOk, NothingOrphaned, Tracks, JobsFollow, FailuresFollow, ChangeOf, Enabled, JobsAfter, Reported;
    hide Delivers;
    var s := y.service;
    var k, after, change := ClaimsOf(s), ClaimsOf(t), ChangeOf(c, s, event);
    StructureStep(c, s, event);
    StructureGivesClaims(c, s);
    ServiceTracks(c, s, event, t);
    JobsDoFollow(c, y, event, t);
    var jobs := JobsAfter(s, t, y.jobs, event);
    var failed := y.failedRollbacks + Reported(y.jobs, event);
    assert Fits(k, change) by { TracksFits(k, after, change); }
    BackedAfter(k, after, change, y.engine, y.owners, y.jobs, jobs);
    JobsOkAfter(k, after, change, y.engine, y.owners, y.failedRollbacks, y.jobs, jobs);
    OrphansAfter(k, after, change, y.engine, y.owners, y.failedRollbacks, failed, y.jobs, jobs);
  }

  lemma TracksFits(k: Claims, after: Claims, change: Change)
    requires Tracks(k, after, change)
    ensures Fits(k, change)
  {
  }

  // ---------- an engine reply keeps the accounts ----------

  lemma ReplyTouches(attempts: nat, k: Claims, engine: Engine, owners: map<string, string>, job: Job, reply: Reply)
    requires Possible(engine, job, reply) && JobOk(engine, owners, job)
    requires Backed(k, engine, owners)
    ensures var (after, next) := Advance(attempts, engine, job, reply);
      && JobInvariant(after, next) && next.id == job.id
      && TouchesOnly(engine, after, job.id)
      && (!Creates(job) ==> forall x :: x in after.containers ==> x in engine.containers && after.containers[x] == engine.containers[x])
      && (!Creates(job) ==> after.networks <= engine.networks)
  {
    hide JobInvariant, TouchesOnly, Sole;
    AdvanceKeeps(attempts, engine, job, reply);
  }

  /** Resources of `id` are only taken away. */
  ghost predicate Shrinks(engine: Engine, after: Engine, id: string) {
    && (forall x :: x in after.containers && after.containers[x] == id ==> x in engine.containers && engine.containers[x] == id)
    && (id in after.networks ==> id in engine.networks)
  }

  lemma JobStable(engine: Engine, after: Engine, owners: map<string, string>, ownersAfter: map<string, string>, job: Job)
    requires JobOk(engine, owners, job) && Shrinks(engine, after, job.id)
    requires forall x :: x in owners ==> x in ownersAfter && ownersAfter[x] == owners[x]
    ensures JobOk(after, ownersAfter, job)
  {
  }

  lemma SoleStable(engine: Engine, after: Engine, owners: map<string, string>, ownersAfter: map<string, string>, id: string, r: Resource)
    requires Sole(engine, owners, id, r) && Shrinks(engine, after, id)
    requires forall x :: x in owners ==> x in ownersAfter && ownersAfter[x] == owners[x]
    ensures Sole(after, ownersAfter, id, r)
  {
  }

  ghost function OwnersAfter(owners: map<string, string>, job: Job, reply: Reply): map<string, string> {
    if reply.ContainerMade? then owners[reply.containerId := job.id] else owners
  }

  /** The reply of a job leaves every other session's resources at most fewer; and its own, unless it is still creating. */
  lemma ReplyShrinks(attempts: nat, k: Claims, engine: Engine, owners: map<string, string>, job: Job, reply: Reply, after: Engine, id: string)
    requires Possible(engine, job, reply) && JobOk(engine, owners, job) && Backed(k, engine, owners)
    requires after == Advance(attempts, engine, job, reply).0
    requires id != job.id || !Creates(job)
    ensures Shrinks(engine, after, id)
  {
    hide JobInvariant, Backed, Advance, Possible, ReferenceOwned;
    ReplyTouches(attempts, k, engine, owners, job, reply);
  }

  lemma ReplyReferences(attempts: nat, engine: Engine, owners: map<string, string>, job: Job, reply: Reply)
    requires Possible(engine, job, reply) && ReferenceOwned(owners, job)
    requires reply.ContainerMade? ==> reply.containerId !in owners
    ensures ReferenceOwned(OwnersAfter(owners, job, reply), Advance(attempts, engine, job, reply).1)
    ensures CreateJob(Advance(attempts, engine, job, reply).1) == CreateJob(job)
  {
  }

  lemma ReplyOwners(attempts: nat, engine: Engine, owners: map<string, string>, job: Job, reply: Reply, after: Engine)
    requires Possible(engine, job, reply) && after == Advance(attempts, engine, job, reply).0
    requires forall x :: x in engine.containers ==> x in owners && owners[x] == engine.containers[x]
    ensures forall x :: x in after.containers ==> x in OwnersAfter(owners, job, reply) && OwnersAfter(owners, job, reply)[x] == after.containers[x]
  {
  }

  lemma ReplyBacked(attempts: nat, k: Claims, engine: Engine, owners: map<string, string>, jobs: map<nat, Job>, call: nat, reply: Reply,
                    after: Engine, ownersAfter: map<string, string>)
    requires ClaimsOk(k) && Backed(k, engine, owners) && JobsOk(k, engine, owners, jobs)
    requires call in jobs && Possible(engine, jobs[call], reply) && (reply.ContainerMade? ==> reply.containerId !in owners)
    requires after == Advance(attempts, engine, jobs[call], reply).0 && ownersAfter == OwnersAfter(owners, jobs[call], reply)
    ensures Backed(k, after, ownersAfter)
  {
    hide Advance, Possible, JobOk, Sole, Shrinks;
    var job := jobs[call];
    assert JobOk(engine, owners, job) && JobFits(k, call, job);
    ReplyOwners(attempts, engine, owners, job, reply, after);
    forall key | key in k.runtimes ensures Sole(after, ownersAfter, key.id, k.runtimes[key]) {
      ReplyShrinks(attempts, k, engine, owners, job, reply, after, key.id);
      SoleStable(engine, after, owners, ownersAfter, key.id, k.runtimes[key]);
    }
    forall n | n in k.burning ensures Sole(after, ownersAfter, k.burning[n].key.id, k.burning[n].runtime) {
      ReplyShrinks(attempts, k, engine, owners, job, reply, after, k.burning[n].key.id);
      SoleStable(engine, after, owners, ownersAfter, k.burning[n].key.id, k.burning[n].runtime);
    }
  }

  lemma ReplyJobs(attempts: nat, k: Claims, engine: Engine, owners: map<string, string>, jobs: map<nat, Job>, call: nat, reply: Reply,
                  after: Engine, ownersAfter: map<string, string>, next: Job)
    requires ClaimsOk(k) && Backed(k, engine, owners) && JobsOk(k, engine, owners, jobs)
    requires call in jobs && Possible(engine, jobs[call], reply) && (reply.ContainerMade? ==> reply.containerId !in owners)
    requires (after, next) == Advance(attempts, engine, jobs[call], reply) && ownersAfter == OwnersAfter(owners, jobs[call], reply)
    ensures JobsOk(k, after, ownersAfter, jobs[call := next])
  {
    hide Advance, Possible, JobInvariant, Shrinks, Backed, ReferenceOwned;
    var job := jobs[call];
    assert JobOk(engine, owners, job) && JobFits(k, call, job);
    ReplyTouches(attempts, k, engine, owners, job, reply);
    ReplyReferences(attempts, engine, owners, job, reply);
    forall n | n in jobs && n != call ensures JobOk(after, ownersAfter, jobs[n]) && JobFits(k, n, jobs[n]) {
      OtherJobStays(attempts, k, engine, owners, jobs, call, reply, after, ownersAfter, n);
    }
  }

  lemma OtherJobStays(attempts: nat, k: Claims, engine: Engine, owners: map<string, string>, jobs: map<nat, Job>, call: nat, reply: Reply,
                      after: Engine, ownersAfter: map<string, string>, n: nat)
    requires ClaimsOk(k) && Backed(k, engine, owners) && JobsOk(k, engine, owners, jobs)
    requires call in jobs && Possible(engine, jobs[call], reply) && (reply.ContainerMade? ==> reply.containerId !in owners)
    requires after == Advance(attempts, engine, jobs[call], reply).0 && ownersAfter == OwnersAfter(owners, jobs[call], reply)
    requires n in jobs && n != call
    ensures JobOk(after, ownersAfter, jobs[n]) && JobFits(k, n, jobs[n])
  {
    hide Advance, Possible, JobOk, Shrinks, Backed, ClaimsOk;
    assert JobOk(engine, owners, jobs[call]) && JobFits(k, call, jobs[call]);
    assert JobOk(engine, owners, jobs[n]) && JobFits(k, n, jobs[n]);
    OtherJobApart(k, jobs, call, n);
    ReplyShrinks(attempts, k, engine, owners, jobs[call], reply, after, jobs[n].id);
    JobStable(engine, after, owners, ownersAfter, jobs[n]);
  }

  /** No other job works for a session whose create is still adding resources. */
  lemma OtherJobApart(k: Claims, jobs: map<nat, Job>, call: nat, n: nat)
    requires ClaimsOk(k) && jobs.Keys == k.creating.Keys + k.burning.Keys
    requires call in jobs && n in jobs && n != call && JobFits(k, call, jobs[call]) && JobFits(k, n, jobs[n])
    ensures jobs[n].id != jobs[call].id || !Creates(jobs[call])
  {
  }

  lemma ReplyOrphans(attempts: nat, k: Claims, engine: Engine, owners: map<string, string>, failed: set<string>, jobs: map<nat, Job>, call: nat,
                     reply: Reply, after: Engine)
    requires ClaimsOk(k) && Backed(k, engine, owners) && JobsOk(k, engine, owners, jobs) && NothingOrphaned(k, engine, failed)
    requires call in jobs && Possible(engine, jobs[call], reply)
    requires after == Advance(attempts, engine, jobs[call], reply).0
    ensures NothingOrphaned(k, after, failed)
  {
    hide Advance, Possible, JobInvariant, Backed, Shrinks, Accounted, ReferenceOwned;
    var job := jobs[call];
    assert JobOk(engine, owners, job) && JobFits(k, call, job);
    ReplyTouches(attempts, k, engine, owners, job, reply);
    assert Creates(job) ==> Accounted(k, failed, job.id) by {
      CreatingAccounted(k, failed, jobs, call);
    }
  }

  lemma CreatingAccounted(k: Claims, failed: set<string>, jobs: map<nat, Job>, call: nat)
    requires ClaimsOk(k) && call in jobs && JobFits(k, call, jobs[call]) && jobs.Keys == k.creating.Keys + k.burning.Keys
    ensures Creates(jobs[call]) ==> Accounted(k, failed, jobs[call].id)
  {
  }

  lemma ReplyKeeps(c: Config, attempts: nat, y: System, call: nat, reply: Reply)
    requires Ready(y, Replies(call, reply)) && SystemOk(c, y)
    ensures SystemOk(c, SystemNext(c, attempts, y, Replies(call, reply)))
  {
    hide Structure, ClaimsOf, Backed, JobsOk, NothingOrphaned, Advance, Possible;
    StructureGivesClaims(c, y.service);
    var k := ClaimsOf(y.service);
    var (after, next) := Advance(attempts, y.engine, y.jobs[call], reply);
    var ownersAfter := OwnersAfter(y.owners, y.jobs[call], reply);
    ReplyBacked(attempts, k, y.engine, y.owners, y.jobs, call, reply, after, ownersAfter);
    ReplyJobs(attempts, k, y.engine, y.owners, y.jobs, call, reply, after, ownersAfter, next);
    ReplyOrphans(attempts, k, y.engine, y.owners, y.failedRollbacks, y.jobs, call, reply, after);
  }

  lemma VanishKeeps(c: Config, attempts: nat, y: System, containers: set<string>, networks: set<string>)
    requires SystemOk(c, y)
    ensures SystemOk(c, SystemNext(c, attempts, y, Vanishes(containers, networks)))
  {
    hide Structure, ClaimsOf, Sole, JobOk, JobFits, Accounted;
    var k := ClaimsOf(y.service);
    var after := SystemNext(c, attempts, y, Vanishes(containers, networks)).engine;
    forall id: string ensures Shrinks(y.engine, after, id) {
    }
    forall key | key in k.runtimes ensures Sole(after, y.owners, key.id, k.runtimes[key]) {
      SoleStable(y.engine, after, y.owners, y.owners, key.id, k.runtimes[key]);
    }
    forall n | n in k.burning ensures Sole(after, y.owners, k.burning[n].key.id, k.burning[n].runtime) {
      SoleStable(y.engine, after, y.owners, y.owners, k.burning[n].key.id, k.burning[n].runtime);
    }
    forall n | n in y.jobs ensures JobOk(after, y.owners, y.jobs[n]) {
      JobStable(y.engine, after, y.owners, y.owners, y.jobs[n]);
    }
  }

  lemma SystemKeeps(c: Config, attempts: nat, y: System, e: SystemEvent)
    requires Ready(y, e) && SystemOk(c, y)
    ensures SystemOk(c, SystemNext(c, attempts, y, e))
  {
    hide SystemOk, SystemNext;
    match e
    case Serves(event) => ServiceKeeps(c, attempts, y, event, Next(c, y.service, event).after);
    case Replies(call, reply) => ReplyKeeps(c, attempts, y, call, reply);
    case Vanishes(containers, networks) => VanishKeeps(c, attempts, y, containers, networks);
  }

  // ---------- whole runs ----------

  ghost predicate Allowed(c: Config, attempts: nat, y: System, es: seq<SystemEvent>)
    decreases |es|
  {
    es == [] || (Ready(y, es[0]) && Allowed(c, attempts, SystemNext(c, attempts, y, es[0]), es[1..]))
  }

  ghost function Unfold(c: Config, attempts: nat, y: System, es: seq<SystemEvent>): System
    requires Allowed(c, attempts, y, es)
    decreases |es|
  {
    if es == [] then y else Unfold(c, attempts, SystemNext(c, attempts, y, es[0]), es[1..])
  }

  function InitialSystem(): System {
    System(Initial(), Engine(map[], {}), map[], map[], {})
  }

  lemma {:induction false} RunKeeps(c: Config, attempts: nat, y: System, es: seq<SystemEvent>)
    requires Allowed(c, attempts, y, es) && SystemOk(c, y)
    ensures SystemOk(c, Unfold(c, attempts, y, es))
    decreases |es|
  {
    hide SystemOk, SystemNext, Ready;
    if es != [] {
      SystemKeeps(c, attempts, y, es[0]);
      RunKeeps(c, attempts, SystemNext(c, attempts, y, es[0]), es[1..]);
    }
  }

  lemma InitiallyOk(c: Config)
    ensures SystemOk(c, InitialSystem())
  {
    assert ClaimsOf(Initial()) == Claims(map[], {}, map[], map[], {});
  }

  /** The claim of a resource, in the service's own terms. */
  ghost predicate BelongsSomewhere(y: System, id: string) {
    || (exists key :: key in y.service.sessions && key.id == id)
    || id in y.service.reservations
    || id in y.failedRollbacks
  }

  /**
   No silent orphan. At every point of every run, each container and each network belongs to a session that is still in
   the map, to a create that still holds its reservation, or to a create that reported a failed rollback.
   */
  lemma NoOrphanEver(c: Config, attempts: nat, es: seq<SystemEvent>)
    requires Allowed(c, attempts, InitialSystem(), es)
    ensures var y := Unfold(c, attempts, InitialSystem(), es);
      && (forall x :: x in y.engine.containers ==> BelongsSomewhere(y, y.engine.containers[x]))
      && (forall id :: id in y.engine.networks ==> BelongsSomewhere(y, id))
  {
    InitiallyOk(c);
    RunKeeps(c, attempts, InitialSystem(), es);
    hide Structure, Backed, JobsOk, Allowed, Unfold;
    var y := Unfold(c, attempts, InitialSystem(), es);
    var k := ClaimsOf(y.service);
    forall id | Accounted(k, y.failedRollbacks, id) ensures BelongsSomewhere(y, id) {
      if id !in k.reserved && id !in y.failedRollbacks {
        var key :| key in k.runtimes && key.id == id;
        assert key in y.service.sessions;
      }
    }
  }

  /** Every session's containers are the one its record names. */
  lemma OneContainerPerSession(c: Config, attempts: nat, es: seq<SystemEvent>, key: Key)
    requires Allowed(c, attempts, InitialSystem(), es)
    requires key in Unfold(c, attempts, InitialSystem(), es).service.sessions
    ensures var y := Unfold(c, attempts, InitialSystem(), es);
      OnlyContainer(y.engine, key.id, y.service.sessions[key].runtime.containerId)
  {
    InitiallyOk(c);
    RunKeeps(c, attempts, InitialSystem(), es);
    hide Structure, JobsOk, Allowed, Unfold, NothingOrphaned, OnlyContainer;
    var y := Unfold(c, attempts, InitialSystem(), es);
    assert key in ClaimsOf(y.service).runtimes;
  }

  // ---------- a burned session stays gone ----------

  /** The create of the session is over and the engine holds nothing of it. */
  ghost predicate Buried(y: System, id: string) {
    id in y.service.usedIds && id !in y.service.reservations && Clean(y.engine, id)
  }

  lemma BuriedServes(c: Config, attempts: nat, y: System, event: Event, id: string, t: State)
    requires Ready(y, Serves(event)) && t == Next(c, y.service, event).after
    requires Buried(y, id)
    ensures Buried(SystemNext(c, attempts, y, Serves(event)), id)
  {
    hide Next, RuntimesOf, CreatingOf, BurningOf, Clean, Enabled;
    ServiceTracks(c, y.service, event, t);
    var change := ChangeOf(c, y.service, event);
    assert change.StartsCreate? ==> change.id !in y.service.usedIds;
  }

  lemma BuriedReplies(c: Config, attempts: nat, y: System, call: nat, reply: Reply, id: string)
    requires Ready(y, Replies(call, reply)) && SystemOk(c, y) && Buried(y, id)
    ensures Buried(SystemNext(c, attempts, y, Replies(call, reply)), id)
  {
    hide Structure, Backed, Possible, Advance, JobOk, NothingOrphaned;
    StructureGivesClaims(c, y.service);
    var k, job := ClaimsOf(y.service), y.jobs[call];
    assert JobOk(y.engine, y.owners, job) && JobFits(k, call, job);
    ReplyShrinks(attempts, k, y.engine, y.owners, job, reply, Advance(attempts, y.engine, job, reply).0, id);
  }

  lemma {:induction false} BuriedForever(c: Config, attempts: nat, y: System, es: seq<SystemEvent>, id: string)
    requires Allowed(c, attempts, y, es) && SystemOk(c, y) && Buried(y, id)
    ensures Buried(Unfold(c, attempts, y, es), id)
    decreases |es|
  {
    hide SystemOk, SystemNext, Ready, Buried;
    if es != [] {
      SystemKeeps(c, attempts, y, es[0]);
      BuriedStep(c, attempts, y, es[0], id);
      BuriedForever(c, attempts, SystemNext(c, attempts, y, es[0]), es[1..], id);
    }
  }

  lemma BuriedStep(c: Config, attempts: nat, y: System, e: SystemEvent, id: string)
    requires Ready(y, e) && SystemOk(c, y) && Buried(y, id)
    ensures Buried(SystemNext(c, attempts, y, e), id)
  {
    hide SystemOk;
    match e
    case Serves(event) =>
      hide Next;
      BuriedServes(c, attempts, y, event, id, Next(c, y.service, event).after);
    case Replies(call, reply) =>
      hide Advance;
      BuriedReplies(c, attempts, y, call, reply, id);
    case Vanishes(_, _) =>
  }

  /**
   A burn that reports success has left nothing of its session in the engine, and nothing of it ever comes back, whatever
   other burns of the same session are still under way.
   */
  lemma BurnIsFinal(c: Config, attempts: nat, y: System, call: nat, es: seq<SystemEvent>)
    requires SystemOk(c, y) && Ready(y, Serves(Destroyed(call, true)))
    requires Allowed(c, attempts, y, [Serves(Destroyed(call, true))] + es)
    ensures Clean(Unfold(c, attempts, y, [Serves(Destroyed(call, true))] + es).engine, y.service.calls[call].key.id)
  {
    var key := y.service.calls[call].key;
    BuriedAtLast(c, y, call);
    BuriedForever(c, attempts, y, [Serves(Destroyed(call, true))] + es, key.id);
  }

  lemma BuriedAtLast(c: Config, y: System, call: nat)
    requires SystemOk(c, y) && Ready(y, Serves(Destroyed(call, true)))
    ensures Buried(y, y.service.calls[call].key.id)
  {
    hide Backed, NothingOrphaned, Structure, CreatingOf, BurningOf, RuntimesOf;
    DestroySettled(c, y.service, call);
    CallNamed(y.service.calls, call);
    CallOfKind(y.service.calls, call);
    assert JobOk(y.engine, y.owners, y.jobs[call]) && JobFits(ClaimsOf(y.service), call, y.jobs[call]);
  }

  lemma DestroySettled(c: Config, s: State, call: nat)
    requires Structure(c, s) && call in s.calls && s.calls[call].DestroyCall?
    ensures Settled(s, s.calls[call].key)
  {
    hide ReservationsPending, OneCreatePerId;
    assert CallOk(c, s, s.calls[call]);
  }
}
