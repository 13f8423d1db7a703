/**
 Container lifecycle of src/runtime/docker-engine-runtime.ts: create with rollback, and destroy.

 A job is one running `create` or `destroy`, stopped at the engine call it is waiting for. Fault model: a rejected call
 had no effect. Container and network names are derived from the session id, so a network is identified by that id and a
 container by the engine's own id together with the session it was made for.
 */
module DockerLifecycle {
  import opened Wrappers

  datatype Engine = Engine(containers: map<string, string>, networks: set<string>)

  datatype HealthStatus = Healthy | Starting | Unhealthy | NoHealthCheck

  datatype Reply =
    | Rejected
    | Accepted
    | ContainerMade(containerId: string, reported: bool)
    | Health(status: HealthStatus, portPublished: bool)

  datatype Job =
    | NetworkPending(id: string)
    | ContainerPending(id: string)
    | StartPending(id: string, containerId: string)
    | HealthPending(id: string, containerId: string, attempt: nat)
    | RollbackContainer(id: string, reference: Option<string>)
    | RollbackNetwork(id: string, failures: nat)
    | CreateSucceeded(id: string, containerId: string)
    | CreateFailed(id: string, rollbackFailed: bool)
    | DestroyContainer(id: string, containerId: string)
    | DestroyNetwork(id: string, containerId: string, failures: nat)
    | DestroyFinished(id: string, succeeded: bool)

  predicate Waiting(job: Job) {
    !job.CreateSucceeded? && !job.CreateFailed? && !job.DestroyFinished?
  }

  /** The replies the engine can give to the call a job waits for. The engine never hands out an id twice. */
  predicate Possible(engine: Engine, job: Job, reply: Reply) {
    Waiting(job) &&
    match reply
    case Rejected => true
    case Accepted => !job.ContainerPending? && !job.HealthPending?
    case ContainerMade(containerId, _) => job.ContainerPending? && containerId !in engine.containers
    case Health(_, _) => job.HealthPending?
  }

  /** DELETE by the engine's id, or by name when the engine did not report an id. */
  function WithoutContainer(engine: Engine, id: string, reference: Option<string>): Engine {
    match reference
    case Some(containerId) => engine.(containers := engine.containers - {containerId})
    case None => engine.(containers := map x | x in engine.containers && engine.containers[x] != id :: engine.containers[x])
  }

  function WithoutNetwork(engine: Engine, id: string): Engine {
    engine.(networks := engine.networks - {id})
  }

  /** One engine call: its effect, and where the job goes next. `attempts` is the startup health budget. */
  function Advance(attempts: nat, engine: Engine, job: Job, reply: Reply): (Engine, Job)
    requires Possible(engine, job, reply)
  {
    match job
    case NetworkPending(id) =>
      if reply == Rejected then (engine, CreateFailed(id, false))
      else (engine.(networks := engine.networks + {id}), ContainerPending(id))
    case ContainerPending(id) =>
      if reply == Rejected then (engine, RollbackNetwork(id, 0))
      else (engine.(containers := engine.containers[reply.containerId := id]),
            if reply.reported then StartPending(id, reply.containerId) else RollbackContainer(id, None))
    case StartPending(id, containerId) =>
      (engine, if reply == Rejected then RollbackContainer(id, Some(containerId)) else HealthPending(id, containerId, 1))
    case HealthPending(id, containerId, attempt) =>
      (engine,
       if reply.Health? && reply.status == Healthy && reply.portPublished then CreateSucceeded(id, containerId)
       else if reply.Health? && reply.status == Starting && attempt < attempts then HealthPending(id, containerId, attempt + 1)
       else RollbackContainer(id, Some(containerId)))
    case RollbackContainer(id, reference) =>
      if reply == Rejected then (engine, RollbackNetwork(id, 1))
      else (WithoutContainer(engine, id, reference), RollbackNetwork(id, 0))
    case RollbackNetwork(id, failures) =>
      if reply == Rejected then (engine, CreateFailed(id, true))
      else (WithoutNetwork(engine, id), CreateFailed(id, failures > 0))
    case DestroyContainer(id, containerId) =>
      if reply == Rejected then (engine, DestroyNetwork(id, containerId, 1))
      else (WithoutContainer(engine, id, Some(containerId)), DestroyNetwork(id, containerId, 0))
    case DestroyNetwork(id, containerId, failures) =>
      if reply == Rejected then (engine, DestroyFinished(id, false))
      else (WithoutNetwork(engine, id), DestroyFinished(id, failures == 0))
  }

  // ---------- what the engine holds for one session ----------

  predicate NoContainer(engine: Engine, id: string) {
    forall x :: x in engine.containers ==> engine.containers[x] != id
  }

  predicate OnlyContainer(engine: Engine, id: string, containerId: string) {
    forall x :: x in engine.containers && engine.containers[x] == id ==> x == containerId
  }

  predicate Clean(engine: Engine, id: string) {
    NoContainer(engine, id) && id !in engine.networks
  }

  /** What a job knows about the resources of its session, at the call it waits for. */
  predicate JobInvariant(engine: Engine, job: Job) {
    match job
    case NetworkPending(id) => Clean(engine, id)
    case ContainerPending(id) => NoContainer(engine, id)
    case StartPending(id, containerId) => OnlyContainer(engine, id, containerId)
    case HealthPending(id, containerId, _) => OnlyContainer(engine, id, containerId)
    case RollbackContainer(id, reference) => reference.Some? ==> OnlyContainer(engine, id, reference.value)
    case RollbackNetwork(id, failures) => failures == 0 ==> NoContainer(engine, id)
    case CreateSucceeded(id, containerId) => OnlyContainer(engine, id, containerId)
    case CreateFailed(id, rollbackFailed) => !rollbackFailed ==> Clean(engine, id)
    case DestroyContainer(id, containerId) => OnlyContainer(engine, id, containerId)
    case DestroyNetwork(id, containerId, failures) => failures == 0 ==> NoContainer(engine, id)
    case DestroyFinished(id, succeeded) => succeeded ==> Clean(engine, id)
  }

  /** A job touches no resource of another session, and only a create adds any. */
  ghost predicate TouchesOnly(engine: Engine, after: Engine, id: string) {
    && (forall x :: x in after.containers && (x !in engine.containers || after.containers[x] != engine.containers[x]) ==>
          x !in engine.containers && after.containers[x] == id)
    && (forall x :: x in engine.containers && x !in after.containers ==> engine.containers[x] == id)
    && (forall n :: n in after.networks && n !in engine.networks ==> n == id)
    && (forall n :: n in engine.networks && n !in after.networks ==> n == id)
  }

  predicate Creates(job: Job) {
    job.NetworkPending? || job.ContainerPending?
  }

  lemma AdvanceKeeps(attempts: nat, engine: Engine, job: Job, reply: Reply)
    requires Possible(engine, job, reply) && JobInvariant(engine, job)
    requires job.DestroyContainer? && job.containerId in engine.containers ==> engine.containers[job.containerId] == job.id
    requires job.RollbackContainer? && job.reference.Some? && job.reference.value in engine.containers ==>
               engine.containers[job.reference.value] == job.id
    ensures var (after, next) := Advance(attempts, engine, job, reply);
      && JobInvariant(after, next) && next.id == job.id
      && TouchesOnly(engine, after, job.id)
      && (!Creates(job) ==> forall x :: x in after.containers ==> x in engine.containers && after.containers[x] == engine.containers[x])
      && (!Creates(job) ==> after.networks <= engine.networks)
  {
  }

  // ---------- whole jobs ----------

  ghost predicate Replies(attempts: nat, engine: Engine, job: Job, replies: seq<Reply>)
    decreases |replies|
  {
    replies == [] || (Possible(engine, job, replies[0])
                      && var (e, j) := Advance(attempts, engine, job, replies[0]); Replies(attempts, e, j, replies[1..]))
  }

  ghost function Play(attempts: nat, engine: Engine, job: Job, replies: seq<Reply>): (Engine, Job)
    requires Replies(attempts, engine, job, replies)
    decreases |replies|
  {
    if replies == [] then (engine, job)
    else var (e, j) := Advance(attempts, engine, job, replies[0]); Play(attempts, e, j, replies[1..])
  }

  /** The engine's record of a container agrees with the job that made it. */
  predicate OwnsReference(engine: Engine, job: Job) {
    match job
    case StartPending(id, c) => c in engine.containers ==> engine.containers[c] == id
    case HealthPending(id, c, _) => c in engine.containers ==> engine.containers[c] == id
    case RollbackContainer(id, r) => r.Some? && r.value in engine.containers ==> engine.containers[r.value] == id
    case CreateSucceeded(id, c) => c in engine.containers ==> engine.containers[c] == id
    case DestroyContainer(id, c) => c in engine.containers ==> engine.containers[c] == id
    case _ => true
  }

  lemma AdvanceOwns(attempts: nat, engine: Engine, job: Job, reply: Reply)
    requires Possible(engine, job, reply) && OwnsReference(engine, job)
    ensures var (after, next) := Advance(attempts, engine, job, reply); OwnsReference(after, next)
  {
  }

  /** Resources of other sessions, as the engine holds them. */
  function ElsewhereContainers(engine: Engine, id: string): map<string, string> {
    map x | x in engine.containers && engine.containers[x] != id :: engine.containers[x]
  }

  lemma ElsewhereKept(engine: Engine, after: Engine, id: string)
    requires TouchesOnly(engine, after, id)
    ensures ElsewhereContainers(after, id) == ElsewhereContainers(engine, id)
    ensures after.networks - {id} == engine.networks - {id}
  {
  }

  /** Played without interference, a job that started from a consistent engine leaves everything of other sessions alone. */
  lemma {:induction false} PlayKeeps(attempts: nat, engine: Engine, job: Job, replies: seq<Reply>)
    requires Replies(attempts, engine, job, replies)
    requires JobInvariant(engine, job) && OwnsReference(engine, job)
    ensures var (after, last) := Play(attempts, engine, job, replies);
      && JobInvariant(after, last) && last.id == job.id
      && ElsewhereContainers(after, job.id) == ElsewhereContainers(engine, job.id)
      && after.networks - {job.id} == engine.networks - {job.id}
    decreases |replies|
  {
    hide JobInvariant, OwnsReference, TouchesOnly, Advance, Possible, ElsewhereContainers;
    if replies != [] {
      OwnershipForDeletes(engine, job);
      AdvanceKeeps(attempts, engine, job, replies[0]);
      AdvanceOwns(attempts, engine, job, replies[0]);
      var (e, j) := Advance(attempts, engine, job, replies[0]);
      ElsewhereKept(engine, e, job.id);
      PlayKeeps(attempts, e, j, replies[1..]);
    }
  }

  lemma OwnershipForDeletes(engine: Engine, job: Job)
    requires OwnsReference(engine, job)
    ensures job.DestroyContainer? && job.containerId in engine.containers ==> engine.containers[job.containerId] == job.id
    ensures job.RollbackContainer? && job.reference.Some? && job.reference.value in engine.containers ==>
              engine.containers[job.reference.value] == job.id
  {
  }

  /**
   Create is a transaction: when it fails without reporting a failed rollback, the engine is exactly as it was; and
   when it succeeds, the session has its network and its one container on top of what was there.
   */
  lemma CreateIsTransactional(attempts: nat, engine: Engine, id: string, replies: seq<Reply>)
    requires Clean(engine, id) && Replies(attempts, engine, NetworkPending(id), replies)
    ensures var (after, last) := Play(attempts, engine, NetworkPending(id), replies);
      last.CreateFailed? && !last.rollbackFailed ==> after == engine
  {
    PlayKeeps(attempts, engine, NetworkPending(id), replies);
    var (after, last) := Play(attempts, engine, NetworkPending(id), replies);
    hide Play, Replies;
    if last.CreateFailed? && !last.rollbackFailed {
      assert ElsewhereContainers(engine, id) == engine.containers && ElsewhereContainers(after, id) == after.containers;
      assert engine.networks - {id} == engine.networks && after.networks - {id} == after.networks;
    }
  }

  /** A destroy that succeeds leaves nothing of its session and everything of the others. */
  lemma DestroyRemovesAll(attempts: nat, engine: Engine, id: string, containerId: string, replies: seq<Reply>)
    requires OnlyContainer(engine, id, containerId)
    requires containerId in engine.containers ==> engine.containers[containerId] == id
    requires Replies(attempts, engine, DestroyContainer(id, containerId), replies)
    ensures var (after, last) := Play(attempts, engine, DestroyContainer(id, containerId), replies);
      last.DestroyFinished? && last.succeeded ==>
        Clean(after, id) && after.containers == ElsewhereContainers(engine, id) && after.networks == engine.networks - {id}
  {
    PlayKeeps(attempts, engine, DestroyContainer(id, containerId), replies);
    var (after, last) := Play(attempts, engine, DestroyContainer(id, containerId), replies);
    hide Play, Replies;
    if last.DestroyFinished? && last.succeeded {
      assert ElsewhereContainers(after, id) == after.containers;
      assert after.networks - {id} == after.networks;
    }
  }

  // ---------- what success and failure mean ----------

  /** How far a create has come that has met no failure, after n replies: the engine it found, with what it has added. */
  ghost predicate OnCourse(attempts: nat, found: Engine, engine: Engine, job: Job, id: string, n: nat) {
    var networked := found.(networks := found.networks + {id});
    match job
    case NetworkPending(i) => i == id && engine == found && n == 0
    case ContainerPending(i) => i == id && engine == networked && n == 1
    case StartPending(i, x) => i == id && engine == networked.(containers := found.containers[x := id]) && n == 2
    case HealthPending(i, x, attempt) =>
      i == id && engine == networked.(containers := found.containers[x := id]) && n == 2 + attempt && 1 <= attempt
      && (attempt == 1 || attempt <= attempts)
    case CreateSucceeded(i, x) =>
      i == id && engine == networked.(containers := found.containers[x := id]) && 4 <= n && (n == 4 || n <= 3 + attempts)
    case _ => true
  }

  lemma OnCourseStep(attempts: nat, found: Engine, engine: Engine, job: Job, id: string, n: nat, reply: Reply)
    requires OnCourse(attempts, found, engine, job, id, n) && Possible(engine, job, reply)
    requires !job.RollbackContainer? && !job.RollbackNetwork? && !job.DestroyContainer? && !job.DestroyNetwork?
    ensures var (e, j) := Advance(attempts, engine, job, reply); OnCourse(attempts, found, e, j, id, n + 1)
    ensures Advance(attempts, engine, job, reply).1.CreateSucceeded? ==> reply == Health(Healthy, true)
  {
  }

  lemma {:induction false} SuccessFrom(attempts: nat, found: Engine, engine: Engine, job: Job, id: string, n: nat, replies: seq<Reply>)
    requires OnCourse(attempts, found, engine, job, id, n) && Replies(attempts, engine, job, replies)
    ensures var (after, last) := Play(attempts, engine, job, replies);
      last.CreateSucceeded? ==>
        OnCourse(attempts, found, after, last, id, n + |replies|)
        && (!job.CreateSucceeded? ==> replies != [] && replies[|replies| - 1] == Health(Healthy, true))
    decreases |replies|
  {
    hide OnCourse, Advance, Possible;
    if replies != [] {
      if job.RollbackContainer? || job.RollbackNetwork? || job.DestroyContainer? || job.DestroyNetwork? {
        NeverSucceeds(attempts, engine, job, replies);
      } else {
        OnCourseStep(attempts, found, engine, job, id, n, replies[0]);
        var (e, j) := Advance(attempts, engine, job, replies[0]);
        SuccessFrom(attempts, found, e, j, id, n + 1, replies[1..]);
        if j.CreateSucceeded? { StopsHere(attempts, e, j, replies[1..]); }
      }
    }
  }

  /** A finished job takes no more replies. */
  lemma StopsHere(attempts: nat, engine: Engine, job: Job, replies: seq<Reply>)
    requires Replies(attempts, engine, job, replies) && !Waiting(job)
    ensures replies == []
  {
  }

  predicate Undoing(job: Job) {
    job.RollbackContainer? || job.RollbackNetwork? || job.CreateFailed? || job.DestroyContainer? || job.DestroyNetwork? || job.DestroyFinished?
  }

  lemma UndoingStep(attempts: nat, engine: Engine, job: Job, reply: Reply)
    requires Undoing(job) && Possible(engine, job, reply)
    ensures Undoing(Advance(attempts, engine, job, reply).1)
  {
  }

  lemma {:induction false} NeverSucceeds(attempts: nat, engine: Engine, job: Job, replies: seq<Reply>)
    requires Undoing(job) && Replies(attempts, engine, job, replies)
    ensures Undoing(Play(attempts, engine, job, replies).1)
    decreases |replies|
  {
    hide Advance, Possible;
    if replies != [] {
      UndoingStep(attempts, engine, job, replies[0]);
      var (e, j) := Advance(attempts, engine, job, replies[0]);
      NeverSucceeds(attempts, e, j, replies[1..]);
    }
  }

  /**
   A create that succeeds has added its network and its container and nothing else, was told last that the container is
   healthy with its port published, and asked for that at most as often as the startup budget allows.
   */
  lemma CreateSuccessIsEarned(attempts: nat, engine: Engine, id: string, replies: seq<Reply>)
    requires 1 <= attempts && Replies(attempts, engine, NetworkPending(id), replies)
    ensures var (after, last) := Play(attempts, engine, NetworkPending(id), replies);
      last.CreateSucceeded? ==>
        && last.id == id
        && after == Engine(engine.containers[last.containerId := id], engine.networks + {id})
        && |replies| <= 3 + attempts && replies != [] && replies[|replies| - 1] == Health(Healthy, true)
  {
    SuccessFrom(attempts, engine, engine, NetworkPending(id), id, 0, replies);
  }

  /** Some answers `starting`, then `healthy` with the port published; n is the number of the first, and the budget ends the rest. */
  predicate BecomesHealthy(replies: seq<Reply>, n: nat, attempts: nat) {
    && replies != [] && replies[|replies| - 1] == Health(Healthy, true)
    && (forall i :: 0 <= i < |replies| - 1 ==> replies[i].Health? && replies[i].status == Starting)
    && (|replies| == 1 || n + |replies| - 1 <= attempts)
  }

  /** The answers are possible, and the job they are given to ends in a create that succeeded with this container. */
  ghost predicate Succeeds(attempts: nat, engine: Engine, job: Job, replies: seq<Reply>, containerId: string) {
    Replies(attempts, engine, job, replies) && Play(attempts, engine, job, replies).1 == CreateSucceeded(job.id, containerId)
  }

  /** What the first answer makes of a job that waits. */
  lemma SucceedsNext(attempts: nat, engine: Engine, job: Job, replies: seq<Reply>, c: string)
    requires Waiting(job)
    ensures Succeeds(attempts, engine, job, replies, c) <==>
              replies != [] && Possible(engine, job, replies[0])
              && var (e, j) := Advance(attempts, engine, job, replies[0]);
              j.id == job.id && Succeeds(attempts, e, j, replies[1..], c)
  {
    if replies != [] && Possible(engine, job, replies[0]) {
      assert Advance(attempts, engine, job, replies[0]).1.id == job.id;
    }
    hide Advance, Possible;
  }

  lemma UndoingFails(attempts: nat, engine: Engine, job: Job, replies: seq<Reply>, c: string)
    requires Undoing(job)
    ensures !Succeeds(attempts, engine, job, replies, c)
  {
    if Replies(attempts, engine, job, replies) { NeverSucceeds(attempts, engine, job, replies); }
  }

  lemma {:induction false} HealthyExactly(attempts: nat, engine: Engine, id: string, containerId: string, n: nat, replies: seq<Reply>, c: string)
    ensures Succeeds(attempts, engine, HealthPending(id, containerId, n), replies, c) <==>
              c == containerId && BecomesHealthy(replies, n, attempts)
    decreases |replies|
  {
    var job := HealthPending(id, containerId, n);
    SucceedsNext(attempts, engine, job, replies, c);
    hide Succeeds;
    if replies != [] && Possible(engine, job, replies[0]) {
      var (e, j) := Advance(attempts, engine, job, replies[0]);
      var rest := replies[1..];
      if j.CreateSucceeded? {
        SucceededStays(attempts, e, j, rest, c);
        if rest == [] { assert replies == [replies[0]]; } else { assert rest[0] == replies[1]; }
      } else if j.HealthPending? {
        HealthyExactly(attempts, e, id, containerId, n + 1, rest, c);
        if BecomesHealthy(replies, n, attempts) {
          assert |replies| > 1 && rest[|replies| - 2] == replies[|replies| - 1];
        }
        if BecomesHealthy(rest, n + 1, attempts) {
          assert forall i :: 0 <= i < |replies| - 1 ==> i == 0 || replies[i] == rest[i - 1];
        }
      } else {
        UndoingFails(attempts, e, j, rest, c);
      }
    }
  }

  lemma SucceededStays(attempts: nat, engine: Engine, job: Job, replies: seq<Reply>, c: string)
    requires job.CreateSucceeded?
    ensures Succeeds(attempts, engine, job, replies, c) <==> replies == [] && c == job.containerId
  {
    if Replies(attempts, engine, job, replies) { StopsHere(attempts, engine, job, replies); }
  }

  /** The answers to a create that succeeds: three acceptances, `starting` fewer times than the budget, then `healthy`. */
  predicate GoesWell(replies: seq<Reply>, containerId: string, attempts: nat) {
    && |replies| >= 4
    && replies[0] == Accepted && replies[1] == ContainerMade(containerId, true) && replies[2] == Accepted
    && (forall i :: 3 <= i < |replies| - 1 ==> replies[i].Health? && replies[i].status == Starting)
    && (|replies| == 4 || |replies| - 4 < attempts)
    && replies[|replies| - 1] == Health(Healthy, true)
  }

  /**
   A create can be answered so, and succeeds with this container, if and only if the answers are those and the container's id
   is new; in particular it asks again while the container starts.
   */
  lemma CreateSucceedsExactly(attempts: nat, engine: Engine, id: string, containerId: string, replies: seq<Reply>)
    ensures Succeeds(attempts, engine, NetworkPending(id), replies, containerId) <==>
              GoesWell(replies, containerId, attempts) && containerId !in engine.containers
  {
    SucceedsNext(attempts, engine, NetworkPending(id), replies, containerId);
    hide Succeeds;
    if replies != [] && Possible(engine, NetworkPending(id), replies[0]) {
      var (e, j) := Advance(attempts, engine, NetworkPending(id), replies[0]);
      if j.ContainerPending? {
        MadeSucceedsExactly(attempts, e, id, replies[1..], containerId);
      } else {
        UndoingFails(attempts, e, j, replies[1..], containerId);
      }
      if |replies| >= 3 {
        assert replies[1..][2..] == replies[3..];
        GoesWellParts(replies, containerId, attempts);
      }
    }
    hide BecomesHealthy;
  }

  lemma MadeSucceedsExactly(attempts: nat, engine: Engine, id: string, replies: seq<Reply>, c: string)
    ensures Succeeds(attempts, engine, ContainerPending(id), replies, c) <==>
              |replies| >= 2 && replies[0] == ContainerMade(c, true) && c !in engine.containers
              && replies[1] == Accepted && BecomesHealthy(replies[2..], 1, attempts)
  {
    SucceedsNext(attempts, engine, ContainerPending(id), replies, c);
    hide Succeeds;
    if replies != [] && Possible(engine, ContainerPending(id), replies[0]) {
      var (e, j) := Advance(attempts, engine, ContainerPending(id), replies[0]);
      if j.StartPending? {
        StartSucceedsExactly(attempts, e, id, j.containerId, replies[1..], c);
        if |replies| >= 2 { assert replies[1..][1..] == replies[2..]; }
      } else {
        UndoingFails(attempts, e, j, replies[1..], c);
      }
    }
    hide BecomesHealthy;
  }

  lemma GoesWellParts(replies: seq<Reply>, containerId: string, attempts: nat)
    requires |replies| >= 3
    ensures GoesWell(replies, containerId, attempts) <==>
              replies[0] == Accepted && replies[1] == ContainerMade(containerId, true) && replies[2] == Accepted
              && BecomesHealthy(replies[3..], 1, attempts)
  {
    var rest := replies[3..];
    assert forall i :: 3 <= i < |replies| ==> replies[i] == rest[i - 3];
    assert forall i :: 0 <= i < |rest| ==> rest[i] == replies[i + 3];
  }

  lemma StartSucceedsExactly(attempts: nat, engine: Engine, id: string, containerId: string, replies: seq<Reply>, c: string)
    ensures Succeeds(attempts, engine, StartPending(id, containerId), replies, c) <==>
              replies != [] && c == containerId && replies[0] == Accepted && BecomesHealthy(replies[1..], 1, attempts)
  {
    SucceedsNext(attempts, engine, StartPending(id, containerId), replies, c);
    hide Succeeds;
    if replies != [] && Possible(engine, StartPending(id, containerId), replies[0]) {
      var (e, j) := Advance(attempts, engine, StartPending(id, containerId), replies[0]);
      if j.HealthPending? {
        HealthyExactly(attempts, e, id, containerId, 1, replies[1..], c);
      } else {
        UndoingFails(attempts, e, j, replies[1..], c);
      }
    }
    hide BecomesHealthy;
  }

  /** A destroy makes both calls whatever the first one comes to, and succeeds if and only if neither was refused. */
  lemma DestroyTriesBoth(attempts: nat, engine: Engine, id: string, containerId: string, replies: seq<Reply>)
    requires Replies(attempts, engine, DestroyContainer(id, containerId), replies)
    requires Play(attempts, engine, DestroyContainer(id, containerId), replies).1.DestroyFinished?
    ensures |replies| == 2
    ensures Play(attempts, engine, DestroyContainer(id, containerId), replies).1.succeeded <==> replies == [Accepted, Accepted]
  {
    if |replies| >= 2 {
      var (e, j) := Advance(attempts, engine, DestroyContainer(id, containerId), replies[0]);
      var (e2, j2) := Advance(attempts, e, j, replies[1..][0]);
      StopsHere(attempts, e2, j2, replies[1..][1..]);
      assert Play(attempts, e2, j2, replies[1..][1..]) == (e2, j2);
      assert Play(attempts, e, j, replies[1..]) == (e2, j2);
      assert replies == [replies[0], replies[1]];
    }
  }

  /** A rollback tries both deletions too, and reports a failed rollback if and only if one of them was refused. */
  lemma RollbackTriesBoth(attempts: nat, engine: Engine, id: string, reference: Option<string>, replies: seq<Reply>)
    requires Replies(attempts, engine, RollbackContainer(id, reference), replies)
    requires Play(attempts, engine, RollbackContainer(id, reference), replies).1.CreateFailed?
    ensures |replies| == 2
    ensures Play(attempts, engine, RollbackContainer(id, reference), replies).1.rollbackFailed <==> Rejected in replies
  {
    if |replies| >= 2 {
      var (e, j) := Advance(attempts, engine, RollbackContainer(id, reference), replies[0]);
      var (e2, j2) := Advance(attempts, e, j, replies[1..][0]);
      StopsHere(attempts, e2, j2, replies[1..][1..]);
      assert Play(attempts, e2, j2, replies[1..][1..]) == (e2, j2);
      assert Play(attempts, e, j, replies[1..]) == (e2, j2);
      assert replies == [replies[0], replies[1]];
    }
  }
}
