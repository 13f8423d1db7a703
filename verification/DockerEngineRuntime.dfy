/**
 The methods of src/runtime/docker-engine-runtime.ts as they run: create with its rollback flags, waitForHealthy with its
 retry loop, and destroy. Each returns the replies it got, and is proved to play the job of DockerLifecycle on them.
 */
module DockerEngineRuntime {
  import opened Wrappers
  import opened DockerLifecycle

  lemma {:induction false} PlayOne(attempts: nat, engine: Engine, job: Job, replies: seq<Reply>, reply: Reply)
    requires Replies(attempts, engine, job, replies)
    requires var (e, j) := Play(attempts, engine, job, replies); Possible(e, j, reply)
    ensures Replies(attempts, engine, job, replies + [reply])
    ensures Play(attempts, engine, job, replies + [reply]) ==
              var (e, j) := Play(attempts, engine, job, replies); Advance(attempts, e, j, reply)
    decreases |replies|
  {
    hide Possible, Advance;
    var all := replies + [reply];
    if replies == [] {
      assert all[1..] == [];
    } else {
      var (e, j) := Advance(attempts, engine, job, replies[0]);
      PlayOne(attempts, e, j, replies[1..], reply);
      assert all[0] == replies[0] && all[1..] == replies[1..] + [reply];
    }
  }

  /** The replies so far have brought the job and the engine here. */
  ghost predicate Reached(attempts: nat, from: Engine, first: Job, replies: seq<Reply>, engine: Engine, job: Job) {
    Replies(attempts, from, first, replies) && Play(attempts, from, first, replies) == (engine, job)
  }

  lemma ReachedOne(attempts: nat, from: Engine, first: Job, replies: seq<Reply>, engine: Engine, job: Job, reply: Reply)
    requires Reached(attempts, from, first, replies, engine, job) && Possible(engine, job, reply)
    ensures var (e, j) := Advance(attempts, engine, job, reply); Reached(attempts, from, first, replies + [reply], e, j)
  {
    hide Possible, Advance;
    PlayOne(attempts, from, first, replies, reply);
  }

  datatype CreateFailure = RuntimeFailure(rollbackFailed: bool)

  /** What the job of a create comes to, for what create returns or throws. */
  ghost function CreateEnd(id: string, result: Result<string, CreateFailure>): Job {
    match result
    case Success(containerId) => CreateSucceeded(id, containerId)
    case Failure(failure) => CreateFailed(id, failure.rollbackFailed)
  }

  class DockerEngineRuntime {
    const startupHealthAttempts: nat
    var engine: Engine

    constructor (startupHealthAttempts: nat, engine: Engine)
      ensures this.startupHealthAttempts == startupHealthAttempts && this.engine == engine
    {
      this.startupHealthAttempts := startupHealthAttempts;
      this.engine := engine;
    }

    /** One engine call: any possible reply, with its effect. */
    method Call(job: Job, ghost from: Engine, ghost first: Job, ghost replies: seq<Reply>) returns (reply: Reply)
      requires Reached(startupHealthAttempts, from, first, replies, engine, job) && Waiting(job)
      modifies this`engine
      ensures Possible(old(engine), job, reply)
      ensures engine == Advance(startupHealthAttempts, old(engine), job, reply).0
      ensures Reached(startupHealthAttempts, from, first, replies + [reply], engine,
                      Advance(startupHealthAttempts, old(engine), job, reply).1)
    {
      reply := *;
      if !Possible(engine, job, reply) {
        reply := Rejected;
      }
      ReachedOne(startupHealthAttempts, from, first, replies, engine, job, reply);
      engine := Advance(startupHealthAttempts, engine, job, reply).0;
    }

    /** Polls until healthy; throws on any other answer, and when the attempts are used up. */
    method WaitForHealthy(id: string, containerId: string, ghost from: Engine, ghost first: Job, ghost before: seq<Reply>)
      returns (healthy: bool, portPublished: bool, ghost replies: seq<Reply>)
      requires startupHealthAttempts > 0
      requires Reached(startupHealthAttempts, from, first, before, engine, HealthPending(id, containerId, 1))
      modifies this`engine
      ensures engine == old(engine)
      ensures Reached(startupHealthAttempts, from, first, replies, engine,
                      if healthy && portPublished then CreateSucceeded(id, containerId) else RollbackContainer(id, Some(containerId)))
    {
      hide Reached;
      var attempt := 1;
      replies := before;
      healthy, portPublished := false, false;
      while attempt <= startupHealthAttempts
        invariant 1 <= attempt <= startupHealthAttempts + 1
        invariant engine == old(engine) && !healthy
        invariant Reached(startupHealthAttempts, from, first, replies, engine,
                          if attempt <= startupHealthAttempts then HealthPending(id, containerId, attempt)
                          else RollbackContainer(id, Some(containerId)))
      {
        var reply := Call(HealthPending(id, containerId, attempt), from, first, replies);
        replies := replies + [reply];
        if reply.Rejected? {
          return;
        }
        if reply.status == Healthy {
          healthy, portPublished := true, reply.portPublished;
          return;
        }
        if reply.status != Starting {
          return;
        }
        attempt := attempt + 1;
      }
    }

    /** create: a failure undoes whatever the flags say was made. */
    method Create(id: string) returns (result: Result<string, CreateFailure>, ghost replies: seq<Reply>)
      requires startupHealthAttempts > 0
      modifies this`engine
      ensures Reached(startupHealthAttempts, old(engine), NetworkPending(id), replies, engine, CreateEnd(id, result))
      ensures old(Clean(engine, id)) && result.Failure? && !result.error.rollbackFailed ==> engine == old(engine)
      ensures old(Clean(engine, id)) && result.Success? ==> OnlyContainer(engine, id, result.value)
      ensures old(Clean(engine, id)) ==> ElsewhereContainers(engine, id) == old(ElsewhereContainers(engine, id))
    {
      hide Reached, Clean, OnlyContainer, ElsewhereContainers, WithoutContainer, WithoutNetwork;
      ghost var from, first := engine, NetworkPending(id);
      replies := [];
      assert Reached(startupHealthAttempts, from, first, replies, engine, first) by { StartsHere(startupHealthAttempts, engine, first); }
      var networkCreated, containerCreated := false, false;
      var containerId: Option<string> := None;

      var reply := Call(NetworkPending(id), from, first, replies);
      replies := replies + [reply];
      if reply.Rejected? {
        result := Failure(RuntimeFailure(false));
        CreateMeans(startupHealthAttempts, from, id, replies, engine, result);
        return;
      }
      networkCreated := true;

      reply := Call(ContainerPending(id), from, first, replies);
      replies := replies + [reply];
      if !reply.Rejected? {
        containerCreated := true;
        if reply.reported {
          containerId := Some(reply.containerId);
          reply := Call(StartPending(id, containerId.value), from, first, replies);
          replies := replies + [reply];
          if !reply.Rejected? {
            var healthy, portPublished;
            healthy, portPublished, replies := WaitForHealthy(id, containerId.value, from, first, replies);
            if healthy && portPublished {
              result := Success(containerId.value);
              CreateMeans(startupHealthAttempts, from, id, replies, engine, result);
              return;
            }
          }
        }
      }

      var rollbackFailures := 0;
      if containerCreated {
        reply := Call(RollbackContainer(id, containerId), from, first, replies);
        replies := replies + [reply];
        if reply.Rejected? {
          rollbackFailures := rollbackFailures + 1;
        }
      }
      if networkCreated {
        reply := Call(RollbackNetwork(id, rollbackFailures), from, first, replies);
        replies := replies + [reply];
        if reply.Rejected? {
          rollbackFailures := rollbackFailures + 1;
        }
      }
      result := Failure(RuntimeFailure(rollbackFailures > 0));
      CreateMeans(startupHealthAttempts, from, id, replies, engine, result);
    }

    /** destroy: the network is deleted even when the container was not, and both refusals are reported. */
    method Destroy(id: string, containerId: string) returns (succeeded: bool, ghost replies: seq<Reply>)
      modifies this`engine
      ensures Reached(startupHealthAttempts, old(engine), DestroyContainer(id, containerId), replies, engine, DestroyFinished(id, succeeded))
      ensures old(OnlyContainer(engine, id, containerId) && (containerId in engine.containers ==> engine.containers[containerId] == id))
              && succeeded ==>
                && Clean(engine, id) && engine.containers == old(ElsewhereContainers(engine, id))
                && engine.networks == old(engine.networks) - {id}
    {
      hide Reached, Clean, OnlyContainer, ElsewhereContainers, WithoutContainer, WithoutNetwork;
      ghost var from, first := engine, DestroyContainer(id, containerId);
      replies := [];
      assert Reached(startupHealthAttempts, from, first, replies, engine, first) by { StartsHere(startupHealthAttempts, engine, first); }
      var failures := 0;
      var reply := Call(DestroyContainer(id, containerId), from, first, replies);
      replies := replies + [reply];
      if reply.Rejected? {
        failures := failures + 1;
      }
      reply := Call(DestroyNetwork(id, containerId, failures), from, first, replies);
      replies := replies + [reply];
      if reply.Rejected? {
        failures := failures + 1;
      }
      succeeded := failures == 0;
      DestroyMeans(startupHealthAttempts, from, id, containerId, replies, engine, succeeded);
    }
  }

  lemma StartsHere(attempts: nat, engine: Engine, job: Job)
    ensures Reached(attempts, engine, job, [], engine, job)
  {
  }

  lemma CreateMeans(attempts: nat, from: Engine, id: string, replies: seq<Reply>, engine: Engine, result: Result<string, CreateFailure>)
    requires Reached(attempts, from, NetworkPending(id), replies, engine, CreateEnd(id, result))
    ensures Clean(from, id) && result.Failure? && !result.error.rollbackFailed ==> engine == from
    ensures Clean(from, id) && result.Success? ==> OnlyContainer(engine, id, result.value)
    ensures Clean(from, id) ==> ElsewhereContainers(engine, id) == ElsewhereContainers(from, id)
  {
    hide Replies, Play, Clean, ElsewhereContainers, OnlyContainer;
    if Clean(from, id) {
      CreateIsTransactional(attempts, from, id, replies);
      PlayKeeps(attempts, from, NetworkPending(id), replies);
    }
  }

  lemma DestroyMeans(attempts: nat, from: Engine, id: string, containerId: string, replies: seq<Reply>, engine: Engine, succeeded: bool)
    requires Reached(attempts, from, DestroyContainer(id, containerId), replies, engine, DestroyFinished(id, succeeded))
    ensures OnlyContainer(from, id, containerId) && (containerId in from.containers ==> from.containers[containerId] == id) && succeeded ==>
              && Clean(engine, id) && engine.containers == ElsewhereContainers(from, id) && engine.networks == from.networks - {id}
  {
    hide Replies, Play, Clean, ElsewhereContainers, OnlyContainer;
    if OnlyContainer(from, id, containerId) && (containerId in from.containers ==> from.containers[containerId] == id) {
      DestroyRemovesAll(attempts, from, id, containerId, replies);
    }
  }
}
