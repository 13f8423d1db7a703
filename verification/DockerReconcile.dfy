/**
 reconcile of src/runtime/docker-engine-runtime.ts: at start-up the orchestrator deletes every container and network that
 carries the labels of its own instance, and nothing else.
 */
module DockerReconcile {
  import opened Wrappers

  type Labels = map<string, string>

  const MANAGED_LABEL := "dev.fireball.managed"
  const INSTANCE_LABEL := "dev.fireball.instance"

  /** A row of a listing: any JSON value. `id` is None when it is missing or not a string. */
  datatype Row = Malformed | Summary(id: Option<string>, labels: Labels)

  predicate SafeIdChar(c: char) {
    'A' <= c <= 'Z' || 'a' <= c <= 'z' || '0' <= c <= '9' || c == '_' || c == '.' || c == ':' || c == '-'
  }

  predicate SafeId(id: string) {
    1 <= |id| <= 128 && forall i :: 0 <= i < |id| ==> SafeIdChar(id[i])
  }

  predicate OwnLabels(labels: Labels, instanceId: string) {
    && MANAGED_LABEL in labels && labels[MANAGED_LABEL] == "true"
    && INSTANCE_LABEL in labels && labels[INSTANCE_LABEL] == instanceId
  }

  function ManagedResourceId(row: Row, instanceId: string): Option<string> {
    if row.Malformed? || !OwnLabels(row.labels, instanceId) || row.id.None? || !SafeId(row.id.value) then None
    else row.id
  }

  /** The resources of one kind in the engine, by id. */
  type Inventory = map<string, Labels>

  /** The ones reconcile is meant to remove. */
  function Managed(resources: Inventory, instanceId: string): set<string> {
    set id | id in resources && OwnLabels(resources[id], instanceId) && SafeId(id)
  }

  /** An id as the engine gives it: 64 lower-case hexadecimal digits. */
  predicate EngineId(id: string) {
    |id| == 64 && forall i :: 0 <= i < 64 ==> '0' <= id[i] <= '9' || 'a' <= id[i] <= 'f'
  }

  /** Nothing with an engine's id carries this instance's two labels. */
  predicate NothingLabelled(resources: Inventory, instanceId: string) {
    forall id :: id in resources && EngineId(id) ==>
      !("dev.fireball.managed" in resources[id] && resources[id]["dev.fireball.managed"] == "true"
        && "dev.fireball.instance" in resources[id] && resources[id]["dev.fireball.instance"] == instanceId)
  }

  /** What reconcile is meant to remove, in full: the two labels, and an id of 1 to 128 harmless characters. */
  lemma ManagedExactly(resources: Inventory, instanceId: string, id: string)
    ensures id in Managed(resources, instanceId) <==>
              && id in resources
              && "dev.fireball.managed" in resources[id] && resources[id]["dev.fireball.managed"] == "true"
              && "dev.fireball.instance" in resources[id] && resources[id]["dev.fireball.instance"] == instanceId
              && 0 < |id| < 129
              && (forall i :: 0 <= i < |id| ==>
                    'A' <= id[i] <= 'Z' || 'a' <= id[i] <= 'z' || '0' <= id[i] <= '9' || id[i] in ['_', '.', ':', '-'])
  {
    forall c: char ensures c in ['_', '.', ':', '-'] <==> c == '_' || c == '.' || c == ':' || c == '-' {
      var marks := ['_', '.', ':', '-'];
      assert marks[0] == '_' && marks[1] == '.' && marks[2] == ':' && marks[3] == '-';
      if c == '_' { assert marks[0] == c; }
      if c == '.' { assert marks[1] == c; }
      if c == ':' { assert marks[2] == c; }
      if c == '-' { assert marks[3] == c; }
    }
  }

  lemma NoneManaged(resources: Inventory, instanceId: string)
    ensures Managed(resources, instanceId) == {} ==> NothingLabelled(resources, instanceId)
  {
    if Managed(resources, instanceId) == {} {
      forall id | id in resources && EngineId(id)
        ensures !("dev.fireball.managed" in resources[id] && resources[id]["dev.fireball.managed"] == "true"
                  && "dev.fireball.instance" in resources[id] && resources[id]["dev.fireball.instance"] == instanceId)
      {
        assert id !in Managed(resources, instanceId);
      }
    }
  }

  /** A truthful listing names every managed resource once. What else it holds does not matter: the rows are filtered again. */
  ghost predicate Lists(rows: seq<Row>, resources: Inventory, instanceId: string) {
    && (forall i :: 0 <= i < |rows| && ManagedResourceId(rows[i], instanceId).Some? ==>
          ManagedResourceId(rows[i], instanceId).value in Managed(resources, instanceId))
    && (forall id :: id in Managed(resources, instanceId) ==> Named(rows, instanceId, id, 0))
    && (forall i, j :: 0 <= i < j < |rows| && ManagedResourceId(rows[i], instanceId).Some? ==>
          ManagedResourceId(rows[i], instanceId) != ManagedResourceId(rows[j], instanceId))
  }

  ghost predicate Named(rows: seq<Row>, instanceId: string, id: string, from: nat) {
    exists i :: from <= i < |rows| && ManagedResourceId(rows[i], instanceId) == Some(id)
  }

  /** Everything that is not this instance's is as before. */
  ghost predicate OthersKept(before: Inventory, after: Inventory, instanceId: string) {
    && (forall id :: id in after ==> id in before && after[id] == before[id])
    && (forall id :: id in before && id !in Managed(before, instanceId) ==> id in after)
  }

  datatype ReconcileError = InvalidList | RuntimeFailure(failures: nat)

  class Reconciler {
    const instanceId: string
    var containers: Inventory
    var networks: Inventory

    constructor (instanceId: string, containers: Inventory, networks: Inventory)
      ensures this.instanceId == instanceId && this.containers == containers && this.networks == networks
    {
      this.instanceId := instanceId;
      this.containers := containers;
      this.networks := networks;
    }

    /** DELETE: accepted, also for a resource that is already gone, or rejected without effect. */
    method DeleteContainer(id: string) returns (accepted: bool)
      modifies this`containers
      ensures containers == if accepted then old(containers) - {id} else old(containers)
    {
      accepted := *;
      if accepted {
        containers := containers - {id};
      }
    }

    method DeleteNetwork(id: string) returns (accepted: bool)
      modifies this`networks
      ensures networks == if accepted then old(networks) - {id} else old(networks)
    {
      accepted := *;
      if accepted {
        networks := networks - {id};
      }
    }

    /** The first loop. Afterwards the managed containers left are exactly the refused ones. */
    method ReconcileContainers(rows: seq<Row>) returns (removed: nat, failures: nat)
      requires Lists(rows, containers, instanceId)
      modifies this`containers
      ensures OthersKept(old(containers), containers, instanceId)
      ensures failures == |Managed(containers, instanceId)|
      ensures removed == |Managed(old(containers), instanceId)| - failures
    {
      removed, failures := 0, 0;
      ghost var was := containers;
      ghost var done: set<string>, refused: set<string> := {}, {};
      var i := 0;
      assert Progress(was, containers, instanceId, rows, 0, done, refused);
      while i < |rows|
        invariant 0 <= i <= |rows|
        invariant Progress(was, containers, instanceId, rows, i, done, refused)
        invariant removed == |done| && failures == |refused|
      {
        hide Progress, Lists, Managed;
        var id := ManagedResourceId(rows[i], instanceId);
        if id.None? {
          SkipRow(was, containers, instanceId, rows, i, done, refused);
        } else {
          RowIsNext(was, containers, instanceId, rows, i, done, refused);
          label before:
          var accepted := DeleteContainer(id.value);
          if accepted {
            removed := removed + 1;
            DeletedRow(was, old@before(containers), instanceId, rows, i, done, refused);
            done := done + {id.value};
          } else {
            failures := failures + 1;
            RefusedRow(was, containers, instanceId, rows, i, done, refused);
            refused := refused + {id.value};
          }
        }
        i := i + 1;
      }
      AllRows(was, containers, instanceId, rows, done, refused);
    }

    /** The second loop. */
    method ReconcileNetworks(rows: seq<Row>) returns (removed: nat, failures: nat)
      requires Lists(rows, networks, instanceId)
      modifies this`networks
      ensures OthersKept(old(networks), networks, instanceId)
      ensures failures == |Managed(networks, instanceId)|
      ensures removed == |Managed(old(networks), instanceId)| - failures
    {
      removed, failures := 0, 0;
      ghost var was := networks;
      ghost var done: set<string>, refused: set<string> := {}, {};
      var i := 0;
      assert Progress(was, networks, instanceId, rows, 0, done, refused);
      while i < |rows|
        invariant 0 <= i <= |rows|
        invariant Progress(was, networks, instanceId, rows, i, done, refused)
        invariant removed == |done| && failures == |refused|
      {
        hide Progress, Lists, Managed;
        var id := ManagedResourceId(rows[i], instanceId);
        if id.None? {
          SkipRow(was, networks, instanceId, rows, i, done, refused);
        } else {
          RowIsNext(was, networks, instanceId, rows, i, done, refused);
          label before:
          var accepted := DeleteNetwork(id.value);
          if accepted {
            removed := removed + 1;
            DeletedRow(was, old@before(networks), instanceId, rows, i, done, refused);
            done := done + {id.value};
          } else {
            failures := failures + 1;
            RefusedRow(was, networks, instanceId, rows, i, done, refused);
            refused := refused + {id.value};
          }
        }
        i := i + 1;
      }
      AllRows(was, networks, instanceId, rows, done, refused);
    }

    /**
     reconcile: nothing of anyone else is touched; the reported counts are the numbers of resources that went; a reported
     failure counts the managed resources that are still there; success leaves none. `None` is a list call that failed.
     */
    method Reconcile(containerRows: Option<seq<Row>>, networkRows: Option<seq<Row>>)
      returns (result: Result<(nat, nat), ReconcileError>)
      requires containerRows.Some? ==> Lists(containerRows.value, containers, instanceId)
      requires networkRows.Some? ==> Lists(networkRows.value, networks, instanceId)
      modifies this`containers, this`networks
      ensures OthersKept(old(containers), containers, instanceId) && OthersKept(old(networks), networks, instanceId)
      ensures result.Success? ==> Managed(containers, instanceId) == {} && Managed(networks, instanceId) == {}
      ensures result.Success? ==> NothingLabelled(containers, instanceId) && NothingLabelled(networks, instanceId)
      ensures result.Success? ==> result.value == (|Managed(old(containers), instanceId)|, |Managed(old(networks), instanceId)|)
      ensures result.Failure? && result.error.RuntimeFailure? ==>
                0 < result.error.failures == |Managed(containers, instanceId)| + |Managed(networks, instanceId)|
      ensures result.Failure? && result.error.InvalidList? <==> containerRows.None? || networkRows.None?
      ensures containerRows.None? ==> containers == old(containers) && networks == old(networks)
    {
      if containerRows.None? {
        return Failure(InvalidList);
      }
      var containersRemoved, containerFailures := ReconcileContainers(containerRows.value);
      if networkRows.None? {
        return Failure(InvalidList);
      }
      var networksRemoved, networkFailures := ReconcileNetworks(networkRows.value);
      if containerFailures + networkFailures > 0 {
        return Failure(RuntimeFailure(containerFailures + networkFailures));
      }
      NoneManaged(containers, instanceId);
      NoneManaged(networks, instanceId);
      hide NothingLabelled;
      return Success((containersRemoved, networksRemoved));
    }
  }

  /** After the first i rows: `done` is deleted, `refused` and the ids still to come are not. */
  ghost predicate Progress(was: Inventory, now: Inventory, instanceId: string, rows: seq<Row>, i: nat, done: set<string>, refused: set<string>) {
    && i <= |rows|
    && Lists(rows, was, instanceId)
    && now == was - done
    && done !! refused
    && done + refused <= Managed(was, instanceId)
    && (forall id :: id in Managed(was, instanceId) && id !in done && id !in refused ==> Named(rows, instanceId, id, i))
    && (forall j :: i <= j < |rows| && ManagedResourceId(rows[j], instanceId).Some? ==>
          ManagedResourceId(rows[j], instanceId).value !in done + refused)
  }

  lemma SkipRow(was: Inventory, now: Inventory, instanceId: string, rows: seq<Row>, i: nat, done: set<string>, refused: set<string>)
    requires Progress(was, now, instanceId, rows, i, done, refused) && i < |rows|
    requires ManagedResourceId(rows[i], instanceId).None?
    ensures Progress(was, now, instanceId, rows, i + 1, done, refused)
  {
    hide ManagedResourceId, Lists, Managed;
  }

  lemma RowIsNext(was: Inventory, now: Inventory, instanceId: string, rows: seq<Row>, i: nat, done: set<string>, refused: set<string>)
    requires Progress(was, now, instanceId, rows, i, done, refused) && i < |rows|
    requires ManagedResourceId(rows[i], instanceId).Some?
    ensures ManagedResourceId(rows[i], instanceId).value !in done && ManagedResourceId(rows[i], instanceId).value !in refused
  {
    hide ManagedResourceId, Lists, Managed;
  }

  lemma DeletedRow(was: Inventory, now: Inventory, instanceId: string, rows: seq<Row>, i: nat, done: set<string>, refused: set<string>)
    requires Progress(was, now, instanceId, rows, i, done, refused) && i < |rows|
    requires ManagedResourceId(rows[i], instanceId).Some?
    ensures var id := ManagedResourceId(rows[i], instanceId).value;
      Progress(was, now - {id}, instanceId, rows, i + 1, done + {id}, refused)
  {
    hide ManagedResourceId, Managed;
  }

  lemma RefusedRow(was: Inventory, now: Inventory, instanceId: string, rows: seq<Row>, i: nat, done: set<string>, refused: set<string>)
    requires Progress(was, now, instanceId, rows, i, done, refused) && i < |rows|
    requires ManagedResourceId(rows[i], instanceId).Some?
    ensures var id := ManagedResourceId(rows[i], instanceId).value;
      Progress(was, now, instanceId, rows, i + 1, done, refused + {id})
  {
    hide ManagedResourceId, Managed;
  }

  lemma AllRows(was: Inventory, now: Inventory, instanceId: string, rows: seq<Row>, done: set<string>, refused: set<string>)
    requires Progress(was, now, instanceId, rows, |rows|, done, refused)
    ensures OthersKept(was, now, instanceId)
    ensures |refused| == |Managed(now, instanceId)|
    ensures |done| == |Managed(was, instanceId)| - |refused|
  {
    hide ManagedResourceId, Lists, OwnLabels, SafeId;
    assert Managed(was, instanceId) == done + refused;
    assert Managed(now, instanceId) == refused;
  }

  /** Two orchestrators with different instance ids never remove each other's resources. */
  lemma InstancesApart(resources: Inventory, mine: string, other: string)
    requires mine != other
    ensures Managed(resources, mine) !! Managed(resources, other)
    ensures forall after: Inventory :: OthersKept(resources, after, mine) ==> Managed(after, other) == Managed(resources, other)
  {
    hide SafeId;
  }
}
