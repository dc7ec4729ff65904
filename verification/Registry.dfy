/** The peer registry: the workers, their status and their layer assignments. */
module Registry {
  import opened Core
  import opened PipelineLayout
  import opened LayerScheduler
  import opened Sorting

  datatype Status = Connected | Ready | Draining | Pending | Dead

  datatype Entry = Entry(caps: Capabilities, assignment: Option<Assignment>, status: Status, freeBlocks: nat) {
    /** Part of the pipeline. */
    predicate Serving() { status == Ready && assignment.Some? }
  }

  type Workers = map<NodeId, Entry>

  /** Entries are filed under their own id, and a ready worker has an assignment. */
  ghost predicate WellFiled(workers: Workers) {
    forall id :: id in workers ==>
      workers[id].caps.nodeId == id && (workers[id].status == Ready ==> workers[id].assignment.Some?)
  }

  /** The sort key: the first layer. */
  function StartKey(workers: Workers): NodeId -> int {
    id => if id in workers && workers[id].assignment.Some? then workers[id].assignment.value.start else 0
  }

  /** Each serving worker once. */
  ghost predicate ServingOnce(workers: Workers, order: seq<NodeId>) {
    Distinct(order) && forall id :: id in order <==> id in workers && workers[id].Serving()
  }

  /** Each serving worker once, sorted by the first layer. */
  ghost predicate InOrder(workers: Workers, order: seq<NodeId>) {
    ServingOnce(workers, order) && SortedBy(order, StartKey(workers))
  }

  /** The workers that are not dead, each once, in no particular order. */
  ghost predicate Alive(workers: Workers, caps: seq<Capabilities>) {
    (forall i :: 0 <= i < |caps| ==>
      caps[i].nodeId in workers && workers[caps[i].nodeId].status != Dead && workers[caps[i].nodeId].caps == caps[i]) &&
    (forall id :: id in workers && workers[id].status != Dead ==>
       exists i :: 0 <= i < |caps| && caps[i].nodeId == id) &&
    (forall i, j :: 0 <= i < j < |caps| ==> caps[i].nodeId != caps[j].nodeId)
  }

  class PeerRegistry {
    var workers: Workers

    ghost predicate Valid()
      reads this
    {
      WellFiled(workers)
    }

    constructor ()
      ensures Valid() && workers == map[]
    {
      workers := map[];
    }

    /** A worker may register again only when it is dead. */
    method Register(caps: Capabilities) returns (r: Result<()>)
      requires Valid()
      modifies this
      ensures Valid()
      ensures r.Ok? <==> caps.nodeId in old(workers) ==> old(workers)[caps.nodeId].status == Dead
      ensures r.Ok? ==> workers == old(workers)[caps.nodeId := Entry(caps, None, Connected, 0)]
      ensures r.Err? ==> workers == old(workers) && r.error == Protocol
    {
      if caps.nodeId in workers && workers[caps.nodeId].status != Dead { return Err(Protocol); }
      workers := workers[caps.nodeId := Entry(caps, None, Connected, 0)];
      r := Ok(());
    }

    /** Give a worker its layers and make it ready; the dead are refused. */
    method Assign(id: NodeId, a: Assignment) returns (r: Result<()>)
      requires Valid()
      modifies this
      ensures Valid()
      ensures r.Ok? <==> id in old(workers) && old(workers)[id].status != Dead
      ensures r.Ok? ==> workers == old(workers)[id := old(workers)[id].(assignment := Some(a), status := Ready)]
      ensures r.Err? ==> workers == old(workers) && r.error == Protocol
    {
      if id !in workers || workers[id].status == Dead { return Err(Protocol); }
      workers := workers[id := workers[id].(assignment := Some(a), status := Ready)];
      r := Ok(());
    }

    method MarkDead(id: NodeId)
      requires Valid()
      modifies this
      ensures Valid()
      ensures workers == if id in old(workers) then old(workers)[id := old(workers)[id].(status := Dead)]
        else old(workers)
    {
      if id in workers { workers := workers[id := workers[id].(status := Dead)]; }
    }

    /** Only a ready worker can drain. */
    method MarkDraining(id: NodeId)
      requires Valid()
      modifies this
      ensures Valid()
      ensures workers == if id in old(workers) && old(workers)[id].status == Ready
                         then old(workers)[id := old(workers)[id].(status := Draining)] else old(workers)
    {
      if id in workers && workers[id].status == Ready { workers := workers[id := workers[id].(status := Draining)]; }
    }

    method RecordHeartbeat(id: NodeId, freeBlocks: nat)
      requires Valid()
      modifies this
      ensures Valid()
      ensures workers == if id in old(workers) then old(workers)[id := old(workers)[id].(freeBlocks := freeBlocks)]
        else old(workers)
    {
      if id in workers { workers := workers[id := workers[id].(freeBlocks := freeBlocks)]; }
    }

    /** The fewest free blocks of a serving worker, 0 when none serves. */
    method MinFreeBlocks() returns (n: nat)
      ensures (forall id :: id in workers ==> !workers[id].Serving()) ==> n == 0
      ensures forall id :: id in workers && workers[id].Serving() ==> n <= workers[id].freeBlocks
      ensures (exists id :: id in workers && workers[id].Serving()) ==>
        exists id :: id in workers && workers[id].Serving() && workers[id].freeBlocks == n
    {
      var least: Option<nat> := None;
      var rest := workers.Keys;
      while rest != {}
        invariant rest <= workers.Keys
        invariant least.None? ==> forall id :: id in workers.Keys - rest ==> !workers[id].Serving()
        invariant least.Some? ==>
          exists id :: id in workers && workers[id].Serving() && workers[id].freeBlocks == least.value
        invariant least.Some? ==>
          forall id :: id in workers.Keys - rest && workers[id].Serving() ==> least.value <= workers[id].freeBlocks
        decreases |rest|
      {
        var id :| id in rest;
        rest := rest - {id};
        if workers[id].Serving() && (least.None? || workers[id].freeBlocks < least.value) {
          least := Some(workers[id].freeBlocks);
        }
      }
      n := if least.Some? then least.value else 0;
    }

    /** `all_capabilities`, in whatever order the map is walked. */
    method AllCapabilities() returns (caps: seq<Capabilities>)
      requires Valid()
      ensures Alive(workers, caps)
    {
      caps := [];
      var rest := workers.Keys;
      while rest != {}
        invariant rest <= workers.Keys
        invariant forall i :: 0 <= i < |caps| ==>
          caps[i].nodeId in workers.Keys - rest && workers[caps[i].nodeId].status != Dead &&
          workers[caps[i].nodeId].caps == caps[i]
        invariant forall id :: id in workers.Keys - rest && workers[id].status != Dead ==>
          exists i :: 0 <= i < |caps| && caps[i].nodeId == id
        invariant forall i, j :: 0 <= i < j < |caps| ==> caps[i].nodeId != caps[j].nodeId
        decreases |rest|
      {
        var id :| id in rest;
        rest := rest - {id};
        if workers[id].status != Dead {
          ghost var before := caps;
          caps := caps + [workers[id].caps];
          assert caps[|before|].nodeId == id;
          assert forall i :: 0 <= i < |before| ==> caps[i] == before[i];
        }
      }
    }

    /** `pipeline_order`: the serving workers sorted by first layer. */
    method PipelineOrder() returns (order: seq<NodeId>)
      ensures InOrder(workers, order)
    {
      var ready: seq<NodeId> := [];
      var rest := workers.Keys;
      while rest != {}
        invariant rest <= workers.Keys && Distinct(ready)
        invariant forall id :: id in ready <==> id in workers.Keys - rest && workers[id].Serving()
        decreases |rest|
      {
        var id :| id in rest;
        rest := rest - {id};
        if workers[id].Serving() { ready := ready + [id]; }
      }
      order := SortByKey(ready, StartKey(workers));
    }
  }
}
