/** `Database`'s queue methods: one object holding the `jobs` and `workers` tables, each
    method one transaction under the queue lock. */
module JobDb {
  import opened Prelude
  import opened Ordering
  import opened JobTable

  class Database {
    var rows: Table
    var capacity: map<WorkerId, nat>

    ghost predicate Valid() reads this {
      WellOrdered(rows)
    }

    ghost function QueueOf(w: WorkerId): seq<JobId> reads this {
      Queue(rows, w)
    }

    constructor ()
      ensures Valid() && rows == map[]
    {
      rows := map[];
      capacity := map[];
    }

    /** Appends to the worker's queue; a used id is an integrity error. */
    method InsertQueuedJob(id: JobId, job: Job) returns (ok: bool)
      requires Valid()
      modifies this`rows
      ensures Valid()
      ensures ok == (id !in old(rows))
      ensures rows == if ok then InsertQueued(old(rows), id, job) else old(rows)
      ensures ok ==> forall w {:trigger QueueOf(w)} ::
                QueueOf(w) == if w == job.worker then old(QueueOf(w)) + [id] else old(QueueOf(w))
      // the new row waits in the queue, holds nothing, and keeps what the caller asked for
      ensures ok ==> id in rows && InQueue(rows[id], job.worker) && rows[id].queueOrder >= 1
                     && rows[id].gpuIndices == [] && rows[id].startedAt == rows[id].finishedAt == 0
                     && rows[id] == job.(status := Pending, queueManaged := true, gpuIndices := [], startedAt := 0,
                                         finishedAt := 0, queueOrder := rows[id].queueOrder)
      ensures ok ==> rows[id].queueOrder == 1
                     || exists x ::
                          x in old(rows) && old(rows)[x].Live() && old(rows)[x].worker == job.worker
                          && old(rows)[x].queueManaged && rows[id].queueOrder == old(rows)[x].queueOrder + 1
    {
      if id in rows {
        return false;
      }
      forall w ensures Queue(InsertQueued(rows, id, job), w)
                    == (if w == job.worker then Queue(rows, w) + [id] else Queue(rows, w)) {
        InsertAppends(rows, id, job, w);
      }
      InsertAppends(rows, id, job, 0);
      var last := MaxOrder(rows, job.worker);
      rows := rows[id := job.(queueManaged := true, status := Pending, gpuIndices := [],
                              queueOrder := last + 1, startedAt := 0, finishedAt := 0)];
      return true;
    }

    /** Pops the head of the worker's queue, or does nothing. */
    method ClaimQueuedJob(id: JobId, gpus: seq<nat>, startedAt: int, w: WorkerId) returns (claimed: Option<Job>)
      requires Valid()
      modifies this`rows
      ensures Valid()
      ensures claimed.Some? == Claimable(old(rows), id, gpus, w)
      ensures claimed.None? ==> rows == old(rows)
      ensures claimed.Some? ==> rows == Claim(old(rows), id, gpus, startedAt) && claimed.value == rows[id]
      ensures claimed.Some? ==> old(QueueOf(w)) == [id] + QueueOf(w)
      ensures claimed.Some? ==> forall v {:trigger QueueOf(v)} :: v != w ==> QueueOf(v) == old(QueueOf(v))
      // it takes the head of a queue that asked for that many GPUs, none of which another active job holds
      ensures claimed.Some? <==> old(QueueOf(w)) != [] && old(QueueOf(w))[0] == id && id in old(rows)
                                 && old(rows)[id].gpuCount == |gpus|
                                 && !exists x, g :: Holds(old(rows), x, w) && g in gpus && g in old(rows)[x].gpuIndices
      ensures claimed.Some? ==> claimed.value.status.Starting? && claimed.value.gpuIndices == gpus
                                && claimed.value.startedAt == startedAt && claimed.value.worker == w
    {
      QueueFacts(rows, w);
      assert forall g :: g in Indices(rows, w) <==> exists x :: Holds(rows, x, w) && g in rows[x].gpuIndices;
      if !Claimable(rows, id, gpus, w) {
        return None;
      }
      forall v ensures Queue(Claim(rows, id, gpus, startedAt), v)
                    == (if v == w then Queue(rows, w)[1..] else Queue(rows, v)) {
        ClaimPops(rows, id, gpus, startedAt, w, v);
      }
      ClaimPops(rows, id, gpus, startedAt, w, w);
      rows := rows[id := rows[id].(status := Starting, gpuIndices := gpus, startedAt := startedAt)];
      return Some(rows[id]);
    }

    /** executemany("UPDATE jobs SET queue_order = ? WHERE id = ?", enumerate(ids, 1)). */
    method EnumerateOrders(ids: seq<JobId>)
      requires forall x :: x in ids ==> x in rows
      modifies this`rows
      ensures rows == Renumber(old(rows), ids)
    {
      for i := 0 to |ids|
        invariant rows == Renumber(old(rows), ids[..i])
      {
        assert ids[..i + 1][..i] == ids[..i];
        rows := rows[ids[i] := rows[ids[i]].(queueOrder := i + 1)];
      }
      assert ids[..|ids|] == ids;
    }

    /** Edits, reorders or moves one pending job. */
    method UpdatePendingJob(id: JobId, e: Edit) returns (r: Result<Job>)
      requires Valid()
      modifies this`rows
      ensures Valid()
      ensures r.Err? <==> UpdateRefusal(old(rows), capacity, id, e).Some?
      ensures r.Err? ==> Some(r.error) == UpdateRefusal(old(rows), capacity, id, e) && rows == old(rows)
      ensures r.Ok? ==> id in rows && r.value == rows[id]
      ensures r.Ok? ==> id in old(rows) && id in old(QueueOf(rows[id].worker))
                        && rows == Moved(old(rows), id, e)
      ensures r.Ok? ==> forall v {:trigger QueueOf(v)} ::
                QueueOf(v) == if v == GetOr(e.worker, old(rows[id].worker)) then PlacedQueue(old(rows), id, e)
                              else Without(old(QueueOf(v)), id)
      // the refusals
      ensures r == Err(UnknownJob) <==> id !in old(rows) || !old(rows)[id].queueManaged
      ensures r == Err(NotPending) <==>
              id in old(rows) && old(rows)[id].queueManaged && !old(rows)[id].status.Pending?
      ensures r == Err(UnknownDestination) <==>
              && id in old(rows) && old(rows)[id].queueManaged && old(rows)[id].status.Pending?
              && (if e.worker.Some? then e.worker.value !in capacity else old(rows)[id].worker !in capacity)
      ensures r == Err(TooManyGpus) ==>
                && id in old(rows)
                && var w := if e.worker.Some? then e.worker.value else old(rows)[id].worker;
                   w in capacity
                   && (if e.gpuCount.Some? then e.gpuCount.value else old(rows)[id].gpuCount) > capacity[w]
      ensures r.Ok? ==> r.value.worker in capacity && r.value.gpuCount <= capacity[r.value.worker]
      // every asked column changes, every other one but the position stays
      ensures r.Ok? ==>
                && r.value == old(rows)[id].(worker := r.value.worker, name := r.value.name,
                                             gpuCount := r.value.gpuCount, expectedSeconds := r.value.expectedSeconds,
                                             queueOrder := r.value.queueOrder)
                && (e.worker == Some(r.value.worker) || (e.worker.None? && r.value.worker == old(rows)[id].worker))
                && (e.name == Some(r.value.name) || (e.name.None? && r.value.name == old(rows)[id].name))
                && (e.gpuCount == Some(r.value.gpuCount)
                    || (e.gpuCount.None? && r.value.gpuCount == old(rows)[id].gpuCount))
                && (e.expectedSeconds == Some(r.value.expectedSeconds)
                    || (e.expectedSeconds.None? && r.value.expectedSeconds == old(rows)[id].expectedSeconds))
      // where the job stands among the other jobs of its worker, which keep their order
      ensures r.Ok? ==>
                var dst := r.value.worker;
                var before, after := old(QueueOf(dst)), QueueOf(dst);
                var others := |Without(before, id)|;
                && (e.position.Some? && e.position.value >= 1 ==>
                      PutAt(before, after, id, if e.position.value - 1 < others then e.position.value - 1 else others))
                && (e.position.None? && dst == old(rows)[id].worker ==> after == before)
                && (e.position.None? && dst != old(rows)[id].worker ==> PutAt(before, after, id, others))
    {
      hide Queue, PlacedQueue, Without, Renumber, PutAt, Landing;
      match UpdateRefusal(rows, capacity, id, e) {
        case Some(error) =>
          return Err(error);
        case None =>
      }
      UpdateAll(rows, id, e);
      EditLands(rows, id, e);
      MovedRow(rows, id, e, id);
      PlacedFacts(rows, id, e);
      QueueFacts(rows, rows[id].worker);
      QueueFacts(rows, GetOr(e.worker, rows[id].worker));
      var source := rows[id].worker;
      var sourceIds := Without(Queue(rows, source), id);
      var destinationIds := PlacedQueue(rows, id, e);
      rows := rows[id := EditRow(rows[id], e)];
      if rows[id].worker != source {
        EnumerateOrders(sourceIds);
      }
      EnumerateOrders(destinationIds);
      return Ok(rows[id]);
    }

    /** Cancels one pending job and closes the gap it leaves. */
    method FailPendingJob(id: JobId, finishedAt: int) returns (failed: Option<Job>)
      requires Valid()
      modifies this`rows
      ensures Valid()
      ensures failed.Some? <==> id in old(rows) && InQueue(old(rows[id]), old(rows[id].worker))
      ensures failed.None? ==> rows == old(rows)
      ensures failed.Some? ==> id in rows && failed.value == rows[id] && rows[id].status.Failed?
      ensures failed.Some? ==> rows == FailPending(old(rows), id, finishedAt)
      ensures failed.Some? ==> failed.value == old(rows)[id].(status := Status.Failed, exitCode := Some(-1),
                                                              finishedAt := finishedAt, queueOrder := 0)
      ensures failed.Some? ==> forall x :: x in old(rows) && x != id ==> Renumbered(old(rows), rows, x)
      ensures failed.Some? ==> forall v {:trigger QueueOf(v)} :: QueueOf(v) == Without(old(QueueOf(v)), id)
    {
      if !(id in rows && InQueue(rows[id], rows[id].worker)) {
        return None;
      }
      var w := rows[id].worker;
      forall v ensures Queue(FailPending(rows, id, finishedAt), v) == Without(Queue(rows, v), id) {
        FailRemoves(rows, id, finishedAt, v);
      }
      FailRemoves(rows, id, finishedAt, w);
      rows := rows[id := rows[id].(status := Status.Failed, exitCode := Some(-1),
                                   finishedAt := finishedAt, queueOrder := 0)];
      var pending := Queue(rows, w);
      QueueFacts(rows, w);
      ghost var cancelled := rows;
      EnumerateOrders(pending);
      RenumberReorders(cancelled, pending, w, w);
      RenumberOnlyOrder(cancelled, pending, id);
      RenumberRows(cancelled, pending);
      forall x | x in old(rows) && x != id ensures Renumbered(old(rows), rows, x) {
        RenumberOnlyOrder(cancelled, pending, x);
      }
      return Some(rows[id]);
    }

    /** A GPU is taken exactly if a starting or running queue job of the worker holds it; no claim on
        the worker succeeds with a taken one. */
    method RunningQueueGpuIndices(w: WorkerId) returns (taken: set<nat>)
      ensures forall g :: g in taken <==> exists id :: Holds(rows, id, w) && g in rows[id].gpuIndices
      ensures forall id, gpus, g :: Claimable(rows, id, gpus, w) && g in gpus ==> g !in taken
      ensures taken == Indices(rows, w)
    {
      var rest := set id | id in rows && Holds(rows, id, w);
      ghost var all := rest;
      taken := {};
      while rest != {}
        invariant rest <= all
        invariant forall g :: g in taken <==> exists id :: id in all - rest && g in rows[id].gpuIndices
        decreases rest
      {
        var id :| id in rest;
        ghost var before := taken;
        ghost var left := rest;
        taken := taken + set g | g in rows[id].gpuIndices;
        rest := rest - {id};
        forall g ensures g in taken <==> exists x :: x in all - rest && g in rows[x].gpuIndices {
          assert all - rest == (all - left) + {id};
          assert g in before <==> exists x :: x in all - left && g in rows[x].gpuIndices;
        }
      }
      assert all - rest == all;
      forall g ensures g in taken <==> g in Indices(rows, w) {
        assert g in taken <==> exists id :: id in all && g in rows[id].gpuIndices;
      }
    }

    /** Settles one launch whose outcome was lost. */
    method ReconcileStartingJob(id: JobId, observed: bool, now: int) returns (settled: Option<Job>)
      requires Valid()
      modifies this`rows
      ensures Valid()
      ensures settled.Some? <==> id in old(rows) && old(rows[id].status).Starting?
      ensures settled.None? ==> rows == old(rows)
      ensures settled.Some? ==> rows == Reconcile(old(rows), id, observed, now) && settled.value == rows[id]
      ensures settled.Some? ==> forall v {:trigger QueueOf(v)} ::
                QueueOf(v) == if !observed && old(rows[id].queueManaged) && v == old(rows[id].worker)
                              then [id] + old(QueueOf(v)) else old(QueueOf(v))
      // seen: it runs; not seen: it waits again and holds nothing, or has failed if no queue owns it
      ensures settled.Some? && observed ==> settled.value == old(rows)[id].(status := Running)
      ensures settled.Some? && !observed && old(rows)[id].queueManaged ==>
                settled.value == old(rows)[id].(status := Pending, gpuIndices := [], startedAt := 0, queueOrder := 1)
      ensures settled.Some? && !observed && !old(rows)[id].queueManaged ==>
                settled.value == old(rows)[id].(status := Status.Failed, exitCode := Some(-1), finishedAt := now)
      ensures settled.Some? ==> forall x :: x in old(rows) && x != id ==> Renumbered(old(rows), rows, x)
      // every job that waits behind a requeued one moves down by one position, and no other job moves
      ensures settled.Some? ==>
                forall x :: x in old(rows) && x != id ==>
                  rows[x].queueOrder == old(rows)[x].queueOrder
                                        + if !observed && old(rows)[id].queueManaged
                                             && InQueue(old(rows)[x], old(rows)[id].worker) then 1 else 0
    {
      if !(id in rows && rows[id].status.Starting?) {
        return None;
      }
      forall v ensures Queue(Reconcile(rows, id, observed, now), v)
                    == (if !observed && rows[id].queueManaged && v == rows[id].worker
                        then [id] + Queue(rows, v) else Queue(rows, v)) {
        ReconcileQueue(rows, id, observed, now, v);
      }
      ReconcileQueue(rows, id, observed, now, 0);
      if observed {
        rows := rows[id := rows[id].(status := Running)];
      } else if rows[id].queueManaged {
        var row := rows[id];
        rows := Shift(rows, row.worker);
        rows := rows[id := row.(status := Pending, gpuIndices := [], startedAt := 0, queueOrder := 1)];
      } else {
        rows := rows[id := rows[id].(status := Status.Failed, exitCode := Some(-1), finishedAt := now)];
      }
      return Some(rows[id]);
    }

    /** Overwrites every column of one row; an unknown id matches no row. */
    method UpdateJob(id: JobId, job: Job)
      requires Valid()
      modifies this`rows
      ensures rows == WriteBack(old(rows), id, job)
      ensures OutsideQueue(old(rows), id, job) ==>
                Valid() && forall v {:trigger QueueOf(v)} :: QueueOf(v) == old(QueueOf(v))
    {
      if OutsideQueue(rows, id, job) {
        forall v ensures Queue(WriteBack(rows, id, job), v) == Queue(rows, v) {
          WriteBackQueue(rows, id, job, v);
        }
        WriteBackQueue(rows, id, job, 0);
      }
      if id in rows {
        rows := rows[id := job];
      }
    }
  }
}
