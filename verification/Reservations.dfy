/** Exclusive GPU reservations held by the active rows of the `jobs` table. */
module Reservations {
  import opened Prelude
  import opened JobTable

  /** The reservation of one row is well formed: exactly the requested number of distinct GPUs
      while active, none while pending. */
  ghost predicate RowOk(job: Job) {
    job.queueManaged ==>
      && (job.Active() ==> |job.gpuIndices| == job.gpuCount && Distinct(job.gpuIndices))
      && (job.status.Pending? ==> job.gpuIndices == [])
  }

  ghost predicate Apart(t: Table, x: JobId, y: JobId)
    requires x in t && y in t
  {
    forall g :: g in t[x].gpuIndices ==> g !in t[y].gpuIndices
  }

  /** Active queue jobs of one worker never share a GPU. */
  ghost predicate Exclusive(t: Table) {
    && (forall id :: id in t ==> RowOk(t[id]))
    && (forall x, y, w :: Holds(t, x, w) && Holds(t, y, w) && x != y ==> Apart(t, x, y))
  }

  lemma ClaimKeepsExclusive(t: Table, id: JobId, gpus: seq<nat>, startedAt: int, w: WorkerId)
    requires Exclusive(t) && Claimable(t, id, gpus, w) && Distinct(gpus)
    ensures Exclusive(Claim(t, id, gpus, startedAt))
  {
    var t' := Claim(t, id, gpus, startedAt);
    forall x, y, v | Holds(t', x, v) && Holds(t', y, v) && x != y ensures Apart(t', x, y) {
      assert x != id ==> Holds(t, x, v);
      assert y != id ==> Holds(t, y, v);
    }
  }

  /** Replacing a row by one that holds no more than it did keeps every reservation exclusive. */
  lemma SettleKeepsExclusive(t: Table, id: JobId, job: Job)
    requires Exclusive(t) && id in t && RowOk(job)
    requires job.queueManaged && job.Active() ==>
               Holds(t, id, job.worker) && job.gpuIndices == t[id].gpuIndices
    ensures Exclusive(t[id := job])
  {
    var t' := t[id := job];
    forall x, y, v | Holds(t', x, v) && Holds(t', y, v) && x != y ensures Apart(t', x, y) {
      assert Holds(t, x, v) && Holds(t, y, v);
    }
  }

  lemma InsertKeepsExclusive(t: Table, id: JobId, job: Job)
    requires Exclusive(t) && id !in t && RowOk(job) && (job.queueManaged ==> !job.Active())
    ensures Exclusive(t[id := job])
  {
    var t' := t[id := job];
    forall x, y, v | Holds(t', x, v) && Holds(t', y, v) && x != y ensures Apart(t', x, y) {
      assert Holds(t, x, v) && Holds(t, y, v);
    }
  }

  predicate StillPending(job: Job, job': Job) {
    && job.status.Pending? && job'.status.Pending?
    && job'.gpuIndices == job.gpuIndices && job'.queueManaged == job.queueManaged
  }

  /** Positions, names, workers and sizes of pending rows carry no reservation. */
  lemma ReorderKeepsExclusive(t: Table, t': Table)
    requires Exclusive(t) && t'.Keys == t.Keys
    requires forall x :: x in t ==> Renumbered(t, t', x) || StillPending(t[x], t'[x])
    ensures Exclusive(t')
  {
    forall x, y, v | Holds(t', x, v) && Holds(t', y, v) && x != y ensures Apart(t', x, y) {
      assert Holds(t, x, v) && Holds(t, y, v);
    }
  }

  lemma UpdateKeepsExclusive(t: Table, id: JobId, e: Edit)
    requires Exclusive(t) && id in t && InQueue(t[id], t[id].worker)
    ensures id in Queue(t, t[id].worker) && Exclusive(Moved(t, id, e))
  {
    hide Moved, Queue;
    MovedRow(t, id, e, id);
    var t' := Moved(t, id, e);
    forall x | x in t ensures x in t' && (Renumbered(t, t', x) || StillPending(t[x], t'[x])) {
      MovedRow(t, id, e, x);
    }
    assert t'.Keys == t.Keys by {
      MovedKeys(t, id, e);
    }
    ReorderKeepsExclusive(t, t');
  }

  lemma FailKeepsExclusive(t: Table, id: JobId, finishedAt: int)
    requires Exclusive(t) && id in t && InQueue(t[id], t[id].worker)
    ensures Exclusive(FailPending(t, id, finishedAt))
  {
    hide FailPending, Queue;
    var t1 := t[id := MarkFailed(t[id], finishedAt).(queueOrder := 0)];
    var t' := FailPending(t, id, finishedAt);
    FailKeys(t, id, finishedAt);
    forall x | x in t1 ensures Renumbered(t1, t', x) {
      FailRow(t, id, finishedAt, x);
    }
    SettleKeepsExclusive(t, id, t1[id]);
    ReorderKeepsExclusive(t1, t');
  }

  lemma ReconcileKeepsExclusive(t: Table, id: JobId, observed: bool, now: int)
    requires Exclusive(t) && id in t && t[id].status.Starting?
    ensures Exclusive(Reconcile(t, id, observed, now))
  {
    if observed || !t[id].queueManaged {
      SettleKeepsExclusive(t, id, Reconcile(t, id, observed, now)[id]);
    } else {
      var shifted := Shift(t, t[id].worker);
      ReorderKeepsExclusive(t, shifted);
      SettleKeepsExclusive(shifted, id, Requeued(t[id]));
    }
  }

  // ---------------------------------------------------------------- pigeonhole

  function Total(t: Table, ids: seq<JobId>): nat
    requires forall x :: x in ids ==> x in t
  {
    if ids == [] then 0 else t[ids[0]].gpuCount + Total(t, ids[1..])
  }

  function Members(s: seq<nat>): set<nat> {
    set g | g in s
  }

  ghost function Union(t: Table, ids: seq<JobId>): set<nat>
    requires forall x :: x in ids ==> x in t
  {
    if ids == [] then {} else Members(t[ids[0]].gpuIndices) + Union(t, ids[1..])
  }

  lemma {:induction false} UnionMember(t: Table, ids: seq<JobId>, g: nat)
    requires forall x :: x in ids ==> x in t
    requires g in Union(t, ids)
    ensures exists x :: x in ids && g in t[x].gpuIndices
  {
    if g in t[ids[0]].gpuIndices {
      assert ids[0] in ids;
    } else {
      UnionMember(t, ids[1..], g);
      var x :| x in ids[1..] && g in t[x].gpuIndices;
      assert x in ids;
    }
  }

  lemma {:induction false} DistinctCard(s: seq<nat>)
    requires Distinct(s)
    ensures |Members(s)| == |s|
  {
    if s != [] {
      DistinctCard(s[1..]);
      assert s == [s[0]] + s[1..];
      assert Members(s) == {s[0]} + Members(s[1..]);
      assert s[0] !in Members(s[1..]);
    }
  }

  lemma {:induction false} RangeCard(s: set<nat>, n: nat)
    requires forall g :: g in s ==> g < n
    ensures |s| <= n
  {
    if n == 0 {
      assert s == {};
    } else {
      RangeCard(s - {n - 1}, n - 1);
      assert |s| <= |s - {n - 1}| + 1;
    }
  }

  lemma UnionApart(t: Table, w: WorkerId, first: JobId, rest: seq<JobId>)
    requires Exclusive(t) && Holds(t, first, w) && first !in rest
    requires forall x :: x in rest ==> Holds(t, x, w)
    ensures Members(t[first].gpuIndices) !! Union(t, rest)
  {
    assert forall x :: x in rest ==> Apart(t, first, x);
    forall g | g in t[first].gpuIndices ensures g !in Union(t, rest) {
      if g in Union(t, rest) {
        UnionMember(t, rest, g);
      }
    }
  }

  lemma {:induction false} TotalIsUnion(t: Table, w: WorkerId, ids: seq<JobId>)
    requires Exclusive(t) && Distinct(ids) && forall x :: x in ids ==> Holds(t, x, w)
    ensures |Union(t, ids)| == Total(t, ids)
  {
    if ids != [] {
      assert ids[0] in ids;
      assert ids == [ids[0]] + ids[1..];
      TotalIsUnion(t, w, ids[1..]);
      DistinctCard(t[ids[0]].gpuIndices);
      UnionApart(t, w, ids[0], ids[1..]);
      assert Members(t[ids[0]].gpuIndices) * Union(t, ids[1..]) == {};
    }
  }

  /** Any distinct active queue jobs of one worker together asked for at most its GPU count. */
  lemma ReservationsFit(t: Table, w: WorkerId, gpus: nat, ids: seq<JobId>)
    requires Exclusive(t) && Distinct(ids) && forall x :: x in ids ==> Holds(t, x, w)
    requires forall x, g :: Holds(t, x, w) && g in t[x].gpuIndices ==> g < gpus
    ensures Total(t, ids) <= gpus
  {
    TotalIsUnion(t, w, ids);
    forall g | g in Union(t, ids) ensures g < gpus {
      UnionMember(t, ids, g);
    }
    RangeCard(Union(t, ids), gpus);
  }
}
