/** `JobManager.dispatch_worker` and the recovery loop, run without interference. */
module JobManager {
  import opened Prelude
  import opened Ordering
  import opened JobTable
  import opened JobDb
  import opened Reservations

  datatype Worker = Worker(
    id: WorkerId,
    online: bool,
    gpuCount: nat,
    gpuBusy: seq<Option<bool>>,
    gpuVramGb: seq<real>,
    gpuUsedVramGb: seq<real>)

  // ---------------------------------------------------------------- free GPUs

  /** An explicit busy flag decides; otherwise a GPU is free at no more than
      max(0.5 GB, 10%) of its memory, and unknown telemetry counts as busy. */
  predicate GpuFree(worker: Worker, index: nat) {
    if index < |worker.gpuBusy| && worker.gpuBusy[index].Some? then
      !worker.gpuBusy[index].value
    else
      && index < |worker.gpuVramGb| && index < |worker.gpuUsedVramGb|
      && (worker.gpuUsedVramGb[index] <= 0.5 || worker.gpuUsedVramGb[index] <= worker.gpuVramGb[index] * 0.1)
  }

  ghost predicate Increasing(s: seq<nat>) {
    forall i, j :: 0 <= i < j < |s| ==> s[i] < s[j]
  }

  function FreeUpTo(worker: Worker, n: nat): (free: seq<nat>)
    ensures Increasing(free)
    ensures forall g: nat :: g in free <==> g < n && GpuFree(worker, g)
  {
    if n == 0 then []
    else
      var below := FreeUpTo(worker, n - 1);
      assert forall i :: 0 <= i < |below| ==> below[i] in below;
      if GpuFree(worker, n - 1) then below + [n - 1] else below
  }

  function Available(worker: Worker): seq<nat> {
    if worker.online then FreeUpTo(worker, worker.gpuCount) else []
  }

  function Exclude(available: seq<nat>, taken: set<nat>): (free: seq<nat>)
    ensures forall g :: g in free <==> g in available && g !in taken
  {
    if available == [] then []
    else if available[0] in taken then Exclude(available[1..], taken)
    else [available[0]] + Exclude(available[1..], taken)
  }

  lemma {:induction false} ExcludeIncreasing(available: seq<nat>, taken: set<nat>)
    requires Increasing(available)
    ensures Increasing(Exclude(available, taken))
  {
    if available != [] {
      ExcludeIncreasing(available[1..], taken);
      var r := Exclude(available[1..], taken);
      forall j | 0 <= j < |r| ensures available[0] < r[j] {
        assert r[j] in r && r[j] in available[1..];
      }
    }
  }

  lemma {:induction false} ExcludeMore(available: seq<nat>, taken: set<nat>, more: set<nat>)
    ensures Exclude(available, taken + more) == Exclude(Exclude(available, taken), more)
  {
    if available != [] {
      ExcludeMore(available[1..], taken, more);
      var r := Exclude(available[1..], taken);
      if available[0] !in taken {
        assert ([available[0]] + r)[1..] == r;
      }
    }
  }

  lemma {:induction false} ExcludeNone(available: seq<nat>, taken: set<nat>)
    requires forall g :: g in available ==> g !in taken
    ensures Exclude(available, taken) == available
  {
    if available != [] {
      assert available[0] in available;
      ExcludeNone(available[1..], taken);
    }
  }

  lemma {:induction false} ExcludeAll(available: seq<nat>, taken: set<nat>)
    requires forall g :: g in available ==> g in taken
    ensures Exclude(available, taken) == []
  {
    if available != [] {
      assert available[0] in available;
      ExcludeAll(available[1..], taken);
    }
  }

  lemma ExcludeCons(g: nat, rest: seq<nat>, taken: set<nat>)
    ensures Exclude([], taken) == []
    ensures Exclude([g] + rest, taken) == (if g in taken then [] else [g]) + Exclude(rest, taken)
  {
    assert ([g] + rest)[1..] == rest;
  }

  lemma {:induction false} ExcludeConcat(a: seq<nat>, b: seq<nat>, taken: set<nat>)
    ensures Exclude(a + b, taken) == Exclude(a, taken) + Exclude(b, taken)
  {
    hide Exclude;
    if a == [] {
      ExcludeCons(0, [], taken);
      assert a + b == b;
    } else {
      ExcludeConcat(a[1..], b, taken);
      ExcludeCons(a[0], a[1..], taken);
      ExcludeCons(a[0], a[1..] + b, taken);
      assert a == [a[0]] + a[1..] && a + b == [a[0]] + (a[1..] + b);
    }
  }

  lemma PrefixApart(free: seq<nat>, n: nat)
    requires Increasing(free) && n <= |free|
    ensures forall g :: g in free[n..] ==> g !in Members(free[..n])
    ensures forall g :: g in free[..n] ==> g in Members(free[..n])
  {
    forall g | g in free[n..] ensures g !in free[..n] {
      var j :| 0 <= j < |free| - n && free[n..][j] == g;
      assert free[n + j] == g;
    }
  }

  lemma ExcludePrefix(free: seq<nat>, n: nat)
    requires Increasing(free) && n <= |free|
    ensures Exclude(free, Members(free[..n])) == free[n..]
  {
    PrefixApart(free, n);
    hide Exclude, Members, Increasing;
    assert free == free[..n] + free[n..];
    ExcludeConcat(free[..n], free[n..], Members(free[..n]));
    ExcludeAll(free[..n], Members(free[..n]));
    ExcludeNone(free[n..], Members(free[..n]));
  }

  // ---------------------------------------------------------------- launch outcomes

  datatype Launch = Started | Refused | Unknown

  /** SSH exit statuses: negative or 255 leaves the launch undecided. */
  function Classify(returnCode: int): Launch {
    if returnCode < 0 || returnCode == 255 then Unknown
    else if returnCode != 0 then Refused
    else Started
  }

  function Settled(job: Job, outcome: Launch, now: int): Job {
    match outcome
    case Unknown => job
    case Refused => MarkFailed(job, now)
    case Started => job.(status := Running)
  }

  // ---------------------------------------------------------------- the dispatch plan

  datatype Assignment = Assignment(id: JobId, gpus: seq<nat>)

  /** What one dispatch does: take heads while they fit, a refused launch returning its GPUs. */
  function Plan(t: Table, queue: seq<JobId>, free: seq<nat>, rc: JobId -> int): seq<Assignment> {
    if queue == [] || queue[0] !in t || t[queue[0]].gpuCount > |free| then
      []
    else
      var n := t[queue[0]].gpuCount;
      [Assignment(queue[0], free[..n])] + Plan(t, queue[1..], Remaining(free, n, rc(queue[0])), rc)
  }

  function Remaining(free: seq<nat>, n: nat, returnCode: int): seq<nat>
    requires n <= |free|
  {
    if Classify(returnCode).Refused? then free else free[n..]
  }

  function Ids(plan: seq<Assignment>): (ids: seq<JobId>)
    ensures |ids| == |plan| && forall i :: 0 <= i < |plan| ==> ids[i] == plan[i].id
  {
    if plan == [] then [] else [plan[0].id] + Ids(plan[1..])
  }

  function LaunchRow(t: Table, a: Assignment, returnCode: int, now: int): Table
    requires a.id in t
  {
    var claimed := Claim(t, a.id, a.gpus, now);
    claimed[a.id := Settled(claimed[a.id], Classify(returnCode), now)]
  }

  /** The table after the launches of `plan`, in order. */
  function Apply(t: Table, plan: seq<Assignment>, rc: JobId -> int, clock: JobId -> int): (t': Table)
    requires forall a :: a in plan ==> a.id in t
    ensures t'.Keys == t.Keys
  {
    if plan == [] then t
    else
      var a := plan[|plan| - 1];
      LaunchRow(Apply(t, plan[..|plan| - 1], rc, clock), a, rc(a.id), clock(a.id))
  }

  lemma {:induction false} PlanFrame(t: Table, t': Table, queue: seq<JobId>, free: seq<nat>, rc: JobId -> int)
    requires forall x :: x in queue ==> x in t && x in t' && t[x].gpuCount == t'[x].gpuCount
    ensures Plan(t, queue, free, rc) == Plan(t', queue, free, rc)
  {
    assert queue != [] ==> queue[0] in queue;
    if queue != [] && t[queue[0]].gpuCount <= |free| {
      PlanFrame(t, t', queue[1..], Remaining(free, t[queue[0]].gpuCount, rc(queue[0])), rc);
    }
  }

  /** GPUs already spent on the first `i` jobs of the queue: refused launches cost nothing. */
  function Spent(t: Table, queue: seq<JobId>, rc: JobId -> int, i: nat): nat
    requires i <= |queue| && forall x :: x in queue ==> x in t
  {
    if i == 0 then 0
    else Spent(t, queue, rc, i - 1)
         + (if Classify(rc(queue[i - 1])).Refused? then 0 else t[queue[i - 1]].gpuCount)
  }

  lemma {:induction false} SpentTail(t: Table, queue: seq<JobId>, rc: JobId -> int, i: nat)
    requires 1 <= i <= |queue| && forall x :: x in queue ==> x in t
    ensures Spent(t, queue, rc, i) == Spent(t, queue, rc, 1) + Spent(t, queue[1..], rc, i - 1)
  {
    if i > 1 {
      SpentTail(t, queue, rc, i - 1);
      assert queue[1..][i - 2] == queue[i - 1];
    }
  }

  /** The first `k` jobs each fit when their turn comes. */
  ghost predicate FitsFor(t: Table, queue: seq<JobId>, free: nat, rc: JobId -> int, k: nat)
    requires forall x :: x in queue ==> x in t
  {
    k <= |queue| && forall i :: 0 <= i < k ==> Spent(t, queue, rc, i) + t[queue[i]].gpuCount <= free
  }

  lemma FitsForTail(t: Table, queue: seq<JobId>, free: nat, left: nat, rc: JobId -> int, k: nat)
    requires 0 < k <= |queue| && forall x :: x in queue ==> x in t
    requires t[queue[0]].gpuCount <= free
    requires Spent(t, queue, rc, 1) + left == free
    ensures FitsFor(t, queue, free, rc, k) <==> FitsFor(t, queue[1..], left, rc, k - 1)
  {
    var rest := queue[1..];
    forall i | 1 <= i < k
      ensures Spent(t, queue, rc, i) + t[queue[i]].gpuCount <= free
         <==> Spent(t, rest, rc, i - 1) + t[rest[i - 1]].gpuCount <= left
    {
      SpentTail(t, queue, rc, i);
    }
    assert Spent(t, queue, rc, 0) == 0;
    if FitsFor(t, rest, left, rc, k - 1) {
      forall i | 0 <= i < k ensures Spent(t, queue, rc, i) + t[queue[i]].gpuCount <= free {
        if i > 0 {
          assert Spent(t, rest, rc, i - 1) + t[rest[i - 1]].gpuCount <= left;
        }
      }
    }
    if FitsFor(t, queue, free, rc, k) {
      forall i | 0 <= i < k - 1 ensures Spent(t, rest, rc, i) + t[rest[i]].gpuCount <= left {
        assert Spent(t, queue, rc, i + 1) + t[queue[i + 1]].gpuCount <= free;
      }
    }
  }

  lemma {:induction false} PlanTakesPrefix(t: Table, queue: seq<JobId>, free: seq<nat>, rc: JobId -> int)
    requires forall x :: x in queue ==> x in t
    ensures |Plan(t, queue, free, rc)| <= |queue|
    ensures Ids(Plan(t, queue, free, rc)) == queue[..|Plan(t, queue, free, rc)|]
  {
    var plan := Plan(t, queue, free, rc);
    assert queue != [] ==> queue[0] in queue;
    if queue != [] && t[queue[0]].gpuCount <= |free| {
      PlanTakesPrefix(t, queue[1..], Remaining(free, t[queue[0]].gpuCount, rc(queue[0])), rc);
      assert queue == [queue[0]] + queue[1..];
    }
  }

  /** The plan is the longest prefix of the queue whose jobs all fit: nothing overtakes the head,
      and dispatch stops only at an empty queue or at a head that does not fit. */
  lemma {:induction false} PlanIsLongestFit(t: Table, queue: seq<JobId>, free: seq<nat>, rc: JobId -> int, k: nat)
    requires forall x :: x in queue ==> x in t
    ensures FitsFor(t, queue, |free|, rc, k) <==> k <= |Plan(t, queue, free, rc)|
  {
    assert queue != [] ==> queue[0] in queue;
    if k == 0 || queue == [] {
    } else if t[queue[0]].gpuCount > |free| {
      assert Spent(t, queue, rc, 0) == 0;
      assert |Plan(t, queue, free, rc)| == 0;
    } else {
      var n := t[queue[0]].gpuCount;
      var left := Remaining(free, n, rc(queue[0]));
      assert Spent(t, queue, rc, 1) + |left| == |free| by {
        assert Spent(t, queue, rc, 0) == 0;
      }
      assert |Plan(t, queue, free, rc)| == 1 + |Plan(t, queue[1..], left, rc)|;
      if k <= |queue| {
        hide Plan, Spent, FitsFor;
        PlanIsLongestFit(t, queue[1..], left, rc, k - 1);
        FitsForTail(t, queue, |free|, |left|, rc, k);
      } else {
        PlanTakesPrefix(t, queue, free, rc);
      }
    }
  }

  // ---------------------------------------------------------------- one launch

  lemma IndicesAfter(t: Table, a: Assignment, w: WorkerId, returnCode: int, now: int)
    requires a.id in t && InQueue(t[a.id], w)
    ensures Indices(LaunchRow(t, a, returnCode, now), w)
         == if Classify(returnCode).Refused? then Indices(t, w) else Indices(t, w) + Members(a.gpus)
  {
    var t' := LaunchRow(t, a, returnCode, now);
    forall g ensures g in Indices(t', w) <==>
                     g in Indices(t, w) || (!Classify(returnCode).Refused? && g in a.gpus)
    {
      if g in Indices(t', w) {
        var x :| x in t' && t'[x].queueManaged && t'[x].worker == w && t'[x].Active() && g in t'[x].gpuIndices;
        assert x != a.id ==> t[x] == t'[x];
      }
      if g in Indices(t, w) {
        var x :| x in t && t[x].queueManaged && t[x].worker == w && t[x].Active() && g in t[x].gpuIndices;
        assert t'[x] == t[x];
      }
      if !Classify(returnCode).Refused? && g in a.gpus {
        assert t'[a.id].gpuIndices == a.gpus && t'[a.id].Active();
      }
    }
  }

  lemma PlanStep(t: Table, w: WorkerId, available: seq<nat>, rc: JobId -> int, now: int)
    requires WellOrdered(t) && Increasing(available) && Queue(t, w) != []
    requires Queue(t, w)[0] in t && t[Queue(t, w)[0]].gpuCount <= |Exclude(available, Indices(t, w))|
    ensures var free := Exclude(available, Indices(t, w));
            var a := Assignment(Queue(t, w)[0], free[..t[Queue(t, w)[0]].gpuCount]);
            var t' := LaunchRow(t, a, rc(a.id), now);
            && Claimable(t, a.id, a.gpus, w)
            && Distinct(a.gpus)
            && Queue(t', w) == Queue(t, w)[1..]
            && WellOrdered(t')
            && Plan(t, Queue(t, w), free, rc)
               == [a] + Plan(t', Queue(t', w), Exclude(available, Indices(t', w)), rc)
  {
    hide Queue, Exclude, Indices;
    var q := Queue(t, w);
    var free := Exclude(available, Indices(t, w));
    var n := t[q[0]].gpuCount;
    var a := Assignment(q[0], free[..n]);
    var claimed := Claim(t, a.id, a.gpus, now);
    var t' := LaunchRow(t, a, rc(a.id), now);
    QueueFacts(t, w);
    assert q[0] in q;
    assert forall g :: g in a.gpus ==> g in free;
    ExcludeIncreasing(available, Indices(t, w));
    ClaimPops(t, a.id, a.gpus, now, w, w);
    WriteBackQueue(claimed, a.id, t'[a.id], w);
    assert t' == WriteBack(claimed, a.id, t'[a.id]);
    IndicesAfter(t, a, w, rc(a.id), now);
    ExcludeMore(available, Indices(t, w), Members(a.gpus));
    ExcludePrefix(free, n);
    QueueFacts(t', w);
    forall x | x in q[1..] ensures x in q && x != a.id {
      var i :| 0 <= i < |q[1..]| && q[1..][i] == x;
      assert q[i + 1] == x;
    }
    PlanFrame(t, t', q[1..], Remaining(free, n, rc(q[0])), rc);
  }

  lemma ApplyStep(t: Table, done: seq<Assignment>, a: Assignment, rc: JobId -> int, clock: JobId -> int)
    requires (forall b :: b in done ==> b.id in t) && a.id in t
    ensures forall b :: b in done + [a] ==> b.id in t
    ensures Apply(t, done + [a], rc, clock) == LaunchRow(Apply(t, done, rc, clock), a, rc(a.id), clock(a.id))
    ensures Ids(done + [a]) == Ids(done) + [a.id]
  {
    assert (done + [a])[..|done + [a]| - 1] == done;
  }

  lemma OtherQueues(t: Table, a: Assignment, w: WorkerId, returnCode: int, now: int, v: WorkerId)
    requires WellOrdered(t) && Claimable(t, a.id, a.gpus, w) && v != w
    ensures Queue(LaunchRow(t, a, returnCode, now), v) == Queue(t, v)
  {
    var claimed := Claim(t, a.id, a.gpus, now);
    var t' := LaunchRow(t, a, returnCode, now);
    ClaimPops(t, a.id, a.gpus, now, w, v);
    WriteBackQueue(claimed, a.id, t'[a.id], v);
  }

  /** `done` is what the dispatch of worker `w` has launched so far, from table `t0` to `t`. */
  ghost predicate Dispatched(t0: Table, t: Table, w: WorkerId, available: seq<nat>,
                             rc: JobId -> int, clock: JobId -> int, done: seq<Assignment>) {
    && (forall a :: a in done ==> a.id in t0)
    && WellOrdered(t)
    && t == Apply(t0, done, rc, clock)
    && Plan(t0, Queue(t0, w), Exclude(available, Indices(t0, w)), rc)
       == done + Plan(t, Queue(t, w), Exclude(available, Indices(t, w)), rc)
    && Queue(t0, w) == Ids(done) + Queue(t, w)
    && (forall v :: v != w ==> Queue(t, v) == Queue(t0, v))
  }

  lemma DispatchStart(t: Table, w: WorkerId, available: seq<nat>, rc: JobId -> int, clock: JobId -> int)
    requires WellOrdered(t)
    ensures Dispatched(t, t, w, available, rc, clock, []) && Ids([]) == []
  {
    var plan := Plan(t, Queue(t, w), Exclude(available, Indices(t, w)), rc);
    assert [] + plan == plan;
    assert Ids([]) + Queue(t, w) == Queue(t, w);
  }

  lemma DispatchEnd(t0: Table, t: Table, w: WorkerId, available: seq<nat>,
                    rc: JobId -> int, clock: JobId -> int, done: seq<Assignment>)
    requires Dispatched(t0, t, w, available, rc, clock, done)
    requires Queue(t, w) != [] ==>
               Queue(t, w)[0] in t && t[Queue(t, w)[0]].gpuCount > |Exclude(available, Indices(t, w))|
    ensures Plan(t0, Queue(t0, w), Exclude(available, Indices(t0, w)), rc) == done
  {
    assert Plan(t, Queue(t, w), Exclude(available, Indices(t, w)), rc) == [];
  }

  lemma DispatchStep(t0: Table, t: Table, w: WorkerId, available: seq<nat>,
                     rc: JobId -> int, clock: JobId -> int, done: seq<Assignment>, a: Assignment)
    requires Dispatched(t0, t, w, available, rc, clock, done) && Increasing(available)
    requires Queue(t, w) != [] && a.id == Queue(t, w)[0]
    requires a.id in t && t[a.id].gpuCount <= |Exclude(available, Indices(t, w))|
    requires a.gpus == Exclude(available, Indices(t, w))[..t[a.id].gpuCount]
    ensures Claimable(t, a.id, a.gpus, w)
    ensures Dispatched(t0, LaunchRow(t, a, rc(a.id), clock(a.id)), w, available, rc, clock, done + [a])
    ensures Ids(done + [a]) == Ids(done) + [a.id]
    ensures Queue(LaunchRow(t, a, rc(a.id), clock(a.id)), w) == Queue(t, w)[1..]
  {
    hide Queue, Plan, Apply, LaunchRow, Exclude, Indices, WellOrdered, Claimable, Ids;
    PlanStep(t, w, available, rc, clock(a.id));
    ApplyStep(t0, done, a, rc, clock);
    var t' := LaunchRow(t, a, rc(a.id), clock(a.id));
    forall v | v != w ensures Queue(t', v) == Queue(t0, v) {
      OtherQueues(t, a, w, rc(a.id), clock(a.id), v);
    }
  }

  // ---------------------------------------------------------------- what a dispatch leaves

  /** The row a launch with this exit status leaves, and what it was given. */
  ghost predicate LaunchedRow(before: Job, after: Job, gpus: seq<nat>, returnCode: int, now: int) {
    && before.status.Pending?
    && (returnCode == 0 ==> after == before.(status := Running, gpuIndices := gpus, startedAt := now))
    && (returnCode < 0 || returnCode == 255 ==>
          after == before.(status := Starting, gpuIndices := gpus, startedAt := now))
    && (returnCode > 0 && returnCode != 255 ==>
          after == before.(status := Status.Failed, exitCode := Some(-1), finishedAt := now, gpuIndices := gpus,
                           startedAt := now))
  }

  lemma LaunchedGpus(before: Job, after: Job, gpus: seq<nat>, returnCode: int, now: int)
    requires LaunchedRow(before, after, gpus, returnCode, now)
    ensures after.gpuIndices == gpus
  {
  }

  /** The GPUs of the first `k` launches that keep theirs: those that started or may have. */
  function Kept(plan: seq<Assignment>, rc: JobId -> int, k: nat): set<nat>
    requires k <= |plan|
  {
    set i, g | 0 <= i < k && (rc(plan[i].id) <= 0 || rc(plan[i].id) == 255) && g in plan[i].gpus :: g
  }

  /** Each launched job has the row its own exit status gives; no other row changes. */
  lemma {:induction false} ApplyRows(t: Table, plan: seq<Assignment>, rc: JobId -> int, clock: JobId -> int)
    requires forall a :: a in plan ==> a.id in t && t[a.id].status.Pending?
    requires forall i, j :: 0 <= i < j < |plan| ==> plan[i].id != plan[j].id
    ensures forall x :: x in t && (forall k :: 0 <= k < |plan| ==> plan[k].id != x) ==>
              Apply(t, plan, rc, clock)[x] == t[x]
    ensures forall k :: 0 <= k < |plan| ==>
              var a := plan[k];
              LaunchedRow(t[a.id], Apply(t, plan, rc, clock)[a.id], a.gpus, rc(a.id), clock(a.id))
  {
    hide LaunchRow, LaunchedRow;
    if plan != [] {
      var n := |plan| - 1;
      var init, last := plan[..n], plan[n];
      assert last in plan;
      ApplyRows(t, init, rc, clock);
      var t1 := Apply(t, init, rc, clock);
      LaunchesOne(t1, last, rc(last.id), clock(last.id));
      forall k | 0 <= k < n
        ensures LaunchedRow(t[plan[k].id], Apply(t, plan, rc, clock)[plan[k].id], plan[k].gpus, rc(plan[k].id),
                            clock(plan[k].id))
      {
        assert init[k] == plan[k] && plan[k] in plan && plan[k].id != last.id;
      }
      assert t1[last.id] == t[last.id];
      forall x | x in t && (forall k :: 0 <= k < |plan| ==> plan[k].id != x)
        ensures Apply(t, plan, rc, clock)[x] == t[x]
      {
        assert plan[n].id != x;
        assert forall k :: 0 <= k < n ==> init[k] == plan[k];
      }
    }
  }

  lemma LaunchesOne(t: Table, a: Assignment, returnCode: int, now: int)
    requires a.id in t && t[a.id].status.Pending?
    ensures var t' := LaunchRow(t, a, returnCode, now);
            && t'.Keys == t.Keys && LaunchedRow(t[a.id], t'[a.id], a.gpus, returnCode, now)
            && forall x :: x in t && x != a.id ==> t'[x] == t[x]
  {
  }

  /** The k-th job launched gets the first GPUs, in order, of those that were free and that no earlier
      launch keeps. */
  lemma {:induction false} PlanGpus(t: Table, queue: seq<JobId>, free: seq<nat>, rc: JobId -> int, k: nat)
    requires Increasing(free) && k < |Plan(t, queue, free, rc)|
    ensures var plan := Plan(t, queue, free, rc);
            && plan[k].id in t
            && t[plan[k].id].gpuCount <= |Exclude(free, Kept(plan, rc, k))|
            && plan[k].gpus == Exclude(free, Kept(plan, rc, k))[..t[plan[k].id].gpuCount]
  {
    var plan := Plan(t, queue, free, rc);
    var n := t[queue[0]].gpuCount;
    var left := Remaining(free, n, rc(queue[0]));
    var rest := Plan(t, queue[1..], left, rc);
    assert plan == [Assignment(queue[0], free[..n])] + rest;
    hide Plan, Exclude, Increasing;
    ExcludeNone(free, {});
    if k == 0 {
      assert Kept(plan, rc, 0) == {};
    } else {
      var first := if Classify(rc(queue[0])).Refused? then {} else Members(free[..n]);
      hide Kept, Members;
      ExcludePrefix(free, n);
      assert left == Exclude(free, first);
      LeftIncreasing(free, n);
      PlanGpus(t, queue[1..], left, rc, k - 1);
      KeptCons(plan, rc, k);
      assert plan[1..] == rest && plan[k] == rest[k - 1];
      ExcludeMore(free, first, Kept(rest, rc, k - 1));
    }
  }

  lemma LeftIncreasing(free: seq<nat>, n: nat)
    requires Increasing(free) && n <= |free|
    ensures Increasing(free[n..])
  {
  }

  lemma KeptCons(plan: seq<Assignment>, rc: JobId -> int, k: nat)
    requires 0 < k <= |plan|
    ensures Kept(plan, rc, k) == (if Classify(rc(plan[0].id)).Refused? then {} else Members(plan[0].gpus))
                                 + Kept(plan[1..], rc, k - 1)
  {
    var rest := plan[1..];
    forall g | g in Kept(plan, rc, k) && (g !in plan[0].gpus || Classify(rc(plan[0].id)).Refused?)
      ensures g in Kept(rest, rc, k - 1)
    {
      var i :| 0 <= i < k && (rc(plan[i].id) <= 0 || rc(plan[i].id) == 255) && g in plan[i].gpus;
      assert rest[i - 1] == plan[i];
    }
    forall g | g in Kept(rest, rc, k - 1) ensures g in Kept(plan, rc, k) {
      var i :| 0 <= i < k - 1 && (rc(rest[i].id) <= 0 || rc(rest[i].id) == 255) && g in rest[i].gpus;
      assert plan[i + 1] == rest[i];
    }
  }

  /** What a dispatch of worker `w` leaves: each launched job has the row its own exit status gives, no
      other row changes, and exactly the GPUs of launches that started or may have started are taken. */
  lemma DispatchLeaves(t: Table, w: WorkerId, available: seq<nat>, rc: JobId -> int, clock: JobId -> int)
    requires WellOrdered(t)
    ensures var q := Queue(t, w);
            var plan := Plan(t, q, Exclude(available, Indices(t, w)), rc);
            && |plan| <= |q| && (forall a :: a in plan ==> a.id in t)
            && LaunchedAll(t, Apply(t, plan, rc, clock), w, q[..|plan|], plan, rc, clock)
            && Indices(Apply(t, plan, rc, clock), w) == Indices(t, w) + Kept(plan, rc, |plan|)
  {
    hide Plan, Apply, LaunchedRow, Exclude, Queue, Ids, Indices, Kept, InQueue, QueueIds, LaunchedAll;
    var q := Queue(t, w);
    var plan := Plan(t, q, Exclude(available, Indices(t, w)), rc);
    PlanPending(t, w, Exclude(available, Indices(t, w)), rc);
    ApplyRows(t, plan, rc, clock);
    AllLaunched(t, Apply(t, plan, rc, clock), w, q[..|plan|], plan, rc, clock);
    TakenAfter(t, Apply(t, plan, rc, clock), w, q[..|plan|], plan, rc, clock);
  }

  /** A plan names the first jobs of the queue, all different and all waiting. */
  lemma PlanPending(t: Table, w: WorkerId, free: seq<nat>, rc: JobId -> int)
    ensures var q, plan := Queue(t, w), Plan(t, Queue(t, w), free, rc);
            && |plan| <= |q|
            && (forall k :: 0 <= k < |plan| ==> plan[k].id == q[k] && q[k] in t && InQueue(t[q[k]], w))
            && (forall a :: a in plan ==> a.id in t && t[a.id].status.Pending?)
            && (forall i, j :: 0 <= i < j < |plan| ==> plan[i].id != plan[j].id)
  {
    hide Queue, Plan, Ids;
    var q, plan := Queue(t, w), Plan(t, Queue(t, w), free, rc);
    QueueFacts(t, w);
    PlanTakesPrefix(t, q, free, rc);
    forall k | 0 <= k < |plan| ensures plan[k].id == q[k] && q[k] in QueueIds(t, w) {
      assert Ids(plan)[k] == q[..|plan|][k];
      assert q[k] in q;
    }
  }

  lemma AllLaunched(t: Table, t': Table, w: WorkerId, ids: seq<JobId>, plan: seq<Assignment>, rc: JobId -> int,
                    clock: JobId -> int)
    requires t'.Keys == t.Keys && |ids| == |plan|
    requires forall k :: 0 <= k < |plan| ==> plan[k].id == ids[k] && ids[k] in t && InQueue(t[ids[k]], w)
    requires forall x :: x in t && (forall k :: 0 <= k < |plan| ==> plan[k].id != x) ==> t'[x] == t[x]
    requires forall k :: 0 <= k < |plan| ==>
               var a := plan[k]; LaunchedRow(t[a.id], t'[a.id], a.gpus, rc(a.id), clock(a.id))
    ensures LaunchedAll(t, t', w, ids, plan, rc, clock)
  {
    hide LaunchedRow, InQueue;
  }

  /** Table `t'` is `t` with these jobs launched. */
  ghost predicate LaunchedAll(t: Table, t': Table, w: WorkerId, ids: seq<JobId>, plan: seq<Assignment>,
                              rc: JobId -> int, clock: JobId -> int)
  {
    && t'.Keys == t.Keys && |ids| == |plan|
    && (forall x :: x in t && x !in ids ==> t'[x] == t[x])
    && (forall k :: 0 <= k < |plan| ==>
          plan[k].id == ids[k] && ids[k] in t && InQueue(t[ids[k]], w)
          && LaunchedRow(t[ids[k]], t'[ids[k]], plan[k].gpus, rc(ids[k]), clock(ids[k])))
  }

  lemma TakenAfter(t: Table, t': Table, w: WorkerId, ids: seq<JobId>, plan: seq<Assignment>, rc: JobId -> int,
                   clock: JobId -> int)
    requires LaunchedAll(t, t', w, ids, plan, rc, clock)
    ensures Indices(t', w) == Indices(t, w) + Kept(plan, rc, |plan|)
  {
    hide LaunchedAll, LaunchedRow, Kept;
    forall g ensures g in Indices(t', w) <==> g in Indices(t, w) || g in Kept(plan, rc, |plan|) {
      if x :| Holds(t', x, w) && g in t'[x].gpuIndices {
        HolderAfter(t, t', w, ids, plan, rc, clock, x, g);
      }
      if x :| Holds(t, x, w) && g in t[x].gpuIndices {
        HolderBefore(t, t', w, ids, plan, rc, clock, x, g);
      }
      if g in Kept(plan, rc, |plan|) {
        KeptHeld(t, t', w, ids, plan, rc, clock, g);
      }
    }
  }

  lemma HolderAfter(t: Table, t': Table, w: WorkerId, ids: seq<JobId>, plan: seq<Assignment>, rc: JobId -> int,
                    clock: JobId -> int, x: JobId, g: nat)
    requires LaunchedAll(t, t', w, ids, plan, rc, clock) && Holds(t', x, w) && g in t'[x].gpuIndices
    ensures g in Indices(t, w) || g in Kept(plan, rc, |plan|)
  {
    assert x in t;
    if x in ids {
      var k :| 0 <= k < |ids| && ids[k] == x;
      assert LaunchedRow(t[ids[k]], t'[ids[k]], plan[k].gpus, rc(ids[k]), clock(ids[k]));
    } else {
      assert Holds(t, x, w);
    }
  }

  lemma HolderBefore(t: Table, t': Table, w: WorkerId, ids: seq<JobId>, plan: seq<Assignment>, rc: JobId -> int,
                     clock: JobId -> int, x: JobId, g: nat)
    requires LaunchedAll(t, t', w, ids, plan, rc, clock) && Holds(t, x, w) && g in t[x].gpuIndices
    ensures g in Indices(t', w)
  {
    hide LaunchedRow;
    forall k | 0 <= k < |ids| ensures ids[k] != x {
      assert InQueue(t[ids[k]], w);
    }
    assert Holds(t', x, w);
  }

  lemma KeptHeld(t: Table, t': Table, w: WorkerId, ids: seq<JobId>, plan: seq<Assignment>, rc: JobId -> int,
                 clock: JobId -> int, g: nat)
    requires LaunchedAll(t, t', w, ids, plan, rc, clock) && g in Kept(plan, rc, |plan|)
    ensures g in Indices(t', w)
  {
    hide LaunchedRow, Indices;
    var k :| 0 <= k < |plan| && (rc(plan[k].id) <= 0 || rc(plan[k].id) == 255) && g in plan[k].gpus;
    KeepsGpus(t, t', w, ids[k], plan[k].gpus, rc(ids[k]), clock(ids[k]), g);
  }

  lemma KeepsGpus(t: Table, t': Table, w: WorkerId, id: JobId, gpus: seq<nat>, returnCode: int, now: int, g: nat)
    requires id in t && id in t' && InQueue(t[id], w) && LaunchedRow(t[id], t'[id], gpus, returnCode, now)
    requires (returnCode <= 0 || returnCode == 255) && g in gpus
    ensures g in Indices(t', w)
  {
    assert Holds(t', id, w);
  }

  lemma DispatchResult(t: Table, t': Table, w: WorkerId, available: seq<nat>, rc: JobId -> int, clock: JobId -> int,
                       done: seq<Assignment>)
    requires WellOrdered(t) && done == Plan(t, Queue(t, w), Exclude(available, Indices(t, w)), rc)
    requires (forall a :: a in done ==> a.id in t) && t' == Apply(t, done, rc, clock)
    ensures Indices(t', w) == Indices(t, w) + Kept(done, rc, |done|)
    ensures var launched := Ids(done);
            && |launched| <= |Queue(t, w)| && launched == Queue(t, w)[..|launched|]
            && (forall id :: id in launched ==>
                  && id in t && id in t'
                  && LaunchedRow(t[id], t'[id], t'[id].gpuIndices, rc(id), clock(id)))
            && forall id :: id in t && id !in launched ==> id in t' && t'[id] == t[id]
  {
    hide Queue, Plan, Apply, Exclude, Indices, WellOrdered, LaunchedRow, Kept, Ids;
    DispatchLeaves(t, w, available, rc, clock);
    PlanTakesPrefix(t, Queue(t, w), Exclude(available, Indices(t, w)), rc) by {
      QueueFacts(t, w);
    }
    var launched := Ids(done);
    assert Queue(t, w)[..|done|] == launched;
    forall id | id in launched ensures id in t && id in t'
        && LaunchedRow(t[id], t'[id], t'[id].gpuIndices, rc(id), clock(id))
    {
      var k :| 0 <= k < |launched| && launched[k] == id;
      assert Queue(t, w)[k] == id;
      LaunchedGpus(t[id], t'[id], done[k].gpus, rc(id), clock(id));
    }
  }

  // ---------------------------------------------------------------- list_queued_jobs

  function StartKeys(t: Table): SortKeys {
    map id | id in t :: (t[id].startedAt, t[id].queueOrder)
  }

  function WithStatus(t: Table, w: WorkerId, status: Status): set<JobId> {
    set id | id in t && t[id].queueManaged && t[id].worker == w && t[id].status == status
  }

  /** Starting jobs, then running ones, then the queue. */
  function Listed(t: Table, w: WorkerId): seq<JobId> {
    Sorted(StartKeys(t), WithStatus(t, w, Starting)) + Sorted(StartKeys(t), WithStatus(t, w, Running)) + Queue(t, w)
  }

  method FirstPending(db: Database, w: WorkerId) returns (head: Option<JobId>)
    ensures head == if Queue(db.rows, w) == [] then None else Some(Queue(db.rows, w)[0])
    ensures head.Some? ==> head.value in db.rows
  {
    var jobs := Listed(db.rows, w);
    SortedLists(StartKeys(db.rows), WithStatus(db.rows, w, Starting));
    SortedLists(StartKeys(db.rows), WithStatus(db.rows, w, Running));
    QueueFacts(db.rows, w);
    ghost var active := Sorted(StartKeys(db.rows), WithStatus(db.rows, w, Starting))
                      + Sorted(StartKeys(db.rows), WithStatus(db.rows, w, Running));
    assert jobs == active + Queue(db.rows, w);
    for i := 0 to |jobs|
      invariant i <= |active|
    {
      assert i < |active| ==> jobs[i] == active[i] && active[i] in active;
      assert i >= |active| ==> jobs[i] == Queue(db.rows, w)[i - |active|];
      assert jobs[i] in jobs;
      if db.rows[jobs[i]].status.Pending? {
        return Some(jobs[i]);
      }
    }
    return None;
  }

  // ---------------------------------------------------------------- crash recovery

  /** The probe of durable launch evidence: present, absent, or no answer. */
  type Probe = JobId -> Option<bool>

  function StartingIds(t: Table, online: set<WorkerId>): set<JobId> {
    set id | id in t && t[id].status.Starting? && t[id].kind.Ssh? && t[id].worker in online
  }

  predicate Lost(t: Table, id: JobId, w: WorkerId, probe: Probe) {
    id in t && t[id].queueManaged && t[id].worker == w && probe(id) == Some(false)
  }

  /** The queue-managed jobs of `ids` on worker `w` whose launch was never seen. */
  function LostOf(t: Table, ids: seq<JobId>, w: WorkerId, probe: Probe): seq<JobId> {
    if ids == [] then []
    else if Lost(t, ids[0], w, probe) then [ids[0]] + LostOf(t, ids[1..], w, probe)
    else LostOf(t, ids[1..], w, probe)
  }

  function RecoveredStatus(job: Job, answer: Option<bool>): Status {
    match answer
    case None => Starting
    case Some(true) => Running
    case Some(false) => if job.queueManaged then Pending else Status.Failed
  }

  function RecoverOne(t: Table, id: JobId, probe: Probe, now: int): Table {
    if id in t && t[id].status.Starting? && probe(id).Some? then Reconcile(t, id, probe(id).value, now) else t
  }

  /** After the loop has handled `ids[i..]`, newest claim first. */
  ghost predicate Recovering(t0: Table, t: Table, ids: seq<JobId>, i: nat, probe: Probe)
    requires i <= |ids|
  {
    && WellOrdered(t) && t.Keys == t0.Keys
    && (forall k :: 0 <= k < |ids| ==> ids[k] in t0 && t0[ids[k]].status.Starting?)
    && (forall k :: 0 <= k < i ==> t[ids[k]] == t0[ids[k]])
    && (forall k :: i <= k < |ids| ==> t[ids[k]].status == RecoveredStatus(t0[ids[k]], probe(ids[k])))
    && (forall v :: Queue(t, v) == LostOf(t0, ids[i..], v, probe) + Queue(t0, v))
  }

  lemma RecoverStart(t: Table, ids: seq<JobId>, probe: Probe)
    requires WellOrdered(t) && forall k :: 0 <= k < |ids| ==> ids[k] in t && t[ids[k]].status.Starting?
    ensures Recovering(t, t, ids, |ids|, probe)
  {
    hide Queue;
    forall v ensures Queue(t, v) == LostOf(t, ids[|ids|..], v, probe) + Queue(t, v) {
      assert LostOf(t, ids[|ids|..], v, probe) == [];
    }
  }

  lemma LostCons(t: Table, ids: seq<JobId>, i: nat, v: WorkerId, probe: Probe)
    requires 0 < i <= |ids|
    ensures LostOf(t, ids[i - 1..], v, probe)
         == if Lost(t, ids[i - 1], v, probe) then [ids[i - 1]] + LostOf(t, ids[i..], v, probe)
            else LostOf(t, ids[i..], v, probe)
  {
    assert ids[i - 1..][0] == ids[i - 1];
    assert ids[i - 1..][1..] == ids[i..];
  }

  lemma RecoverQueue(t0: Table, t: Table, ids: seq<JobId>, i: nat, probe: Probe, now: int, v: WorkerId)
    requires 0 < i <= |ids| && Recovering(t0, t, ids, i, probe)
    ensures Queue(RecoverOne(t, ids[i - 1], probe, now), v) == LostOf(t0, ids[i - 1..], v, probe) + Queue(t0, v)
    ensures WellOrdered(RecoverOne(t, ids[i - 1], probe, now))
  {
    hide Queue, Reconcile, WellOrdered, LostOf;
    var id := ids[i - 1];
    assert t[id] == t0[id] && t[id].status.Starting?;
    assert Queue(t, v) == LostOf(t0, ids[i..], v, probe) + Queue(t0, v);
    assert WellOrdered(t);
    hide Recovering;
    LostCons(t0, ids, i, v, probe);
    if probe(id).Some? {
      ReconcileQueue(t, id, probe(id).value, now, v);
    }
  }

  lemma RecoverStep(t0: Table, t: Table, ids: seq<JobId>, i: nat, probe: Probe, now: int)
    requires 0 < i <= |ids| && Distinct(ids) && Recovering(t0, t, ids, i, probe)
    ensures Recovering(t0, RecoverOne(t, ids[i - 1], probe, now), ids, i - 1, probe)
  {
    hide Queue;
    var t' := RecoverOne(t, ids[i - 1], probe, now);
    forall v ensures Queue(t', v) == LostOf(t0, ids[i - 1..], v, probe) + Queue(t0, v) {
      RecoverQueue(t0, t, ids, i, probe, now, v);
    }
    RecoverQueue(t0, t, ids, i, probe, now, 0);
  }

  lemma {:induction false} LostAscending(t: Table, ids: seq<JobId>, w: WorkerId, probe: Probe)
    requires Ascending(StartKeys(t), ids)
    ensures Ascending(StartKeys(t), LostOf(t, ids, w, probe))
    ensures forall x :: x in LostOf(t, ids, w, probe) <==> x in ids && Lost(t, x, w, probe)
  {
    if ids != [] {
      LostAscending(t, ids[1..], w, probe);
      var r := LostOf(t, ids[1..], w, probe);
      forall j | 0 <= j < |r| ensures Before(StartKeys(t), ids[0], r[j]) {
        assert r[j] in r && r[j] in ids[1..];
      }
    }
  }

  /** What recovery makes of a starting job: nothing without an answer; running if its launch was seen;
      otherwise it waits again and holds nothing, or has failed if no queue owns it. */
  ghost predicate RecoveredRow(before: Job, after: Job, answer: Option<bool>, now: int) {
    match answer
    case None => after == before
    case Some(true) => after == before.(status := Running)
    case Some(false) =>
      if before.queueManaged then
        after == before.(status := Pending, gpuIndices := [], startedAt := 0, queueOrder := after.queueOrder)
      else after == before.(status := Status.Failed, exitCode := Some(-1), finishedAt := now)
  }

  /** Every other row keeps all but its position, and its position too unless it waits in a queue. */
  ghost predicate Bystander(before: Job, after: Job) {
    && after == before.(queueOrder := after.queueOrder)
    && ((before.queueManaged && before.status.Pending?) || after == before)
  }

  ghost predicate RowsAfter(t0: Table, t: Table, ids: seq<JobId>, i: nat, probe: Probe, now: int)
    requires i <= |ids|
  {
    && t.Keys == t0.Keys
    && (forall k :: 0 <= k < |ids| ==> ids[k] in t0 && t0[ids[k]].status.Starting?)
    && (forall k :: 0 <= k < i ==> t[ids[k]] == t0[ids[k]])
    && (forall k :: i <= k < |ids| ==> RecoveredRow(t0[ids[k]], t[ids[k]], probe(ids[k]), now))
    && (forall x :: x in t0 && x !in ids ==> Bystander(t0[x], t[x]))
  }

  lemma RecoverOneRows(t: Table, id: JobId, probe: Probe, now: int, x: JobId)
    requires id in t && t[id].status.Starting? && x in t
    ensures RecoverOne(t, id, probe, now).Keys == t.Keys
    ensures x == id ==> RecoveredRow(t[id], RecoverOne(t, id, probe, now)[id], probe(id), now)
    ensures x != id ==> Bystander(t[x], RecoverOne(t, id, probe, now)[x])
  {
  }

  lemma RowsStart(t: Table, ids: seq<JobId>, probe: Probe, now: int)
    requires forall k :: 0 <= k < |ids| ==> ids[k] in t && t[ids[k]].status.Starting?
    ensures RowsAfter(t, t, ids, |ids|, probe, now)
  {
  }

  lemma RowsStep(t0: Table, t: Table, ids: seq<JobId>, i: nat, probe: Probe, now: int)
    requires 0 < i <= |ids| && Distinct(ids) && RowsAfter(t0, t, ids, i, probe, now)
    ensures RowsAfter(t0, RecoverOne(t, ids[i - 1], probe, now), ids, i - 1, probe, now)
  {
    hide RecoverOne;
    var id := ids[i - 1];
    var t' := RecoverOne(t, id, probe, now);
    RecoverOneRows(t, id, probe, now, id);
    forall k | 0 <= k < |ids| && k != i - 1
      ensures k < i - 1 ==> t'[ids[k]] == t0[ids[k]]
      ensures i <= k ==> RecoveredRow(t0[ids[k]], t'[ids[k]], probe(ids[k]), now)
    {
      RecoverOneRows(t, id, probe, now, ids[k]);
    }
    forall x | x in t0 && x !in ids ensures Bystander(t0[x], t'[x]) {
      RecoverOneRows(t, id, probe, now, x);
    }
  }

  lemma RowsOfAll(t0: Table, t: Table, ids: seq<JobId>, probe: Probe, now: int, online: set<WorkerId>)
    requires RowsAfter(t0, t, ids, 0, probe, now) && Lists(StartingIds(t0, online), ids)
    ensures forall x :: x in t0 ==>
              var job := t0[x];
              if job.status.Starting? && job.kind.Ssh? && job.worker in online
              then RecoveredRow(job, t[x], probe(x), now) else Bystander(job, t[x])
  {
    hide RecoveredRow, Bystander;
    forall x | x in t0 && x in ids ensures RecoveredRow(t0[x], t[x], probe(x), now) {
      var k :| 0 <= k < |ids| && ids[k] == x;
    }
  }

  /** Recovery restores a worker's claim order exactly when the claims were made in ascending
      (started_at, queue_order, id). */
  lemma RecoveryRestoresFifo(t: Table, online: set<WorkerId>, w: WorkerId, probe: Probe, claims: seq<JobId>)
    requires StartingIds(t, online) <= StartKeys(t).Keys
    requires forall x :: x in claims <==> x in StartingIds(t, online) && Lost(t, x, w, probe)
    ensures LostOf(t, Sorted(StartKeys(t), StartingIds(t, online)), w, probe) == claims
       <==> Ascending(StartKeys(t), claims)
  {
    var keys := StartKeys(t);
    var ids := Sorted(keys, StartingIds(t, online));
    SortedLists(keys, StartingIds(t, online));
    SortedAscending(keys, StartingIds(t, online));
    LostAscending(t, ids, w, probe);
    var lost := set x | x in StartingIds(t, online) && Lost(t, x, w, probe);
    SortedUnique(keys, lost, LostOf(t, ids, w, probe));
    if Ascending(keys, claims) {
      SortedUnique(keys, lost, claims);
    }
  }

  // ---------------------------------------------------------------- the manager

  method FreeGpuIndices(worker: Worker) returns (free: seq<nat>)
    ensures free == Available(worker)
    // exactly the GPUs of an online worker that are flagged idle or, without a flag, hardly use memory
    ensures Increasing(free)
    ensures forall g: nat :: g in free <==>
              && worker.online && g < worker.gpuCount
              && (if g < |worker.gpuBusy| && worker.gpuBusy[g] != None then worker.gpuBusy[g] == Some(false)
                  else && g < |worker.gpuVramGb| && g < |worker.gpuUsedVramGb|
                       && (worker.gpuUsedVramGb[g] <= 0.5 || worker.gpuUsedVramGb[g] <= 0.1 * worker.gpuVramGb[g]))
  {
    free := [];
    if !worker.online {
      return;
    }
    for index := 0 to worker.gpuCount
      invariant free == FreeUpTo(worker, index)
    {
      if index < |worker.gpuBusy| && worker.gpuBusy[index].Some? {
        if !worker.gpuBusy[index].value {
          free := free + [index];
        }
      } else if index < |worker.gpuVramGb| && index < |worker.gpuUsedVramGb| {
        var total, used := worker.gpuVramGb[index], worker.gpuUsedVramGb[index];
        if used <= (if 0.5 < total * 0.1 then total * 0.1 else 0.5) {
          free := free + [index];
        }
      }
    }
  }

  class Manager {
    const db: Database

    constructor (db: Database)
      ensures this.db == db
    {
      this.db := db;
    }

    /** Launches one claimed job; an undecided launch keeps its claim. */
    method LaunchJob(id: JobId, job: Job, returnCode: int, now: int) returns (result: Job)
      requires db.Valid() && id in db.rows && db.rows[id] == job && job.status.Starting?
      modifies db`rows
      ensures db.Valid()
      ensures result == Settled(job, Classify(returnCode), now)
      // running exactly for exit status 0, undecided exactly for a negative one or 255, failed for the rest
      ensures returnCode == 0 ==> result == job.(status := Running)
      ensures returnCode < 0 || returnCode == 255 ==> result == job
      ensures returnCode > 0 && returnCode != 255 ==>
                result == job.(status := Status.Failed, exitCode := Some(-1), finishedAt := now)
      ensures db.rows == old(db.rows)[id := result]
      ensures forall v {:trigger db.QueueOf(v)} :: db.QueueOf(v) == old(db.QueueOf(v))
    {
      if returnCode < 0 || returnCode == 255 {
        return job;
      }
      if returnCode != 0 {
        result := job.(status := Status.Failed, exitCode := Some(-1), finishedAt := now);
        db.UpdateJob(id, result);
      } else {
        result := job.(status := Running);
        db.UpdateJob(id, result);
      }
    }

    /** One turn of the dispatch loop once the head has its GPUs. */
    method ClaimAndLaunch(id: JobId, gpus: seq<nat>, w: WorkerId, returnCode: int, now: int) returns (claimed: bool)
      requires db.Valid()
      modifies db`rows
      ensures db.Valid()
      ensures claimed == Claimable(old(db.rows), id, gpus, w)
      ensures !claimed ==> db.rows == old(db.rows)
      ensures claimed ==> db.rows == LaunchRow(old(db.rows), Assignment(id, gpus), returnCode, now)
      ensures claimed ==> old(db.QueueOf(w)) == [id] + db.QueueOf(w)
      ensures claimed ==> forall v {:trigger db.QueueOf(v)} :: v != w ==> db.QueueOf(v) == old(db.QueueOf(v))
    {
      var row := db.ClaimQueuedJob(id, gpus, now, w);
      if row.None? {
        return false;
      }
      var _ := LaunchJob(id, row.value, returnCode, now);
      return true;
    }

    /** Dispatches the worker's queue: exactly the planned prefix is launched, in order. */
    method DispatchWorker(worker: Worker, rc: JobId -> int, clock: JobId -> int) returns (launched: seq<JobId>)
      requires db.Valid()
      modifies db`rows
      ensures db.Valid()
      ensures !worker.online ==> launched == [] && db.rows == old(db.rows)
      ensures worker.online ==>
        var plan := Plan(old(db.rows), old(db.QueueOf(worker.id)),
                         Exclude(Available(worker), Indices(old(db.rows), worker.id)), rc);
        && launched == Ids(plan)
        && Dispatched(old(db.rows), db.rows, worker.id, Available(worker), rc, clock, plan)
        && Indices(db.rows, worker.id) == Indices(old(db.rows), worker.id) + Kept(plan, rc, |plan|)
      // the launched jobs are the first of the queue; each has the row its own exit status gives
      ensures |launched| <= |old(db.QueueOf(worker.id))|
      ensures launched == old(db.QueueOf(worker.id))[..|launched|]
      ensures forall id :: id in launched ==>
                && id in old(db.rows) && id in db.rows
                && LaunchedRow(old(db.rows)[id], db.rows[id], db.rows[id].gpuIndices, rc(id), clock(id))
      ensures forall id :: id in old(db.rows) && id !in launched ==> id in db.rows && db.rows[id] == old(db.rows)[id]
      ensures worker.online && db.QueueOf(worker.id) != [] ==>
        var head := db.QueueOf(worker.id)[0];
        head in db.rows
        && db.rows[head].gpuCount > |Exclude(Available(worker), Indices(db.rows, worker.id))|
    {
      hide Queue, Plan, Apply, LaunchRow, Exclude, Indices, Claimable, Ids;
      launched := [];
      if !worker.online {
        return;
      }
      var w := worker.id;
      var available := FreeGpuIndices(worker);
      assert Increasing(available);
      ghost var done: seq<Assignment> := [];
      DispatchStart(db.rows, w, available, rc, clock);
      while true
        invariant Dispatched(old(db.rows), db.rows, w, available, rc, clock, done)
        invariant launched == Ids(done)
        decreases |Queue(db.rows, w)|
      {
        var taken := db.RunningQueueGpuIndices(w);
        var free := Exclude(available, taken);
        var head := FirstPending(db, w);
        if head.None? || db.rows[head.value].gpuCount > |free| {
          break;
        }
        var id := head.value;
        var gpus := free[..db.rows[id].gpuCount];
        DispatchStep(old(db.rows), db.rows, w, available, rc, clock, done, Assignment(id, gpus));
        var claimed := ClaimAndLaunch(id, gpus, w, rc(id), clock(id));
        if !claimed {
          assert false;
        } else {
          launched := launched + [id];
          done := done + [Assignment(id, gpus)];
        }
      }
      DispatchEnd(old(db.rows), db.rows, w, available, rc, clock, done);
      DispatchResult(old(db.rows), db.rows, w, available, rc, clock, done);
    }

    /** Probes one job that may have been left in STARTING. */
    method ReconcileStartingJob(id: JobId, probe: Probe, now: int)
      requires db.Valid()
      modifies db`rows
      ensures db.Valid()
      ensures db.rows == RecoverOne(old(db.rows), id, probe, now)
    {
      if !(id in db.rows && db.rows[id].status.Starting?) {
        return;
      }
      var exists_ := probe(id);
      if exists_.None? {
        return;
      }
      var _ := db.ReconcileStartingJob(id, exists_.value, now);
    }

    /** The recovery loop: newest claim first, each absent launch prepended to its queue. */
    method RecoverQueues(online: set<WorkerId>, probe: Probe, now: int)
      requires db.Valid()
      modifies db`rows
      ensures db.Valid()
      ensures StartingIds(old(db.rows), online) <= StartKeys(old(db.rows)).Keys
      ensures var ids := Sorted(StartKeys(old(db.rows)), StartingIds(old(db.rows), online));
              && Recovering(old(db.rows), db.rows, ids, 0, probe)
              && forall v {:trigger db.QueueOf(v)} ::
                   db.QueueOf(v) == LostOf(old(db.rows), ids, v, probe) + old(db.QueueOf(v))
      // every starting SSH job of an online worker gets what its probe says; no other row changes but in position
      ensures db.rows.Keys == old(db.rows).Keys
      ensures forall x :: x in old(db.rows) ==>
                var job := old(db.rows)[x];
                if job.status.Starting? && job.kind.Ssh? && job.worker in online
                then RecoveredRow(job, db.rows[x], probe(x), now) else Bystander(job, db.rows[x])
    {
      hide Queue, LostOf, Sorted, RecoverOne, Ascending, RowsAfter, RecoveredRow, Bystander;
      var ids := Sorted(StartKeys(db.rows), StartingIds(db.rows, online));
      SortedLists(StartKeys(db.rows), StartingIds(db.rows, online));
      SortedAscending(StartKeys(db.rows), StartingIds(db.rows, online));
      AscendingDistinct(StartKeys(db.rows), ids);
      assert forall k :: 0 <= k < |ids| ==> ids[k] in ids;
      RecoverStart(db.rows, ids, probe);
      RowsStart(db.rows, ids, probe, now);
      for i := |ids| downto 0
        invariant Recovering(old(db.rows), db.rows, ids, i, probe)
        invariant RowsAfter(old(db.rows), db.rows, ids, i, probe, now)
      {
        RowsStep(old(db.rows), db.rows, ids, i + 1, probe, now);
        RecoverStep(old(db.rows), db.rows, ids, i + 1, probe, now);
        ReconcileStartingJob(ids[i], probe, now);
      }
      assert ids[0..] == ids;
      RowsOfAll(old(db.rows), db.rows, ids, probe, now, online);
    }
  }
}
