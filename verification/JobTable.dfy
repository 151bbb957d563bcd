/** The `jobs` table as a value: the rows, the per-worker queue a query returns, and
    the effect of each queue transaction of `Database`. */
module JobTable {
  import opened Prelude
  import opened Ordering

  /** Row ids and worker ids are opaque; ids only need equality and the TEXT order. */
  type JobId = nat
  type WorkerId = nat

  datatype Status = Pending | Starting | Running | Done | Failed
  datatype Kind = Ssh | Delegated

  datatype Job = Job(
    worker: WorkerId,
    name: string,
    status: Status,
    queueManaged: bool,
    kind: Kind,
    exitCode: Option<int>,
    expectedSeconds: int,
    gpuCount: nat,
    gpuIndices: seq<nat>,
    queueOrder: int,
    startedAt: int,
    finishedAt: int)
  {
    /** Rows the queue queries call live: pending, starting or running. */
    predicate Live() {
      status.Pending? || status.Starting? || status.Running?
    }

    /** Rows that hold a GPU reservation. */
    predicate Active() {
      status.Starting? || status.Running?
    }
  }

  type Table = map<JobId, Job>

  predicate InQueue(job: Job, w: WorkerId) {
    job.queueManaged && job.worker == w && job.status.Pending?
  }

  function QueueIds(t: Table, w: WorkerId): set<JobId> {
    set id | id in t && InQueue(t[id], w)
  }

  function QueueKeys(t: Table): SortKeys {
    map id | id in t :: (t[id].queueOrder, 0)
  }

  /** SELECT id ... queue_managed, worker, pending ORDER BY queue_order, id. */
  function Queue(t: Table, w: WorkerId): seq<JobId> {
    Sorted(QueueKeys(t), QueueIds(t, w))
  }

  /** What every reachable table satisfies: a live queue row has a position of at least 1,
      and two pending rows of one worker never share a position. */
  ghost predicate WellOrdered(t: Table) {
    Positive(t) && forall w :: OrderedAt(t, w)
  }

  ghost predicate Positive(t: Table) {
    forall id :: id in t && t[id].queueManaged && t[id].Live() ==> t[id].queueOrder >= 1
  }

  ghost predicate OrderedAt(t: Table, w: WorkerId) {
    forall x, y :: x in QueueIds(t, w) && y in QueueIds(t, w) && x != y
                   ==> t[x].queueOrder != t[y].queueOrder
  }

  // ---------------------------------------------------------------- queries

  lemma QueueFacts(t: Table, w: WorkerId)
    ensures Lists(QueueIds(t, w), Queue(t, w))
    ensures Ascending(QueueKeys(t), Queue(t, w))
    ensures Distinct(Queue(t, w))
  {
    SortedLists(QueueKeys(t), QueueIds(t, w));
    SortedAscending(QueueKeys(t), QueueIds(t, w));
    AscendingDistinct(QueueKeys(t), Queue(t, w));
  }

  lemma QueueIs(t: Table, w: WorkerId, s: seq<JobId>)
    requires Ascending(QueueKeys(t), s) && Lists(QueueIds(t, w), s)
    ensures Queue(t, w) == s
  {
    SortedUnique(QueueKeys(t), QueueIds(t, w), s);
  }

  /** A worker's queue depends only on which of its rows are pending and on their order. */
  lemma QueueFrame(t: Table, t': Table, w: WorkerId)
    requires QueueIds(t, w) == QueueIds(t', w)
    requires forall id :: id in QueueIds(t, w) ==> t[id].queueOrder == t'[id].queueOrder
    ensures Queue(t, w) == Queue(t', w)
  {
    SortedFrame(QueueKeys(t), QueueKeys(t'), QueueIds(t, w));
  }

  /** No id is in two places: the queues of different workers are disjoint. */
  lemma QueuesDisjoint(t: Table, w1: WorkerId, w2: WorkerId, id: JobId)
    requires id in Queue(t, w1) && id in Queue(t, w2)
    ensures w1 == w2
  {
    QueueFacts(t, w1);
    QueueFacts(t, w2);
  }

  function LiveOrders(t: Table, w: WorkerId): set<int> {
    set id | id in t && t[id].queueManaged && t[id].worker == w && t[id].Live() :: t[id].queueOrder
  }

  lemma {:induction false} MaxExists(s: set<int>, z: int)
    requires z in s
    ensures exists m :: m in s && forall x :: x in s ==> x <= m
    decreases s
  {
    var rest := s - {z};
    assert forall x :: x in s ==> x == z || x in rest;
    if y :| y in rest {
      MaxExists(rest, y);
      var m :| m in rest && forall x :: x in rest ==> x <= m;
      var top := if m < z then z else m;
      assert top in s && forall x :: x in s ==> x <= top;
    } else {
      assert z in s && forall x :: x in s ==> x <= z;
    }
  }

  /** SELECT COALESCE(MAX(queue_order), 0) over the worker's live queue rows. */
  function MaxOrder(t: Table, w: WorkerId): (m: int)
    ensures forall id :: id in t && t[id].queueManaged && t[id].worker == w && t[id].Live()
                         ==> t[id].queueOrder <= m
    ensures Positive(t) ==> m >= 0
    ensures m == 0 || exists id :: id in t && t[id].queueManaged && t[id].worker == w && t[id].Live()
                                   && t[id].queueOrder == m
  {
    var s := LiveOrders(t, w);
    assert forall id :: id in t && t[id].queueManaged && t[id].worker == w && t[id].Live()
                        ==> t[id].queueOrder in s;
    if s == {} then
      0
    else
      assert exists m :: m in s && forall x :: x in s ==> x <= m by {
        var id :| id in t && t[id].queueManaged && t[id].worker == w && t[id].Live();
        MaxExists(s, t[id].queueOrder);
      }
      var m :| m in s && forall x :: x in s ==> x <= m;
      m
  }

  // ---------------------------------------------------------------- insert

  function InsertQueued(t: Table, id: JobId, job: Job): Table {
    t[id := job.(queueManaged := true, status := Pending, gpuIndices := [],
                 queueOrder := MaxOrder(t, job.worker) + 1, startedAt := 0, finishedAt := 0)]
  }

  /** A new pending row whose position exceeds every pending position goes last. */
  lemma AppendRow(t: Table, id: JobId, job: Job, w: WorkerId)
    requires id !in t && job.queueManaged && job.status.Pending? && job.queueOrder >= 1
    requires forall x :: x in QueueIds(t, job.worker) ==> t[x].queueOrder < job.queueOrder
    ensures Queue(t[id := job], w) == if w == job.worker then Queue(t, w) + [id] else Queue(t, w)
  {
    hide Queue;
    var t' := t[id := job];
    QueueFacts(t, w);
    var q := Queue(t, w);
    if w == job.worker {
      assert QueueIds(t', w) == QueueIds(t, w) + {id};
      assert forall i :: 0 <= i < |q| ==> q[i] in q;
      QueueIs(t', w, q + [id]);
    } else {
      assert QueueIds(t', w) == QueueIds(t, w);
      QueueFrame(t, t', w);
    }
  }

  lemma AppendOrdered(t: Table, id: JobId, job: Job, w: WorkerId)
    requires id !in t && job.queueManaged && job.status.Pending? && OrderedAt(t, w)
    requires forall x :: x in QueueIds(t, job.worker) ==> t[x].queueOrder < job.queueOrder
    ensures OrderedAt(t[id := job], w)
  {
    var t' := t[id := job];
    assert forall x :: x in QueueIds(t', w) && x != id ==> x in QueueIds(t, w);
  }

  lemma InsertAppends(t: Table, id: JobId, job: Job, w: WorkerId)
    requires WellOrdered(t) && id !in t
    ensures Queue(InsertQueued(t, id, job), w)
         == if w == job.worker then Queue(t, w) + [id] else Queue(t, w)
    ensures WellOrdered(InsertQueued(t, id, job))
  {
    var row := InsertQueued(t, id, job)[id];
    AppendRow(t, id, row, w);
    var t' := t[id := row];
    forall v ensures OrderedAt(t', v) {
      assert OrderedAt(t, v);
      AppendOrdered(t, id, row, v);
    }
  }

  // ---------------------------------------------------------------- claim

  function Indices(t: Table, w: WorkerId): set<nat> {
    set id, g | id in t && t[id].queueManaged && t[id].worker == w && t[id].Active() && g in t[id].gpuIndices :: g
  }

  /** An active queue row of worker `w`, which holds its GPUs. */
  predicate Holds(t: Table, id: JobId, w: WorkerId) {
    id in t && t[id].queueManaged && t[id].worker == w && t[id].Active()
  }

  predicate Claimable(t: Table, id: JobId, gpus: seq<nat>, w: WorkerId) {
    && id in t
    && InQueue(t[id], w)
    && t[id].gpuCount == |gpus|
    && Queue(t, w) != []
    && Queue(t, w)[0] == id
    && (forall g :: g in gpus ==> g !in Indices(t, w))
  }

  function Claim(t: Table, id: JobId, gpus: seq<nat>, startedAt: int): Table
    requires id in t
  {
    t[id := t[id].(status := Starting, gpuIndices := gpus, startedAt := startedAt)]
  }

  /** A row that stops being pending leaves its queue; nothing else moves. */
  lemma LeaveQueue(t: Table, id: JobId, job: Job, w: WorkerId)
    requires id in t && !(job.queueManaged && job.status.Pending?)
    ensures Queue(t[id := job], w) == Without(Queue(t, w), id)
  {
    var t' := t[id := job];
    assert QueueIds(t', w) == QueueIds(t, w) - {id};
    SortedWithout(QueueKeys(t), QueueIds(t, w), id);
    SortedFrame(QueueKeys(t), QueueKeys(t'), QueueIds(t', w));
  }

  lemma LeaveOrdered(t: Table, id: JobId, job: Job)
    requires WellOrdered(t) && id in t && !(job.queueManaged && job.status.Pending?)
    requires job.queueManaged && job.Live() ==> job.queueOrder >= 1
    ensures WellOrdered(t[id := job])
  {
    var t' := t[id := job];
    forall w ensures OrderedAt(t', w) {
      assert OrderedAt(t, w);
      assert forall x :: x in QueueIds(t', w) ==> x in QueueIds(t, w) && x != id;
    }
  }

  lemma WithoutHead(s: seq<nat>)
    requires s != [] && Distinct(s)
    ensures Without(s, s[0]) == s[1..]
  {
    assert s[0] !in s[1..];
    WithoutAbsent(s[1..], s[0]);
  }

  lemma ClaimPops(t: Table, id: JobId, gpus: seq<nat>, startedAt: int, w: WorkerId, v: WorkerId)
    requires WellOrdered(t) && Claimable(t, id, gpus, w)
    ensures Queue(Claim(t, id, gpus, startedAt), v) == if v == w then Queue(t, w)[1..] else Queue(t, v)
    ensures WellOrdered(Claim(t, id, gpus, startedAt))
  {
    QueueFacts(t, v);
    var job := Claim(t, id, gpus, startedAt)[id];
    LeaveQueue(t, id, job, v);
    LeaveOrdered(t, id, job);
    if v == w {
      WithoutHead(Queue(t, w));
    } else {
      WithoutAbsent(Queue(t, v), id);
    }
  }

  // ---------------------------------------------------------------- renumbering

  /** UPDATE jobs SET queue_order = index WHERE id = ..., for ids enumerated from 1. */
  function Renumber(t: Table, ids: seq<JobId>): (t': Table)
    requires forall x :: x in ids ==> x in t
    ensures t'.Keys == t.Keys
  {
    if ids == [] then
      t
    else
      var n := |ids| - 1;
      var t1 := Renumber(t, ids[..n]);
      t1[ids[n] := t1[ids[n]].(queueOrder := n + 1)]
  }

  /** The row differs at most in its queue position. */
  predicate Renumbered(t: Table, t': Table, x: JobId) {
    x in t && x in t' && t'[x] == t[x].(queueOrder := t'[x].queueOrder)
  }

  lemma {:induction false} RenumberRows(t: Table, ids: seq<JobId>)
    requires Distinct(ids) && forall x :: x in ids ==> x in t
    ensures forall x :: x in t && x !in ids ==> Renumber(t, ids)[x] == t[x]
    ensures forall i :: 0 <= i < |ids| ==> Renumber(t, ids)[ids[i]] == t[ids[i]].(queueOrder := i + 1)
  {
    if ids != [] {
      var n := |ids| - 1;
      assert ids == ids[..n] + [ids[n]];
      RenumberRows(t, ids[..n]);
      assert ids[n] !in ids[..n];
    }
  }

  /** Renumbering the pending ids of one worker in any order makes that order its queue. */
  lemma RenumberReorders(t: Table, ids: seq<JobId>, w: WorkerId, v: WorkerId)
    requires Distinct(ids) && Lists(QueueIds(t, w), ids)
    ensures forall x :: x in ids ==> x in t
    ensures Queue(Renumber(t, ids), v) == if v == w then ids else Queue(t, v)
    ensures QueueIds(Renumber(t, ids), v) == QueueIds(t, v)
  {
    hide Queue, Renumber;
    RenumberRows(t, ids);
    var t' := Renumber(t, ids);
    forall x | x in t
      ensures Renumbered(t, t', x)
    {
      if x in ids {
        var i :| 0 <= i < |ids| && ids[i] == x;
      }
    }
    assert QueueIds(t', v) == QueueIds(t, v);
    if v == w {
      QueueIs(t', w, ids);
    } else {
      QueueFrame(t, t', v);
    }
  }

  lemma RenumberOrders(t: Table, ids: seq<JobId>, w: WorkerId, v: WorkerId)
    requires Distinct(ids) && Lists(QueueIds(t, w), ids)
    requires v != w ==> OrderedAt(t, v)
    ensures forall x :: x in ids ==> x in t
    ensures OrderedAt(Renumber(t, ids), v)
  {
    RenumberReorders(t, ids, w, v);
    RenumberRows(t, ids);
    var t' := Renumber(t, ids);
    forall x, y | x in QueueIds(t', v) && y in QueueIds(t', v) && x != y
      ensures t'[x].queueOrder != t'[y].queueOrder
    {
      if v == w {
        var i :| 0 <= i < |ids| && ids[i] == x;
        var j :| 0 <= j < |ids| && ids[j] == y;
      } else {
        assert x !in ids && y !in ids;
      }
    }
  }

  lemma RenumberOnlyOrder(t: Table, ids: seq<JobId>, id: JobId)
    requires Distinct(ids) && (forall x :: x in ids ==> x in t) && id in t
    ensures Renumbered(t, Renumber(t, ids), id)
    ensures id in ids || t[id].queueOrder >= 1 ==> Renumber(t, ids)[id].queueOrder >= 1
  {
    RenumberRows(t, ids);
    if id in ids {
      var i :| 0 <= i < |ids| && ids[i] == id;
    }
  }

  lemma RenumberWellOrdered(t: Table, ids: seq<JobId>, w: WorkerId)
    requires Distinct(ids) && Lists(QueueIds(t, w), ids)
    requires forall v :: v != w ==> OrderedAt(t, v)
    requires forall id :: id in t && id !in ids && t[id].queueManaged && t[id].Live() ==> t[id].queueOrder >= 1
    ensures forall x :: x in ids ==> x in t
    ensures WellOrdered(Renumber(t, ids))
  {
    var t' := Renumber(t, ids);
    forall id | id in t' && t'[id].queueManaged && t'[id].Live() ensures t'[id].queueOrder >= 1 {
      RenumberRows(t, ids);
      if id in ids {
        var i :| 0 <= i < |ids| && ids[i] == id;
      }
    }
    forall v ensures OrderedAt(t', v) {
      assert v != w ==> OrderedAt(t, v);
      RenumberOrders(t, ids, w, v);
    }
  }

  // ---------------------------------------------------------------- move, reorder, edit

  /** Python's list.insert, negative indices included. */
  function PyInsert(s: seq<JobId>, index: int, x: JobId): (r: seq<JobId>)
    ensures |r| == |s| + 1
    ensures forall y :: y in r <==> y in s || y == x
    ensures 0 <= index <= |s| ==> r == s[..index] + [x] + s[index..]
  {
    var i := if index < 0 then (if index + |s| < 0 then 0 else index + |s|)
             else if index > |s| then |s| else index;
    assert s == s[..i] + s[i..];
    s[..i] + [x] + s[i..]
  }

  lemma PyInsertDistinct(s: seq<JobId>, index: int, x: JobId)
    requires Distinct(s) && x !in s
    ensures Distinct(PyInsert(s, index, x))
  {
  }

  function IndexOf(s: seq<JobId>, x: JobId): (i: nat)
    requires x in s
    ensures i < |s| && s[i] == x && x !in s[..i]
  {
    if s[0] == x then 0 else
      assert s == [s[0]] + s[1..];
      var k := IndexOf(s[1..], x);
      assert s[..k + 1] == [s[0]] + s[1..][..k];
      k + 1
  }

  lemma {:induction false} WithoutAt(s: seq<JobId>, k: nat)
    requires Distinct(s) && k < |s|
    ensures Without(s, s[k]) == s[..k] + s[k + 1..]
  {
    if k == 0 {
      WithoutHead(s);
    } else {
      var tail := s[1..];
      WithoutAt(tail, k - 1);
      assert tail[..k - 1] == s[1..k];
      assert tail[k..] == s[k + 1..];
      assert [s[0]] + s[1..k] == s[..k];
    }
  }

  /** Taking an element out and putting it back at its own index changes nothing. */
  lemma ReinsertSame(s: seq<JobId>, x: JobId)
    requires Distinct(s) && x in s
    ensures IndexOf(s, x) <= |Without(s, x)|
    ensures PyInsert(Without(s, x), IndexOf(s, x), x) == s
  {
    var k := IndexOf(s, x);
    WithoutAt(s, k);
    assert (s[..k] + s[k + 1..])[..k] == s[..k];
    assert (s[..k] + s[k + 1..])[k..] == s[k + 1..];
  }

  datatype Edit = Edit(
    worker: Option<WorkerId>,
    position: Option<int>,
    name: Option<string>,
    expectedSeconds: Option<int>,
    gpuCount: Option<nat>)

  datatype UpdateError = UnknownJob | NotPending | UnknownDestination | TooManyGpus
  datatype Result<+T> = Ok(value: T) | Err(error: UpdateError)

  function GetOr<T>(o: Option<T>, default: T): (r: T)
    ensures o == Some(r) || (o.None? && r == default)
  {
    if o.Some? then o.value else default
  }

  function EditRow(job: Job, e: Edit): Job {
    job.(worker := GetOr(e.worker, job.worker),
         name := GetOr(e.name, job.name),
         expectedSeconds := GetOr(e.expectedSeconds, job.expectedSeconds),
         gpuCount := GetOr(e.gpuCount, job.gpuCount))
  }

  /** The slot the edited job takes among the other `others` jobs of its destination. */
  function Slot(position: Option<int>, keep: int, others: nat): int {
    match position
    case None => keep
    case Some(p) => if p - 1 < others then p - 1 else others
  }

  /** The destination queue after the edit. */
  function PlacedQueue(t: Table, id: JobId, e: Edit): seq<JobId>
    requires id in t && id in Queue(t, t[id].worker)
  {
    var src := t[id].worker;
    var dst := GetOr(e.worker, src);
    if dst == src then
      var others := Without(Queue(t, src), id);
      PyInsert(others, Slot(e.position, IndexOf(Queue(t, src), id), |others|), id)
    else
      var others := Queue(t, dst);
      PyInsert(others, Slot(e.position, |others|, |others|), id)
  }

  /** The capacity table gives gpu_count of every registered worker. */
  function UpdateRefusal(t: Table, capacity: map<WorkerId, nat>, id: JobId, e: Edit): Option<UpdateError> {
    if id !in t || !t[id].queueManaged then Some(UnknownJob)
    else if !t[id].status.Pending? then Some(NotPending)
    else
      var row := EditRow(t[id], e);
      if row.worker !in capacity then Some(UnknownDestination)
      else if row.gpuCount > capacity[row.worker] then Some(TooManyGpus)
      else None
  }

  function Moved(t: Table, id: JobId, e: Edit): Table
    requires id in t && id in Queue(t, t[id].worker)
    requires InQueue(t[id], t[id].worker)
  {
    QueueFacts(t, t[id].worker);
    QueueFacts(t, GetOr(e.worker, t[id].worker));
    var t1 := t[id := EditRow(t[id], e)];
    var t2 := if t1[id].worker == t[id].worker then t1
              else Renumber(t1, Without(Queue(t, t[id].worker), id));
    Renumber(t2, PlacedQueue(t, id, e))
  }

  lemma WithoutDistinct(t: Table, w: WorkerId, id: JobId)
    ensures Distinct(Without(Queue(t, w), id))
    ensures Lists(QueueIds(t, w) - {id}, Without(Queue(t, w), id))
  {
    QueueFacts(t, w);
    WithoutAscending(QueueKeys(t), Queue(t, w), id);
    AscendingDistinct(QueueKeys(t), Without(Queue(t, w), id));
  }

  lemma PlacedFacts(t: Table, id: JobId, e: Edit)
    requires id in t && InQueue(t[id], t[id].worker)
    ensures id in Queue(t, t[id].worker)
    ensures Distinct(PlacedQueue(t, id, e))
    ensures Lists(QueueIds(t, GetOr(e.worker, t[id].worker)) + {id}, PlacedQueue(t, id, e))
  {
    var src := t[id].worker;
    var dst := GetOr(e.worker, src);
    QueueFacts(t, src);
    QueueFacts(t, dst);
    WithoutDistinct(t, src, id);
    if dst == src {
      var others := Without(Queue(t, src), id);
      PyInsertDistinct(others, Slot(e.position, IndexOf(Queue(t, src), id), |others|), id);
    } else {
      var others := Queue(t, dst);
      PyInsertDistinct(others, Slot(e.position, |others|, |others|), id);
    }
  }

  lemma EditedIds(t: Table, id: JobId, e: Edit, v: WorkerId)
    requires id in t && InQueue(t[id], t[id].worker)
    ensures QueueIds(t[id := EditRow(t[id], e)], v)
         == if v == GetOr(e.worker, t[id].worker) then QueueIds(t, v) + {id} else QueueIds(t, v) - {id}
  {
  }

  lemma EditedQueue(t: Table, id: JobId, e: Edit, v: WorkerId)
    requires id in t && InQueue(t[id], t[id].worker)
    requires v != GetOr(e.worker, t[id].worker)
    ensures Queue(t[id := EditRow(t[id], e)], v) == Without(Queue(t, v), id)
  {
    var t1 := t[id := EditRow(t[id], e)];
    EditedIds(t, id, e, v);
    SortedWithout(QueueKeys(t), QueueIds(t, v), id);
    SortedFrame(QueueKeys(t), QueueKeys(t1), QueueIds(t1, v));
  }

  lemma EditedOrdered(t: Table, id: JobId, e: Edit, v: WorkerId)
    requires id in t && InQueue(t[id], t[id].worker) && OrderedAt(t, v)
    requires v != GetOr(e.worker, t[id].worker)
    ensures OrderedAt(t[id := EditRow(t[id], e)], v)
  {
    EditedIds(t, id, e, v);
  }

  /** update_pending_job: the job leaves its queue and lands at the requested slot. */
  lemma UpdateMoves(t: Table, id: JobId, e: Edit, v: WorkerId)
    requires WellOrdered(t) && id in t && InQueue(t[id], t[id].worker)
    ensures id in Queue(t, t[id].worker)
    ensures Queue(Moved(t, id, e), v)
         == if v == GetOr(e.worker, t[id].worker) then PlacedQueue(t, id, e) else Without(Queue(t, v), id)
  {
    var src := t[id].worker;
    var dst := GetOr(e.worker, src);
    var t1 := t[id := EditRow(t[id], e)];
    PlacedFacts(t, id, e);
    var placed := PlacedQueue(t, id, e);
    EditedIds(t, id, e, dst);
    if v != dst {
      EditedQueue(t, id, e, v);
    }
    if dst == src {
      RenumberReorders(t1, placed, dst, v);
    } else {
      var left := Without(Queue(t, src), id);
      WithoutDistinct(t, src, id);
      EditedIds(t, id, e, src);
      RenumberReorders(t1, left, src, v);
      RenumberReorders(t1, left, src, dst);
      RenumberReorders(Renumber(t1, left), placed, dst, v);
    }
  }

  lemma UpdateWellOrdered(t: Table, id: JobId, e: Edit)
    requires WellOrdered(t) && id in t && InQueue(t[id], t[id].worker)
    ensures id in Queue(t, t[id].worker)
    ensures WellOrdered(Moved(t, id, e))
  {
    var src := t[id].worker;
    var dst := GetOr(e.worker, src);
    var t1 := t[id := EditRow(t[id], e)];
    PlacedFacts(t, id, e);
    var placed := PlacedQueue(t, id, e);
    EditedIds(t, id, e, dst);
    forall v | v != dst ensures OrderedAt(t1, v) {
      assert OrderedAt(t, v);
      EditedOrdered(t, id, e, v);
    }
    if dst == src {
      RenumberWellOrdered(t1, placed, dst);
    } else {
      var left := Without(Queue(t, src), id);
      WithoutDistinct(t, src, id);
      EditedIds(t, id, e, src);
      RenumberReorders(t1, left, src, dst);
      var t2 := Renumber(t1, left);
      forall v | v != dst ensures OrderedAt(t2, v) {
        assert OrderedAt(t1, v);
        RenumberOrders(t1, left, src, v);
      }
      forall x | x in t2 && x !in placed && t2[x].queueManaged && t2[x].Live() ensures t2[x].queueOrder >= 1 {
        RenumberOnlyOrder(t1, left, x);
      }
      RenumberWellOrdered(t2, placed, dst);
    }
  }

  /** The edit changes the edited row and positions of pending rows, nothing else. */
  lemma MovedRow(t: Table, id: JobId, e: Edit, x: JobId)
    requires id in t && InQueue(t[id], t[id].worker) && x in t
    ensures id in Queue(t, t[id].worker)
    ensures x in Moved(t, id, e) && Renumbered(t[id := EditRow(t[id], e)], Moved(t, id, e), x)
    ensures !t[x].status.Pending? ==> Moved(t, id, e)[x] == t[x]
  {
    hide Queue, PlacedQueue, Without, Renumber;
    PlacedFacts(t, id, e);
    WithoutDistinct(t, t[id].worker, id);
    var t1 := t[id := EditRow(t[id], e)];
    var left := Without(Queue(t, t[id].worker), id);
    var placed := PlacedQueue(t, id, e);
    var t2 := if t1[id].worker == t[id].worker then t1 else Renumber(t1, left);
    RenumberOnlyOrder(t1, left, x);
    RenumberRows(t1, left);
    RenumberOnlyOrder(t2, placed, x);
    RenumberRows(t2, placed);
  }

  lemma MovedKeys(t: Table, id: JobId, e: Edit)
    requires id in t && InQueue(t[id], t[id].worker)
    ensures id in Queue(t, t[id].worker) && Moved(t, id, e).Keys == t.Keys
  {
    QueueFacts(t, t[id].worker);
  }

  lemma UpdateAll(t: Table, id: JobId, e: Edit)
    requires WellOrdered(t) && id in t && InQueue(t[id], t[id].worker)
    ensures id in Queue(t, t[id].worker)
    ensures WellOrdered(Moved(t, id, e))
    ensures forall v {:trigger Queue(Moved(t, id, e), v)} ::
              Queue(Moved(t, id, e), v) == if v == GetOr(e.worker, t[id].worker) then PlacedQueue(t, id, e)
                                           else Without(Queue(t, v), id)
  {
    PlacedFacts(t, id, e);
    UpdateWellOrdered(t, id, e);
    var t' := Moved(t, id, e);
    forall v ensures Queue(t', v)
      == (if v == GetOr(e.worker, t[id].worker) then PlacedQueue(t, id, e) else Without(Queue(t, v), id)) {
      UpdateMoves(t, id, e, v);
    }
  }

  /** Without a position and without a move, the queue keeps its order. */
  lemma UpdateInPlace(t: Table, id: JobId, e: Edit)
    requires WellOrdered(t) && id in t && InQueue(t[id], t[id].worker)
    requires e.position.None? && GetOr(e.worker, t[id].worker) == t[id].worker
    ensures id in Queue(t, t[id].worker) && PlacedQueue(t, id, e) == Queue(t, t[id].worker)
  {
    QueueFacts(t, t[id].worker);
    ReinsertSame(Queue(t, t[id].worker), id);
  }

  /** Where a list insertion at 1-based `position` ends up among `others` elements: counted from the end
      below 1, as Python's list.insert does. */
  function Landing(position: int, others: nat): (i: nat)
    ensures i <= others
    ensures position >= 1 ==> i == if position - 1 <= others then position - 1 else others
  {
    if position > others then others
    else if position >= 1 then position - 1
    else if others + position - 1 >= 0 then others + position - 1 else 0
  }

  /** `after` is `before` with `id` taken out, if it was there, and put in at `index`. */
  ghost predicate PutAt(before: seq<JobId>, after: seq<JobId>, id: JobId, index: nat) {
    index < |after| && after[index] == id && Without(after, id) == Without(before, id)
    && |after| == |Without(before, id)| + 1
  }

  lemma InsertedAt(others: seq<JobId>, index: nat, id: JobId)
    requires Distinct(others) && id !in others && index <= |others|
    ensures PutAt(others, others[..index] + [id] + others[index..], id, index)
  {
    var r := others[..index] + [id] + others[index..];
    assert Distinct(r) && r[index] == id;
    WithoutAt(r, index);
    assert r[..index] + r[index + 1..] == others;
    WithoutAbsent(others, id);
  }

  /** Where an edited job stands: at the asked place of the destination's other jobs, and without a
      position at its old index, or last if it moves to another worker. */
  lemma EditLands(t: Table, id: JobId, e: Edit)
    requires WellOrdered(t) && id in t && InQueue(t[id], t[id].worker)
    ensures id in Queue(t, t[id].worker)
    ensures var dst := GetOr(e.worker, t[id].worker);
            var before, after := Queue(t, dst), Queue(Moved(t, id, e), dst);
            var others := |Without(before, id)|;
            && (e.position.Some? ==> PutAt(before, after, id, Landing(e.position.value, others)))
            && (e.position.None? && dst == t[id].worker ==> after == before)
            && (e.position.None? && dst != t[id].worker ==> PutAt(before, after, id, others))
  {
    var src := t[id].worker;
    var dst := GetOr(e.worker, src);
    QueueFacts(t, src);
    UpdateMoves(t, id, e, dst);
    WithoutDistinct(t, dst, id);
    WithoutAbsent(Without(Queue(t, dst), id), id);
    if dst != src {
      QueueFacts(t, dst);
      WithoutAbsent(Queue(t, dst), id);
    } else if e.position.None? {
      UpdateInPlace(t, id, e);
    }
    hide Queue, Moved, Without, PyInsert, Landing;
    PlacedLands(t, id, e);
  }

  lemma PlacedLands(t: Table, id: JobId, e: Edit)
    requires id in t && id in Queue(t, t[id].worker)
    requires var dst := GetOr(e.worker, t[id].worker);
             var others := Without(Queue(t, dst), id);
             && Distinct(others) && id !in others && Without(others, id) == others
             && (dst != t[id].worker ==> Queue(t, dst) == others)
    ensures var others := Without(Queue(t, GetOr(e.worker, t[id].worker)), id);
            && (e.position.Some? ==> PutAt(others, PlacedQueue(t, id, e), id, Landing(e.position.value, |others|)))
            && (e.position.None? && e.worker.Some? && e.worker.value != t[id].worker ==>
                  PutAt(others, PlacedQueue(t, id, e), id, |others|))
  {
    hide Queue, Without;
    var others := Without(Queue(t, GetOr(e.worker, t[id].worker)), id);
    InsertedAt(others, |others|, id);
    if e.position.Some? {
      InsertedAt(others, Landing(e.position.value, |others|), id);
    }
  }

  /** After an edit the rows of both queues are numbered 1, 2, ... in queue order. */
  lemma EditNumbers(t: Table, id: JobId, e: Edit, v: WorkerId, k: nat)
    requires WellOrdered(t) && id in t && InQueue(t[id], t[id].worker)
    requires v == t[id].worker || v == GetOr(e.worker, t[id].worker)
    ensures id in Queue(t, t[id].worker)
    ensures var q := Queue(Moved(t, id, e), v);
            k < |q| ==> q[k] in Moved(t, id, e) && Moved(t, id, e)[q[k]].queueOrder == k + 1
  {
    hide Queue, PlacedQueue, Without, Renumber;
    PlacedFacts(t, id, e);
    UpdateMoves(t, id, e, v);
    WithoutDistinct(t, t[id].worker, id);
    var t1 := t[id := EditRow(t[id], e)];
    var left := Without(Queue(t, t[id].worker), id);
    var placed := PlacedQueue(t, id, e);
    if t1[id].worker == t[id].worker {
      RenumberRows(t1, placed);
    } else {
      RenumberRows(t1, left);
      var t2 := Renumber(t1, left);
      RenumberRows(t2, placed);
      if v == t[id].worker && k < |left| {
        assert left[k] in left;
        QueueFacts(t, t[id].worker);
        QueueFacts(t, GetOr(e.worker, t[id].worker));
        assert left[k] !in placed;
      }
    }
  }

  // ---------------------------------------------------------------- cancel

  function MarkFailed(job: Job, finishedAt: int): Job {
    job.(status := Status.Failed, exitCode := Some(-1), finishedAt := finishedAt)
  }

  function FailPending(t: Table, id: JobId, finishedAt: int): Table
    requires id in t && InQueue(t[id], t[id].worker)
  {
    var t1 := t[id := MarkFailed(t[id], finishedAt).(queueOrder := 0)];
    QueueFacts(t1, t[id].worker);
    Renumber(t1, Queue(t1, t[id].worker))
  }

  lemma FailKeys(t: Table, id: JobId, finishedAt: int)
    requires id in t && InQueue(t[id], t[id].worker)
    ensures FailPending(t, id, finishedAt).Keys == t.Keys
  {
  }

  /** Cancelling changes the cancelled row and positions of pending rows, nothing else. */
  lemma FailRow(t: Table, id: JobId, finishedAt: int, x: JobId)
    requires id in t && InQueue(t[id], t[id].worker) && x in t
    ensures x in FailPending(t, id, finishedAt)
    ensures Renumbered(t[id := MarkFailed(t[id], finishedAt).(queueOrder := 0)], FailPending(t, id, finishedAt), x)
    ensures x == id ==> FailPending(t, id, finishedAt)[id] == MarkFailed(t[id], finishedAt).(queueOrder := 0)
    ensures !t[x].status.Pending? ==> FailPending(t, id, finishedAt)[x] == t[x]
  {
    hide Queue, Renumber;
    var t1 := t[id := MarkFailed(t[id], finishedAt).(queueOrder := 0)];
    QueueFacts(t1, t[id].worker);
    RenumberRows(t1, Queue(t1, t[id].worker));
    RenumberOnlyOrder(t1, Queue(t1, t[id].worker), x);
  }

  lemma FailRemoves(t: Table, id: JobId, finishedAt: int, v: WorkerId)
    requires WellOrdered(t) && id in t && InQueue(t[id], t[id].worker)
    ensures Queue(FailPending(t, id, finishedAt), v) == Without(Queue(t, v), id)
    ensures WellOrdered(FailPending(t, id, finishedAt))
  {
    var row := MarkFailed(t[id], finishedAt).(queueOrder := 0);
    var t1 := t[id := row];
    var w := t[id].worker;
    LeaveQueue(t, id, row, v);
    LeaveOrdered(t, id, row);
    QueueFacts(t1, w);
    RenumberReorders(t1, Queue(t1, w), w, v);
    RenumberWellOrdered(t1, Queue(t1, w), w);
  }

  // ---------------------------------------------------------------- recovery

  function Shift(t: Table, w: WorkerId): Table {
    map id | id in t :: if InQueue(t[id], w) then t[id].(queueOrder := t[id].queueOrder + 1) else t[id]
  }

  function Requeued(job: Job): Job {
    job.(status := Pending, gpuIndices := [], startedAt := 0, queueOrder := 1)
  }

  function Reconcile(t: Table, id: JobId, observed: bool, now: int): Table
    requires id in t && t[id].status.Starting?
  {
    if observed then t[id := t[id].(status := Running)]
    else if t[id].queueManaged then Shift(t, t[id].worker)[id := Requeued(t[id])]
    else t[id := MarkFailed(t[id], now)]
  }

  lemma ShiftQueue(t: Table, w: WorkerId, v: WorkerId)
    ensures Queue(Shift(t, w), v) == Queue(t, v)
  {
    hide Queue;
    var t' := Shift(t, w);
    var q := Queue(t, v);
    assert QueueIds(t', v) == QueueIds(t, v);
    QueueFacts(t, v);
    if v == w {
      forall i, j | 0 <= i < j < |q| ensures Before(QueueKeys(t'), q[i], q[j]) {
        assert q[i] in q && q[j] in q;
        assert Before(QueueKeys(t), q[i], q[j]);
      }
      QueueIs(t', v, q);
    } else {
      QueueFrame(t, t', v);
    }
  }

  lemma ShiftOrders(t: Table, w: WorkerId, v: WorkerId)
    requires WellOrdered(t)
    ensures OrderedAt(Shift(t, w), v) && Positive(Shift(t, w))
  {
    hide Queue;
    assert OrderedAt(t, v);
    assert QueueIds(Shift(t, w), v) == QueueIds(t, v);
  }

  lemma ShiftFacts(t: Table, w: WorkerId, v: WorkerId)
    requires WellOrdered(t)
    ensures Queue(Shift(t, w), v) == Queue(t, v)
    ensures OrderedAt(Shift(t, w), v) && Positive(Shift(t, w))
    ensures forall x :: x in QueueIds(Shift(t, w), w) ==> Shift(t, w)[x].queueOrder >= 2
  {
    hide Queue;
    ShiftQueue(t, w, v);
    ShiftOrders(t, w, v);
    forall x | x in QueueIds(Shift(t, w), w) ensures Shift(t, w)[x].queueOrder >= 2 {
      assert x in QueueIds(t, w);
    }
  }

  /** A row that becomes pending below every pending position goes first. */
  lemma PrependRow(t: Table, id: JobId, job: Job, v: WorkerId)
    requires id in t && !(t[id].queueManaged && t[id].status.Pending?)
    requires job.queueManaged && job.status.Pending? && OrderedAt(t, v)
    requires forall x :: x in QueueIds(t, job.worker) ==> job.queueOrder < t[x].queueOrder
    ensures Queue(t[id := job], v) == if v == job.worker then [id] + Queue(t, v) else Queue(t, v)
    ensures OrderedAt(t[id := job], v)
  {
    hide Queue;
    var t' := t[id := job];
    QueueFacts(t, v);
    var q := Queue(t, v);
    if v == job.worker {
      assert QueueIds(t', v) == QueueIds(t, v) + {id};
      assert forall i :: 0 <= i < |q| ==> q[i] in q;
      QueueIs(t', v, [id] + q);
    } else {
      assert QueueIds(t', v) == QueueIds(t, v);
      QueueFrame(t, t', v);
    }
  }

  /** A launch that never happened goes back to the front; any other outcome leaves queues alone. */
  lemma ReconcileQueue(t: Table, id: JobId, observed: bool, now: int, v: WorkerId)
    requires WellOrdered(t) && id in t && t[id].status.Starting?
    ensures Queue(Reconcile(t, id, observed, now), v)
         == if !observed && t[id].queueManaged && v == t[id].worker then [id] + Queue(t, v) else Queue(t, v)
    ensures WellOrdered(Reconcile(t, id, observed, now))
  {
    if !observed && t[id].queueManaged {
      var w := t[id].worker;
      var shifted := Shift(t, w);
      ShiftFacts(t, w, v);
      ShiftFacts(t, w, w);
      PrependRow(shifted, id, Requeued(t[id]), v);
      var t' := Reconcile(t, id, observed, now);
      forall u ensures OrderedAt(t', u) {
        ShiftFacts(t, w, u);
        PrependRow(shifted, id, Requeued(t[id]), u);
      }
    } else {
      WriteBackQueue(t, id, Reconcile(t, id, observed, now)[id], v);
    }
  }

  // ---------------------------------------------------------------- full-row write-back

  /** update_job writes every column of one row. */
  function WriteBack(t: Table, id: JobId, job: Job): Table {
    if id in t then t[id := job] else t
  }

  /** A write-back between states outside the pending queue. */
  predicate OutsideQueue(t: Table, id: JobId, job: Job) {
    && id in t
    && !(t[id].queueManaged && t[id].status.Pending?)
    && !(job.queueManaged && job.status.Pending?)
    && (job.queueManaged && job.Live() ==> job.queueOrder >= 1)
  }

  lemma WriteBackQueue(t: Table, id: JobId, job: Job, v: WorkerId)
    requires WellOrdered(t) && OutsideQueue(t, id, job)
    ensures Queue(WriteBack(t, id, job), v) == Queue(t, v)
    ensures WellOrdered(WriteBack(t, id, job))
  {
    LeaveQueue(t, id, job, v);
    LeaveOrdered(t, id, job);
    QueueFacts(t, v);
    WithoutAbsent(Queue(t, v), id);
  }
}
