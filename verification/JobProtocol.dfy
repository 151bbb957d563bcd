/** Every interleaving of `JobManager`'s operations at their await points.

    An actor is one running coroutine. Between two awaits it performs one event, so each
    database transaction is one event and each SSH round trip lies between two events.
    Coroutines that hold a worker's dispatch lock keep it until they return to `Idle`
    (or, in the recovery loop, to `Looping`). SSH answers are arbitrary event arguments. */
module JobProtocol {
  import opened Prelude
  import opened Ordering
  import opened JobTable
  import opened Reservations
  import JM = JobManager

  type Actor = nat
  type Todo = seq<(WorkerId, JobId)>

  datatype Op =
    | Start(id: JobId, name: string, now: int)
    | Dispatch(available: seq<nat>)
    | Stop(id: JobId)
    | Refresh(id: JobId)
    | Recover(id: JobId, todo: Todo)

  datatype Pc =
    | Idle
    | Waiting(w: WorkerId, op: Op)                         // on the dispatch lock
    | Entered(w: WorkerId, op: Op)                         // lock held, nothing read yet
    | Counted(w: WorkerId, available: seq<nat>, taken: set<nat>)
    | Chosen(w: WorkerId, id: JobId, gpus: seq<nat>, available: seq<nat>)
    | Launching(w: WorkerId, id: JobId, read: Job, back: Option<seq<nat>>)
    | Cancelling(w: WorkerId, id: JobId)
    | Killing(w: WorkerId, id: JobId)
    | Rereading(w: WorkerId, id: JobId)
    | Polling(w: WorkerId, id: JobId, read: Job)
    | Probing(w: WorkerId, id: JobId, read: Job, todo: Todo)
    | Settling(w: WorkerId, id: JobId, read: Job, observed: bool, todo: Todo)
    | Looping(todo: Todo)
    | Writing(w: WorkerId, id: JobId, read: Job, next: Job, back: Option<seq<nat>>)
  {
    /** The dispatch lock this program point holds. */
    function Lock(): Option<WorkerId> {
      match this
      case Idle | Waiting(_, _) | Looping(_) => None
      case _ => Some(w)
    }

    /** Inside one run of the recovery loop. */
    predicate InRecovery() {
      match this
      case Waiting(_, op) => op.Recover?
      case Entered(_, op) => op.Recover?
      case Looping(_) | Probing(_, _, _, _) | Settling(_, _, _, _, _) => true
      case _ => false
    }

    /** The jobs this recovery loop still has to visit, the current one included. */
    function Agenda(): Todo {
      match this
      case Waiting(w, Recover(id, todo)) => [(w, id)] + todo
      case Entered(w, Recover(id, todo)) => [(w, id)] + todo
      case Probing(w, id, _, todo) => [(w, id)] + todo
      case Settling(w, id, _, _, todo) => [(w, id)] + todo
      case Looping(todo) => todo
      case _ => []
    }
  }

  datatype State = State(rows: Table, pcs: map<Actor, Pc>) {
    function Point(a: Actor): Pc {
      if a in pcs then pcs[a] else Idle
    }

    predicate LockFree(w: WorkerId) {
      forall b :: b in pcs ==> pcs[b].Lock() != Some(w)
    }

    function At(a: Actor, pc: Pc): State {
      State(rows, pcs[a := pc])
    }
  }

  datatype Event =
    | Enqueue(id: JobId, job: Job)                 // insert_queued_job
    | EditPending(id: JobId, e: Edit)              // update_pending_job
    | Report(id: JobId, job: Job)                  // a delegated-job report
    | Call(a: Actor, w: WorkerId, op: Op)
    | BeginRecovery(a: Actor, online: set<WorkerId>, order: seq<JobId>)
    | NextJob(a: Actor)
    | Acquire(a: Actor)
    | Read(a: Actor)
    | Choose(a: Actor)
    | Claim(a: Actor, now: int)
    | Launched(a: Actor, returnCode: int, now: int)
    | Cancel(a: Actor, now: int)
    | Killed(a: Actor, ok: bool)
    | Reread(a: Actor, now: int)
    | Polled(a: Actor, exitCode: Option<int>, now: int)   // None: still running or no answer
    | Probed(a: Actor, answer: Option<bool>)
    | Settle(a: Actor, now: int)
    | Write(a: Actor)
    | Abort(a: Actor)      // cancelled, or an exception leaves the operation; its lock is released
    | JobFails(a: Actor)   // an exception the recovery loop logs before it goes on

  /** The row start_job inserts. */
  function StartRow(w: WorkerId, name: string, now: int): Job {
    Job(w, name, Starting, false, Ssh, None, 0, 0, [], 0, now, 0)
  }

  /** Where a coroutine goes when it gives up the lock, or loops in dispatch. */
  function After(w: WorkerId, back: Option<seq<nat>>): Pc {
    match back
    case None => Idle
    case Some(free) => Entered(w, Dispatch(free))
  }

  function Finished(job: Job, exitCode: int, now: int): Job {
    job.(status := if exitCode != 0 then Status.Failed else Done, exitCode := Some(exitCode), finishedAt := now)
  }

  /** First database read with the lock held. */
  function ReadStep(s: State, a: Actor, w: WorkerId, op: Op): State {
    match op
    case Start(id, name, now) =>
      if id in s.rows then s.At(a, Idle)   // integrity error
      else State(s.rows[id := StartRow(w, name, now)], s.pcs[a := Launching(w, id, StartRow(w, name, now), None)])
    case Dispatch(available) =>
      s.At(a, Counted(w, available, Indices(s.rows, w)))
    case Stop(id) =>
      if id !in s.rows then s.At(a, Killing(w, id))
      else if s.rows[id].worker != w then s.At(a, Idle)
      else if s.rows[id].status.Done? || s.rows[id].status.Failed? then s.At(a, Idle)
      else if s.rows[id].queueManaged && s.rows[id].status.Pending? then s.At(a, Cancelling(w, id))
      else s.At(a, Killing(w, id))
    case Refresh(id) =>
      if id !in s.rows then s.At(a, Idle)
      else if s.rows[id].worker != w then s.At(a, Idle)
      else if !s.rows[id].status.Running? && !s.rows[id].status.Pending? then s.At(a, Idle)
      else if s.rows[id].queueManaged && s.rows[id].status.Pending? then s.At(a, Idle)
      else s.At(a, Polling(w, id, s.rows[id]))
    case Recover(id, todo) =>
      if id !in s.rows || !s.rows[id].status.Starting? then s.At(a, Looping(todo))
      else s.At(a, Probing(w, id, s.rows[id], todo))
  }

  /** The head of the queue, if it fits the GPUs not yet taken. */
  function ChooseStep(s: State, a: Actor, w: WorkerId, available: seq<nat>, taken: set<nat>): State {
    var free := JM.Exclude(available, taken);
    var queue := Queue(s.rows, w);
    if queue == [] || queue[0] !in s.rows || s.rows[queue[0]].gpuCount > |free| then s.At(a, Idle)
    else s.At(a, Chosen(w, queue[0], free[..s.rows[queue[0]].gpuCount], available))
  }

  function LaunchedStep(s: State, a: Actor, pc: Pc, returnCode: int, now: int): State
    requires pc.Launching?
  {
    var outcome := JM.Classify(returnCode);
    if outcome.Unknown? then s.At(a, After(pc.w, pc.back))
    else s.At(a, Writing(pc.w, pc.id, pc.read, JM.Settled(pc.read, outcome, now), pc.back))
  }

  /** The successor of `s` under event `e`, if the event is enabled. `single` says whether only
      one recovery loop runs at a time, as in the service. */
  ghost function Next(s: State, e: Event, single: bool): Option<State> {
    match e
    case Enqueue(id, job) =>
      if id in s.rows || job.kind.Delegated? then None
      else Some(s.(rows := InsertQueued(s.rows, id, job)))
    case EditPending(id, edit) =>
      if id in s.rows && InQueue(s.rows[id], s.rows[id].worker) && id in Queue(s.rows, s.rows[id].worker)
      then Some(s.(rows := Moved(s.rows, id, edit))) else None
    case Report(id, job) =>
      if job.kind.Delegated? && !job.queueManaged && (id in s.rows ==> s.rows[id].kind.Delegated?)
      then Some(s.(rows := s.rows[id := job])) else None
    case Call(a, w, op) =>
      if s.Point(a).Idle? && OpAllowed(s, op) then Some(s.At(a, Waiting(w, op))) else None
    case BeginRecovery(a, online, order) =>
      if s.Point(a).Idle? && Lists(JM.StartingIds(s.rows, online), order) && Distinct(order)
         && (single ==> forall b :: b in s.pcs ==> !s.pcs[b].InRecovery())
      then Some(s.At(a, Looping(Visits(s.rows, order)))) else None
    case NextJob(a) =>
      (match s.Point(a)
      case Looping(todo) =>
        if todo == [] then Some(s.At(a, Idle))
        else Some(s.At(a, Waiting(todo[0].0, Recover(todo[0].1, todo[1..]))))
      case _ => None)
    case Acquire(a) =>
      (match s.Point(a)
      case Waiting(w, op) => if s.LockFree(w) then Some(s.At(a, Entered(w, op))) else None
      case _ => None)
    case Read(a) =>
      (match s.Point(a)
      case Entered(w, op) => Some(ReadStep(s, a, w, op))
      case _ => None)
    case Choose(a) =>
      (match s.Point(a)
      case Counted(w, available, taken) => Some(ChooseStep(s, a, w, available, taken))
      case _ => None)
    case Claim(a, now) =>
      (match s.Point(a)
      case Chosen(w, id, gpus, available) =>
        if Claimable(s.rows, id, gpus, w) then
          var claimed := JobTable.Claim(s.rows, id, gpus, now);
          Some(State(claimed, s.pcs[a := Launching(w, id, claimed[id], Some(available))]))
        else Some(s.At(a, Entered(w, Dispatch(available))))
      case _ => None)
    case Launched(a, returnCode, now) =>
      (match s.Point(a)
      case Launching(_, _, _, _) => Some(LaunchedStep(s, a, s.Point(a), returnCode, now))
      case _ => None)
    case Cancel(a, now) =>
      (match s.Point(a)
      case Cancelling(w, id) =>
        if id in s.rows && InQueue(s.rows[id], s.rows[id].worker)
        then Some(State(FailPending(s.rows, id, now), s.pcs[a := Idle]))
        else Some(s.At(a, Idle))
      case _ => None)
    case Killed(a, ok) =>
      (match s.Point(a)
      case Killing(w, id) => Some(s.At(a, if ok then Rereading(w, id) else Idle))
      case _ => None)
    case Reread(a, now) =>
      (match s.Point(a)
      case Rereading(w, id) =>
        if id in s.rows && s.rows[id].Live()
        then Some(s.At(a, Writing(w, id, s.rows[id], MarkFailed(s.rows[id], now), None)))
        else Some(s.At(a, Idle))
      case _ => None)
    case Polled(a, exitCode, now) =>
      (match s.Point(a)
      case Polling(w, id, read) =>
        if exitCode.None? then Some(s.At(a, Idle))
        else Some(s.At(a, Writing(w, id, read, Finished(read, exitCode.value, now), None)))
      case _ => None)
    case Probed(a, answer) =>
      (match s.Point(a)
      case Probing(w, id, read, todo) =>
        if answer.None? then Some(s.At(a, Looping(todo)))
        else Some(s.At(a, Settling(w, id, read, answer.value, todo)))
      case _ => None)
    case Settle(a, now) =>
      (match s.Point(a)
      case Settling(w, id, _, observed, todo) =>
        if id in s.rows && s.rows[id].status.Starting?
        then Some(State(Reconcile(s.rows, id, observed, now), s.pcs[a := Looping(todo)]))
        else Some(s.At(a, Looping(todo)))
      case _ => None)
    case Write(a) =>
      (match s.Point(a)
      case Writing(w, id, _, next, back) =>
        Some(State(WriteBack(s.rows, id, next), s.pcs[a := After(w, back)]))
      case _ => None)
    case Abort(a) =>
      if s.Point(a).Idle? then None else Some(s.At(a, Idle))
    case JobFails(a) =>
      (match s.Point(a)
      case Entered(_, Recover(_, todo)) => Some(s.At(a, Looping(todo)))
      case Probing(_, _, _, todo) => Some(s.At(a, Looping(todo)))
      case Settling(_, _, _, _, todo) => Some(s.At(a, Looping(todo)))
      case _ => None)
  }

  /** Callers name jobs they have read from the table; ids are never reused, and the recovery loop
      is the only caller of reconcile_starting_job. */
  predicate OpAllowed(s: State, op: Op) {
    match op
    case Start(id, _, _) => id !in s.rows
    case Dispatch(available) => forall i, j :: 0 <= i < j < |available| ==> available[i] < available[j]
    case Stop(id) => id in s.rows
    case Refresh(id) => id in s.rows
    case Recover(_, _) => false
  }

  function Visits(t: Table, order: seq<JobId>): (todo: Todo)
    ensures |todo| == |order|
    ensures forall i :: 0 <= i < |order| ==>
              todo[i].1 == order[i] && (order[i] in t ==> todo[i].0 == t[order[i]].worker)
  {
    if order == [] then []
    else [(if order[0] in t then t[order[0]].worker else 0, order[0])] + Visits(t, order[1..])
  }

  // ---------------------------------------------------------------- the invariant

  /** The stored row of an SSH job is the row this coroutine last read. */
  ghost predicate Current(t: Table, id: JobId, read: Job) {
    && id in t && t[id].kind == read.kind
    && (read.kind.Ssh? ==> t[id] == read)
    && (read.kind.Delegated? ==> !read.queueManaged)
  }

  /** An SSH job on worker `w` that is no longer waiting in a queue. */
  ghost predicate Pinned(t: Table, id: JobId, w: WorkerId) {
    id in t && (t[id].kind.Ssh? ==> t[id].worker == w && !t[id].status.Pending?)
  }

  predicate Legal(before: Status, after: Status) {
    || before == after
    || (before.Pending? && (after.Starting? || after.Failed?))
    || (before.Starting? && (after.Running? || after.Failed? || after.Pending?))
    || (before.Running? && (after.Done? || after.Failed?))
  }

  /** A write-back settles the row it read and changes nothing but its outcome. */
  predicate Settles(read: Job, next: Job) {
    && next == read.(status := next.status, exitCode := next.exitCode, finishedAt := next.finishedAt)
    && (read.kind.Ssh? ==>
          || (read.status.Starting? && (next.status.Running? || next.status.Failed?))
          || (read.status.Running? && (next.status.Done? || next.status.Failed?)))
  }

  ghost predicate PcOk(t: Table, pc: Pc) {
    match pc
    case Entered(w, Stop(id)) => id in t
    case Waiting(w, Stop(id)) => id in t
    case Entered(w, Dispatch(available)) => JM.Increasing(available)
    case Waiting(w, Dispatch(available)) => JM.Increasing(available)
    case Counted(w, available, taken) => JM.Increasing(available)
    case Chosen(w, id, gpus, available) => JM.Increasing(available) && Distinct(gpus)
    case Launching(w, id, read, back) =>
      && Current(t, id, read) && read.kind.Ssh? && read.status.Starting? && read.worker == w
      && (back.Some? ==> JM.Increasing(back.value))
    case Killing(w, id) => Pinned(t, id, w)
    case Rereading(w, id) => Pinned(t, id, w)
    case Polling(w, id, read) =>
      Current(t, id, read) && (read.kind.Ssh? ==> read.worker == w && read.status.Running?)
    case Probing(w, id, read, _) =>
      Current(t, id, read) && (read.kind.Ssh? ==> read.worker == w && read.status.Starting?)
    case Settling(w, id, read, _, _) =>
      Current(t, id, read) && (read.kind.Ssh? ==> read.worker == w && read.status.Starting?)
    case Writing(w, id, read, next, back) =>
      && Current(t, id, read) && Settles(read, next)
      && (read.kind.Ssh? ==> read.worker == w)
      && (back.Some? ==> JM.Increasing(back.value))
    case _ => true
  }

  /** SSH rows wait only in queues; delegated rows never do. */
  ghost predicate KindOk(job: Job) {
    && (job.kind.Ssh? && job.status.Pending? ==> job.queueManaged)
    && (job.kind.Delegated? ==> !job.queueManaged)
  }

  ghost predicate TableOk(t: Table) {
    WellOrdered(t) && Exclusive(t) && forall id :: id in t ==> KindOk(t[id])
  }

  ghost predicate LocksOk(s: State) {
    forall a, b :: a in s.pcs && b in s.pcs && a != b && s.pcs[a].Lock().Some? ==> s.pcs[a].Lock() != s.pcs[b].Lock()
  }

  ghost predicate Inv(s: State) {
    && TableOk(s.rows)
    && LocksOk(s)
    && forall a :: a in s.pcs ==> PcOk(s.rows, s.pcs[a])
  }

  // ---------------------------------------------------------------- what one event may touch

  /** Between `t` and `t'` only jobs of worker `lock`, waiting SSH jobs, delegated jobs and new
      jobs may have changed. */
  ghost predicate Quiet(t: Table, t': Table, lock: Option<WorkerId>) {
    && t.Keys <= t'.Keys
    && (forall id :: id in t ==> t'[id].kind == t[id].kind)
    && (forall id :: id in t && t[id].kind.Ssh? && !t[id].status.Pending? && lock != Some(t[id].worker)
                     ==> t'[id] == t[id])
  }

  /** Every SSH job moves along its life cycle, a finished one never changes again, only a waiting
      one changes worker, and only `requeued` goes back to its queue. */
  ghost predicate LegalMove(t: Table, t': Table, requeued: Option<JobId>) {
    && t.Keys <= t'.Keys
    && (forall id :: id in t ==> t'[id].kind == t[id].kind)
    && forall id :: id in t && t[id].kind.Ssh? ==>
         && Legal(t[id].status, t'[id].status)
         && (t[id].status.Done? || t[id].status.Failed? ==> t'[id] == t[id])
         && (!t[id].status.Pending? ==> t'[id].worker == t[id].worker)
         && (!t[id].status.Pending? && t'[id].status.Pending? ==> requeued == Some(id))
  }

  ghost predicate Good(t: Table, t': Table, lock: Option<WorkerId>, requeued: Option<JobId>) {
    TableOk(t') && Quiet(t, t', lock) && LegalMove(t, t', requeued)
  }

  lemma OthersOk(t: Table, t': Table, pc: Pc, lock: Option<WorkerId>)
    requires PcOk(t, pc) && Quiet(t, t', lock)
    requires pc.Lock().Some? ==> pc.Lock() != lock
    ensures PcOk(t', pc)
  {
  }

  lemma EnqueueOk(t: Table, id: JobId, job: Job)
    requires TableOk(t) && id !in t && job.kind.Ssh?
    ensures Good(t, InsertQueued(t, id, job), None, None)
  {
    InsertAppends(t, id, job, 0);
    InsertKeepsExclusive(t, id, InsertQueued(t, id, job)[id]);
  }

  lemma EditOk(t: Table, id: JobId, e: Edit)
    requires TableOk(t) && id in t && InQueue(t[id], t[id].worker)
    ensures id in Queue(t, t[id].worker) && Good(t, Moved(t, id, e), None, None)
  {
    hide Moved, Queue, WellOrdered, Exclusive;
    UpdateWellOrdered(t, id, e);
    UpdateKeepsExclusive(t, id, e);
    MovedKeys(t, id, e);
    forall x | x in t
      ensures Renumbered(t[id := EditRow(t[id], e)], Moved(t, id, e), x)
      ensures !t[x].status.Pending? ==> Moved(t, id, e)[x] == t[x]
    {
      MovedRow(t, id, e, x);
    }
  }

  lemma PlainRowOk(t: Table, id: JobId, job: Job)
    requires TableOk(t) && !job.queueManaged && (id in t ==> !t[id].queueManaged) && KindOk(job)
    ensures TableOk(t[id := job])
  {
    var t' := t[id := job];
    forall w ensures OrderedAt(t', w) {
      assert OrderedAt(t, w);
      assert QueueIds(t', w) == QueueIds(t, w);
    }
    if id in t {
      SettleKeepsExclusive(t, id, job);
    } else {
      InsertKeepsExclusive(t, id, job);
    }
  }

  lemma ClaimOk(t: Table, id: JobId, gpus: seq<nat>, now: int, w: WorkerId, lock: Option<WorkerId>)
    requires TableOk(t) && Claimable(t, id, gpus, w) && Distinct(gpus)
    ensures Good(t, JobTable.Claim(t, id, gpus, now), lock, None)
  {
    ClaimPops(t, id, gpus, now, w, w);
    ClaimKeepsExclusive(t, id, gpus, now, w);
  }

  lemma CancelOk(t: Table, id: JobId, now: int, lock: Option<WorkerId>)
    requires TableOk(t) && id in t && InQueue(t[id], t[id].worker)
    ensures Good(t, FailPending(t, id, now), lock, None)
  {
    hide FailPending, Queue, WellOrdered, Exclusive;
    FailRemoves(t, id, now, 0);
    FailKeepsExclusive(t, id, now);
    FailKeys(t, id, now);
    forall x | x in t
      ensures Renumbered(t[id := MarkFailed(t[id], now).(queueOrder := 0)], FailPending(t, id, now), x)
      ensures !t[x].status.Pending? ==> FailPending(t, id, now)[x] == t[x]
      ensures x == id ==> FailPending(t, id, now)[x] == MarkFailed(t[id], now).(queueOrder := 0)
    {
      FailRow(t, id, now, x);
    }
  }

  /** What recovery may do to the row it settles. */
  predicate SettledRow(job: Job, job': Job) {
    && job'.kind == job.kind && job'.worker == job.worker && job'.queueManaged == job.queueManaged
    && (job'.status.Running? || job'.status.Failed? || (job'.status.Pending? && job.queueManaged))
    && (job'.Active() ==> job'.gpuIndices == job.gpuIndices)
  }

  lemma ReconcileKeys(t: Table, id: JobId, observed: bool, now: int)
    requires id in t && t[id].status.Starting?
    ensures Reconcile(t, id, observed, now).Keys == t.Keys
  {
  }

  lemma ReconcileRow(t: Table, id: JobId, observed: bool, now: int, x: JobId)
    requires id in t && t[id].status.Starting? && x in t
    ensures x in Reconcile(t, id, observed, now)
    ensures x != id ==> Renumbered(t, Reconcile(t, id, observed, now), x)
    ensures x != id && !t[x].status.Pending? ==> Reconcile(t, id, observed, now)[x] == t[x]
    ensures x == id ==> SettledRow(t[id], Reconcile(t, id, observed, now)[id])
  {
  }

  lemma SettleOk(t: Table, id: JobId, observed: bool, now: int, lock: Option<WorkerId>)
    requires TableOk(t) && id in t && t[id].status.Starting?
    requires t[id].kind.Ssh? ==> lock == Some(t[id].worker)
    ensures Good(t, Reconcile(t, id, observed, now), lock, Some(id))
  {
    hide WellOrdered, Exclusive, Queue, Reconcile;
    ReconcileQueue(t, id, observed, now, 0);
    ReconcileKeepsExclusive(t, id, observed, now);
    ReconcileKeys(t, id, observed, now);
    forall x | x in t
      ensures x != id ==> Renumbered(t, Reconcile(t, id, observed, now), x)
      ensures x != id && !t[x].status.Pending? ==> Reconcile(t, id, observed, now)[x] == t[x]
      ensures x == id ==> SettledRow(t[id], Reconcile(t, id, observed, now)[id])
    {
      ReconcileRow(t, id, observed, now, x);
    }
  }

  lemma WriteOk(t: Table, id: JobId, read: Job, next: Job, lock: Option<WorkerId>)
    requires TableOk(t) && Current(t, id, read) && Settles(read, next)
    requires read.kind.Ssh? ==> lock == Some(read.worker)
    ensures Good(t, WriteBack(t, id, next), lock, None)
  {
    if read.kind.Delegated? {
      PlainRowOk(t, id, next);
    } else {
      WriteBackQueue(t, id, next, 0);
      SettleKeepsExclusive(t, id, next);
    }
  }

  // ---------------------------------------------------------------- one event

  /** One actor's event keeps the invariant if it keeps the table, its own point and the locks. */
  lemma ActorMove(s: State, s': State, a: Actor, pc: Pc, requeued: Option<JobId>)
    requires Inv(s) && s'.pcs == s.pcs[a := pc]
    requires Good(s.rows, s'.rows, s.Point(a).Lock(), requeued)
    requires PcOk(s'.rows, pc)
    requires pc.Lock().None? || pc.Lock() == s.Point(a).Lock() || s.LockFree(pc.Lock().value)
    ensures Inv(s')
  {
    hide TableOk, Quiet, LegalMove, PcOk;
    forall b | b in s'.pcs ensures PcOk(s'.rows, s'.pcs[b]) {
      if b != a {
        assert s.pcs[b].Lock().Some? ==> s.pcs[b].Lock() != s.Point(a).Lock() by {
          if a in s.pcs {
            assert b in s.pcs;
          }
        }
        OthersOk(s.rows, s'.rows, s.pcs[b], s.Point(a).Lock());
      }
    }
    forall x, y | x in s'.pcs && y in s'.pcs && x != y && s'.pcs[x].Lock().Some?
      ensures s'.pcs[x].Lock() != s'.pcs[y].Lock()
    {
      assert x != a ==> x in s.pcs;
      assert y != a ==> y in s.pcs;
    }
  }

  lemma StillGood(t: Table, lock: Option<WorkerId>, requeued: Option<JobId>)
    requires TableOk(t)
    ensures Good(t, t, lock, requeued)
  {
  }

  lemma TableMove(s: State, t': Table)
    requires Inv(s) && Good(s.rows, t', None, None)
    ensures Inv(s.(rows := t'))
  {
    hide TableOk, LegalMove, PcOk, Quiet;
    forall b | b in s.pcs ensures PcOk(t', s.pcs[b]) {
      OthersOk(s.rows, t', s.pcs[b], None);
    }
  }

  /** The recovery loop reads a job that is starting on the worker whose lock it holds. */
  predicate Guarded(s: State, e: Event) {
    e.Read? ==>
      match s.Point(e.a)
      case Entered(w, Recover(id, _)) =>
        id in s.rows && s.rows[id].kind.Ssh? && s.rows[id].status.Starting? ==> s.rows[id].worker == w
      case _ => true
  }

  /** What ActorMove needs of an event that takes actor `a` from `s` to `s'`. */
  ghost predicate MoveOk(s: State, s': State, a: Actor) {
    && Good(s.rows, s'.rows, s.Point(a).Lock(), None)
    && PcOk(s'.rows, s'.Point(a))
    && s'.pcs == s.pcs[a := s'.Point(a)]
    && (s'.Point(a).Lock().None? || s'.Point(a).Lock() == s.Point(a).Lock())
  }

  lemma ReadStart(s: State, a: Actor)
    requires Inv(s) && s.Point(a).Entered? && s.Point(a).op.Start?
    ensures MoveOk(s, ReadStep(s, a, s.Point(a).w, s.Point(a).op), a)
  {
    var w, op := s.Point(a).w, s.Point(a).op;
    StillGood(s.rows, Some(w), None);
    if op.id !in s.rows {
      PlainRowOk(s.rows, op.id, StartRow(w, op.name, op.now));
    }
    hide WellOrdered, Exclusive, Queue;
  }

  lemma ReadStop(s: State, a: Actor)
    requires Inv(s) && s.Point(a).Entered? && s.Point(a).op.Stop?
    ensures MoveOk(s, ReadStep(s, a, s.Point(a).w, s.Point(a).op), a)
  {
    StillGood(s.rows, s.Point(a).Lock(), None);
    hide WellOrdered, Exclusive, Queue, Good, Indices;
  }

  lemma ReadRefresh(s: State, a: Actor)
    requires Inv(s) && s.Point(a).Entered? && s.Point(a).op.Refresh?
    ensures MoveOk(s, ReadStep(s, a, s.Point(a).w, s.Point(a).op), a)
  {
    StillGood(s.rows, s.Point(a).Lock(), None);
    hide WellOrdered, Exclusive, Queue, Good, Indices;
  }

  lemma ReadOther(s: State, e: Event)
    requires Inv(s) && e.Read? && s.Point(e.a).Entered? && Guarded(s, e)
    requires s.Point(e.a).op.Dispatch? || s.Point(e.a).op.Recover?
    ensures MoveOk(s, ReadStep(s, e.a, s.Point(e.a).w, s.Point(e.a).op), e.a)
  {
    StillGood(s.rows, s.Point(e.a).Lock(), None);
    hide WellOrdered, Exclusive, Queue, Good, Indices;
    assert e.a in s.pcs;
  }

  lemma ReadPoint(s: State, e: Event)
    requires Inv(s) && e.Read? && s.Point(e.a).Entered? && Guarded(s, e)
    ensures MoveOk(s, ReadStep(s, e.a, s.Point(e.a).w, s.Point(e.a).op), e.a)
  {
    hide MoveOk, ReadStep, Inv;
    match s.Point(e.a).op
    case Start(_, _, _) => ReadStart(s, e.a);
    case Stop(_) => ReadStop(s, e.a);
    case Refresh(_) => ReadRefresh(s, e.a);
    case _ => ReadOther(s, e);
  }

  lemma ReadKeeps(s: State, e: Event)
    requires Inv(s) && e.Read? && s.Point(e.a).Entered? && Guarded(s, e)
    ensures var s' := ReadStep(s, e.a, s.Point(e.a).w, s.Point(e.a).op);
            Inv(s') && LegalMove(s.rows, s'.rows, None)
  {
    hide ReadStep, PcOk, Quiet, TableOk, Guarded;
    var s' := ReadStep(s, e.a, s.Point(e.a).w, s.Point(e.a).op);
    ReadPoint(s, e);
    ActorMove(s, s', e.a, s'.Point(e.a), None);
  }

  lemma ChooseKeeps(s: State, a: Actor)
    requires Inv(s) && s.Point(a).Counted?
    ensures var s' := ChooseStep(s, a, s.Point(a).w, s.Point(a).available, s.Point(a).taken);
            Inv(s') && LegalMove(s.rows, s'.rows, None)
  {
    hide Queue, WellOrdered, Exclusive;
    var pc := s.Point(a);
    var s' := ChooseStep(s, a, pc.w, pc.available, pc.taken);
    JM.ExcludeIncreasing(pc.available, pc.taken);
    StillGood(s.rows, pc.Lock(), None);
    ActorMove(s, s', a, s'.pcs[a], None);
  }

  lemma ClaimKeeps(s: State, a: Actor, now: int)
    requires Inv(s) && s.Point(a).Chosen?
    ensures var s' := Next(s, Claim(a, now), true).value;
            Inv(s') && LegalMove(s.rows, s'.rows, None)
  {
    hide Queue, WellOrdered, Exclusive;
    var pc := s.Point(a);
    var s' := Next(s, Claim(a, now), true).value;
    StillGood(s.rows, pc.Lock(), None);
    if Claimable(s.rows, pc.id, pc.gpus, pc.w) {
      ClaimOk(s.rows, pc.id, pc.gpus, now, pc.w, pc.Lock());
    }
    ActorMove(s, s', a, s'.pcs[a], None);
  }

  lemma LaunchedKeeps(s: State, a: Actor, returnCode: int, now: int)
    requires Inv(s) && s.Point(a).Launching?
    ensures var s' := LaunchedStep(s, a, s.Point(a), returnCode, now);
            Inv(s') && LegalMove(s.rows, s'.rows, None)
  {
    hide Queue, WellOrdered, Exclusive;
    var s' := LaunchedStep(s, a, s.Point(a), returnCode, now);
    StillGood(s.rows, s.Point(a).Lock(), None);
    ActorMove(s, s', a, s'.pcs[a], None);
  }

  lemma CancelKeeps(s: State, a: Actor, now: int)
    requires Inv(s) && s.Point(a).Cancelling?
    ensures var s' := Next(s, Cancel(a, now), true).value;
            Inv(s') && LegalMove(s.rows, s'.rows, None)
  {
    hide Queue, WellOrdered, Exclusive, FailPending;
    var pc := s.Point(a);
    var s' := Next(s, Cancel(a, now), true).value;
    StillGood(s.rows, pc.Lock(), None);
    if pc.id in s.rows && InQueue(s.rows[pc.id], s.rows[pc.id].worker) {
      CancelOk(s.rows, pc.id, now, pc.Lock());
    }
    ActorMove(s, s', a, Idle, None);
  }

  lemma SettleKeeps(s: State, a: Actor, now: int)
    requires Inv(s) && s.Point(a).Settling?
    ensures var s' := Next(s, Settle(a, now), true).value;
            Inv(s') && LegalMove(s.rows, s'.rows, Some(s.Point(a).id))
  {
    hide Queue, WellOrdered, Exclusive, Reconcile;
    var pc := s.Point(a);
    var s' := Next(s, Settle(a, now), true).value;
    assert PcOk(s.rows, pc);
    StillGood(s.rows, pc.Lock(), Some(pc.id));
    if pc.id in s.rows && s.rows[pc.id].status.Starting? {
      SettleOk(s.rows, pc.id, pc.observed, now, pc.Lock());
    }
    assert LegalMove(s.rows, s'.rows, Some(pc.id));
    hide TableOk, Quiet, LegalMove, LocksOk, Good, Current;
    ActorMove(s, s', a, Looping(pc.todo), Some(pc.id));
  }

  lemma WriteKeeps(s: State, a: Actor)
    requires Inv(s) && s.Point(a).Writing?
    ensures var s' := Next(s, Write(a), true).value;
            Inv(s') && LegalMove(s.rows, s'.rows, None)
  {
    hide Queue, WellOrdered, Exclusive;
    var pc := s.Point(a);
    var s' := Next(s, Write(a), true).value;
    assert PcOk(s.rows, pc);
    WriteOk(s.rows, pc.id, pc.read, pc.next, pc.Lock());
    ActorMove(s, s', a, After(pc.w, pc.back), None);
  }

  lemma CallKeeps(s: State, e: Event, single: bool)
    requires Inv(s) && Next(s, e, single).Some? && (e.Call? || e.BeginRecovery? || e.NextJob? || e.Acquire?)
    ensures Inv(Next(s, e, single).value) && Next(s, e, single).value.rows == s.rows
  {
    hide Queue, WellOrdered, Exclusive;
    var s' := Next(s, e, single).value;
    StillGood(s.rows, s.Point(e.a).Lock(), None);
    assert e.a in s.pcs ==> PcOk(s.rows, s.pcs[e.a]);
    hide TableOk, Quiet, LegalMove;
    ActorMove(s, s', e.a, s'.Point(e.a), None);
  }

  lemma KilledKeeps(s: State, e: Event, single: bool)
    requires Inv(s) && Next(s, e, single).Some? && e.Killed?
    ensures Inv(Next(s, e, single).value) && Next(s, e, single).value.rows == s.rows
  {
    hide Queue, WellOrdered, Exclusive;
    var s' := Next(s, e, single).value;
    StillGood(s.rows, s.Point(e.a).Lock(), None);
    assert PcOk(s.rows, s.pcs[e.a]);
    hide TableOk, Quiet, LegalMove, Good, LocksOk;
    ActorMove(s, s', e.a, s'.Point(e.a), None);
  }

  lemma RereadKeeps(s: State, e: Event, single: bool)
    requires Inv(s) && Next(s, e, single).Some? && e.Reread?
    ensures Inv(Next(s, e, single).value) && Next(s, e, single).value.rows == s.rows
  {
    hide Queue, WellOrdered, Exclusive;
    var s' := Next(s, e, single).value;
    StillGood(s.rows, s.Point(e.a).Lock(), None);
    assert PcOk(s.rows, s.pcs[e.a]);
    assert forall id :: id in s.rows ==> KindOk(s.rows[id]);
    hide TableOk, Quiet, LegalMove, Good, LocksOk;
    ActorMove(s, s', e.a, s'.Point(e.a), None);
  }

  lemma AbortKeeps(s: State, e: Event, single: bool)
    requires Inv(s) && Next(s, e, single).Some? && (e.Abort? || e.JobFails?)
    ensures Inv(Next(s, e, single).value) && Next(s, e, single).value.rows == s.rows
  {
    hide Queue, WellOrdered, Exclusive;
    var s' := Next(s, e, single).value;
    StillGood(s.rows, s.Point(e.a).Lock(), None);
    hide TableOk, Quiet, LegalMove;
    ActorMove(s, s', e.a, s'.Point(e.a), None);
  }

  lemma PolledKeeps(s: State, e: Event, single: bool)
    requires Inv(s) && Next(s, e, single).Some? && e.Polled?
    ensures Inv(Next(s, e, single).value) && Next(s, e, single).value.rows == s.rows
  {
    hide Queue, WellOrdered, Exclusive;
    var s' := Next(s, e, single).value;
    StillGood(s.rows, s.Point(e.a).Lock(), None);
    assert PcOk(s.rows, s.pcs[e.a]);
    hide TableOk, Quiet, LegalMove, Good, LocksOk;
    ActorMove(s, s', e.a, s'.Point(e.a), None);
  }

  lemma ProbedKeeps(s: State, e: Event, single: bool)
    requires Inv(s) && Next(s, e, single).Some? && e.Probed?
    ensures Inv(Next(s, e, single).value) && Next(s, e, single).value.rows == s.rows
  {
    hide Queue, WellOrdered, Exclusive;
    var s' := Next(s, e, single).value;
    StillGood(s.rows, s.Point(e.a).Lock(), None);
    assert PcOk(s.rows, s.pcs[e.a]);
    hide TableOk, Quiet, LegalMove, Good, LocksOk;
    ActorMove(s, s', e.a, s'.Point(e.a), None);
  }

  /** The job an event may send back to its queue. */
  function Requeued(s: State, e: Event): Option<JobId> {
    if e.Settle? && s.Point(e.a).Settling? then Some(s.Point(e.a).id) else None
  }

  /** Every event of every coroutine keeps the invariant and moves each SSH job only along its life
      cycle, provided recovery reads are guarded. */
  lemma StepKeeps(s: State, e: Event, single: bool)
    requires Inv(s) && Next(s, e, single).Some? && Guarded(s, e)
    ensures Inv(Next(s, e, single).value)
    ensures LegalMove(s.rows, Next(s, e, single).value.rows, Requeued(s, e))
  {
    hide Inv, LegalMove, ReadStep, ChooseStep, LaunchedStep, Queue, Guarded;
    hide Moved, InsertQueued, Reconcile, FailPending;
    match e
    case Enqueue(id, job) => QueueCallKeeps(s, e, single);
    case EditPending(id, edit) => QueueCallKeeps(s, e, single);
    case Report(id, job) =>
      ReportKeeps(s, id, job);
    case Read(a) => ReadKeeps(s, e);
    case Choose(a) => ChooseKeeps(s, a);
    case Claim(a, now) => ClaimKeeps(s, a, now);
    case Launched(a, returnCode, now) => LaunchedKeeps(s, a, returnCode, now);
    case Cancel(a, now) => CancelKeeps(s, a, now);
    case Settle(a, now) => SettleKeeps(s, a, now);
    case Write(a) => WriteKeeps(s, a);
    case _ =>
      if e.Call? || e.BeginRecovery? || e.NextJob? || e.Acquire? {
        CallKeeps(s, e, single);
      } else if e.Killed? {
        KilledKeeps(s, e, single);
      } else if e.Reread? {
        RereadKeeps(s, e, single);
      } else if e.Polled? {
        PolledKeeps(s, e, single);
      } else if e.Probed? {
        ProbedKeeps(s, e, single);
      } else {
        AbortKeeps(s, e, single);
      }
      assert TableOk(s.rows) by { InvTable(s); }
      StillGood(s.rows, None, Requeued(s, e));
  }

  lemma QueueCallKeeps(s: State, e: Event, single: bool)
    requires Inv(s) && Next(s, e, single).Some? && (e.Enqueue? || e.EditPending?)
    ensures Inv(Next(s, e, single).value)
    ensures LegalMove(s.rows, Next(s, e, single).value.rows, None)
  {
    hide Inv, LegalMove, Queue, Moved, InsertQueued;
    InvTable(s);
    if e.Enqueue? {
      EnqueueOk(s.rows, e.id, e.job);
      TableMove(s, InsertQueued(s.rows, e.id, e.job));
    } else {
      EditOk(s.rows, e.id, e.e);
      TableMove(s, Moved(s.rows, e.id, e.e));
    }
  }

  lemma InvTable(s: State)
    requires Inv(s)
    ensures TableOk(s.rows)
  {
  }

  lemma ReportKeeps(s: State, id: JobId, job: Job)
    requires Inv(s) && job.kind.Delegated? && !job.queueManaged && (id in s.rows ==> s.rows[id].kind.Delegated?)
    ensures Inv(s.(rows := s.rows[id := job])) && LegalMove(s.rows, s.rows[id := job], None)
  {
    PlainRowOk(s.rows, id, job);
    hide TableOk;
    TableMove(s, s.rows[id := job]);
  }

  // ---------------------------------------------------------------- one recovery loop at a time

  /** Every job still on a recovery agenda sits on its listed worker and is not pending. */
  ghost predicate AgendaOk(t: Table, todo: Todo) {
    && (forall i :: 0 <= i < |todo| ==>
          var id := todo[i].1;
          id in t && t[id].kind.Ssh? && t[id].worker == todo[i].0 && !t[id].status.Pending?)
    && (forall i, j :: 0 <= i < j < |todo| ==> todo[i].1 != todo[j].1)
  }

  ghost predicate OneRecovery(s: State) {
    && (forall a, b :: a in s.pcs && b in s.pcs && s.pcs[a].InRecovery() && s.pcs[b].InRecovery() ==> a == b)
    && (forall a :: a in s.pcs ==> AgendaOk(s.rows, s.pcs[a].Agenda()))
  }

  lemma OneRecoveryGuards(s: State, e: Event)
    requires Inv(s) && OneRecovery(s)
    ensures Guarded(s, e)
  {
    hide Inv;
    if e.Read? && s.Point(e.a).Entered? && s.Point(e.a).op.Recover? {
      assert e.a in s.pcs;
      var todo := s.pcs[e.a].Agenda();
      assert todo[0] == (s.Point(e.a).w, s.Point(e.a).op.id);
      assert AgendaOk(s.rows, todo);
    }
  }

  lemma AgendaFrame(t: Table, t': Table, todo: Todo, requeued: Option<JobId>)
    requires AgendaOk(t, todo) && LegalMove(t, t', requeued)
    requires forall i :: 0 <= i < |todo| ==> requeued != Some(todo[i].1)
    ensures AgendaOk(t', todo)
  {
  }

  predicate HasActor(e: Event) {
    !e.Enqueue? && !e.EditPending? && !e.Report?
  }

  lemma OnlyActorMoves(s: State, e: Event, single: bool)
    requires Next(s, e, single).Some?
    ensures !HasActor(e) ==> Next(s, e, single).value.pcs == s.pcs
    ensures HasActor(e) ==>
              Next(s, e, single).value.pcs == s.pcs[e.a := Next(s, e, single).value.Point(e.a)]
  {
    hide Queue, Claimable, InsertQueued, Moved, FailPending, Reconcile, Indices, WriteBack;
  }

  /** A point of the recovery loop keeps the agenda or drops its first job. */
  predicate Shrinks(pc: Pc, pc': Pc, requeued: Option<JobId>) {
    if !pc'.InRecovery() then
      pc'.Agenda() == []
    else
      && pc.InRecovery()
      && (|| (pc'.Agenda() == pc.Agenda() && requeued.None?)
          || (pc.Agenda() != [] && pc'.Agenda() == pc.Agenda()[1..]
              && (requeued.Some? ==> requeued.value == pc.Agenda()[0].1)))
  }

  lemma ChooseLeavesRecovery(s: State, a: Actor)
    requires s.Point(a).Counted?
    ensures var s' := ChooseStep(s, a, s.Point(a).w, s.Point(a).available, s.Point(a).taken);
            !s'.Point(a).InRecovery() && s'.Point(a).Agenda() == []
  {
    hide Queue;
  }

  lemma AgendaShrinks(s: State, e: Event, single: bool)
    requires Next(s, e, single).Some? && HasActor(e) && !e.BeginRecovery?
    ensures Shrinks(s.Point(e.a), Next(s, e, single).value.Point(e.a), Requeued(s, e))
  {
    hide Next, Shrinks, Requeued;
    if e.Read? {
      ReadShrinks(s, e, single);
    } else if e.NextJob? || e.Acquire? || e.Probed? || e.Settle? || e.JobFails? {
      RecoveryShrinks(s, e, single);
    } else {
      OtherShrinks(s, e, single);
    }
  }

  lemma ReadShrinks(s: State, e: Event, single: bool)
    requires Next(s, e, single).Some? && e.Read?
    ensures Shrinks(s.Point(e.a), Next(s, e, single).value.Point(e.a), Requeued(s, e))
  {
    hide Queue, Claimable, InsertQueued, Moved, FailPending, Reconcile, Indices, WriteBack, ChooseStep;
    var pc := s.Point(e.a);
    if pc.Entered? && pc.op.Recover? {
      assert pc.Agenda()[1..] == pc.op.todo;
    }
  }

  lemma RecoveryShrinks(s: State, e: Event, single: bool)
    requires Next(s, e, single).Some? && (e.NextJob? || e.Acquire? || e.Probed? || e.Settle? || e.JobFails?)
    ensures Shrinks(s.Point(e.a), Next(s, e, single).value.Point(e.a), Requeued(s, e))
  {
    hide Queue, Claimable, InsertQueued, Moved, FailPending, Reconcile, Indices, WriteBack, ChooseStep, ReadStep;
    var pc := s.Point(e.a);
    if pc.Looping? && pc.todo != [] {
      assert [(pc.todo[0].0, pc.todo[0].1)] + pc.todo[1..] == pc.todo;
    }
    if pc.Probing? || pc.Settling? {
      assert pc.Agenda()[1..] == pc.todo;
    }
    if pc.Entered? && pc.op.Recover? {
      assert pc.Agenda()[1..] == pc.op.todo;
    }
  }

  lemma OtherShrinks(s: State, e: Event, single: bool)
    requires Next(s, e, single).Some? && HasActor(e) && !e.BeginRecovery? && !e.Read?
    requires !(e.NextJob? || e.Acquire? || e.Probed? || e.Settle? || e.JobFails?)
    ensures Shrinks(s.Point(e.a), Next(s, e, single).value.Point(e.a), Requeued(s, e))
  {
    hide Queue, Claimable, InsertQueued, Moved, FailPending, Reconcile, Indices, WriteBack, ChooseStep, ReadStep;
    if e.Choose? && s.Point(e.a).Counted? {
      ChooseLeavesRecovery(s, e.a);
    }
  }

  lemma NotInRecovery(pc: Pc)
    requires !pc.InRecovery()
    ensures pc.Agenda() == []
  {
  }

  lemma BeginAgenda(s: State, e: Event)
    requires Next(s, e, true).Some? && e.BeginRecovery?
    ensures AgendaOk(s.rows, Next(s, e, true).value.Point(e.a).Agenda())
    ensures Next(s, e, true).value.rows == s.rows
    ensures forall b :: b in s.pcs ==> !s.pcs[b].InRecovery()
  {
    var todo := Visits(s.rows, e.order);
    forall i | 0 <= i < |todo|
      ensures var id := todo[i].1;
              id in s.rows && s.rows[id].kind.Ssh? && s.rows[id].worker == todo[i].0 && !s.rows[id].status.Pending?
    {
      assert e.order[i] in e.order;
    }
  }

  lemma AgendaTail(t: Table, todo: Todo)
    requires AgendaOk(t, todo) && todo != []
    ensures AgendaOk(t, todo[1..]) && forall i :: 0 <= i < |todo| - 1 ==> todo[1..][i].1 != todo[0].1
  {
  }

  lemma AgendaOfActor(s: State, e: Event, s': State)
    requires OneRecovery(s) && LegalMove(s.rows, s'.rows, Requeued(s, e))
    requires HasActor(e) && Shrinks(s.Point(e.a), s'.Point(e.a), Requeued(s, e))
    ensures AgendaOk(s'.rows, s'.Point(e.a).Agenda())
  {
    hide LegalMove, AgendaOk, Requeued;
    var pc, pc' := s.Point(e.a), s'.Point(e.a);
    if pc'.InRecovery() {
      assert e.a in s.pcs && AgendaOk(s.rows, pc.Agenda());
      if pc'.Agenda() == pc.Agenda() && Requeued(s, e).None? {
        AgendaFrame(s.rows, s'.rows, pc.Agenda(), Requeued(s, e));
      } else {
        AgendaTail(s.rows, pc.Agenda());
        AgendaFrame(s.rows, s'.rows, pc.Agenda()[1..], Requeued(s, e));
      }
    } else {
      NoAgenda(s'.rows);
    }
  }

  lemma NoAgenda(t: Table)
    ensures AgendaOk(t, [])
  {
  }

  lemma AgendaOfOther(s: State, e: Event, s': State, b: Actor)
    requires OneRecovery(s) && LegalMove(s.rows, s'.rows, Requeued(s, e))
    requires b in s.pcs && b in s'.pcs && s'.pcs[b] == s.pcs[b] && (HasActor(e) ==> b != e.a)
    ensures AgendaOk(s'.rows, s'.pcs[b].Agenda())
  {
    hide LegalMove, AgendaOk;
    if s.pcs[b].InRecovery() {
      assert Requeued(s, e).None?;
      AgendaFrame(s.rows, s'.rows, s.pcs[b].Agenda(), Requeued(s, e));
    } else {
      NotInRecovery(s.pcs[b]);
      NoAgenda(s'.rows);
    }
  }

  /** With one recovery loop at a time every agenda stays truthful, so every recovery read is guarded. */
  lemma OneRecoveryStep(s: State, e: Event)
    requires Inv(s) && OneRecovery(s) && Next(s, e, true).Some?
    ensures OneRecovery(Next(s, e, true).value)
  {
    hide Inv, Next, LegalMove, AgendaOk, Requeued, Guarded;
    var s' := Next(s, e, true).value;
    OneRecoveryGuards(s, e);
    StepKeeps(s, e, true);
    OnlyActorMoves(s, e, true);
    if e.BeginRecovery? {
      BeginAgenda(s, e);
    } else if HasActor(e) {
      AgendaShrinks(s, e, true);
      AgendaOfActor(s, e, s');
    }
    forall b | b in s'.pcs && (HasActor(e) ==> b != e.a) ensures AgendaOk(s'.rows, s'.pcs[b].Agenda()) {
      AgendaOfOther(s, e, s', b);
    }
  }

  // ---------------------------------------------------------------- whole runs

  ghost function Run(s: State, es: seq<Event>, single: bool): Option<State>
    decreases |es|
  {
    if es == [] then Some(s)
    else match Next(s, es[0], single)
         case None => None
         case Some(s') => Run(s', es[1..], single)
  }

  ghost predicate Safe(s: State) {
    Inv(s) && OneRecovery(s)
  }

  lemma EmptyIsSafe()
    ensures Safe(State(map[], map[]))
  {
  }

  lemma SafeStep(s: State, e: Event)
    requires Safe(s) && Next(s, e, true).Some?
    ensures Safe(Next(s, e, true).value)
    ensures LegalMove(s.rows, Next(s, e, true).value.rows, Requeued(s, e))
  {
    hide Inv, OneRecovery, Next, LegalMove, Requeued, Guarded;
    OneRecoveryGuards(s, e);
    StepKeeps(s, e, true);
    OneRecoveryStep(s, e);
  }

  /** Every reachable state is safe: FIFO positions, exclusive reservations, current snapshots. */
  lemma {:induction false} RunSafe(s: State, es: seq<Event>)
    requires Safe(s) && Run(s, es, true).Some?
    ensures Safe(Run(s, es, true).value)
    decreases |es|
  {
    if es != [] {
      hide Safe, Next;
      SafeStep(s, es[0]);
      RunSafe(Next(s, es[0], true).value, es[1..]);
    }
  }

  /** In every run a pending full-row write is over exactly the row its writer read: no update another
      operation made to an SSH job is ever lost. */
  lemma NoLostUpdate(es: seq<Event>, a: Actor)
    requires Run(State(map[], map[]), es, true).Some?
    ensures var s := Run(State(map[], map[]), es, true).value;
            s.Point(a).Writing? && s.Point(a).read.kind.Ssh? ==>
              s.Point(a).id in s.rows && s.rows[s.Point(a).id] == s.Point(a).read
  {
    hide Run, TableOk, OneRecovery;
    EmptyIsSafe();
    RunSafe(State(map[], map[]), es);
    var s := Run(State(map[], map[]), es, true).value;
    assert a in s.pcs ==> PcOk(s.rows, s.pcs[a]);
  }

  ghost predicate AllGuarded(s: State, es: seq<Event>)
    decreases |es|
  {
    es == []
    || (Guarded(s, es[0]) && (Next(s, es[0], false).Some? ==> AllGuarded(Next(s, es[0], false).value, es[1..])))
  }

  /** Any number of overlapping recovery loops is safe too, as long as each read finds the job still
      on the worker whose lock is held. */
  lemma {:induction false} GuardedRunSafe(s: State, es: seq<Event>)
    requires Inv(s) && AllGuarded(s, es) && Run(s, es, false).Some?
    ensures Inv(Run(s, es, false).value)
    decreases |es|
  {
    if es != [] {
      hide Inv, Next, Guarded;
      StepKeeps(s, es[0], false);
      GuardedRunSafe(Next(s, es[0], false).value, es[1..]);
    }
  }

  /** DONE and FAILED are absorbing: no interleaving changes any column of a finished SSH job. */
  lemma {:induction false} FinishedForever(s: State, es: seq<Event>, id: JobId)
    requires Safe(s) && Run(s, es, true).Some?
    requires id in s.rows && s.rows[id].kind.Ssh? && (s.rows[id].status.Done? || s.rows[id].status.Failed?)
    ensures id in Run(s, es, true).value.rows && Run(s, es, true).value.rows[id] == s.rows[id]
    decreases |es|
  {
    if es != [] {
      hide Safe, Next;
      SafeStep(s, es[0]);
      FinishedForever(Next(s, es[0], true).value, es[1..], id);
    }
  }

  // ---------------------------------------------------------------- GPU capacity

  ghost predicate Below(s: seq<nat>, n: nat) {
    forall g :: g in s ==> g < n
  }

  /** Every reservation names GPUs the worker has. */
  ghost predicate Within(t: Table, gpus: WorkerId -> nat) {
    forall x :: x in t && t[x].queueManaged && t[x].Active() ==> Below(t[x].gpuIndices, gpus(t[x].worker))
  }

  ghost predicate PcWithin(pc: Pc, gpus: WorkerId -> nat) {
    match pc
    case Waiting(w, Dispatch(available)) => Below(available, gpus(w))
    case Entered(w, Dispatch(available)) => Below(available, gpus(w))
    case Counted(w, available, _) => Below(available, gpus(w))
    case Chosen(w, _, chosen, available) => Below(available, gpus(w)) && Below(chosen, gpus(w))
    case Launching(w, _, _, back) => back.Some? ==> Below(back.value, gpus(w))
    case Writing(w, _, _, _, back) => back.Some? ==> Below(back.value, gpus(w))
    case _ => true
  }

  ghost predicate Capped(s: State, gpus: WorkerId -> nat) {
    Within(s.rows, gpus) && forall a :: a in s.pcs ==> PcWithin(s.pcs[a], gpus)
  }

  /** Telemetry never names a GPU beyond the worker's count. */
  predicate CallWithin(e: Event, gpus: WorkerId -> nat) {
    e.Call? && e.op.Dispatch? ==> forall g :: g in e.op.available ==> g < gpus(e.w)
  }

  ghost predicate NoNewReservation(t: Table, t': Table) {
    forall x :: x in t' && t'[x].queueManaged && t'[x].Active() ==>
      x in t && t[x].queueManaged && t[x].Active() && t'[x].worker == t[x].worker && t'[x].gpuIndices == t[x].gpuIndices
  }

  lemma EditReserves(t: Table, id: JobId, e: Edit)
    requires id in t && InQueue(t[id], t[id].worker)
    ensures id in Queue(t, t[id].worker) && NoNewReservation(t, Moved(t, id, e))
  {
    hide Queue, Moved;
    MovedKeys(t, id, e);
    forall x | x in t ensures Renumbered(t[id := EditRow(t[id], e)], Moved(t, id, e), x) {
      MovedRow(t, id, e, x);
    }
  }

  lemma CancelReserves(t: Table, id: JobId, now: int)
    requires id in t && InQueue(t[id], t[id].worker)
    ensures NoNewReservation(t, FailPending(t, id, now))
  {
    hide Queue, FailPending;
    FailKeys(t, id, now);
    forall x | x in t
      ensures Renumbered(t[id := MarkFailed(t[id], now).(queueOrder := 0)], FailPending(t, id, now), x)
    {
      FailRow(t, id, now, x);
    }
  }

  lemma SettleReserves(t: Table, id: JobId, observed: bool, now: int)
    requires id in t && t[id].status.Starting?
    ensures NoNewReservation(t, Reconcile(t, id, observed, now))
  {
    hide Reconcile;
    ReconcileKeys(t, id, observed, now);
    forall x | x in t
      ensures x != id ==> Renumbered(t, Reconcile(t, id, observed, now), x)
      ensures x == id ==> SettledRow(t[id], Reconcile(t, id, observed, now)[id])
    {
      ReconcileRow(t, id, observed, now, x);
    }
  }

  lemma WriteReserves(t: Table, id: JobId, read: Job, next: Job)
    requires TableOk(t) && Current(t, id, read) && Settles(read, next)
    ensures NoNewReservation(t, WriteBack(t, id, next))
  {
  }

  lemma PlainReserves(t: Table, id: JobId, job: Job)
    requires !job.queueManaged || !job.Active()
    ensures NoNewReservation(t, t) && NoNewReservation(t, t[id := job])
  {
  }

  lemma OnlyClaimsReserve(s: State, e: Event, single: bool)
    requires Inv(s) && Next(s, e, single).Some? && !e.Claim?
    ensures NoNewReservation(s.rows, Next(s, e, single).value.rows)
  {
    hide TableOk, Queue, Moved, FailPending, Reconcile, Indices, NoNewReservation, WriteBack;
    PlainReserves(s.rows, 0, StartRow(0, "", 0));
    match e
    case Enqueue(id, job) => PlainReserves(s.rows, id, InsertQueued(s.rows, id, job)[id]);
    case EditPending(id, edit) => EditReserves(s.rows, id, edit);
    case Report(id, job) => PlainReserves(s.rows, id, job);
    case Read(a) =>
      if s.Point(a).op.Start? {
        PlainReserves(s.rows, s.Point(a).op.id, StartRow(s.Point(a).w, s.Point(a).op.name, s.Point(a).op.now));
      }
    case Cancel(a, now) =>
      var id := s.Point(a).id;
      if id in s.rows && InQueue(s.rows[id], s.rows[id].worker) {
        CancelReserves(s.rows, id, now);
      }
    case Settle(a, now) =>
      var id := s.Point(a).id;
      if id in s.rows && s.rows[id].status.Starting? {
        SettleReserves(s.rows, id, s.Point(a).observed, now);
      }
    case Write(a) =>
      assert PcOk(s.rows, s.Point(a));
      WriteReserves(s.rows, s.Point(a).id, s.Point(a).read, s.Point(a).next);
    case _ =>
  }

  lemma PointWithin(s: State, e: Event, gpus: WorkerId -> nat)
    requires Next(s, e, true).Some? && HasActor(e) && PcWithin(s.Point(e.a), gpus) && CallWithin(e, gpus)
    ensures PcWithin(Next(s, e, true).value.Point(e.a), gpus)
  {
    hide Queue, Claimable, InsertQueued, Moved, FailPending, Reconcile, Indices, WriteBack;
    var pc, pc' := s.Point(e.a), Next(s, e, true).value.Point(e.a);
    if e.Choose? && pc'.Chosen? {
      var free := JM.Exclude(pc.available, pc.taken);
      assert pc'.gpus <= free;
      forall g | g in pc'.gpus ensures g < gpus(pc'.w) {
        assert g in free;
      }
    }
  }

  lemma CappedStep(s: State, e: Event, gpus: WorkerId -> nat)
    requires Inv(s) && Capped(s, gpus) && Next(s, e, true).Some? && CallWithin(e, gpus)
    ensures Capped(Next(s, e, true).value, gpus)
  {
    hide Inv, PcWithin, CallWithin;
    var s' := Next(s, e, true).value;
    OnlyActorMoves(s, e, true);
    if HasActor(e) {
      IdleWithin(gpus);
      PointWithin(s, e, gpus);
    }
    if e.Claim? {
      ClaimWithin(s, e, gpus);
    } else {
      OnlyClaimsReserve(s, e, true);
    }
    hide Next;
  }

  lemma IdleWithin(gpus: WorkerId -> nat)
    ensures PcWithin(Idle, gpus)
  {
  }

  lemma ClaimWithin(s: State, e: Event, gpus: WorkerId -> nat)
    requires Capped(s, gpus) && Next(s, e, true).Some? && e.Claim?
    ensures Within(Next(s, e, true).value.rows, gpus)
  {
    hide Queue, Indices;
    var pc := s.Point(e.a);
    assert e.a in s.pcs && PcWithin(pc, gpus);
    var t' := Next(s, e, true).value.rows;
    forall x | x in t' && t'[x].queueManaged && t'[x].Active() ensures Below(t'[x].gpuIndices, gpus(t'[x].worker)) {
      if x == pc.id && Claimable(s.rows, pc.id, pc.gpus, pc.w) {
        assert t'[x].gpuIndices == pc.gpus && t'[x].worker == pc.w;
      } else {
        assert t'[x] == s.rows[x];
      }
    }
  }

  lemma {:induction false} RunCapped(s: State, es: seq<Event>, gpus: WorkerId -> nat)
    requires Safe(s) && Capped(s, gpus) && Run(s, es, true).Some?
    requires forall e :: e in es ==> CallWithin(e, gpus)
    ensures Capped(Run(s, es, true).value, gpus)
    decreases |es|
  {
    if es != [] {
      hide Inv, OneRecovery, Next, CallWithin, Capped;
      assert es[0] in es;
      SafeStep(s, es[0]);
      CappedStep(s, es[0], gpus);
      RunCapped(Next(s, es[0], true).value, es[1..], gpus);
    }
  }

  /** At every point of every run the active jobs of a worker hold disjoint GPUs, and together they
      never ask for more than the worker has. */
  lemma RunFitsGpus(es: seq<Event>, gpus: WorkerId -> nat, w: WorkerId, ids: seq<JobId>)
    requires Run(State(map[], map[]), es, true).Some? && forall e :: e in es ==> CallWithin(e, gpus)
    requires Distinct(ids) && forall x :: x in ids ==> Holds(Run(State(map[], map[]), es, true).value.rows, x, w)
    ensures Exclusive(Run(State(map[], map[]), es, true).value.rows)
    ensures Total(Run(State(map[], map[]), es, true).value.rows, ids) <= gpus(w)
  {
    hide Run;
    EmptyIsSafe();
    RunSafe(State(map[], map[]), es);
    RunCapped(State(map[], map[]), es, gpus);
    ReservationsFit(Run(State(map[], map[]), es, true).value.rows, w, gpus(w), ids);
  }

  // ---------------------------------------------------------------- two recovery loops at once

  lemma RunCons(s: State, e: Event, rest: seq<Event>, s': State)
    requires Next(s, e, false) == Some(s')
    ensures Run(s, [e] + rest, false) == Run(s', rest, false)
  {
    assert ([e] + rest)[1..] == rest;
  }

  lemma {:induction false} RunAppend(s: State, xs: seq<Event>, ys: seq<Event>, m: State)
    requires Run(s, xs, false) == Some(m)
    ensures Run(s, xs + ys, false) == Run(m, ys, false)
    decreases |xs|
  {
    if xs == [] {
      assert xs + ys == ys;
    } else {
      hide Next;
      assert (xs + ys)[0] == xs[0] && (xs + ys)[1..] == xs[1..] + ys;
      RunAppend(Next(s, xs[0], false).value, xs[1..], ys, m);
    }
  }

  /** Recovery holds another worker's lock while the job it names is being launched. */
  predicate Stale(s: State, a: Actor, b: Actor) {
    && a != b
    && s.Point(a).Entered? && s.Point(a).op.Recover?
    && s.Point(b).Launching? && s.Point(b).id == s.Point(a).op.id && s.Point(b).read.queueManaged
  }

  lemma StaleRead(s: State, a: Actor, b: Actor) returns (s1: State)
    requires Inv(s) && Stale(s, a, b)
    ensures !Guarded(s, Read(a))
    ensures s.Point(b).id in s.rows && s.rows[s.Point(b).id] == s.Point(b).read && s.Point(b).read.status.Starting?
    ensures s1 == s.At(a, Probing(s.Point(a).w, s.Point(b).id, s.Point(b).read, s.Point(a).op.todo))
    ensures Next(s, Read(a), false) == Some(s1)
  {
    hide TableOk;
    assert a in s.pcs && b in s.pcs && PcOk(s.rows, s.Point(b));
    assert s.Point(a).Lock() != s.Point(b).Lock();
    s1 := s.At(a, Probing(s.Point(a).w, s.Point(b).id, s.Point(b).read, s.Point(a).op.todo));
  }

  lemma StaleSettle(s1: State, a: Actor, now: int) returns (s2: State, s3: State)
    requires s1.Point(a).Probing? && s1.Point(a).id in s1.rows && s1.rows[s1.Point(a).id].status.Starting?
    requires s1.rows[s1.Point(a).id].queueManaged
    ensures Next(s1, Probed(a, Some(false)), false) == Some(s2) && Next(s2, Settle(a, now), false) == Some(s3)
    ensures s3.rows == Reconcile(s1.rows, s1.Point(a).id, false, now)
    ensures s3.pcs == s1.pcs[a := Looping(s1.Point(a).todo)]
    ensures s1.Point(a).id in s3.rows && s3.rows[s1.Point(a).id].status.Pending?
  {
    hide Queue;
    var pc := s1.Point(a);
    s2 := s1.At(a, Settling(pc.w, pc.id, pc.read, false, pc.todo));
    s3 := State(Reconcile(s1.rows, pc.id, false, now), s1.pcs[a := Looping(pc.todo)]);
    assert s2.pcs[a := Looping(pc.todo)] == s3.pcs;
  }

  lemma StaleWrite(s3: State, b: Actor, now: int) returns (s4: State)
    requires s3.Point(b).Launching? && s3.Point(b).id in s3.rows && s3.Point(b).read.status.Starting?
    requires s3.rows[s3.Point(b).id].status.Pending?
    ensures Next(s3, Launched(b, 0, now), false) == Some(s4) && s4.rows == s3.rows
    ensures s4.Point(b).Writing? && s4.Point(b).id == s3.Point(b).id && s4.Point(b).read == s3.Point(b).read
    ensures Next(s4, Write(b), false).Some?
    ensures s3.Point(b).id in Next(s4, Write(b), false).value.rows
    ensures Next(s4, Write(b), false).value.rows[s3.Point(b).id].status.Running?
  {
    var pb := s3.Point(b);
    s4 := s3.At(b, Writing(pb.w, pb.id, pb.read, JM.Settled(pb.read, JM.Started, now), pb.back));
  }

  function StaleEvents(a: Actor, b: Actor, now: int): seq<Event> {
    [Read(a), Probed(a, Some(false)), Settle(a, now), Launched(b, 0, now)]
  }

  /** If recovery reads a job that another coroutine is just launching on a different worker, the
      probe of the wrong worker may requeue it, and the launch then writes RUNNING over PENDING. */
  lemma UnguardedReadLosesUpdate(s: State, a: Actor, b: Actor, now: int)
    requires Inv(s) && Stale(s, a, b)
    ensures !Guarded(s, Read(a))
    ensures Run(s, StaleEvents(a, b, now), false).Some?
    ensures var m, id := Run(s, StaleEvents(a, b, now), false).value, s.Point(b).id;
            && m.Point(b).Writing? && m.Point(b).id == id
            && id in m.rows && m.rows[id].status.Pending? && m.rows[id] != m.Point(b).read
            && Next(m, Write(b), false).Some?
            && id in Next(m, Write(b), false).value.rows
            && Next(m, Write(b), false).value.rows[id].status.Running?
  {
    hide Next, Reconcile, Inv, Guarded;
    var s1 := StaleRead(s, a, b);
    var s2, s3 := StaleSettle(s1, a, now);
    assert s3.Point(b) == s.Point(b);
    var s4 := StaleWrite(s3, b, now);
    assert Run(s4, [], false) == Some(s4);
    RunCons(s3, Launched(b, 0, now), [], s4);
    RunCons(s2, Settle(a, now), [Launched(b, 0, now)], s3);
    RunCons(s1, Probed(a, Some(false)), [Settle(a, now), Launched(b, 0, now)], s2);
    RunCons(s, Read(a), [Probed(a, Some(false)), Settle(a, now), Launched(b, 0, now)], s1);
  }
}
