/** A concrete schedule on which two overlapping recovery loops reach the stale read that
    `JobProtocol.UnguardedReadLosesUpdate` starts from. The service runs one loop at a time. */
module OverlappingRecovery {
  import opened Prelude
  import opened JobTable
  import opened JobProtocol
  import opened RecoveryGuard

  /** A run so far: from the empty service, over `es`, to an invariant state. */
  ghost predicate Reaches(es: seq<Event>, s: State) {
    Run(State(map[], map[]), es, false) == Some(s) && Inv(s)
  }

  lemma Extend(es: seq<Event>, s: State, e: Event) returns (es': seq<Event>, s': State)
    requires Reaches(es, s) && Next(s, e, false).Some? && Guarded(s, e)
    ensures s' == Next(s, e, false).value && Reaches(es', s')
  {
    hide Next, Inv, Guarded;
    es', s' := es + [e], Next(s, e, false).value;
    StepKeeps(s, e, false);
    RunAppend(State(map[], map[]), es, [e], s);
    RunCons(s, e, [], s');
    assert [e] + [] == [e];
  }

  // One event each.

  lemma DoCall(es: seq<Event>, s: State, a: Actor, w: WorkerId, op: Op) returns (es': seq<Event>, s': State)
    requires Reaches(es, s) && s.Point(a) == Idle && OpAllowed(s, op)
    ensures Reaches(es', s') && s' == s.At(a, Waiting(w, op))
  {
    hide Inv;
    es', s' := Extend(es, s, Call(a, w, op));
  }

  lemma DoAcquire(es: seq<Event>, s: State, a: Actor) returns (es': seq<Event>, s': State)
    requires Reaches(es, s) && s.Point(a).Waiting? && s.LockFree(s.Point(a).w)
    ensures Reaches(es', s') && s' == s.At(a, Entered(s.Point(a).w, s.Point(a).op))
  {
    hide Inv;
    es', s' := Extend(es, s, Acquire(a));
  }

  lemma DoRead(es: seq<Event>, s: State, a: Actor) returns (es': seq<Event>, s': State)
    requires Reaches(es, s) && s.Point(a).Entered? && Guarded(s, Read(a))
    ensures Reaches(es', s') && s' == ReadStep(s, a, s.Point(a).w, s.Point(a).op)
  {
    hide Inv, Guarded, ReadStep;
    es', s' := Extend(es, s, Read(a));
  }

  lemma DoChoose(es: seq<Event>, s: State, a: Actor) returns (es': seq<Event>, s': State)
    requires Reaches(es, s) && s.Point(a).Counted?
    ensures Reaches(es', s')
    ensures s' == ChooseStep(s, a, s.Point(a).w, s.Point(a).available, s.Point(a).taken)
  {
    hide Inv, ChooseStep;
    es', s' := Extend(es, s, Choose(a));
  }

  lemma DoClaim(es: seq<Event>, s: State, a: Actor, now: int) returns (es': seq<Event>, s': State)
    requires Reaches(es, s) && s.Point(a).Chosen?
    requires Claimable(s.rows, s.Point(a).id, s.Point(a).gpus, s.Point(a).w)
    ensures var pc := s.Point(a);
            && Reaches(es', s') && s'.rows == JobTable.Claim(s.rows, pc.id, pc.gpus, now)
            && s'.pcs == s.pcs[a := Launching(pc.w, pc.id, s'.rows[pc.id], Some(pc.available))]
  {
    hide Inv, Claimable;
    es', s' := Extend(es, s, Event.Claim(a, now));
  }

  lemma DoSettle(es: seq<Event>, s: State, a: Actor, now: int) returns (es': seq<Event>, s': State)
    requires Reaches(es, s) && s.Point(a).Settling?
    requires s.Point(a).id in s.rows && s.rows[s.Point(a).id].status.Starting?
    ensures var pc := s.Point(a);
            && Reaches(es', s') && s'.rows == Reconcile(s.rows, pc.id, pc.observed, now)
            && s'.pcs == s.pcs[a := Looping(pc.todo)]
  {
    hide Inv, Reconcile;
    es', s' := Extend(es, s, Settle(a, now));
  }

  lemma DoProbe(es: seq<Event>, s: State, a: Actor, found: bool) returns (es': seq<Event>, s': State)
    requires Reaches(es, s) && s.Point(a).Probing?
    ensures var pc := s.Point(a);
            Reaches(es', s') && s' == s.At(a, Settling(pc.w, pc.id, pc.read, found, pc.todo))
  {
    hide Inv;
    es', s' := Extend(es, s, Probed(a, Some(found)));
  }

  lemma DoNextJob(es: seq<Event>, s: State, a: Actor) returns (es': seq<Event>, s': State)
    requires Reaches(es, s) && s.Point(a).Looping? && s.Point(a).todo != []
    ensures var todo := s.Point(a).todo;
            Reaches(es', s') && s' == s.At(a, Waiting(todo[0].0, Recover(todo[0].1, todo[1..])))
  {
    hide Inv;
    es', s' := Extend(es, s, NextJob(a));
  }

  // Phases of the schedule.

  lemma EnterDispatch(es: seq<Event>, s: State, a: Actor, w: WorkerId) returns (es': seq<Event>, s': State)
    requires Reaches(es, s) && s.Point(a) == Idle && s.LockFree(w) && Indices(s.rows, w) == {}
    ensures Reaches(es', s') && s'.rows == s.rows && s'.pcs == s.pcs[a := Counted(w, [0], {})]
  {
    hide Queue, Inv, Reaches, Indices, Next;
    var m: State;
    es', m := DoCall(es, s, a, w, Dispatch([0]));
    es', m := DoAcquire(es', m, a);
    es', s' := DoRead(es', m, a);
    assert s'.pcs == s.pcs[a := Counted(w, [0], {})];
  }

  /** dispatch_worker up to the launch of the only queued job. */
  lemma DispatchOne(es: seq<Event>, s: State, a: Actor, w: WorkerId, id: JobId, now: int)
    returns (es': seq<Event>, s': State)
    requires Reaches(es, s) && s.Point(a) == Idle && s.LockFree(w)
    requires id in s.rows && InQueue(s.rows[id], w) && s.rows[id].gpuCount == 1
    requires Queue(s.rows, w) == [id] && Indices(s.rows, w) == {}
    ensures Reaches(es', s') && s'.rows == JobTable.Claim(s.rows, id, [0], now)
    ensures s'.pcs == s.pcs[a := Launching(w, id, s'.rows[id], Some([0]))]
  {
    hide Queue, Inv, Reaches, Indices, Next;
    assert JM.Exclude([0], {}) == [0];
    assert [0][..1] == [0];
    var m: State;
    es', m := EnterDispatch(es, s, a, w);
    es', m := DoChoose(es', m, a);
    assert m.pcs == s.pcs[a := Chosen(w, id, [0], [0])];
    es', s' := DoClaim(es', m, a, now);
  }

  /** The SSH launch gets no answer; dispatch finds the queue empty and ends. */
  lemma LoseLaunch(es: seq<Event>, s: State, a: Actor, now: int) returns (es': seq<Event>, s': State)
    requires Reaches(es, s) && s.Point(a).Launching? && s.Point(a).back == Some([0])
    requires Queue(s.rows, s.Point(a).w) == []
    ensures Reaches(es', s') && s' == s.At(a, Idle)
  {
    hide Queue, Inv, Reaches, Indices;
    var w := s.Point(a).w;
    var m: State;
    es', m := Extend(es, s, Launched(a, 255, now));
    hide Next;
    assert m == s.At(a, Entered(w, Dispatch([0])));
    es', m := DoRead(es', m, a);
    assert m.pcs == s.pcs[a := Counted(w, [0], Indices(s.rows, w))];
    es', s' := DoChoose(es', m, a);
  }

  lemma ListStarting(es: seq<Event>, s: State, a: Actor, id: JobId) returns (es': seq<Event>, s': State)
    requires Reaches(es, s) && s.Point(a) == Idle
    requires id in s.rows && JM.StartingIds(s.rows, {s.rows[id].worker}) == {id}
    ensures Reaches(es', s') && s' == s.At(a, Looping([(s.rows[id].worker, id)]))
  {
    hide Queue, Inv, Reaches;
    assert [id][1..] == [];
    assert Visits(s.rows, [id]) == [(s.rows[id].worker, id)];
    es', s' := Extend(es, s, BeginRecovery(a, {s.rows[id].worker}, [id]));
  }

  /** One turn of a recovery loop that finds no trace of the launch. */
  lemma RequeueLost(es: seq<Event>, s: State, a: Actor, now: int) returns (es': seq<Event>, s': State)
    requires Reaches(es, s) && s.Point(a).Looping? && |s.Point(a).todo| == 1
    requires var (w, id) := s.Point(a).todo[0];
             id in s.rows && s.rows[id].status.Starting? && s.rows[id].worker == w && s.LockFree(w)
    ensures Reaches(es', s') && s'.pcs == s.pcs[a := Looping([])]
    ensures s'.rows == Reconcile(s.rows, s.Point(a).todo[0].1, false, now)
  {
    hide Queue, Inv, Reaches, Reconcile, Next;
    var (w, id) := s.Point(a).todo[0];
    var m: State;
    assert s.Point(a).todo[1..] == [];
    es', m := DoNextJob(es, s, a);
    es', m := DoAcquire(es', m, a);
    assert m.pcs == s.pcs[a := Entered(w, Recover(id, []))];
    es', m := DoRead(es', m, a);
    assert m.pcs == s.pcs[a := Probing(w, id, s.rows[id], [])];
    es', m := DoProbe(es', m, a, false);
    es', s' := DoSettle(es', m, a, now);
  }

  // The tables along the schedule: job 7 of worker 1 is claimed, requeued, moved to worker 2.

  const JOB := Job(1, "train", Pending, true, Ssh, None, 60, 1, [], 0, 0, 0)
  const MOVE := Edit(Some(2), None, None, None, None)

  lemma Queued() returns (t: Table)
    ensures t == InsertQueued(map[], 7, JOB) && WellOrdered(t) && t.Keys == {7} && InQueue(t[7], 1)
    ensures t[7].gpuCount == 1 && t[7].kind.Ssh?
    ensures Queue(t, 1) == [7]
  {
    t := InsertQueued(map[], 7, JOB);
    assert QueueIds(map[], 1) == {};
    InsertAppends(map[], 7, JOB, 1);
  }

  lemma Claimed(t: Table) returns (t': Table)
    requires WellOrdered(t) && t.Keys == {7} && InQueue(t[7], 1) && t[7].gpuCount == 1 && t[7].kind.Ssh?
    requires Queue(t, 1) == [7] && Indices(t, 1) == {}
    ensures t' == JobTable.Claim(t, 7, [0], 100) && WellOrdered(t') && t'.Keys == {7}
    ensures t'[7].status.Starting? && t'[7].worker == 1 && t'[7].queueManaged && t'[7].kind.Ssh? && t'[7].gpuCount == 1
    ensures Queue(t', 1) == [] && JM.StartingIds(t', {1}) == {7}
  {
    t' := JobTable.Claim(t, 7, [0], 100);
    ClaimPops(t, 7, [0], 100, 1, 1);
  }

  lemma RequeuedTable(t: Table) returns (t': Table)
    requires WellOrdered(t) && t.Keys == {7} && t[7].status.Starting? && t[7].worker == 1 && t[7].queueManaged
    requires Queue(t, 1) == [] && t[7].kind.Ssh? && t[7].gpuCount == 1
    ensures t' == Reconcile(t, 7, false, 200) && WellOrdered(t') && t'.Keys == {7}
    ensures InQueue(t'[7], 1) && Queue(t', 1) == [7] && t'[7].kind.Ssh? && t'[7].gpuCount == 1
  {
    t' := Reconcile(t, 7, false, 200);
    ReconcileQueue(t, 7, false, 200, 1);
  }

  lemma MovedTable(t: Table) returns (t': Table)
    requires WellOrdered(t) && t.Keys == {7} && InQueue(t[7], 1) && Queue(t, 1) == [7]
    requires t[7].kind.Ssh? && t[7].gpuCount == 1
    ensures t' == Moved(t, 7, MOVE) && t'.Keys == {7} && InQueue(t'[7], 2) && t'[7].gpuCount == 1
    ensures Queue(t', 2) == [7] && Indices(t', 2) == {}
  {
    hide Moved;
    t' := Moved(t, 7, MOVE);
    MovedKeys(t, 7, MOVE);
    MovedRow(t, 7, MOVE, 7);
    UpdateMoves(t, 7, MOVE, 2);
    assert QueueIds(t, 2) == {};
  }

  /** Job 7 is left in STARTING on worker 1, and two recovery loops have listed it. */
  ghost predicate TwoLoops(s: State) {
    && WellOrdered(s.rows) && s.rows.Keys == {7} && Queue(s.rows, 1) == []
    && s.rows[7].status.Starting? && s.rows[7].worker == 1 && s.rows[7].queueManaged && s.rows[7].kind.Ssh?
    && s.rows[7].gpuCount == 1
    && s.pcs == map[1 := Idle, 2 := Looping([(1, 7)]), 3 := Looping([(1, 7)])]
  }

  lemma ListTwice() returns (es: seq<Event>, s: State)
    ensures Reaches(es, s) && TwoLoops(s)
  {
    hide Queue, InsertQueued, Moved, Reconcile, Indices, Inv, Next, Reaches;
    var t0 := Queued();
    NothingTaken(t0, 1);
    var t1 := Claimed(t0);
    es, s := [], State(map[], map[]);
    Nothing();
    es, s := DoEnqueue(es, s);
    es, s := DispatchOne(es, s, 1, 1, 7, 100);
    es, s := LoseLaunch(es, s, 1, 150);
    assert s.pcs == map[1 := Idle];
    es, s := ListStarting(es, s, 2, 7);
    es, s := ListStarting(es, s, 3, 7);
  }

  /** The first loop requeues the job; the second one has it next. */
  lemma RequeueFirst() returns (es: seq<Event>, s: State)
    ensures Reaches(es, s)
    ensures s.pcs == map[1 := Idle, 2 := Looping([]), 3 := Waiting(1, Recover(7, []))]
    ensures WellOrdered(s.rows) && s.rows.Keys == {7} && InQueue(s.rows[7], 1) && Queue(s.rows, 1) == [7]
    ensures s.rows[7].kind.Ssh? && s.rows[7].gpuCount == 1
  {
    hide Queue, Moved, Reconcile, Indices, Inv, Next, Reaches;
    es, s := ListTwice();
    var _ := RequeuedTable(s.rows);
    es, s := RequeueLost(es, s, 2, 200);
    assert s.Point(3).todo[1..] == [];
    es, s := DoNextJob(es, s, 3);
  }

  /** With overlapping loops the stale read is reachable, so the update is really lost. */
  lemma OverlapLosesUpdate() returns (es: seq<Event>, s: State)
    ensures Reaches(es, s) && Stale(s, 3, 4)
  {
    hide Queue, Moved, Reconcile, Indices, Inv, Next, Reaches;
    es, s := RequeueFirst();
    var _ := MovedTable(s.rows);
    es, s := DoEdit(es, s);
    es, s := DispatchOne(es, s, 4, 2, 7, 300);
    es, s := DoAcquire(es, s, 3);
  }

  /** From the empty service a schedule with two recovery loops ends in a state that loses an update. */
  lemma OverlapRunLosesUpdate() returns (es: seq<Event>, m: State)
    ensures Run(State(map[], map[]), es, false) == Some(m) && LosesUpdate(m)
  {
    hide Inv, Next, Run, LosesUpdate, Guarded, TableOk;
    var before, s := OverlapLosesUpdate();
    assert Inv(s) && Stale(s, 3, 4);
    var _ := StaleRead(s, 3, 4);
    var rest;
    rest, m := UnguardedLoses(s, 3);
    var n := Next(s, Read(3), false).value;
    RunCons(s, Read(3), rest, n);
    RunAppend(State(map[], map[]), before, [Read(3)] + rest, s);
    es := before + ([Read(3)] + rest);
  }

  lemma NothingTaken(t: Table, w: WorkerId)
    requires forall id :: id in t ==> t[id].status.Pending?
    ensures Indices(t, w) == {}
  {
  }

  lemma Nothing()
    ensures Reaches([], State(map[], map[]))
  {
    EmptyIsSafe();
  }

  lemma DoEnqueue(es: seq<Event>, s: State) returns (es': seq<Event>, s': State)
    requires Reaches(es, s) && s.rows == map[]
    ensures Reaches(es', s') && s'.rows == InsertQueued(map[], 7, JOB) && s'.pcs == s.pcs
  {
    hide Inv, InsertQueued;
    es', s' := Extend(es, s, Enqueue(7, JOB));
  }

  lemma DoEdit(es: seq<Event>, s: State) returns (es': seq<Event>, s': State)
    requires Reaches(es, s) && 7 in s.rows && InQueue(s.rows[7], s.rows[7].worker)
    requires 7 in Queue(s.rows, s.rows[7].worker)
    ensures Reaches(es', s') && s'.rows == Moved(s.rows, 7, MOVE) && s'.pcs == s.pcs
  {
    hide Inv, Moved, Queue;
    es', s' := Extend(es, s, EditPending(7, MOVE));
  }
}
