/** What the operations of `JobProtocol` come to: which exit code a finished job carries in any run, and
    what each operation leaves when nothing interferes with it. */
module JobOutcomes {
  import opened Prelude
  import opened Ordering
  import opened JobTable
  import opened JobProtocol
  import JM = JobManager

  // ---------------------------------------------------------------- exit codes

  /** A done SSH job has exit code 0, and a failed one has another. */
  predicate Coded(job: Job) {
    && (job.kind.Ssh? && job.status.Done? ==> job.exitCode == Some(0))
    && (job.kind.Ssh? && job.status.Failed? ==> job.exitCode.Some? && job.exitCode != Some(0))
  }

  ghost predicate AllCoded(s: State) {
    && (forall id :: id in s.rows ==> Coded(s.rows[id]))
    && (forall a :: a in s.pcs && s.pcs[a].Writing? ==> Coded(s.pcs[a].next))
  }

  lemma EditCoded(t: Table, id: JobId, e: Edit)
    requires id in t && InQueue(t[id], t[id].worker) && forall x :: x in t ==> Coded(t[x])
    ensures id in Queue(t, t[id].worker) && forall x :: x in Moved(t, id, e) ==> Coded(Moved(t, id, e)[x])
  {
    hide Queue, Moved;
    MovedKeys(t, id, e);
    forall x | x in t ensures Coded(Moved(t, id, e)[x]) { MovedRow(t, id, e, x); }
  }

  lemma CancelCoded(t: Table, id: JobId, now: int)
    requires id in t && InQueue(t[id], t[id].worker) && forall x :: x in t ==> Coded(t[x])
    ensures forall x :: x in FailPending(t, id, now) ==> Coded(FailPending(t, id, now)[x])
  {
    hide Queue, FailPending;
    FailKeys(t, id, now);
    forall x | x in t ensures Coded(FailPending(t, id, now)[x]) { FailRow(t, id, now, x); }
  }

  lemma ReconcileCoded(t: Table, id: JobId, observed: bool, now: int)
    requires id in t && t[id].status.Starting? && forall x :: x in t ==> Coded(t[x])
    ensures forall x :: x in Reconcile(t, id, observed, now) ==> Coded(Reconcile(t, id, observed, now)[x])
  {
  }

  lemma RowsCoded(s: State, e: Event, single: bool)
    requires AllCoded(s) && Next(s, e, single).Some?
    ensures forall id :: id in Next(s, e, single).value.rows ==> Coded(Next(s, e, single).value.rows[id])
  {
    hide Next;
    if e.EditPending? || e.Cancel? || e.Settle? {
      QueueRowsCoded(s, e, single);
    } else {
      PlainRowsCoded(s, e, single);
    }
  }

  lemma QueueRowsCoded(s: State, e: Event, single: bool)
    requires AllCoded(s) && Next(s, e, single).Some? && (e.EditPending? || e.Cancel? || e.Settle?)
    ensures forall id :: id in Next(s, e, single).value.rows ==> Coded(Next(s, e, single).value.rows[id])
  {
    hide Queue, Moved, FailPending, Reconcile, Coded;
    match e
    case EditPending(id, edit) => EditCoded(s.rows, id, edit);
    case Cancel(a, now) =>
      var id := s.Point(a).id;
      if id in s.rows && InQueue(s.rows[id], s.rows[id].worker) { CancelCoded(s.rows, id, now); }
    case Settle(a, now) =>
      var id := s.Point(a).id;
      if id in s.rows && s.rows[id].status.Starting? { ReconcileCoded(s.rows, id, s.Point(a).observed, now); }
  }

  lemma PlainRowsCoded(s: State, e: Event, single: bool)
    requires AllCoded(s) && Next(s, e, single).Some? && !e.EditPending? && !e.Cancel? && !e.Settle?
    ensures forall id :: id in Next(s, e, single).value.rows ==> Coded(Next(s, e, single).value.rows[id])
  {
    hide Queue, Indices, Claimable, Visits, Finished, LaunchedStep, ChooseStep, MarkFailed, MaxOrder, Moved;
    hide FailPending, Reconcile;
    if e.Choose? && s.Point(e.a).Counted? { ChooseRows(s, e.a); }
    if e.Launched? && s.Point(e.a).Launching? { LaunchedRows(s, e.a, e.returnCode, e.now); }
  }

  lemma ChooseRows(s: State, a: Actor)
    requires s.Point(a).Counted?
    ensures ChooseStep(s, a, s.Point(a).w, s.Point(a).available, s.Point(a).taken).rows == s.rows
  {
    hide Queue;
  }

  lemma LaunchedRows(s: State, a: Actor, returnCode: int, now: int)
    requires s.Point(a).Launching?
    ensures LaunchedStep(s, a, s.Point(a), returnCode, now).rows == s.rows
  {
  }

  lemma PointCoded(s: State, e: Event, single: bool)
    requires AllCoded(s) && Next(s, e, single).Some? && HasActor(e)
    ensures var pc := Next(s, e, single).value.Point(e.a); pc.Writing? ==> Coded(pc.next)
  {
    hide Queue, Moved, FailPending, Reconcile, Indices, Claimable, Visits;
  }

  lemma CodedStep(s: State, e: Event, single: bool)
    requires AllCoded(s) && Next(s, e, single).Some?
    ensures AllCoded(Next(s, e, single).value)
  {
    RowsCoded(s, e, single);
    OnlyActorMoves(s, e, single);
    if HasActor(e) { PointCoded(s, e, single); }
    hide Next, Coded;
  }

  lemma {:induction false} RunCoded(s: State, es: seq<Event>, single: bool)
    requires AllCoded(s) && Run(s, es, single).Some?
    ensures AllCoded(Run(s, es, single).value)
    decreases |es|
  {
    hide Next, AllCoded;
    if es != [] {
      CodedStep(s, es[0], single);
      RunCoded(Next(s, es[0], single).value, es[1..], single);
    }
  }

  /** In every run from the empty service, with any number of overlapping recovery loops: an SSH job is DONE
      only with exit code 0 and FAILED only with another one. */
  lemma ExitCodesTell(es: seq<Event>, single: bool, id: JobId)
    requires Run(State(map[], map[]), es, single).Some? && id in Run(State(map[], map[]), es, single).value.rows
    ensures var job := Run(State(map[], map[]), es, single).value.rows[id];
            job.kind.Ssh? ==> (job.status.Done? ==> job.exitCode == Some(0))
                              && (job.status.Failed? ==> job.exitCode.Some? && job.exitCode.value != 0)
  {
    hide Run;
    RunCoded(State(map[], map[]), es, single);
  }

  // ---------------------------------------------------------------- a refresh among other coroutines

  /** None of these events is one of actor `a`. */
  predicate Others(es: seq<Event>, a: Actor) {
    forall k :: 0 <= k < |es| && HasActor(es[k]) ==> es[k].a != a
  }

  lemma {:induction false} PointStays(s: State, es: seq<Event>, single: bool, a: Actor)
    requires Others(es, a) && Run(s, es, single).Some?
    ensures Run(s, es, single).value.Point(a) == s.Point(a)
    decreases |es|
  {
    hide Next;
    if es != [] {
      OnlyActorMoves(s, es[0], single);
      PointStays(Next(s, es[0], single).value, es[1..], single, a);
    }
  }

  /** A refresh that reads exit code `c` stores DONE if `c` is 0 and FAILED otherwise, with that code and
      time, over the row it read, whatever other coroutines do between the answer and the write. */
  lemma ExitCodeDecides(s: State, a: Actor, c: int, now: int, between: seq<Event>, single: bool)
    requires s.Point(a).Polling? && Others(between, a)
    requires Next(s, Polled(a, Some(c), now), single).Some?
    requires Run(Next(s, Polled(a, Some(c), now), single).value, between, single).Some?
    ensures var pc := s.Point(a);
            var m := Run(Next(s, Polled(a, Some(c), now), single).value, between, single).value;
            && Next(m, Write(a), single).Some?
            && var n := Next(m, Write(a), single).value;
               (pc.id in m.rows ==>
                  n.rows == m.rows[pc.id := pc.read.(status := if c == 0 then Done else Status.Failed,
                                                     exitCode := Some(c), finishedAt := now)])
               && n.Point(a) == Idle
  {
    hide Queue, Run;
    var pc := s.Point(a);
    var next := pc.read.(status := if c == 0 then Done else Status.Failed, exitCode := Some(c), finishedAt := now);
    assert Next(s, Polled(a, Some(c), now), single) == Some(s.At(a, Writing(pc.w, pc.id, pc.read, next, None)));
    PointStays(s.At(a, Writing(pc.w, pc.id, pc.read, next, None)), between, single, a);
    var m := Run(s.At(a, Writing(pc.w, pc.id, pc.read, next, None)), between, single).value;
    WritesAnyway(m, a, single);
    hide Next;
    if pc.id in m.rows { Writes(m, a, single); }
  }

  lemma WritesAnyway(s: State, a: Actor, single: bool)
    requires s.Point(a).Writing? && s.Point(a).back.None?
    ensures Next(s, Write(a), single).Some? && Next(s, Write(a), single).value.Point(a) == Idle
  {
    hide Queue;
  }

  // ---------------------------------------------------------------- operations that run alone

  lemma Then(s: State, e: Event, rest: seq<Event>, single: bool, m: State, n: State)
    requires Next(s, e, single) == Some(m) && Run(m, rest, single) == Some(n)
    ensures Run(s, [e] + rest, single) == Some(n)
  {
    hide Next;
    assert ([e] + rest)[1..] == rest;
  }

  lemma Last(s: State, e: Event, single: bool, n: State)
    requires Next(s, e, single) == Some(n)
    ensures Run(s, [e], single) == Some(n)
  {
    hide Next;
    assert [e][1..] == [];
    assert Run(n, [], single) == Some(n);
  }

  lemma Writes(s: State, a: Actor, single: bool)
    requires s.Point(a).Writing? && s.Point(a).id in s.rows
    ensures var pc := s.Point(a);
            Next(s, Write(a), single)
            == Some(State(s.rows[pc.id := pc.next],
                          s.pcs[a := if pc.back.None? then Idle else Entered(pc.w, Dispatch(pc.back.value))]))
  {
    hide Queue;
  }

  lemma Twice(s: State, a: Actor, first: Pc, second: Pc)
    ensures s.At(a, first).Point(a) == first && s.At(a, first).At(a, second) == s.At(a, second)
    ensures s.At(a, first).pcs[a := second] == s.pcs[a := second]
  {
    hide Queue;
  }

  /** Actor `a` is idle and nobody holds the lock of worker `w`. */
  predicate Alone(s: State, a: Actor, w: WorkerId) {
    s.Point(a).Idle? && s.LockFree(w)
  }

  lemma Enters(s: State, a: Actor, w: WorkerId, op: Op, rest: seq<Event>, single: bool, n: State)
    requires Alone(s, a, w) && OpAllowed(s, op) && Run(s.At(a, Entered(w, op)), rest, single) == Some(n)
    ensures Run(s, [Call(a, w, op)] + ([Acquire(a)] + rest), single) == Some(n)
  {
    hide Queue, Run;
    var m := s.At(a, Waiting(w, op));
    Twice(s, a, Waiting(w, op), Entered(w, op));
    Then(m, Acquire(a), rest, single, s.At(a, Entered(w, op)), n);
    Then(s, Call(a, w, op), [Acquire(a)] + rest, single, m, n);
  }

  lemma StopEntered(s: State, a: Actor, ok: bool, now: int, single: bool) returns (es: seq<Event>, n: State)
    requires s.Point(a).Entered? && s.Point(a).op.Stop? && s.Point(a).op.id in s.rows && WellOrdered(s.rows)
    ensures Run(s, es, single) == Some(n) && n.pcs == s.pcs[a := Idle]
    ensures var w, id := s.Point(a).w, s.Point(a).op.id;
            var job := s.rows[id];
            if job.worker != w || job.status == Done || job.status == Status.Failed then n.rows == s.rows
            else if job.queueManaged && job.status == Status.Pending then n.rows == FailPending(s.rows, id, now)
            else n.rows == if !ok then s.rows
                           else s.rows[id := job.(status := Status.Failed, exitCode := Some(-1), finishedAt := now)]
  {
    hide Queue, FailPending, WellOrdered;
    var w, id := s.Point(a).w, s.Point(a).op.id;
    var job := s.rows[id];
    var m := Next(s, Read(a), single).value;
    if job.worker != w || job.status == Done || job.status == Status.Failed {
      n := m;
      Last(s, Read(a), single, n);
      return [Read(a)], n;
    }
    if job.queueManaged && job.status == Status.Pending {
      n := Next(m, Cancel(a, now), single).value;
      assert n.pcs == s.pcs[a := Idle];
      Last(m, Cancel(a, now), single, n);
      Then(s, Read(a), [Cancel(a, now)], single, m, n);
      return [Read(a)] + [Cancel(a, now)], n;
    }
    var rest;
    rest, n := Kills(m, a, ok, now, single);
    assert n.pcs == s.pcs[a := Idle];
    Then(s, Read(a), rest, single, m, n);
    es := [Read(a)] + rest;
  }

  lemma Kills(s: State, a: Actor, ok: bool, now: int, single: bool) returns (es: seq<Event>, n: State)
    requires s.Point(a).Killing? && s.Point(a).id in s.rows && s.rows[s.Point(a).id].Live()
    ensures Run(s, es, single) == Some(n) && n.pcs == s.pcs[a := Idle]
    ensures var id := s.Point(a).id;
            n.rows == if ok then s.rows[id := s.rows[id].(status := Status.Failed, exitCode := Some(-1),
                                                          finishedAt := now)] else s.rows
  {
    hide Run, Queue;
    var pc := s.Point(a);
    if !ok {
      n := s.At(a, Idle);
      Last(s, Killed(a, ok), single, n);
      return [Killed(a, ok)], n;
    }
    var job := s.rows[pc.id];
    var failed := job.(status := Status.Failed, exitCode := Some(-1), finishedAt := now);
    var m1, m2 := s.At(a, Rereading(pc.w, pc.id)), s.At(a, Writing(pc.w, pc.id, job, failed, None));
    assert Next(s, Killed(a, ok), single) == Some(m1);
    Rereads(s, m1, m2, a, now, single);
    hide Next;
    Writes(m2, a, single);
    Twice(s, a, m2.Point(a), Idle);
    n := State(s.rows[pc.id := failed], s.pcs[a := Idle]);
    Last(m2, Write(a), single, n);
    Then(m1, Reread(a, now), [Write(a)], single, m2, n);
    Then(s, Killed(a, ok), [Reread(a, now)] + [Write(a)], single, m1, n);
    return [Killed(a, ok)] + ([Reread(a, now)] + [Write(a)]), n;
  }

  lemma Rereads(s: State, m1: State, m2: State, a: Actor, now: int, single: bool)
    requires s.Point(a).Killing? && s.Point(a).id in s.rows && s.rows[s.Point(a).id].Live()
    requires m1 == s.At(a, Rereading(s.Point(a).w, s.Point(a).id))
    requires var pc := s.Point(a);
             var job := s.rows[pc.id];
             m2 == s.At(a, Writing(pc.w, pc.id, job,
                                   job.(status := Status.Failed, exitCode := Some(-1), finishedAt := now), None))
    ensures Next(m1, Reread(a, now), single) == Some(m2)
  {
    hide Queue;
    Twice(s, a, m1.Point(a), m2.Point(a));
  }

  /** A stop that runs alone: it does nothing to a job of another worker or a finished one; a waiting job is
      failed and leaves its queue; any other live job is failed with exit code -1 if the kill worked. */
  lemma StopAlone(s: State, a: Actor, w: WorkerId, id: JobId, ok: bool, now: int, single: bool)
    returns (es: seq<Event>, n: State)
    requires Alone(s, a, w) && id in s.rows && WellOrdered(s.rows)
    ensures Run(s, es, single) == Some(n) && |es| > 0 && es[0] == Call(a, w, Stop(id)) && n.pcs == s.pcs[a := Idle]
    ensures var job := s.rows[id];
            var waiting := job.queueManaged && job.status == Status.Pending;
            var stops := job.worker == w && job.status != Done && job.status != Status.Failed && (waiting || ok);
            && (!stops ==> n.rows == s.rows)
            && (stops ==> id in n.rows && n.rows[id] == job.(status := Status.Failed, exitCode := Some(-1),
                                                             finishedAt := now, queueOrder := n.rows[id].queueOrder))
            && (stops && !waiting ==> n.rows == s.rows[id := n.rows[id]])
            && (stops && waiting ==>
                  && (forall v :: Queue(n.rows, v) == Without(Queue(s.rows, v), id))
                  && (forall x :: x in s.rows && x != id ==> Renumbered(s.rows, n.rows, x)))
  {
    hide Queue, FailPending, WellOrdered, Next, Without, Run;
    var rest;
    var s1 := s.At(a, Entered(w, Stop(id)));
    rest, n := StopEntered(s1, a, ok, now, single);
    Enters(s, a, w, Stop(id), rest, single, n);
    es := [Call(a, w, Stop(id))] + ([Acquire(a)] + rest);
    assert n.pcs == s.pcs[a := Idle];
    var job := s.rows[id];
    if job.worker == w && job.queueManaged && job.status == Status.Pending {
      FailRow(s.rows, id, now, id);
      forall v ensures Queue(n.rows, v) == Without(Queue(s.rows, v), id) { FailRemoves(s.rows, id, now, v); }
      forall x | x in s.rows && x != id ensures Renumbered(s.rows, n.rows, x) { FailRow(s.rows, id, now, x); }
    }
  }

  /** A refresh that runs alone settles exactly a running job of the worker, or a pending one outside every
      queue, whose exit code is known. */
  lemma RefreshAlone(s: State, a: Actor, w: WorkerId, id: JobId, code: Option<int>, now: int, single: bool)
    returns (es: seq<Event>, n: State)
    requires Alone(s, a, w) && id in s.rows
    ensures Run(s, es, single) == Some(n) && |es| > 0 && es[0] == Call(a, w, Refresh(id)) && n.pcs == s.pcs[a := Idle]
    ensures var job := s.rows[id];
            var polls := job.worker == w
                         && (job.status == Running || (job.status == Status.Pending && !job.queueManaged));
            n.rows == if polls && code.Some?
                      then s.rows[id := job.(status := if code == Some(0) then Done else Status.Failed,
                                             exitCode := code, finishedAt := now)]
                      else s.rows
  {
    var s1 := s.At(a, Entered(w, Refresh(id)));
    var rest;
    rest, n := RefreshEntered(s1, a, code, now, single);
    hide Next, Run;
    Enters(s, a, w, Refresh(id), rest, single, n);
    es := [Call(a, w, Refresh(id))] + ([Acquire(a)] + rest);
    assert n.pcs == s.pcs[a := Idle];
  }

  lemma RefreshEntered(s: State, a: Actor, code: Option<int>, now: int, single: bool)
    returns (es: seq<Event>, n: State)
    requires s.Point(a).Entered? && s.Point(a).op.Refresh? && s.Point(a).op.id in s.rows
    ensures Run(s, es, single) == Some(n) && n.pcs == s.pcs[a := Idle]
    ensures var w, id := s.Point(a).w, s.Point(a).op.id;
            var job := s.rows[id];
            var polls := job.worker == w
                         && (job.status == Running || (job.status == Status.Pending && !job.queueManaged));
            n.rows == if polls && code.Some?
                      then s.rows[id := job.(status := if code == Some(0) then Done else Status.Failed,
                                             exitCode := code, finishedAt := now)]
                      else s.rows
  {
    hide Queue, Run;
    var w, id := s.Point(a).w, s.Point(a).op.id;
    var job := s.rows[id];
    if job.worker == w && (job.status == Running || (job.status == Status.Pending && !job.queueManaged)) {
      var m := s.At(a, Polling(w, id, job));
      assert Next(s, Read(a), single) == Some(m);
      hide Next;
      var rest;
      rest, n := PollsAndWrites(m, a, code, now, single);
      Twice(s, a, m.Point(a), Idle);
      Then(s, Read(a), rest, single, m, n);
      return [Read(a)] + rest, n;
    }
    n := s.At(a, Idle);
    Last(s, Read(a), single, n);
    return [Read(a)], n;
  }

  lemma PollsAndWrites(s: State, a: Actor, code: Option<int>, now: int, single: bool)
    returns (es: seq<Event>, n: State)
    requires s.Point(a).Polling? && s.Point(a).id in s.rows
    ensures Run(s, es, single) == Some(n) && n.pcs == s.pcs[a := Idle]
    ensures var pc := s.Point(a);
            n.rows == if code.None? then s.rows
                      else s.rows[pc.id := pc.read.(status := if code == Some(0) then Done else Status.Failed,
                                                    exitCode := code, finishedAt := now)]
  {
    hide Queue, Run;
    var pc := s.Point(a);
    if code.None? {
      n := s.At(a, Idle);
      Last(s, Polled(a, code, now), single, n);
      return [Polled(a, code, now)], n;
    }
    var next := pc.read.(status := if code == Some(0) then Done else Status.Failed, exitCode := code,
                         finishedAt := now);
    var m := s.At(a, Writing(pc.w, pc.id, pc.read, next, None));
    assert Next(s, Polled(a, code, now), single) == Some(m);
    hide Next;
    Writes(m, a, single);
    Twice(s, a, m.Point(a), Idle);
    n := State(s.rows[pc.id := next], s.pcs[a := Idle]);
    Last(m, Write(a), single, n);
    Then(s, Polled(a, code, now), [Write(a)], single, m, n);
    return [Polled(a, code, now)] + [Write(a)], n;
  }

  /** The launch of a claimed or inserted job, from the SSH answer on. */
  lemma Launches(s: State, a: Actor, returnCode: int, now: int, single: bool) returns (es: seq<Event>, n: State)
    requires s.Point(a).Launching? && s.Point(a).id in s.rows && s.rows[s.Point(a).id] == s.Point(a).read
    ensures Run(s, es, single) == Some(n) && es != [] && es[0] == Launched(a, returnCode, now)
    ensures var pc := s.Point(a);
            && n.pcs == s.pcs[a := if pc.back.None? then Idle else Entered(pc.w, Dispatch(pc.back.value))]
            && (returnCode == 0 ==> n.rows == s.rows[pc.id := pc.read.(status := Running)])
            && (returnCode < 0 || returnCode == 255 ==> n.rows == s.rows)
            && (returnCode > 0 && returnCode != 255 ==>
                  n.rows == s.rows[pc.id := pc.read.(status := Status.Failed, exitCode := Some(-1), finishedAt := now)])
  {
    hide Queue, Run;
    var pc := s.Point(a);
    var back := if pc.back.None? then Idle else Entered(pc.w, Dispatch(pc.back.value));
    if returnCode < 0 || returnCode == 255 {
      n := s.At(a, back);
      Last(s, Launched(a, returnCode, now), single, n);
      return [Launched(a, returnCode, now)], n;
    }
    var next := if returnCode == 0 then pc.read.(status := Running)
                else pc.read.(status := Status.Failed, exitCode := Some(-1), finishedAt := now);
    var m := s.At(a, Writing(pc.w, pc.id, pc.read, next, pc.back));
    assert Next(s, Launched(a, returnCode, now), single) == Some(m);
    hide Next;
    Writes(m, a, single);
    Twice(s, a, m.Point(a), back);
    n := State(s.rows[pc.id := next], s.pcs[a := back]);
    Last(m, Write(a), single, n);
    Then(s, Launched(a, returnCode, now), [Write(a)], single, m, n);
    return [Launched(a, returnCode, now)] + [Write(a)], n;
  }

  /** A start that runs alone inserts one unqueued job and launches it: running for exit status 0, failed
      with exit code -1 for a definite failure, and still starting if the outcome is unknown. */
  lemma StartAlone(s: State, a: Actor, w: WorkerId, id: JobId, name: string, began: int, returnCode: int, now: int,
                   single: bool)
    returns (es: seq<Event>, n: State)
    requires Alone(s, a, w) && id !in s.rows
    ensures Run(s, es, single) == Some(n) && |es| > 0 && es[0] == Call(a, w, Start(id, name, began))
    ensures n.pcs == s.pcs[a := Idle] && id in n.rows && n.rows == s.rows[id := n.rows[id]]
    ensures var job := n.rows[id];
            && (job.worker, job.name, job.queueManaged, job.kind, job.startedAt) == (w, name, false, Ssh, began)
            && job.gpuIndices == []
            && (job.status == Running <==> returnCode == 0)
            && (job.status == Status.Starting <==> returnCode < 0 || returnCode == 255)
            && (job.status == Status.Failed <==> returnCode > 0 && returnCode != 255)
            && (job.status == Status.Failed ==> job.exitCode == Some(-1) && job.finishedAt == now)
            && (job.status != Status.Failed ==> job.exitCode == None && job.finishedAt == 0)
  {
    hide Queue, Run;
    var op := Start(id, name, began);
    var row := Job(w, name, Status.Starting, false, Ssh, None, 0, 0, [], 0, began, 0);
    var s1 := s.At(a, Entered(w, op));
    var m := State(s.rows[id := row], s.pcs[a := Launching(w, id, row, None)]);
    Inserts(s, a, w, id, name, began, single);
    assert m.Point(a) == Launching(w, id, row, None) && m.rows[id] == row;
    hide Next, WriteBack, Alone, OpAllowed;
    var rest;
    rest, n := Launches(m, a, returnCode, now, single);
    Then(s1, Read(a), rest, single, m, n);
    Enters(s, a, w, op, [Read(a)] + rest, single, n);
    es := [Call(a, w, op)] + ([Acquire(a)] + ([Read(a)] + rest));
    assert n.pcs == s.pcs[a := Idle];
  }

  lemma Inserts(s: State, a: Actor, w: WorkerId, id: JobId, name: string, began: int, single: bool)
    requires id !in s.rows
    ensures OpAllowed(s, Start(id, name, began))
    ensures var row := Job(w, name, Status.Starting, false, Ssh, None, 0, 0, [], 0, began, 0);
            Next(s.At(a, Entered(w, Start(id, name, began))), Read(a), single)
            == Some(State(s.rows[id := row], s.pcs[a := Launching(w, id, row, None)]))
  {
    hide Queue;
    Twice(s, a, Entered(w, Start(id, name, began)),
          Launching(w, id, Job(w, name, Status.Starting, false, Ssh, None, 0, 0, [], 0, began, 0), None));
  }

  // ---------------------------------------------------------------- a whole dispatch

  /** The head of the queue of `w` gets the first GPUs of `available` that nobody holds. */
  function HeadClaim(t: Table, w: WorkerId, available: seq<nat>): JM.Assignment
    requires Queue(t, w) != [] && Queue(t, w)[0] in t
    requires t[Queue(t, w)[0]].gpuCount <= |JM.Exclude(available, Indices(t, w))|
  {
    var id := Queue(t, w)[0];
    JM.Assignment(id, JM.Exclude(available, Indices(t, w))[..t[id].gpuCount])
  }

  predicate HeadFits(t: Table, w: WorkerId, available: seq<nat>) {
    Queue(t, w) != [] && Queue(t, w)[0] in t
    && t[Queue(t, w)[0]].gpuCount <= |JM.Exclude(available, Indices(t, w))|
  }

  lemma Counts(s: State, a: Actor, w: WorkerId, available: seq<nat>, single: bool)
    requires s.Point(a) == Entered(w, Dispatch(available))
    ensures Next(s, Read(a), single) == Some(s.At(a, Counted(w, available, Indices(s.rows, w))))
  {
    hide Queue, Indices;
  }

  lemma Chooses(s: State, a: Actor, w: WorkerId, available: seq<nat>, single: bool)
    ensures var m := s.At(a, Counted(w, available, Indices(s.rows, w)));
            Next(m, Choose(a), single)
            == Some(s.At(a, if HeadFits(s.rows, w, available)
                            then var c := HeadClaim(s.rows, w, available); Chosen(w, c.id, c.gpus, available)
                            else Idle))
  {
    hide Queue, Indices, JM.Exclude;
    var pc := Counted(w, available, Indices(s.rows, w));
    Twice(s, a, pc, Idle);
    if HeadFits(s.rows, w, available) {
      var c := HeadClaim(s.rows, w, available);
      Twice(s, a, pc, Chosen(w, c.id, c.gpus, available));
    }
  }

  lemma Claims(s: State, a: Actor, w: WorkerId, c: JM.Assignment, available: seq<nat>, now: int, single: bool)
    requires Claimable(s.rows, c.id, c.gpus, w)
    ensures var claimed := JobTable.Claim(s.rows, c.id, c.gpus, now);
            Next(s.At(a, Chosen(w, c.id, c.gpus, available)), JobProtocol.Claim(a, now), single)
            == Some(State(claimed, s.pcs[a := Launching(w, c.id, claimed[c.id], Some(available))]))
  {
    hide Queue, Indices;
    var claimed := JobTable.Claim(s.rows, c.id, c.gpus, now);
    Twice(s, a, Chosen(w, c.id, c.gpus, available), Launching(w, c.id, claimed[c.id], Some(available)));
  }

  /** One turn of a dispatch that runs alone is one claim of the head and its launch. */
  lemma DispatchTurn(s: State, a: Actor, w: WorkerId, available: seq<nat>, returnCode: int, now: int, single: bool)
    returns (es: seq<Event>)
    requires s.Point(a) == Entered(w, Dispatch(available)) && HeadFits(s.rows, w, available)
    requires var c := HeadClaim(s.rows, w, available); Claimable(s.rows, c.id, c.gpus, w)
    ensures Run(s, es, single)
         == Some(State(JM.LaunchRow(s.rows, HeadClaim(s.rows, w, available), returnCode, now),
                       s.pcs[a := Entered(w, Dispatch(available))]))
  {
    hide Queue, Indices, Run, Next;
    var c := HeadClaim(s.rows, w, available);
    var claimed := JobTable.Claim(s.rows, c.id, c.gpus, now);
    hide HeadFits, HeadClaim;
    var m1 := s.At(a, Counted(w, available, Indices(s.rows, w)));
    var m2 := s.At(a, Chosen(w, c.id, c.gpus, available));
    var m3 := State(claimed, s.pcs[a := Launching(w, c.id, claimed[c.id], Some(available))]);
    Counts(s, a, w, available, single);
    Chooses(s, a, w, available, single);
    Claims(s, a, w, c, available, now, single);
    hide Claimable;
    var rest, n := Launches(m3, a, returnCode, now, single);
    LaunchRowIs(s.rows, c, returnCode, now);
    assert n.rows == JM.LaunchRow(s.rows, c, returnCode, now);
    assert n.pcs == s.pcs[a := Entered(w, Dispatch(available))];
    hide JM.LaunchRow;
    Then(m2, JobProtocol.Claim(a, now), rest, single, m3, n);
    Then(m1, Choose(a), [JobProtocol.Claim(a, now)] + rest, single, m2, n);
    Then(s, Read(a), [Choose(a)] + ([JobProtocol.Claim(a, now)] + rest), single, m1, n);
    es := [Read(a)] + ([Choose(a)] + ([JobProtocol.Claim(a, now)] + rest));
  }

  lemma LaunchRowIs(t: Table, c: JM.Assignment, returnCode: int, now: int)
    requires c.id in t
    ensures var claimed := JobTable.Claim(t, c.id, c.gpus, now);
            && (returnCode == 0 ==>
                  JM.LaunchRow(t, c, returnCode, now) == claimed[c.id := claimed[c.id].(status := Running)])
            && (returnCode < 0 || returnCode == 255 ==> JM.LaunchRow(t, c, returnCode, now) == claimed)
            && (returnCode > 0 && returnCode != 255 ==>
                  JM.LaunchRow(t, c, returnCode, now)
                  == claimed[c.id := claimed[c.id].(status := Status.Failed, exitCode := Some(-1), finishedAt := now)])
  {
  }

  lemma {:induction false} RunJoin(s: State, xs: seq<Event>, ys: seq<Event>, single: bool, m: State, n: State)
    requires Run(s, xs, single) == Some(m) && Run(m, ys, single) == Some(n)
    ensures Run(s, xs + ys, single) == Some(n)
    decreases |xs|
  {
    hide Next;
    if xs == [] {
      assert xs + ys == ys;
    } else {
      assert (xs + ys)[0] == xs[0] && (xs + ys)[1..] == xs[1..] + ys;
      RunJoin(Next(s, xs[0], single).value, xs[1..], ys, single, m, n);
    }
  }

  /** Launching a list is launching its first and then the rest. */
  lemma {:induction false} ApplyFirst(t: Table, c: JM.Assignment, plan: seq<JM.Assignment>, rc: JobId -> int,
                                      clock: JobId -> int)
    requires c.id in t && forall b :: b in plan ==> b.id in t
    ensures forall b :: b in [c] + plan ==> b.id in t
    ensures JM.LaunchRow(t, c, rc(c.id), clock(c.id)).Keys == t.Keys
    ensures JM.Apply(t, [c] + plan, rc, clock)
         == JM.Apply(JM.LaunchRow(t, c, rc(c.id), clock(c.id)), plan, rc, clock)
  {
    var all := [c] + plan;
    if plan == [] {
      assert all[..|all| - 1] == [] && all[|all| - 1] == c;
    } else {
      var init := plan[..|plan| - 1];
      assert all[..|all| - 1] == [c] + init && all[|all| - 1] == plan[|plan| - 1];
      ApplyFirst(t, c, init, rc, clock);
    }
  }

  /** A dispatch that runs alone leaves exactly the table that `JobManager.Manager.DispatchWorker` leaves: the
      planned prefix of the queue launched in order, nothing else changed. */
  lemma {:induction false} DispatchAlone(s: State, a: Actor, w: WorkerId, available: seq<nat>, rc: JobId -> int,
                                         clock: JobId -> int, single: bool)
    returns (es: seq<Event>, n: State)
    requires s.Point(a) == Entered(w, Dispatch(available)) && WellOrdered(s.rows) && JM.Increasing(available)
    ensures Run(s, es, single) == Some(n) && n.pcs == s.pcs[a := Idle]
    ensures var plan := JM.Plan(s.rows, Queue(s.rows, w), JM.Exclude(available, Indices(s.rows, w)), rc);
            (forall c :: c in plan ==> c.id in s.rows) && n.rows == JM.Apply(s.rows, plan, rc, clock)
    decreases |Queue(s.rows, w)|
  {
    hide Queue, Indices, Run, Next, JM.Exclude, JM.LaunchRow, JM.Apply, WellOrdered, JM.Increasing;
    var t := s.rows;
    var plan := JM.Plan(t, Queue(t, w), JM.Exclude(available, Indices(t, w)), rc);
    if !HeadFits(t, w, available) {
      assert plan == [];
      NothingApplied(t, rc, clock);
      es, n := DispatchStops(s, a, w, available, single);
      return;
    }
    var c := HeadClaim(t, w, available);
    JM.PlanStep(t, w, available, rc, clock(c.id));
    var t' := JM.LaunchRow(t, c, rc(c.id), clock(c.id));
    hide Claimable;
    var turn := DispatchTurn(s, a, w, available, rc(c.id), clock(c.id), single);
    var m := State(t', s.pcs[a := Entered(w, Dispatch(available))]);
    var rest := JM.Plan(t', Queue(t', w), JM.Exclude(available, Indices(t', w)), rc);
    assert plan == [c] + rest;
    hide JM.Plan, HeadFits, HeadClaim;
    var more;
    more, n := DispatchAlone(m, a, w, available, rc, clock, single);
    LaunchKeys(t, c, rc(c.id), clock(c.id));
    ApplyFirst(t, c, rest, rc, clock);
    assert m.pcs[a := Idle] == s.pcs[a := Idle];
    RunJoin(s, turn, more, single, m, n);
    es := turn + more;
  }

  lemma LaunchKeys(t: Table, c: JM.Assignment, returnCode: int, now: int)
    requires c.id in t
    ensures JM.LaunchRow(t, c, returnCode, now).Keys == t.Keys
  {
  }

  lemma NothingApplied(t: Table, rc: JobId -> int, clock: JobId -> int)
    ensures JM.Apply(t, [], rc, clock) == t
  {
  }

  lemma DispatchStops(s: State, a: Actor, w: WorkerId, available: seq<nat>, single: bool)
    returns (es: seq<Event>, n: State)
    requires s.Point(a) == Entered(w, Dispatch(available)) && !HeadFits(s.rows, w, available)
    ensures Run(s, es, single) == Some(n) && n.pcs == s.pcs[a := Idle] && n.rows == s.rows
  {
    hide Queue, Indices, Run, Next, HeadFits;
    Counts(s, a, w, available, single);
    Chooses(s, a, w, available, single);
    n := s.At(a, Idle);
    var m := s.At(a, Counted(w, available, Indices(s.rows, w)));
    Last(m, Choose(a), single, n);
    Then(s, Read(a), [Choose(a)], single, m, n);
    es := [Read(a)] + [Choose(a)];
  }

  // ---------------------------------------------------------------- a whole recovery

  /** The visit of one job by a recovery that runs alone does what the probe's answer says. */
  lemma Visit(s: State, a: Actor, w: WorkerId, id: JobId, todo: Todo, probe: JM.Probe, now: int, single: bool)
    returns (es: seq<Event>)
    requires s.Point(a) == Looping([(w, id)] + todo) && s.LockFree(w)
    requires id in s.rows && s.rows[id].status.Starting?
    ensures Run(s, es, single) == Some(State(JM.RecoverOne(s.rows, id, probe, now), s.pcs[a := Looping(todo)]))
  {
    hide Run, Queue, Next, JM.RecoverOne;
    var pc := Recover(id, todo);
    var m1, m2 := s.At(a, Waiting(w, pc)), s.At(a, Entered(w, pc));
    var m3 := s.At(a, Probing(w, id, s.rows[id], todo));
    var n := State(JM.RecoverOne(s.rows, id, probe, now), s.pcs[a := Looping(todo)]);
    Reaches(s, a, w, id, todo, single);
    var rest := Answers(s, a, w, id, todo, probe, now, single);
    Then(m2, Read(a), rest, single, m3, n);
    Then(m1, Acquire(a), [Read(a)] + rest, single, m2, n);
    Then(s, NextJob(a), [Acquire(a)] + ([Read(a)] + rest), single, m1, n);
    es := [NextJob(a)] + ([Acquire(a)] + ([Read(a)] + rest));
  }

  lemma Reaches(s: State, a: Actor, w: WorkerId, id: JobId, todo: Todo, single: bool)
    requires s.Point(a) == Looping([(w, id)] + todo) && s.LockFree(w)
    requires id in s.rows && s.rows[id].status.Starting?
    ensures var m1, m2 := s.At(a, Waiting(w, Recover(id, todo))), s.At(a, Entered(w, Recover(id, todo)));
            && Next(s, NextJob(a), single) == Some(m1)
            && Next(m1, Acquire(a), single) == Some(m2)
            && Next(m2, Read(a), single) == Some(s.At(a, Probing(w, id, s.rows[id], todo)))
  {
    hide Queue;
    Twice(s, a, Waiting(w, Recover(id, todo)), Entered(w, Recover(id, todo)));
    Twice(s, a, Entered(w, Recover(id, todo)), Probing(w, id, s.rows[id], todo));
    assert ([(w, id)] + todo)[1..] == todo;
  }

  lemma Answers(s: State, a: Actor, w: WorkerId, id: JobId, todo: Todo, probe: JM.Probe, now: int, single: bool)
    returns (es: seq<Event>)
    requires id in s.rows && s.rows[id].status.Starting?
    ensures Run(s.At(a, Probing(w, id, s.rows[id], todo)), es, single)
         == Some(State(JM.RecoverOne(s.rows, id, probe, now), s.pcs[a := Looping(todo)]))
  {
    hide Queue, Run, Reconcile, Next;
    var m := s.At(a, Probing(w, id, s.rows[id], todo));
    var n := State(JM.RecoverOne(s.rows, id, probe, now), s.pcs[a := Looping(todo)]);
    Probes(s, a, w, id, todo, probe(id), single);
    if probe(id).None? {
      assert s.At(a, Looping(todo)) == n;
      Last(m, Probed(a, None), single, n);
      return [Probed(a, None)];
    }
    var k := s.At(a, Settling(w, id, s.rows[id], probe(id).value, todo));
    AnswerSettles(s, a, w, id, todo, probe, now, single);
    hide JM.RecoverOne;
    Last(k, Settle(a, now), single, n);
    Then(m, Probed(a, probe(id)), [Settle(a, now)], single, k, n);
    es := [Probed(a, probe(id))] + [Settle(a, now)];
  }

  lemma Probes(s: State, a: Actor, w: WorkerId, id: JobId, todo: Todo, answer: Option<bool>, single: bool)
    requires id in s.rows
    ensures Next(s.At(a, Probing(w, id, s.rows[id], todo)), Probed(a, answer), single)
         == Some(s.At(a, if answer.None? then Looping(todo) else Settling(w, id, s.rows[id], answer.value, todo)))
  {
    hide Queue;
    Twice(s, a, Probing(w, id, s.rows[id], todo), Looping(todo));
    if answer.Some? {
      Twice(s, a, Probing(w, id, s.rows[id], todo), Settling(w, id, s.rows[id], answer.value, todo));
    }
  }

  lemma AnswerSettles(s: State, a: Actor, w: WorkerId, id: JobId, todo: Todo, probe: JM.Probe, now: int, single: bool)
    requires id in s.rows && s.rows[id].status.Starting? && probe(id).Some?
    ensures Next(s.At(a, Settling(w, id, s.rows[id], probe(id).value, todo)), Settle(a, now), single)
         == Some(State(JM.RecoverOne(s.rows, id, probe, now), s.pcs[a := Looping(todo)]))
  {
    hide Queue, Reconcile;
    Twice(s, a, Settling(w, id, s.rows[id], probe(id).value, todo), Looping(todo));
  }

  /** The agenda of a recovery that still has to visit the first `i` of `ids`, the last of them next. */
  function Agenda(t: Table, ids: seq<JobId>, i: nat): (todo: Todo)
    requires i <= |ids| && forall k :: 0 <= k < |ids| ==> ids[k] in t
    ensures |todo| == i
    ensures forall k :: 0 <= k < i ==> todo[k] == (t[ids[i - 1 - k]].worker, ids[i - 1 - k])
  {
    if i == 0 then [] else [(t[ids[i - 1]].worker, ids[i - 1])] + Agenda(t, ids, i - 1)
  }

  /** No other actor holds a lock. */
  ghost predicate NoLocks(s: State, a: Actor) {
    forall b :: b in s.pcs && b != a ==> s.pcs[b].Lock().None?
  }

  lemma {:induction false} LoopAlone(t0: Table, s: State, a: Actor, ids: seq<JobId>, i: nat, probe: JM.Probe, now: int,
                                     single: bool)
    returns (es: seq<Event>, n: State)
    requires i <= |ids| && Distinct(ids) && NoLocks(s, a)
    requires JM.Recovering(t0, s.rows, ids, i, probe) && JM.RowsAfter(t0, s.rows, ids, i, probe, now)
    requires s.Point(a) == Looping(Agenda(t0, ids, i))
    ensures Run(s, es, single) == Some(n) && n.pcs == s.pcs[a := Idle]
    ensures JM.Recovering(t0, n.rows, ids, 0, probe) && JM.RowsAfter(t0, n.rows, ids, 0, probe, now)
    decreases i
  {
    hide Run, Next, JM.Recovering, JM.RowsAfter, JM.RecoverOne, Distinct;
    if i == 0 {
      LoopEnds(s, a, single);
      n := s.At(a, Idle);
      Last(s, NextJob(a), single, n);
      return [NextJob(a)], n;
    }
    var id := ids[i - 1];
    StillStarting(t0, s, a, ids, i, probe);
    var todo := Agenda(t0, ids, i - 1);
    var visit := Visit(s, a, t0[id].worker, id, todo, probe, now, single);
    JM.RecoverStep(t0, s.rows, ids, i, probe, now);
    JM.RowsStep(t0, s.rows, ids, i, probe, now);
    var m := State(JM.RecoverOne(s.rows, id, probe, now), s.pcs[a := Looping(todo)]);
    assert m.Point(a) == Looping(todo) && m.pcs[a := Idle] == s.pcs[a := Idle];
    assert NoLocks(m, a);
    var more;
    more, n := LoopAlone(t0, m, a, ids, i - 1, probe, now, single);
    RunJoin(s, visit, more, single, m, n);
    es := visit + more;
  }

  lemma LoopEnds(s: State, a: Actor, single: bool)
    requires s.Point(a) == Looping([])
    ensures Next(s, NextJob(a), single) == Some(s.At(a, Idle))
  {
    hide Queue;
  }

  lemma StillStarting(t0: Table, s: State, a: Actor, ids: seq<JobId>, i: nat, probe: JM.Probe)
    requires 0 < i <= |ids| && JM.Recovering(t0, s.rows, ids, i, probe) && NoLocks(s, a)
    requires s.Point(a).Looping?
    ensures forall k :: 0 <= k < |ids| ==> ids[k] in t0
    ensures ids[i - 1] in s.rows && s.rows[ids[i - 1]].status.Starting?
    ensures s.LockFree(t0[ids[i - 1]].worker)
  {
    hide Queue, WellOrdered;
    assert s.rows[ids[i - 1]] == t0[ids[i - 1]];
    assert s.Point(a).Lock().None?;
  }

  /** Recovery visits the starting jobs from the last of the sort order to the first. */
  function Backwards(ids: seq<JobId>): (r: seq<JobId>)
    ensures |r| == |ids| && forall k :: 0 <= k < |ids| ==> r[k] == ids[|ids| - 1 - k]
  {
    seq(|ids|, k requires 0 <= k < |ids| => ids[|ids| - 1 - k])
  }

  lemma VisitsAgenda(t: Table, ids: seq<JobId>)
    requires forall k :: 0 <= k < |ids| ==> ids[k] in t
    ensures Visits(t, Backwards(ids)) == Agenda(t, ids, |ids|)
  {
  }

  /** A recovery that runs alone leaves exactly what `JobManager.Manager.RecoverQueues` leaves: every starting
      SSH job of an online worker gets what its probe says, and each queue is its lost jobs followed by the
      old queue. */
  lemma RecoveryAlone(s: State, a: Actor, online: set<WorkerId>, probe: JM.Probe, now: int, single: bool)
    returns (es: seq<Event>, n: State)
    requires s.Point(a).Idle? && NoLocks(s, a) && WellOrdered(s.rows)
    requires single ==> forall b :: b in s.pcs ==> !s.pcs[b].InRecovery()
    ensures Run(s, es, single) == Some(n) && n.pcs == s.pcs[a := Idle]
    ensures JM.StartingIds(s.rows, online) <= JM.StartKeys(s.rows).Keys
    ensures var ids := Sorted(JM.StartKeys(s.rows), JM.StartingIds(s.rows, online));
            JM.Recovering(s.rows, n.rows, ids, 0, probe)
    ensures n.rows.Keys == s.rows.Keys
    ensures forall x :: x in s.rows ==>
              var job := s.rows[x];
              if job.status.Starting? && job.kind.Ssh? && job.worker in online
              then JM.RecoveredRow(job, n.rows[x], probe(x), now) else JM.Bystander(job, n.rows[x])
  {
    hide Queue, Run, Next, JM.RecoveredRow, JM.Bystander, Sorted, JM.Recovering, JM.RowsAfter, WellOrdered, Ascending;
    var t := s.rows;
    var ids := Sorted(JM.StartKeys(t), JM.StartingIds(t, online));
    SortedLists(JM.StartKeys(t), JM.StartingIds(t, online));
    SortedAscending(JM.StartKeys(t), JM.StartingIds(t, online));
    AscendingDistinct(JM.StartKeys(t), ids);
    assert forall k :: 0 <= k < |ids| ==> ids[k] in ids;
    JM.RecoverStart(t, ids, probe);
    JM.RowsStart(t, ids, probe, now);
    Begins(s, a, online, ids, single);
    var m := s.At(a, Looping(Agenda(t, ids, |ids|)));
    assert m.Point(a) == Looping(Agenda(t, ids, |ids|)) && m.pcs[a := Idle] == s.pcs[a := Idle];
    var more;
    more, n := LoopAlone(t, m, a, ids, |ids|, probe, now, single);
    JM.RowsOfAll(t, n.rows, ids, probe, now, online);
    SameKeys(t, n.rows, ids, probe, now);
    Then(s, BeginRecovery(a, online, Backwards(ids)), more, single, m, n);
    es := [BeginRecovery(a, online, Backwards(ids))] + more;
  }

  lemma SameKeys(t0: Table, t: Table, ids: seq<JobId>, probe: JM.Probe, now: int)
    requires JM.RowsAfter(t0, t, ids, 0, probe, now)
    ensures t.Keys == t0.Keys
  {
  }

  lemma BackwardsLists(ids: seq<JobId>)
    requires Distinct(ids)
    ensures Distinct(Backwards(ids)) && forall x :: x in Backwards(ids) <==> x in ids
  {
    var order := Backwards(ids);
    hide Backwards;
    forall x ensures x in order <==> x in ids {
      if x in ids {
        var k :| 0 <= k < |ids| && ids[k] == x;
        assert order[|ids| - 1 - k] == x;
      }
    }
  }

  lemma Begins(s: State, a: Actor, online: set<WorkerId>, ids: seq<JobId>, single: bool)
    requires s.Point(a).Idle? && Lists(JM.StartingIds(s.rows, online), ids) && Distinct(ids)
    requires single ==> forall b :: b in s.pcs ==> !s.pcs[b].InRecovery()
    ensures forall k :: 0 <= k < |ids| ==> ids[k] in s.rows
    ensures Next(s, BeginRecovery(a, online, Backwards(ids)), single)
         == Some(s.At(a, Looping(Agenda(s.rows, ids, |ids|))))
  {
    hide Queue, Backwards, Visits, Agenda, JM.StartingIds;
    StartingIn(s.rows, online);
    assert forall k :: 0 <= k < |ids| ==> ids[k] in ids;
    VisitsAgenda(s.rows, ids);
    BackwardsLists(ids);
  }

  lemma StartingIn(t: Table, online: set<WorkerId>)
    ensures forall x :: x in JM.StartingIds(t, online) ==> x in t
  {
  }

  // ---------------------------------------------------------------- calls that are one event

  /** An enqueued job goes last in its worker's queue and no other queue changes; a report stores exactly the
      reported row. */
  lemma ArrivalsMean(s: State, e: Event, single: bool, v: WorkerId)
    requires WellOrdered(s.rows) && (e.Enqueue? || e.Report?) && Next(s, e, single).Some?
    ensures var n := Next(s, e, single).value;
            && n.pcs == s.pcs
            && (e.Enqueue? ==>
                  && e.id !in s.rows
                  && Queue(n.rows, v) == Queue(s.rows, v) + (if v == e.job.worker then [e.id] else [])
                  && forall x :: x in s.rows ==> x in n.rows && n.rows[x] == s.rows[x])
            && (e.Report? ==> n.rows == s.rows[e.id := e.job])
  {
    if e.Enqueue? { InsertAppends(s.rows, e.id, e.job, v); }
    hide Queue, MaxOrder;
  }

  /** An edit of a waiting job leaves its queues as `JobTable.EditLands` says; other queues only lose the job. */
  lemma EditsMean(s: State, e: Event, single: bool, v: WorkerId)
    requires WellOrdered(s.rows) && e.EditPending? && Next(s, e, single).Some?
    ensures e.id in s.rows && e.id in Queue(s.rows, s.rows[e.id].worker)
    ensures var n := Next(s, e, single).value;
            var dst := GetOr(e.e.worker, s.rows[e.id].worker);
            var before, after := Queue(s.rows, dst), Queue(n.rows, dst);
            var others := |Without(before, e.id)|;
            && n.pcs == s.pcs
            && (v != dst ==> Queue(n.rows, v) == Without(Queue(s.rows, v), e.id))
            && (e.e.position.Some? ==> PutAt(before, after, e.id, Landing(e.e.position.value, others)))
            && (e.e.position.None? && dst == s.rows[e.id].worker ==> after == before)
            && (e.e.position.None? && dst != s.rows[e.id].worker ==> PutAt(before, after, e.id, others))
  {
    EditLands(s.rows, e.id, e.e);
    UpdateMoves(s.rows, e.id, e.e, v);
    hide Queue, Moved, PutAt, Landing, Without, PlacedQueue;
  }

  /** A lost claim leaves the table and tries the queue again; a won one is launched next. An abort gives up
      the lock and leaves the table; a failing job only ends its own visit by recovery. */
  lemma InterruptionsMean(s: State, e: Event, single: bool)
    requires (e.Claim? || e.Abort? || e.JobFails?) && Next(s, e, single).Some?
    ensures var pc, n := s.Point(e.a), Next(s, e, single).value;
            && n.pcs == s.pcs[e.a := n.Point(e.a)]
            && (e.Claim? ==>
                  && pc.Chosen?
                  && (if Claimable(s.rows, pc.id, pc.gpus, pc.w) then
                        n.Point(e.a) == Launching(pc.w, pc.id, s.rows[pc.id].(status := Status.Starting,
                                                    gpuIndices := pc.gpus, startedAt := e.now), Some(pc.available))
                        && n.rows == s.rows[pc.id := n.Point(e.a).read]
                      else n.rows == s.rows && n.Point(e.a) == Entered(pc.w, Dispatch(pc.available))))
            && (e.Abort? ==> n.rows == s.rows && n.Point(e.a) == Idle && pc != Idle)
            && (e.JobFails? ==>
                  && n.rows == s.rows
                  && ((pc.Entered? && pc.op.Recover? && n.Point(e.a) == Looping(pc.op.todo))
                      || ((pc.Probing? || pc.Settling?) && n.Point(e.a) == Looping(pc.todo))))
  {
    hide Queue, Indices, Claimable;
  }
}
