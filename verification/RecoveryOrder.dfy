/** When crash recovery gives a worker its queue back in claim order: after one dispatch, and after any
    spell of claims, enqueues, edits and cancellations. */
module RecoveryOrder {
  import opened Prelude
  import opened Ordering
  import opened JobTable
  import opened JobManager

  // ---------------------------------------------------------------- a spell of queue operations

  datatype Operation =
    | Take(v: WorkerId, id: JobId, gpus: seq<nat>, now: int, returnCode: int)   // claim and launch
    | Add(id: JobId, job: Job)
    | Reorder(id: JobId, e: Edit)
    | Drop(id: JobId, now: int)

  predicate Possible(t: Table, op: Operation) {
    match op
    case Take(v, id, gpus, _, _) => Claimable(t, id, gpus, v)
    case Add(id, job) => id !in t && job.kind.Ssh?
    case Reorder(id, _) => id in t && InQueue(t[id], t[id].worker)
    case Drop(id, _) => id in t && InQueue(t[id], t[id].worker)
  }

  function After(t: Table, op: Operation): Table
    requires Possible(t, op)
  {
    match op
    case Take(v, id, gpus, now, returnCode) => LaunchRow(t, Assignment(id, gpus), returnCode, now)
    case Add(id, job) => InsertQueued(t, id, job)
    case Reorder(id, e) => PlacedFacts(t, id, e); Moved(t, id, e)
    case Drop(id, now) => FailPending(t, id, now)
  }

  /** The table, the claims on one worker whose launch got no answer, and whether any queue was edited
      since the last of them. */
  datatype Trail = Trail(table: Table, claims: seq<JobId>, edited: bool)

  /** A claim on worker `w` whose launch outcome stays unknown. */
  predicate Loses(op: Operation, w: WorkerId) {
    op.Take? && op.v == w && Classify(op.returnCode).Unknown?
  }

  function Follow(tr: Trail, w: WorkerId, op: Operation): Trail
    requires Possible(tr.table, op)
  {
    if Loses(op, w) then Trail(After(tr.table, op), tr.claims + [op.id], false)
    else Trail(After(tr.table, op), tr.claims, tr.edited || op.Reorder? || op.Drop?)
  }

  /** Claims on one worker carry times that never run backwards. */
  predicate Timely(tr: Trail, w: WorkerId, op: Operation) {
    Loses(op, w) && tr.claims != [] ==>
      var last := tr.claims[|tr.claims| - 1];
      last in tr.table && tr.table[last].startedAt <= op.now
  }

  /** The claim falls into the second of the previous lost one, after an edit, at a position that is not
      behind that one's. All of it can be read off the table before the claim. */
  predicate Crosses(tr: Trail, w: WorkerId, op: Operation) {
    Loses(op, w) && tr.edited && tr.claims != [] &&
      var last := tr.claims[|tr.claims| - 1];
      && last in tr.table && op.id in tr.table && tr.table[last].startedAt == op.now
      && !(tr.table[last].queueOrder < tr.table[op.id].queueOrder
           || (tr.table[last].queueOrder == tr.table[op.id].queueOrder && last < op.id))
  }

  predicate Spell(tr: Trail, w: WorkerId, ops: seq<Operation>)
    decreases |ops|
  {
    ops == [] || (Possible(tr.table, ops[0]) && Timely(tr, w, ops[0]) && Spell(Follow(tr, w, ops[0]), w, ops[1..]))
  }

  function End(tr: Trail, w: WorkerId, ops: seq<Operation>): Trail
    requires Spell(tr, w, ops)
    decreases |ops|
  {
    if ops == [] then tr else End(Follow(tr, w, ops[0]), w, ops[1..])
  }

  predicate NeverCrosses(tr: Trail, w: WorkerId, ops: seq<Operation>)
    requires Spell(tr, w, ops)
    decreases |ops|
  {
    ops == [] || (!Crosses(tr, w, ops[0]) && NeverCrosses(Follow(tr, w, ops[0]), w, ops[1..]))
  }

  // ---------------------------------------------------------------- what a spell keeps

  ghost predicate QueueSsh(t: Table) {
    forall x :: x in t && t[x].queueManaged ==> t[x].kind.Ssh?
  }

  /** Everything still queued on `w` is behind the claimed job `last`. */
  ghost predicate AllBehind(t: Table, w: WorkerId, last: JobId) {
    last in t && forall q :: q in QueueIds(t, w) ==> t[q].queueOrder > t[last].queueOrder
  }

  ghost predicate TrailOk(tr: Trail, w: WorkerId) {
    && WellOrdered(tr.table) && QueueSsh(tr.table) && Distinct(tr.claims)
    && (forall x :: x in tr.claims <==> x in WithStatus(tr.table, w, Starting))
    && (!tr.edited && tr.claims != [] ==> AllBehind(tr.table, w, tr.claims[|tr.claims| - 1]))
  }

  /** No operation touches a claimed row, and only a lost claim adds one. */
  lemma AfterRow(t: Table, op: Operation, x: JobId)
    requires WellOrdered(t) && Possible(t, op) && x in t
    ensures x in After(t, op)
    ensures (op.Take? || op.Add?) && x != op.id ==> After(t, op)[x] == t[x]
    ensures !t[x].status.Pending? ==> After(t, op)[x] == t[x]
    ensures !(op.Take? && x == op.id) && t[x].status.Pending? ==>
              After(t, op)[x].kind == t[x].kind && After(t, op)[x].queueManaged == t[x].queueManaged
              && !After(t, op)[x].status.Starting?
  {
    hide Queue, Moved, FailPending, WellOrdered;
    match op
    case Reorder(id, e) => MovedRow(t, id, e, x);
    case Drop(id, now) => FailRow(t, id, now, x);
    case _ =>
  }

  lemma AfterKeys(t: Table, op: Operation)
    requires Possible(t, op)
    ensures After(t, op).Keys == if op.Add? then t.Keys + {op.id} else t.Keys
  {
    hide Queue, Moved, FailPending;
    match op
    case Reorder(id, e) => MovedKeys(t, id, e);
    case Drop(id, now) => FailKeys(t, id, now);
    case _ =>
  }

  lemma AfterOrdered(t: Table, op: Operation)
    requires WellOrdered(t) && Possible(t, op)
    ensures WellOrdered(After(t, op))
  {
    hide Queue, Moved, FailPending;
    match op
    case Take(v, id, gpus, now, returnCode) =>
      var claimed := Claim(t, id, gpus, now);
      ClaimPops(t, id, gpus, now, v, v);
      WriteBackQueue(claimed, id, After(t, op)[id], v);
    case Add(id, job) => InsertAppends(t, id, job, 0);
    case Reorder(id, e) => UpdateWellOrdered(t, id, e);
    case Drop(id, now) => FailRemoves(t, id, now, 0);
  }

  /** The rows after one operation, and which of them are starting. */
  lemma FollowStarting(tr: Trail, w: WorkerId, op: Operation)
    requires TrailOk(tr, w) && Possible(tr.table, op)
    ensures QueueSsh(Follow(tr, w, op).table) && Distinct(Follow(tr, w, op).claims)
    ensures forall x :: x in Follow(tr, w, op).claims <==> x in WithStatus(Follow(tr, w, op).table, w, Starting)
    ensures forall x :: x in tr.claims ==>
              x in tr.table && x in Follow(tr, w, op).table && Follow(tr, w, op).table[x] == tr.table[x]
  {
    hide AllBehind, Queue, WellOrdered, Moved, FailPending, LaunchRow, InsertQueued;
    AfterKeys(tr.table, op);
    forall x | x in tr.table ensures Unclaimed(tr.table, After(tr.table, op), op, x) {
      AfterRow(tr.table, op, x);
    }
    if op.Take? {
      TakenRow(tr.table, op);
      assert op.id !in tr.claims;
    } else if op.Add? {
      AddedRow(tr.table, op);
    }
    hide After, Possible;
  }

  /** What an operation leaves of a row it does not claim. */
  predicate Unclaimed(t: Table, n: Table, op: Operation, x: JobId)
    requires x in t
  {
    && x in n
    && (!t[x].status.Pending? ==> n[x] == t[x])
    && (!(op.Take? && x == op.id) && t[x].status.Pending? ==>
          n[x].kind == t[x].kind && n[x].queueManaged == t[x].queueManaged && !n[x].status.Starting?)
  }

  lemma AddedRow(t: Table, op: Operation)
    requires op.Add? && Possible(t, op)
    ensures op.id in After(t, op) && !After(t, op)[op.id].status.Starting? && After(t, op)[op.id].kind.Ssh?
  {
  }

  lemma TakenRow(t: Table, op: Operation)
    requires op.Take? && Possible(t, op)
    ensures op.id in t && InQueue(t[op.id], op.v) && Queue(t, op.v) != [] && Queue(t, op.v)[0] == op.id
    ensures op.id in After(t, op)
    ensures var row := After(t, op)[op.id];
            && row.kind == t[op.id].kind && row.queueManaged && row.worker == op.v
            && row.queueOrder == t[op.id].queueOrder
            && (row.status.Starting? <==> Classify(op.returnCode).Unknown?) && !row.status.Pending?
            && row.startedAt == op.now
  {
    hide Queue;
  }

  /** Without an edit, what is queued stays behind the last lost claim. */
  lemma FollowBehind(tr: Trail, w: WorkerId, op: Operation)
    requires TrailOk(tr, w) && Possible(tr.table, op)
    ensures var n := Follow(tr, w, op);
            !n.edited && n.claims != [] ==> AllBehind(n.table, w, n.claims[|n.claims| - 1])
  {
    hide Queue, Moved, FailPending;
    var n := Follow(tr, w, op);
    if op.Take? {
      TakenRow(tr.table, op);
      QueueFacts(tr.table, w);
      AfterKeys(tr.table, op);
      forall x | x in tr.table && x != op.id ensures n.table[x] == tr.table[x] { AfterRow(tr.table, op, x); }
      if Loses(op, w) { HeadFirst(tr.table, w); }
      hide After;
    } else if op.Add? && tr.claims != [] && !tr.edited {
      AddBehind(tr.table, w, op, tr.claims[|tr.claims| - 1]);
    }
  }

  /** Positions in a queue strictly ascend. */
  lemma HeadFirst(t: Table, w: WorkerId)
    requires WellOrdered(t) && Queue(t, w) != []
    ensures Queue(t, w)[0] in t
    ensures forall q :: q in QueueIds(t, w) && q != Queue(t, w)[0] ==> t[q].queueOrder > t[Queue(t, w)[0]].queueOrder
  {
    QueueFacts(t, w);
    hide Queue;
    var head := Queue(t, w)[0];
    assert head in Queue(t, w) && OrderedAt(t, w);
    forall q | q in QueueIds(t, w) && q != head ensures t[q].queueOrder > t[head].queueOrder {
      var i :| 0 <= i < |Queue(t, w)| && Queue(t, w)[i] == q;
    }
  }

  lemma AddBehind(t: Table, w: WorkerId, op: Operation, last: JobId)
    requires op.Add? && Possible(t, op) && AllBehind(t, w, last) && last in WithStatus(t, w, Starting)
    ensures AllBehind(After(t, op), w, last)
  {
    assert t[last].queueOrder <= MaxOrder(t, w);
  }

  /** A lost claim sorts behind the earlier ones exactly if it does not cross. */
  lemma FollowAscends(tr: Trail, w: WorkerId, op: Operation)
    requires TrailOk(tr, w) && Possible(tr.table, op) && Timely(tr, w, op)
    ensures Ascending(StartKeys(Follow(tr, w, op).table), Follow(tr, w, op).claims)
       <==> Ascending(StartKeys(tr.table), tr.claims) && !Crosses(tr, w, op)
  {
    hide TrailOk, Ascending, After, Possible, Crosses, Timely, QueueSsh;
    FollowStarting(tr, w, op);
    var n := Follow(tr, w, op);
    AscendingFrame(StartKeys(tr.table), StartKeys(n.table), tr.claims);
    MayCross(tr, w, op);
    if Loses(op, w) {
      AfterKeys(tr.table, op);
      TakenRow(tr.table, op);
      if tr.claims != [] { TakeAscends(tr, w, op); }
      AscendingSnoc(StartKeys(n.table), tr.claims, op.id);
    }
  }

  lemma MayCross(tr: Trail, w: WorkerId, op: Operation)
    ensures Crosses(tr, w, op) ==> Loses(op, w) && tr.claims != []
  {
  }

  lemma TakeAscends(tr: Trail, w: WorkerId, op: Operation)
    requires TrailOk(tr, w) && Possible(tr.table, op) && Timely(tr, w, op) && Loses(op, w) && tr.claims != []
    requires Follow(tr, w, op).table.Keys == tr.table.Keys
    requires forall x :: x in tr.claims ==> x in tr.table && Follow(tr, w, op).table[x] == tr.table[x]
    ensures op.id in Follow(tr, w, op).table
    ensures Before(StartKeys(Follow(tr, w, op).table), tr.claims[|tr.claims| - 1], op.id) <==> !Crosses(tr, w, op)
  {
    TakenRow(tr.table, op);
    hide After, WellOrdered, Queue, Possible;
    assert op.id in QueueIds(tr.table, w);
    assert tr.claims[|tr.claims| - 1] in tr.claims;
  }

  lemma AscendingFrame(keys: SortKeys, keys': SortKeys, s: seq<nat>)
    requires forall x :: x in s ==> x in keys && x in keys' && keys[x] == keys'[x]
    ensures Ascending(keys, s) <==> Ascending(keys', s)
  {
    assert forall i :: 0 <= i < |s| ==> s[i] in s;
  }

  lemma AscendingSnoc(keys: SortKeys, s: seq<nat>, x: nat)
    requires x in keys && forall y :: y in s ==> y in keys
    ensures Ascending(keys, s + [x]) <==> Ascending(keys, s) && (s == [] || Before(keys, s[|s| - 1], x))
  {
    var r := s + [x];
    assert forall i :: 0 <= i < |s| ==> r[i] == s[i];
    assert r[|s|] == x;
    if Ascending(keys, r) {
      assert forall i, j :: 0 <= i < j < |s| ==> Before(keys, r[i], r[j]);
      assert s != [] ==> Before(keys, r[|s| - 1], r[|s|]);
    }
    if Ascending(keys, s) && (s == [] || Before(keys, s[|s| - 1], x)) {
      forall i, j | 0 <= i < j < |r| ensures Before(keys, r[i], r[j]) {
        assert j == |s| && i < |s| - 1 ==> Before(keys, s[i], s[|s| - 1]);
      }
    }
  }

  lemma FollowOk(tr: Trail, w: WorkerId, op: Operation)
    requires TrailOk(tr, w) && Possible(tr.table, op)
    ensures TrailOk(Follow(tr, w, op), w)
  {
    FollowStarting(tr, w, op);
    FollowBehind(tr, w, op);
    AfterOrdered(tr.table, op);
    hide After, WellOrdered, AllBehind, QueueSsh;
  }

  lemma {:induction false} SpellAscends(tr: Trail, w: WorkerId, ops: seq<Operation>)
    requires TrailOk(tr, w) && Spell(tr, w, ops)
    ensures TrailOk(End(tr, w, ops), w)
    ensures Ascending(StartKeys(End(tr, w, ops).table), End(tr, w, ops).claims)
       <==> Ascending(StartKeys(tr.table), tr.claims) && NeverCrosses(tr, w, ops)
    decreases |ops|
  {
    hide TrailOk, Follow, Possible, Timely, Crosses, Ascending;
    if ops != [] {
      FollowOk(tr, w, ops[0]);
      FollowAscends(tr, w, ops[0]);
      SpellAscends(Follow(tr, w, ops[0]), w, ops[1..]);
    }
  }

  // ---------------------------------------------------------------- the theorem

  /** A worker starts a spell with no claim outstanding. Over any claims, enqueues, edits and
      cancellations, of this and of other workers, recovery puts exactly the lost claims back in the
      order they were made if and only if no claim crossed. */
  lemma RecoveryKeepsClaimOrder(t: Table, w: WorkerId, ops: seq<Operation>, online: set<WorkerId>, probe: Probe)
    requires WellOrdered(t) && QueueSsh(t) && WithStatus(t, w, Starting) == {} && w in online
    requires Spell(Trail(t, [], false), w, ops)
    requires forall x :: x in End(Trail(t, [], false), w, ops).claims ==> probe(x) == Some(false)
    ensures var end := End(Trail(t, [], false), w, ops);
            && StartingIds(end.table, online) <= StartKeys(end.table).Keys
            && (LostOf(end.table, Sorted(StartKeys(end.table), StartingIds(end.table, online)), w, probe) == end.claims
                <==> NeverCrosses(Trail(t, [], false), w, ops))
  {
    var start := Trail(t, [], false);
    SpellAscends(start, w, ops);
    hide Spell, NeverCrosses, End, WellOrdered;
    var end := End(start, w, ops);
    RecoveryRestoresFifo(end.table, online, w, probe, end.claims);
  }

  /** Only an edit or a cancellation can make a claim cross: a spell without them is always restored. */
  lemma {:induction false} OnlyEditsCross(tr: Trail, w: WorkerId, ops: seq<Operation>)
    requires Spell(tr, w, ops) && !tr.edited && forall op :: op in ops ==> !op.Reorder? && !op.Drop?
    ensures NeverCrosses(tr, w, ops)
    decreases |ops|
  {
    hide Possible, Timely, After;
    if ops != [] {
      assert ops[0] in ops;
      OnlyEditsCross(Follow(tr, w, ops[0]), w, ops[1..]);
    }
  }

  /** Renumbering puts the next head at position 1: in the second of the previous lost claim it crosses
      unless that one had position 1 too and a smaller id. */
  lemma HeadAfterEdit(t: Table, id: JobId, e: Edit)
    requires WellOrdered(t) && id in t && InQueue(t[id], t[id].worker)
    ensures id in Queue(t, t[id].worker)
    ensures var queue := Queue(Moved(t, id, e), GetOr(e.worker, t[id].worker));
            queue != [] && queue[0] in Moved(t, id, e) && Moved(t, id, e)[queue[0]].queueOrder == 1
  {
    hide Queue;
    var w := GetOr(e.worker, t[id].worker);
    PlacedFacts(t, id, e);
    UpdateMoves(t, id, e, w);
    WithoutDistinct(t, t[id].worker, id);
    var placed := PlacedQueue(t, id, e);
    assert id in placed;
    var t1 := t[id := EditRow(t[id], e)];
    var left := Without(Queue(t, t[id].worker), id);
    var t2 := if t1[id].worker == t[id].worker then t1 else Renumber(t1, left);
    hide PlacedQueue;
    RenumberRows(t2, placed);
  }

  // ---------------------------------------------------------------- a claim that crosses

  const JOB := Job(1, "train", Pending, true, Ssh, None, 60, 1, [], 0, 0, 0)
  const RENAME := Edit(None, None, Some("retrain"), None, None)

  /** Jobs 9 and 4 wait on worker 1 in that order. */
  lemma TwoQueued() returns (t: Table)
    ensures t.Keys == {4, 9} && WellOrdered(t) && Queue(t, 1) == [9, 4]
    ensures forall x :: x in t ==> InQueue(t[x], 1) && t[x].kind.Ssh? && t[x].gpuCount == 1 && t[x].gpuIndices == []
    ensures t[9].queueOrder == 1
  {
    assert QueueIds(map[], 1) == {};
    var one := InsertQueued(map[], 9, JOB);
    InsertAppends(map[], 9, JOB, 1);
    InsertAppends(one, 4, JOB, 1);
    t := InsertQueued(one, 4, JOB);
    assert Queue(one, 1) == [9];
    MaxOfNothing();
  }

  lemma MaxOfNothing()
    ensures MaxOrder(map[], 1) == 0
  {
    assert LiveOrders(map[], 1) == {};
  }

  /** Job 9 is claimed in second 100 and its launch gets no answer. */
  lemma FirstTaken(t: Table) returns (n: Table)
    requires t.Keys == {4, 9} && WellOrdered(t) && Queue(t, 1) == [9, 4] && t[9].queueOrder == 1
    requires forall x :: x in t ==> InQueue(t[x], 1) && t[x].kind.Ssh? && t[x].gpuCount == 1 && t[x].gpuIndices == []
    ensures Possible(t, Take(1, 9, [0], 100, 255)) && n == After(t, Take(1, 9, [0], 100, 255))
    ensures n.Keys == {4, 9} && WellOrdered(n) && Queue(n, 1) == [4] && n[4] == t[4]
    ensures n[9] == t[9].(status := Starting, gpuIndices := [0], startedAt := 100)
  {
    assert Indices(t, 1) == {};
    ClaimPops(t, 9, [0], 100, 1, 1);
    n := After(t, Take(1, 9, [0], 100, 255));
    assert n == Claim(t, 9, [0], 100);
  }

  /** Job 4 is renamed, which renumbers it to position 1, and claimed in the same second. */
  lemma SecondTaken(t: Table) returns (n: Table)
    requires t.Keys == {4, 9} && WellOrdered(t) && Queue(t, 1) == [4]
    requires InQueue(t[4], 1) && t[4].kind.Ssh? && t[4].gpuCount == 1
    requires t[9].status.Starting? && t[9].worker == 1 && t[9].gpuIndices == [0]
    ensures Possible(t, Reorder(4, RENAME)) && n == After(t, Reorder(4, RENAME))
    ensures n.Keys == {4, 9} && n[9] == t[9] && InQueue(n[4], 1) && n[4].queueOrder == 1 && n[4].kind.Ssh?
    ensures Possible(n, Take(1, 4, [1], 100, 255))
  {
    hide Moved, Queue;
    PlacedFacts(t, 4, RENAME);
    n := After(t, Reorder(4, RENAME));
    MovedKeys(t, 4, RENAME);
    MovedRow(t, 4, RENAME, 4);
    MovedRow(t, 4, RENAME, 9);
    UpdateMoves(t, 4, RENAME, 1);
    UpdateInPlace(t, 4, RENAME);
    HeadAfterEdit(t, 4, RENAME);
    assert Indices(n, 1) <= {0} by {
      forall g | g in Indices(n, 1) ensures g == 0 {
        var x :| x in n && n[x].queueManaged && n[x].worker == 1 && n[x].Active() && g in n[x].gpuIndices;
      }
    }
  }

  /** A run that recovery does not restore: job 9 was claimed before job 4, but both in second 100 and
      both from position 1, so the smaller id goes first. */
  lemma SameSecondEditCrosses(probe: Probe) returns (t: Table, ops: seq<Operation>)
    requires probe(4) == Some(false) && probe(9) == Some(false)
    ensures WellOrdered(t) && QueueSsh(t) && WithStatus(t, 1, Starting) == {}
    ensures Spell(Trail(t, [], false), 1, ops) && End(Trail(t, [], false), 1, ops).claims == [9, 4]
    ensures !NeverCrosses(Trail(t, [], false), 1, ops)
    ensures LostQueue(End(Trail(t, [], false), 1, ops).table, 1, {1}, probe) == [4, 9]
  {
    hide Queue, After, Possible, WellOrdered;
    t := TwoQueued();
    var t1 := FirstTaken(t);
    var t2 := SecondTaken(t1);
    var a, b, c := Take(1, 9, [0], 100, 255), Reorder(4, RENAME), Take(1, 4, [1], 100, 255);
    var tr := Trail(t, [], false);
    var tr1, tr2 := Trail(t1, [9], false), Trail(t2, [9], true);
    assert Follow(tr, 1, a) == tr1 && Follow(tr1, 1, b) == tr2;
    assert Follow(tr2, 1, c).claims == [9, 4];
    ops := [a, b, c];
    SpellCons(tr2, 1, c, []);
    SpellCons(tr1, 1, b, [c]);
    SpellCons(tr, 1, a, [b, c]);
    BothStarting(t2, probe);
    assert [a] + ([b] + ([c] + [])) == ops && [b] + [c] == [b, c] && [c] + [] == [c];
  }

  lemma BothStarting(t: Table, probe: Probe)
    requires t.Keys == {4, 9} && InQueue(t[4], 1) && t[4].kind.Ssh? && t[4].queueOrder == 1
    requires t[9].status.Starting? && t[9].worker == 1 && t[9].queueManaged && t[9].kind.Ssh?
    requires t[9].queueOrder == 1 && t[9].startedAt == 100 && probe(4) == Some(false) && probe(9) == Some(false)
    requires Possible(t, Take(1, 4, [1], 100, 255))
    ensures LostQueue(After(t, Take(1, 4, [1], 100, 255)), 1, {1}, probe) == [4, 9]
  {
    hide Queue, Indices;
    var n := After(t, Take(1, 4, [1], 100, 255));
    UnknownLaunch(t, Assignment(4, [1]), 255, 100);
    assert Before(StartKeys(n), 4, 9);
    LostQueueIs(n, 1, {1}, probe, [4, 9]);
  }

  lemma SpellCons(tr: Trail, w: WorkerId, op: Operation, rest: seq<Operation>)
    requires Possible(tr.table, op) && Timely(tr, w, op) && Spell(Follow(tr, w, op), w, rest)
    ensures Spell(tr, w, [op] + rest) && End(tr, w, [op] + rest) == End(Follow(tr, w, op), w, rest)
    ensures NeverCrosses(tr, w, [op] + rest) <==> !Crosses(tr, w, op) && NeverCrosses(Follow(tr, w, op), w, rest)
  {
    assert ([op] + rest)[0] == op && ([op] + rest)[1..] == rest;
  }

  // ---------------------------------------------------------------- one dispatch

  /** The row of a job whose launch was lost at its clock time; any other row is unchanged. */
  predicate RowAfter(t: Table, n: Table, ids: seq<JobId>, clock: JobId -> int, x: JobId) {
    && x in t && x in n
    && if x in ids then n[x] == t[x].(status := Starting, gpuIndices := n[x].gpuIndices, startedAt := clock(x))
       else n[x] == t[x]
  }

  lemma UnknownLaunch(t: Table, a: Assignment, returnCode: int, now: int)
    requires a.id in t && Classify(returnCode).Unknown?
    ensures LaunchRow(t, a, returnCode, now) == Claim(t, a.id, a.gpus, now)
  {
  }

  lemma {:induction false} AppliedRow(t: Table, plan: seq<Assignment>, rc: JobId -> int, clock: JobId -> int, x: JobId)
    requires (forall a :: a in plan ==> a.id in t && Classify(rc(a.id)).Unknown?) && Distinct(Ids(plan)) && x in t
    ensures RowAfter(t, Apply(t, plan, rc, clock), Ids(plan), clock, x)
  {
    if plan == [] {
      assert Ids(plan) == [];
    } else {
      var init, a := plan[..|plan| - 1], plan[|plan| - 1];
      assert Ids(plan) == Ids(init) + [a.id];
      assert forall b :: b in init ==> b in plan;
      assert a in plan;
      LastApart(Ids(init), a.id);
      hide Ids, Distinct, LaunchRow, Classify;
      AppliedRow(t, init, rc, clock, x);
      AppliedRow(t, init, rc, clock, a.id);
      UnknownLaunch(Apply(t, init, rc, clock), a, rc(a.id), clock(a.id));
    }
  }

  lemma LastApart(s: seq<nat>, x: nat)
    requires Distinct(s + [x])
    ensures Distinct(s) && x !in s
  {
    var r := s + [x];
    assert forall i :: 0 <= i < |s| ==> r[i] == s[i];
    assert r[|s|] == x;
  }

  /** The jobs lost on a worker, in recovery's order. */
  function LostQueue(t: Table, w: WorkerId, online: set<WorkerId>, probe: Probe): seq<JobId> {
    StartedRows(t, online);
    LostOf(t, Sorted(StartKeys(t), StartingIds(t, online)), w, probe)
  }

  lemma StartedRows(t: Table, online: set<WorkerId>)
    ensures StartingIds(t, online) <= StartKeys(t).Keys
  {
  }

  lemma LostQueueFacts(t: Table, w: WorkerId, online: set<WorkerId>, probe: Probe)
    ensures Ascending(StartKeys(t), LostQueue(t, w, online, probe))
    ensures forall x :: x in LostQueue(t, w, online, probe) <==> x in StartingIds(t, online) && Lost(t, x, w, probe)
  {
    StartedRows(t, online);
    SortedLists(StartKeys(t), StartingIds(t, online));
    SortedAscending(StartKeys(t), StartingIds(t, online));
    LostAscending(t, Sorted(StartKeys(t), StartingIds(t, online)), w, probe);
  }

  /** A list with the members and order of the lost jobs is the lost queue. */
  lemma LostQueueIs(t: Table, w: WorkerId, online: set<WorkerId>, probe: Probe, s: seq<JobId>)
    requires Ascending(StartKeys(t), s)
    requires forall x :: x in s <==> x in StartingIds(t, online) && Lost(t, x, w, probe)
    ensures LostQueue(t, w, online, probe) == s
  {
    LostQueueFacts(t, w, online, probe);
    var ids := set x | x in s;
    SortedUnique(StartKeys(t), ids, s);
    SortedUnique(StartKeys(t), ids, LostQueue(t, w, online, probe));
  }

  /** The clock does not run backwards along the queue, and every job already starting on the worker
      started in an earlier second. */
  ghost predicate OnTime(t: Table, w: WorkerId, clock: JobId -> int) {
    && (forall i, j :: 0 <= i < j < |Queue(t, w)| ==> clock(Queue(t, w)[i]) <= clock(Queue(t, w)[j]))
    && (forall x, q :: x in WithStatus(t, w, Starting) && q in Queue(t, w) ==> t[x].startedAt < clock(q))
  }

  /** The claims of one dispatch sort after all earlier ones and among themselves in queue order. */
  lemma DispatchedAscends(t: Table, n: Table, w: WorkerId, ids: seq<JobId>, earlier: seq<JobId>, clock: JobId -> int)
    requires n.Keys == t.Keys && OnTime(t, w, clock) && ids <= Queue(t, w) && Ascending(StartKeys(t), earlier)
    requires forall x :: x in earlier ==> x in WithStatus(t, w, Starting) && x !in ids
    requires forall x :: x in t ==> RowAfter(t, n, ids, clock, x)
    ensures Ascending(StartKeys(n), earlier + ids)
  {
    QueueFacts(t, w);
    hide Queue, QueueIds, WithStatus;
    var s := earlier + ids;
    assert forall i :: 0 <= i < |earlier| ==> earlier[i] in earlier;
    assert forall i :: 0 <= i < |ids| ==> ids[i] in ids && ids[i] == Queue(t, w)[i] && Queue(t, w)[i] in Queue(t, w);
    forall i, j | 0 <= i < j < |s| ensures Before(StartKeys(n), s[i], s[j]) {
      if j < |earlier| {
        assert Before(StartKeys(t), earlier[i], earlier[j]);
      } else if i >= |earlier| {
        assert Before(QueueKeys(t), ids[i - |earlier|], ids[j - |earlier|]);
      }
    }
  }

  /** The jobs lost after the dispatch are those lost before and the dispatched ones. */
  lemma DispatchedLost(t: Table, n: Table, w: WorkerId, ids: seq<JobId>, clock: JobId -> int,
                       online: set<WorkerId>, probe: Probe, x: JobId)
    requires QueueSsh(t) && w in online && n.Keys == t.Keys
    requires forall y :: y in t ==> RowAfter(t, n, ids, clock, y)
    requires forall y :: y in ids ==> y in QueueIds(t, w) && probe(y) == Some(false)
    ensures x in StartingIds(n, online) && Lost(n, x, w, probe)
       <==> (x in StartingIds(t, online) && Lost(t, x, w, probe)) || x in ids
    ensures x in StartingIds(t, online) && Lost(t, x, w, probe) ==> x in WithStatus(t, w, Starting) && x !in ids
  {
    assert x in t ==> RowAfter(t, n, ids, clock, x);
  }

  /** A dispatch whose every launch gets no answer adds its claims, in queue order, to the lost ones. */
  lemma DispatchLoses(t: Table, n: Table, w: WorkerId, plan: seq<Assignment>, rc: JobId -> int, clock: JobId -> int,
                      online: set<WorkerId>, probe: Probe)
    requires QueueSsh(t) && w in online && OnTime(t, w, clock)
    requires (forall a :: a in plan ==> a.id in t) && Ids(plan) <= Queue(t, w) && n == Apply(t, plan, rc, clock)
    requires forall x :: x in Queue(t, w) ==> Classify(rc(x)).Unknown? && probe(x) == Some(false)
    ensures LostQueue(n, w, online, probe) == LostQueue(t, w, online, probe) + Ids(plan)
  {
    var ids := Ids(plan);
    PlannedIds(t, w, plan);
    hide Queue, Apply, Ids, Classify, RowAfter, LostQueue, OnTime, QueueSsh;
    hide StartingIds, Lost, WithStatus, QueueIds, Ascending;
    forall x | x in t ensures RowAfter(t, n, ids, clock, x) {
      AppliedRow(t, plan, rc, clock, x);
    }
    var earlier := LostQueue(t, w, online, probe);
    LostQueueFacts(t, w, online, probe);
    forall x {
      DispatchedLost(t, n, w, ids, clock, online, probe, x);
    }
    DispatchedAscends(t, n, w, ids, earlier, clock);
    LostQueueIs(n, w, online, probe, earlier + ids);
  }

  lemma PlannedIds(t: Table, w: WorkerId, plan: seq<Assignment>)
    requires Ids(plan) <= Queue(t, w)
    ensures Distinct(Ids(plan)) && forall x :: x in Ids(plan) ==> x in QueueIds(t, w) && x in Queue(t, w)
    ensures forall a :: a in plan ==> a.id in Ids(plan)
  {
    QueueFacts(t, w);
    hide Queue;
    var ids := Ids(plan);
    assert forall i :: 0 <= i < |ids| ==> ids[i] == Queue(t, w)[i] && ids[i] in Queue(t, w);
    PlanMembers(plan);
  }

  lemma PlanMembers(plan: seq<Assignment>)
    ensures forall a :: a in plan ==> a.id in Ids(plan)
  {
    forall a | a in plan ensures a.id in Ids(plan) {
      var i :| 0 <= i < |plan| && plan[i] == a;
      assert Ids(plan)[i] == a.id;
    }
  }

  /** A dispatch whose every launch gets no answer, then recovery that finds none of them: the queue is
      back as it was, behind the jobs that were lost before. */
  method DispatchThenRecover(m: Manager, worker: Worker, rc: JobId -> int, clock: JobId -> int,
                             online: set<WorkerId>, probe: Probe, now: int)
    requires m.db.Valid() && QueueSsh(m.db.rows) && worker.online && worker.id in online
    requires OnTime(m.db.rows, worker.id, clock)
    requires forall x :: x in m.db.QueueOf(worker.id) ==> Classify(rc(x)).Unknown? && probe(x) == Some(false)
    modifies m.db`rows
    ensures m.db.Valid()
    ensures m.db.QueueOf(worker.id)
         == old(LostQueue(m.db.rows, worker.id, online, probe)) + old(m.db.QueueOf(worker.id))
  {
    hide Queue, Plan, Apply, LostOf, Recovering, OnTime, QueueSsh, WellOrdered, LaunchedRow, RecoveredRow, Bystander,
         Kept, Exclude, Indices, Available, Ids;
    ghost var t := m.db.rows;
    ghost var w := worker.id;
    ghost var plan := Plan(t, Queue(t, w), Exclude(Available(worker), Indices(t, w)), rc);
    var launched := m.DispatchWorker(worker, rc, clock);
    ghost var n := m.db.rows;
    assert Dispatched(t, n, w, Available(worker), rc, clock, plan);
    assert Queue(t, w) == Ids(plan) + Queue(n, w);
    DispatchLoses(t, n, w, plan, rc, clock, online, probe);
    m.RecoverQueues(online, probe, now);
    assert m.db.QueueOf(w) == LostQueue(n, w, online, probe) + Queue(n, w);
    assert LostQueue(t, w, online, probe) + Ids(plan) + Queue(n, w)
        == LostQueue(t, w, online, probe) + (Ids(plan) + Queue(n, w));
  }
}
