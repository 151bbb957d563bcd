/** What recovery must check: a recovery read is harmless exactly if the job it finds starting is on the
    worker whose lock it holds. */
module RecoveryGuard {
  import opened Prelude
  import opened JobTable
  import opened JobProtocol

  /** A coroutine is about to write a full row over a status another operation has written since. */
  predicate Overwrites(s: State, b: Actor) {
    && s.Point(b).Writing? && s.Point(b).read.kind.Ssh? && s.Point(b).id in s.rows
    && s.rows[s.Point(b).id].status != s.Point(b).read.status
  }

  ghost predicate LosesUpdate(s: State) {
    exists b :: Overwrites(s, b)
  }

  /** A run from `n` to `m` on which every further recovery read is guarded. */
  ghost predicate Leads(n: State, es: seq<Event>, m: State) {
    AllGuarded(n, es) && Run(n, es, false) == Some(m)
  }

  /** From `n` on, as long as recovery reads are guarded, no update is lost. */
  ghost predicate Harmless(n: State) {
    forall es, m :: Leads(n, es, m) ==> !LosesUpdate(m)
  }

  lemma {:induction false} GuardedSnoc(n: State, es: seq<Event>, m: State, e: Event)
    requires Leads(n, es, m) && Guarded(m, e) && Next(m, e, false).Some?
    ensures Leads(n, es + [e], Next(m, e, false).value)
    decreases |es|
  {
    hide Next, Guarded;
    if es == [] {
      var after := Next(m, e, false).value;
      assert es + [e] == [e] && [e][0] == e && [e][1..] == [];
      assert Run(after, [], false) == Some(after) && AllGuarded(after, []);
    } else {
      assert (es + [e])[0] == es[0] && (es + [e])[1..] == es[1..] + [e];
      GuardedSnoc(Next(n, es[0], false).value, es[1..], m, e);
    }
  }

  lemma Go(n: State, es: seq<Event>, m: State, e: Event) returns (es': seq<Event>, m': State)
    requires Leads(n, es, m) && Guarded(m, e) && Next(m, e, false).Some?
    ensures Leads(n, es', m') && m' == Next(m, e, false).value
  {
    hide Next, Guarded;
    GuardedSnoc(n, es, m, e);
    es', m' := es + [e], Next(m, e, false).value;
  }

  lemma Stay(n: State)
    ensures Leads(n, [], n)
  {
  }

  /** Cancelling whoever holds a worker's lock frees it. */
  lemma FreeLock(n: State, w: WorkerId) returns (es: seq<Event>, m: State)
    requires LocksOk(n)
    ensures Leads(n, es, m) && m.rows == n.rows && m.LockFree(w)
    ensures forall a :: a in n.pcs && n.pcs[a].Lock() != Some(w) ==> a in m.pcs && m.pcs[a] == n.pcs[a]
  {
    Stay(n);
    es, m := [], n;
    if b :| b in n.pcs && n.pcs[b].Lock() == Some(w) {
      es, m := Go(n, es, m, Abort(b));
    }
  }

  /** A stop on the job's own worker reads the row and gets ready to write it back. */
  lemma StopReads(n: State, es: seq<Event>, m: State, w: WorkerId, id: JobId)
    returns (es': seq<Event>, m': State, c: Actor)
    requires Leads(n, es, m) && m.LockFree(w)
    requires id in m.rows && m.rows[id].worker == w && m.rows[id].status.Starting?
    ensures Leads(n, es', m') && m'.rows == m.rows && c !in m.pcs
    ensures m'.pcs == m.pcs[c := Writing(w, id, m.rows[id], MarkFailed(m.rows[id], 0), None)]
  {
    hide Leads, Queue, Indices;
    es', m', c := StopEnters(n, es, m, w, id);
    es', m' := StopKills(n, es', m', c);
    es', m' := Go(n, es', m', Reread(c, 0));
    assert m'.pcs == m.pcs[c := Writing(w, id, m.rows[id], MarkFailed(m.rows[id], 0), None)];
  }

  lemma StopEnters(n: State, es: seq<Event>, m: State, w: WorkerId, id: JobId)
    returns (es': seq<Event>, m': State, c: Actor)
    requires Leads(n, es, m) && m.LockFree(w) && id in m.rows
    ensures Leads(n, es', m') && m'.rows == m.rows && c !in m.pcs && m'.pcs == m.pcs[c := Entered(w, Stop(id))]
  {
    hide Leads, Queue, Indices;
    c := Unused(m.pcs.Keys);
    es', m' := Go(n, es, m, Call(c, w, Stop(id)));
    assert m'.pcs == m.pcs[c := Waiting(w, Stop(id))];
    es', m' := Go(n, es', m', Acquire(c));
    assert m'.pcs == m.pcs[c := Entered(w, Stop(id))];
  }

  lemma StopKills(n: State, es: seq<Event>, m: State, c: Actor) returns (es': seq<Event>, m': State)
    requires Leads(n, es, m) && m.Point(c).Entered? && m.Point(c).op.Stop?
    requires var pc := m.Point(c);
             pc.op.id in m.rows && m.rows[pc.op.id].worker == pc.w && m.rows[pc.op.id].status.Starting?
    ensures Leads(n, es', m') && m'.rows == m.rows
    ensures m'.pcs == m.pcs[c := Rereading(m.Point(c).w, m.Point(c).op.id)]
  {
    hide Leads, Queue, Indices;
    var w, id := m.Point(c).w, m.Point(c).op.id;
    es', m' := Go(n, es, m, Read(c));
    assert m'.pcs == m.pcs[c := Killing(w, id)];
    es', m' := Go(n, es', m', Killed(c, true));
    assert m'.pcs == m.pcs[c := Rereading(w, id)];
  }

  /** Recovery settles the job it read, whatever lock it holds. */
  lemma RecoverySettles(n: State, es: seq<Event>, m: State, a: Actor) returns (es': seq<Event>, m': State)
    requires Leads(n, es, m) && m.Point(a).Probing?
    requires m.Point(a).id in m.rows && m.rows[m.Point(a).id].status.Starting?
    ensures Leads(n, es', m') && m'.pcs == m.pcs[a := Looping(m.Point(a).todo)]
    ensures m.Point(a).id in m'.rows && m'.rows[m.Point(a).id].status.Running?
  {
    hide Leads, Queue, Indices;
    var pc := m.Point(a);
    es', m' := Go(n, es, m, Probed(a, Some(true)));
    assert m'.pcs == m.pcs[a := Settling(pc.w, pc.id, pc.read, true, pc.todo)];
    es', m' := Go(n, es', m', Settle(a, 0));
    assert m'.pcs == m.pcs[a := Looping(pc.todo)];
  }

  /** Every unguarded recovery read has a continuation, with guarded reads only, that loses an update:
      a stop on the right worker reads the row, recovery settles it, and the stop writes over that. */
  lemma UnguardedLoses(s: State, a: Actor) returns (es: seq<Event>, m: State)
    requires Inv(s) && s.Point(a).Entered? && !Guarded(s, Read(a))
    ensures Next(s, Read(a), false).Some?
    ensures Leads(Next(s, Read(a), false).value, es, m) && LosesUpdate(m)
  {
    hide Leads, TableOk, Queue, Indices, PcOk;
    var pc := s.Point(a);
    var id := pc.op.id;
    var w := s.rows[id].worker;
    var n := Next(s, Read(a), false).value;
    assert n == s.At(a, Probing(pc.w, id, s.rows[id], pc.op.todo));
    assert a in s.pcs && s.pcs[a].Lock() == Some(pc.w);
    assert LocksOk(n);
    es, m := FreeLock(n, w);
    assert m.Point(a) == n.Point(a);
    var c;
    es, m, c := StopReads(n, es, m, w, id);
    es, m := RecoverySettles(n, es, m, a);
    assert Overwrites(m, c);
  }

  /** The guard is exact: after any enabled event of any state that satisfies the invariant, updates are
      safe for as long as later recovery reads are guarded if and only if the event was guarded. */
  lemma GuardIsExact(s: State, e: Event)
    requires Inv(s) && Next(s, e, false).Some?
    ensures Guarded(s, e) <==> Harmless(Next(s, e, false).value)
  {
    var n := Next(s, e, false).value;
    if Guarded(s, e) {
      hide Next, Guarded, LosesUpdate;
      StepKeeps(s, e, false);
      forall es, m | Leads(n, es, m) ensures !LosesUpdate(m) {
        GuardedRunSafe(n, es);
        InvKeepsUpdates(m);
      }
    } else {
      var es, m := UnguardedLoses(s, e.a);
    }
  }

  lemma InvKeepsUpdates(m: State)
    requires Inv(m)
    ensures !LosesUpdate(m)
  {
    hide TableOk;
    forall b ensures !Overwrites(m, b) {
      assert b in m.pcs ==> PcOk(m.rows, m.pcs[b]);
    }
  }
}
