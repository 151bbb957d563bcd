/** `WorkerLanes`: one worker's bounded FIFO semaphore with direct hand-off.

    Every critical section under the lane's lock runs without an await, so each is one atomic
    step. A caller is one `acquire`; its future, if it queues, carries the same name. */
module Lanes {

  import opened Prelude

  type Caller = nat

  datatype Future = Pending | Handed | Cancelled
  datatype Entry = Got | Queued | Full

  datatype Lane = Lane(available: int, inUse: int, waiters: seq<Caller>, futures: map<Caller, Future>)

  // ---------------------------------------------------------------- critical sections

  predicate Done(l: Lane, c: Caller) {
    c in l.futures && !l.futures[c].Pending?
  }

  function Enter(l: Lane, maxQueue: nat, c: Caller): (Lane, Entry) {
    if l.available > 0 && l.waiters == [] then
      (l.(available := l.available - 1, inUse := l.inUse + 1), Got)
    else if |l.waiters| >= maxQueue then
      (l, Full)
    else
      (l.(waiters := l.waiters + [c], futures := l.futures[c := Pending]), Queued)
  }

  /** Hand the slot to the first waiter that is not done, or free it. */
  function Release(l: Lane): Lane
    decreases |l.waiters|
  {
    if l.waiters == [] then
      l.(inUse := l.inUse - 1, available := l.available + 1)
    else if Done(l, l.waiters[0]) then
      Release(l.(waiters := l.waiters[1..]))
    else
      l.(waiters := l.waiters[1..], futures := l.futures[l.waiters[0] := Handed])
  }

  /** deque.remove: the first occurrence. */
  function RemoveFirst(s: seq<Caller>, c: Caller): seq<Caller> {
    if s == [] then [] else if s[0] == c then s[1..] else [s[0]] + RemoveFirst(s[1..], c)
  }

  /** A timed-out or cancelled waiter leaves; a slot it was already handed goes on. */
  function Abandon(l: Lane, c: Caller): Lane {
    if c in l.waiters then
      l.(waiters := RemoveFirst(l.waiters, c), futures := l.futures[c := Cancelled])
    else if c in l.futures && l.futures[c].Handed? then
      Release(l)
    else
      l
  }

  function CancelAll(l: Lane): Lane {
    l.(waiters := [],
       futures := map c | c in l.futures :: if c in l.waiters && l.futures[c].Pending? then Cancelled else l.futures[c])
  }

  class WorkerLane {
    const maxConcurrent: nat
    const maxQueue: nat
    var available: int
    var inUse: int
    var waiters: seq<Caller>
    var futures: map<Caller, Future>

    function View(): Lane reads this {
      Lane(available, inUse, waiters, futures)
    }

    constructor (maxConcurrent: nat, maxQueue: nat)
      requires maxConcurrent >= 1
      ensures this.maxConcurrent == maxConcurrent && this.maxQueue == maxQueue
      ensures View() == Lane(maxConcurrent, 0, [], map[])
    {
      this.maxConcurrent, this.maxQueue := maxConcurrent, maxQueue;
      available, inUse, waiters, futures := maxConcurrent, 0, [], map[];
    }

    /** The first critical section of acquire. */
    method EnterSection(c: Caller) returns (entry: Entry)
      modifies this
      ensures (View(), entry) == Enter(old(View()), maxQueue, c)
    {
      if available > 0 && waiters == [] {
        available := available - 1;
        inUse := inUse + 1;
        return Got;
      }
      if |waiters| >= maxQueue {
        return Full;
      }
      futures := futures[c := Pending];
      waiters := waiters + [c];
      return Queued;
    }

    method ReleaseLocked()
      modifies this
      ensures View() == Release(old(View()))
    {
      while waiters != []
        invariant Release(View()) == Release(old(View()))
        decreases |waiters|
      {
        var waiter := waiters[0];
        if waiter in futures && !futures[waiter].Pending? {
          waiters := waiters[1..];
        } else {
          waiters := waiters[1..];
          futures := futures[waiter := Handed];
          return;
        }
      }
      inUse := inUse - 1;
      available := available + 1;
    }

    method AbandonWaiter(c: Caller) returns (hadSlot: bool)
      modifies this
      ensures View() == Abandon(old(View()), c)
      ensures hadSlot == (c !in old(waiters) && c in old(futures) && old(futures)[c].Handed?)
    {
      if c !in waiters {
        if c in futures && futures[c].Handed? {
          ReleaseLocked();
          return true;
        }
      } else {
        waiters := RemoveFirst(waiters, c);
        futures := futures[c := Cancelled];
      }
      return false;
    }

    method Shutdown()
      requires forall c :: c in waiters ==> c in futures
      modifies this
      ensures View() == CancelAll(old(View()))
    {
      while waiters != []
        invariant forall c :: c in waiters ==> c in futures
        invariant CancelAll(View()) == CancelAll(old(View()))
        decreases |waiters|
      {
        var waiter := waiters[0];
        ghost var before := View();
        waiters := waiters[1..];
        if futures[waiter].Pending? {
          futures := futures[waiter := Cancelled];
        }
        assert CancelAll(View()) == CancelAll(before);
      }
      assert futures == CancelAll(View()).futures;
    }
  }

  // ---------------------------------------------------------------- callers and history

  datatype Phase = Waiting | Holding | Gone

  /** The lane, where each caller is, and what happened so far: who queued, who was handed a slot,
      and who left the queue without one. */
  datatype World = World(
    lane: Lane,
    phase: map<Caller, Phase>,
    arrivals: seq<Caller>,
    handed: seq<Caller>,
    left: set<Caller>,
    closed: bool)

  datatype Event =
    | Arrive(c: Caller)
    | Resume(c: Caller)     // the task wakes up after its hand-off
    | GiveUp(c: Caller)     // timeout or cancellation, possibly after a hand-off
    | Leave(c: Caller)      // the context manager exits
    | Stop                  // shutdown

  predicate Enabled(w: World, e: Event) {
    match e
    case Arrive(c) => !w.closed && c !in w.phase
    case Resume(c) => c in w.phase && w.phase[c].Waiting? && c in w.lane.futures && w.lane.futures[c].Handed?
    case GiveUp(c) => c in w.phase && w.phase[c].Waiting?
    case Leave(c) => c in w.phase && w.phase[c].Holding?
    case Stop => true
  }

  /** The waiter a release hands the slot to. */
  function Receiver(l: Lane): seq<Caller>
    decreases |l.waiters|
  {
    if l.waiters == [] then []
    else if Done(l, l.waiters[0]) then Receiver(l.(waiters := l.waiters[1..]))
    else [l.waiters[0]]
  }

  function Step(w: World, maxQueue: nat, e: Event): World
    requires Enabled(w, e)
  {
    match e
    case Arrive(c) =>
      (match Enter(w.lane, maxQueue, c)
       case (l, Got) => w.(lane := l, phase := w.phase[c := Holding])
       case (l, Queued) => w.(lane := l, phase := w.phase[c := Waiting], arrivals := w.arrivals + [c])
       case (l, Full) => w.(lane := l, phase := w.phase[c := Gone]))
    case Resume(c) =>
      w.(phase := w.phase[c := Holding])
    case GiveUp(c) =>
      var after := w.(lane := Abandon(w.lane, c), phase := w.phase[c := Gone]);
      if c in w.lane.waiters then after.(left := w.left + {c})
      else if c in w.lane.futures && w.lane.futures[c].Handed? then after.(handed := w.handed + Receiver(w.lane))
      else after
    case Leave(c) =>
      w.(lane := Release(w.lane), phase := w.phase[c := Gone], handed := w.handed + Receiver(w.lane))
    case Stop =>
      w.(lane := CancelAll(w.lane), left := w.left + (set c | c in w.lane.waiters), closed := true)
  }

  function Start(max: nat): World {
    World(Lane(max, 0, [], map[]), map[], [], [], {}, false)
  }

  function Run(w: World, maxQueue: nat, es: seq<Event>): World
    requires Valid(w, maxQueue, es)
    decreases |es|
  {
    if es == [] then w else Run(Step(w, maxQueue, es[0]), maxQueue, es[1..])
  }

  predicate Valid(w: World, maxQueue: nat, es: seq<Event>)
    decreases |es|
  {
    es == [] || (Enabled(w, es[0]) && Valid(Step(w, maxQueue, es[0]), maxQueue, es[1..]))
  }

  // ---------------------------------------------------------------- the invariant

  function Holders(w: World): set<Caller> {
    set c | c in w.phase && w.phase[c].Holding?
  }

  /** Callers that own a slot but have not woken up yet. */
  function InTransit(w: World): set<Caller> {
    set c | c in w.phase && w.phase[c].Waiting? && c in w.lane.futures && w.lane.futures[c].Handed?
  }

  /** `s` without the callers of `gone`, in order. */
  function Keep(s: seq<Caller>, gone: set<Caller>): seq<Caller> {
    if s == [] then [] else if s[0] in gone then Keep(s[1..], gone) else [s[0]] + Keep(s[1..], gone)
  }

  ghost predicate Waits(w: World, c: Caller) {
    c in w.phase && w.phase[c].Waiting? && c in w.lane.futures && w.lane.futures[c].Pending?
  }

  /** Exactly the queued callers wait on a pending future. */
  ghost predicate QueueOk(w: World) {
    && Distinct(w.lane.waiters)
    && (forall c :: c in w.lane.waiters <==> Waits(w, c))
    && (forall c :: c in w.lane.futures ==> c in w.phase)
  }

  ghost predicate Slots(w: World, max: nat) {
    && w.lane.available + w.lane.inUse == max
    && w.lane.available >= 0
    && w.lane.inUse == |Holders(w)| + |InTransit(w)|
    && (w.lane.waiters != [] ==> w.lane.available == 0)
  }

  /** Hand-offs so far, then the queue, are the arrivals that did not leave, in order. */
  ghost predicate Fifo(w: World) {
    && w.handed + w.lane.waiters == Keep(w.arrivals, w.left)
    && Distinct(w.arrivals)
    && (forall c :: c in w.arrivals ==> c in w.phase)
    && (forall c :: c in w.left ==> c in w.phase)
    && (forall c :: c in w.handed ==> c in w.lane.futures && w.lane.futures[c].Handed?)
  }

  ghost predicate Inv(w: World, max: nat, maxQueue: nat) {
    QueueOk(w) && Slots(w, max) && Fifo(w) && |w.lane.waiters| <= maxQueue
  }

  lemma StartOk(max: nat, maxQueue: nat)
    ensures Inv(Start(max), max, maxQueue)
  {
    assert Holders(Start(max)) == {} && InTransit(Start(max)) == {};
  }

  lemma KeepAll(s: seq<Caller>, c: Caller, gone: set<Caller>)
    requires c !in gone
    ensures Keep(s + [c], gone) == Keep(s, gone) + [c]
  {
    if s == [] {
      assert s + [c] == [c] && [c][1..] == [];
    } else {
      assert (s + [c])[0] == s[0] && (s + [c])[1..] == s[1..] + [c];
      KeepAll(s[1..], c, gone);
    }
  }

  lemma RemoveAt(s: seq<Caller>, k: nat)
    requires k < |s| && s[k] !in s[..k]
    ensures RemoveFirst(s, s[k]) == s[..k] + s[k + 1..]
  {
    if k > 0 {
      var t := s[1..];
      assert t[..k - 1] == s[1..k] && t[k..] == s[k + 1..];
      assert s[..k] == [s[0]] + s[1..k];
      RemoveAt(t, k - 1);
      assert s[0] != s[k];
    }
  }

  lemma KeepMember(s: seq<Caller>, gone: set<Caller>)
    ensures forall x :: x in Keep(s, gone) <==> x in s && x !in gone
  {
  }

  lemma KeepDistinct(s: seq<Caller>, gone: set<Caller>)
    requires Distinct(s)
    ensures Distinct(Keep(s, gone))
  {
    if s != [] {
      KeepDistinct(s[1..], gone);
      KeepMember(s[1..], gone);
    }
  }

  /** In a list with each caller once, keeping all but one is removing it. */
  lemma {:induction false} KeepRemoves(a: seq<Caller>, b: seq<Caller>, c: Caller)
    requires Distinct(a + b) && c in b
    ensures Keep(a + b, {c}) == a + RemoveFirst(b, c)
  {
    if a == [] {
      assert a + b == b;
      KeepRemove(b, c);
    } else {
      DistinctTail(a, b, c);
      hide Distinct, RemoveFirst;
      KeepRemoves(a[1..], b, c);
      assert (a + b)[0] == a[0] && (a + b)[1..] == a[1..] + b;
      assert Keep(a + b, {c}) == [a[0]] + Keep(a[1..] + b, {c});
      hide Keep;
      assert a == [a[0]] + a[1..];
    }
  }

  lemma DistinctTail(a: seq<Caller>, b: seq<Caller>, c: Caller)
    requires Distinct(a + b) && c in b && a != []
    ensures Distinct(a[1..] + b) && a[0] != c
  {
    var s := a + b;
    var k :| 0 <= k < |b| && b[k] == c;
    assert s[|a| + k] == c && s[0] == a[0];
    assert a[1..] + b == s[1..];
  }

  lemma KeepNone(s: seq<Caller>, gone: set<Caller>)
    requires forall x :: x in s ==> x !in gone
    ensures Keep(s, gone) == s
  {
  }

  lemma KeepRemove(b: seq<Caller>, c: Caller)
    requires Distinct(b)
    ensures Keep(b, {c}) == RemoveFirst(b, c)
  {
    if b != [] {
      if b[0] == c {
        KeepNone(b[1..], {c});
        assert Keep(b[1..], {c}) == b[1..];
      } else {
        KeepRemove(b[1..], c);
      }
    }
  }

  lemma KeepSplit(a: seq<Caller>, b: seq<Caller>, gone: set<Caller>)
    requires forall x :: x in a ==> x !in gone
    requires forall x :: x in b ==> x in gone
    ensures Keep(a + b, gone) == a
  {
    if a == [] {
      assert a + b == b;
      KeepNothing(b, gone);
    } else {
      assert (a + b)[0] == a[0] && (a + b)[1..] == a[1..] + b;
      KeepSplit(a[1..], b, gone);
    }
  }

  lemma KeepNothing(s: seq<Caller>, gone: set<Caller>)
    requires forall x :: x in s ==> x in gone
    ensures Keep(s, gone) == []
  {
  }

  lemma KeepMore(s: seq<Caller>, gone: set<Caller>, more: set<Caller>)
    ensures Keep(s, gone + more) == Keep(Keep(s, gone), more)
  {
  }

  // ---------------------------------------------------------------- one step

  lemma ReleaseOk(w: World)
    requires QueueOk(w)
    ensures w.lane.waiters == [] ==>
              && Release(w.lane) == w.lane.(inUse := w.lane.inUse - 1, available := w.lane.available + 1)
              && Receiver(w.lane) == []
    ensures w.lane.waiters != [] ==>
              && Release(w.lane) == w.lane.(waiters := w.lane.waiters[1..],
                                            futures := w.lane.futures[w.lane.waiters[0] := Handed])
              && Receiver(w.lane) == [w.lane.waiters[0]]
  {
    if w.lane.waiters != [] {
      assert w.lane.waiters[0] in w.lane.waiters;
    }
  }

  lemma ArriveKeeps(w: World, max: nat, maxQueue: nat, c: Caller)
    requires Inv(w, max, maxQueue) && Enabled(w, Arrive(c))
    ensures Inv(Step(w, maxQueue, Arrive(c)), max, maxQueue)
  {
    hide Keep, Holders, InTransit;
    var n := Step(w, maxQueue, Arrive(c));
    assert c !in w.lane.futures && c !in w.lane.waiters;
    if w.lane.available > 0 && w.lane.waiters == [] {
      AdmitSets(w, n, c);
      AwayQueue(w, n, c, Holding);
    } else if |w.lane.waiters| < maxQueue {
      EnqueueSets(w, n, c);
      EnqueueKeeps(w, maxQueue, c);
    } else {
      AwaySets(w, n, c);
      AwayQueue(w, n, c, Gone);
    }
  }

  lemma AdmitSets(w: World, n: World, c: Caller)
    requires n.phase == w.phase[c := Holding] && n.lane.futures == w.lane.futures && c !in w.phase
    ensures |Holders(n)| == |Holders(w)| + 1 && InTransit(n) == InTransit(w)
  {
    assert Holders(n) == Holders(w) + {c};
  }

  lemma AwaySets(w: World, n: World, c: Caller)
    requires n.phase == w.phase[c := Gone] && n.lane.futures == w.lane.futures
    requires c !in w.phase
    ensures Holders(n) == Holders(w) && InTransit(n) == InTransit(w)
  {
  }

  lemma EnqueueSets(w: World, n: World, c: Caller)
    requires n.phase == w.phase[c := Waiting] && n.lane.futures == w.lane.futures[c := Pending] && c !in w.phase
    ensures Holders(n) == Holders(w) && InTransit(n) == InTransit(w)
  {
  }

  lemma AwayQueue(w: World, n: World, c: Caller, p: Phase)
    requires QueueOk(w) && !p.Waiting? && !Waits(w, c)
    requires n.phase == w.phase[c := p]
    requires n.lane.futures == w.lane.futures && n.lane.waiters == w.lane.waiters
    ensures QueueOk(n)
  {
    forall x ensures x in n.lane.waiters <==> Waits(n, x) {
      assert x in w.lane.waiters <==> Waits(w, x);
    }
  }

  lemma EnqueueKeeps(w: World, maxQueue: nat, c: Caller)
    requires QueueOk(w) && Fifo(w) && Enabled(w, Arrive(c))
    requires !(w.lane.available > 0 && w.lane.waiters == []) && |w.lane.waiters| < maxQueue
    ensures QueueOk(Step(w, maxQueue, Arrive(c))) && Fifo(Step(w, maxQueue, Arrive(c)))
  {
    hide Keep;
    var n := Step(w, maxQueue, Arrive(c));
    assert n.arrivals == w.arrivals + [c] && n.lane.waiters == w.lane.waiters + [c];
    KeepAll(w.arrivals, c, w.left);
    assert n.handed + n.lane.waiters == w.handed + w.lane.waiters + [c];
    assert c !in w.lane.futures && c !in w.lane.waiters;
    assert Fifo(n);
    forall x ensures x in n.lane.waiters <==> Waits(n, x) {
      assert x in w.lane.waiters <==> Waits(w, x);
    }
  }

  lemma ResumeKeeps(w: World, max: nat, maxQueue: nat, c: Caller)
    requires Inv(w, max, maxQueue) && Enabled(w, Resume(c))
    ensures Inv(Step(w, maxQueue, Resume(c)), max, maxQueue)
  {
    var n := Step(w, maxQueue, Resume(c));
    assert Holders(n) == Holders(w) + {c};
    assert InTransit(n) == InTransit(w) - {c} && c in InTransit(w);
  }

  ghost predicate Yields(w: World, n: World, c: Caller) {
    && (c in Holders(w) || c in InTransit(w))
    && n == w.(lane := Release(w.lane), phase := w.phase[c := Gone], handed := w.handed + Receiver(w.lane))
  }

  /** A slot owner goes: the slot passes to the first waiter or becomes available. */
  lemma ReleaseKeeps(w: World, n: World, max: nat, maxQueue: nat, c: Caller)
    requires Inv(w, max, maxQueue) && Yields(w, n, c)
    ensures Inv(n, max, maxQueue)
  {
    hide Keep, QueueOk, Slots, Fifo, Yields;
    YieldQueue(w, n, c);
    YieldSlots(w, n, max, c);
    YieldFifo(w, n, c);
  }

  lemma YieldQueue(w: World, n: World, c: Caller)
    requires QueueOk(w) && Yields(w, n, c)
    ensures QueueOk(n) && |n.lane.waiters| <= |w.lane.waiters|
  {
    ReleaseOk(w);
    hide Release, Receiver;
    assert !Waits(w, c) && c !in w.lane.waiters;
    if w.lane.waiters == [] {
      AwayQueue(w, n, c, Gone);
    } else {
      var first := w.lane.waiters[0];
      assert Waits(w, first);
      forall x ensures x in n.lane.waiters <==> Waits(n, x) {
        assert x in w.lane.waiters <==> Waits(w, x);
        assert x in w.lane.waiters <==> x == first || x in w.lane.waiters[1..];
        assert first !in w.lane.waiters[1..];
      }
    }
  }

  lemma YieldSlots(w: World, n: World, max: nat, c: Caller)
    requires QueueOk(w) && Slots(w, max) && Yields(w, n, c)
    ensures Slots(n, max)
  {
    ReleaseOk(w);
    hide Release, Receiver;
    if w.lane.waiters == [] {
      OwnerGone(w, n, c);
    } else {
      var first := w.lane.waiters[0];
      assert first in w.lane.waiters && Waits(w, first);
      OwnerReplaced(w, n, c, first);
    }
  }

  lemma OwnerGone(w: World, n: World, c: Caller)
    requires c in Holders(w) || c in InTransit(w)
    requires n.phase == w.phase[c := Gone] && n.lane.futures == w.lane.futures
    ensures |Holders(n)| + |InTransit(n)| == |Holders(w)| + |InTransit(w)| - 1
  {
    assert Holders(n) == Holders(w) - {c} && InTransit(n) == InTransit(w) - {c};
    assert c !in Holders(w) || c !in InTransit(w);
  }

  lemma OwnerReplaced(w: World, n: World, c: Caller, first: Caller)
    requires c in Holders(w) || c in InTransit(w)
    requires Waits(w, first)
    requires n.phase == w.phase[c := Gone] && n.lane.futures == w.lane.futures[first := Handed]
    ensures |Holders(n)| + |InTransit(n)| == |Holders(w)| + |InTransit(w)|
  {
    var m := n.(lane := n.lane.(futures := w.lane.futures));
    OwnerGone(w, m, c);
    assert Holders(n) == Holders(m);
    assert InTransit(n) == InTransit(m) + {first} && first !in InTransit(m);
  }

  lemma YieldFifo(w: World, n: World, c: Caller)
    requires QueueOk(w) && Fifo(w) && Yields(w, n, c)
    ensures Fifo(n)
  {
    hide Keep;
    ReleaseOk(w);
    hide Release, Receiver;
    if w.lane.waiters == [] {
      assert n.handed == w.handed;
    } else {
      var first := w.lane.waiters[0];
      assert n.handed == w.handed + [first];
      assert n.handed + w.lane.waiters[1..] == w.handed + w.lane.waiters;
    }
  }

  lemma GiveUpKeeps(w: World, max: nat, maxQueue: nat, c: Caller)
    requires Inv(w, max, maxQueue) && Enabled(w, GiveUp(c))
    ensures Inv(Step(w, maxQueue, GiveUp(c)), max, maxQueue)
  {
    hide Keep, RemoveFirst, Release, Receiver;
    var n := Step(w, maxQueue, GiveUp(c));
    if c in w.lane.waiters {
      var k :| 0 <= k < |w.lane.waiters| && w.lane.waiters[k] == c;
      assert Holders(n) == Holders(w);
      assert InTransit(n) == InTransit(w);
      GiveUpQueue(w, maxQueue, c, k);
      GiveUpFifo(w, maxQueue, c, k);
    } else if c in w.lane.futures && w.lane.futures[c].Handed? {
      ReleaseKeeps(w, n, max, maxQueue, c);
    } else {
      assert Holders(n) == Holders(w);
      assert InTransit(n) == InTransit(w);
    }
  }

  lemma GiveUpFifo(w: World, maxQueue: nat, c: Caller, k: nat)
    requires QueueOk(w) && Fifo(w) && Enabled(w, GiveUp(c)) && k < |w.lane.waiters| && w.lane.waiters[k] == c
    ensures Fifo(Step(w, maxQueue, GiveUp(c)))
  {
    hide Release, Receiver;
    var n := Step(w, maxQueue, GiveUp(c));
    KeepDistinct(w.arrivals, w.left);
    KeepRemoves(w.handed, w.lane.waiters, c);
    KeepMore(w.arrivals, w.left, {c});
    assert Waits(w, c);
    hide Keep, RemoveFirst;
  }

  /** Cutting one element out of a list without repetitions. */
  lemma CutMembers(s: seq<Caller>, k: nat)
    requires Distinct(s) && k < |s|
    ensures Distinct(s[..k] + s[k + 1..])
    ensures forall x :: x in s[..k] + s[k + 1..] <==> x in s && x != s[k]
  {
    var q := s[..k] + s[k + 1..];
    forall x | x in s && x != s[k] ensures x in q {
      var i :| 0 <= i < |s| && s[i] == x;
      assert q[if i < k then i else i - 1] == x;
    }
  }

  lemma GiveUpQueue(w: World, maxQueue: nat, c: Caller, k: nat)
    requires QueueOk(w) && Enabled(w, GiveUp(c)) && k < |w.lane.waiters| && w.lane.waiters[k] == c
    ensures QueueOk(Step(w, maxQueue, GiveUp(c)))
    ensures |Step(w, maxQueue, GiveUp(c)).lane.waiters| < |w.lane.waiters|
  {
    var n := Step(w, maxQueue, GiveUp(c));
    RemoveAt(w.lane.waiters, k);
    CutMembers(w.lane.waiters, k);
    hide RemoveFirst, Release, Receiver, Distinct;
    forall x ensures x in n.lane.waiters <==> Waits(n, x) {
      assert x in w.lane.waiters <==> Waits(w, x);
    }
  }

  lemma StopKeeps(w: World, max: nat, maxQueue: nat)
    requires Inv(w, max, maxQueue)
    ensures Inv(Step(w, maxQueue, Stop), max, maxQueue)
  {
    var n := Step(w, maxQueue, Stop);
    var gone := set c | c in w.lane.waiters;
    assert Holders(n) == Holders(w) && InTransit(n) == InTransit(w);
    KeepMore(w.arrivals, w.left, gone);
    KeepSplit(w.handed, w.lane.waiters, gone);
    assert n.handed + n.lane.waiters == w.handed;
  }

  lemma StepKeeps(w: World, max: nat, maxQueue: nat, e: Event)
    requires Inv(w, max, maxQueue) && Enabled(w, e)
    ensures Inv(Step(w, maxQueue, e), max, maxQueue)
  {
    hide Inv, Step;
    match e
    case Arrive(c) => ArriveKeeps(w, max, maxQueue, c);
    case Resume(c) => ResumeKeeps(w, max, maxQueue, c);
    case GiveUp(c) => GiveUpKeeps(w, max, maxQueue, c);
    case Leave(c) => LeaveKeeps(w, max, maxQueue, c);
    case Stop => StopKeeps(w, max, maxQueue);
  }

  lemma LeaveKeeps(w: World, max: nat, maxQueue: nat, c: Caller)
    requires Inv(w, max, maxQueue) && Enabled(w, Leave(c))
    ensures Inv(Step(w, maxQueue, Leave(c)), max, maxQueue)
  {
    ReleaseKeeps(w, Step(w, maxQueue, Leave(c)), max, maxQueue, c);
  }

  // ---------------------------------------------------------------- whole runs

  lemma {:induction false} RunInv(w: World, max: nat, maxQueue: nat, es: seq<Event>)
    requires Inv(w, max, maxQueue) && Valid(w, maxQueue, es)
    ensures Inv(Run(w, maxQueue, es), max, maxQueue)
    decreases |es|
  {
    hide Inv, Step;
    if es != [] {
      StepKeeps(w, max, maxQueue, es[0]);
      RunInv(Step(w, maxQueue, es[0]), max, maxQueue, es[1..]);
    }
  }

  /** In every reachable state the slots are conserved, every waiter is still pending, and the
      hand-offs followed by the queue are the arrivals that did not leave, in arrival order. */
  lemma LaneConserves(max: nat, maxQueue: nat, es: seq<Event>)
    requires Valid(Start(max), maxQueue, es)
    ensures var w := Run(Start(max), maxQueue, es);
            && w.lane.available + w.lane.inUse == max
            && w.lane.inUse == |Holders(w)| + |InTransit(w)|
            && |Holders(w)| <= max
            && |w.lane.waiters| <= maxQueue
            && (w.lane.waiters != [] ==> w.lane.available == 0)
            && (forall c :: c in w.lane.waiters ==> c in w.lane.futures && w.lane.futures[c].Pending?)
            && w.handed + w.lane.waiters == Keep(w.arrivals, w.left)
  {
    hide Step, Keep;
    StartOk(max, maxQueue);
    RunInv(Start(max), max, maxQueue, es);
    var w := Run(Start(max), maxQueue, es);
    assert forall c :: c in w.lane.waiters ==> Waits(w, c);
  }

  /** A newcomer is admitted exactly when fewer than `max` slots are owned, and turned away exactly
      when all are owned and the queue is full. */
  lemma NewcomerNeverBarges(max: nat, maxQueue: nat, es: seq<Event>, c: Caller)
    requires Valid(Start(max), maxQueue, es)
    ensures var w := Run(Start(max), maxQueue, es);
            var entry := Enter(w.lane, maxQueue, c).1;
            && (entry.Got? <==> |Holders(w)| + |InTransit(w)| < max)
            && (entry.Full? <==> |Holders(w)| + |InTransit(w)| == max && |w.lane.waiters| == maxQueue)
  {
    hide Step, Keep;
    LaneConserves(max, maxQueue, es);
    StartOk(max, maxQueue);
    RunInv(Start(max), max, maxQueue, es);
  }

  // ---------------------------------------------------------------- bounded overtaking

  /** A slot is given back by this event. */
  predicate Frees(w: World, e: Event) {
    match e
    case Leave(_) => true
    case GiveUp(c) => c !in w.lane.waiters && c in w.lane.futures && w.lane.futures[c].Handed?
    case _ => false
  }

  function Releases(w: World, maxQueue: nat, es: seq<Event>): nat
    requires Valid(w, maxQueue, es)
    decreases |es|
  {
    if es == [] then 0
    else (if Frees(w, es[0]) then 1 else 0) + Releases(Step(w, maxQueue, es[0]), maxQueue, es[1..])
  }

  /** The caller keeps its place until it is handed a slot, whatever arrives later. */
  ghost predicate Placed(w: World, c: Caller, p: int) {
    c in w.handed || (exists q :: 0 <= q <= p && q < |w.lane.waiters| && w.lane.waiters[q] == c)
  }

  lemma StepPlaced(w: World, max: nat, maxQueue: nat, e: Event, c: Caller, p: int)
    requires Inv(w, max, maxQueue) && Enabled(w, e) && e != GiveUp(c) && e != Stop
    requires Placed(w, c, p)
    ensures Placed(Step(w, maxQueue, e), c, if Frees(w, e) then p - 1 else p)
  {
    hide Keep, Slots, Holders, InTransit, Fifo, RemoveFirst, Release, Receiver, QueueOk;
    var n := Step(w, maxQueue, e);
    if Frees(w, e) {
      ReleasePlaced(w, n, c, p);
    } else if e.GiveUp? && e.c in w.lane.waiters {
      CutPlaced(w, n, e.c, c, p);
    } else {
      GrowPlaced(w, n, c, p);
    }
  }

  /** A slot goes to the first waiter. */
  lemma ReleasePlaced(w: World, n: World, c: Caller, p: int)
    requires QueueOk(w) && Placed(w, c, p)
    requires n.handed == w.handed + Receiver(w.lane) && n.lane.waiters == Release(w.lane).waiters
    ensures Placed(n, c, p - 1)
  {
    ReleaseOk(w);
    hide Release, Receiver, QueueOk;
    if c in w.handed {
      assert c in n.handed;
    } else {
      var q :| 0 <= q <= p && q < |w.lane.waiters| && w.lane.waiters[q] == c;
      FreesPlaced(w, n, c, q);
      assert Placed(n, c, q - 1);
    }
  }

  /** Another waiter gives its place up. */
  lemma CutPlaced(w: World, n: World, d: Caller, c: Caller, p: int)
    requires QueueOk(w) && Placed(w, c, p) && d in w.lane.waiters && d != c
    requires n.handed == w.handed && n.lane.waiters == RemoveFirst(w.lane.waiters, d)
    ensures Placed(n, c, p)
  {
    var k :| 0 <= k < |w.lane.waiters| && w.lane.waiters[k] == d;
    RemoveAt(w.lane.waiters, k);
    hide RemoveFirst, QueueOk;
    if c !in w.handed {
      var q :| 0 <= q <= p && q < |w.lane.waiters| && w.lane.waiters[q] == c;
      assert n.lane.waiters[if k < q then q - 1 else q] == c;
    }
  }

  lemma GrowPlaced(w: World, n: World, c: Caller, p: int)
    requires Placed(w, c, p) && w.handed <= n.handed && w.lane.waiters <= n.lane.waiters
    ensures Placed(n, c, p)
  {
    if c !in w.handed {
      var q :| 0 <= q <= p && q < |w.lane.waiters| && w.lane.waiters[q] == c;
      assert n.lane.waiters[q] == c;
    }
  }

  lemma FreesPlaced(w: World, n: World, c: Caller, q: nat)
    requires q < |w.lane.waiters| && w.lane.waiters[q] == c
    requires n.handed == w.handed + [w.lane.waiters[0]] && n.lane.waiters == w.lane.waiters[1..]
    ensures Placed(n, c, q - 1)
  {
    if q == 0 {
      assert n.handed[|w.handed|] == c;
    } else {
      assert n.lane.waiters[q - 1] == c;
    }
  }

  lemma {:induction false} RunPlaced(w: World, max: nat, maxQueue: nat, es: seq<Event>, c: Caller, p: int)
    requires Inv(w, max, maxQueue) && Valid(w, maxQueue, es)
    requires Placed(w, c, p)
    requires GiveUp(c) !in es && Stop !in es
    ensures Placed(Run(w, maxQueue, es), c, p - Releases(w, maxQueue, es))
    decreases |es|
  {
    hide Inv, Step, Placed, Frees;
    if es != [] {
      StepKeeps(w, max, maxQueue, es[0]);
      StepPlaced(w, max, maxQueue, es[0], c, p);
      RunPlaced(Step(w, maxQueue, es[0]), max, maxQueue, es[1..], c, if Frees(w, es[0]) then p - 1 else p);
    }
  }

  /** A waiter at index `p` that stays has its hand-off by the (p+1)-th release, and before that
      at most `p` releases pass it by, whatever arrives in the meantime. */
  lemma BoundedOvertaking(w: World, max: nat, maxQueue: nat, es: seq<Event>, p: nat)
    requires Inv(w, max, maxQueue) && Valid(w, maxQueue, es) && p < |w.lane.waiters|
    requires GiveUp(w.lane.waiters[p]) !in es && Stop !in es
    ensures var c := w.lane.waiters[p];
            var n := Run(w, maxQueue, es);
            && (c in n.handed ==> c in n.lane.futures && n.lane.futures[c].Handed?)
            && (Releases(w, maxQueue, es) > p ==> c in n.handed)
            && (c in n.handed || c in n.lane.waiters[..Min(p + 1 - Releases(w, maxQueue, es), |n.lane.waiters|)])
  {
    hide Step, Frees, Keep;
    var c := w.lane.waiters[p];
    var n := Run(w, maxQueue, es);
    var r := Releases(w, maxQueue, es);
    RunInv(w, max, maxQueue, es);
    RunPlaced(w, max, maxQueue, es, c, p);
    if c !in n.handed {
      var q :| 0 <= q <= p - r && q < |n.lane.waiters| && n.lane.waiters[q] == c;
      assert n.lane.waiters[..Min(p + 1 - r, |n.lane.waiters|)][q] == c;
    }
  }

  function Min(a: int, b: nat): nat {
    if a < 0 then 0 else if a < b then a else b
  }

  // ---------------------------------------------------------------- what each step does

  /** For any lane: a release passes over the waiters that are done and hands the slot to the first other
      one; if there is none the slot becomes free and the queue is empty. */
  lemma {:induction false} ReleaseSkips(l: Lane, k: nat)
    requires k <= |l.waiters| && forall j :: 0 <= j < k ==> Done(l, l.waiters[j])
    requires k < |l.waiters| ==> !Done(l, l.waiters[k])
    ensures k < |l.waiters| ==>
              Release(l) == l.(waiters := l.waiters[k + 1..], futures := l.futures[l.waiters[k] := Handed])
    ensures k == |l.waiters| ==>
              Release(l) == Lane(l.available + 1, l.inUse - 1, [], l.futures)
    decreases k
  {
    if k > 0 {
      var m := l.(waiters := l.waiters[1..]);
      assert forall j :: 0 <= j < k - 1 ==> m.waiters[j] == l.waiters[j + 1];
      ReleaseSkips(m, k - 1);
    }
  }

  /** In any lane a newcomer is admitted only when a slot is free and nobody waits, and otherwise waits behind
      everybody unless the queue is full. */
  lemma EnterExactly(l: Lane, maxQueue: nat, c: Caller)
    ensures var (m, entry) := Enter(l, maxQueue, c);
            if l.available > 0 && |l.waiters| == 0 then
              entry == Got && m == Lane(l.available - 1, l.inUse + 1, [], l.futures)
            else if |l.waiters| < maxQueue then
              entry == Queued && m == Lane(l.available, l.inUse, l.waiters + [c], l.futures[c := Pending])
            else entry == Full && m == l
  {
  }

  /** A slot owner's slot goes to the first waiter, or becomes free if nobody waits. */
  ghost predicate SlotPassed(l: Lane, m: Lane) {
    if l.waiters == [] then m == Lane(l.available + 1, l.inUse - 1, [], l.futures)
    else m == Lane(l.available, l.inUse, l.waiters[1..], l.futures[l.waiters[0] := Handed])
  }

  /** Giving up while queued cancels the future and takes the caller out of the queue; giving up after the
      hand-off passes the slot on. */
  lemma GiveUpExactly(w: World, max: nat, maxQueue: nat, c: Caller)
    requires Inv(w, max, maxQueue) && Enabled(w, GiveUp(c))
    ensures var n := Step(w, maxQueue, GiveUp(c));
            && n.phase == w.phase[c := Gone] && c !in n.lane.waiters && n.arrivals == w.arrivals
            && (forall k :: 0 <= k < |w.lane.waiters| && w.lane.waiters[k] == c ==>
                  n.lane == Lane(w.lane.available, w.lane.inUse, w.lane.waiters[..k] + w.lane.waiters[k + 1..],
                                 w.lane.futures[c := Cancelled]))
            && (c in w.lane.futures && w.lane.futures[c].Handed? ==> SlotPassed(w.lane, n.lane))
            && (c !in w.lane.waiters && !(c in w.lane.futures && w.lane.futures[c].Handed?) ==> n.lane == w.lane)
  {
    hide Keep, Slots;
    ReleaseOk(w);
    assert c in w.lane.waiters <==> Waits(w, c);
    forall k | 0 <= k < |w.lane.waiters| && w.lane.waiters[k] == c
      ensures RemoveFirst(w.lane.waiters, c) == w.lane.waiters[..k] + w.lane.waiters[k + 1..]
    {
      RemoveAt(w.lane.waiters, k);
    }
    hide Release, Receiver;
    StepKeeps(w, max, maxQueue, GiveUp(c));
    var n := Step(w, maxQueue, GiveUp(c));
    assert c in n.lane.waiters <==> Waits(n, c);
  }

  /** Leaving passes the slot on; waking up takes nothing from anybody; a shutdown cancels exactly the queued
      callers; an arrival takes a free slot, or the last place of a queue that is not full, or nothing. */
  lemma StepExactly(w: World, max: nat, maxQueue: nat, e: Event)
    requires Inv(w, max, maxQueue) && Enabled(w, e) && !e.GiveUp?
    ensures var n, l := Step(w, maxQueue, e), w.lane;
            match e
            case Leave(c) => SlotPassed(l, n.lane) && n.phase == w.phase[c := Gone]
            case Resume(c) => n.lane == l && n.phase == w.phase[c := Holding]
            case Stop =>
              && n.closed && n.lane.waiters == [] && n.phase == w.phase && n.lane.futures.Keys == l.futures.Keys
              && (n.lane.available, n.lane.inUse) == (l.available, l.inUse)
              && forall c :: c in l.futures ==> n.lane.futures[c] == if c in l.waiters then Cancelled else l.futures[c]
            case Arrive(c) =>
              if l.available > 0 then
                n.lane == Lane(l.available - 1, l.inUse + 1, l.waiters, l.futures) && n.phase == w.phase[c := Holding]
              else if |l.waiters| < maxQueue then
                n.lane == Lane(0, l.inUse, l.waiters + [c], l.futures[c := Pending])
                && n.phase == w.phase[c := Waiting]
              else n.lane == l && n.phase == w.phase[c := Gone]
            case _ => true
  {
    hide Keep;
    ReleaseOk(w);
    assert forall c :: c in w.lane.waiters ==> Waits(w, c);
    hide Release, Receiver;
  }
}
