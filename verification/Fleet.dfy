/** Fleet lifecycle: project managers and their tasks under the per-project manager lock.

    An actor is one running coroutine; between two awaits it performs one event. A session that is
    stopped or failed gets no further bridge calls, because its token is refused. */
module Fleet {
  import opened Prelude
  import opened PiMailbox

  type Sid = nat
  type Project = nat
  type Actor = nat

  datatype Role = Manager | Task

  datatype Member = Member(role: Role, project: Project, state: SessionState, parent: Option<Sid>, pending: bool)

  type Members = map<Sid, Member>

  predicate Ended(state: SessionState) {
    state == Stopped || state == Failed
  }

  predicate IsManager(ms: Members, s: Sid, p: Project) {
    s in ms && ms[s].role.Manager? && ms[s].project == p
  }

  predicate LiveManager(ms: Members, s: Sid, p: Project) {
    IsManager(ms, s, p) && !Ended(ms[s].state)
  }

  predicate LiveChild(ms: Members, t: Sid, m: Sid) {
    t in ms && ms[t].role.Task? && ms[t].parent == Some(m) && !Ended(ms[t].state)
  }

  /** Program points; every one but `Away` holds its project's lock. */
  datatype Pc =
    | Away
    | Ensuring(p: Project)
    | Launching(p: Project, previous: seq<Sid>)                     // no live manager was listed
    | AwaitingBridge(p: Project, previous: seq<Sid>, m: Sid)        // new manager inserted
    | Joining(p: Project, m: Sid)                                   // waits for a starting manager
    | Reparenting(p: Project, previous: seq<Sid>, done: nat, m: Sid)
    | Dispatching(p: Project, m: Sid, relaunched: bool)             // inside pm_session
    | CheckingParent(p: Project, m: Sid)
    | LaunchingTask(p: Project, m: Sid)
    | AwaitingTask(p: Project, t: Sid)
    | Rechecking(p: Project, m: Sid)                                // poll, lock just taken
    | ListingTasks(p: Project, m: Sid)
    | Stopping(p: Project, m: Sid)
    | Unwinding(p: Project)                                         // exception on its way out
  {
    function Lock(): Option<Project> {
      if Away? then None else Some(p)
    }
  }

  datatype State = State(members: Members, pcs: map<Actor, Pc>) {
    function Point(a: Actor): Pc {
      if a in pcs then pcs[a] else Away
    }

    predicate Free(p: Project) {
      forall b :: b in pcs ==> pcs[b].Lock() != Some(p)
    }

    function At(a: Actor, pc: Pc): State {
      State(members, pcs[a := pc])
    }

    function With(s: Sid, x: Member): State {
      State(members[s := x], pcs)
    }
  }

  datatype Event =
    | Ensure(a: Actor, p: Project)                          // pm_session takes the lock
    | ListManagers(a: Actor, found: seq<Sid>)               // the project's managers, as listed
    | InsertManager(a: Actor, m: Sid)
    | BridgeRegistered(a: Actor)
    | ReparentNext(a: Actor)
    | Prompt(a: Actor)
    | Exit(a: Actor)                                        // leave the lock, also by exception
    | LaunchTask(a: Actor, p: Project, m: Sid)              // launch_task takes the lock
    | CheckParent(a: Actor)
    | InsertTask(a: Actor, t: Sid)
    | LaunchFails(a: Actor)
    | Retire(a: Actor, m: Sid)                              // poll takes the lock for a stale candidate
    | Recheck(a: Actor, longIdle: bool)
    | ListTasks(a: Actor)
    | FinishStop(a: Actor)
    | Bridge(s: Sid, state: SessionState, pending: bool)    // any bridge call, teardown or sweep

  /** ORDER BY updated_at DESC over the project's managers: each once, in some order. */
  predicate ListsManagers(ms: Members, p: Project, found: seq<Sid>) {
    && (forall k :: 0 <= k < |found| ==> IsManager(ms, found[k], p))
    && (forall s :: s in ms ==> IsManager(ms, s, p) ==> s in found)
  }

  predicate Enabled(s: State, e: Event) {
    match e
    case Ensure(a, p) => s.Point(a).Away? && s.Free(p)
    case ListManagers(a, found) => s.Point(a).Ensuring? && ListsManagers(s.members, s.Point(a).p, found)
    case InsertManager(a, m) => s.Point(a).Launching? && m !in s.members
    case BridgeRegistered(a) =>
      (s.Point(a).AwaitingBridge? || s.Point(a).Joining?)
      && s.Point(a).m in s.members && !Ended(s.members[s.Point(a).m].state)
    case ReparentNext(a) => s.Point(a).Reparenting?
    case Prompt(a) => s.Point(a).Dispatching? && s.Point(a).m in s.members
    case Exit(a) => !s.Point(a).Away?
    case LaunchTask(a, p, m) => s.Point(a).Away? && s.Free(p)
    case CheckParent(a) => s.Point(a).CheckingParent?
    case InsertTask(a, t) => s.Point(a).LaunchingTask? && t !in s.members
    case LaunchFails(a) => s.Point(a).AwaitingBridge? || s.Point(a).Joining? || s.Point(a).AwaitingTask?
    case Retire(a, m) =>
      s.Point(a).Away? && m in s.members && s.members[m].role.Manager? && s.Free(s.members[m].project)
    case Recheck(a, _) => s.Point(a).Rechecking?
    case ListTasks(a) => s.Point(a).ListingTasks?
    case FinishStop(a) => s.Point(a).Stopping? && s.Point(a).m in s.members
    case Bridge(x, _, _) => x in s.members && !Ended(s.members[x].state)
  }

  function FirstLive(ms: Members, found: seq<Sid>): (r: Option<Sid>)
    ensures r.Some? ==> r.value in found && r.value in ms && !Ended(ms[r.value].state)
    ensures r.None? ==> forall x :: x in found && x in ms ==> Ended(ms[x].state)
  {
    if found == [] then None
    else if found[0] in ms && !Ended(ms[found[0]].state) then Some(found[0])
    else FirstLive(ms, found[1..])
  }

  /** reparent_pi_session_children */
  function Reparent(ms: Members, old_: Sid, m: Sid): Members
    requires m in ms
  {
    map s | s in ms :: if ms[s].role.Task? && ms[s].parent == Some(old_) && ms[s].project == ms[m].project
                       then ms[s].(parent := Some(m)) else ms[s]
  }

  function Fail(s: State, x: Sid): State {
    if x in s.members then s.With(x, s.members[x].(state := Failed)) else s
  }

  function Next(s: State, e: Event): State
    requires Enabled(s, e)
  {
    match e
    case Ensure(a, p) => s.At(a, Ensuring(p))
    case ListManagers(a, found) =>
      var p := s.Point(a).p;
      (match FirstLive(s.members, found)
       case None => s.At(a, Launching(p, found))
       case Some(m) => s.At(a, if s.members[m].state.Starting? then Joining(p, m) else Dispatching(p, m, false)))
    case InsertManager(a, m) =>
      s.With(m, Member(Manager, s.Point(a).p, Starting, None, false))
       .At(a, AwaitingBridge(s.Point(a).p, s.Point(a).previous, m))
    case BridgeRegistered(a) =>
      var pc := s.Point(a);
      s.At(a, if pc.Joining? then Dispatching(pc.p, pc.m, false) else Reparenting(pc.p, pc.previous, 0, pc.m))
    case ReparentNext(a) =>
      var pc := s.Point(a);
      if pc.done < |pc.previous| && pc.m in s.members then
        State(Reparent(s.members, pc.previous[pc.done], pc.m), s.pcs).At(a, pc.(done := pc.done + 1))
      else
        s.At(a, Dispatching(pc.p, pc.m, true))
    case Prompt(a) => s.With(s.Point(a).m, s.members[s.Point(a).m].(pending := true))
    case Exit(a) => s.At(a, Away)
    case LaunchTask(a, p, m) => s.At(a, CheckingParent(p, m))
    case CheckParent(a) =>
      var pc := s.Point(a);
      s.At(a, if LiveManager(s.members, pc.m, pc.p) then LaunchingTask(pc.p, pc.m) else Unwinding(pc.p))
    case InsertTask(a, t) =>
      var pc := s.Point(a);
      s.With(t, Member(Task, pc.p, Starting, Some(pc.m), false)).At(a, AwaitingTask(pc.p, t))
    case LaunchFails(a) =>
      var pc := s.Point(a);
      Fail(s, if pc.AwaitingTask? then pc.t else pc.m).At(a, Unwinding(pc.p))
    case Retire(a, m) => s.At(a, Rechecking(s.members[m].project, m))
    case Recheck(a, longIdle) =>
      var pc := s.Point(a);
      s.At(a, if pc.m in s.members && s.members[pc.m].state.Idle? && !s.members[pc.m].pending && longIdle
              then ListingTasks(pc.p, pc.m) else Unwinding(pc.p))
    case ListTasks(a) =>
      var pc := s.Point(a);
      var busy := exists t :: t in s.members && LiveChild(s.members, t, pc.m);
      s.At(a, if busy then Unwinding(pc.p) else Stopping(pc.p, pc.m))
    case FinishStop(a) =>
      s.With(s.Point(a).m, s.members[s.Point(a).m].(state := Stopped)).At(a, Away)
    case Bridge(x, state, pending) => s.With(x, s.members[x].(state := state, pending := pending))
  }

  predicate Run(s: State, es: seq<Event>)
    decreases |es|
  {
    es == [] || (Enabled(s, es[0]) && Run(Next(s, es[0]), es[1..]))
  }

  function Result(s: State, es: seq<Event>): State
    requires Run(s, es)
    decreases |es|
  {
    if es == [] then s else Result(Next(s, es[0]), es[1..])
  }

  const START := State(map[], map[])

  // ---------------------------------------------------------------- the invariant

  ghost predicate OneManager(ms: Members) {
    forall x, y :: x in ms && y in ms && LiveManager(ms, x, ms[x].project) && LiveManager(ms, y, ms[x].project) ==>
      x == y
  }

  /** Every task belongs to a manager of its own project. */
  ghost predicate Parents(ms: Members) {
    forall t :: t in ms && ms[t].role.Task? ==> ms[t].parent.Some? && IsManager(ms, ms[t].parent.value, ms[t].project)
  }

  ghost predicate Mutex(pcs: map<Actor, Pc>) {
    forall a, b :: a in pcs && b in pcs && a != b && !pcs[a].Away? ==> pcs[a].Lock() != pcs[b].Lock()
  }

  ghost predicate NoLiveBut(ms: Members, p: Project, previous: seq<Sid>, m: Option<Sid>) {
    forall x :: IsManager(ms, x, p) ==> Some(x) == m || (x in previous && Ended(ms[x].state))
  }

  ghost predicate Moved(ms: Members, p: Project, previous: seq<Sid>, done: nat, m: Sid) {
    forall t :: t in ms && ms[t].role.Task? && ms[t].project == p && ms[t].parent != Some(m) ==>
      exists k :: done <= k < |previous| && ms[t].parent == Some(previous[k])
  }

  ghost predicate Present(ms: Members, ids: seq<Sid>) {
    forall x :: x in ids ==> x in ms
  }

  ghost predicate AllUnder(ms: Members, p: Project, m: Sid) {
    forall t :: t in ms && ms[t].role.Task? && ms[t].project == p ==> ms[t].parent == Some(m)
  }

  /** What an actor relies on while it holds the lock. */
  ghost predicate Relies(ms: Members, pc: Pc) {
    match pc
    case Launching(p, previous) => NoLiveBut(ms, p, previous, None) && Present(ms, previous)
    case AwaitingBridge(p, previous, m) =>
      IsManager(ms, m, p) && NoLiveBut(ms, p, previous, Some(m)) && Present(ms, previous) && m !in previous
    case Reparenting(p, previous, done, m) =>
      IsManager(ms, m, p) && done <= |previous| && Moved(ms, p, previous, done, m) && m !in previous
    case Dispatching(p, m, relaunched) => IsManager(ms, m, p) && (relaunched ==> AllUnder(ms, p, m))
    case Joining(p, m) => IsManager(ms, m, p)
    case LaunchingTask(p, m) => IsManager(ms, m, p)
    case Rechecking(p, m) => IsManager(ms, m, p)
    case ListingTasks(p, m) => IsManager(ms, m, p)
    case Stopping(p, m) => IsManager(ms, m, p) && forall t :: t in ms ==> !LiveChild(ms, t, m)
    case AwaitingTask(p, t) => t in ms && ms[t].role.Task?
    case _ => true
  }

  ghost predicate Inv(s: State) {
    OneManager(s.members) && Parents(s.members) && Mutex(s.pcs)
    && forall a :: a in s.pcs ==> Relies(s.members, s.pcs[a])
  }

  // ---------------------------------------------------------------- one step keeps it

  predicate Follows(x: Member, y: Member, touched: Option<Project>) {
    && y.role == x.role && y.project == x.project
    && (Ended(x.state) ==> Ended(y.state))
    && (Some(x.project) != touched ==> y.parent == x.parent)
  }

  /** A change to the table that is no surprise to the holder of another project's lock. */
  ghost predicate Evolves(ms: Members, ns: Members, touched: Option<Project>) {
    && (forall x :: x in ms ==> x in ns && Follows(ms[x], ns[x], touched))
    && (forall x :: x in ns && x !in ms ==> Some(ns[x].project) == touched)
  }

  lemma Stable(ms: Members, ns: Members, touched: Option<Project>, pc: Pc)
    requires Relies(ms, pc) && Evolves(ms, ns, touched) && Parents(ns)
    requires pc.Away? || pc.Lock() != touched
    ensures Relies(ns, pc)
  {
    match pc
    case Reparenting(p, previous, done, m) =>
      forall t | t in ns && ns[t].role.Task? && ns[t].project == p && ns[t].parent != Some(m)
        ensures exists k :: done <= k < |previous| && ns[t].parent == Some(previous[k])
      {
        assert ms[t].parent == ns[t].parent;
      }
    case Stopping(p, m) =>
      forall t | t in ns ensures !LiveChild(ns, t, m) {
        assert ns[t].role.Task? && ns[t].parent == Some(m) ==> IsManager(ns, m, ns[t].project);
        assert t in ms ==> !LiveChild(ms, t, m);
      }
    case _ =>
  }

  lemma Assemble(s: State, n: State, a: Actor, pc: Pc, touched: Option<Project>)
    requires Inv(s) && n.pcs == s.pcs[a := pc]
    requires Evolves(s.members, n.members, touched)
    requires touched.Some? ==> s.Point(a).Lock() == touched
    requires pc.Away? || pc.Lock() == s.Point(a).Lock() || (s.Point(a).Away? && pc.Lock().Some? && s.Free(pc.p))
    requires OneManager(n.members) && Parents(n.members) && Relies(n.members, pc)
    ensures Inv(n)
  {
    hide OneManager, Parents, Relies, Evolves;
    forall b | b in n.pcs ensures Relies(n.members, n.pcs[b]) {
      if b != a {
        Stable(s.members, n.members, touched, s.pcs[b]);
      }
    }
  }

  lemma SameMembers(ms: Members)
    ensures Evolves(ms, ms, None)
  {
  }

  /** Steps that only take or leave the lock. */
  lemma LockKeeps(s: State, e: Event)
    requires Inv(s) && Enabled(s, e)
    requires e.Ensure? || e.Exit? || e.LaunchTask? || e.Retire?
    ensures Inv(Next(s, e))
  {
    var n := Next(s, e);
    SameMembers(s.members);
    hide Evolves, Parents, OneManager, Reparent, FirstLive, Fail;
    Assemble(s, n, e.a, n.pcs[e.a], None);
  }

  /** Steps that only read, with the lock held. */
  lemma ReadKeeps(s: State, e: Event)
    requires Inv(s) && Enabled(s, e)
    requires e.ListManagers? || e.CheckParent? || e.Recheck? || e.ListTasks? || e.BridgeRegistered?
    ensures Inv(Next(s, e))
  {
    var n := Next(s, e);
    SameMembers(s.members);
    if e.ListManagers? {
      ListRelies(s, e);
    } else if e.BridgeRegistered? {
      RegisteredRelies(s, e);
    } else {
      CheckRelies(s, e);
    }
    ReadMoves(s, e);
    hide Evolves, Parents, OneManager, Relies, Next, Enabled;
    Assemble(s, n, e.a, n.pcs[e.a], None);
  }

  lemma ReadMoves(s: State, e: Event)
    requires Enabled(s, e)
    requires e.ListManagers? || e.CheckParent? || e.Recheck? || e.ListTasks? || e.BridgeRegistered?
    ensures var n := Next(s, e);
            && n.members == s.members && e.a in n.pcs && n.pcs == s.pcs[e.a := n.pcs[e.a]]
            && n.pcs[e.a].Lock() == s.Point(e.a).Lock()
  {
    hide FirstLive, ListsManagers;
  }

  lemma ListRelies(s: State, e: Event)
    requires Enabled(s, e) && e.ListManagers?
    ensures e.a in Next(s, e).pcs && Relies(s.members, Next(s, e).pcs[e.a])
  {
    var p := s.Point(e.a).p;
    match FirstLive(s.members, e.found)
    case None =>
      assert forall x :: IsManager(s.members, x, p) ==> x in e.found;
    case Some(m) =>
      assert m in e.found;
  }

  lemma RegisteredRelies(s: State, e: Event)
    requires Inv(s) && Enabled(s, e) && e.BridgeRegistered?
    ensures e.a in Next(s, e).pcs && Relies(s.members, Next(s, e).pcs[e.a])
  {
    assert Relies(s.members, s.pcs[e.a]);
    if s.Point(e.a).AwaitingBridge? { BridgeRelies(s, e.a); }
    hide Inv, NoLiveBut, Moved;
  }

  lemma CheckRelies(s: State, e: Event)
    requires Inv(s) && Enabled(s, e) && (e.CheckParent? || e.Recheck? || e.ListTasks?)
    ensures e.a in Next(s, e).pcs && Relies(s.members, Next(s, e).pcs[e.a])
  {
    assert Relies(s.members, s.pcs[e.a]);
    hide Inv, NoLiveBut, Moved, OneManager, Parents, Mutex;
  }

  lemma BridgeRelies(s: State, a: Actor)
    requires Inv(s) && s.Point(a).AwaitingBridge?
    ensures var pc := s.Point(a); Relies(s.members, Reparenting(pc.p, pc.previous, 0, pc.m))
  {
    var pc := s.Point(a);
    assert Relies(s.members, pc);
    forall t | t in s.members && s.members[t].role.Task? && s.members[t].project == pc.p
               && s.members[t].parent != Some(pc.m)
      ensures exists k :: 0 <= k < |pc.previous| && s.members[t].parent == Some(pc.previous[k])
    {
      assert IsManager(s.members, s.members[t].parent.value, pc.p);
      assert s.members[t].parent.value in pc.previous;
    }
  }

  lemma Grows(ms: Members, x: Sid, row: Member)
    requires OneManager(ms) && Parents(ms) && x !in ms
    requires row.role.Manager? ==> forall y :: IsManager(ms, y, row.project) ==> Ended(ms[y].state)
    requires row.role.Task? ==> row.parent.Some? && IsManager(ms, row.parent.value, row.project)
    ensures OneManager(ms[x := row]) && Parents(ms[x := row]) && Evolves(ms, ms[x := row], Some(row.project))
    ensures forall y, p ::
              IsManager(ms[x := row], y, p)
              <==> (IsManager(ms, y, p) || (y == x && row.role.Manager? && row.project == p))
  {
    var ns := ms[x := row];
    assert forall y, p :: y in ms ==> (IsManager(ns, y, p) <==> IsManager(ms, y, p));
    assert Parents(ns) by {
      forall t | t in ns && ns[t].role.Task?
        ensures ns[t].parent.Some? && IsManager(ns, ns[t].parent.value, ns[t].project)
      {
        assert t in ms ==> ms[t] == ns[t];
      }
    }
    forall y, z | y in ns && z in ns && LiveManager(ns, y, ns[y].project) && LiveManager(ns, z, ns[y].project)
      ensures y == z
    {
      assert y in ms ==> LiveManager(ms, y, ns[y].project);
      assert z in ms ==> LiveManager(ms, z, ns[y].project);
      assert y == x || z == x ==> row.role.Manager?;
    }
  }

  lemma InsertManagerKeeps(s: State, a: Actor, m: Sid)
    requires Inv(s) && Enabled(s, InsertManager(a, m))
    ensures Inv(Next(s, InsertManager(a, m)))
  {
    var n := Next(s, InsertManager(a, m));
    var pc := s.Point(a);
    assert Relies(s.members, pc);
    Grows(s.members, m, n.members[m]);
    hide OneManager, Parents, Evolves;
    Assemble(s, n, a, n.pcs[a], Some(pc.p));
  }

  lemma InsertTaskKeeps(s: State, a: Actor, t: Sid)
    requires Inv(s) && Enabled(s, InsertTask(a, t))
    ensures Inv(Next(s, InsertTask(a, t)))
  {
    var n := Next(s, InsertTask(a, t));
    var pc := s.Point(a);
    assert Relies(s.members, pc);
    Grows(s.members, t, n.members[t]);
    hide OneManager, Parents, Evolves;
    Assemble(s, n, a, n.pcs[a], Some(pc.p));
  }

  /** Steps that change one session's state or pending flag. */
  lemma TouchKeeps(s: State, n: State, x: Sid, a: Actor, pc: Pc)
    requires Inv(s) && x in s.members && x in n.members
    requires n.members == s.members[x := n.members[x]] && n.pcs == s.pcs[a := pc]
    requires n.members[x].(state := s.members[x].state, pending := s.members[x].pending) == s.members[x]
    requires Ended(s.members[x].state) ==> Ended(n.members[x].state)
    requires pc.Away? || pc.Unwinding? || pc == s.Point(a)
    requires pc.Lock().Some? ==> pc.Lock() == s.Point(a).Lock()
    ensures Inv(n)
  {
    assert Evolves(s.members, n.members, None);
    assert forall y, p :: IsManager(n.members, y, p) <==> IsManager(s.members, y, p);
    assert Parents(n.members) by {
      forall t | t in n.members && n.members[t].role.Task?
        ensures n.members[t].parent.Some? && IsManager(n.members, n.members[t].parent.value, n.members[t].project)
      {
        assert s.members[t].role.Task? && s.members[t].parent == n.members[t].parent;
      }
    }
    assert OneManager(n.members) by {
      forall y, z | y in n.members && z in n.members && LiveManager(n.members, y, n.members[y].project)
                    && LiveManager(n.members, z, n.members[y].project)
        ensures y == z
      {
        assert LiveManager(s.members, y, s.members[y].project) && LiveManager(s.members, z, s.members[y].project);
      }
    }
    hide Evolves, Parents, OneManager;
    if pc == s.Point(a) && a in s.pcs {
      StillRelies(s, n, x, pc);
    }
    Assemble(s, n, a, pc, None);
  }

  lemma StillRelies(s: State, n: State, x: Sid, pc: Pc)
    requires Evolves(s.members, n.members, None) && Parents(n.members)
    requires Relies(s.members, pc)
    ensures Relies(n.members, pc)
  {
    hide Relies, Evolves, Parents;
    if pc.Lock() != None || pc.Away? {
      Stable(s.members, n.members, None, pc);
    }
  }

  lemma Adopts(ms: Members, old_: Sid, m: Sid, p: Project)
    requires OneManager(ms) && Parents(ms) && IsManager(ms, m, p)
    ensures var ns := Reparent(ms, old_, m);
            OneManager(ns) && Parents(ns) && Evolves(ms, ns, Some(p)) && IsManager(ns, m, p)
  {
    var ns := Reparent(ms, old_, m);
    assert forall y, q :: IsManager(ns, y, q) <==> IsManager(ms, y, q);
    forall y, z | y in ns && z in ns && LiveManager(ns, y, ns[y].project) && LiveManager(ns, z, ns[y].project)
      ensures y == z
    {
      assert LiveManager(ms, y, ms[y].project) && LiveManager(ms, z, ms[y].project);
    }
  }

  lemma ReparentMoves(ms: Members, p: Project, previous: seq<Sid>, done: nat, m: Sid)
    requires m in ms && ms[m].project == p && done < |previous| && Moved(ms, p, previous, done, m)
    ensures Moved(Reparent(ms, previous[done], m), p, previous, done + 1, m)
  {
    var ns := Reparent(ms, previous[done], m);
    forall t | t in ns && ns[t].role.Task? && ns[t].project == p && ns[t].parent != Some(m)
      ensures exists k :: done + 1 <= k < |previous| && ns[t].parent == Some(previous[k])
    {
      assert ms[t].parent == ns[t].parent && ms[t].parent != Some(previous[done]);
      var k :| done <= k < |previous| && ms[t].parent == Some(previous[k]);
    }
  }

  lemma ReparentKeeps(s: State, a: Actor)
    requires Inv(s) && Enabled(s, ReparentNext(a))
    ensures Inv(Next(s, ReparentNext(a)))
  {
    var n := Next(s, ReparentNext(a));
    var pc := s.Point(a);
    assert Relies(s.members, pc);
    hide Mutex;
    if pc.done < |pc.previous| {
      Adopts(s.members, pc.previous[pc.done], pc.m, pc.p);
      ReparentMoves(s.members, pc.p, pc.previous, pc.done, pc.m);
      hide OneManager, Parents, Evolves, Moved, Reparent, NoLiveBut;
      Assemble(s, n, a, n.pcs[a], Some(pc.p));
    } else {
      SameMembers(s.members);
      hide OneManager, Parents, Evolves, NoLiveBut;
      Assemble(s, n, a, n.pcs[a], None);
    }
  }

  lemma StepKeeps(s: State, e: Event)
    requires Inv(s) && Enabled(s, e)
    ensures Inv(Next(s, e))
  {
    hide Inv, Relies;
    match e
    case InsertManager(a, m) => InsertManagerKeeps(s, a, m);
    case InsertTask(a, t) => InsertTaskKeeps(s, a, t);
    case ReparentNext(a) => ReparentKeeps(s, a);
    case Prompt(a) =>
      TouchKeeps(s, Next(s, e), s.Point(a).m, a, s.Point(a));
    case LaunchFails(a) => FailKeeps(s, a);
    case FinishStop(a) =>
      TouchKeeps(s, Next(s, e), s.Point(a).m, a, Away);
    case Bridge(x, _, _) => BridgeKeeps(s, e);
    case Ensure(_, _) => LockKeeps(s, e);
    case Exit(_) => LockKeeps(s, e);
    case LaunchTask(_, _, _) => LockKeeps(s, e);
    case Retire(_, _) => LockKeeps(s, e);
    case _ => ReadKeeps(s, e);
  }

  lemma FailKeeps(s: State, a: Actor)
    requires Inv(s) && Enabled(s, LaunchFails(a))
    ensures Inv(Next(s, LaunchFails(a)))
  {
    var pc := s.Point(a);
    assert Relies(s.members, pc);
    TouchKeeps(s, Next(s, LaunchFails(a)), if pc.AwaitingTask? then pc.t else pc.m, a, Unwinding(pc.p));
  }

  lemma BridgeKeeps(s: State, e: Event)
    requires Inv(s) && Enabled(s, e) && e.Bridge?
    ensures Inv(Next(s, e))
  {
    // A fresh actor that stays away stands in for the caller.
    var n := Next(s, e);
    var a := Unused(s.pcs.Keys);
    TouchKeeps(s, n.At(a, Away), e.s, a, Away);
    assert forall b :: b in n.pcs ==> n.pcs[b] == n.At(a, Away).pcs[b];
  }

  lemma {:induction false} RunKeeps(s: State, es: seq<Event>)
    requires Inv(s) && Run(s, es)
    ensures Inv(Result(s, es))
    decreases |es|
  {
    hide Inv, Next, Enabled;
    if es != [] {
      StepKeeps(s, es[0]);
      RunKeeps(Next(s, es[0]), es[1..]);
    }
  }

  // ---------------------------------------------------------------- theorems about every run

  /** At every moment of every run a project has at most one live manager. */
  lemma OneManagerPerProject(es: seq<Event>, x: Sid, y: Sid, p: Project)
    requires Run(START, es)
    requires LiveManager(Result(START, es).members, x, p) && LiveManager(Result(START, es).members, y, p)
    ensures x == y
  {
    hide Next, Enabled;
    RunKeeps(START, es);
  }

  /** When poll retires a manager, no live task is its child. */
  lemma RetiresOnlyChildless(es: seq<Event>, a: Actor, t: Sid)
    requires Run(START, es) && Enabled(Result(START, es), FinishStop(a))
    ensures !LiveChild(Result(START, es).members, t, Result(START, es).Point(a).m)
  {
    hide Next;
    RunKeeps(START, es);
    var s := Result(START, es);
    assert Relies(s.members, s.pcs[a]);
  }

  /** After a completed relaunch, and as long as its lock is held, every task of the project is a
      child of the new manager. */
  lemma RelaunchTakesAllTasks(es: seq<Event>, a: Actor, t: Sid)
    requires Run(START, es)
    requires Result(START, es).Point(a).Dispatching? && Result(START, es).Point(a).relaunched
    requires t in Result(START, es).members && Result(START, es).members[t].role.Task?
    requires Result(START, es).members[t].project == Result(START, es).Point(a).p
    ensures Result(START, es).members[t].parent == Some(Result(START, es).Point(a).m)
  {
    hide Next, Enabled;
    RunKeeps(START, es);
    var s := Result(START, es);
    assert Relies(s.members, s.pcs[a]);
  }

  // ---------------------------------------------------------------- an interrupted relaunch

  /** A task of project `p` under one of the earlier managers that reparenting has not reached. */
  predicate Behind(ms: Members, p: Project, previous: seq<Sid>, done: nat, t: Sid) {
    && t in ms && ms[t].role.Task? && ms[t].project == p
    && exists k :: done <= k < |previous| && ms[t].parent == Some(previous[k])
  }

  /** Cutting a relaunch short, at any point of any run and whatever ends it, strands exactly the tasks
      whose parent is an earlier manager not yet reached: the project's tasks are all under the new
      manager if and only if there is no such task. Leaving the lock changes no session. */
  lemma StrandedExactly(es: seq<Event>, a: Actor)
    requires Run(START, es)
    requires Result(START, es).Point(a).AwaitingBridge? || Result(START, es).Point(a).Reparenting?
    ensures var s := Result(START, es);
            var pc := s.Point(a);
            var done := if pc.Reparenting? then pc.done else 0;
            && Enabled(s, Exit(a)) && Next(s, Exit(a)).members == s.members
            && (AllUnder(s.members, pc.p, pc.m) <==> forall t :: !Behind(s.members, pc.p, pc.previous, done, t))
            && (forall t :: Behind(s.members, pc.p, pc.previous, done, t) ==> s.members[t].parent != Some(pc.m))
  {
    RunKeeps(START, es);
    var s := Result(START, es);
    var pc := s.Point(a);
    assert Relies(s.members, s.pcs[a]);
    hide Run, Result, OneManager, Mutex;
    if pc.AwaitingBridge? {
      BridgeRelies(s, a);
    }
    var done := if pc.Reparenting? then pc.done else 0;
    forall t | t in s.members && s.members[t].role.Task? && s.members[t].project == pc.p
               && s.members[t].parent != Some(pc.m)
      ensures Behind(s.members, pc.p, pc.previous, done, t)
    {
    }
  }

  /** This event moves task `t`: a relaunch of its project reaches its parent. */
  predicate MovesTask(s: State, e: Event, t: Sid) {
    e.ReparentNext? && t in s.members && s.members[t].role.Task? && s.Point(e.a).Reparenting?
    && s.Point(e.a).done < |s.Point(e.a).previous|
    && s.members[t].parent == Some(s.Point(e.a).previous[s.Point(e.a).done])
    && s.Point(e.a).p == s.members[t].project
  }

  /** A task changes its parent exactly when a relaunch of its project reaches that parent; then it goes
      to the new manager. */
  lemma ParentChanges(s: State, e: Event, t: Sid)
    requires Inv(s) && Enabled(s, e) && t in s.members && s.members[t].role.Task?
    ensures t in Next(s, e).members && Next(s, e).members[t].role.Task?
    ensures Next(s, e).members[t].project == s.members[t].project
    ensures Next(s, e).members[t].parent
         == if MovesTask(s, e, t) then Some(s.Point(e.a).m) else s.members[t].parent
  {
    hide OneManager, Parents, Mutex, FirstLive, ListsManagers, NoLiveBut, Moved, AllUnder;
    if e.ReparentNext? {
      assert Relies(s.members, s.pcs[e.a]);
    }
  }

  /** Some event of this run moves the task. */
  predicate Reached(s: State, es: seq<Event>, t: Sid)
    requires Run(s, es)
    decreases |es|
  {
    es != [] && (MovesTask(s, es[0], t) || Reached(Next(s, es[0]), es[1..], t))
  }

  lemma {:induction false} UnreachedKeeps(s: State, es: seq<Event>, t: Sid)
    requires Inv(s) && Run(s, es) && t in s.members && s.members[t].role.Task? && !Reached(s, es, t)
    ensures t in Result(s, es).members && Result(s, es).members[t].parent == s.members[t].parent
    decreases |es|
  {
    hide Inv, Next, Enabled, MovesTask;
    if es != [] {
      StepKeeps(s, es[0]);
      ParentChanges(s, es[0], t);
      UnreachedKeeps(Next(s, es[0]), es[1..], t);
    }
  }

  /** Over every run a task keeps its parent until a relaunch of its project reaches that parent. */
  lemma ParentUntilReached(before: seq<Event>, es: seq<Event>, t: Sid)
    requires Run(START, before) && Run(Result(START, before), es)
    requires var s := Result(START, before); t in s.members && s.members[t].role.Task? && !Reached(s, es, t)
    ensures var s, n := Result(START, before), Result(Result(START, before), es);
            t in n.members && n.members[t].parent == s.members[t].parent
  {
    hide Next, Enabled, Inv, Reached;
    RunKeepsFromStart(before);
    UnreachedKeeps(Result(START, before), es, t);
  }

  /** No relaunch of the project is under way. */
  predicate Settled(s: State, p: Project) {
    forall a :: a in s.pcs ==> !Relaunching(s.pcs[a], p)
  }

  predicate Relaunching(pc: Pc, p: Project) {
    (pc.Launching? || pc.AwaitingBridge? || pc.Reparenting?) && pc.p == p
  }

  /** Manager `m` of project `p` stays live up to the last event. */
  predicate StaysLive(s: State, es: seq<Event>, m: Sid, p: Project)
    requires Run(s, es)
    decreases |es|
  {
    LiveManager(s.members, m, p) && (es == [] || StaysLive(Next(s, es[0]), es[1..], m, p))
  }

  /** While a project has a live manager no relaunch of it begins. */
  lemma LiveStaysSettled(s: State, e: Event, m: Sid, p: Project)
    requires Enabled(s, e) && Settled(s, p) && LiveManager(s.members, m, p)
    ensures Settled(Next(s, e), p)
  {
    if e.ListManagers? {
      assert s.Point(e.a).p == p ==> m in e.found;
    }
    hide LiveManager, ListsManagers, FirstLive, Reparent, Fail;
    var n := Next(s, e);
    forall b | b in n.pcs ensures !Relaunching(n.pcs[b], p) {
      assert b in s.pcs ==> !Relaunching(s.pcs[b], p);
    }
  }

  lemma {:induction false} ParentKept(s: State, es: seq<Event>, m: Sid, p: Project, t: Sid)
    requires Inv(s) && Run(s, es) && Settled(s, p) && StaysLive(s, es, m, p)
    requires t in s.members && s.members[t].role.Task? && s.members[t].project == p
    ensures t in Result(s, es).members && Result(s, es).members[t].parent == s.members[t].parent
    decreases |es|
  {
    hide Inv, Next, Enabled;
    if es != [] {
      StepKeeps(s, es[0]);
      ParentChanges(s, es[0], t);
      LiveStaysSettled(s, es[0], m, p);
      assert !MovesTask(s, es[0], t);
      ParentKept(Next(s, es[0]), es[1..], m, p, t);
    }
  }

  /** Over every run: once no relaunch of a project is under way, a task that is not under its live manager
      stays where it is for as long as that manager lives, whatever is dispatched, launched, polled or
      interrupted meanwhile. So a stranded task is only moved by a later relaunch. */
  lemma StrandedWhileManagerLives(before: seq<Event>, es: seq<Event>, m: Sid, p: Project, t: Sid)
    requires Run(START, before) && Run(Result(START, before), es)
    requires Settled(Result(START, before), p) && StaysLive(Result(START, before), es, m, p)
    requires var s := Result(START, before); t in s.members && s.members[t].role.Task? && s.members[t].project == p
    ensures var s, n := Result(START, before), Result(Result(START, before), es);
            t in n.members && n.members[t].parent == s.members[t].parent
  {
    hide Next, Enabled, Inv;
    RunKeepsFromStart(before);
    ParentKept(Result(START, before), es, m, p, t);
  }

  lemma RunKeepsFromStart(es: seq<Event>)
    requires Run(START, es)
    ensures Inv(Result(START, es))
  {
    hide Next, Enabled;
    RunKeeps(START, es);
  }

  lemma {:induction false} RunSnoc(s: State, es: seq<Event>, e: Event)
    requires Run(s, es) && Enabled(Result(s, es), e)
    ensures Run(s, es + [e]) && Result(s, es + [e]) == Next(Result(s, es), e)
    decreases |es|
  {
    hide Enabled, Next;
    if es == [] {
      assert [e][1..] == [];
    } else {
      assert (es + [e])[0] == es[0] && (es + [e])[1..] == es[1..] + [e];
      RunSnoc(Next(s, es[0]), es[1..], e);
    }
  }

  /** A run that ends in `s`. */
  ghost predicate Reaches(es: seq<Event>, s: State) {
    Run(START, es) && Result(START, es) == s
  }

  lemma Go(es: seq<Event>, s: State, e: Event) returns (more: seq<Event>, n: State)
    requires Reaches(es, s) && Enabled(s, e)
    ensures Reaches(more, n) && n == Next(s, e)
  {
    RunSnoc(START, es, e);
    return es + [e], Next(s, e);
  }

  function ManagerIn(state: SessionState): Member { Member(Manager, 7, state, None, false) }
  function StrandedTask(): Member { Member(Task, 7, Starting, Some(1), false) }

  lemma FirstLaunch() returns (es: seq<Event>, s: State)
    ensures Reaches(es, s) && s == State(map[1 := ManagerIn(Starting)], map[0 := Dispatching(7, 1, true)])
  {
    hide Run, Result;
    es, s := [], START;
    assert Reaches(es, s) by { EmptyRun(); }
    es, s := Go(es, s, Ensure(0, 7));
    es, s := Go(es, s, ListManagers(0, []));
    es, s := Go(es, s, InsertManager(0, 1));
    es, s := Go(es, s, BridgeRegistered(0));
    es, s := Go(es, s, ReparentNext(0));
    assert s.pcs == map[0 := Dispatching(7, 1, true)];
  }

  lemma EmptyRun()
    ensures Reaches([], START)
  {
  }

  lemma LaunchedTask() returns (es: seq<Event>, s: State)
    ensures Reaches(es, s)
    ensures s == State(map[1 := ManagerIn(Starting), 2 := StrandedTask()], map[0 := AwaitingTask(7, 2)])
  {
    hide Run, Result, Reaches;
    es, s := FirstLaunch();
    es, s := Go(es, s, Exit(0));
    es, s := Go(es, s, LaunchTask(0, 7, 1));
    es, s := Go(es, s, CheckParent(0));
    es, s := Go(es, s, InsertTask(0, 2));
    assert s.members == map[1 := ManagerIn(Starting), 2 := StrandedTask()];
    assert s.pcs == map[0 := AwaitingTask(7, 2)];
  }

  lemma OldManagerStopped() returns (es: seq<Event>, s: State)
    ensures Reaches(es, s) && s == State(map[1 := ManagerIn(Stopped), 2 := StrandedTask()], map[0 := Ensuring(7)])
  {
    hide Run, Result, Reaches;
    es, s := LaunchedTask();
    es, s := Go(es, s, Exit(0));
    es, s := Go(es, s, Bridge(1, Stopped, false));
    es, s := Go(es, s, Ensure(0, 7));
    assert s.members == map[1 := ManagerIn(Stopped), 2 := StrandedTask()];
    assert s.pcs == map[0 := Ensuring(7)];
  }

  lemma RelaunchInterrupted() returns (es: seq<Event>, s: State)
    ensures Reaches(es, s)
    ensures s == State(map[1 := ManagerIn(Stopped), 2 := StrandedTask(), 3 := ManagerIn(Starting)],
                       map[0 := Away])
  {
    hide Run, Result, Reaches;
    es, s := OldManagerStopped();
    es, s := Go(es, s, ListManagers(0, [1]));
    es, s := Go(es, s, InsertManager(0, 3));
    es, s := Go(es, s, BridgeRegistered(0));
    es, s := Go(es, s, Exit(0));
    assert s.members == map[1 := ManagerIn(Stopped), 2 := StrandedTask(), 3 := ManagerIn(Starting)];
    assert s.pcs == map[0 := Away];
  }

  lemma NextDispatch() returns (es: seq<Event>, s: State)
    ensures Reaches(es, s)
    ensures s == State(map[1 := ManagerIn(Stopped), 2 := StrandedTask(), 3 := ManagerIn(Idle)],
                       map[0 := Ensuring(7)])
  {
    hide Run, Result, Reaches;
    es, s := RelaunchInterrupted();
    es, s := Go(es, s, Bridge(3, Idle, false));
    es, s := Go(es, s, Ensure(0, 7));
    assert s.members == map[1 := ManagerIn(Stopped), 2 := StrandedTask(), 3 := ManagerIn(Idle)];
    assert s.pcs == map[0 := Ensuring(7)];
  }

  /** The relaunch has to complete: interrupted between registration and reparenting, it leaves a live
      manager that later dispatches find and keep, while an older manager's live task stays behind. */
  lemma InterruptedRelaunchStrandsTask() returns (es: seq<Event>, s: State)
    ensures Reaches(es, s)
    ensures s.Point(0) == Dispatching(7, 3, false) && LiveManager(s.members, 3, 7)
    ensures LiveChild(s.members, 2, 1) && s.members[2].project == 7
  {
    hide Run, Result, Reaches;
    es, s := NextDispatch();
    assert ListsManagers(s.members, 7, [3, 1]) by {
      assert [3, 1][0] == 3 && [3, 1][1] == 1;
    }
    es, s := Go(es, s, ListManagers(0, [3, 1]));
  }

  // ---------------------------------------------------------------- operations that run alone

  lemma StepThen(s: State, e: Event, rest: seq<Event>)
    requires Enabled(s, e) && Run(Next(s, e), rest)
    ensures Run(s, [e] + rest) && Result(s, [e] + rest) == Result(Next(s, e), rest)
  {
    hide Enabled, Next;
    assert ([e] + rest)[1..] == rest;
  }

  lemma Stay(s: State)
    ensures Run(s, []) && Result(s, []) == s
  {
  }

  /** One event, as a run. */
  lemma One(s: State, e: Event)
    requires Enabled(s, e)
    ensures Run(s, [e]) && Result(s, [e]) == Next(s, e)
  {
    hide Enabled, Next;
    assert [e][1..] == [];
    Stay(Next(s, e));
  }

  predicate Childless(ms: Members, m: Sid) {
    forall t :: t in ms && ms[t].role == Task && ms[t].parent == Some(m) ==>
      ms[t].state == Stopped || ms[t].state == SessionState.Failed
  }

  /** The second half of a retirement: the manager is stopped exactly if it has no live task. */
  lemma RetireTail(s: State, a: Actor, m: Sid) returns (es: seq<Event>)
    requires s.Point(a).ListingTasks? && s.Point(a).m == m && m in s.members
    ensures Run(s, es) && Result(s, es).pcs == s.pcs[a := Away]
    ensures Result(s, es).members
         == if Childless(s.members, m) then s.members[m := s.members[m].(state := Stopped)] else s.members
  {
    var n := Next(s, ListTasks(a));
    var last := if Childless(s.members, m) then FinishStop(a) else Exit(a);
    assert Enabled(n, last) && Next(n, last).pcs == s.pcs[a := Away];
    One(n, last);
    StepThen(s, ListTasks(a), [last]);
    return [ListTasks(a)] + [last];
  }

  /** Poll retires manager `m` exactly if it is idle, has no pending message, has been idle for long, and
      no live task is its child; otherwise it changes no session. */
  lemma RetireExactly(s: State, a: Actor, m: Sid, longIdle: bool) returns (es: seq<Event>)
    requires s.Point(a).Away? && m in s.members && s.members[m].role.Manager? && s.Free(s.members[m].project)
    ensures Run(s, es) && Result(s, es).pcs == s.pcs[a := Away]
    ensures var x := s.members[m];
            var retires := x.state == Idle && !x.pending && longIdle && Childless(s.members, m);
            Result(s, es).members == if retires then s.members[m := x.(state := Stopped)] else s.members
    ensures |es| >= 2 && es[0] == Retire(a, m) && es[1] == Recheck(a, longIdle)
  {
    var x := s.members[m];
    var s1 := Next(s, Retire(a, m));
    var s2 := Next(s1, Recheck(a, longIdle));
    assert s2.members == s.members && s2.pcs[a := Away] == s.pcs[a := Away];
    var rest := [Exit(a)];
    if x.state == Idle && !x.pending && longIdle {
      rest := RetireTail(s2, a, m);
    } else {
      assert s2.Point(a).Unwinding?;
      One(s2, Exit(a));
    }
    assert Enabled(s, Retire(a, m)) && Enabled(s1, Recheck(a, longIdle));
    hide Next, Enabled, Run, Result, Childless;
    StepThen(s1, Recheck(a, longIdle), rest);
    StepThen(s, Retire(a, m), [Recheck(a, longIdle)] + rest);
    es := [Retire(a, m)] + ([Recheck(a, longIdle)] + rest);
  }

  /** A manager that poll is about to stop was found idle, without a pending message and idle for long. */
  predicate FoundIdle(s: State, es: seq<Event>, a: Actor, m: Sid)
    requires Run(s, es)
    decreases |es|
  {
    es != []
    && (|| (es[0] == Recheck(a, true) && s.Point(a).Rechecking? && s.Point(a).m == m && m in s.members
            && s.members[m].state == Idle && !s.members[m].pending)
        || FoundIdle(Next(s, es[0]), es[1..], a, m))
  }

  predicate Retiring(pc: Pc, m: Sid) {
    (pc.ListingTasks? || pc.Stopping?) && pc.m == m
  }

  lemma RetiringSince(s: State, e: Event, a: Actor, m: Sid)
    requires Enabled(s, e) && !Retiring(s.Point(a), m) && Retiring(Next(s, e).Point(a), m)
    ensures e == Recheck(a, true) && s.Point(a).Rechecking? && s.Point(a).m == m && m in s.members
    ensures s.members[m].state == Idle && !s.members[m].pending
  {
    hide Reparent, FirstLive, ListsManagers, LiveManager;
  }

  lemma {:induction false} IdleBefore(s: State, es: seq<Event>, a: Actor, m: Sid)
    requires Run(s, es) && !Retiring(s.Point(a), m) && Retiring(Result(s, es).Point(a), m)
    ensures FoundIdle(s, es, a, m)
    decreases |es|
  {
    hide Enabled, Next, Retiring;
    if Retiring(Next(s, es[0]).Point(a), m) {
      RetiringSince(s, es[0], a, m);
    } else {
      IdleBefore(Next(s, es[0]), es[1..], a, m);
    }
  }

  /** Over every run, a manager is stopped by poll only after a recheck, under the lock, that found it idle,
      without a pending message and idle for long, and while it has no live task. */
  lemma RetiresOnlyIdle(es: seq<Event>, a: Actor)
    requires Run(START, es) && Enabled(Result(START, es), FinishStop(a))
    ensures FoundIdle(START, es, a, Result(START, es).Point(a).m)
    ensures Childless(Result(START, es).members, Result(START, es).Point(a).m)
  {
    hide Next;
    var s := Result(START, es);
    var m := s.Point(a).m;
    IdleBefore(START, es, a, m);
    forall t | t in s.members && s.members[t].role == Task && s.members[t].parent == Some(m)
      ensures s.members[t].state == Stopped || s.members[t].state == SessionState.Failed
    {
      RetiresOnlyChildless(es, a, t);
    }
  }

  /** A dispatch takes the first live manager the listing names, waiting for it if it is still starting, and
      starts a launch exactly if there is none. */
  lemma DispatchExactly(s: State, a: Actor, p: Project, found: seq<Sid>, k: nat)
    requires s.Point(a).Away? && s.Free(p) && ListsManagers(s.members, p, found) && k <= |found|
    requires forall j :: 0 <= j < k ==> s.members[found[j]].state in {Stopped, SessionState.Failed}
    requires k < |found| ==> s.members[found[k]].state !in {Stopped, SessionState.Failed}
    ensures var es := [Ensure(a, p), ListManagers(a, found)];
            && Run(s, es) && Result(s, es).members == s.members
            && Result(s, es).pcs
               == s.pcs[a := if k == |found| then Launching(p, found)
                             else if s.members[found[k]].state == SessionState.Starting then Joining(p, found[k])
                             else Dispatching(p, found[k], false)]
  {
    FirstLiveIs(s.members, found, k);
    var s1 := Next(s, Ensure(a, p));
    var s2 := Next(s1, ListManagers(a, found));
    assert s2.pcs[a] == s2.Point(a) && s2.pcs == s.pcs[a := s2.pcs[a]];
    assert Enabled(s, Ensure(a, p)) && Enabled(s1, ListManagers(a, found));
    One(s1, ListManagers(a, found));
    StepThen(s, Ensure(a, p), [ListManagers(a, found)]);
    assert [Ensure(a, p)] + [ListManagers(a, found)] == [Ensure(a, p), ListManagers(a, found)];
    hide Next, Run, Result;
  }

  lemma {:induction false} FirstLiveIs(ms: Members, found: seq<Sid>, k: nat)
    requires k <= |found| && forall j :: 0 <= j < |found| ==> found[j] in ms
    requires forall j :: 0 <= j < k ==> ms[found[j]].state in {Stopped, SessionState.Failed}
    requires k < |found| ==> ms[found[k]].state !in {Stopped, SessionState.Failed}
    ensures FirstLive(ms, found) == if k < |found| then Some(found[k]) else None
  {
    if k > 0 { FirstLiveIs(ms, found[1..], k - 1); }
  }

  /** A task is inserted, starting and under the manager it was asked for, exactly if that is a live manager
      of the project; otherwise the launch changes no session. */
  lemma TaskLaunchExactly(s: State, a: Actor, p: Project, m: Sid, t: Sid) returns (es: seq<Event>)
    requires s.Point(a).Away? && s.Free(p) && t !in s.members
    ensures Run(s, es) && Result(s, es).pcs == s.pcs[a := Away]
    ensures var live := m in s.members && s.members[m].role == Manager && s.members[m].project == p
                        && s.members[m].state !in {Stopped, SessionState.Failed};
            Result(s, es).members
            == if live then s.members[t := Member(Task, p, SessionState.Starting, Some(m), false)] else s.members
    ensures |es| >= 2 && es[0] == LaunchTask(a, p, m) && es[1] == CheckParent(a)
  {
    var s1 := Next(s, LaunchTask(a, p, m));
    var s2 := Next(s1, CheckParent(a));
    assert s2.members == s.members && s2.pcs[a := Away] == s.pcs[a := Away];
    var rest := [Exit(a)];
    if s2.Point(a).LaunchingTask? {
      rest := InsertThenExit(s2, a, t);
    } else {
      One(s2, Exit(a));
    }
    hide Next, Run, Result;
    StepThen(s1, CheckParent(a), rest);
    StepThen(s, LaunchTask(a, p, m), [CheckParent(a)] + rest);
    return [LaunchTask(a, p, m)] + ([CheckParent(a)] + rest);
  }

  lemma InsertThenExit(s: State, a: Actor, t: Sid) returns (es: seq<Event>)
    requires s.Point(a).LaunchingTask? && t !in s.members
    ensures Run(s, es) && Result(s, es).pcs == s.pcs[a := Away]
    ensures Result(s, es).members
         == s.members[t := Member(Task, s.Point(a).p, SessionState.Starting, Some(s.Point(a).m), false)]
  {
    var n := Next(s, InsertTask(a, t));
    assert Enabled(n, Exit(a)) && Next(n, Exit(a)).pcs == s.pcs[a := Away];
    One(n, Exit(a));
    StepThen(s, InsertTask(a, t), [Exit(a)]);
    return [InsertTask(a, t)] + [Exit(a)];
  }

  /** What the single events of a launch and a dispatch leave of each session. */
  lemma EventsMean(s: State, e: Event, x: Sid)
    requires Enabled(s, e) && (e.InsertManager? || e.Prompt? || e.LaunchFails? || e.BridgeRegistered?)
    requires x in s.members || e == InsertManager(e.a, x)
    ensures x in Next(s, e).members
    ensures var y, pc := Next(s, e).members[x], s.Point(e.a);
            && (e.InsertManager? ==>
                  y == if x == e.m then Member(Manager, pc.p, SessionState.Starting, None, false) else s.members[x])
            && (e.Prompt? ==> y == if x == pc.m then s.members[x].(pending := true) else s.members[x])
            && (e.LaunchFails? ==>
                  y == if x == (if pc.AwaitingTask? then pc.t else pc.m)
                       then s.members[x].(state := SessionState.Failed) else s.members[x])
            && (e.BridgeRegistered? ==>
                  && y == s.members[x] && pc.m in s.members
                  && s.members[pc.m].state !in {Stopped, SessionState.Failed}
                  && Next(s, e).Point(e.a) == (if pc.Joining? then Dispatching(pc.p, pc.m, false)
                                               else Reparenting(pc.p, pc.previous, 0, pc.m)))
  {
  }

  /** A relaunch that is left to run moves exactly the tasks of the project under the earlier managers still
      to be reached to the new one, and comes to the dispatch. */
  lemma {:induction false} RelaunchCompletes(s: State, a: Actor) returns (es: seq<Event>)
    requires s.Point(a).Reparenting? && s.Point(a).done <= |s.Point(a).previous|
    requires var pc := s.Point(a); IsManager(s.members, pc.m, pc.p) && pc.m !in pc.previous
    ensures Run(s, es) && Result(s, es).pcs == s.pcs[a := Dispatching(s.Point(a).p, s.Point(a).m, true)]
    ensures Result(s, es).members.Keys == s.members.Keys
    ensures var pc := s.Point(a);
            forall x :: x in s.members ==>
              var y := s.members[x];
              var reached := y.role == Task && y.project == pc.p
                             && exists k :: pc.done <= k < |pc.previous| && y.parent == Some(pc.previous[k]);
              Result(s, es).members[x] == if reached then y.(parent := Some(pc.m)) else y
    decreases |s.Point(a).previous| - s.Point(a).done
  {
    var pc := s.Point(a);
    var n := Next(s, ReparentNext(a));
    if pc.done == |pc.previous| {
      assert n.pcs == s.pcs[a := Dispatching(pc.p, pc.m, true)];
      One(s, ReparentNext(a));
      return [ReparentNext(a)];
    }
    RelaunchStep(s, a);
    hide Next, Run, Result, Enabled, Reparent;
    var rest := RelaunchCompletes(n, a);
    StepThen(s, ReparentNext(a), rest);
    es := [ReparentNext(a)] + rest;
  }

  lemma RelaunchStep(s: State, a: Actor)
    requires s.Point(a).Reparenting? && s.Point(a).done < |s.Point(a).previous|
    requires var pc := s.Point(a); IsManager(s.members, pc.m, pc.p) && pc.m !in pc.previous
    ensures Enabled(s, ReparentNext(a))
    ensures var pc, n := s.Point(a), Next(s, ReparentNext(a));
            && n.Point(a) == pc.(done := pc.done + 1) && IsManager(n.members, pc.m, pc.p)
            && n.pcs[a := Dispatching(pc.p, pc.m, true)] == s.pcs[a := Dispatching(pc.p, pc.m, true)]
            && n.members.Keys == s.members.Keys
            && forall x :: x in s.members ==>
                 var y := s.members[x];
                 n.members[x] == if y.role == Task && y.project == pc.p && y.parent == Some(pc.previous[pc.done])
                                 then y.(parent := Some(pc.m)) else y
  {
  }
}
