/** Interactive Pi sessions: the command mailbox with its bridge incarnations, and the
    blocked/question state. Each method holds the bridge lock, so each is one atomic step. */
module PiMailbox {
  import opened Prelude
  import opened EventLog
  import Ordering

  type CommandId = string

  datatype SessionState = Queued | Starting | Working | Blocked | Idle | Stopped | Failed | TerminationUnknown

  datatype Session = Session(
    bridgeBacked: bool,
    state: SessionState,
    question: string,
    incarnation: Option<string>,   // bridge_incarnation; None is SQL NULL
    hasToken: bool,                // token_hash != ''
    pending: bool,                 // has_pending_messages
    lastSeen: int)

  /** A row of pi_session_commands; its rowid is its index in the table. */
  datatype Command = Command(
    id: CommandId, session: SessionId, prompt: bool,
    createdAt: int, claimedAt: int, claimedBy: string, deliveredAt: int)

  datatype Store = Store(sessions: map<SessionId, Session>, commands: seq<Command>, log: Log)

  datatype Error = NotBridgeBacked | UnknownSession | StaleIncarnation | NotActive | DuplicateId
  datatype Answer = Done | Claimed(rows: seq<nat>) | Acked(first: bool) | Refused(error: Error)

  predicate Over(state: SessionState) {
    state == Stopped || state == Failed || state == TerminationUnknown
  }

  // ---------------------------------------------------------------- UPDATE pi_session_commands

  datatype Update =
    | Unclaim(session: SessionId, incarnation: string)
    | Lease(session: SessionId, incarnation: string, now: int, cutoff: int)
    | Deliver(session: SessionId, id: CommandId, incarnation: string, now: int)

  predicate Where(c: Command, u: Update) {
    && c.session == u.session && c.deliveredAt == 0
    && match u
       case Unclaim(_, i) => c.claimedBy != i
       case Lease(_, i, _, cutoff) => c.claimedBy == "" || c.claimedBy == i || c.claimedAt <= cutoff
       case Deliver(_, id, i, _) => c.id == id && c.claimedBy == i
  }

  function Set(c: Command, u: Update): Command {
    if !Where(c, u) then c
    else
      match u
      case Unclaim(_, _) => c.(claimedAt := 0, claimedBy := "")
      case Lease(_, i, now, _) => c.(claimedAt := now, claimedBy := i)
      case Deliver(_, _, _, now) => c.(deliveredAt := now)
  }

  function SetAll(cs: seq<Command>, u: Update): seq<Command> {
    seq(|cs|, k requires 0 <= k < |cs| => Set(cs[k], u))
  }

  predicate Matches(cs: seq<Command>, u: Update) {
    exists k :: 0 <= k < |cs| && Where(cs[k], u)
  }

  function CreatedKeys(cs: seq<Command>): Ordering.SortKeys {
    map k: nat | k < |cs| :: (cs[k].createdAt, 0)
  }

  function ClaimedRows(cs: seq<Command>, s: SessionId, incarnation: string): set<nat> {
    set k: nat | k < |cs| && cs[k].session == s && cs[k].deliveredAt == 0 && cs[k].claimedBy == incarnation
  }

  predicate Undelivered(cs: seq<Command>, s: SessionId) {
    exists k :: 0 <= k < |cs| && cs[k].session == s && cs[k].deliveredAt == 0
  }

  predicate HasCommand(cs: seq<Command>, id: CommandId) {
    exists k :: 0 <= k < |cs| && cs[k].id == id
  }

  predicate PromptIn(cs: seq<Command>, s: SessionId, id: CommandId) {
    exists k :: 0 <= k < |cs| && cs[k].id == id && cs[k].session == s && cs[k].prompt
  }

  // ---------------------------------------------------------------- ingesting events

  /** The same message start or end was already captured. */
  predicate Captured(log: Log, s: SessionId, p: Payload) {
    exists k :: 0 <= k < |log| && log[k].event.session == s && SameMessage(log[k].event.payload, p)
  }

  predicate SameMessage(p: Payload, q: Payload) {
    || (p.MessageStart? && q.MessageStart? && p.messageId == q.messageId)
    || (p.MessageEnd? && q.MessageEnd? && p.messageId == q.messageId)
  }

  function AppendSnapshot(log: Log, s: SessionId, e: Event): Log {
    if (e.payload.MessageStart? || e.payload.MessageEnd?) && e.payload.messageId != "" && !Captured(log, s, e.payload)
    then Append(log, e.(session := s)) else log
  }

  /** The registration snapshot: only message starts and ends not captured yet. */
  function Snapshot(log: Log, s: SessionId, events: seq<Event>): Log {
    if events == [] then log
    else AppendSnapshot(Snapshot(log, s, events[..|events| - 1]), s, events[|events| - 1])
  }

  /** A live batch: INSERT OR IGNORE each event. */
  function Ingest(log: Log, s: SessionId, events: seq<Event>): Log {
    if events == [] then log
    else Append(Ingest(log, s, events[..|events| - 1]), events[|events| - 1].(session := s))
  }

  // ---------------------------------------------------------------- the calls

  datatype Call =
    | Launch(s: SessionId)                                            // insert_pi_session
    | Register(s: SessionId, incarnation: string, pending: bool, snapshot: seq<Event>, now: int)
    | Apply(s: SessionId, incarnation: string, state: Option<SessionState>, pendingNow: Option<bool>,
            events: seq<Event>, now: int)
    | Enqueue(s: SessionId, id: CommandId, prompt: bool, createdAt: int)
    | Claim(s: SessionId, incarnation: string, now: int, lease: int)
    | Ack(s: SessionId, id: CommandId, incarnation: string, now: int)
    | Block(s: SessionId, question: string, note: EventId, now: int)
    | Finish(s: SessionId, final: SessionState)
    | Record(event: Event)                                            // insert_pi_session_event
    | Sweep(cutoff: int, found: seq<SessionId>, notes: seq<EventId>, now: int)

  function BridgeError(st: Store, s: SessionId, incarnation: string): Option<Error> {
    if s !in st.sessions || !st.sessions[s].bridgeBacked then Some(UnknownSession)
    else if st.sessions[s].incarnation != Some(incarnation) then Some(StaleIncarnation)
    else None
  }

  function Registered(st: Store, s: SessionId, incarnation: string, pending: bool, now: int): Session {
    if s in st.sessions then
      st.sessions[s].(state := if st.sessions[s].state.Blocked? then Blocked else Idle,
                      incarnation := Some(incarnation), pending := pending, lastSeen := now)
    else
      Session(true, Idle, "", Some(incarnation), false, pending, now)
  }

  function Reported(x: Session, state: Option<SessionState>, pendingNow: Option<bool>, backlog: bool, now: int): Session
  {
    var next := if state.Some? && (!x.state.Blocked? || Over(state.value)) then state.value else x.state;
    x.(state := next,
       question := if Over(next) then "" else x.question,
       pending := if pendingNow.Some? then pendingNow.value || backlog else x.pending,
       lastSeen := now)
  }

  predicate Expired(x: Session, cutoff: int) {
    x.bridgeBacked && x.lastSeen < cutoff && !x.state.Stopped? && !x.state.Failed?
  }

  function Swept(x: Session): Session {
    x.(state := Stopped, question := "", hasToken := false)
  }

  function SweepSessions(m: map<SessionId, Session>, found: seq<SessionId>): map<SessionId, Session> {
    map s | s in m :: if s in found then Swept(m[s]) else m[s]
  }

  function StaleNotes(log: Log, found: seq<SessionId>, notes: seq<EventId>, now: int): Log
    decreases |found|
  {
    var n := |found| - 1;
    if n < 0 || n >= |notes| then log
    else Append(StaleNotes(log, found[..n], notes, now), Event(notes[n], found[n], Other("bridge-stale", ""), now))
  }

  /** The SELECT of a sweep: each expired session once, in some order, with a fresh event id each. */
  ghost predicate FoundBy(m: map<SessionId, Session>, cutoff: int, found: seq<SessionId>, notes: seq<EventId>) {
    && |notes| == |found|
    && (forall i, j :: 0 <= i < j < |found| ==> found[i] != found[j])
    && (forall s :: s in found <==> s in m && Expired(m[s], cutoff))
  }

  function Execute(st: Store, c: Call): (Store, Answer) {
    match c
    case Launch(s) =>
      if s in st.sessions then (st, Refused(DuplicateId))
      else (st.(sessions := st.sessions[s := Session(true, Starting, "", None, true, false, 0)]), Done)
    case Register(s, i, pending, snapshot, now) =>
      if s in st.sessions && !st.sessions[s].bridgeBacked then (st, Refused(NotBridgeBacked))
      else
        (Store(st.sessions[s := Registered(st, s, i, pending, now)],
               SetAll(st.commands, Unclaim(s, i)),
               Snapshot(st.log, s, snapshot)), Done)
    case Apply(s, i, state, pendingNow, events, now) =>
      (match BridgeError(st, s, i)
       case Some(e) => (st, Refused(e))
       case None =>
         var backlog := Undelivered(st.commands, s);
         (st.(sessions := st.sessions[s := Reported(st.sessions[s], state, pendingNow, backlog, now)],
              log := Ingest(st.log, s, events)), Done))
    case Enqueue(s, id, prompt, createdAt) =>
      if HasCommand(st.commands, id) then (st, Refused(DuplicateId))
      else
        (st.(commands := st.commands + [Command(id, s, prompt, createdAt, 0, "", 0)],
             sessions := if s in st.sessions then st.sessions[s := st.sessions[s].(pending := true)]
                         else st.sessions), Done)
    case Claim(s, i, now, lease) =>
      (match BridgeError(st, s, i)
       case Some(e) => (st, Refused(e))
       case None =>
         var cs := SetAll(st.commands, Lease(s, i, now, now - lease));
         (st.(commands := cs), Claimed(Ordering.Sorted(CreatedKeys(cs), ClaimedRows(cs, s, i)))))
    case Ack(s, id, i, now) =>
      (match BridgeError(st, s, i)
       case Some(e) => (st, Refused(e))
       case None =>
         var first := Matches(st.commands, Deliver(s, id, i, now));
         (st.(commands := SetAll(st.commands, Deliver(s, id, i, now)),
              sessions := if first && PromptIn(st.commands, s, id) && st.sessions[s].state.Blocked?
                          then st.sessions[s := st.sessions[s].(state := Working, question := "")] else st.sessions),
          Acked(first)))
    case Block(s, question, note, now) =>
      if s !in st.sessions || Over(st.sessions[s].state) then (st, Refused(NotActive))
      else
        (st.(sessions := st.sessions[s := st.sessions[s].(state := Blocked, question := question)],
             log := Append(st.log, Event(note, s, Other("blocked", question), now))), Done)
    case Finish(s, final) =>
      if s !in st.sessions then (st, Done)
      else
        (st.(sessions := st.sessions[s := st.sessions[s].(state := final, question := "", hasToken := false,
                                                          incarnation := None)]), Done)
    case Record(event) =>
      (st.(log := Append(st.log, event)), Done)
    case Sweep(cutoff, found, notes, now) =>
      (st.(sessions := SweepSessions(st.sessions, found), log := StaleNotes(st.log, found, notes, now)), Done)
  }

  lemma SweepOne(m: map<SessionId, Session>, found: seq<SessionId>, k: nat)
    requires k < |found| && found[k] in m
    requires forall i, j :: 0 <= i < j < |found| ==> found[i] != found[j]
    ensures var n := SweepSessions(m, found[..k]);
            found[k] in n && SweepSessions(m, found[..k + 1]) == n[found[k] := Swept(n[found[k]])]
  {
    hide Swept;
    assert found[..k + 1] == found[..k] + [found[k]];
    assert found[k] !in found[..k];
  }

  class PiStore {
    var sessions: map<SessionId, Session>
    var commands: seq<Command>
    var log: Log

    function View(): Store reads this {
      Store(sessions, commands, log)
    }

    constructor ()
      ensures View() == Store(map[], [], [])
    {
      sessions, commands, log := map[], [], [];
    }

    /** One UPDATE of pi_session_commands; returns whether any row matched. */
    method UpdateCommands(u: Update) returns (matched: bool)
      modifies this`commands
      ensures commands == SetAll(old(commands), u)
      ensures matched == Matches(old(commands), u)
    {
      matched := false;
      var k := 0;
      while k < |commands|
        invariant 0 <= k <= |commands| == |old(commands)|
        invariant forall j :: 0 <= j < k ==> commands[j] == Set(old(commands)[j], u)
        invariant forall j :: k <= j < |commands| ==> commands[j] == old(commands)[j]
        invariant matched == exists j :: 0 <= j < k && Where(old(commands)[j], u)
      {
        if Where(commands[k], u) {
          commands := commands[k := Set(commands[k], u)];
          matched := true;
        }
        k := k + 1;
      }
    }

    method RegisterBridge(s: SessionId, incarnation: string, pending: bool, snapshot: seq<Event>, now: int)
      returns (answer: Answer)
      modifies this
      ensures (View(), answer) == Execute(old(View()), Register(s, incarnation, pending, snapshot, now))
    {
      hide Append, Captured, Where, Set, SetAll;
      if s in sessions && !sessions[s].bridgeBacked {
        return Refused(NotBridgeBacked);
      }
      sessions := sessions[s := Registered(View(), s, incarnation, pending, now)];
      var _ := UpdateCommands(Unclaim(s, incarnation));
      var k := 0;
      while k < |snapshot|
        invariant 0 <= k <= |snapshot|
        invariant log == Snapshot(old(log), s, snapshot[..k])
        invariant sessions == old(sessions)[s := Registered(old(View()), s, incarnation, pending, now)]
        invariant commands == SetAll(old(commands), Unclaim(s, incarnation))
      {
        var e := snapshot[k];
        assert snapshot[..k + 1][..k] == snapshot[..k];
        if (e.payload.MessageStart? || e.payload.MessageEnd?) && e.payload.messageId != "" {
          if !Captured(log, s, e.payload) {
            log := Append(log, e.(session := s));
          }
        }
        k := k + 1;
      }
      assert snapshot[..|snapshot|] == snapshot;
      return Done;
    }

    method ApplyEvents(s: SessionId, incarnation: string, state: Option<SessionState>, pendingNow: Option<bool>,
                       events: seq<Event>, now: int)
      returns (answer: Answer)
      modifies this
      ensures (View(), answer) == Execute(old(View()), Apply(s, incarnation, state, pendingNow, events, now))
    {
      hide Append, HasId;
      var error := BridgeError(View(), s, incarnation);
      if error.Some? {
        return Refused(error.value);
      }
      var session := sessions[s];
      var k := 0;
      while k < |events|
        invariant 0 <= k <= |events|
        invariant log == Ingest(old(log), s, events[..k])
        invariant sessions == old(sessions) && commands == old(commands)
      {
        assert events[..k + 1][..k] == events[..k];
        log := Append(log, events[k].(session := s));
        k := k + 1;
      }
      assert events[..|events|] == events;
      hide Ingest, Undelivered;
      if state.Some? && (!session.state.Blocked? || Over(state.value)) {
        session := session.(state := state.value);
      }
      if Over(session.state) {
        session := session.(question := "");
      }
      if pendingNow.Some? {
        session := session.(pending := pendingNow.value || Undelivered(commands, s));
      }
      session := session.(lastSeen := now);
      assert session == Reported(old(sessions[s]), state, pendingNow, Undelivered(commands, s), now);
      hide Reported, Over;
      sessions := sessions[s := session];
      return Done;
    }

    method EnqueueCommand(s: SessionId, id: CommandId, prompt: bool, createdAt: int) returns (answer: Answer)
      modifies this
      ensures (View(), answer) == Execute(old(View()), Enqueue(s, id, prompt, createdAt))
    {
      if HasCommand(commands, id) {
        return Refused(DuplicateId);
      }
      commands := commands + [Command(id, s, prompt, createdAt, 0, "", 0)];
      if s in sessions {
        sessions := sessions[s := sessions[s].(pending := true)];
      }
      return Done;
    }

    method ClaimCommands(s: SessionId, incarnation: string, now: int, lease: int) returns (answer: Answer)
      modifies this
      ensures (View(), answer) == Execute(old(View()), Claim(s, incarnation, now, lease))
    {
      hide SetAll, Where, Set;
      var error := BridgeError(View(), s, incarnation);
      if error.Some? {
        return Refused(error.value);
      }
      var _ := UpdateCommands(Lease(s, incarnation, now, now - lease));
      return Claimed(Ordering.Sorted(CreatedKeys(commands), ClaimedRows(commands, s, incarnation)));
    }

    method AckCommand(s: SessionId, id: CommandId, incarnation: string, now: int) returns (answer: Answer)
      modifies this
      ensures (View(), answer) == Execute(old(View()), Ack(s, id, incarnation, now))
    {
      hide SetAll, Where, Set, Matches;
      var error := BridgeError(View(), s, incarnation);
      if error.Some? {
        return Refused(error.value);
      }
      var isPrompt := PromptIn(commands, s, id);
      var first := UpdateCommands(Deliver(s, id, incarnation, now));
      if first && isPrompt && sessions[s].state.Blocked? {
        sessions := sessions[s := sessions[s].(state := Working, question := "")];
      }
      return Acked(first);
    }

    method SetBlocked(s: SessionId, question: string, note: EventId, now: int) returns (answer: Answer)
      modifies this
      ensures (View(), answer) == Execute(old(View()), Block(s, question, note, now))
    {
      if s !in sessions || Over(sessions[s].state) {
        return Refused(NotActive);
      }
      sessions := sessions[s := sessions[s].(state := Blocked, question := question)];
      log := Append(log, Event(note, s, Other("blocked", question), now));
      return Done;
    }

    method FinishSession(s: SessionId, final: SessionState) returns (answer: Answer)
      modifies this
      ensures (View(), answer) == Execute(old(View()), Finish(s, final))
    {
      if s in sessions {
        sessions := sessions[s := sessions[s].(state := final, question := "", hasToken := false, incarnation := None)];
      }
      return Done;
    }

    method RecordEvent(event: Event) returns (answer: Answer)
      modifies this`log
      ensures (View(), answer) == Execute(old(View()), Record(event))
    {
      log := Append(log, event);
      return Done;
    }

    method SweepStale(cutoff: int, found: seq<SessionId>, notes: seq<EventId>, now: int)
      requires FoundBy(sessions, cutoff, found, notes)
      modifies this
      ensures View() == Execute(old(View()), Sweep(cutoff, found, notes, now)).0
    {
      hide Append, Expired, Swept;
      var k := 0;
      assert sessions == SweepSessions(sessions, []);
      assert forall i :: 0 <= i < |found| ==> found[i] in found;
      while k < |found|
        invariant 0 <= k <= |found|
        invariant sessions == SweepSessions(old(sessions), found[..k])
        invariant commands == old(commands)
        invariant log == StaleNotes(old(log), found[..k], notes, now)
      {
        SweepOne(old(sessions), found, k);
        assert found[..k + 1][..k] == found[..k];
        sessions := sessions[found[k] := Swept(sessions[found[k]])];
        log := Append(log, Event(notes[k], found[k], Other("bridge-stale", ""), now));
        k := k + 1;
      }
      assert found[..k] == found;
    }
  }

  // ---------------------------------------------------------------- runs

  /** The store, which incarnation was handed which command, and the successful acknowledgements. */
  datatype History = History(store: Store, handed: set<(CommandId, string)>, acked: seq<(CommandId, string)>)

  const START := History(Store(map[], [], []), {}, [])

  /** What the request models and the clock guarantee about a call. */
  ghost predicate Legal(st: Store, c: Call) {
    match c
    case Register(_, i, _, _, _) => i != ""
    case Ack(_, _, _, now) => now > 0
    case Sweep(cutoff, found, notes, _) => FoundBy(st.sessions, cutoff, found, notes)
    case _ => true
  }

  function Pairs(cs: seq<Command>, rows: seq<nat>, i: string): set<(CommandId, string)> {
    set k | k in rows && k < |cs| :: (cs[k].id, i)
  }

  function Next(h: History, c: Call): History {
    var (st, answer) := Execute(h.store, c);
    var after := h.(store := st);
    match answer
    case Claimed(rows) => after.(handed := h.handed + Pairs(st.commands, rows, if c.Claim? then c.incarnation else ""))
    case Acked(first) => if first && c.Ack? then after.(acked := h.acked + [(c.id, c.incarnation)]) else after
    case _ => after
  }

  ghost predicate LegalRun(h: History, cs: seq<Call>)
    decreases |cs|
  {
    cs == [] || (Legal(h.store, cs[0]) && LegalRun(Next(h, cs[0]), cs[1..]))
  }

  function Run(h: History, cs: seq<Call>): History
    decreases |cs|
  {
    if cs == [] then h else Run(Next(h, cs[0]), cs[1..])
  }

  // ---------------------------------------------------------------- the invariant

  ghost predicate UniqueIds(cs: seq<Command>) {
    forall i, j :: 0 <= i < j < |cs| ==> cs[i].id != cs[j].id
  }

  /** An undelivered command of a live session is unclaimed or claimed by its live incarnation. */
  ghost predicate LiveClaims(st: Store) {
    forall k :: 0 <= k < |st.commands| ==> LiveClaim(st.sessions, st.commands[k])
  }

  predicate LiveClaim(sessions: map<SessionId, Session>, c: Command) {
    c.deliveredAt == 0 && c.session in sessions && sessions[c.session].incarnation.Some?
    ==> c.claimedBy == "" || Some(c.claimedBy) == sessions[c.session].incarnation
  }

  ghost predicate Sessions(m: map<SessionId, Session>) {
    forall s :: s in m ==> (m[s].question != "" ==> m[s].state.Blocked?) && m[s].incarnation != Some("")
  }

  predicate AckedId(acked: seq<(CommandId, string)>, id: CommandId) {
    exists j :: 0 <= j < |acked| && acked[j].0 == id
  }

  ghost predicate Acks(h: History) {
    && (forall k :: 0 <= k < |h.store.commands| ==>
          (h.store.commands[k].deliveredAt != 0 <==> AckedId(h.acked, h.store.commands[k].id)))
    && (forall j :: 0 <= j < |h.acked| ==> HasCommand(h.store.commands, h.acked[j].0))
    && (forall i, j :: 0 <= i < j < |h.acked| ==> h.acked[i].0 != h.acked[j].0)
    && (forall j :: 0 <= j < |h.acked| ==> h.acked[j] in h.handed)
  }

  /** A claim that is recorded in a row was handed out. */
  ghost predicate Handed(h: History) {
    forall k :: 0 <= k < |h.store.commands| && h.store.commands[k].claimedBy != "" ==>
      (h.store.commands[k].id, h.store.commands[k].claimedBy) in h.handed
  }

  ghost predicate Inv(h: History) {
    UniqueIds(h.store.commands) && LiveClaims(h.store) && Sessions(h.store.sessions) && Acks(h) && Handed(h)
    && Gapless(h.store.log)
  }

  // ---------------------------------------------------------------- one step keeps it

  /** No session's events are ever rewritten, only added to. */
  ghost predicate Grown(log: Log, more: Log) {
    forall t :: SessionRows(log, t) <= SessionRows(more, t)
  }

  lemma AppendGrows(log: Log, e: Event)
    requires Gapless(log)
    ensures Gapless(Append(log, e)) && Grown(log, Append(log, e))
  {
    AppendKeepsGapless(log, e);
  }

  lemma {:induction false} SnapshotGapless(log: Log, s: SessionId, events: seq<Event>)
    requires Gapless(log)
    ensures Gapless(Snapshot(log, s, events))
    ensures Grown(log, Snapshot(log, s, events))
  {
    hide Gapless, Append, SessionRows;
    if events != [] {
      var e := events[|events| - 1];
      SnapshotGapless(log, s, events[..|events| - 1]);
      AppendGrows(Snapshot(log, s, events[..|events| - 1]), e.(session := s));
    }
  }

  lemma {:induction false} IngestGapless(log: Log, s: SessionId, events: seq<Event>)
    requires Gapless(log)
    ensures Gapless(Ingest(log, s, events))
    ensures Grown(log, Ingest(log, s, events))
  {
    hide Gapless, Append, SessionRows;
    if events != [] {
      IngestGapless(log, s, events[..|events| - 1]);
      AppendGrows(Ingest(log, s, events[..|events| - 1]), events[|events| - 1].(session := s));
    }
  }

  lemma {:induction false} StaleGapless(log: Log, found: seq<SessionId>, notes: seq<EventId>, now: int)
    requires Gapless(log)
    ensures Gapless(StaleNotes(log, found, notes, now))
    ensures Grown(log, StaleNotes(log, found, notes, now))
    decreases |found|
  {
    hide Gapless, Append, SessionRows;
    var n := |found| - 1;
    if 0 <= n < |notes| {
      StaleGapless(log, found[..n], notes, now);
      AppendGrows(StaleNotes(log, found[..n], notes, now), Event(notes[n], found[n], Other("bridge-stale", ""), now));
    }
  }

  /** A statement that does not deliver keeps ids, deliveries and acknowledgements. */
  lemma ReclaimKeeps(h: History, u: Update, sessions: map<SessionId, Session>, log: Log)
    requires UniqueIds(h.store.commands) && Acks(h) && !u.Deliver?
    ensures UniqueIds(SetAll(h.store.commands, u))
    ensures Acks(h.(store := Store(sessions, SetAll(h.store.commands, u), log)))
  {
    var cs := SetAll(h.store.commands, u);
    assert forall k :: 0 <= k < |cs| ==>
                         cs[k].id == h.store.commands[k].id && cs[k].deliveredAt == h.store.commands[k].deliveredAt;
    hide Where, SetAll, Set;
    forall j | 0 <= j < |h.acked| ensures HasCommand(cs, h.acked[j].0) {
      assert HasCommand(h.store.commands, h.acked[j].0);
      var k :| 0 <= k < |h.store.commands| && h.store.commands[k].id == h.acked[j].0;
      assert cs[k].id == h.acked[j].0;
    }
  }

  lemma RegisterKeeps(h: History, c: Call)
    requires Inv(h) && c.Register? && Legal(h.store, c)
    ensures Inv(Next(h, c))
  {
    SnapshotGapless(h.store.log, c.s, c.snapshot);
    hide Gapless, Snapshot;
    if c.s in h.store.sessions && !h.store.sessions[c.s].bridgeBacked {
    } else {
      var n := Next(h, c);
      ReclaimKeeps(h, Unclaim(c.s, c.incarnation), n.store.sessions, n.store.log);
      hide Acks, UniqueIds;
      forall k | 0 <= k < |n.store.commands| ensures LiveClaim(n.store.sessions, n.store.commands[k]) {
        assert LiveClaim(h.store.sessions, h.store.commands[k]);
      }
    }
  }

  lemma ApplyKeeps(h: History, c: Call)
    requires Inv(h) && c.Apply?
    ensures Inv(Next(h, c))
  {
    IngestGapless(h.store.log, c.s, c.events);
    hide Gapless, Ingest, UniqueIds;
    var n := Next(h, c);
    forall k | 0 <= k < |n.store.commands| ensures LiveClaim(n.store.sessions, n.store.commands[k]) {
      assert LiveClaim(h.store.sessions, h.store.commands[k]);
    }
    assert n.store.commands == h.store.commands;
  }

  lemma EnqueueKeeps(h: History, c: Call)
    requires Inv(h) && c.Enqueue?
    ensures Inv(Next(h, c))
  {
    hide Gapless;
    var n := Next(h, c);
    if !HasCommand(h.store.commands, c.id) {
      assert !AckedId(h.acked, c.id);
      forall k | 0 <= k < |n.store.commands| ensures LiveClaim(n.store.sessions, n.store.commands[k]) {
        if k < |h.store.commands| { assert LiveClaim(h.store.sessions, h.store.commands[k]); }
      }
      forall j | 0 <= j < |h.acked| ensures HasCommand(n.store.commands, h.acked[j].0) {
        assert HasCommand(h.store.commands, h.acked[j].0);
        var k :| 0 <= k < |h.store.commands| && h.store.commands[k].id == h.acked[j].0;
        assert n.store.commands[k].id == h.acked[j].0;
      }
    }
  }

  lemma ClaimKeeps(h: History, c: Call)
    requires Inv(h) && c.Claim?
    ensures Inv(Next(h, c))
  {
    hide Gapless, Acks, UniqueIds, CreatedKeys, ClaimedRows, Handed;
    var n := Next(h, c);
    if BridgeError(h.store, c.s, c.incarnation).None? {
      var u := Lease(c.s, c.incarnation, c.now, c.now - c.lease);
      var cs := SetAll(h.store.commands, u);
      ReclaimKeeps(h, u, h.store.sessions, h.store.log);
      ClaimHanded(h, n, c, u);
      AcksMore(h.(store := n.store), n.handed);
      forall k | 0 <= k < |cs| ensures LiveClaim(h.store.sessions, cs[k]) {
        assert LiveClaim(h.store.sessions, h.store.commands[k]);
      }
    }
  }

  lemma ClaimHanded(h: History, n: History, c: Call, u: Update)
    requires Handed(h) && c.Claim? && BridgeError(h.store, c.s, c.incarnation).None? && n == Next(h, c)
    requires u == Lease(c.s, c.incarnation, c.now, c.now - c.lease)
    ensures Handed(n) && h.handed <= n.handed
  {
    var cs := SetAll(h.store.commands, u);
    var rows := ClaimedRows(cs, c.s, c.incarnation);
    var keys := CreatedKeys(cs);
    Ordering.SortedLists(keys, rows);
    assert n.store.commands == cs;
    assert n.handed == h.handed + Pairs(cs, Ordering.Sorted(keys, rows), c.incarnation);
    hide Next, Execute, CreatedKeys;
    forall k | 0 <= k < |cs| && cs[k].claimedBy != "" ensures (cs[k].id, cs[k].claimedBy) in n.handed {
      if Where(h.store.commands[k], u) {
        assert k in rows;
      } else {
        assert cs[k] == h.store.commands[k];
      }
    }
  }

  lemma AcksMore(h: History, handed: set<(CommandId, string)>)
    requires Acks(h) && h.handed <= handed
    ensures Acks(h.(handed := handed))
  {
  }

  lemma AckKeeps(h: History, c: Call)
    requires Inv(h) && c.Ack? && Legal(h.store, c)
    ensures Inv(Next(h, c))
  {
    hide Gapless;
    var n := Next(h, c);
    if BridgeError(h.store, c.s, c.incarnation).None? {
      var u := Deliver(c.s, c.id, c.incarnation, c.now);
      var cs := h.store.commands;
      if Matches(cs, u) {
        DeliverKeeps(h, n, u);
      } else {
        assert SetAll(cs, u) == cs;
      }
      hide Acks;
      forall k | 0 <= k < |cs| ensures LiveClaim(n.store.sessions, n.store.commands[k]) {
        assert LiveClaim(h.store.sessions, cs[k]);
      }
    }
  }

  lemma DeliverKeeps(h: History, n: History, u: Update)
    requires UniqueIds(h.store.commands) && Acks(h) && Handed(h)
    requires u.Deliver? && u.now > 0 && u.incarnation != "" && Matches(h.store.commands, u)
    requires n.store.commands == SetAll(h.store.commands, u)
    requires n.handed == h.handed && n.acked == h.acked + [(u.id, u.incarnation)]
    ensures Acks(n)
  {
    var cs := h.store.commands;
    var k :| 0 <= k < |cs| && Where(cs[k], u);
    assert forall i :: 0 <= i < |cs| && i != k ==> cs[i].id != u.id;
    assert forall i :: 0 <= i < |cs| ==> n.store.commands[i].id == cs[i].id
                                         && (i != k ==> n.store.commands[i] == cs[i]);
    assert n.store.commands[k].deliveredAt != 0;
    assert !AckedId(h.acked, u.id) by { assert cs[k].deliveredAt == 0; }
    hide Where, Set, SetAll, UniqueIds, Matches, Handed;
    forall i | 0 <= i < |cs| ensures n.store.commands[i].deliveredAt != 0 <==> AckedId(n.acked, cs[i].id) {
      AckedMore(h.acked, u, cs[i].id);
    }
    forall j | 0 <= j < |n.acked| ensures HasCommand(n.store.commands, n.acked[j].0) {
      if j == |h.acked| {
        assert n.store.commands[k].id == u.id;
      } else {
        assert HasCommand(cs, h.acked[j].0);
        var i :| 0 <= i < |cs| && cs[i].id == h.acked[j].0;
        assert n.store.commands[i].id == h.acked[j].0;
      }
    }
    hide HasCommand;
    forall i, j | 0 <= i < j < |n.acked| ensures n.acked[i].0 != n.acked[j].0 {
      assert i < |h.acked| && n.acked[i] == h.acked[i];
    }
  }

  lemma AckedMore(acked: seq<(CommandId, string)>, u: Update, id: CommandId)
    requires u.Deliver?
    ensures AckedId(acked + [(u.id, u.incarnation)], id) <==> AckedId(acked, id) || id == u.id
  {
    var more := acked + [(u.id, u.incarnation)];
    assert more[|acked|].0 == u.id;
    if AckedId(acked, id) {
      var j :| 0 <= j < |acked| && acked[j].0 == id;
      assert more[j].0 == id;
    }
  }

  /** A change that touches no command and gives no session a new incarnation. */
  lemma CommandsUntouched(h: History, n: History)
    requires Inv(h) && Gapless(n.store.log) && Sessions(n.store.sessions)
    requires n.store.commands == h.store.commands && n.handed == h.handed && n.acked == h.acked
    requires forall s :: s in n.store.sessions ==>
               n.store.sessions[s].incarnation.None?
               || (s in h.store.sessions && n.store.sessions[s].incarnation == h.store.sessions[s].incarnation)
    ensures Inv(n)
  {
    hide Gapless, UniqueIds;
    forall k | 0 <= k < |n.store.commands| ensures LiveClaim(n.store.sessions, n.store.commands[k]) {
      assert LiveClaim(h.store.sessions, h.store.commands[k]);
    }
  }

  lemma SessionCallKeeps(h: History, c: Call)
    requires Inv(h) && (c.Launch? || c.Finish?)
    ensures Inv(Next(h, c))
  {
    assert Gapless(h.store.log) && Sessions(h.store.sessions);
    hide Inv, Gapless, Append, StaleNotes, SetAll, Snapshot, Ingest, CreatedKeys, ClaimedRows, HasId, Where;
    CommandsUntouched(h, Next(h, c));
  }

  lemma NoteKeeps(h: History, c: Call)
    requires Inv(h) && (c.Block? || c.Record?)
    ensures Inv(Next(h, c))
  {
    if c.Block? {
      AppendKeepsGapless(h.store.log, Event(c.note, c.s, Other("blocked", c.question), c.now));
    } else {
      AppendKeepsGapless(h.store.log, c.event);
    }
    assert Gapless(h.store.log) && Sessions(h.store.sessions);
    hide Inv, Gapless, Append, StaleNotes, SetAll, Snapshot, Ingest, CreatedKeys, ClaimedRows, HasId, Where;
    CommandsUntouched(h, Next(h, c));
  }

  lemma SweepKeeps(h: History, c: Call)
    requires Inv(h) && c.Sweep?
    ensures Inv(Next(h, c))
  {
    StaleGapless(h.store.log, c.found, c.notes, c.now);
    assert Gapless(h.store.log) && Sessions(h.store.sessions);
    hide Inv, Gapless, Append, StaleNotes, SetAll, Snapshot, Ingest, CreatedKeys, ClaimedRows, HasId, Where;
    CommandsUntouched(h, Next(h, c));
  }

  lemma StepKeeps(h: History, c: Call)
    requires Inv(h) && Legal(h.store, c)
    ensures Inv(Next(h, c))
  {
    hide Inv, Next, Legal;
    match c
    case Register(_, _, _, _, _) => RegisterKeeps(h, c);
    case Apply(_, _, _, _, _, _) => ApplyKeeps(h, c);
    case Enqueue(_, _, _, _) => EnqueueKeeps(h, c);
    case Claim(_, _, _, _) => ClaimKeeps(h, c);
    case Ack(_, _, _, _) => AckKeeps(h, c);
    case Block(_, _, _, _) => NoteKeeps(h, c);
    case Record(_) => NoteKeeps(h, c);
    case Sweep(_, _, _, _) => SweepKeeps(h, c);
    case _ => SessionCallKeeps(h, c);
  }

  lemma {:induction false} RunKeeps(h: History, cs: seq<Call>)
    requires Inv(h) && LegalRun(h, cs)
    ensures Inv(Run(h, cs))
    decreases |cs|
  {
    hide Inv, Next, Legal;
    if cs != [] {
      StepKeeps(h, cs[0]);
      RunKeeps(Next(h, cs[0]), cs[1..]);
    }
  }

  lemma StartInv()
    ensures Inv(START)
  {
    assert forall s: SessionId :: SessionRows([], s) == [];
  }

  // ---------------------------------------------------------------- theorems about every run

  /** Over any run, with any number of re-registrations: each command is acknowledged successfully
      at most once, exactly the acknowledged commands are delivered (so the table is the disjoint
      union of acknowledged and undelivered ones), and whoever acknowledged a command had been
      handed it by a claim. */
  lemma AcknowledgedOnce(cs: seq<Call>)
    requires LegalRun(START, cs)
    ensures var h := Run(START, cs);
            && (forall i, j :: 0 <= i < j < |h.acked| ==> h.acked[i].0 != h.acked[j].0)
            && (forall k :: 0 <= k < |h.store.commands| ==>
                  (h.store.commands[k].deliveredAt != 0 <==> AckedId(h.acked, h.store.commands[k].id)))
            && (forall j :: 0 <= j < |h.acked| ==>
                  HasCommand(h.store.commands, h.acked[j].0) && h.acked[j] in h.handed)
  {
    hide Run, Next, LegalRun;
    StartInv();
    RunKeeps(START, cs);
  }

  /** A step acknowledges only for the live incarnation, and only a command that incarnation holds. */
  lemma AckedByHolder(cs: seq<Call>, s: SessionId, id: CommandId, i: string, now: int)
    requires LegalRun(START, cs) && now > 0
    ensures var h := Run(START, cs);
            Execute(h.store, Ack(s, id, i, now)).1 == Acked(true) <==>
              && BridgeError(h.store, s, i).None?
              && (id, i) in h.handed && !AckedId(h.acked, id)
              && (exists k :: 0 <= k < |h.store.commands| && h.store.commands[k].id == id
                              && h.store.commands[k].session == s && h.store.commands[k].claimedBy == i)
  {
    hide Run, Next, LegalRun;
    StartInv();
    RunKeeps(START, cs);
    var h := Run(START, cs);
    if BridgeError(h.store, s, i).None? {
      assert i != "" by { assert h.store.sessions[s].incarnation != Some(""); }
      var u := Deliver(s, id, i, now);
      if Matches(h.store.commands, u) {
        var k :| 0 <= k < |h.store.commands| && Where(h.store.commands[k], u);
        assert h.store.commands[k].id == id;
      } else {
        forall k | 0 <= k < |h.store.commands| && h.store.commands[k].id == id && h.store.commands[k].session == s
                   && h.store.commands[k].claimedBy == i
          ensures AckedId(h.acked, id)
        {
          assert !Where(h.store.commands[k], u);
        }
      }
    }
  }

  /** The session's commands that were never acknowledged. */
  function Backlog(h: History, s: SessionId): set<nat> {
    set k: nat | k < |h.store.commands| && h.store.commands[k].session == s && !AckedId(h.acked, h.store.commands[k].id)
  }

  /** Every claim by the live incarnation returns the whole unacknowledged backlog in
      (created_at, rowid) order, whatever earlier incarnations had claimed. */
  lemma ClaimReturnsBacklog(cs: seq<Call>, s: SessionId, i: string, now: int, lease: int)
    requires LegalRun(START, cs)
    ensures var h := Run(START, cs);
            BridgeError(h.store, s, i).None? ==>
              && Backlog(h, s) <= CreatedKeys(h.store.commands).Keys
              && Execute(h.store, Claim(s, i, now, lease)).1
                 == Claimed(Ordering.Sorted(CreatedKeys(h.store.commands), Backlog(h, s)))
  {
    hide Run, Next, LegalRun, CreatedKeys, ClaimedRows, Backlog, Inv, SetAll;
    StartInv();
    RunKeeps(START, cs);
    var h := Run(START, cs);
    if BridgeError(h.store, s, i).None? {
      BacklogClaimed(h, s, i, Lease(s, i, now, now - lease));
    }
  }

  lemma BacklogClaimed(h: History, s: SessionId, i: string, u: Update)
    requires Inv(h) && BridgeError(h.store, s, i).None? && u.Lease? && u.session == s && u.incarnation == i
    ensures CreatedKeys(SetAll(h.store.commands, u)) == CreatedKeys(h.store.commands)
    ensures ClaimedRows(SetAll(h.store.commands, u), s, i) == Backlog(h, s)
    ensures Backlog(h, s) <= CreatedKeys(h.store.commands).Keys
  {
    hide Gapless, UniqueIds, Sessions, Handed, AckedId;
    var after := SetAll(h.store.commands, u);
    forall k: nat ensures k in ClaimedRows(after, s, i) <==> k in Backlog(h, s) {
      if k < |h.store.commands| {
        assert LiveClaim(h.store.sessions, h.store.commands[k]);
        assert h.store.commands[k].deliveredAt != 0 <==> AckedId(h.acked, h.store.commands[k].id);
      }
    }
  }

  /** A question is only ever shown by a blocked session, and a live bridge never has an empty name. */
  lemma QuestionMeansBlocked(cs: seq<Call>, s: SessionId)
    requires LegalRun(START, cs) && s in Run(START, cs).store.sessions
    ensures Run(START, cs).store.sessions[s].question != "" ==> Run(START, cs).store.sessions[s].state.Blocked?
    ensures Run(START, cs).store.sessions[s].incarnation != Some("")
  {
    hide Run, Next, LegalRun;
    StartInv();
    RunKeeps(START, cs);
  }

  /** What can take session `s` out of the blocked state. */
  ghost predicate Unblocks(st: Store, c: Call, s: SessionId)
    requires s in st.sessions
  {
    match c
    case Ack(t, id, i, _) =>
      t == s && BridgeError(st, s, i).None? && PromptIn(st.commands, s, id)
      && exists k :: 0 <= k < |st.commands| && st.commands[k].id == id && st.commands[k].session == s
                     && st.commands[k].claimedBy == i && st.commands[k].deliveredAt == 0
    case Apply(t, i, state, _, _, _) => t == s && BridgeError(st, s, i).None? && state.Some? && Over(state.value)
    case Finish(t, final) => t == s && final != Blocked
    case Sweep(cutoff, _, _, _) => Expired(st.sessions[s], cutoff)
    case _ => false
  }

  /** A blocked session leaves BLOCKED exactly by the first acknowledgement of a claimed prompt, a
      terminal batch of its live bridge, finish, or an expired heartbeat; never by registering
      again, by other batches, or by a repeated acknowledgement. Until then its question stays,
      unless it is asked a new one. */
  lemma BlockedUntil(st: Store, c: Call, s: SessionId)
    requires s in st.sessions && st.sessions[s].state.Blocked? && Legal(st, c)
    ensures s in Execute(st, c).0.sessions
    ensures !Execute(st, c).0.sessions[s].state.Blocked? <==> Unblocks(st, c, s)
    ensures !Unblocks(st, c, s) && !(c.Block? && c.s == s) && !(c.Finish? && c.s == s) ==>
              Execute(st, c).0.sessions[s].question == st.sessions[s].question
  {
    hide SetAll, Append, Snapshot, Ingest, StaleNotes, CreatedKeys, ClaimedRows;
    if c.Ack? {
      var u := Deliver(c.s, c.id, c.incarnation, c.now);
      if Matches(st.commands, u) {
        var k :| 0 <= k < |st.commands| && Where(st.commands[k], u);
        assert st.commands[k].id == c.id;
      }
    }
  }

  /** Registering again with the same snapshot captures nothing twice. */
  lemma {:induction false} SnapshotIdempotent(log: Log, s: SessionId, events: seq<Event>, n: nat)
    requires n <= |events|
    ensures Snapshot(Snapshot(log, s, events), s, events[..n]) == Snapshot(log, s, events)
    decreases n
  {
    hide AppendSnapshot, Captured;
    if n > 0 {
      SnapshotIdempotent(log, s, events, n - 1);
      assert events[..n][..n - 1] == events[..n - 1] && events[..n][n - 1] == events[n - 1];
      SnapshotSettles(log, s, events, n - 1);
    }
  }

  /** Once a snapshot event was offered, offering it again does nothing. */
  predicate Settled(log: Log, s: SessionId, e: Event) {
    || !(e.payload.MessageStart? || e.payload.MessageEnd?) || e.payload.messageId == ""
    || Captured(log, s, e.payload) || HasId(log, e.id)
  }

  lemma {:induction false} SnapshotSettles(log: Log, s: SessionId, events: seq<Event>, k: nat)
    requires k < |events|
    ensures Settled(Snapshot(log, s, events), s, events[k])
    ensures AppendSnapshot(Snapshot(log, s, events), s, events[k]) == Snapshot(log, s, events)
    decreases |events|
  {
    var init := events[..|events| - 1];
    var before := Snapshot(log, s, init);
    var last := events[|events| - 1];
    SettlesOffered(before, s, last);
    if k < |init| {
      SnapshotSettles(log, s, init, k);
      SettledStays(before, AppendSnapshot(before, s, last), s, events[k]);
    }
  }

  lemma SettlesOffered(log: Log, s: SessionId, e: Event)
    ensures Settled(AppendSnapshot(log, s, e), s, e)
    ensures log <= AppendSnapshot(log, s, e)
  {
    if !Settled(log, s, e) {
      var next := AppendSnapshot(log, s, e);
      assert next[|log|].event == e.(session := s);
      assert SameMessage(next[|log|].event.payload, e.payload);
    }
  }

  lemma SettledStays(log: Log, more: Log, s: SessionId, e: Event)
    requires log <= more && Settled(log, s, e)
    ensures Settled(more, s, e)
  {
    if Captured(log, s, e.payload) {
      var k :| 0 <= k < |log| && log[k].event.session == s && SameMessage(log[k].event.payload, e.payload);
      assert more[k] == log[k];
    } else if HasId(log, e.id) {
      var k :| 0 <= k < |log| && log[k].event.id == e.id;
      assert more[k].event.id == e.id;
    }
  }

  // ---------------------------------------------------------------- the event log over a run

  lemma StepGrows(h: History, c: Call)
    requires Inv(h) && Legal(h.store, c)
    ensures Grown(h.store.log, Next(h, c).store.log)
  {
    if c.Register? { SnapshotGapless(h.store.log, c.s, c.snapshot); }
    if c.Apply? { IngestGapless(h.store.log, c.s, c.events); }
    if c.Block? { AppendGrows(h.store.log, Event(c.note, c.s, Other("blocked", c.question), c.now)); }
    if c.Record? { AppendGrows(h.store.log, c.event); }
    if c.Sweep? { StaleGapless(h.store.log, c.found, c.notes, c.now); }
    hide SessionRows, Append, Snapshot, Ingest, StaleNotes, SetAll, CreatedKeys, ClaimedRows, Where, Gapless;
  }

  lemma {:induction false} RunGrows(h: History, cs: seq<Call>)
    requires Inv(h) && LegalRun(h, cs)
    ensures Grown(h.store.log, Run(h, cs).store.log)
    decreases |cs|
  {
    hide Inv, Next, Legal, SessionRows;
    if cs != [] {
      StepKeeps(h, cs[0]);
      StepGrows(h, cs[0]);
      RunGrows(Next(h, cs[0]), cs[1..]);
    }
  }

  lemma {:induction false} RunSplit(h: History, cs: seq<Call>, n: nat)
    requires n <= |cs| && LegalRun(h, cs)
    ensures LegalRun(h, cs[..n]) && LegalRun(Run(h, cs[..n]), cs[n..]) && Run(h, cs) == Run(Run(h, cs[..n]), cs[n..])
    decreases n
  {
    hide Next, Legal;
    if n > 0 {
      assert cs[..n][1..] == cs[1..][..n - 1] && cs[1..][n - 1..] == cs[n..];
      RunSplit(Next(h, cs[0]), cs[1..], n - 1);
    } else {
      assert cs[0..] == cs;
    }
  }

  /** Readers of one session's log, polling at later and later points of one run, see what
      `EventLog.Stream` and the client rely on: at each poll the sequence is 1, 2, ..., n, and it
      only grows from poll to poll. */
  lemma PollsGrow(cs: seq<Call>, points: seq<nat>, polls: seq<Log>, s: SessionId)
    requires LegalRun(START, cs)
    requires |polls| == |points| && forall i :: 0 <= i < |points| ==> points[i] <= |cs|
    requires forall i, j :: 0 <= i < j < |points| ==> points[i] <= points[j]
    requires forall i :: 0 <= i < |points| ==> polls[i] == Run(START, cs[..points[i]]).store.log
    ensures Growing(polls, s)
  {
    hide Run, LegalRun, SessionRows, Gapless;
    forall i | 0 <= i < |points| ensures Gapless(polls[i]) {
      BetweenPoints(cs, points[i], points[i], s);
    }
    forall i, j | 0 <= i < j < |points| ensures SessionRows(polls[i], s) <= SessionRows(polls[j], s) {
      BetweenPoints(cs, points[i], points[j], s);
    }
  }

  lemma BetweenPoints(cs: seq<Call>, m: nat, n: nat, s: SessionId)
    requires LegalRun(START, cs) && m <= n <= |cs|
    ensures var first, later := Run(START, cs[..m]).store.log, Run(START, cs[..n]).store.log;
            Gapless(first) && SessionRows(first, s) <= SessionRows(later, s)
  {
    hide Run, LegalRun, SessionRows, Next, Inv, Gapless;
    StartInv();
    RunSplit(START, cs, n);
    assert cs[..n][..m] == cs[..m];
    RunSplit(START, cs[..n], m);
    RunKeeps(START, cs[..m]);
    InvGapless(Run(START, cs[..m]));
    RunGrows(Run(START, cs[..m]), cs[..n][m..]);
  }

  lemma InvGapless(h: History)
    requires Inv(h)
    ensures Gapless(h.store.log)
  {
  }

  // ---------------------------------------------------------------- what each call does

  predicate UsesId(events: seq<Event>, id: EventId) {
    exists k :: 0 <= k < |events| && events[k].id == id
  }

  /** The events of a batch whose id is in neither the log nor earlier in the batch, in batch order. */
  function Novel(log: Log, events: seq<Event>): seq<Event> {
    if events == [] then []
    else
      var n := |events| - 1;
      var e := events[n];
      Novel(log, events[..n]) + (if HasId(log, e.id) || UsesId(events[..n], e.id) then [] else [e])
  }

  /** New events of session `s` as the rows that follow its first `from`. */
  function NumberedFrom(s: SessionId, from: nat, events: seq<Event>): Log {
    seq(|events|, k requires 0 <= k < |events| => Row(events[k].(session := s), from + k + 1))
  }

  /** An accepted batch adds exactly its new events to the session's log: once each, in batch order, under
      the next numbers. No other session's log changes, and afterwards every id of the batch is known. */
  lemma {:induction false} BatchIsStored(log: Log, s: SessionId, events: seq<Event>)
    requires Gapless(log)
    ensures SessionRows(Ingest(log, s, events), s)
         == SessionRows(log, s) + NumberedFrom(s, |SessionRows(log, s)|, Novel(log, events))
    ensures forall t :: t != s ==> SessionRows(Ingest(log, s, events), t) == SessionRows(log, t)
    ensures forall id :: HasId(Ingest(log, s, events), id) <==> HasId(log, id) || UsesId(events, id)
  {
    hide Gapless, SessionRows, Append, HasId, NumberedFrom, UsesId;
    if events == [] {
      assert forall id :: !UsesId(events, id) by { NothingUsed(); }
      assert NumberedFrom(s, |SessionRows(log, s)|, []) == [] by { NothingUsed(); }
    } else {
      var n := |events| - 1;
      BatchIsStored(log, s, events[..n]);
      IngestGapless(log, s, events[..n]);
      forall id ensures UsesId(events, id) <==> UsesId(events[..n], id) || events[n].id == id {
        UsesMore(events, id);
      }
      AppendRows(Ingest(log, s, events[..n]), events[n].(session := s));
      NumberOne(s, |SessionRows(log, s)|, Novel(log, events[..n]), events[n]);
    }
  }

  lemma NothingUsed()
    ensures forall id :: !UsesId([], id)
    ensures forall s, from :: NumberedFrom(s, from, []) == []
  {
  }

  lemma NumberOne(s: SessionId, from: nat, events: seq<Event>, e: Event)
    ensures NumberedFrom(s, from, events + [e])
         == NumberedFrom(s, from, events) + [Row(e.(session := s), from + |events| + 1)]
    ensures |NumberedFrom(s, from, events)| == |events| && events + [] == events
  {
  }

  lemma UsesMore(events: seq<Event>, id: EventId)
    requires events != []
    ensures UsesId(events, id) <==> UsesId(events[..|events| - 1], id) || events[|events| - 1].id == id
  {
    var init := events[..|events| - 1];
    if UsesId(init, id) {
      var k :| 0 <= k < |init| && init[k].id == id;
      assert events[k].id == id;
    }
    if UsesId(events, id) {
      var k :| 0 <= k < |events| && events[k].id == id;
      assert k < |init| ==> init[k].id == id;
    }
  }

  /** INSERT OR IGNORE: a new id adds one row to its own session, a known one nothing. */
  lemma AppendRows(log: Log, e: Event)
    requires Gapless(log)
    ensures SessionRows(Append(log, e), e.session)
         == SessionRows(log, e.session)
            + (if HasId(log, e.id) then [] else [Row(e, |SessionRows(log, e.session)| + 1)])
    ensures forall t :: t != e.session ==> SessionRows(Append(log, e), t) == SessionRows(log, t)
    ensures forall id :: HasId(Append(log, e), id) <==> HasId(log, id) || id == e.id
  {
    AppendKeepsGapless(log, e);
    var next := Append(log, e);
    if !HasId(log, e.id) {
      assert next[..|log|] == log && next[|log|].event == e;
      forall id ensures HasId(next, id) <==> HasId(log, id) || id == e.id {
        if HasId(log, id) {
          var k :| 0 <= k < |log| && log[k].event.id == id;
          assert next[k].event.id == id;
        }
        if HasId(next, id) {
          var k :| 0 <= k < |next| && next[k].event.id == id;
          assert k < |log| ==> log[k].event.id == id;
        }
      }
    }
  }

  /** A batch is accepted exactly from the live incarnation. It sets the state it reports, but ends a block
      only with a terminal state; a terminal state drops the question; the pending flag is never lowered
      while a command is undelivered. */
  lemma BatchMeans(st: Store, c: Call)
    requires c.Apply?
    ensures var (n, answer) := Execute(st, c);
            && (answer == Refused(UnknownSession) <==> c.s !in st.sessions || !st.sessions[c.s].bridgeBacked)
            && (answer == Refused(StaleIncarnation) <==>
                  c.s in st.sessions && st.sessions[c.s].bridgeBacked
                  && st.sessions[c.s].incarnation != Some(c.incarnation))
            && (answer.Refused? ==> n == st && answer.error in {UnknownSession, StaleIncarnation})
            && (answer.Refused? || answer == Done)
            && (answer == Done ==>
                  && n.commands == st.commands
                  && c.s in n.sessions && n.sessions == st.sessions[c.s := n.sessions[c.s]]
                  && var x, y := st.sessions[c.s], n.sessions[c.s];
                     var ending := c.state.Some? && c.state.value in {Stopped, SessionState.Failed, TerminationUnknown};
                     && y == x.(state := y.state, question := y.question, pending := y.pending, lastSeen := c.now)
                     && y.state == (if c.state.Some? && (x.state != Blocked || ending) then c.state.value else x.state)
                     && y.question == (if y.state in {Stopped, SessionState.Failed, TerminationUnknown} then ""
                                       else x.question)
                     && (c.pendingNow.None? ==> y.pending == x.pending)
                     && (c.pendingNow.Some? ==>
                           (y.pending <==>
                            c.pendingNow.value || exists k ::
                              0 <= k < |st.commands| && st.commands[k].session == c.s
                              && st.commands[k].deliveredAt == 0)))
  {
    hide Ingest;
  }

  /** The same over a store: whatever the batch reports, its events are stored exactly so. */
  lemma AcceptedBatch(st: Store, c: Call, t: SessionId)
    requires c.Apply? && Gapless(st.log) && Execute(st, c).1 == Done
    ensures var log := Execute(st, c).0.log;
            && (forall k :: 0 <= k < |c.events| ==> HasId(log, c.events[k].id))
            && SessionRows(log, t)
               == SessionRows(st.log, t)
                  + if t == c.s then NumberedFrom(t, |SessionRows(st.log, t)|, Novel(st.log, c.events)) else []
  {
    BatchIsStored(st.log, c.s, c.events);
    hide Ingest, HasId, SessionRows, Gapless, Novel, NumberedFrom;
    assert forall k :: 0 <= k < |c.events| ==> UsesId(c.events, c.events[k].id);
  }

  /** A snapshot event that is taken: a message start or end with an identity. */
  predicate Identified(e: Event) {
    (e.payload.MessageStart? || e.payload.MessageEnd?) && e.payload.messageId != ""
  }

  /** After registering, every identified message of the snapshot is in the session's log, or its event id
      was used before; rows are only added, each for an identified event of the snapshot that was not
      captured yet; other sessions' logs stay. */
  lemma {:induction false} SnapshotIsStored(log: Log, s: SessionId, events: seq<Event>)
    requires Gapless(log)
    ensures var after := Snapshot(log, s, events);
            && (forall k :: 0 <= k < |events| && Identified(events[k]) ==>
                  Captured(after, s, events[k].payload) || HasId(after, events[k].id))
            && log <= after
            && (forall t :: t != s ==> SessionRows(after, t) == SessionRows(log, t))
            && (forall i :: |log| <= i < |after| ==>
                  && !Captured(log, s, after[i].event.payload)
                  && exists k ::
                       0 <= k < |events| && Identified(events[k]) && after[i].event == events[k].(session := s))
  {
    hide Gapless, SessionRows, HasId, Captured, Append;
    if events != [] {
      var n := |events| - 1;
      var init, e := events[..n], events[n];
      SnapshotIsStored(log, s, init);
      SnapshotGapless(log, s, init);
      var before, after := Snapshot(log, s, init), Snapshot(log, s, events);
      SnapshotOne(before, s, e);
      AppendRows(before, e.(session := s));
      forall k | 0 <= k < |events| && Identified(events[k])
        ensures Captured(after, s, events[k].payload) || HasId(after, events[k].id)
      {
        if k < n {
          assert init[k] == events[k];
          SnapshotKeeps(before, after, s, init[k]);
        }
      }
      forall i | |log| <= i < |after|
        ensures !Captured(log, s, after[i].event.payload)
        ensures exists k :: 0 <= k < |events| && Identified(events[k]) && after[i].event == events[k].(session := s)
      {
        if i < |before| {
          assert after[i] == before[i];
          var k :| 0 <= k < |init| && Identified(init[k]) && before[i].event == init[k].(session := s);
          assert events[k] == init[k];
        } else {
          assert after[i].event == e.(session := s);
          if Captured(log, s, e.payload) { CapturedStays(log, before, s, e.payload); }
        }
      }
    }
  }

  /** Captured: a row of this session starts, or ends, the same message. */
  lemma CapturedMeans(log: Log, s: SessionId, p: Payload)
    requires p.MessageStart? || p.MessageEnd?
    ensures Captured(log, s, p) <==>
            exists k :: 0 <= k < |log| && log[k].event.session == s
                        && (if p.MessageStart? then log[k].event.payload.MessageStart?
                            else log[k].event.payload.MessageEnd?)
                        && log[k].event.payload.messageId == p.messageId
  {
  }

  lemma CapturedStays(log: Log, more: Log, s: SessionId, p: Payload)
    requires log <= more && Captured(log, s, p)
    ensures Captured(more, s, p)
  {
    var k :| 0 <= k < |log| && log[k].event.session == s && SameMessage(log[k].event.payload, p);
    assert more[k] == log[k];
  }

  lemma SnapshotKeeps(log: Log, more: Log, s: SessionId, e: Event)
    requires log <= more && (Captured(log, s, e.payload) || HasId(log, e.id))
    ensures Captured(more, s, e.payload) || HasId(more, e.id)
  {
    if Captured(log, s, e.payload) {
      CapturedStays(log, more, s, e.payload);
    } else {
      var k :| 0 <= k < |log| && log[k].event.id == e.id;
      assert more[k].event.id == e.id;
    }
  }

  /** One snapshot event: afterwards it is known, and at most one row for it was added. */
  lemma SnapshotOne(log: Log, s: SessionId, e: Event)
    ensures var after := AppendSnapshot(log, s, e);
            && log <= after && (Identified(e) ==> Captured(after, s, e.payload) || HasId(after, e.id))
            && (after == log
                || (Identified(e) && !Captured(log, s, e.payload) && after == Append(log, e.(session := s))
                    && |after| == |log| + 1 && after[|log|].event == e.(session := s)))
  {
    var after := AppendSnapshot(log, s, e);
    SettlesOffered(log, s, e);
    if after != log {
      assert after[|log|].event == e.(session := s);
    }
  }

  /** Registering hands the session to the new incarnation: a block is kept and anything else turns idle,
      and exactly the undelivered commands that another incarnation had claimed are free again. */
  lemma RegisterMeans(st: Store, c: Call)
    requires c.Register?
    ensures var (n, answer) := Execute(st, c);
            && (answer == Refused(NotBridgeBacked) <==> c.s in st.sessions && !st.sessions[c.s].bridgeBacked)
            && (answer.Refused? ==> n == st) && (!answer.Refused? ==> answer == Done)
            && (answer == Done ==>
                  && c.s in n.sessions && n.sessions == st.sessions[c.s := n.sessions[c.s]]
                  && n.sessions[c.s].incarnation == Some(c.incarnation) && n.sessions[c.s].lastSeen == c.now
                  && n.sessions[c.s].bridgeBacked && n.sessions[c.s].pending == c.pending
                  && (if c.s in st.sessions && st.sessions[c.s].state == Blocked then n.sessions[c.s].state == Blocked
                      else n.sessions[c.s].state == SessionState.Idle)
                  && (if c.s in st.sessions
                      then n.sessions[c.s].question == st.sessions[c.s].question
                           && n.sessions[c.s].hasToken == st.sessions[c.s].hasToken
                      else n.sessions[c.s].question == "" && !n.sessions[c.s].hasToken)
                  && |n.commands| == |st.commands|
                  && forall k :: 0 <= k < |st.commands| ==>
                       var x, y := st.commands[k], n.commands[k];
                       if x.session == c.s && x.deliveredAt == 0 && x.claimedBy != c.incarnation
                       then y == x.(claimedBy := "", claimedAt := 0) else y == x)
  {
    hide Snapshot;
  }

  /** Registering stores the snapshot as `SnapshotIsStored` says. */
  lemma RegisterStores(st: Store, c: Call, k: nat, t: SessionId)
    requires c.Register? && Gapless(st.log) && Execute(st, c).1 == Done && k < |c.snapshot|
    ensures var log := Execute(st, c).0.log;
            && (Identified(c.snapshot[k]) ==> Captured(log, c.s, c.snapshot[k].payload) || HasId(log, c.snapshot[k].id))
            && st.log <= log && (t != c.s ==> SessionRows(log, t) == SessionRows(st.log, t))
  {
    SnapshotIsStored(st.log, c.s, c.snapshot);
    hide Snapshot, HasId, Captured, SessionRows, SetAll, Identified;
  }

  lemma EnqueueMeans(st: Store, c: Call)
    requires c.Enqueue?
    ensures var (n, answer) := Execute(st, c);
            && n.log == st.log
            && (answer == Refused(DuplicateId) <==> exists k :: 0 <= k < |st.commands| && st.commands[k].id == c.id)
            && (answer.Refused? ==> n == st) && (!answer.Refused? ==> answer == Done)
            && (answer == Done ==>
                  && n.commands == st.commands + [Command(c.id, c.s, c.prompt, c.createdAt, 0, "", 0)]
                  && n.sessions.Keys == st.sessions.Keys
                  && forall s :: s in st.sessions ==>
                       n.sessions[s] == if s == c.s then st.sessions[s].(pending := true) else st.sessions[s])
  {
  }

  /** A claim by the live incarnation leases the commands that nobody holds, that it holds itself, or whose
      lease is over, and leaves every other command alone. */
  lemma ClaimMeans(st: Store, c: Call)
    requires c.Claim?
    ensures var (n, answer) := Execute(st, c);
            && n.sessions == st.sessions && n.log == st.log && |n.commands| == |st.commands|
            && (answer.Refused? <==> c.s !in st.sessions || !st.sessions[c.s].bridgeBacked
                                     || st.sessions[c.s].incarnation != Some(c.incarnation))
            && (answer.Refused? ==> n == st)
            && (!answer.Refused? ==>
                  forall k :: 0 <= k < |st.commands| ==>
                    var x, y := st.commands[k], n.commands[k];
                    if x.session == c.s && x.deliveredAt == 0
                       && (x.claimedBy == "" || x.claimedBy == c.incarnation || x.claimedAt + c.lease <= c.now)
                    then y == x.(claimedBy := c.incarnation, claimedAt := c.now) else y == x)
  {
    hide CreatedKeys, ClaimedRows;
  }

  /** What a claim returns: exactly the commands the incarnation then holds, older ones first, and in the
      order of insertion among those of the same time. */
  lemma ClaimInOrder(st: Store, c: Call)
    requires c.Claim? && Execute(st, c).1.Claimed?
    ensures var cs, rows := Execute(st, c).0.commands, Execute(st, c).1.rows;
            && (forall k: nat ::
                  k in rows <==> (k < |cs| && cs[k].session == c.s && cs[k].deliveredAt == 0
                                  && cs[k].claimedBy == c.incarnation))
            && (forall i :: 0 <= i < |rows| ==> rows[i] < |cs|)
            && (forall i, j :: 0 <= i < j < |rows| ==>
                  (cs[rows[i]].createdAt < cs[rows[j]].createdAt
                      || (cs[rows[i]].createdAt == cs[rows[j]].createdAt && rows[i] < rows[j])))
  {
    var cs := Execute(st, c).0.commands;
    Ordering.SortedLists(CreatedKeys(cs), ClaimedRows(cs, c.s, c.incarnation));
    Ordering.SortedAscending(CreatedKeys(cs), ClaimedRows(cs, c.s, c.incarnation));
    hide SetAll;
    var rows := Execute(st, c).1.rows;
    assert forall i :: 0 <= i < |rows| ==> rows[i] in rows;
  }

  /** Recording stores the event once, under its session's next number. */
  lemma RecordMeans(st: Store, c: Call, t: SessionId)
    requires c.Record? && Gapless(st.log)
    ensures var (n, answer) := Execute(st, c);
            && answer == Done && n.sessions == st.sessions && n.commands == st.commands && HasId(n.log, c.event.id)
            && SessionRows(n.log, t)
               == SessionRows(st.log, t)
                  + if t == c.event.session && !HasId(st.log, c.event.id)
                    then [Row(c.event, |SessionRows(st.log, t)| + 1)] else []
  {
    AppendRows(st.log, c.event);
    hide Append, SessionRows, HasId;
  }

  /** An acknowledgement by the live incarnation delivers the commands of that id it holds, and nothing else;
      the first acknowledgement of a prompt answers a block. */
  lemma AckMeans(st: Store, c: Call)
    requires c.Ack?
    ensures var (n, answer) := Execute(st, c);
            && n.log == st.log && |n.commands| == |st.commands|
            && (answer.Refused? <==> c.s !in st.sessions || !st.sessions[c.s].bridgeBacked
                                     || st.sessions[c.s].incarnation != Some(c.incarnation))
            && (answer.Refused? ==> n == st)
            && (!answer.Refused? ==>
                  && (forall k :: 0 <= k < |st.commands| ==>
                        var x, y := st.commands[k], n.commands[k];
                        if x.session == c.s && x.id == c.id && x.claimedBy == c.incarnation && x.deliveredAt == 0
                        then y == x.(deliveredAt := c.now) else y == x)
                  && n.sessions == st.sessions[c.s := n.sessions[c.s]]
                  && var answers := answer == Acked(true) && st.sessions[c.s].state == Blocked
                                    && exists k :: 0 <= k < |st.commands| && st.commands[k].id == c.id
                                                   && st.commands[k].session == c.s && st.commands[k].prompt;
                     n.sessions[c.s] == if answers then st.sessions[c.s].(state := Working, question := "")
                                        else st.sessions[c.s])
  {
  }

  /** Blocking, finishing and launching: which sessions they accept and what they leave. */
  lemma SessionCallsMean(st: Store, c: Call)
    requires c.Block? || c.Finish? || c.Launch?
    ensures var (n, answer) := Execute(st, c);
            && n.commands == st.commands
            && (forall s :: s in st.sessions && s != c.s ==> s in n.sessions && n.sessions[s] == st.sessions[s])
            && (c.Block? ==>
                  && (answer == Refused(NotActive) <==>
                        c.s !in st.sessions
                        || st.sessions[c.s].state in {Stopped, SessionState.Failed, TerminationUnknown})
                  && (answer.Refused? ==> n == st)
                  && (!answer.Refused? ==>
                        c.s in n.sessions
                        && n.sessions[c.s] == st.sessions[c.s].(state := Blocked, question := c.question)
                        && n.log == Append(st.log, Event(c.note, c.s, Other("blocked", c.question), c.now))))
            && (c.Finish? ==>
                  && n.log == st.log && n.sessions.Keys == st.sessions.Keys
                  && (c.s in st.sessions ==>
                        n.sessions[c.s] == st.sessions[c.s].(state := c.final, question := "", hasToken := false,
                                                             incarnation := None)))
            && (c.Launch? ==>
                  && n.log == st.log && (answer.Refused? <==> c.s in st.sessions)
                  && (c.s in st.sessions ==> n == st)
                  && (c.s !in st.sessions ==>
                        c.s in n.sessions
                        && n.sessions[c.s] == Session(true, SessionState.Starting, "", None, true, false, 0)))
  {
    hide Append;
  }

  /** A sweep stops exactly the bridge-backed sessions that are not over and were last seen before the
      cutoff, and notes it once in the log of each. */
  lemma SweepMeans(st: Store, c: Call)
    requires c.Sweep? && FoundBy(st.sessions, c.cutoff, c.found, c.notes)
    ensures var n := Execute(st, c).0;
            && n.commands == st.commands && n.sessions.Keys == st.sessions.Keys
            && forall s :: s in st.sessions ==>
                 var x := st.sessions[s];
                 n.sessions[s] == if x.bridgeBacked && x.lastSeen < c.cutoff && x.state != Stopped
                                     && x.state != SessionState.Failed
                                  then x.(state := Stopped, question := "", hasToken := false) else x
  {
    hide StaleNotes;
  }

  lemma {:induction false} SweepNotes(log: Log, found: seq<SessionId>, notes: seq<EventId>, now: int, t: SessionId)
    requires Gapless(log) && |notes| == |found|
    requires forall i, j :: 0 <= i < j < |found| ==> found[i] != found[j] && notes[i] != notes[j]
    requires forall i :: 0 <= i < |notes| ==> !HasId(log, notes[i])
    ensures t !in found ==> SessionRows(StaleNotes(log, found, notes, now), t) == SessionRows(log, t)
    ensures forall k :: 0 <= k < |found| && found[k] == t ==>
              SessionRows(StaleNotes(log, found, notes, now), t)
              == SessionRows(log, t) + [Row(StaleNote(notes[k], t, now), |SessionRows(log, t)| + 1)]
    decreases |found|
  {
    hide Gapless, SessionRows, Append, HasId, StaleNotes, StaleNote;
    if found == [] {
      NoNotes(log, notes, now);
    } else {
      var n := |found| - 1;
      SweepNotes(log, found[..n], notes[..n], now, t);
      SweepIds(log, found[..n], notes[..n], now);
      StaleGapless(log, found[..n], notes[..n], now);
      NotesStep(log, found, notes, now);
      NoteSession(notes[n], found[n], now);
      AppendRows(StaleNotes(log, found[..n], notes[..n], now), StaleNote(notes[n], found[n], now));
      assert notes == notes[..n] + [notes[n]] && found == found[..n] + [found[n]];
    }
  }

  lemma {:induction false} SweepIds(log: Log, found: seq<SessionId>, notes: seq<EventId>, now: int)
    requires Gapless(log) && |notes| == |found|
    ensures forall id :: HasId(StaleNotes(log, found, notes, now), id) <==> HasId(log, id) || id in notes
    decreases |found|
  {
    hide Gapless, SessionRows, Append, HasId, StaleNotes, StaleNote;
    if found == [] {
      NoNotes(log, notes, now);
    } else {
      var n := |found| - 1;
      SweepIds(log, found[..n], notes[..n], now);
      StaleGapless(log, found[..n], notes[..n], now);
      NotesStep(log, found, notes, now);
      NoteSession(notes[n], found[n], now);
      AppendRows(StaleNotes(log, found[..n], notes[..n], now), StaleNote(notes[n], found[n], now));
      assert notes == notes[..n] + [notes[n]];
    }
  }

  function StaleNote(id: EventId, s: SessionId, now: int): Event {
    Event(id, s, Other("bridge-stale", ""), now)
  }

  lemma NoteSession(id: EventId, s: SessionId, now: int)
    ensures StaleNote(id, s, now).session == s && StaleNote(id, s, now).id == id
  {
  }

  lemma NoNotes(log: Log, notes: seq<EventId>, now: int)
    ensures StaleNotes(log, [], notes, now) == log
  {
  }

  lemma NotesStep(log: Log, found: seq<SessionId>, notes: seq<EventId>, now: int)
    requires found != [] && |notes| == |found|
    ensures var n := |found| - 1;
            StaleNotes(log, found, notes, now)
            == Append(StaleNotes(log, found[..n], notes[..n], now), StaleNote(notes[n], found[n], now))
  {
    NotesFrame(log, found, notes, now, |found| - 1);
  }

  lemma {:induction false} NotesFrame(log: Log, found: seq<SessionId>, notes: seq<EventId>, now: int, n: nat)
    requires n <= |found| == |notes|
    ensures StaleNotes(log, found[..n], notes, now) == StaleNotes(log, found[..n], notes[..n], now)
    decreases n
  {
    hide Append;
    if n > 0 {
      assert found[..n][..n - 1] == found[..n - 1];
      NotesFrame(log, found, notes, now, n - 1);
      NotesFrame(log, found[..n], notes[..n], now, n - 1);
      assert notes[..n][..n - 1] == notes[..n - 1];
    }
  }
}
