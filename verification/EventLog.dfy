/** The durable per-session event log: the `pi_session_events` table in insertion order,
    the trigger that numbers its rows, and the paged and streamed reads. */
module EventLog {

  import opened Prelude

  type SessionId = string
  type EventId = string

  /** The payloads a client distinguishes; everything else is a lifecycle event. */
  datatype Payload =
    | MessageStart(messageId: string, role: Option<string>, timestamp: int)
    | MessageDelta(messageId: string, index: int, delta: string)
    | MessageEnd(messageId: string, role: Option<string>, timestamp: int, content: seq<string>)
    | ToolStart(callId: string, name: string, isError: bool)
    | ToolEnd(callId: string, name: string, isError: bool)
    | Settings(settings: string)
    | ControlError(detail: string)
    | Other(eventType: string, detail: string)

  datatype Event = Event(id: EventId, session: SessionId, payload: Payload, createdAt: int)

  datatype Row = Row(event: Event, sequence: int)

  type Log = seq<Row>

  const STREAM_PAGE: nat := 500
  const MAX_PAGE: nat := 1000

  predicate HasId(log: Log, id: EventId) {
    exists k :: 0 <= k < |log| && log[k].event.id == id
  }

  /** One session's rows, in insertion order. */
  function SessionRows(log: Log, s: SessionId): Log {
    if log == [] then []
    else
      var rest := SessionRows(log[..|log| - 1], s);
      if log[|log| - 1].event.session == s then rest + [log[|log| - 1]] else rest
  }

  /** COALESCE(MAX(sequence), 0) over one session. */
  function MaxSequence(log: Log, s: SessionId): int {
    if log == [] then 0
    else
      var rest := MaxSequence(log[..|log| - 1], s);
      var last := log[|log| - 1];
      if last.event.session == s && last.sequence > rest then last.sequence else rest
  }

  /** INSERT OR IGNORE followed by the numbering trigger. */
  function Append(log: Log, e: Event): Log {
    if HasId(log, e.id) then log else log + [Row(e, MaxSequence(log, e.session) + 1)]
  }

  ghost predicate Numbered(rows: Log) {
    forall k :: 0 <= k < |rows| ==> rows[k].sequence == k + 1
  }

  /** Every session's sequence numbers are exactly 1, 2, ..., n in insertion order. */
  ghost predicate Gapless(log: Log) {
    && (forall s: SessionId :: Numbered(SessionRows(log, s)))
    && (forall i, j :: 0 <= i < j < |log| ==> log[i].event.id != log[j].event.id)
  }

  lemma {:induction false} SessionRowsHas(log: Log, s: SessionId, r: Row)
    ensures r in SessionRows(log, s) <==> r in log && r.event.session == s
  {
    if log != [] {
      var last := log[|log| - 1];
      SessionRowsHas(log[..|log| - 1], s, r);
      assert r in log <==> r in log[..|log| - 1] || r == last;
    }
  }

  lemma {:induction false} MaxSequenceCounts(log: Log, s: SessionId)
    requires Numbered(SessionRows(log, s))
    ensures MaxSequence(log, s) == |SessionRows(log, s)|
  {
    if log != [] {
      var rest := SessionRows(log[..|log| - 1], s);
      var rows := SessionRows(log, s);
      assert forall k :: 0 <= k < |rest| ==> rest[k] == rows[k];
      assert |rows| > |rest| ==> rows[|rest|] == log[|log| - 1];
      MaxSequenceCounts(log[..|log| - 1], s);
    }
  }

  /** Appending keeps every session gap-free and gives the new event the next number;
      a repeated event id changes nothing. */
  lemma AppendKeepsGapless(log: Log, e: Event)
    requires Gapless(log)
    ensures Gapless(Append(log, e))
    ensures log <= Append(log, e)
    ensures forall s :: SessionRows(log, s) <= SessionRows(Append(log, e), s)
    ensures !HasId(log, e.id) ==>
              SessionRows(Append(log, e), e.session)
              == SessionRows(log, e.session) + [Row(e, |SessionRows(log, e.session)| + 1)]
    ensures HasId(Append(log, e), e.id)
  {
    var next := Append(log, e);
    if !HasId(log, e.id) {
      MaxSequenceCounts(log, e.session);
      assert next[..|log|] == log;
      assert next[|log|].event.id == e.id;
      forall s ensures Numbered(SessionRows(next, s)) && SessionRows(log, s) <= SessionRows(next, s) {
        assert Numbered(SessionRows(log, s));
      }
      hide Numbered;
      forall i, j | 0 <= i < j < |next| ensures next[i].event.id != next[j].event.id {
        if j == |log| { assert log[i].event.id != e.id; }
      }
    }
  }

  // ---------------------------------------------------------------- reading

  /** The row ORDER BY sequence reaches first above `after`. */
  function NextRow(log: Log, s: SessionId, after: int): Option<Row> {
    if log == [] then None
    else
      var rest := NextRow(log[..|log| - 1], s, after);
      var last := log[|log| - 1];
      if last.event.session == s && last.sequence > after && (rest.None? || last.sequence < rest.value.sequence)
      then Some(last) else rest
  }

  /** WHERE session_id=s AND sequence>after ORDER BY sequence LIMIT limit. */
  function Select(log: Log, s: SessionId, after: int, limit: nat): Log
    decreases limit
  {
    if limit == 0 then []
    else
      match NextRow(log, s, after)
      case None => []
      case Some(r) => [r] + Select(log, s, r.sequence, limit - 1)
  }

  function Clamp(limit: int): nat {
    if limit < 1 then 1 else if limit > MAX_PAGE then MAX_PAGE else limit
  }

  function ListEvents(log: Log, s: SessionId, after: int, limit: int): Log {
    Select(log, s, if after < 0 then 0 else after, Clamp(limit))
  }

  lemma {:induction false} NextRowIsLeast(log: Log, s: SessionId, after: int)
    ensures match NextRow(log, s, after)
            case None => forall r :: r in log && r.event.session == s ==> r.sequence <= after
            case Some(n) => n in log && n.event.session == s && n.sequence > after
                            && (forall r :: r in log && r.event.session == s && r.sequence > after ==>
                                  n.sequence <= r.sequence)
  {
    if log != [] {
      var last := log[|log| - 1];
      NextRowIsLeast(log[..|log| - 1], s, after);
      assert forall r :: r in log <==> r in log[..|log| - 1] || r == last;
    }
  }

  lemma NextRowIsNext(log: Log, s: SessionId, after: nat)
    requires Numbered(SessionRows(log, s))
    ensures NextRow(log, s, after)
            == if after < |SessionRows(log, s)| then Some(SessionRows(log, s)[after]) else None
  {
    var rows := SessionRows(log, s);
    NextRowIsLeast(log, s, after);
    forall r ensures r in rows <==> r in log && r.event.session == s { SessionRowsHas(log, s, r); }
    if after < |rows| {
      assert rows[after] in rows;
    }
    match NextRow(log, s, after)
    case None =>
    case Some(n) =>
      assert n in rows;
      var k :| 0 <= k < |rows| && rows[k] == n;
  }

  function Least(a: int, b: int): int {
    if a < b then a else b
  }

  lemma {:induction false} SelectIsSlice(log: Log, s: SessionId, after: nat, limit: nat)
    requires Numbered(SessionRows(log, s))
    ensures after <= |SessionRows(log, s)| ==>
              Select(log, s, after, limit)
              == SessionRows(log, s)[after..Least(after + limit, |SessionRows(log, s)|)]
    ensures after > |SessionRows(log, s)| ==> Select(log, s, after, limit) == []
    decreases limit
  {
    hide SessionRows, NextRow;
    var rows := SessionRows(log, s);
    NextRowIsNext(log, s, after);
    if limit > 0 && after < |rows| {
      SelectIsSlice(log, s, after + 1, limit - 1);
    }
  }

  /** A page holds as many rows as asked for, but at least one and at most a thousand, as far as the log
      goes; a negative cursor reads from the start. */
  lemma PageHolds(log: Log, s: SessionId, after: int, limit: int)
    requires Gapless(log)
    ensures var from, n := if after < 0 then 0 else after, |SessionRows(log, s)|;
            var asked := if limit < 1 then 1 else if limit > 1000 then 1000 else limit;
            && |ListEvents(log, s, after, limit)|
               == (if from >= n then 0 else if from + asked < n then asked else n - from)
            && forall k :: 0 <= k < |ListEvents(log, s, after, limit)| ==>
                 from + k < n && ListEvents(log, s, after, limit)[k] == SessionRows(log, s)[from + k]
  {
    hide SessionRows, Gapless;
    PageIsSlice(log, s, if after < 0 then 0 else after, limit);
    hide Select;
  }

  /** A page is the stretch of the session's log just above `after`. */
  lemma PageIsSlice(log: Log, s: SessionId, after: nat, limit: int)
    requires Gapless(log)
    ensures after <= |SessionRows(log, s)| ==>
              ListEvents(log, s, after, limit)
              == SessionRows(log, s)[after..Least(after + Clamp(limit), |SessionRows(log, s)|)]
    ensures after > |SessionRows(log, s)| ==> ListEvents(log, s, after, limit) == []
  {
    assert Numbered(SessionRows(log, s));
    SelectIsSlice(log, s, after, Clamp(limit));
  }

  /** The tables a reader sees at successive polls only grow. */
  ghost predicate Growing(polls: seq<Log>, s: SessionId) {
    && (forall i :: 0 <= i < |polls| ==> Gapless(polls[i]))
    && (forall i, j :: 0 <= i < j < |polls| ==> SessionRows(polls[i], s) <= SessionRows(polls[j], s))
  }

  /** How far a reader gets that starts above sequence `from` and takes one page at each poll. */
  function Reach(polls: seq<Log>, s: SessionId, from: nat): (to: nat)
    ensures from <= to
  {
    if polls == [] then from
    else
      var to := Reach(polls[..|polls| - 1], s, from);
      var n := |SessionRows(polls[|polls| - 1], s)|;
      if to > n then to else Least(to + STREAM_PAGE, n)
  }

  lemma ReachNext(polls: seq<Log>, s: SessionId, from: nat, i: nat)
    requires i < |polls|
    ensures var to, n := Reach(polls[..i], s, from), |SessionRows(polls[i], s)|;
            Reach(polls[..i + 1], s, from) == if to > n then to else Least(to + STREAM_PAGE, n)
  {
    assert polls[..i + 1][..i] == polls[..i];
  }

  /** A reader never gets past the log, unless it started there. */
  lemma {:induction false} ReachBound(polls: seq<Log>, s: SessionId, from: nat)
    requires polls != [] && Growing(polls, s) && from <= |SessionRows(polls[|polls| - 1], s)|
    ensures Reach(polls, s, from) <= |SessionRows(polls[|polls| - 1], s)|
  {
    hide SessionRows, Gapless;
    var init := polls[..|polls| - 1];
    if init != [] {
      assert SessionRows(polls[|init| - 1], s) <= SessionRows(polls[|init|], s);
      if from <= |SessionRows(init[|init| - 1], s)| {
        ReachBound(init, s, from);
      } else {
        ReachBeyond(init, s, from);
      }
    }
  }

  lemma {:induction false} ReachBeyond(polls: seq<Log>, s: SessionId, from: nat)
    requires Growing(polls, s) && (polls != [] ==> from > |SessionRows(polls[|polls| - 1], s)|)
    ensures Reach(polls, s, from) == from
  {
    hide SessionRows, Gapless;
    if polls != [] {
      var init := polls[..|polls| - 1];
      if init != [] {
        assert SessionRows(polls[|init| - 1], s) <= SessionRows(polls[|init|], s);
      }
      ReachBeyond(init, s, from);
    }
  }

  /** The last `k` polls all see the final log. */
  ghost predicate Quiet(polls: seq<Log>, s: SessionId, k: nat)
    requires polls != [] && k <= |polls|
  {
    forall i :: |polls| - k <= i < |polls| ==> SessionRows(polls[i], s) == SessionRows(polls[|polls| - 1], s)
  }

  /** Once the log has stopped growing each poll gains a whole page, until nothing is left. */
  lemma {:induction false} QuietReach(polls: seq<Log>, s: SessionId, from: nat, k: nat)
    requires polls != [] && Growing(polls, s) && from <= |SessionRows(polls[|polls| - 1], s)|
    requires k <= |polls| && Quiet(polls, s, k)
    ensures Reach(polls, s, from)
         == Least(Reach(polls[..|polls| - k], s, from) + 500 * k, |SessionRows(polls[|polls| - 1], s)|)
    decreases k
  {
    hide SessionRows, Gapless;
    ReachBound(polls, s, from);
    if k == 0 {
      assert polls[..|polls|] == polls;
    } else {
      var init := polls[..|polls| - 1];
      assert init[..|init| - (k - 1)] == polls[..|polls| - k];
      if k == 1 {
        assert polls[..|polls| - 1] == init;
      } else {
        assert SessionRows(init[|init| - 1], s) == SessionRows(polls[|polls| - 1], s);
        QuietReach(init, s, from, k - 1);
      }
    }
  }

  /** `stream_pi_session_events` until the client disconnects: one table read per poll. It sends exactly
      the rows above its start, a page for each poll, as far as they are there. */
  method Stream(polls: seq<Log>, s: SessionId, after: int) returns (sent: Log)
    requires Growing(polls, s)
    ensures var first := if after < 0 then 0 else after; first + |sent| == Reach(polls, s, first)
    ensures var all := if polls == [] then [] else SessionRows(polls[|polls| - 1], s);
            var first := if after < 0 then 0 else after;
            if first <= |all| then first + |sent| <= |all| && sent == all[first..first + |sent|] else sent == []
  {
    hide SessionRows, Select, Gapless, Numbered, Reach;
    sent := [];
    var cursor: int := if after < 0 then 0 else after;
    ghost var first: nat := cursor;
    StartReach(s, first);
    assert polls[..0] == [];
    ghost var all := if polls == [] then [] else SessionRows(polls[|polls| - 1], s);
    var i := 0;
    while i < |polls|
      invariant 0 <= i <= |polls|
      invariant cursor == first + |sent|
      invariant first <= |all| ==> cursor <= |all| && sent == all[first..cursor]
      invariant first > |all| ==> sent == []
      invariant cursor == Reach(polls[..i], s, first)
    {
      ReachNext(polls, s, first, i);
      assert Gapless(polls[i]);
      assert SessionRows(polls[i], s) <= all;
      ghost var rows := SessionRows(polls[i], s);
      PageIsSlice(polls[i], s, cursor, STREAM_PAGE);
      GaplessNumbered(polls[i], s);
      var events := ListEvents(polls[i], s, cursor, STREAM_PAGE);
      var page, next := SendPage(events, cursor, rows);
      assert cursor < |rows| ==> page == all[cursor..next];
      cursor := next;
      sent := sent + page;
      i := i + 1;
    }
    assert polls[..i] == polls;
  }

  /** The rows of one page, in order; the cursor follows their numbers. */
  method SendPage(events: Log, from: int, ghost rows: Log) returns (sent: Log, cursor: int)
    requires Numbered(rows) && from >= 0
    requires events == [] || (from + |events| <= |rows| && events == rows[from..from + |events|])
    ensures sent == events && cursor == from + |events|
  {
    sent, cursor := [], from;
    var k := 0;
    while k < |events|
      invariant 0 <= k <= |events| && sent == events[..k] && cursor == from + k
    {
      assert events[k] == rows[from + k];
      NumberedAt(rows, from + k);
      cursor := events[k].sequence;
      sent := sent + [events[k]];
      k := k + 1;
    }
  }

  lemma StartReach(s: SessionId, from: nat)
    ensures Reach([], s, from) == from
  {
  }

  lemma NumberedAt(rows: Log, k: nat)
    requires Numbered(rows) && k < |rows|
    ensures rows[k].sequence == k + 1
  {
  }

  lemma GaplessNumbered(log: Log, s: SessionId)
    requires Gapless(log)
    ensures Numbered(SessionRows(log, s))
  {
  }
}
