/** The web client's replay of one session's event log: paged catch-up, then a stream that may
    reconnect and repeat. */
module Replay {
  import opened Prelude
  import opened EventLog

  datatype Key = MessageKey(messageId: string) | ToolKey(callId: string) | EventKey(eventId: EventId)

  datatype Item =
    | Message(role: string, timestamp: int, chunks: map<int, string>, content: seq<string>, done: bool)
    | Tool(name: string, done: bool, isError: bool, timestamp: int)
    | Lifecycle(eventType: string, detail: string, timestamp: int)

  datatype View = View(
    cursor: int, items: map<Key, Item>, timeline: seq<Key>, settings: Option<string>, control: string)

  const Empty := View(0, map[], [], None, "")

  // ---------------------------------------------------------------- one event

  function NewMessage(role: Option<string>, timestamp: int): Item {
    Message(if role.None? then "assistant" else role.value, timestamp, map[], [], false)
  }

  /** `payload.timestamp || event.created_at * 1000` */
  function StartTime(timestamp: int, e: Event): int {
    if timestamp != 0 then timestamp else e.createdAt * 1000
  }

  function AddItem(v: View, key: Key, item: Item): View {
    if key in v.items then v else v.(items := v.items[key := item], timeline := v.timeline + [key])
  }

  function WithDelta(item: Item, index: int, delta: string): Item
    requires item.Message?
  {
    item.(chunks := item.chunks[index := (if index in item.chunks then item.chunks[index] else "") + delta])
  }

  function WithEnd(item: Item, role: Option<string>, timestamp: int, content: seq<string>): Item
    requires item.Message?
  {
    item.(role := if role.None? || role.value == "" then item.role else role.value,
          timestamp := if timestamp != 0 then timestamp else item.timestamp,
          content := content, done := true)
  }

  function ToolKeyOf(callId: string, e: Event): Key {
    ToolKey(if callId != "" then callId else e.id)
  }

  function ApplyTool(v: View, key: Key, name: string, done: bool, isError: bool, e: Event): View {
    if key in v.items && v.items[key].Tool? then
      v.(items := v.items[key := v.items[key].(done := done, isError := isError)])
    else
      AddItem(v, key, Tool(if name != "" then name else "tool", done, isError, e.createdAt * 1000))
  }

  function ApplyEvent(before: View, r: Row): View {
    var e := r.event;
    var v := before.(cursor := if r.sequence > before.cursor then r.sequence else before.cursor);
    match e.payload
    case MessageStart(id, role, timestamp) =>
      AddItem(v, MessageKey(id), NewMessage(role, StartTime(timestamp, e)))
    case MessageDelta(id, index, delta) =>
      var m := AddItem(v, MessageKey(id), NewMessage(Some("assistant"), e.createdAt * 1000));
      if m.items[MessageKey(id)].Message?
      then m.(items := m.items[MessageKey(id) := WithDelta(m.items[MessageKey(id)], index, delta)]) else m
    case MessageEnd(id, role, timestamp, content) =>
      var m := AddItem(v, MessageKey(id), NewMessage(role, timestamp));
      if m.items[MessageKey(id)].Message?
      then m.(items := m.items[MessageKey(id) := WithEnd(m.items[MessageKey(id)], role, timestamp, content)]) else m
    case Settings(settings) =>
      v.(settings := Some(settings), control := "")
    case ControlError(detail) =>
      v.(control := if detail != "" then detail else "Control change failed")
    case ToolStart(callId, name, isError) =>
      ApplyTool(v, ToolKeyOf(callId, e), name, false, isError, e)
    case ToolEnd(callId, name, isError) =>
      ApplyTool(v, ToolKeyOf(callId, e), name, true, isError, e)
    case Other(eventType, detail) =>
      AddItem(v, EventKey(e.id), Lifecycle(eventType, detail, e.createdAt * 1000))
  }

  /** The plain fold of a log. */
  function Fold(rows: Log): View {
    if rows == [] then Empty else ApplyEvent(Fold(rows[..|rows| - 1]), rows[|rows| - 1])
  }

  /** The client shows exactly the log up to its cursor. */
  ghost predicate Synced(v: View, rows: Log) {
    0 <= v.cursor <= |rows| && v == Fold(rows[..v.cursor])
  }

  lemma SyncedStep(v: View, rows: Log)
    requires Numbered(rows) && Synced(v, rows) && v.cursor < |rows|
    ensures Synced(ApplyEvent(v, rows[v.cursor]), rows)
    ensures ApplyEvent(v, rows[v.cursor]).cursor == v.cursor + 1
  {
    var next := rows[..v.cursor + 1];
    assert next[..v.cursor] == rows[..v.cursor] && next[v.cursor] == rows[v.cursor];
    assert ApplyEvent(v, rows[v.cursor]).cursor == v.cursor + 1;
    hide ApplyEvent;
  }

  lemma SyncedGrows(v: View, rows: Log, more: Log)
    requires Synced(v, rows) && rows <= more
    ensures Synced(v, more)
  {
    assert rows[..v.cursor] == more[..v.cursor];
  }

  // ---------------------------------------------------------------- the client

  /** The tables successive connections read: each starts where the last one ended, or later. */
  ghost predicate Successive(connections: seq<seq<Log>>, s: SessionId) {
    && (forall i :: 0 <= i < |connections| ==> connections[i] != [] && Growing(connections[i], s))
    && (forall i :: 0 < i < |connections| ==>
          SessionRows(Last(connections[i - 1]), s) <= SessionRows(connections[i][0], s))
  }

  function Last<T>(polls: seq<T>): T
    requires polls != []
  {
    polls[|polls| - 1]
  }

  class Client {
    var cursor: int
    var items: map<Key, Item>
    var timeline: seq<Key>
    var settings: Option<string>
    var control: string

    function Shown(): View reads this {
      View(cursor, items, timeline, settings, control)
    }

    /** openSession resets the state. */
    constructor ()
      ensures Shown() == Empty
    {
      cursor, items, timeline, settings, control := 0, map[], [], None, "";
    }

    method AddTimelineItem(key: Key, item: Item)
      modifies this
      ensures Shown() == AddItem(old(Shown()), key, item)
    {
      if key in items { return; }
      items := items[key := item];
      timeline := timeline + [key];
    }

    method Apply(r: Row)
      modifies this
      ensures Shown() == ApplyEvent(old(Shown()), r)
      ensures cursor == if r.sequence > old(cursor) then r.sequence else old(cursor)
    {
      if r.sequence > cursor { cursor := r.sequence; }
      var e := r.event;
      match e.payload {
        case MessageStart(id, role, timestamp) =>
          AddTimelineItem(MessageKey(id), NewMessage(role, StartTime(timestamp, e)));
        case MessageDelta(id, index, delta) =>
          AddTimelineItem(MessageKey(id), NewMessage(Some("assistant"), e.createdAt * 1000));
          var item := items[MessageKey(id)];
          if item.Message? { items := items[MessageKey(id) := WithDelta(item, index, delta)]; }
        case MessageEnd(id, role, timestamp, content) =>
          AddTimelineItem(MessageKey(id), NewMessage(role, timestamp));
          var item := items[MessageKey(id)];
          if item.Message? { items := items[MessageKey(id) := WithEnd(item, role, timestamp, content)]; }
        case Settings(text) =>
          settings := Some(text);
          control := "";
        case ControlError(detail) =>
          control := if detail != "" then detail else "Control change failed";
        case ToolStart(callId, name, isError) =>
          ApplyToolEvent(ToolKeyOf(callId, e), name, false, isError, e);
        case ToolEnd(callId, name, isError) =>
          ApplyToolEvent(ToolKeyOf(callId, e), name, true, isError, e);
        case Other(eventType, detail) =>
          AddTimelineItem(EventKey(e.id), Lifecycle(eventType, detail, e.createdAt * 1000));
      }
    }

    method ApplyToolEvent(key: Key, name: string, done: bool, isError: bool, e: Event)
      modifies this
      ensures Shown() == ApplyTool(old(Shown()), key, name, done, isError, e)
    {
      if key in items && items[key].Tool? {
        items := items[key := items[key].(done := done, isError := isError)];
      } else {
        AddTimelineItem(key, Tool(if name != "" then name else "tool", done, isError, e.createdAt * 1000));
      }
    }

    /** Paged catch-up; `polls[i]` is the table when page i is fetched, and running out of polls
        is the user navigating away. It finishes at the first page that is not full, and then shows
        every row of that poll; until then every page advances the cursor by a whole page. */
    method ReplayEvents(polls: seq<Log>, s: SessionId) returns (finished: bool, used: nat)
      requires Growing(polls, s)
      requires polls != [] ==> Synced(Shown(), SessionRows(polls[0], s))
      modifies this
      ensures used <= |polls| && (finished ==> used > 0)
      ensures polls != [] ==> Synced(Shown(), SessionRows(polls[|polls| - 1], s))
      ensures finished ==> Shown() == Fold(SessionRows(polls[used - 1], s))
      ensures finished ==> old(cursor) + 500 * (used - 1) <= cursor < old(cursor) + 500 * used
      ensures finished ==> cursor == |SessionRows(polls[used - 1], s)|
      ensures !finished ==> used == |polls| && cursor == old(cursor) + 500 * used
    {
      hide ApplyEvent, SessionRows, Select, Fold, Gapless, Synced;
      used := 0;
      finished := false;
      ghost var all := if polls == [] then [] else SessionRows(polls[|polls| - 1], s);
      if polls != [] { SyncedGrows(Shown(), SessionRows(polls[0], s), all); }
      while used < |polls|
        invariant 0 <= used <= |polls| && !finished
        invariant polls != [] ==> Synced(Shown(), all)
        invariant used < |polls| ==> Synced(Shown(), SessionRows(polls[used], s))
        invariant cursor == old(cursor) + STREAM_PAGE * used
      {
        var events := ListEvents(polls[used], s, cursor, STREAM_PAGE);
        ghost var rows := SessionRows(polls[used], s);
        assert 0 <= cursor <= |rows| by { SyncedBound(Shown(), rows); }
        assert Numbered(rows) by { GaplessNumbered(polls[used], s); }
        PageIsSlice(polls[used], s, cursor, STREAM_PAGE);
        ApplyPage(events, rows);
        SyncedGrows(Shown(), rows, all);
        used := used + 1;
        if |events| < STREAM_PAGE {
          assert Shown() == Fold(rows) by { SyncedFull(Shown(), rows); }
          return true, used;
        }
        if used < |polls| { SyncedGrows(Shown(), rows, SessionRows(polls[used], s)); }
      }
    }

    /** The page loop: apply each row, unguarded. */
    method ApplyPage(events: Log, ghost rows: Log)
      requires Numbered(rows) && Synced(Shown(), rows)
      requires cursor + |events| <= |rows| && events == rows[cursor..cursor + |events|]
      modifies this
      ensures Synced(Shown(), rows) && cursor == old(cursor) + |events|
    {
      hide ApplyEvent, Fold, Synced;
      SyncedBound(Shown(), rows);
      ghost var first := cursor;
      var k := 0;
      while k < |events|
        invariant 0 <= k <= |events|
        invariant Synced(Shown(), rows) && cursor == first + k
      {
        assert events[k] == rows[first + k];
        SyncedStep(Shown(), rows);
        Apply(events[k]);
        k := k + 1;
      }
    }

    /** One message of an EventSource. */
    method OnStream(r: Row)
      modifies this
      ensures Shown() == if r.sequence <= old(cursor) then old(Shown()) else ApplyEvent(old(Shown()), r)
    {
      if r.sequence <= cursor { return; }
      Apply(r);
    }

    /** One connection, from request to disconnect: the server starts at `max(after, Last-Event-ID)`,
        which is never above the client's cursor, and the connection may break anywhere, so that only
        the first `reach` of the events sent arrive. */
    method Connection(polls: seq<Log>, s: SessionId, after: nat, lastEventId: nat, reach: nat) returns (got: Log)
      requires polls != [] && Growing(polls, s)
      requires Synced(Shown(), SessionRows(polls[0], s))
      requires after <= cursor && lastEventId <= cursor
      modifies this
      ensures Synced(Shown(), SessionRows(polls[|polls| - 1], s))
      ensures var start := if lastEventId > after then lastEventId else after;
              cursor == if start + |got| > old(cursor) then start + |got| else old(cursor)
      ensures var start := if lastEventId > after then lastEventId else after;
              |got| == Least(reach, Reach(polls, s, start) - start)
    {
      hide ApplyEvent, SessionRows, Select, Fold, Gapless, Synced, Reach;
      var start := if lastEventId > after then lastEventId else after;
      ghost var rows := SessionRows(polls[|polls| - 1], s);
      SyncedGrows(Shown(), SessionRows(polls[0], s), rows);
      SyncedBound(Shown(), rows);
      assert Numbered(rows) by { GaplessNumbered(polls[|polls| - 1], s); }
      var sent := Stream(polls, s, start);
      got := if reach < |sent| then sent[..reach] else sent;
      ghost var had := cursor;
      var k := 0;
      while k < |got|
        invariant 0 <= k <= |got|
        invariant Synced(Shown(), rows)
        invariant cursor == if start + k > had then start + k else had
      {
        assert got[k] == rows[start + k];
        if got[k].sequence > cursor { SyncedStep(Shown(), rows); }
        OnStream(got[k]);
        k := k + 1;
      }
    }

    /** Any series of connections, each restarting `behind[i]` events before the cursor and breaking
        after `reach[i]` events, leaves the client showing exactly a prefix of the log: the one that ends
        at the furthest event that arrived. */
    method Watch(connections: seq<seq<Log>>, behind: seq<nat>, reach: seq<nat>, s: SessionId)
      requires connections != [] && |behind| == |reach| == |connections| && Successive(connections, s)
      requires Synced(Shown(), SessionRows(connections[0][0], s))
      modifies this
      ensures Synced(Shown(), SessionRows(Last(Last(connections)), s))
      ensures old(cursor) >= 0 && cursor == Furthest(connections, behind, reach, s, old(cursor))
    {
      hide ApplyEvent, SessionRows, Select, Fold, Gapless, Growing, Synced, Reach, Furthest;
      FurthestStart(s, cursor);
      assert connections[..0] == [] && behind[..0] == [] && reach[..0] == [];
      SyncedBound(Shown(), SessionRows(connections[0][0], s));
      var i := 0;
      while i < |connections|
        invariant 0 <= i <= |connections|
        invariant i < |connections| ==> Synced(Shown(), SessionRows(connections[i][0], s))
        invariant i > 0 ==> Synced(Shown(), SessionRows(Last(connections[i - 1]), s))
        invariant cursor == Furthest(connections[..i], behind[..i], reach[..i], s, old(cursor))
      {
        FurthestNext(connections, behind, reach, s, old(cursor), i);
        SyncedBound(Shown(), SessionRows(connections[i][0], s));
        var start: nat := if behind[i] < cursor then cursor - behind[i] else 0;
        var _ := Connection(connections[i], s, start, 0, reach[i]);
        i := i + 1;
        if i < |connections| {
          SyncedGrows(Shown(), SessionRows(Last(connections[i - 1]), s), SessionRows(connections[i][0], s));
        }
      }
      assert connections[..i] == connections && behind[..i] == behind && reach[..i] == reach;
    }

    /** A connection that does not break shows the whole log, once it has polled often enough after the
        log stopped growing: a page's worth of polls for what the client still lacked. */
    method Tail(polls: seq<Log>, s: SessionId, quiet: nat, reach: nat)
      requires polls != [] && Growing(polls, s) && Synced(Shown(), SessionRows(polls[0], s))
      requires quiet <= |polls| && Quiet(polls, s, quiet)
      requires 500 * quiet >= |SessionRows(Last(polls), s)| - cursor
      requires reach >= |SessionRows(Last(polls), s)| - cursor
      modifies this
      ensures Shown() == Fold(SessionRows(Last(polls), s))
    {
      hide ApplyEvent, SessionRows, Select, Fold, Gapless, Synced, Reach;
      SyncedGrows(Shown(), SessionRows(polls[0], s), SessionRows(Last(polls), s));
      SyncedBound(Shown(), SessionRows(Last(polls), s));
      QuietReach(polls, s, cursor, quiet);
      var _ := Connection(polls, s, cursor, 0, reach);
      SyncedFull(Shown(), SessionRows(Last(polls), s));
    }
  }

  /** The cursor after a series of connections: the furthest event that arrived. */
  function Furthest(connections: seq<seq<Log>>, behind: seq<nat>, reach: seq<nat>, s: SessionId, from: nat): (to: nat)
    requires |behind| == |reach| == |connections|
    ensures from <= to
  {
    if connections == [] then from
    else
      var n := |connections| - 1;
      var to := Furthest(connections[..n], behind[..n], reach[..n], s, from);
      var start: nat := if behind[n] < to then to - behind[n] else 0;
      var arrived := start + Least(reach[n], Reach(connections[n], s, start) - start);
      if arrived > to then arrived else to
  }

  lemma FurthestStart(s: SessionId, from: int)
    ensures from >= 0 ==> Furthest([], [], [], s, from) == from
  {
  }

  lemma FurthestNext(connections: seq<seq<Log>>, behind: seq<nat>, reach: seq<nat>, s: SessionId, from: nat, i: nat)
    requires |behind| == |reach| == |connections| && i < |connections|
    ensures var to := Furthest(connections[..i], behind[..i], reach[..i], s, from);
            var start: nat := if behind[i] < to then to - behind[i] else 0;
            var arrived := start + Least(reach[i], Reach(connections[i], s, start) - start);
            Furthest(connections[..i + 1], behind[..i + 1], reach[..i + 1], s, from)
            == if arrived > to then arrived else to
  {
    hide Reach;
    var cs, bs, rs := connections[..i + 1], behind[..i + 1], reach[..i + 1];
    assert cs[..i] == connections[..i] && bs[..i] == behind[..i] && rs[..i] == reach[..i];
  }

  lemma SyncedBound(v: View, rows: Log)
    requires Synced(v, rows)
    ensures 0 <= v.cursor <= |rows|
  {
  }

  lemma SyncedFull(v: View, rows: Log)
    requires Synced(v, rows) && v.cursor == |rows|
    ensures v == Fold(rows)
  {
    assert rows[..|rows|] == rows;
  }

  // ---------------------------------------------------------------- what the fold means

  /** The timeline entry an event belongs to. */
  function Mention(r: Row): Option<Key> {
    match r.event.payload
    case MessageStart(id, _, _) => Some(MessageKey(id))
    case MessageDelta(id, _, _) => Some(MessageKey(id))
    case MessageEnd(id, _, _, _) => Some(MessageKey(id))
    case ToolStart(callId, _, _) => Some(ToolKeyOf(callId, r.event))
    case ToolEnd(callId, _, _) => Some(ToolKeyOf(callId, r.event))
    case Settings(_) => None
    case ControlError(_) => None
    case Other(_, _) => Some(EventKey(r.event.id))
  }

  /** Index of the first event about `key`; the length of the log if there is none. */
  function First(rows: Log, key: Key): nat {
    if rows == [] then 0
    else
      var rest := First(rows[..|rows| - 1], key);
      if rest < |rows| - 1 then rest
      else if Mention(rows[|rows| - 1]) == Some(key) then |rows| - 1 else |rows|
  }

  lemma {:induction false} FirstBound(rows: Log, key: Key)
    ensures First(rows, key) <= |rows|
    ensures First(rows, key) < |rows| ==> Mention(rows[First(rows, key)]) == Some(key)
    ensures forall k :: 0 <= k < First(rows, key) && k < |rows| ==> Mention(rows[k]) != Some(key)
  {
    hide Mention;
    if rows != [] { FirstBound(rows[..|rows| - 1], key); }
  }

  predicate SameKind(key: Key, item: Item) {
    match key
    case MessageKey(_) => item.Message?
    case ToolKey(_) => item.Tool?
    case EventKey(_) => item.Lifecycle?
  }

  ghost predicate Kinds(v: View) {
    forall key :: key in v.items ==> SameKind(key, v.items[key])
  }

  /** Adding an item that may be there already. */
  lemma AddMentions(v: View, key: Key, item: Item)
    requires Kinds(v) && SameKind(key, item)
    ensures Kinds(AddItem(v, key, item)) && Mentions(v, AddItem(v, key, item), Some(key))
  {
  }

  /** Changing an item in place. */
  lemma ReplaceMentions(v: View, key: Key, item: Item)
    requires Kinds(v) && key in v.items && SameKind(key, item)
    ensures Kinds(v.(items := v.items[key := item])) && Mentions(v, v.(items := v.items[key := item]), Some(key))
  {
  }

  /** `w` has the items and timeline of `v` with one more mention. */
  ghost predicate Mentions(v: View, w: View, key: Option<Key>) {
    match key
    case None => w.items == v.items && w.timeline == v.timeline
    case Some(k) =>
      && w.items.Keys == v.items.Keys + {k}
      && w.timeline == if k in v.items then v.timeline else v.timeline + [k]
  }

  lemma ToolMentions(v: View, key: Key, name: string, done: bool, isError: bool, e: Event)
    requires Kinds(v) && key.ToolKey?
    ensures Kinds(ApplyTool(v, key, name, done, isError, e))
    ensures Mentions(v, ApplyTool(v, key, name, done, isError, e), Some(key))
  {
    AddMentions(v, key, Tool(if name != "" then name else "tool", done, isError, e.createdAt * 1000));
    if key in v.items && v.items[key].Tool? {
      ReplaceMentions(v, key, v.items[key].(done := done, isError := isError));
    }
    hide AddItem, Mentions, Kinds;
  }

  lemma ApplyMessage(before: View, r: Row)
    requires Kinds(before)
    requires r.event.payload.MessageStart? || r.event.payload.MessageDelta? || r.event.payload.MessageEnd?
    ensures Kinds(ApplyEvent(before, r)) && Mentions(before, ApplyEvent(before, r), Mention(r))
  {
    var e := r.event;
    var v := before.(cursor := if r.sequence > before.cursor then r.sequence else before.cursor);
    assert Kinds(v);
    match e.payload
    case MessageStart(id, role, timestamp) =>
      AddMentions(v, MessageKey(id), NewMessage(role, StartTime(timestamp, e)));
    case MessageDelta(id, index, delta) =>
      DeltaMentions(v, id, NewMessage(Some("assistant"), e.createdAt * 1000));
    case MessageEnd(id, role, timestamp, content) =>
      DeltaMentions(v, id, NewMessage(role, timestamp));
    hide AddItem, Kinds, NewMessage, StartTime, ApplyTool;
  }

  lemma ApplyToolCall(before: View, r: Row)
    requires Kinds(before) && (r.event.payload.ToolStart? || r.event.payload.ToolEnd?)
    ensures Kinds(ApplyEvent(before, r)) && Mentions(before, ApplyEvent(before, r), Mention(r))
  {
    var p := r.event.payload;
    var v := before.(cursor := if r.sequence > before.cursor then r.sequence else before.cursor);
    ToolMentions(v, ToolKeyOf(p.callId, r.event), p.name, p.ToolEnd?, p.isError, r.event);
    hide AddItem, NewMessage, StartTime, ApplyTool, ToolKeyOf;
  }

  lemma ApplyOther(before: View, r: Row)
    requires Kinds(before) && (r.event.payload.Settings? || r.event.payload.ControlError? || r.event.payload.Other?)
    ensures Kinds(ApplyEvent(before, r)) && Mentions(before, ApplyEvent(before, r), Mention(r))
  {
    hide ApplyTool, NewMessage, StartTime;
  }

  lemma ApplyKinds(before: View, r: Row)
    requires Kinds(before)
    ensures Kinds(ApplyEvent(before, r)) && Mentions(before, ApplyEvent(before, r), Mention(r))
  {
    hide ApplyEvent, Mention, Mentions, Kinds;
    match r.event.payload
    case MessageStart(_, _, _) => ApplyMessage(before, r);
    case MessageDelta(_, _, _) => ApplyMessage(before, r);
    case MessageEnd(_, _, _, _) => ApplyMessage(before, r);
    case ToolStart(_, _, _) => ApplyToolCall(before, r);
    case ToolEnd(_, _, _) => ApplyToolCall(before, r);
    case _ => ApplyOther(before, r);
  }

  /** Making sure a message is there, then changing it, is one mention. */
  lemma DeltaMentions(v: View, id: string, item: Item)
    requires Kinds(v) && item.Message?
    ensures var m := AddItem(v, MessageKey(id), item);
            && MessageKey(id) in m.items && m.items[MessageKey(id)].Message?
            && forall changed: Item :: changed.Message? ==>
                 var w := m.(items := m.items[MessageKey(id) := changed]);
                 Kinds(w) && Mentions(v, w, Some(MessageKey(id)))
  {
  }

  lemma FirstStep(rows: Log, key: Key)
    requires rows != []
    ensures var init := rows[..|rows| - 1];
            First(rows, key) == if First(init, key) < |init| then First(init, key)
                                else if Mention(rows[|rows| - 1]) == Some(key) then |init| else |rows|
  {
    FirstBound(rows[..|rows| - 1], key);
  }

  /** The timeline holds exactly the items the log mentions, in order of first mention. */
  ghost predicate InOrder(v: View, rows: Log) {
    && (forall key :: key in v.timeline <==> key in v.items)
    && (forall key :: key in v.items <==> First(rows, key) < |rows|)
    && (forall i, j :: 0 <= i < j < |v.timeline| ==> First(rows, v.timeline[i]) < First(rows, v.timeline[j]))
  }

  lemma ApplyInOrder(v: View, rows: Log)
    requires rows != [] && Kinds(v) && InOrder(v, rows[..|rows| - 1])
    ensures InOrder(ApplyEvent(v, rows[|rows| - 1]), rows)
  {
    var last := rows[|rows| - 1];
    ApplyKinds(v, last);
    hide ApplyEvent, SameKind, Mention;
    forall key { FirstStep(rows, key); }
    hide First;
    MentionInOrder(v, ApplyEvent(v, last), rows[..|rows| - 1], rows);
  }

  lemma MentionInOrder(v: View, w: View, init: Log, rows: Log)
    requires |rows| == |init| + 1 && InOrder(v, init) && Mentions(v, w, Mention(rows[|init|]))
    requires forall key :: First(rows, key) == if First(init, key) < |init| then First(init, key)
                                               else if Mention(rows[|init|]) == Some(key) then |init| else |rows|
    ensures InOrder(w, rows)
  {
    hide First, Mention;
    assert v.timeline <= w.timeline;
    forall i, j | 0 <= i < j < |w.timeline| ensures First(rows, w.timeline[i]) < First(rows, w.timeline[j]) {
      assert w.timeline[i] == v.timeline[i] && v.timeline[i] in v.timeline;
      assert j < |v.timeline| ==> w.timeline[j] == v.timeline[j] && v.timeline[j] in v.timeline;
    }
  }

  /** The timeline lists each item once, has exactly the items the log mentions, and orders them
      by first mention. */
  lemma {:induction false} TimelineByFirstMention(rows: Log)
    ensures Kinds(Fold(rows)) && InOrder(Fold(rows), rows)
    ensures forall i, j :: 0 <= i < j < |Fold(rows).timeline| ==> Fold(rows).timeline[i] != Fold(rows).timeline[j]
  {
    hide ApplyEvent, Mention, SameKind;
    if rows != [] {
      var init := rows[..|rows| - 1];
      TimelineByFirstMention(init);
      ApplyKinds(Fold(init), rows[|rows| - 1]);
      ApplyInOrder(Fold(init), rows);
    }
  }

  /** The deltas sent for one content block of one message, concatenated in log order. */
  function Deltas(rows: Log, id: string, index: int): string {
    if rows == [] then ""
    else
      var rest := Deltas(rows[..|rows| - 1], id, index);
      match rows[|rows| - 1].event.payload
      case MessageDelta(i, n, delta) => if i == id && n == index then rest + delta else rest
      case _ => rest
  }

  function Chunk(v: View, id: string, index: int): string {
    if MessageKey(id) in v.items && v.items[MessageKey(id)].Message? && index in v.items[MessageKey(id)].chunks
    then v.items[MessageKey(id)].chunks[index] else ""
  }

  lemma {:induction false} ChunksAreDeltas(rows: Log, id: string, index: int)
    ensures Chunk(Fold(rows), id, index) == Deltas(rows, id, index)
  {
    if rows != [] {
      var init := rows[..|rows| - 1];
      ChunksAreDeltas(init, id, index);
      TimelineByFirstMention(init);
      hide Fold, First, Deltas;
      ApplyChunk(Fold(init), rows[|rows| - 1], id, index);
    }
  }

  lemma ApplyChunk(v: View, r: Row, id: string, index: int)
    requires Kinds(v)
    ensures Chunk(ApplyEvent(v, r), id, index)
            == match r.event.payload
               case MessageDelta(i, n, delta) =>
                 if i == id && n == index then Chunk(v, id, index) + delta else Chunk(v, id, index)
               case _ => Chunk(v, id, index)
  {
  }

  /** The content of the last message-end of a message, if there is one. */
  function FinalContent(rows: Log, id: string): Option<seq<string>> {
    if rows == [] then None
    else
      match rows[|rows| - 1].event.payload
      case MessageEnd(i, _, _, content) => if i == id then Some(content) else FinalContent(rows[..|rows| - 1], id)
      case _ => FinalContent(rows[..|rows| - 1], id)
  }

  function Completed(v: View, id: string): Option<seq<string>> {
    if MessageKey(id) in v.items && v.items[MessageKey(id)].Message? && v.items[MessageKey(id)].done
    then Some(v.items[MessageKey(id)].content) else None
  }

  /** A message is done exactly when the log holds its message-end, and shows the last one's content;
      later starts and deltas do not reopen it. */
  lemma {:induction false} CompletedIsFinal(rows: Log, id: string)
    ensures Completed(Fold(rows), id) == FinalContent(rows, id)
  {
    if rows != [] {
      var init := rows[..|rows| - 1];
      CompletedIsFinal(init, id);
      TimelineByFirstMention(init);
      hide Fold, First, FinalContent;
      ApplyCompleted(Fold(init), rows[|rows| - 1], id);
    }
  }

  lemma ApplyCompleted(v: View, r: Row, id: string)
    requires Kinds(v)
    ensures Completed(ApplyEvent(v, r), id)
            == match r.event.payload
               case MessageEnd(i, _, _, content) => if i == id then Some(content) else Completed(v, id)
               case _ => Completed(v, id)
  {
  }

  // ---------------------------------------------------------------- the other columns

  /** A start or end of the tool call shown under `id`: its own id, or the event's if it has none. */
  predicate AboutTool(r: Row, id: string) {
    var p := r.event.payload;
    (p.ToolStart? || p.ToolEnd?) && ((p.callId == id && id != "") || (p.callId == "" && r.event.id == id))
  }

  /** The first and the last event of a log about one tool call. */
  function ToolEvents(rows: Log, id: string): Option<(Row, Row)> {
    if rows == [] then None
    else
      var rest, last := ToolEvents(rows[..|rows| - 1], id), rows[|rows| - 1];
      if !AboutTool(last, id) then rest
      else if rest.None? then Some((last, last)) else Some((rest.value.0, last))
  }

  function ToolItem(v: View, id: string): Option<Item> {
    if ToolKey(id) in v.items then Some(v.items[ToolKey(id)]) else None
  }

  /** A tool call is shown exactly if the log mentions it. It is done if its last event is an end, has that
      event's error flag, and keeps the name and time of its first event. */
  lemma {:induction false} ToolShowsLast(rows: Log, id: string)
    ensures ToolKey(id) in Fold(rows).items <==> ToolEvents(rows, id).Some?
    ensures ToolEvents(rows, id).Some? ==>
              var (first, last) := ToolEvents(rows, id).value;
              var p, q := first.event.payload, last.event.payload;
              && (p.ToolStart? || p.ToolEnd?) && (q.ToolStart? || q.ToolEnd?)
              && Fold(rows).items[ToolKey(id)]
                 == Tool(if p.name == "" then "tool" else p.name, q.ToolEnd?, q.isError, 1000 * first.event.createdAt)
  {
    if rows != [] {
      var init := rows[..|rows| - 1];
      ToolShowsLast(init, id);
      TimelineByFirstMention(init);
      hide Fold, First, InOrder, AboutTool;
      ApplyToolItem(Fold(init), rows[|rows| - 1], id);
    }
  }

  lemma ApplyToolItem(v: View, r: Row, id: string)
    requires Kinds(v)
    ensures AboutTool(r, id) ==> r.event.payload.ToolStart? || r.event.payload.ToolEnd?
    ensures var p, w := r.event.payload, ApplyEvent(v, r);
            if !AboutTool(r, id) then ToolItem(w, id) == ToolItem(v, id)
            else if ToolKey(id) in v.items then
              v.items[ToolKey(id)].Tool? && ToolKey(id) in w.items
              && w.items[ToolKey(id)] == v.items[ToolKey(id)].(done := p.ToolEnd?, isError := p.isError)
            else
              ToolKey(id) in w.items
              && w.items[ToolKey(id)] == Tool(if p.name == "" then "tool" else p.name, p.ToolEnd?, p.isError,
                                              1000 * r.event.createdAt)
  {
    assert ToolKey(id) in v.items ==> SameKind(ToolKey(id), v.items[ToolKey(id)]);
  }

  /** The role a message shows: the last non-empty role an end names, and before that the role of its
      first event, by default the assistant's. */
  function RoleShown(rows: Log, id: string): Option<string> {
    if rows == [] then None
    else
      var rest := RoleShown(rows[..|rows| - 1], id);
      match rows[|rows| - 1].event.payload
      case MessageStart(i, role, _) =>
        if i != id || rest.Some? then rest else if role.None? then Some("assistant") else role
      case MessageDelta(i, _, _) => if i != id || rest.Some? then rest else Some("assistant")
      case MessageEnd(i, role, _, _) =>
        if i != id then rest
        else if role.Some? && role.value != "" then role
        else if rest.Some? then rest else if role.None? then Some("assistant") else Some("")
      case _ => rest
  }

  /** The time a message shows: the last non-zero time an end names, and before that its first event's
      time, where a start without one and a delta have the event's. */
  function TimeShown(rows: Log, id: string): Option<int> {
    if rows == [] then None
    else
      var rest, e := TimeShown(rows[..|rows| - 1], id), rows[|rows| - 1].event;
      match e.payload
      case MessageStart(i, _, time) =>
        if i != id || rest.Some? then rest else if time != 0 then Some(time) else Some(1000 * e.createdAt)
      case MessageDelta(i, _, _) => if i != id || rest.Some? then rest else Some(1000 * e.createdAt)
      case MessageEnd(i, _, time, _) => if i != id || (time == 0 && rest.Some?) then rest else Some(time)
      case _ => rest
  }

  function MessageItem(v: View, id: string): Option<Item> {
    if MessageKey(id) in v.items then Some(v.items[MessageKey(id)]) else None
  }

  lemma {:induction false} MessageShows(rows: Log, id: string)
    ensures var item := MessageItem(Fold(rows), id);
            && (item.Some? <==> RoleShown(rows, id).Some?) && (item.Some? <==> TimeShown(rows, id).Some?)
            && (item.Some? ==> item.value.Message? && RoleShown(rows, id) == Some(item.value.role)
                               && TimeShown(rows, id) == Some(item.value.timestamp))
  {
    if rows != [] {
      var init := rows[..|rows| - 1];
      MessageShows(init, id);
      TimelineByFirstMention(init);
      hide Fold, First, InOrder;
      ApplyMessageItem(Fold(init), rows[|rows| - 1], id);
    }
  }

  lemma ApplyMessageItem(v: View, r: Row, id: string)
    requires Kinds(v)
    ensures var before, after := MessageItem(v, id), MessageItem(ApplyEvent(v, r), id);
            && (before.Some? ==> before.value.Message?) && (after.Some? ==> after.value.Message?)
            && match r.event.payload
               case MessageStart(i, role, time) =>
                 if i != id || before.Some? then after == before
                 else after.Some? && after.value.timestamp == (if time != 0 then time else 1000 * r.event.createdAt)
                      && after.value.role == (if role.None? then "assistant" else role.value)
               case MessageDelta(i, _, _) =>
                 if i != id then after == before
                 else if before.Some? then after.Some? && after.value.role == before.value.role
                                           && after.value.timestamp == before.value.timestamp
                 else after.Some? && after.value.role == "assistant"
                      && after.value.timestamp == 1000 * r.event.createdAt
               case MessageEnd(i, role, time, _) =>
                 if i != id then after == before
                 else
                   && after.Some?
                   && after.value.role == (if role.Some? && role.value != "" then role.value
                                           else if before.Some? then before.value.role
                                           else if role.None? then "assistant" else "")
                   && after.value.timestamp == (if time != 0 then time
                                                else if before.Some? then before.value.timestamp else 0)
               case _ => after == before
  {
    assert MessageKey(id) in v.items ==> SameKind(MessageKey(id), v.items[MessageKey(id)]);
  }

  /** The settings shown are those of the last settings event; the control line shows the last control
      error, unless settings arrived after it. */
  lemma {:induction false} ControlsShowLast(rows: Log, k: nat)
    requires k < |rows|
    requires forall j :: k < j < |rows| ==>
               !rows[j].event.payload.Settings? && (rows[k].event.payload.ControlError? ==>
                                                    !rows[j].event.payload.ControlError?)
    ensures match rows[k].event.payload
            case Settings(text) =>
              && Fold(rows).settings == Some(text)
              && ((forall j :: k < j < |rows| ==> !rows[j].event.payload.ControlError?) ==> Fold(rows).control == "")
            case ControlError(detail) =>
              Fold(rows).control == if detail == "" then "Control change failed" else detail
            case _ => true
    decreases |rows|
  {
    var init, last := rows[..|rows| - 1], rows[|rows| - 1];
    if k < |init| {
      assert forall j :: 0 <= j < |init| ==> rows[j] == init[j];
      ControlsShowLast(init, k);
      hide Fold;
      ApplyControls(Fold(init), last);
    } else {
      hide Fold;
      ApplyControls(Fold(init), last);
    }
  }

  lemma ApplyControls(v: View, r: Row)
    ensures var w := ApplyEvent(v, r);
            match r.event.payload
            case Settings(text) => w.settings == Some(text) && w.control == ""
            case ControlError(detail) =>
              w.settings == v.settings && w.control == if detail == "" then "Control change failed" else detail
            case _ => w.settings == v.settings && w.control == v.control
  {
  }

  /** Every other event is shown once, as it came. */
  lemma {:induction false} LifecycleShown(rows: Log, k: nat)
    requires k < |rows| && rows[k].event.payload.Other?
    requires forall j :: 0 <= j < k ==> rows[j].event.id != rows[k].event.id
    ensures var e := rows[k].event;
            EventKey(e.id) in Fold(rows).items
            && Fold(rows).items[EventKey(e.id)]
               == Lifecycle(e.payload.eventType, e.payload.detail, 1000 * e.createdAt)
    decreases |rows|
  {
    var init, last := rows[..|rows| - 1], rows[|rows| - 1];
    var key := EventKey(rows[k].event.id);
    TimelineByFirstMention(init);
    if k < |init| {
      assert forall j :: 0 <= j < |init| ==> rows[j] == init[j];
      LifecycleShown(init, k);
      hide Fold, First, InOrder;
      KeepsLifecycle(Fold(init), last, key);
    } else {
      Unmentioned(init, key);
      hide Fold, First, InOrder;
    }
  }

  lemma Unmentioned(rows: Log, key: Key)
    requires forall k :: 0 <= k < |rows| ==> Mention(rows[k]) != Some(key)
    ensures key !in Fold(rows).items
  {
    hide Mention;
    TimelineByFirstMention(rows);
    FirstBound(rows, key);
  }

  lemma KeepsLifecycle(v: View, r: Row, key: Key)
    requires Kinds(v) && key.EventKey? && key in v.items
    ensures key in ApplyEvent(v, r).items && ApplyEvent(v, r).items[key] == v.items[key]
  {
  }
}
