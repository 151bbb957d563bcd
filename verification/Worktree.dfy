/** Launching and tearing down one task session: the order of remote effects around its worktree.

    Every remote call may end in any of the ways the source distinguishes; the trace records each
    attempt with its outcome. Database writes always succeed. */
module Worktree {
  import opened Prelude
  import opened PiMailbox

  datatype Outcome =
    | Fine
    | HerdrFails       // HerdrError
    | ShimFails        // ShimError
    | TransportFails   // HerdrUnavailable, LaneTimeout, OSError
    | Cancelled        // asyncio.CancelledError
    | Crashes          // any other exception
  {
    /** One of _REMOTE_ERRORS. */
    predicate Remote() {
      HerdrFails? || ShimFails? || TransportFails?
    }
  }

  datatype Op =
    | WorktreeAdd(name: nat) | WorkspaceCreate | ReadPrompt | WriteFile | PaneRun | AgentRename | ReportState
    | ReportMetadata | Registration(w: Wait) | PaneRead | PaneClose | RemoveFile | ReleaseAgent | Approved
    | WorktreeRemove | BranchDelete

  type Trace = seq<(Op, Outcome)>

  datatype TaskRow = TaskRow(state: SessionState, hasToken: bool, pane: bool, worktree: bool)

  datatype End = Launched | Raised | EndedItself
  datatype Verdict = Refusal | Stuck(o: Outcome) | TornDown
  datatype Wait = Up | Gone(state: SessionState) | TimedOut

  const MAX_NAMES := 5

  /** The first `n` branch names, each refused by the shim. */
  function Rejected(n: nat): Trace {
    seq(n, k requires 0 <= k < n => (WorktreeAdd(k + 1), ShimFails))
  }

  predicate Tried(t: Trace, op: Op) {
    exists k :: 0 <= k < |t| && t[k].0 == op
  }

  /** A failure a launch survives: herdr rejects the agent's name, or the shim one of the first four branch names. */
  predicate Tolerated(step: (Op, Outcome)) {
    step == (AgentRename, HerdrFails) || (step.0.WorktreeAdd? && step.0.name < 5 && step.1 == ShimFails)
  }

  /** Some call did not succeed, and not in a way a launch survives. */
  predicate Broken(t: Trace) {
    exists k :: 0 <= k < |t| && !t[k].1.Fine? && !Tolerated(t[k])
  }

  /** The bridge was seen registered. */
  predicate Joined(t: Trace) {
    exists k :: 0 <= k < |t| && t[k].0 == Registration(Up) && !t[k].1.Cancelled?
  }

  /** The calls that set a launch up, after the worktree was created under its `name`-th name. */
  function Setup(name: nat): Trace
    requires name >= 1
  {
    Rejected(name - 1)
    + [(WorktreeAdd(name), Fine), (WorkspaceCreate, Fine), (ReadPrompt, Fine), (WriteFile, Fine), (WriteFile, Fine),
       (WriteFile, Fine)]
  }

  /** The calls that start the agent and publish it; a rename that herdr rejects is tolerated. */
  function Started(rename: Outcome): Trace {
    [(PaneRun, Fine), (AgentRename, rename), (ReportState, Fine), (ReportMetadata, Fine)]
  }

  predicate Had(t: Trace, op: Op, o: Outcome) {
    exists k :: 0 <= k < |t| && t[k] == (op, o)
  }

  /** Operations that neither start the agent, nor wait for it, nor touch the worktree. */
  predicate Minor(op: Op) {
    !op.PaneRun? && !op.WorktreeRemove? && !op.Approved? && !op.WorktreeAdd? && !op.Registration?
  }

  ghost predicate Quiet(t: Trace) {
    forall k :: 0 <= k < |t| ==> Minor(t[k].0)
  }

  /** `u` extends `t` quietly. */
  ghost predicate Extends(t: Trace, u: Trace) {
    t <= u && Quiet(u[|t|..])
  }

  lemma ExtendsMore(t: Trace, u: Trace, v: Trace)
    requires Extends(t, u) && Extends(u, v)
    ensures Extends(t, v)
  {
    forall k | |t| <= k < |v| ensures Quiet([v[k]]) {
      if k < |u| { assert v[k] == u[|t|..][k - |t|]; } else { assert v[k] == v[|u|..][k - |u|]; }
    }
    forall k | 0 <= k < |v[|t|..]|
      ensures Minor(v[|t|..][k].0)
    {
      assert Quiet([v[|t| + k]]);
      assert [v[|t| + k]][0] == v[|t|..][k];
    }
  }

  /** Once the agent may have run, a worktree is only removed after an approved teardown closed the pane. */
  ghost predicate Safe(t: Trace) {
    forall j :: 0 <= j < |t| && t[j].0.WorktreeRemove? && Tried(t[..j], PaneRun) ==> Guarded(t, j)
  }

  ghost predicate Guarded(t: Trace, j: nat)
    requires j < |t|
  {
    exists k, c :: 0 <= k < c < j && t[k].0.Approved? && t[c] == (PaneClose, Fine) && !Tried(t[k..j], PaneRun)
  }

  class Checkout {
    var trace: Trace
    var row: Option<TaskRow>

    constructor ()
      ensures trace == [] && row == None
    {
      trace, row := [], None;
    }

    /** The environment's answer to one remote call. */
    method Attempt(op: Op) returns (o: Outcome)
      modifies this`trace
      ensures trace == old(trace) + [(op, o)]
    {
      o := *;
      trace := trace + [(op, o)];
    }

    method AttemptQuietly(op: Op) returns (o: Outcome)
      requires Minor(op)
      modifies this`trace
      ensures Extends(old(trace), trace) && trace == old(trace) + [(op, o)]
    {
      o := Attempt(op);
    }

    /** finish_pi_session */
    method Finish(state: SessionState)
      requires row.Some?
      modifies this`row
      ensures row == Some(old(row).value.(state := state, hasToken := false))
    {
      row := Some(row.value.(state := state, hasToken := false));
    }

    /** At most five branch names, in order; a name is passed over only on a shim error. */
    method CreateWorktree() returns (o: Outcome, name: nat)
      modifies this`trace
      ensures o.ShimFails? ==> trace == old(trace) + Rejected(5)
      ensures !o.ShimFails? ==> 1 <= name <= 5
      ensures !o.ShimFails? ==> trace == old(trace) + Rejected(name - 1) + [(WorktreeAdd(name), o)]
    {
      name := 1;
      while name <= MAX_NAMES
        invariant 1 <= name <= MAX_NAMES + 1
        invariant trace == old(trace) + Rejected(name - 1)
      {
        o := Attempt(WorktreeAdd(name));
        if o != ShimFails {
          return;
        }
        name := name + 1;
        assert Rejected(name - 1) == Rejected(name - 2) + [(WorktreeAdd(name - 1), ShimFails)];
      }
      o := ShimFails;
    }

    /** Remove the checkout, then its branch; a leftover branch is only logged. */
    method DestroyWorktree() returns (o: Outcome, ghost removed: Outcome, ghost branch: Outcome)
      modifies this`trace
      ensures trace == old(trace) + Removal(removed, branch)
      ensures o == if !removed.Fine? then removed else if branch.ShimFails? then Fine else branch
    {
      o := Attempt(WorktreeRemove);
      removed, branch := o, Fine;
      if !o.Fine? { return; }
      o := AttemptQuietly(BranchDelete);
      branch := o;
      if o.ShimFails? { o := Fine; }
    }

    /** Close the pane, if there is one, and remove the cache: remote errors are recorded and swallowed;
        a cancellation or crash goes through. */
    method CloseAfterFailedLaunch() returns (o: Outcome, ghost closed: Outcome, ghost removed: Outcome)
      requires row.Some?
      modifies this`trace
      ensures Extends(old(trace), trace)
      ensures trace == old(trace) + Closing(row.value.pane, closed, removed)
      ensures o == if row.value.pane && Escapes(closed) then closed else if Escapes(removed) then removed else Fine
      ensures !o.Fine? ==> Had(trace, PaneClose, o) || Had(trace, RemoveFile, o)
      ensures row.value.pane ==> Tried(trace, PaneClose)
      // only a cancellation or another error that is not a remote one ends it early
      ensures var cut := row.value.pane && (closed == Cancelled || closed == Crashes);
              && trace == old(trace) + (if row.value.pane then [(PaneClose, closed)] else [])
                          + (if cut then [] else [(RemoveFile, removed)])
              && o == (if cut then closed else if removed == Cancelled || removed == Crashes then removed else Fine)
    {
      closed, removed := Fine, Fine;
      ghost var t := trace;
      if row.value.pane {
        o := AttemptQuietly(PaneClose);
        closed := o;
        assert trace[|t|] == (PaneClose, o);
        if Escapes(o) { return; }
      }
      ghost var u := trace;
      o := AttemptQuietly(RemoveFile);
      removed := o;
      assert trace[|u|] == (RemoveFile, o);
      if row.value.pane { assert trace[|t|].0 == PaneClose; }
      if !Escapes(o) { o := Fine; }
    }

    /** The handlers around a failed launch: mark failed, close, and clean up a checkout the agent never ran in. */
    method FailLaunch(clean: bool)
      requires row.Some? && row.value.worktree
      requires clean ==> Unstarted(trace)
      modifies this
      ensures row == Some(old(row).value.(state := Failed, hasToken := false))
      ensures old(trace) <= trace && (row.value.pane ==> Tried(trace, PaneClose))
      ensures (Unstarted(trace) <==> Unstarted(old(trace))) && (Broken(old(trace)) ==> Broken(trace))
      ensures !clean ==> Extends(old(trace), trace)
      ensures clean ==> Tried(trace, WorktreeRemove) || CloseBroke(trace)
      ensures !Uninserted(trace)
    {
      hide Extends, Quiet, Unstarted, Broken, Tried, CloseBroke, Uninserted, Removal;
      var o := FailAndClose();
      QuietKeeps(old(trace), trace);
      if !o.Fine? || !clean { return; }
      ghost var before := trace;
      var _, removed, branch := DestroyWorktree();
      RemoveKeeps(before, removed, branch, trace);
      if row.value.pane { TriedStays(before, trace, PaneClose); }
    }

    /** Mark the row failed and close its pane. */
    method FailAndClose() returns (o: Outcome)
      requires row.Some?
      modifies this
      ensures row == Some(old(row).value.(state := Failed, hasToken := false))
      ensures Extends(old(trace), trace) && (row.value.pane ==> Tried(trace, PaneClose)) && !Uninserted(trace)
      ensures !o.Fine? ==> CloseBroke(trace)
    {
      Finish(Failed);
      ghost var closed, cleared;
      o, closed, cleared := CloseAfterFailedLaunch();
    }

    method WaitForBridge() returns (w: Wait, o: Outcome, ghost polled: Outcome, ghost answer: Wait)
      requires row.Some? && row.value.worktree
      modifies this
      ensures Extends(old(trace) + [(Registration(answer), polled)], trace)
      ensures w.Up? <==> answer.Up? && !polled.Cancelled?
      ensures w.TimedOut? ==> answer.TimedOut? || polled.Cancelled?
      ensures !o.Fine? ==> Broken(trace)
      ensures w.Gone? ==> w == answer && !polled.Cancelled?
      ensures row.Some? && row.value.pane == old(row).value.pane && row.value.worktree
      ensures w.Up? ==> o.Fine? && row == old(row) && trace == old(trace) + [(Registration(answer), polled)]
      ensures w.Gone? ==> (w.state == Stopped || w.state == Failed) && row.value.state == w.state
      ensures w.TimedOut? && !o.Cancelled? && !Had(trace, PaneRead, Crashes) ==>
                row.value.state == Failed && !row.value.hasToken
      ensures !w.Up? && !o.Cancelled? && !Had(trace, PaneRead, Crashes) && row.value.pane ==> Tried(trace, PaneClose)
    {
      w := *;
      if w.Gone? && w.state != Stopped { w := Gone(Failed); }
      answer := w;
      o := Attempt(Registration(w));   // the polling sleeps may be cancelled
      assert trace[|trace| - 1].1 == o;
      polled := o;
      if o.Cancelled? { w := TimedOut; return; }
      o := Fine;
      if w.Up? { return; }
      ghost var t := trace;
      if w.Gone? {
        var token: bool := *;
        row := Some(row.value.(state := w.state, hasToken := token));
        ghost var closed, removed;
        o, closed, removed := CloseAfterFailedLaunch();
        return;
      }
      o := AttemptQuietly(PaneRead);
      if o.Cancelled? || o.Crashes? {
        assert trace[|trace| - 1] == (PaneRead, o);
        return;
      }
      Finish(Failed);
      ghost var u := trace;
      ghost var closed, removed;
      o, closed, removed := CloseAfterFailedLaunch();
      ExtendsMore(t, u, trace);
    }

    /** Everything before the agent is started. */
    method Prepare() returns (ready: bool, ghost name: nat)
      requires trace == [] && row.None?
      modifies this
      ensures Unstarted(trace) && (ready ==> !Tried(trace, WorktreeRemove))
      ensures ready ==> 1 <= name <= MAX_NAMES && trace == Setup(name)
      ensures ready ==> row.Some? && row.value.worktree && row.value.state == Starting && row.value.hasToken
      ensures !ready ==> Broken(trace)
      ensures !ready && row.Some? && !Escaped(trace) ==>
                row.value.state == Failed && !row.value.hasToken && (row.value.pane ==> Tried(trace, PaneClose))
      ensures !ready ==> Cleaned(trace)
      ensures row.None? <==> Uninserted(trace)
    {
      hide Quiet, Extends;
      var o, n := CreateWorktree();
      name := n;
      NamesOnly(trace, n, o);
      if o.ShimFails? {
        row := Some(TaskRow(Starting, true, false, false));
        Finish(Failed);
        return false, name;
      }
      if !o.Fine? { return false, name; }
      ready := SetUp();
    }

    /** The workspace, the row, and the launch files. */
    method SetUp() returns (ready: bool)
      requires Unstarted(trace) && !Tried(trace, WorktreeRemove) && row.None?
      modifies this
      ensures Unstarted(trace) && (ready ==> !Tried(trace, WorktreeRemove))
      ensures ready ==> trace == old(trace) + [(WorkspaceCreate, Fine), (ReadPrompt, Fine), (WriteFile, Fine),
                                               (WriteFile, Fine), (WriteFile, Fine)]
      ensures ready ==> row.Some? && row.value.worktree && row.value.state == Starting && row.value.hasToken
      ensures !ready ==> Broken(trace) && Cleaned(trace)
      ensures !ready && row.Some? && !Escaped(trace) ==>
                row.value.state == Failed && !row.value.hasToken && (row.value.pane ==> Tried(trace, PaneClose))
      ensures row.None? <==> Uninserted(trace)
    {
      hide Quiet, Extends, HasCheckout, Unstarted, CloseBroke;
      ghost var t := trace;
      var o := AttemptQuietly(WorkspaceCreate);
      QuietKeeps(t, trace);
      assert trace[|trace| - 1] == (WorkspaceCreate, o);
      if o.Remote() {
        row := Some(TaskRow(Starting, true, false, true));
        Finish(Failed);
        t := trace;
        var _, removed, branch := DestroyWorktree();
        RemoveKeeps(t, removed, branch, trace);
        return false;
      }
      if !o.Fine? { return false; }
      hide Escaped, Broken, Tried, Cleaned;
      var pane: bool := *;
      row := Some(TaskRow(Starting, true, pane, true));
      ready := FillCheckout();
    }

    /** Read the prompt and write the launch files. */
    method FillCheckout() returns (ready: bool)
      requires Unstarted(trace) && !Tried(trace, WorktreeRemove)
      requires row.Some? && row.value.worktree && row.value.state == Starting && row.value.hasToken
      modifies this
      ensures Unstarted(trace) && row.Some? && !Uninserted(trace)
      ensures ready ==> !Tried(trace, WorktreeRemove) && row == old(row)
      ensures ready ==>
                trace == old(trace) + [(ReadPrompt, Fine), (WriteFile, Fine), (WriteFile, Fine), (WriteFile, Fine)]
      ensures !ready ==> Broken(trace) && Cleaned(trace)
      ensures !ready && !Escaped(trace) ==>
                row.value.state == Failed && !row.value.hasToken && (row.value.pane ==> Tried(trace, PaneClose))
    {
      hide Quiet, Extends, HasCheckout, Unstarted, CloseBroke;
      ghost var t := trace;
      var o := ReadPromptFile();
      QuietKeeps(t, trace);
      assert trace[|trace| - 1] == (ReadPrompt, o);
      if o.Crashes? { return false; }   // no handler: the row is left as it was inserted
      if o.Fine? {
        t := trace;
        o := WriteLaunchFiles();
        QuietKeeps(t, trace);
      }
      if !o.Fine? {
        assert Broken(trace);
        FailLaunch(true);
        return false;
      }
      return true;
    }

    /** A local read, which is never cancelled: an unreadable or empty prompt (TransportFails here) is
        handled, any other exception is not. */
    method ReadPromptFile() returns (o: Outcome)
      modifies this`trace
      ensures Extends(old(trace), trace) && trace == old(trace) + [(ReadPrompt, o)]
      ensures o.Fine? || o.TransportFails? || o.Crashes?
    {
      o :| o == Fine || o == TransportFails || o == Crashes;
      trace := trace + [(ReadPrompt, o)];
    }

    /** Write the sandbox paths, the prompt and the launch script. */
    method WriteLaunchFiles() returns (o: Outcome)
      modifies this`trace
      ensures Extends(old(trace), trace)
      ensures o.Fine? ==> trace == old(trace) + [(WriteFile, Fine), (WriteFile, Fine), (WriteFile, Fine)]
      ensures !o.Fine? ==> |trace| > 0 && trace[|trace| - 1] == (WriteFile, o)
    {
      o := Fine;
      var k := 0;
      while k < 3 && o.Fine?
        invariant 0 <= k <= 3
        invariant Extends(old(trace), trace)
        invariant o.Fine? ==> trace == old(trace) + seq(k, i => (WriteFile, Fine))
        invariant !o.Fine? ==> |trace| > 0 && trace[|trace| - 1] == (WriteFile, o)
      {
        ghost var t := trace;
        o := AttemptQuietly(WriteFile);
        ExtendsMore(old(trace), t, trace);
        k := k + 1;
      }
    }

    /** Start the agent and publish its identity; from the first attempt on the checkout may hold work. */
    method StartAgent() returns (o: Outcome, ghost rename: Outcome)
      modifies this`trace
      ensures |trace| > |old(trace)| && trace[..|old(trace)|] == old(trace)
      ensures trace[|old(trace)|].0 == PaneRun && Quiet(trace[|old(trace)| + 1..])
      ensures o.Fine? ==> (rename.Fine? || rename.HerdrFails?) && trace == old(trace) + Started(rename)
      ensures !o.Fine? ==> trace[|trace| - 1].1 == o && !Tolerated(trace[|trace| - 1])
    {
      o := Attempt(PaneRun);
      rename := o;
      if !o.Fine? { return; }
      ghost var t := trace;
      o := AttemptQuietly(AgentRename);
      if !o.Fine? && !o.HerdrFails? { return; }
      rename := o;
      ghost var u := trace;
      o := AttemptQuietly(ReportState);
      ExtendsMore(t, u, trace);
      if !o.Fine? { return; }
      u := trace;
      o := AttemptQuietly(ReportMetadata);
      ExtendsMore(t, u, trace);
      assert o.Fine? ==> trace == old(trace) + Started(rename);
    }

    method Launch() returns (end: End)
      requires trace == [] && row.None?
      modifies this
      // the checkout of an agent that may have run is never destroyed
      ensures Tried(trace, PaneRun) ==> row.Some? && row.value.worktree && !Tried(trace, WorktreeRemove)
      // an abandoned checkout is cleaned up, unless closing or creating the workspace was cut short
      ensures end.Raised? && !Tried(trace, PaneRun) ==> Cleaned(trace)
      // every failure after insertion leaves the row failed with its token cleared, unless it escapes
      ensures end.Raised? && row.Some? && !Escaped(trace) ==> row.value.state == Failed && !row.value.hasToken
      // and a launch that does not succeed tries to close its pane
      ensures !end.Launched? && row.Some? && row.value.pane && !Escaped(trace) ==> Tried(trace, PaneClose)
      // a row was inserted unless the worktree or the workspace ended the launch before
      ensures row.None? ==> Uninserted(trace)
      // it succeeds exactly if the bridge registered, and then it made every call in order
      ensures end.Launched? <==> Joined(trace)
      ensures end.Launched? ==> row.Some? && row.value.state == Starting && row.value.hasToken && Made(trace)
      // it raises only after a call that did not succeed, or after waiting in vain
      ensures end.Raised? ==> Broken(trace) || Tried(trace, Registration(TimedOut))
      ensures end.EndedItself? ==> row.Some? && (row.value.state == Stopped || row.value.state == Failed)
      ensures end.EndedItself? ==>
                Tried(trace, Registration(Gone(Stopped))) || Tried(trace, Registration(Gone(Failed)))
      ensures !Tried(trace, Approved)
    {
      hide Quiet, HasCheckout, CloseBroke, Extends;
      var ready, name := Prepare();
      NotJoined(trace);
      if !ready { return Raised; }
      ghost var t := trace;
      var o, rename := StartAgent();
      StartKeeps(t, trace);
      ghost var u := trace;
      if !o.Fine? {
        assert Broken(trace);
        NotJoined(trace);
        FailLaunch(false);
        QuietKeeps(u, trace);
        return Raised;
      }
      end := Attend(name, rename);
    }

    /** The last part of a launch: wait for the bridge of the started agent. */
    method Attend(ghost name: nat, ghost rename: Outcome) returns (end: End)
      requires 1 <= name <= MAX_NAMES && (rename.Fine? || rename.HerdrFails?) && trace == Setup(name) + Started(rename)
      requires Tried(trace, PaneRun) && !Tried(trace, WorktreeRemove) && !Tried(trace, Approved) && !Asked(trace)
      requires row.Some? && row.value.worktree && row.value.state == Starting && row.value.hasToken
      modifies this
      ensures Tried(trace, PaneRun) && row.Some? && row.value.worktree
      ensures !Tried(trace, WorktreeRemove) && !Tried(trace, Approved)
      ensures end.Raised? && !Escaped(trace) ==> row.value.state == Failed && !row.value.hasToken
      ensures !end.Launched? && row.value.pane && !Escaped(trace) ==> Tried(trace, PaneClose)
      ensures end.Launched? <==> Joined(trace)
      ensures end.Launched? ==> row.value.state == Starting && row.value.hasToken && Made(trace)
      ensures end.Raised? ==> Broken(trace) || Tried(trace, Registration(TimedOut))
      ensures end.EndedItself? ==> (row.value.state == Stopped || row.value.state == Failed)
      ensures end.EndedItself? ==>
                Tried(trace, Registration(Gone(Stopped))) || Tried(trace, Registration(Gone(Failed)))
    {
      hide Quiet, HasCheckout, CloseBroke, Extends, Broken, Joined, Tried, Asked, Had, Unstarted;
      ghost var u := trace;
      ghost var polled, answer;
      var w, o;
      w, o, polled, answer := WaitForBridge();
      AskedOnce(u, answer, polled);
      QuietKeeps(u + [(Registration(answer), polled)], trace);
      if o.Cancelled? {
        u := trace;
        FailLaunch(false);
        QuietKeeps(u, trace);
        return Raised;
      }
      if w.Up? {
        assert trace == Setup(name) + Started(rename) + [(Registration(Up), polled)];
        return Launched;
      }
      return if w.Gone? then EndedItself else Raised;
    }

    /** Walk the teardown protocol; an outcome that does not let it continue ends it. */
    method Teardown(prUrl: bool, force: bool) returns (verdict: Verdict)
      requires row.Some?
      modifies this
      ensures old(trace) <= trace
      ensures !prUrl && !force ==> verdict == Refusal && trace == old(trace) && row == old(row)
      ensures prUrl || force ==>
                var added := trace[|old(trace)|..];
                && Follows(added, old(row).value.pane)
                && (verdict.TornDown? <==> Complete(added, old(row).value.pane))
                && row == Some(AfterTeardown(old(row).value, added))
    {
      if !prUrl && !force { return Refusal; }
      hide Follows, Walks, AfterTeardown, Complete, Order, NextOp;
      ghost var before, pane := trace, row.value.pane;
      trace := trace + [(Approved, Fine)];
      ghost var t := FirstStep(pane);
      var o;
      if row.value.pane {
        o, t := AttemptNext(PaneClose, before, t, row.value);
        if !o.Fine? { return Stuck(o); }
        o, t := AttemptNext(ReleaseAgent, before, t, row.value);
        if o.Cancelled? || o.Crashes? { return Stuck(o); }
      }
      verdict := RemoveCheckout(before, t);
    }

    /** The second half of a teardown, from the removal on. */
    method RemoveCheckout(ghost before: Trace, ghost t: Trace) returns (verdict: Verdict)
      requires row.Some? && trace == before + t && t != []
      requires Walks(t, row.value.pane) && NextOp(t, row.value.pane) == Some(WorktreeRemove)
      modifies this
      ensures before <= trace && Follows(trace[|before|..], old(row).value.pane)
      ensures verdict != Refusal && (verdict.TornDown? <==> Complete(trace[|before|..], old(row).value.pane))
      ensures row == Some(AfterTeardown(old(row).value, trace[|before|..]))
    {
      hide Follows, Walks, AfterTeardown, Complete, Order, NextOp;
      ghost var r := row.value;
      var o;
      ghost var u;
      o, u := AttemptNext(WorktreeRemove, before, t, r);
      if o.ShimFails? { Finish(Failed); }
      if !o.Fine? { return Stuck(o); }
      o, u := AttemptNext(BranchDelete, before, u, r);
      if !o.Fine? && !o.ShimFails? { return Stuck(o); }
      o, u := AttemptNext(RemoveFile, before, u, r);
      if o.Cancelled? || o.Crashes? { return Stuck(o); }
      Finish(Stopped);
      return TornDown;
    }

    /** One remote call of the teardown protocol; `t` is the protocol so far. */
    method AttemptNext(op: Op, ghost before: Trace, ghost t: Trace, ghost r: TaskRow)
      returns (o: Outcome, ghost u: Trace)
      requires trace == before + t && t != [] && Walks(t, r.pane) && NextOp(t, r.pane) == Some(op)
      modifies this`trace
      ensures trace == before + u && before <= trace && trace[|before|..] == u && u != []
      ensures !Continues((op, o)) ==> Follows(u, r.pane) && !Complete(u, r.pane)
      ensures !Continues((op, o)) ==> AfterTeardown(r, u) == AfterStuck(r, op, o)
      ensures Continues((op, o)) ==> Walks(u, r.pane) && NextOp(u, r.pane) == After(op)
      ensures Continues((op, o)) && op.RemoveFile? ==> Follows(u, r.pane) && Complete(u, r.pane)
      ensures Continues((op, o)) && op.RemoveFile? ==> AfterTeardown(r, u) == r.(state := Stopped, hasToken := false)
    {
      hide Follows, Walks, AfterTeardown, Complete, Order, NextOp;
      o := Attempt(op);
      u := WalkOn(t, op, o, r);
      assert before + t + [(op, o)] == before + (t + [(op, o)]);
    }

    /** One launch, then any teardowns in any order with any PR and force flags. The trace is the
        launch's, followed by what each teardown added; a teardown without a PR or force adds nothing. */
    method LaunchThenTeardowns(requests: seq<(bool, bool)>)
      returns (ghost end: End, ghost launched: Trace, ghost first: Option<TaskRow>, ghost added: seq<Trace>)
      requires trace == [] && row.None?
      modifies this
      ensures row.Some? && row.value.pane ==> Safe(trace)
      ensures trace == launched + Flat(added)
      ensures end.Launched? <==> Joined(launched)
      ensures end.Raised? ==> Broken(launched) || Tried(launched, Registration(TimedOut))
      ensures first.None? ==> row.None? && added == []
      ensures first.Some? ==> |added| == |requests| && row == Some(AfterAll(first.value, added))
      ensures first.Some? ==> forall i :: 0 <= i < |added| ==> Answers(requests[i], added[i], first.value.pane)
    {
      hide Follows, AfterTeardown, Guarded, Broken, Joined, Tried, Safe, AfterAll, Flat;
      NoTeardown();
      end := Launch();
      LaunchedSafe(trace);
      launched, first, added := trace, row, [];
      var i := 0;
      while i < |requests| && row.Some?
        invariant 0 <= i <= |requests|
        invariant row.Some? && row.value.pane ==> Safe(trace)
        invariant trace == launched + Flat(added) && (row.Some? <==> first.Some?)
        invariant |added| == if first.Some? then i else 0
        invariant first.Some? ==> row == Some(AfterAll(first.value, added)) && row.value.pane == first.value.pane
        invariant first.Some? ==> forall k :: 0 <= k < |added| ==> Answers(requests[k], added[k], first.value.pane)
      {
        ghost var t := trace;
        ghost var r := row.value;
        var _ := Teardown(requests[i].0, requests[i].1);
        ghost var more := trace[|t|..];
        assert trace == t + more;
        AddOne(first.value, added, more);
        AfterSame(r, more);
        if requests[i].0 || requests[i].1 {
          if r.pane { SafeAppend(t, more); }
        } else {
          assert more == [];
          AfterNothing(r);
        }
        added := added + [more];
        i := i + 1;
      }
    }
  }

  /** Closing after a failure was itself cancelled or crashed. */
  predicate CloseBroke(t: Trace) {
    || Had(t, PaneClose, Cancelled) || Had(t, PaneClose, Crashes)
    || Had(t, RemoveFile, Cancelled) || Had(t, RemoveFile, Crashes)
  }

  /** Neither the agent was started nor its bridge awaited, and no teardown began. */
  ghost predicate Unstarted(t: Trace) {
    forall k :: 0 <= k < |t| ==> !t[k].0.PaneRun? && !t[k].0.Approved? && !t[k].0.Registration?
  }

  /** A checkout was removed again, unless cleaning up was itself cut short. */
  predicate Cleaned(t: Trace) {
    HasCheckout(t) && !CloseBroke(t) && !Had(t, WorkspaceCreate, Cancelled) && !Had(t, WorkspaceCreate, Crashes)
    && !Had(t, ReadPrompt, Crashes)
    ==> Tried(t, WorktreeRemove)
  }

  /** The launch ended before its row was inserted: the worktree failed for another reason than a name, or
      creating the workspace was cut short. */
  predicate Uninserted(t: Trace) {
    t != [] && var (op, o) := t[|t| - 1];
    || (op.WorktreeAdd? && o != Fine && o != ShimFails)
    || (op == WorkspaceCreate && (o == Cancelled || o == Crashes))
  }

  predicate Escapes(o: Outcome) {
    o.Cancelled? || o.Crashes?
  }

  /** An exception outside every handler: another error while the prompt or the failed pane is read. */
  predicate Escaped(t: Trace) {
    Had(t, PaneRead, Crashes) || Had(t, ReadPrompt, Crashes)
  }

  /** The calls that remove a checkout: the branch is tried only once the checkout is gone. */
  function Removal(removed: Outcome, branch: Outcome): Trace {
    [(WorktreeRemove, removed)] + (if removed.Fine? then [(BranchDelete, branch)] else [])
  }

  /** The calls that close a failed launch. */
  function Closing(pane: bool, closed: Outcome, removed: Outcome): Trace {
    (if pane then [(PaneClose, closed)] else []) + (if pane && Escapes(closed) then [] else [(RemoveFile, removed)])
  }

  lemma TriedStays(t: Trace, u: Trace, op: Op)
    requires t <= u && Tried(t, op)
    ensures Tried(u, op)
  {
    var k :| 0 <= k < |t| && t[k].0 == op;
    assert u[k].0 == op;
  }

  /** Every call of a launch in its order, each successful but for the tolerated rename. */
  ghost predicate Made(t: Trace) {
    exists name: nat, rename: Outcome, polled: Outcome ::
      && 1 <= name <= MAX_NAMES && (rename.Fine? || rename.HerdrFails?) && !polled.Cancelled?
      && t == Setup(name) + Started(rename) + [(Registration(Up), polled)]
  }

  lemma NamesOnly(t: Trace, name: nat, o: Outcome)
    requires o.ShimFails? ==> t == Rejected(MAX_NAMES)
    requires !o.ShimFails? ==> 1 <= name <= MAX_NAMES && t == Rejected(name - 1) + [(WorktreeAdd(name), o)]
    ensures Unstarted(t) && !Tried(t, WorktreeRemove) && (HasCheckout(t) <==> o.Fine?) && (!o.Fine? ==> Broken(t))
  {
    assert t[|t| - 1].1 == o;
  }

  lemma AskedOnce(u: Trace, answer: Wait, polled: Outcome)
    requires !Asked(u)
    ensures var v := u + [(Registration(answer), polled)];
            && (Joined(v) <==> answer.Up? && !polled.Cancelled?)
            && Tried(v, Registration(answer)) && (polled.Cancelled? ==> Broken(v))
            && (Tried(v, PaneRun) <==> Tried(u, PaneRun)) && (Tried(v, WorktreeRemove) <==> Tried(u, WorktreeRemove))
            && (Tried(v, Approved) <==> Tried(u, Approved))
  {
    var v := u + [(Registration(answer), polled)];
    assert v[|u|] == (Registration(answer), polled);
    forall op: Op | !op.Registration? ensures Tried(v, op) <==> Tried(u, op) {
      if Tried(u, op) {
        var k :| 0 <= k < |u| && u[k].0 == op;
        assert v[k].0 == op;
      }
    }
  }

  ghost predicate Asked(t: Trace) {
    exists k :: 0 <= k < |t| && t[k].0.Registration?
  }

  lemma QuietKeeps(t: Trace, u: Trace)
    requires Extends(t, u)
    ensures forall op: Op :: !Minor(op) ==> (Tried(u, op) <==> Tried(t, op))
    ensures HasCheckout(u) <==> HasCheckout(t)
    ensures (Joined(u) <==> Joined(t)) && (Unstarted(u) <==> Unstarted(t)) && (Broken(t) ==> Broken(u))
  {
    forall k | |t| <= k < |u| ensures Minor(u[k].0) {
      assert u[k] == u[|t|..][k - |t|];
    }
    assert forall k :: 0 <= k < |t| ==> u[k] == t[k];
    hide Minor, Quiet;
    forall op: Op | Tried(t, op) ensures Tried(u, op) {
      var k :| 0 <= k < |t| && t[k].0 == op;
      assert u[k].0 == op;
    }
    if HasCheckout(t) {
      var k :| 0 <= k < |t| && t[k].0.WorktreeAdd? && t[k].1.Fine?;
      assert u[k] == t[k];
    }
    if Joined(t) {
      var k :| 0 <= k < |t| && t[k].0 == Registration(Up) && !t[k].1.Cancelled?;
      assert u[k] == t[k];
    }
    if Broken(t) {
      var k :| 0 <= k < |t| && !t[k].1.Fine? && !Tolerated(t[k]);
      assert u[k] == t[k];
    }
    NonMinor();
  }

  lemma NotJoined(t: Trace)
    requires Unstarted(t) || !Asked(t)
    ensures !Joined(t)
    ensures Unstarted(t) ==> !Tried(t, Approved)
  {
  }

  lemma NonMinor()
    ensures !Minor(PaneRun) && !Minor(WorktreeRemove) && !Minor(Approved) && !Minor(Registration(Up))
    ensures forall n: nat :: !Minor(WorktreeAdd(n))
  {
  }

  lemma RemoveKeeps(t: Trace, removed: Outcome, branch: Outcome, u: Trace)
    requires u == t + Removal(removed, branch)
    ensures Unstarted(u) <==> Unstarted(t)
    ensures Broken(t) ==> Broken(u)
    ensures Tried(u, WorktreeRemove) && !Uninserted(u)
  {
    assert forall k :: 0 <= k < |t| ==> u[k] == t[k];
    assert u[|t|].0 == WorktreeRemove;
    if Broken(t) {
      var k :| 0 <= k < |t| && !t[k].1.Fine? && !Tolerated(t[k]);
      assert u[k] == t[k];
    }
  }

  predicate HasCheckout(t: Trace) {
    exists k :: 0 <= k < |t| && t[k].0.WorktreeAdd? && t[k].1.Fine?
  }

  lemma StartKeeps(t: Trace, u: Trace)
    requires |u| > |t| && u[..|t|] == t && u[|t|].0.PaneRun? && Quiet(u[|t| + 1..])
    requires !Tried(t, WorktreeRemove) && Unstarted(t)
    ensures Tried(u, PaneRun) && !Tried(u, WorktreeRemove) && !Tried(u, Approved) && !Asked(u)
  {
    assert u[|t|].0 == PaneRun;
    forall k | 0 <= k < |u| ensures !u[k].0.WorktreeRemove? && !u[k].0.Approved? && !u[k].0.Registration? {
      if k < |t| { assert u[k] == t[k]; } else if k > |t| { assert u[k] == u[|t| + 1..][k - |t| - 1]; }
    }
  }

  // ---------------------------------------------------------------- the teardown protocol

  function Order(pane: bool): seq<Op> {
    if pane then [Approved, PaneClose, ReleaseAgent, WorktreeRemove, BranchDelete, RemoveFile]
    else [Approved, WorktreeRemove, BranchDelete, RemoveFile]
  }

  /** The outcomes after which teardown goes on. */
  predicate Continues(step: (Op, Outcome)) {
    match step.0
    case PaneClose => step.1.Fine?
    case ReleaseAgent => !step.1.Cancelled? && !step.1.Crashes?
    case WorktreeRemove => step.1.Fine?
    case BranchDelete => step.1.Fine? || step.1.ShimFails?
    case RemoveFile => !step.1.Cancelled? && !step.1.Crashes?
    case _ => true
  }

  predicate Complete(t: Trace, pane: bool) {
    |t| == |Order(pane)| && Continues(t[|t| - 1])
  }

  /** `t` runs through the protocol as far as its outcomes allow, and no further. */
  predicate Follows(t: Trace, pane: bool) {
    && 0 < |t| <= |Order(pane)|
    && (forall k :: 0 <= k < |t| ==> t[k].0 == Order(pane)[k])
    && (forall k :: 0 <= k < |t| - 1 ==> Continues(t[k]))
    && (|t| < |Order(pane)| ==> !Continues(t[|t| - 1]))
  }

  /** What a teardown leaves in the row: stopped if it completed, failed if the shim refused the
      removal, and otherwise unchanged. */
  function AfterTeardown(r: TaskRow, t: Trace): TaskRow {
    if Complete(t, r.pane) then r.(state := Stopped, hasToken := false)
    else if t != [] && t[|t| - 1] == (WorktreeRemove, ShimFails) then r.(state := Failed, hasToken := false)
    else r
  }

  /** A protocol prefix that still goes on. */
  predicate Walks(t: Trace, pane: bool) {
    && |t| <= |Order(pane)|
    && (forall k :: 0 <= k < |t| ==> t[k].0 == Order(pane)[k] && Continues(t[k]))
  }

  lemma FirstStep(pane: bool) returns (t: Trace)
    ensures t == [(Approved, Fine)] && Walks(t, pane)
    ensures NextOp(t, pane) == Some(if pane then PaneClose else WorktreeRemove)
  {
    t := [(Approved, Fine)];
  }

  function NextOp(t: Trace, pane: bool): Option<Op> {
    if |t| < |Order(pane)| then Some(Order(pane)[|t|]) else None
  }

  function After(op: Op): Option<Op> {
    match op
    case PaneClose => Some(ReleaseAgent)
    case ReleaseAgent => Some(WorktreeRemove)
    case WorktreeRemove => Some(BranchDelete)
    case BranchDelete => Some(RemoveFile)
    case _ => None
  }

  /** One more attempt either stops the teardown, completes it, or leads to the next operation. */
  lemma WalkOn(t: Trace, op: Op, o: Outcome, r: TaskRow) returns (u: Trace)
    requires t != [] && Walks(t, r.pane) && NextOp(t, r.pane) == Some(op)
    ensures u == t + [(op, o)]
    ensures !Continues((op, o)) ==> Follows(u, r.pane) && !Complete(u, r.pane)
    ensures !Continues((op, o)) ==> AfterTeardown(r, u) == AfterStuck(r, op, o)
    ensures Continues((op, o)) ==> Walks(u, r.pane) && NextOp(u, r.pane) == After(op)
    ensures Continues((op, o)) && op.RemoveFile? ==> Follows(u, r.pane) && Complete(u, r.pane)
    ensures Continues((op, o)) && op.RemoveFile? ==> AfterTeardown(r, u) == r.(state := Stopped, hasToken := false)
  {
    u := t + [(op, o)];
    assert u[|u| - 1] == (op, o);
  }

  /** The row after a teardown that ended at this call. */
  function AfterStuck(r: TaskRow, op: Op, o: Outcome): TaskRow {
    if op.WorktreeRemove? && o.ShimFails? then r.(state := Failed, hasToken := false) else r
  }

  lemma AfterSame(r: TaskRow, t: Trace)
    ensures AfterTeardown(r, t).pane == r.pane && AfterTeardown(r, t).worktree == r.worktree
  {
  }

  lemma LaunchedSafe(t: Trace)
    requires Tried(t, PaneRun) ==> !Tried(t, WorktreeRemove)
    ensures Safe(t)
  {
    forall j | 0 <= j < |t| && t[j].0.WorktreeRemove? ensures !Tried(t[..j], PaneRun) {
      TriedEarlier(t, j, PaneRun);
      assert t[j].0 == WorktreeRemove;
    }
  }

  lemma TriedEarlier(t: Trace, j: nat, op: Op)
    requires j <= |t|
    ensures Tried(t[..j], op) ==> Tried(t, op)
  {
    if Tried(t[..j], op) {
      var k :| 0 <= k < j && t[..j][k].0 == op;
      assert t[k].0 == op;
    }
  }

  /** A teardown of a session with a pane only removes the worktree after its own approval and a
      successful pane close. */
  lemma SafeAppend(t: Trace, added: Trace)
    requires Safe(t) && Follows(added, true)
    ensures Safe(t + added)
  {
    var u := t + added;
    forall j | 0 <= j < |u| && u[j].0.WorktreeRemove? && Tried(u[..j], PaneRun) ensures Guarded(u, j) {
      if j < |t| {
        assert u[j] == t[j] && u[..j] == t[..j];
        var k, c :| 0 <= k < c < j && t[k].0.Approved? && t[c] == (PaneClose, Fine) && !Tried(t[k..j], PaneRun);
        assert u[k..j] == t[k..j] && u[k] == t[k] && u[c] == t[c];
      } else {
        var i := j - |t|;
        assert u[j] == added[i] && added[i].0 == Order(true)[i];
        assert i == 3;
        assert Continues(added[1]) && u[|t|] == added[0] && u[|t| + 1] == added[1];
        assert u[|t|..j] == added[..i];
        assert !Tried(u[|t|..j], PaneRun);
      }
    }
  }

  // ---------------------------------------------------------------- several teardowns

  function Flat(ts: seq<Trace>): Trace {
    if ts == [] then [] else Flat(ts[..|ts| - 1]) + ts[|ts| - 1]
  }

  function AfterAll(r: TaskRow, ts: seq<Trace>): TaskRow {
    if ts == [] then r else AfterTeardown(AfterAll(r, ts[..|ts| - 1]), ts[|ts| - 1])
  }

  lemma NoTeardown()
    ensures Flat([]) == [] && forall r :: AfterAll(r, []) == r
  {
  }

  /** What one teardown request may add to the trace. */
  predicate Answers(request: (bool, bool), t: Trace, pane: bool) {
    if request.0 || request.1 then Follows(t, pane) else t == []
  }

  lemma AddOne(r: TaskRow, ts: seq<Trace>, t: Trace)
    ensures Flat(ts + [t]) == Flat(ts) + t && AfterAll(r, ts + [t]) == AfterTeardown(AfterAll(r, ts), t)
  {
    assert (ts + [t])[..|ts|] == ts;
  }

  lemma AfterNothing(r: TaskRow)
    ensures AfterTeardown(r, []) == r
  {
  }

  // ---------------------------------------------------------------- remote errors in a teardown

  /** A remote error that ends a teardown leaves the row failed with its token cleared if and only if it
      is a shim error of the removal itself; after every other one the row is as it was. */
  lemma RemoteErrorInTeardown(r: TaskRow, t: Trace)
    requires Follows(t, r.pane) && t[|t| - 1].1.Remote() && !Continues(t[|t| - 1])
    ensures var failed := r.(state := Failed, hasToken := false);
            AfterTeardown(r, t) == if t[|t| - 1] == (WorktreeRemove, ShimFails) then failed else r
  {
  }

  /** Two such errors: the transport fails while the checkout is removed, and while the pane is closed. */
  lemma TransportErrorKeepsRow(r: TaskRow)
    requires r.pane && r.state == Working && r.hasToken
    ensures var removing := [(Approved, Fine), (PaneClose, Fine), (ReleaseAgent, Fine),
                             (WorktreeRemove, TransportFails)];
            Follows(removing, true) && AfterTeardown(r, removing) == r
    ensures var closing := [(Approved, Fine), (PaneClose, TransportFails)];
            Follows(closing, true) && AfterTeardown(r, closing) == r
  {
  }

  // ---------------------------------------------------------------- the traces, call by call

  /** A launch that made every call: up to four names refused by the shim, the worktree, the workspace, the
      prompt, three files; then the agent, its name, its state, its metadata, and its registration. */
  lemma MadeExactly(t: Trace) returns (n: nat)
    requires Made(t)
    ensures n < 5 && |t| == n + 11 && forall k :: 0 <= k < n ==> t[k] == (WorktreeAdd(k + 1), ShimFails)
    ensures t[n] == (WorktreeAdd(n + 1), Fine) && t[n + 1] == (WorkspaceCreate, Fine) && t[n + 2] == (ReadPrompt, Fine)
    ensures t[n + 3] == t[n + 4] == t[n + 5] == (WriteFile, Fine) && t[n + 6] == (PaneRun, Fine)
    ensures t[n + 7].0 == AgentRename && (t[n + 7].1 == Fine || t[n + 7].1 == HerdrFails)
    ensures t[n + 8] == (ReportState, Fine) && t[n + 9] == (ReportMetadata, Fine)
    ensures t[n + 10].0 == Registration(Up) && t[n + 10].1 != Cancelled
  {
    var name: nat, rename: Outcome, polled: Outcome :|
      && 1 <= name <= MAX_NAMES && (rename.Fine? || rename.HerdrFails?) && !polled.Cancelled?
      && t == Setup(name) + Started(rename) + [(Registration(Up), polled)];
    n := name - 1;
  }

  /** How a teardown of a session with a pane may run: approval, the pane, the agent, the checkout, its
      branch, the cache; each is tried exactly if the ones before let it. */
  predicate WithPane(t: Trace) {
    && 2 <= |t| <= 6 && t[0].0 == Approved
    && t[1].0 == PaneClose && (|t| > 2 <==> t[1].1 == Fine)
    && (|t| > 2 ==> t[2].0 == ReleaseAgent && (|t| > 3 <==> t[2].1 != Cancelled && t[2].1 != Crashes))
    && (|t| > 3 ==> t[3].0 == WorktreeRemove && (|t| > 4 <==> t[3].1 == Fine))
    && (|t| > 4 ==> t[4].0 == BranchDelete && (|t| > 5 <==> t[4].1 == Fine || t[4].1 == ShimFails))
    && (|t| > 5 ==> t[5].0 == RemoveFile)
  }

  predicate WithoutPane(t: Trace) {
    && 2 <= |t| <= 4 && t[0].0 == Approved
    && t[1].0 == WorktreeRemove && (|t| > 2 <==> t[1].1 == Fine)
    && (|t| > 2 ==> t[2].0 == BranchDelete && (|t| > 3 <==> t[2].1 == Fine || t[2].1 == ShimFails))
    && (|t| > 3 ==> t[3].0 == RemoveFile)
  }

  lemma FollowsWithPane(t: Trace)
    ensures Follows(t, true) <==> WithPane(t)
  {
    assert Order(true) == [Approved, PaneClose, ReleaseAgent, WorktreeRemove, BranchDelete, RemoveFile];
  }

  lemma FollowsWithoutPane(t: Trace)
    ensures Follows(t, false) <==> WithoutPane(t)
  {
    assert Order(false) == [Approved, WorktreeRemove, BranchDelete, RemoveFile];
  }

  /** The protocol, its completion and what it leaves in the row, spelled out. */
  lemma TeardownExactly(r: TaskRow, t: Trace)
    ensures Follows(t, r.pane) <==> if r.pane then WithPane(t) else WithoutPane(t)
    ensures Follows(t, r.pane) ==>
              var last := t[|t| - 1];
              var done := last.0 == RemoveFile && last.1 != Cancelled && last.1 != Crashes;
              && (Complete(t, r.pane) <==> done)
              && AfterTeardown(r, t) == (if done then TaskRow(Stopped, false, r.pane, r.worktree)
                                         else if last == (WorktreeRemove, ShimFails)
                                         then TaskRow(SessionState.Failed, false, r.pane, r.worktree) else r)
  {
    FollowsWithPane(t);
    FollowsWithoutPane(t);
    hide Follows;
    assert |Order(true)| == 6 && |Order(false)| == 4;
  }
}
