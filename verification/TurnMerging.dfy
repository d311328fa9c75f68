/**
 * What survives of a turn that records a signal and a batch of tool calls: the batch's tracker overwrites the
 * signal's.
 */
module TurnMerging {
  import opened Support
  import opened Orchestrator
  import opened Bookkeeping
  import opened Recording
  import Uncertainty
  import Keys

  lemma {:induction false} UnescalatedNeverStopped(mem: Memory, agent: string, step: int, recs: seq<Recorded>, i: nat)
    requires i <= |recs|
    requires var r := ProcessFrom(mem, agent, step, recs, i); r.Merge? || r.NoChange?
    ensures forall k: nat | i <= k < |recs| :: !StopsAt(mem, agent, step, recs, k)
    decreases |recs| - i
  {
    hide ClosesLoop, TriggersAt;
    if i < |recs| {
      UnescalatedNeverStopped(mem, agent, step, recs, i + 1);
    }
  }

  /** Processing reports None exactly for a turn without tool calls. */
  lemma NoChangeIffEmpty(mem: Memory, agent: string, step: int, recs: seq<Recorded>)
    ensures Process(mem, agent, step, recs).NoChange? <==> recs == []
  {
    if Process(mem, agent, step, recs).NoChange? {
      UnescalatedNeverStopped(mem, agent, step, recs, 0);
      UnstoppedBatch(mem, agent, step, recs, 0);
    }
  }

  function ValidationFailures(st: State, agent: string): nat {
    GetOr(st.mem.ue.pydantic, Keys.StepKey(agent, st.stepIndex), 0)
  }

  predicate Rejects(st: State, o: Oracle, hash: string) {
    st.codeEdit == Some(Edit(hash)) && o.review.Done? && o.review.value == RejectWithChanges
  }

  /** The calls a completed turn processes: what earlier, failed turns left behind, then its own if its agent ran. */
  function Calls(cfg: Config, n: Node, st: State, o: Oracle): seq<Recorded> {
    WithCalls(cfg, n, st, o).pending
  }

  lemma BatchSignal(st: State, agent: string)
    ensures SignalsOf(st, agent).batch.NoChange? <==> st.pending == []
  {
    NoChangeIffEmpty(st.mem, agent, st.stepIndex, st.pending);
  }

  /** A completed Coder turn clears its validation failures exactly when it processes no call. */
  lemma CoderResetsIff(cfg: Config, st: State, o: Oracle)
    requires cfg.topology.SupervisorOnly? && RunAgent(cfg, RunCoder, st, o).1.Billed?
    ensures ValidationFailures(RunAgent(cfg, RunCoder, st, o).0, "coder")
            == if Calls(cfg, RunCoder, st, o) == [] then 0 else ValidationFailures(st, "coder")
  {
    hide SignalsOf, FailedTurn;
    var called := WithCalls(cfg, RunCoder, st, o);
    SignalsAlwaysFit(called, "coder");
    BatchSignal(called, "coder");
  }

  /** A completed Reviewer turn clears its own exactly when it processes no call and records no rejection. */
  lemma ReviewerResetsIff(cfg: Config, st: State, o: Oracle)
    requires cfg.topology.SupervisorOnly? && RunAgent(cfg, RunReviewer, st, o).1.Billed?
    ensures ValidationFailures(RunAgent(cfg, RunReviewer, st, o).0, "reviewer")
            == if Calls(cfg, RunReviewer, st, o) == [] && !RecordsRejection(st, o) then 0
               else ValidationFailures(st, "reviewer")
  {
    hide SignalsOf, FailedTurn;
    var called := WithCalls(cfg, RunReviewer, st, o);
    SignalsAlwaysFit(called, "reviewer");
    BatchSignal(called, "reviewer");
    RejectionKind(called, "reviewer");
  }

  /** A completed QA turn clears its own exactly when it processes no call, in either topology. */
  lemma QaResetsIff(cfg: Config, st: State, o: Oracle)
    requires RunAgent(cfg, RunQa, st, o).1.Billed?
    ensures ValidationFailures(RunAgent(cfg, RunQa, st, o).0, "qa")
            == if Calls(cfg, RunQa, st, o) == [] then 0 else ValidationFailures(st, "qa")
  {
    hide SignalsOf, FailedTurn;
    var called := WithCalls(cfg, RunQa, st, o);
    SignalsAlwaysFit(called, "qa");
    BatchSignal(called, "qa");
  }

  /** A completed Planner turn always does. */
  lemma PlannerResets(cfg: Config, st: State, o: Oracle)
    requires RunAgent(cfg, RunPlanner, st, o).1.Billed?
    ensures ValidationFailures(RunAgent(cfg, RunPlanner, st, o).0, "planner") == 0
  {
    hide SignalsOf;
    SignalsAlwaysFit(st, "planner");
  }

  /** The rejection signal is silent exactly without an edit, for an empty hash, or after a trigger. */
  lemma RejectionKind(st: State, agent: string)
    ensures SignalsOf(st, agent).rejection.NoUpdate?
            <==> st.codeEdit.None? || st.codeEdit.value.diffHash == "" || st.mem.ue.fired
  {
    if st.codeEdit.Some? {
      var t, hash := st.mem.ue, st.codeEdit.value.diffHash;
      var n := GetOr(t.rejected, hash, 0) + 1;
      assert GetOr(t.rejected[hash := n], hash, 0) == n;
    }
  }

  lemma RejectionSignal(st: State, agent: string, hash: string)
    requires hash != "" && !st.mem.ue.fired && st.codeEdit == Some(Edit(hash))
    ensures var r := SignalsOf(st, agent).rejection;
            if Rejections(st, hash) == 0 then
              r.Synced? && r.ue.rejected == st.mem.ue.rejected[hash := 1] && !r.ue.fired
            else r.Escalation?
  {
    var t := st.mem.ue;
    var t' := t.rejected[hash := GetOr(t.rejected, hash, 0) + 1];
    assert GetOr(t', hash, 0) == GetOr(t.rejected, hash, 0) + 1;
  }

  /**
   * A completed Reviewer turn that first rejects a fix remembers it exactly when no call was pending and it made
   * none.
   */
  lemma FirstRejectionRememberedIff(cfg: Config, st: State, o: Oracle, hash: string)
    requires cfg.topology.SupervisorOnly? && RunAgent(cfg, RunReviewer, st, o).1.Billed?
    requires hash != "" && !st.mem.ue.fired && Rejects(st, o, hash) && Rejections(st, hash) == 0
    ensures var st' := RunAgent(cfg, RunReviewer, st, o).0;
            && Rejections(st', hash) == (if st.pending + o.recordings == [] then 1 else 0)
            && !st'.mem.ue.fired
  {
    hide SignalsOf, FailedTurn;
    var called := WithCalls(cfg, RunReviewer, st, o);
    SignalsAlwaysFit(called, "reviewer");
    BatchSignal(called, "reviewer");
    RejectionSignal(called, "reviewer", hash);
  }

  /** A completed Coder turn leaves the remembered rejections alone and no call pending. */
  lemma CoderKeepsRejections(cfg: Config, st: State, o: Oracle, hash: string)
    requires cfg.topology.SupervisorOnly? && RunAgent(cfg, RunCoder, st, o).1.Billed? && !st.mem.ue.fired
    ensures var st' := RunAgent(cfg, RunCoder, st, o).0;
            Rejections(st', hash) == Rejections(st, hash) && !st'.mem.ue.fired && st'.pending == []
  {
    hide SignalsOf, FailedTurn;
    SignalsAlwaysFit(WithCalls(cfg, RunCoder, st, o), "coder");
  }

  /** The pending calls, processed as the agent's, exceed its error rate before they close a loop. */
  ghost predicate BatchEscalates(cfg: Config, n: Node, st: State, o: Oracle)
    requires IsAgent(n)
  {
    Process(st.mem, AgentName(n), st.stepIndex, Calls(cfg, n, st, o)).Uncertain?
  }

  /**
   * A rejection within budget escalates as uncertain exactly when the fix is remembered as rejected or its calls
   * do.
   */
  lemma RejectionEscalatesIff(cfg: Config, st: State, o: Oracle, hash: string)
    requires cfg.topology.SupervisorOnly? && st.outcome.NoOutcome?
    requires hash != "" && !st.mem.ue.fired && Rejects(st, o, hash) && !OverBudget(cfg, st, o.review.bill)
    ensures RunAgent(cfg, RunReviewer, st, o).0.outcome.UncertaintyEscalation?
            <==> Rejections(st, hash) > 0 || BatchEscalates(cfg, RunReviewer, st, o)
  {
    hide FailedTurn, Process, RecordedPydanticSuccess, RecordedPydanticFailure, RecordedDiffRejection;
    var called := WithCalls(cfg, RunReviewer, st, o);
    RejectionSignal(called, "reviewer", hash);
  }

  /**
   * The same fix, rejected, handed in again and rejected again: apart from the calls of its own turn, the second
   * rejection escalates exactly when the first processed no call.
   */
  lemma SameFixTwiceEscalatesIff(cfg: Config, st: State, o1: Oracle, o2: Oracle, o3: Oracle, hash: string)
    requires cfg.topology.SupervisorOnly? && hash != "" && !st.mem.ue.fired && Rejections(st, hash) == 0
    requires Rejects(st, o1, hash) && RunAgent(cfg, RunReviewer, st, o1).1.Billed?
    requires var st1 := RunAgent(cfg, RunReviewer, st, o1).0;
             && RunAgent(cfg, RunCoder, st1, o2).1.Billed?
             && var st2 := RunAgent(cfg, RunCoder, st1, o2).0;
                st2.outcome.NoOutcome? && Rejects(st2, o3, hash) && !OverBudget(cfg, st2, o3.review.bill)
    ensures var st1 := RunAgent(cfg, RunReviewer, st, o1).0;
            var st2 := RunAgent(cfg, RunCoder, st1, o2).0;
            RunAgent(cfg, RunReviewer, st2, o3).0.outcome.UncertaintyEscalation?
            <==> st.pending + o1.recordings == [] || BatchEscalates(cfg, RunReviewer, st2, o3)
  {
    hide RunAgent, BatchEscalates;
    FirstRejectionRememberedIff(cfg, st, o1, hash);
    var st1 := RunAgent(cfg, RunReviewer, st, o1).0;
    CoderKeepsRejections(cfg, st1, o2, hash);
    RejectionEscalatesIff(cfg, RunAgent(cfg, RunCoder, st1, o2).0, o3, hash);
  }

  // ---- Calls a failed turn leaves behind ----

  /** Success flags of recorded calls. */
  function Oks(calls: seq<Recorded>): seq<bool> {
    seq(|calls|, i requires 0 <= i < |calls| => calls[i].ok)
  }

  lemma OneCall(t: Uncertainty.Tracker, agent: string, ok: bool, step: int)
    requires !t.fired
    ensures var t' := Uncertainty.Apply(t, Uncertainty.ToolCalled(agent, ok, step)).0;
            && GetOr(t'.windows, agent, [])
               == LastN(GetOr(t.windows, agent, []) + [ok], Uncertainty.TOOL_ERROR_WINDOW_SIZE)
            && forall other :: other != agent ==> GetOr(t'.windows, other, []) == GetOr(t.windows, other, [])
  {
  }

  lemma {:induction false} WindowAfterBatch(t: Uncertainty.Tracker, agent: string, step: int, recs: seq<Recorded>)
    requires !t.fired && forall k: nat | k < |recs| :: !TriggersAt(t, agent, step, recs, k)
    requires |GetOr(t.windows, agent, [])| <= Uncertainty.TOOL_ERROR_WINDOW_SIZE
    ensures var t' := TrackerAfter(t, agent, step, recs);
            && GetOr(t'.windows, agent, [])
               == LastN(GetOr(t.windows, agent, []) + Oks(recs), Uncertainty.TOOL_ERROR_WINDOW_SIZE)
            && forall other :: other != agent ==> GetOr(t'.windows, other, []) == GetOr(t.windows, other, [])
  {
    hide Uncertainty.Apply, LastN, TriggersAt;
    if recs == [] {
      assert GetOr(t.windows, agent, []) + Oks(recs) == GetOr(t.windows, agent, []);
      ShortWindow(GetOr(t.windows, agent, []));
    } else {
      var init, last := recs[..|recs| - 1], recs[|recs| - 1];
      EarlierTriggers(t, agent, step, recs);
      WindowAfterBatch(t, agent, step, init);
      FiresOnlyAtTrigger(t, agent, step, init);
      OneCall(TrackerAfter(t, agent, step, init), agent, last.ok, step);
      var earlier := GetOr(t.windows, agent, []) + Oks(init);
      LastNAppend(earlier, last.ok, Uncertainty.TOOL_ERROR_WINDOW_SIZE);
      assert GetOr(t.windows, agent, []) + Oks(recs) == earlier + [last.ok];
    }
  }

  lemma ShortWindow(w: seq<bool>)
    requires |w| <= Uncertainty.TOOL_ERROR_WINDOW_SIZE
    ensures LastN(w, Uncertainty.TOOL_ERROR_WINDOW_SIZE) == w
  {
  }

  lemma EarlierTriggers(t: Uncertainty.Tracker, agent: string, step: int, recs: seq<Recorded>)
    requires recs != [] && forall k: nat | k < |recs| :: !TriggersAt(t, agent, step, recs, k)
    ensures var init := recs[..|recs| - 1]; forall k: nat | k < |init| :: !TriggersAt(t, agent, step, init, k)
  {
    hide Uncertainty.Apply;
    var init := recs[..|recs| - 1];
    forall k: nat | k < |init| ensures !TriggersAt(t, agent, step, init, k) {
      assert init[..k] == recs[..k] && !TriggersAt(t, agent, step, recs, k);
    }
  }

  /**
   * A turn that failed validation without escalating leaves its calls pending and the detectors' view of calls
   * alone.
   */
  lemma FailedTurnLeavesCalls(cfg: Config, n: Node, st: State, o: Oracle)
    requires cfg.topology.SupervisorOnly? && st.outcome.NoOutcome? && st.status.Running?
    requires || (n.RunCoder? && st.changePlan.Some? && o.edit.Invalid?)
             || (n.RunReviewer? && st.codeEdit.Some? && o.review.Invalid?)
    requires RouteHalts(RunAgent(cfg, n, st, o).0).None?
    ensures var st' := RunAgent(cfg, n, st, o).0;
            && st'.pending == st.pending + o.recordings
            && st'.mem.history == st.mem.history
            && st'.mem.ue.windows == Rebuilt(st.mem.ue).windows && !st'.mem.ue.fired
  {
    hide SignalsOf, FailedTurn, CloseTurn, Exhausted, Rebuilt;
    var called := WithCalls(cfg, n, st, o);
    FailureKeepsWindows(called, AgentName(n));
    if n.RunCoder? {
      InvalidContinues(called, SignalsOf(called, "coder"), o.edit);
    } else {
      InvalidContinues(called, SignalsOf(called, "reviewer"), o.review);
    }
  }

  lemma InvalidContinues<T>(st: State, sig: Signals, turn: Turn<T>)
    requires turn.Invalid? && RouteHalts(FailedTurn(st, sig, turn)).None?
    ensures sig.failure.Synced? && FailedTurn(st, sig, turn) == WithTracker(st, sig.failure.ue)
  {
  }

  lemma FailureKeepsWindows(st: State, agent: string)
    ensures var f := SignalsOf(st, agent).failure;
            f.Synced? ==> f.ue.windows == Rebuilt(st.mem.ue).windows && !f.ue.fired
  {
  }

  /**
   * A completed turn charges all calls it processes to its agent, whoever made them and even if that agent did not
   * run: its history gains the last of them, its error window all of them.
   */
  lemma CompletedTurnTakesPendingCalls(cfg: Config, n: Node, st: State, o: Oracle)
    requires Processes(cfg, n) && !st.mem.ue.fired
    requires Calls(cfg, n, st, o) != [] && RunAgent(cfg, n, st, o).1.Billed?
    ensures var st', calls, agent := RunAgent(cfg, n, st, o).0, Calls(cfg, n, st, o), AgentName(n);
            && st'.pending == []
            && st'.mem.history
               == st.mem.history[agent := LastN(GetOr(st.mem.history, agent, []) + [calls[|calls| - 1].call], 5)]
            && var before := Rebuilt(st.mem.ue).windows;
               && GetOr(st'.mem.ue.windows, agent, []) == LastN(GetOr(before, agent, []) + Oks(calls), 10)
               && forall other :: other != agent ==> GetOr(st'.mem.ue.windows, other, []) == GetOr(before, other, [])
  {
    hide AgentNode, Rebuilt, Oks, TriggersAt, ClosesLoop, LastN;
    var called, agent := WithCalls(cfg, n, st, o), AgentName(n);
    var calls := called.pending;
    BatchSignal(called, agent);
    BilledTurnMerges(cfg, n, called, SignalsOf(called, agent), o);
    UnescalatedNeverStopped(st.mem, agent, st.stepIndex, calls, 0);
    UnstoppedBatch(st.mem, agent, st.stepIndex, calls, 0);
    NeverTriggered(st.mem, agent, st.stepIndex, calls);
    RebuiltIsBounded(st.mem.ue, agent);
    WindowAfterBatch(Rebuilt(st.mem.ue), agent, st.stepIndex, calls);
  }

  /** The calls of a turn that failed validation are charged to the agent whose node completes next. */
  lemma FailedCallsChargedToNext(cfg: Config, n1: Node, st: State, o1: Oracle, n2: Node, o2: Oracle)
    requires cfg.topology.SupervisorOnly? && st.outcome.NoOutcome? && st.status.Running?
    requires (n1.RunCoder? && st.changePlan.Some? && o1.edit.Invalid?)
             || (n1.RunReviewer? && st.codeEdit.Some? && o1.review.Invalid?)
    requires var st1 := RunAgent(cfg, n1, st, o1).0;
             RouteHalts(st1).None? && Processes(cfg, n2) && RunAgent(cfg, n2, st1, o2).1.Billed?
    requires st.pending + o1.recordings != []
    ensures var st1 := RunAgent(cfg, n1, st, o1).0;
            var st2, calls, agent := RunAgent(cfg, n2, st1, o2).0, Calls(cfg, n2, st1, o2), AgentName(n2);
            && calls == st.pending + o1.recordings + (if Records(cfg, n2, st1) then o2.recordings else [])
            && st2.mem.history
               == st.mem.history[agent := LastN(GetOr(st.mem.history, agent, []) + [calls[|calls| - 1].call], 5)]
            && var before := Rebuilt(st.mem.ue).windows;
               && GetOr(st2.mem.ue.windows, agent, []) == LastN(GetOr(before, agent, []) + Oks(calls), 10)
               && forall other :: other != agent ==> GetOr(st2.mem.ue.windows, other, []) == GetOr(before, other, [])
  {
    hide RunAgent, Rebuilt, Oks, LastN;
    FailedTurnLeavesCalls(cfg, n1, st, o1);
    var st1 := RunAgent(cfg, n1, st, o1).0;
    assert st1.pending + [] == st1.pending;
    RebuiltWindows(st.mem.ue, st1.mem.ue);
    CompletedTurnTakesPendingCalls(cfg, n2, st1, o2);
  }

  lemma RebuiltWindows(t: Uncertainty.Tracker, t': Uncertainty.Tracker)
    requires t'.windows == Rebuilt(t).windows
    ensures Rebuilt(t').windows == Rebuilt(t).windows
  {
  }

  lemma BilledTurnMerges(cfg: Config, n: Node, st: State, sig: Signals, o: Oracle)
    requires Processes(cfg, n) && AgentNode(cfg, n, st, sig, o).1.Billed? && !sig.batch.NoChange?
    ensures sig.batch.Merge?
    ensures var st' := AgentNode(cfg, n, st, sig, o).0; st'.mem == sig.batch.mem && st'.pending == []
  {
    hide FailedTurn;
  }

  lemma NeverTriggered(mem: Memory, agent: string, step: int, recs: seq<Recorded>)
    requires forall k: nat | k < |recs| :: !StopsAt(mem, agent, step, recs, k)
    ensures forall k: nat | k < |recs| :: !TriggersAt(Rebuilt(mem.ue), agent, step, recs, k)
  {
    hide TriggersAt, ClosesLoop;
    forall k: nat | k < |recs| ensures !TriggersAt(Rebuilt(mem.ue), agent, step, recs, k) {
      assert !StopsAt(mem, agent, step, recs, k);
    }
  }

  lemma RebuiltIsBounded(t: Uncertainty.Tracker, agent: string)
    ensures |GetOr(Rebuilt(t).windows, agent, [])| <= Uncertainty.TOOL_ERROR_WINDOW_SIZE && Rebuilt(t).fired == t.fired
  {
  }
}
