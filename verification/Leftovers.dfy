/** Runs in which failures outlive valid answers, and in which an agent is charged with calls it did not make. */
module Leftovers {
  import opened Support
  import opened Orchestrator
  import opened TaskRun
  import opened WriteSafety
  import opened Termination
  import opened CoderBudget
  import opened TurnMerging
  import opened ProcessedCalls
  import opened Bookkeeping
  import opened Recording
  import Keys
  import LoopDetection
  import Uncertainty

  const ONE_CALL := Recorded(LoopDetection.Call("read_file", ""), true)

  /** The Reviewer makes one tool call and its answer fails validation. */
  const CALLED_THEN_FAILED := REWORK.(review := Invalid, recordings := [ONE_CALL])

  /** One successful call, the first of all, is merged without a stop. */
  lemma FirstCallMerges(st: State, agent: string)
    requires st.mem.history == map[] && st.mem.ue.windows == map[] && !st.mem.ue.fired && st.pending == [ONE_CALL]
    ensures SignalsOf(st, agent).batch.Merge?
  {
    var mem, calls := st.mem, st.pending;
    var w := [ONE_CALL.call];
    assert LastN(GetOr(mem.history, agent, []) + w, WINDOW_SIZE) == w;
    forall c: LoopDetection.Call ensures multiset(w)[c] < THRESHOLD {
    }
    assert !ClosesLoop(mem.history, agent, ONE_CALL.call);
    assert calls[..0] == [] && !TriggersAt(Rebuilt(mem.ue), agent, st.stepIndex, calls, 0);
    UnstoppedBatch(mem, agent, st.stepIndex, calls, 0);
  }

  lemma FailureSyncs(st: State)
    requires !st.mem.ue.fired && st.mem.ue.windows == map[] && ReviewerFailures(st) == 0
    ensures var f, key := SignalsOf(st, "reviewer").failure, Keys.StepKey("reviewer", st.stepIndex);
            f.Synced? && f.ue == st.mem.ue.(pydantic := st.mem.ue.pydantic[key := 1])
  {
    var key := Keys.StepKey("reviewer", st.stepIndex);
    assert GetOr(st.mem.ue.pydantic[key := 1], key, 0) == 1;
  }

  /** In the rework loop with one failed Reviewer turn, and the given calls pending. */
  predicate Stale(cfg: Config, st: State, c: nat, v: nat, calls: seq<Recorded>) {
    && cfg.maxCost >= 0 && cfg.topology.SupervisorOnly?
    && st.status.Running? && st.outcome.NoOutcome? && st.totals.cost == 0 && !st.mem.ue.fired
    && st.mem.history == map[] && st.mem.ue.windows == map[] && st.mem.ue.rejected == map[] && st.pending == calls
    && st.changePlan.Some? && Retries(st) == c && CoderFailures(st) == v && ReviewerFailures(st) == 1
  }

  /** A Reviewer turn that sends nothing new back because its answer fails validation: the Coder runs again. */
  lemma FailingReviewer(cfg: Config, s: iset<World>, w: World, c: nat, v: nat, o: Oracle) returns (w': World)
    requires Closed(cfg, s) && w in s && w.phase == At(RunReviewer) && Spins(cfg, RunReviewer, w.st, c, v)
    requires 0 < c < MAX_RETRIES_PER_STEP && w.st.reviewResult == Some(RejectWithChanges) && o.review.Invalid?
    ensures w' in s && w'.phase == At(RunCoder) && Stale(cfg, w'.st, c, v, o.recordings)
  {
    hide SignalsOf, Keys.StepKey;
    Keys.StepKeyInjective("reviewer", w.st.stepIndex, "coder", w.st.stepIndex);
    var called := WithCalls(cfg, RunReviewer, w.st, o);
    FailureSyncs(called);
    var key := Keys.StepKey("reviewer", w.st.stepIndex);
    assert GetOr(called.mem.ue.pydantic[key := 1], key, 0) == 1;
    WriteSafety.Step(cfg, s, w, Tick(o));
    w' := Advance(cfg, w, o);
  }

  /** The completing turn: batch merged, counters as they were. */
  lemma CompletedStale(cfg: Config, st: State, sig: Signals, o: Oracle)
    requires cfg.topology.SupervisorOnly? && cfg.maxCost >= 0 && st.changePlan.Some? && st.totals.cost == 0
    requires sig.batch.Merge? && o.edit.Done? && o.edit.bill.cost == 0
    ensures Coder(cfg, st, sig, o).1.Billed?
  {
  }

  /**
   * The Coder fails once, the Reviewer makes a call and fails, and the Coder completes without any call of its own:
   * its validation failure is not cleared.
   */
  lemma FailureOutlivesValidOutput(cfg: Config) returns (w: World, o: Oracle)
    requires cfg.maxCost >= 0 && cfg.topology.SupervisorOnly?
    ensures Reachable(cfg, w) && w.phase == At(RunCoder) && w.st.pending != [] && o.recordings == []
    ensures var (st', ended) := RunAgent(cfg, RunCoder, w.st, o);
            ended.Billed? && CoderFailures(st') == CoderFailures(w.st) == 1
  {
    hide Spins, Reachable, RunAgent;
    ReachableIsClosed(cfg);
    var s := iset v: World | Reachable(cfg, v);
    o := REWORK;
    w := ReachFreshCoder(cfg);
    w := Round(cfg, s, w, 0, 0, REWORK);
    w := CoderTick(cfg, s, w, 1, 0, GARBLED);
    w := FailingReviewer(cfg, s, w, 1, 1, CALLED_THEN_FAILED);
    Completes(cfg, w.st);
    assert w.st.pending + [] == w.st.pending;
    CoderResetsIff(cfg, w.st, o);
  }

  lemma Completes(cfg: Config, st: State)
    requires cfg.topology.SupervisorOnly? && cfg.maxCost >= 0 && st.changePlan.Some? && st.totals.cost == 0
    requires st.mem.history == map[] && st.mem.ue.windows == map[] && !st.mem.ue.fired && st.pending == [ONE_CALL]
    ensures RunAgent(cfg, RunCoder, st, REWORK).1.Billed?
  {
    hide SignalsOf, Coder;
    SilentTurn(cfg, RunCoder, st, REWORK);
    FirstCallMerges(st, "coder");
    CompletedStale(cfg, st, SignalsOf(st, "coder"), REWORK);
  }

  // ---- A Reviewer's failures that a rejection keeps ----

  /** The Reviewer's answer fails validation, without any call. */
  const SILENT_FAILURE := REWORK.(review := Invalid)
  /** A fix with a hash, sent back. */
  const SENT_BACK := SMOOTH.(review := Done(RejectWithChanges, ZERO))

  /** A Coder turn without calls, from a state with a Reviewer failure. */
  lemma StaleCoder(cfg: Config, st: State, sig: Signals, o: Oracle, c: nat)
    requires Stale(cfg, st, c, 0, []) && Plain(st, "coder", sig) && o.edit.Done? && o.edit.bill.cost == 0
    ensures var st' := Coder(cfg, st, sig, o).0;
            && Stale(cfg, st', c + 1, 0, []) && RouteHalts(st').None? && st'.codeEdit == Some(o.edit.value)
  {
    hide Keys.StepKey;
    Keys.StepKeyInjective("reviewer", st.stepIndex, "coder", st.stepIndex);
  }

  lemma RejectingTurnCompletes(cfg: Config, st: State, sig: Signals, o: Oracle, c: nat)
    requires Stale(cfg, st, c, 0, []) && sig.batch.NoChange? && sig.rejection.Synced?
    requires o.review.Done? && o.review.value == RejectWithChanges && o.review.bill.cost == 0
    ensures Reviewer(cfg, st, sig, o).1.Billed?
  {
  }

  lemma FirstRejectionSyncs(st: State)
    requires !st.mem.ue.fired && st.mem.ue.rejected == map[] && DiffHash(st) != "" && st.pending == []
    ensures var sig := SignalsOf(st, "reviewer"); sig.rejection.Synced? && sig.batch.NoChange?
  {
    RejectionSignal(st, "reviewer", DiffHash(st));
  }

  /**
   * The Reviewer fails once, and its next answer is valid but rejects a fix with a hash. No call was pending and none
   * is made, yet the failure is kept.
   */
  lemma FailureOutlivesRejection(cfg: Config) returns (w: World, o: Oracle)
    requires cfg.maxCost >= 0 && cfg.topology.SupervisorOnly?
    ensures Reachable(cfg, w) && w.phase == At(RunReviewer) && w.st.pending == [] && o.recordings == []
    ensures !w.st.mem.ue.fired && DiffHash(w.st) == "h"
    ensures var (st', ended) := RunAgent(cfg, RunReviewer, w.st, o);
            ended.Billed? && ReviewerFailures(st') == ReviewerFailures(w.st) == 1
  {
    hide Spins, Reachable, Stale, RunAgent;
    ReachableIsClosed(cfg);
    var s := iset v: World | Reachable(cfg, v);
    o := SENT_BACK;
    w := ReachFreshCoder(cfg);
    w := Round(cfg, s, w, 0, 0, REWORK);
    w := CoderTick(cfg, s, w, 1, 0, REWORK);
    w := FailingReviewer(cfg, s, w, 2, 0, SILENT_FAILURE);
    w := StaleCoderTick(cfg, s, w, 2);
    RejectionKeeps(cfg, w.st, 3);
  }

  lemma StaleCoderTick(cfg: Config, s: iset<World>, w: World, c: nat) returns (w': World)
    requires Closed(cfg, s) && w in s && w.phase == At(RunCoder) && Stale(cfg, w.st, c, 0, [])
    ensures w' in s && w'.phase == At(RunReviewer) && Stale(cfg, w'.st, c + 1, 0, []) && DiffHash(w'.st) == "h"
  {
    hide Coder, SignalsOf, Plain;
    PlainTurn(w.st, "coder");
    SilentTurn(cfg, RunCoder, w.st, SMOOTH);
    StaleCoder(cfg, w.st, SignalsOf(w.st, "coder"), SMOOTH, c);
    WriteSafety.Step(cfg, s, w, Tick(SMOOTH));
    w' := Advance(cfg, w, SMOOTH);
  }

  lemma RejectionKeeps(cfg: Config, st: State, c: nat)
    requires Stale(cfg, st, c, 0, []) && DiffHash(st) == "h"
    ensures !st.mem.ue.fired && st.pending == []
    ensures var (st', ended) := RunAgent(cfg, RunReviewer, st, SENT_BACK);
            ended.Billed? && ReviewerFailures(st') == ReviewerFailures(st) == 1
  {
    hide SignalsOf, Reviewer;
    SilentTurn(cfg, RunReviewer, st, SENT_BACK);
    FirstRejectionSyncs(st);
    RejectingTurnCompletes(cfg, st, SignalsOf(st, "reviewer"), SENT_BACK, c);
    ReviewerResetsIff(cfg, st, SENT_BACK);
  }

  // ---- An agent that did not run ----

  const FIRST_ERROR := Recorded(LoopDetection.Call("read_file", "1"), false)
  const SECOND_ERROR := Recorded(LoopDetection.Call("read_file", "2"), false)

  /** The first Coder turn makes two failing calls and its answer fails validation. */
  const TWO_ERRORS := SMOOTH.(edit := Invalid, recordings := [FIRST_ERROR, SECOND_ERROR])

  lemma ReachErrorsPending(cfg: Config, s: iset<World>) returns (w: World)
    requires Closed(cfg, s) && cfg.maxCost >= 0 && cfg.topology.SupervisorOnly?
    ensures w in s && w.phase == At(RunReviewer) && w.st.codeEdit.None? && w.st.pending == TWO_ERRORS.recordings
    ensures w.st.mem.history == map[] && w.st.mem.ue.windows == map[] && !w.st.mem.ue.fired
    ensures w.st.outcome.NoOutcome? && w.st.totals.cost == 0
  {
    hide SignalsOf;
    w := ReachCoder(cfg, s);
    CoderFailureSyncs(WithCalls(cfg, RunCoder, w.st, TWO_ERRORS));
    WriteSafety.Step(cfg, s, w, Tick(TWO_ERRORS));
    w := Advance(cfg, w, TWO_ERRORS);
  }

  lemma CoderFailureSyncs(st: State)
    requires !st.mem.ue.fired && st.mem.ue.pydantic == map[] && st.mem.ue.windows == map[]
    ensures var f := SignalsOf(st, "coder").failure; f.Synced? && !f.ue.fired && f.ue.windows == map[]
  {
  }

  lemma NoLoopYet(agent: string, c: LoopDetection.Call)
    ensures !ClosesLoop(map[], agent, c)
  {
    assert LastN([] + [c], WINDOW_SIZE) == [c];
    forall x: LoopDetection.Call ensures multiset([c])[x] < THRESHOLD {
    }
  }

  lemma SingleCall(t: Uncertainty.Tracker, agent: string, step: int, rec: Recorded)
    ensures TrackerAfter(t, agent, step, [rec]) == Uncertainty.Apply(t, Uncertainty.ToolCalled(agent, rec.ok, step)).0
  {
    assert [rec][..0] == [];
  }

  /** A failing call triggers exactly when it is not the first in its agent's window. */
  lemma ErrorAfterErrors(t: Uncertainty.Tracker, agent: string, step: int)
    requires !t.fired && (GetOr(t.windows, agent, []) == [] || GetOr(t.windows, agent, []) == [false])
    ensures var (t', trigger) := Uncertainty.Apply(t, Uncertainty.ToolCalled(agent, false, step));
            if GetOr(t.windows, agent, []) == [] then
              trigger.None? && !t'.fired && GetOr(t'.windows, agent, []) == [false]
            else trigger.Some?
  {
    assert LastN([] + [false], 10) == [false] && LastN([false] + [false], 10) == [false, false];
    assert [false, false][..1] == [false] && [false][..0] == [];
    assert Uncertainty.Errors([false]) == 1 && Uncertainty.Errors([false, false]) == 2;
  }

  /** From clean windows the second of two failing calls exceeds the error rate, and closes no loop. */
  lemma SecondErrorStops(mem: Memory, agent: string, step: int, calls: seq<Recorded>)
    requires mem.history == map[] && mem.ue.windows == map[] && !mem.ue.fired && calls == [FIRST_ERROR, SECOND_ERROR]
    ensures !StopsAt(mem, agent, step, calls, 0) && StopsAt(mem, agent, step, calls, 1)
    ensures !ClosesLoop(mem.history, agent, calls[1].call)
  {
    NoLoopYet(agent, FIRST_ERROR.call);
    NoLoopYet(agent, SECOND_ERROR.call);
    hide ClosesLoop, Uncertainty.Apply;
    assert calls[..0] == [] && calls[..1] == [FIRST_ERROR];
    var start := Rebuilt(mem.ue);
    assert start.windows == map[];
    SingleCall(start, agent, step, FIRST_ERROR);
    ErrorAfterErrors(start, agent, step);
    ErrorAfterErrors(TrackerAfter(start, agent, step, calls[..1]), agent, step);
  }

  /** The Reviewer, without an edit, does not run; yet its turn escalates for the Coder's failing calls. */
  lemma ChargedWithoutRunning(cfg: Config) returns (w: World)
    requires cfg.maxCost >= 0 && cfg.topology.SupervisorOnly?
    ensures Reachable(cfg, w) && w.phase == At(RunReviewer) && !Orchestrator.Records(cfg, RunReviewer, w.st)
    ensures forall o :: RunAgent(cfg, RunReviewer, w.st, o).0.outcome.UncertaintyEscalation?
  {
    hide Reachable, RunAgent, StopsAt, ClosesLoop;
    ReachableIsClosed(cfg);
    w := ReachErrorsPending(cfg, iset v: World | Reachable(cfg, v));
    SecondErrorStops(w.st.mem, "reviewer", w.st.stepIndex, w.st.pending);
    forall o ensures RunAgent(cfg, RunReviewer, w.st, o).0.outcome.UncertaintyEscalation? {
      ProcessedCallsEscalateIff(cfg, RunReviewer, w.st, o);
    }
  }
}
