/** When the calls a turn processes escalate, and what such a turn leaves. */
module ProcessedCalls {
  import opened Support
  import opened Orchestrator
  import opened Bookkeeping
  import opened Recording
  import opened TurnMerging

  lemma {:induction false} EscalatedStopped(mem: Memory, agent: string, step: int, recs: seq<Recorded>, i: nat)
    returns (k: nat)
    requires i <= |recs|
    requires var r := ProcessFrom(mem, agent, step, recs, i); r.LoopFound? || r.Uncertain?
    ensures i <= k < |recs| && StopsAt(mem, agent, step, recs, k)
    ensures forall j: nat | i <= j < k :: !StopsAt(mem, agent, step, recs, j)
    ensures ProcessFrom(mem, agent, step, recs, i).LoopFound? <==> ClosesLoop(mem.history, agent, recs[k].call)
    decreases |recs| - i
  {
    hide ClosesLoop, TriggersAt;
    if StopsAt(mem, agent, step, recs, i) {
      k := i;
    } else {
      k := EscalatedStopped(mem, agent, step, recs, i + 1);
    }
  }

  /** How a turn that reaches processing ends is how its calls are processed. */
  lemma TurnFollowsBatch(cfg: Config, n: Node, st: State, sig: Signals, o: Oracle)
    requires Processes(cfg, n) && ReachesProcessing(cfg, n, st, o) && st.outcome.NoOutcome?
    requires n.RunReviewer? && RecordsRejection(st, o) ==> !sig.rejection.Escalation?
    requires n.RunReviewer? && !RecordsRejection(st, o) && st.codeEdit.Some? && o.review.value == RejectWithChanges ==>
               sig.rejection.NoUpdate?
    ensures var (st', ended) := AgentNode(cfg, n, st, sig, o);
            && (st'.outcome.LoopDetectedOutcome? <==> sig.batch.LoopFound?)
            && (st'.outcome.UncertaintyEscalation? <==> sig.batch.Uncertain?)
            && (ended.Billed? <==> sig.batch.Merge? || sig.batch.NoChange?)
  {
    hide FailedTurn, Retries, RetryKey;
  }

  /**
   * A turn that reaches processing escalates exactly when some call it processes closes a loop against its agent's
   * history or exceeds its agent's error rate; the first such call decides, and a loop wins.
   */
  lemma ProcessedCallsEscalateIff(cfg: Config, n: Node, st: State, o: Oracle)
    requires Processes(cfg, n) && ReachesProcessing(cfg, n, st, o) && st.outcome.NoOutcome?
    ensures var ((st', ended), calls) := (RunAgent(cfg, n, st, o), Calls(cfg, n, st, o));
            var agent, step := AgentName(n), st.stepIndex;
            && (ended.Billed? <==> forall k: nat | k < |calls| :: !StopsAt(st.mem, agent, step, calls, k))
            && (forall k: nat | k < |calls| && StopsAt(st.mem, agent, step, calls, k)
                                && (forall j: nat | j < k :: !StopsAt(st.mem, agent, step, calls, j)) ::
                  && (st'.outcome.LoopDetectedOutcome? <==> ClosesLoop(st.mem.history, agent, calls[k].call))
                  && (st'.outcome.UncertaintyEscalation? <==> !ClosesLoop(st.mem.history, agent, calls[k].call)))
  {
    hide AgentNode, StopsAt, ClosesLoop, ReachesProcessing, RecordsRejection;
    var called, agent, step := WithCalls(cfg, n, st, o), AgentName(n), st.stepIndex;
    var calls, sig := called.pending, SignalsOf(called, agent);
    ProcessingSignals(cfg, n, st, o);
    TurnFollowsBatch(cfg, n, called, sig, o);
    if sig.batch.LoopFound? || sig.batch.Uncertain? {
      var k := EscalatedStopped(st.mem, agent, step, calls, 0);
    } else {
      UnescalatedNeverStopped(st.mem, agent, step, calls, 0);
    }
  }

  lemma ProcessingSignals(cfg: Config, n: Node, st: State, o: Oracle)
    requires Processes(cfg, n) && ReachesProcessing(cfg, n, st, o)
    ensures var called := WithCalls(cfg, n, st, o);
            var sig := SignalsOf(called, AgentName(n));
            && ReachesProcessing(cfg, n, called, o)
            && (n.RunReviewer? && RecordsRejection(called, o) ==> !sig.rejection.Escalation?)
            && (n.RunReviewer? && !RecordsRejection(called, o) && st.codeEdit.Some?
                && o.review.value == RejectWithChanges ==>
                  sig.rejection.NoUpdate?)
  {
    var called := WithCalls(cfg, n, st, o);
    if n.RunReviewer? {
      RejectionKind(called, "reviewer");
      if RecordsRejection(called, o) {
        RejectionSignal(called, "reviewer", st.codeEdit.value.diffHash);
      }
    }
    hide SignalsOf;
  }

  /** What a turn stopped by its calls leaves: the merged tracker overwrites the batch's on the way. */
  lemma StoppedTurnLeaves(cfg: Config, n: Node, st: State, sig: Signals, o: Oracle)
    requires Processes(cfg, n) && ReachesProcessing(cfg, n, st, o)
    requires sig.batch.LoopFound? || sig.batch.Uncertain?
    requires n.RunReviewer? && RecordsRejection(st, o) ==> !sig.rejection.Escalation?
    requires n.RunReviewer? && !RecordsRejection(st, o) && st.codeEdit.Some? && o.review.value == RejectWithChanges ==>
               sig.rejection.NoUpdate?
    ensures var st' := AgentNode(cfg, n, st, sig, o).0;
            && st'.pending == [] && st'.mem.history == sig.batch.mem.history
            && (st'.mem.ue == sig.success || (sig.rejection.Synced? && st'.mem.ue == sig.rejection.ue))
  {
    hide FailedTurn, Retries, RetryKey;
  }

  lemma SignalsKeepWindows(st: State, agent: string)
    requires !st.mem.ue.fired
    ensures var sig, windows := SignalsOf(st, agent), Rebuilt(st.mem.ue).windows;
            && !sig.success.fired && sig.success.windows == windows
            && (sig.rejection.Synced? ==> !sig.rejection.ue.fired && sig.rejection.ue.windows == windows)
  {
  }

  /**
   * A turn that escalates for its calls stores the call that stopped it in the history, but neither the flag nor the
   * calls' results: the tracker merged over the batch's was rebuilt from before the batch.
   */
  lemma StoppedTurnForgets(cfg: Config, n: Node, st: State, o: Oracle) returns (k: nat)
    requires Processes(cfg, n) && ReachesProcessing(cfg, n, st, o) && st.outcome.NoOutcome? && !st.mem.ue.fired
    requires !RunAgent(cfg, n, st, o).1.Billed?
    ensures var st', calls, agent := RunAgent(cfg, n, st, o).0, Calls(cfg, n, st, o), AgentName(n);
            && k < |calls| && StopsAt(st.mem, agent, st.stepIndex, calls, k)
            && (forall j: nat | j < k :: !StopsAt(st.mem, agent, st.stepIndex, calls, j))
            && st'.mem.history == st.mem.history[agent := LastN(GetOr(st.mem.history, agent, []) + [calls[k].call], 5)]
            && !st'.mem.ue.fired && st'.mem.ue.windows == Rebuilt(st.mem.ue).windows && st'.pending == []
  {
    hide AgentNode, StopsAt, ClosesLoop, ReachesProcessing, RecordsRejection;
    var called, agent, step := WithCalls(cfg, n, st, o), AgentName(n), st.stepIndex;
    var calls, sig := called.pending, SignalsOf(called, agent);
    ProcessingSignals(cfg, n, st, o);
    TurnFollowsBatch(cfg, n, called, sig, o);
    StoppedTurnLeaves(cfg, n, called, sig, o);
    SignalsKeepWindows(called, agent);
    k := EscalatedStopped(st.mem, agent, step, calls, 0);
    StopsAtFirst(st.mem, agent, step, calls, 0, k);
  }
}
