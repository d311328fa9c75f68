/** What a turn makes of the answer its agent sends: what it stores, what it bills, and where it leads. */
module Answers {
  import opened Support
  import opened Orchestrator
  import opened Bookkeeping
  import opened Termination
  import opened TurnMerging
  import opened Recording
  import Uncertainty
  import Keys
  import Counters

  // ---- One turn ----

  /** The agent's input exists, so its node calls it. */
  predicate Runs(n: Node, st: State) {
    n.RunPlanner? || (IsCoder(n) && st.changePlan.Some?) || ((n.RunReviewer? || n.RunQa?) && st.codeEdit.Some?)
  }

  /** What an agent's call comes back with, the value aside. */
  datatype Reply = Answered(bill: Bill) | Blocked | Malformed | Raised

  function Received<T>(turn: Turn<T>): Reply {
    match turn
    case Done(_, bill) => Answered(bill)
    case GuardrailHit => Blocked
    case Invalid => Malformed
    case Crashed => Raised
  }

  /** The reply of the node's agent; a node that does not call it goes on as if it had answered for nothing. */
  function ReplyTo(n: Node, st: State, o: Oracle): Reply
    requires IsAgent(n)
  {
    if !Runs(n, st) then Answered(Bill(0, 0, 0, 0))
    else
      match n
      case RunPlanner => Received(o.plan)
      case RunReviewer => Received(o.review)
      case RunQa => Received(o.report)
      case _ => Received(o.edit)
  }

  function ValueOf<T>(called: bool, turn: Turn<T>): Option<T> {
    if called && turn.Done? then Some(turn.value) else None
  }

  /** A completed turn stores its own agent's answer as it came; nothing else is stored or lost. */
  predicate Stores(n: Node, st: State, o: Oracle, st': State, ended: Ended) {
    && st'.changePlan == (if n.RunPlanner? && ended.Billed? then ValueOf(true, o.plan) else st.changePlan)
    && st'.codeEdit == (if IsCoder(n) && ended.Billed? then ValueOf(Runs(n, st), o.edit) else st.codeEdit)
    && st'.reviewResult == (if n.RunReviewer? && ended.Billed? then ValueOf(Runs(n, st), o.review) else st.reviewResult)
    && st'.testReport == (if n.RunQa? && ended.Billed? then ValueOf(Runs(n, st), o.report) else st.testReport)
  }

  /** What is booked is the bill that came, cached tokens of the Planner aside, and the cap decides by its cost. */
  predicate Bills(cfg: Config, n: Node, st: State, o: Oracle, ended: Ended)
    requires IsAgent(n)
  {
    var reply := ReplyTo(n, st, o);
    && (ended.Overspent? <==> reply.Answered? && st.totals.cost + reply.bill.cost > cfg.maxCost)
    && (ended.Overspent? ==> ended.bill == reply.bill)
    && (ended.Billed? ==>
          reply.Answered? && ended.bill == if n.RunPlanner? then reply.bill.(cached := 0) else reply.bill)
  }

  /** The retry counter counts completed Coder turns; the recorded calls are kept until they are processed. */
  predicate Keeps(n: Node, st: State, st': State, ended: Ended) {
    && Retries(st') == Retries(st) + (if IsCoder(n) && ended.Billed? then 1 else 0)
    && st'.stepIndex == st.stepIndex
    && st'.supervisorSpanId == st.supervisorSpanId
  }

  predicate Honours(cfg: Config, n: Node, st: State, o: Oracle, st': State, ended: Ended)
    requires IsAgent(n)
  {
    Stores(n, st, o, st', ended) && Bills(cfg, n, st, o, ended) && Keeps(n, st, st', ended)
  }

  lemma CountsUp(st: State, updated: State)
    requires updated.stepIndex == st.stepIndex
    requires updated.retryCounters == st.retryCounters[RetryKey(st) := Retries(st) + 1]
    ensures Retries(updated) == Retries(st) + 1
  {
  }

  /** A turn that does not complete stores nothing. */
  predicate Unmoved(st: State, st': State) {
    && st'.changePlan == st.changePlan && st'.codeEdit == st.codeEdit
    && st'.reviewResult == st.reviewResult && st'.testReport == st.testReport
    && st'.retryCounters == st.retryCounters && st'.stepIndex == st.stepIndex
    && st'.supervisorSpanId == st.supervisorSpanId
  }

  lemma UnmovedStores(n: Node, st: State, o: Oracle, st': State, ended: Ended)
    requires Unmoved(st, st') && !ended.Billed?
    ensures Stores(n, st, o, st', ended) && Keeps(n, st, st', ended)
  {
    hide Keys.IntToString;
  }

  lemma FailedTurnUnmoved<T>(st: State, sig: Signals, turn: Turn<T>)
    requires !turn.Done?
    ensures Unmoved(st, FailedTurn(st, sig, turn))
  {
  }

  lemma CloseTurnMoves(st: State, updated: State, agent: string, ue: Uncertainty.Tracker, batch: BatchUpdate, bill: Bill)
    ensures var (st', ended) := CloseTurn(st, updated, agent, ue, batch, bill);
            if ended.Billed? then ended.bill == bill && Unmoved(updated, st')
            else ended.Unbilled? && Unmoved(st, st')
  {
  }

  lemma PlannerHonours(cfg: Config, st: State, sig: Signals, o: Oracle)
    ensures var (st', ended) := Planner(cfg, st, sig, o); Honours(cfg, RunPlanner, st, o, st', ended)
  {
    hide Keys.IntToString;
  }

  lemma CoderHonours(cfg: Config, st: State, sig: Signals, o: Oracle)
    ensures var (st', ended) := Coder(cfg, st, sig, o); Honours(cfg, RunCoder, st, o, st', ended)
  {
    hide Keys.IntToString, CloseTurn, FailedTurn;
    if st.changePlan.Some? && !o.edit.Done? {
      FailedTurnUnmoved(st, sig, o.edit);
    } else {
      var (edit, bill) := Result(st.changePlan.Some?, o.edit);
      var updated := st.(codeEdit := edit, retryCounters := st.retryCounters[RetryKey(st) := Retries(st) + 1]);
      CountsUp(st, updated);
      CloseTurnMoves(st, updated, "coder", sig.success, sig.batch, bill);
      var (st', ended) := CloseTurn(st, updated, "coder", sig.success, sig.batch, bill);
      assert if ended.Billed? then st'.codeEdit == edit else Unmoved(st, st');
    }
  }

  lemma ReviewerHonours(cfg: Config, st: State, sig: Signals, o: Oracle)
    ensures var (st', ended) := Reviewer(cfg, st, sig, o); Honours(cfg, RunReviewer, st, o, st', ended)
  {
    hide Keys.IntToString, CloseTurn, FailedTurn;
    if st.codeEdit.Some? && !o.review.Done? {
      FailedTurnUnmoved(st, sig, o.review);
    } else {
      var (review, bill) := Result(st.codeEdit.Some?, o.review);
      var updated := st.(reviewResult := review);
      var rejection := if review == Some(RejectWithChanges) then sig.rejection else NoUpdate;
      var ue := if rejection.Synced? then rejection.ue else sig.success;
      CloseTurnMoves(st, updated, "reviewer", ue, sig.batch, bill);
      var (st', ended) := CloseTurn(st, updated, "reviewer", ue, sig.batch, bill);
      assert if ended.Billed? then st'.reviewResult == review else Unmoved(st, st');
    }
  }

  lemma QaHonours(cfg: Config, st: State, sig: Signals, o: Oracle)
    ensures var (st', ended) := Qa(cfg, st, sig, o); Honours(cfg, RunQa, st, o, st', ended)
  {
    hide Keys.IntToString, CloseTurn, FailedTurn;
    if st.codeEdit.Some? && !o.report.Done? {
      FailedTurnUnmoved(st, sig, o.report);
    } else {
      var (report, bill) := Result(st.codeEdit.Some?, o.report);
      CloseTurnMoves(st, st.(testReport := report), "qa", sig.success, sig.batch, bill);
      var (st', ended) := CloseTurn(st, st.(testReport := report), "qa", sig.success, sig.batch, bill);
      assert if ended.Billed? then st'.testReport == report else Unmoved(st, st');
    }
  }

  lemma AccumulateMoves(updated: State, agent: string, bill: Bill)
    ensures Unmoved(updated, Accumulate(updated, agent, bill))
  {
  }

  lemma HybridCoderHonours(cfg: Config, n: Node, st: State, o: Oracle, peer: bool)
    requires IsCoder(n)
    ensures var (st', ended) := HybridCoder(cfg, st, o, peer); Honours(cfg, n, st, o, st', ended)
  {
    hide Keys.IntToString, Accumulate;
    if st.changePlan.None? || o.edit.Done? {
      var (edit, bill) := Result(st.changePlan.Some?, o.edit);
      var updated := st.(codeEdit := edit,
                         retryCounters := st.retryCounters[RetryKey(st) := Retries(st) + 1],
                         peerHandoffCount := st.peerHandoffCount + if peer then 1 else 0);
      CountsUp(st, updated);
      AccumulateMoves(updated, "coder", bill);
    }
  }

  lemma HybridReviewerHonours(cfg: Config, st: State, o: Oracle)
    ensures var (st', ended) := HybridReviewer(cfg, st, o); Honours(cfg, RunReviewer, st, o, st', ended)
  {
    hide Keys.IntToString, Accumulate, IsPeerLoop;
    if st.codeEdit.None? || o.review.Done? {
      var (review, bill) := Result(st.codeEdit.Some?, o.review);
      var again := IsPeerLoop(st) && review == Some(RejectWithChanges);
      var updated := st.(reviewResult := review, lastReviewerSpanId := o.spanId,
                         peerHandoffCount := st.peerHandoffCount + if again then 1 else 0);
      AccumulateMoves(updated, "reviewer", bill);
    }
  }

  /** Every agent turn, in either topology, honours the answer its agent sends. */
  lemma TurnHonoursAnswer(cfg: Config, n: Node, st: State, o: Oracle)
    requires IsAgent(n)
    ensures var (st', ended) := RunAgent(cfg, n, st, o); Honours(cfg, n, st, o, st', ended)
  {
    hide Planner, Qa, Coder, Reviewer, HybridCoder, HybridReviewer, SignalsOf, Honours;
    var called := WithCalls(cfg, n, st, o);
    var sig := SignalsOf(called, AgentName(n));
    var (st', ended) := AgentNode(cfg, n, called, sig, o);
    match n {
      case RunPlanner => PlannerHonours(cfg, called, sig, o);
      case RunQa => QaHonours(cfg, called, sig, o);
      case RunPeerCoder => HybridCoderHonours(cfg, n, called, o, true);
      case RunCoder => CoderHonours(cfg, called, sig, o); HybridCoderHonours(cfg, n, called, o, false);
      case RunReviewer => ReviewerHonours(cfg, called, sig, o); HybridReviewerHonours(cfg, called, o);
    }
    CallsChangeNoAnswer(cfg, n, st, called, o, st', ended);
  }

  lemma CallsChangeNoAnswer(cfg: Config, n: Node, st: State, called: State, o: Oracle, st': State, ended: Ended)
    requires IsAgent(n) && called == st.(pending := called.pending) && Honours(cfg, n, called, o, st', ended)
    ensures Honours(cfg, n, st, o, st', ended)
  {
  }

  // ---- Where a turn leads ----

  /** Planner, first hybrid Coder and hybrid Reviewer do not tell guardrail violations from other exceptions. */
  predicate Guarded(cfg: Config, n: Node) {
    n.RunPeerCoder? || Processes(cfg, n)
  }

  predicate Stopped(st': State) {
    st'.outcome.SandboxFailure? && st'.status.Failed?
  }

  predicate GoesOn(st': State) {
    st'.outcome.NoOutcome? && st'.status.Running?
  }

  /** What status and outcome say after a turn, by the reply. */
  predicate Ends(cfg: Config, n: Node, st: State, o: Oracle, st': State, ended: Ended)
    requires IsAgent(n)
  {
    var reply := ReplyTo(n, st, o);
    && (ended.Billed? ==> GoesOn(st'))
    && (ended.Overspent? ==> st'.outcome.CostBudgetExhausted?)
    && (reply.Answered? && ended.Unbilled? ==> st'.outcome.LoopDetectedOutcome? || st'.outcome.UncertaintyEscalation?)
    && (reply.Raised? ==> Stopped(st'))
    && (reply.Blocked? ==> if Guarded(cfg, n) then st'.outcome.GuardrailBlock? else Stopped(st'))
    && (reply.Malformed? ==>
          || Stopped(st')
          || (Counters.Validates(cfg, n) && (st'.outcome.UncertaintyEscalation? || GoesOn(st'))))
  }

  lemma FailedTurnEnds<T>(st: State, sig: Signals, turn: Turn<T>)
    requires !turn.Done? && st.status.Running? && st.outcome.NoOutcome?
    ensures var st' := FailedTurn(st, sig, turn);
            && (turn.GuardrailHit? ==> st'.outcome.GuardrailBlock?) && (turn.Crashed? ==> Stopped(st'))
            && (turn.Invalid? ==> st'.outcome.UncertaintyEscalation? || Stopped(st') || GoesOn(st'))
  {
  }

  lemma CloseTurnEnds(st: State, updated: State, agent: string, ue: Uncertainty.Tracker, batch: BatchUpdate, bill: Bill)
    requires updated.status.Running? && updated.outcome.NoOutcome?
    ensures var (st', ended) := CloseTurn(st, updated, agent, ue, batch, bill);
            if ended.Billed? then GoesOn(st')
            else ended.Unbilled? && (st'.outcome.LoopDetectedOutcome? || st'.outcome.UncertaintyEscalation?)
  {
  }

  lemma PlannerEnds(cfg: Config, st: State, sig: Signals, o: Oracle)
    requires st.status.Running? && st.outcome.NoOutcome?
    ensures var (st', ended) := Planner(cfg, st, sig, o); Ends(cfg, RunPlanner, st, o, st', ended)
  {
  }

  lemma CoderEnds(cfg: Config, st: State, sig: Signals, o: Oracle)
    requires cfg.topology.SupervisorOnly? && st.status.Running? && st.outcome.NoOutcome?
    ensures var (st', ended) := Coder(cfg, st, sig, o); Ends(cfg, RunCoder, st, o, st', ended)
  {
    hide RetryKey, Retries, CloseTurn, FailedTurn;
    if st.changePlan.Some? && !o.edit.Done? {
      FailedTurnEnds(st, sig, o.edit);
    } else {
      var (edit, bill) := Result(st.changePlan.Some?, o.edit);
      var updated := st.(codeEdit := edit, retryCounters := st.retryCounters[RetryKey(st) := Retries(st) + 1]);
      CloseTurnEnds(st, updated, "coder", sig.success, sig.batch, bill);
    }
  }

  lemma ReviewerEnds(cfg: Config, st: State, sig: Signals, o: Oracle)
    requires cfg.topology.SupervisorOnly? && st.status.Running? && st.outcome.NoOutcome?
    ensures var (st', ended) := Reviewer(cfg, st, sig, o); Ends(cfg, RunReviewer, st, o, st', ended)
  {
    hide CloseTurn, FailedTurn;
    if st.codeEdit.Some? && !o.review.Done? {
      FailedTurnEnds(st, sig, o.review);
    } else {
      var (review, bill) := Result(st.codeEdit.Some?, o.review);
      var updated := st.(reviewResult := review);
      CloseTurnEnds(st, updated, "reviewer", sig.success, sig.batch, bill);
      if sig.rejection.Synced? {
        CloseTurnEnds(st, updated, "reviewer", sig.rejection.ue, sig.batch, bill);
      }
    }
  }

  lemma QaEnds(cfg: Config, st: State, sig: Signals, o: Oracle)
    requires st.status.Running? && st.outcome.NoOutcome?
    ensures var (st', ended) := Qa(cfg, st, sig, o); Ends(cfg, RunQa, st, o, st', ended)
  {
    hide CloseTurn, FailedTurn;
    if st.codeEdit.Some? && !o.report.Done? {
      FailedTurnEnds(st, sig, o.report);
    } else {
      var (report, bill) := Result(st.codeEdit.Some?, o.report);
      CloseTurnEnds(st, st.(testReport := report), "qa", sig.success, sig.batch, bill);
    }
  }

  lemma HybridCoderEnds(cfg: Config, n: Node, st: State, o: Oracle)
    requires IsCoder(n) && cfg.topology.Hybrid? && st.status.Running? && st.outcome.NoOutcome?
    ensures var (st', ended) := HybridCoder(cfg, st, o, n.RunPeerCoder?); Ends(cfg, n, st, o, st', ended)
  {
    hide RetryKey, Retries;
  }

  lemma HybridReviewerEnds(cfg: Config, st: State, o: Oracle)
    requires cfg.topology.Hybrid? && st.status.Running? && st.outcome.NoOutcome?
    ensures var (st', ended) := HybridReviewer(cfg, st, o); Ends(cfg, RunReviewer, st, o, st', ended)
  {
  }

  lemma TurnEnds(cfg: Config, n: Node, st: State, o: Oracle)
    requires IsAgent(n) && st.status.Running? && st.outcome.NoOutcome?
    requires n.RunPeerCoder? ==> cfg.topology.Hybrid?
    ensures var (st', ended) := RunAgent(cfg, n, st, o); Ends(cfg, n, st, o, st', ended)
  {
    hide Planner, Qa, Coder, Reviewer, HybridCoder, HybridReviewer, SignalsOf;
    var called := WithCalls(cfg, n, st, o);
    var sig := SignalsOf(called, AgentName(n));
    match n
    case RunPlanner => PlannerEnds(cfg, called, sig, o);
    case RunQa => QaEnds(cfg, called, sig, o);
    case RunPeerCoder => HybridCoderEnds(cfg, n, called, o);
    case RunCoder =>
      if cfg.topology.Hybrid? {
        HybridCoderEnds(cfg, n, called, o);
      } else {
        CoderEnds(cfg, called, sig, o);
      }
    case RunReviewer =>
      if cfg.topology.Hybrid? {
        HybridReviewerEnds(cfg, called, o);
      } else {
        ReviewerEnds(cfg, called, sig, o);
      }
  }

  /**
   * A failed validation that is counted escalates as the third since the last clearing turn; before that it fails the
   * Planner's task and lets the others go on.
   */
  lemma InvalidTurnEnds(cfg: Config, n: Node, st: State, o: Oracle)
    requires IsAgent(n) && Counters.Validates(cfg, n) && ReplyTo(n, st, o).Malformed?
    requires st.status.Running? && st.outcome.NoOutcome? && !st.mem.ue.fired
    ensures var st' := RunAgent(cfg, n, st, o).0;
            if ValidationFailures(st, AgentName(n)) >= 2 then st'.outcome.UncertaintyEscalation?
            else if n.RunPlanner? then Stopped(st')
            else GoesOn(st')
  {
    hide SignalsOf, CloseTurn;
    Counters.FailureKind(WithCalls(cfg, n, st, o), AgentName(n));
  }
}
