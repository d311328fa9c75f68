/** What the validation and rejection counters of a run count, turn by turn, and when they escalate. */
module Counters {
  import opened Support
  import opened Orchestrator
  import opened TaskRun
  import opened Bookkeeping
  import opened Recording
  import opened TurnMerging
  import Keys
  import Termination
  import Uncertainty

  // ---- Counting turns ----

  /** Nodes whose validation results are counted: not the hybrid Coders and Reviewer. */
  predicate Validates(cfg: Config, n: Node) {
    n.RunPlanner? || Processes(cfg, n)
  }

  /** A Reviewer turn that completed with a rejection of a fix that has a hash. */
  predicate RejectsFix(t: TurnRecord) {
    t.node.RunReviewer? && t.ended.Billed? && t.review == Some(RejectWithChanges) && t.hash != ""
  }

  /** A completed turn clears its agent's failures: it processed no call and recorded no rejection. */
  predicate Clears(t: TurnRecord) {
    t.ended.Billed? && (t.node.RunPlanner? || (t.calls == [] && !RejectsFix(t)))
  }

  /** Failed validations of an agent since its last clearing turn. */
  function Failures(cfg: Config, turns: seq<TurnRecord>, agent: string): nat {
    if turns == [] then 0
    else
      var before, t := Failures(cfg, turns[..|turns| - 1], agent), turns[|turns| - 1];
      if !IsTurnOf(t, agent) || !Validates(cfg, t.node) then before
      else if t.invalid then before + 1
      else if Clears(t) then 0
      else before
  }

  /** Rejections of a fix in Reviewer turns that processed no call. */
  function Rejected(cfg: Config, turns: seq<TurnRecord>, hash: string): nat {
    if turns == [] then 0
    else
      var t := turns[|turns| - 1];
      Rejected(cfg, turns[..|turns| - 1], hash)
      + if Processes(cfg, t.node) && RejectsFix(t) && t.hash == hash && t.calls == [] then 1 else 0
  }

  ghost predicate Counted(cfg: Config, st: State, turns: seq<TurnRecord>) {
    && !st.mem.ue.fired
    && (forall a :: ValidationFailures(st, a) == Failures(cfg, turns, a))
    && (forall h :: h != "" ==> Rejections(st, h) == Rejected(cfg, turns, h))
  }

  // ---- One turn ----

  /** How a turn that leads on moves the counters. */
  ghost predicate TurnCounts(cfg: Config, st: State, st': State, t: TurnRecord) {
    && !st'.mem.ue.fired
    && (forall a :: ValidationFailures(st', a)
                    == if !IsTurnOf(t, a) || !Validates(cfg, t.node) then ValidationFailures(st, a)
                       else if t.invalid then ValidationFailures(st, a) + 1
                       else if Clears(t) then 0
                       else ValidationFailures(st, a))
    && (forall h :: h != "" ==>
          Rejections(st', h)
          == Rejections(st, h)
             + if Processes(cfg, t.node) && RejectsFix(t) && t.hash == h && t.calls == [] then 1 else 0)
  }

  /** What the per-node proofs need of a turn's signals. */
  predicate Signalled(st: State, agent: string, sig: Signals) {
    var t, key := st.mem.ue, Keys.StepKey(agent, st.stepIndex);
    && !t.fired && MoveCounters(t, key, sig) && KeepFlag(t, sig)
    && (sig.batch.NoChange? <==> st.pending == [])
    && (sig.rejection.NoUpdate? <==> DiffHash(st) == "")
    && (sig.rejection.Synced? ==>
          Rejections(st, DiffHash(st)) == 0 && sig.rejection.ue.rejected == t.rejected[DiffHash(st) := 1])
  }

  lemma SignalsAreSignalled(st: State, agent: string)
    requires !st.mem.ue.fired
    ensures Signalled(st, agent, SignalsOf(st, agent))
  {
    hide RecordedPydanticSuccess, RecordedPydanticFailure, Process;
    SignalsAlwaysFit(st, agent);
    BatchSignal(st, agent);
    RejectionKind(st, agent);
    if DiffHash(st) != "" {
      RejectionSignal(st, agent, DiffHash(st));
    }
  }

  /** The tracker after a turn, in the four ways a turn can lead on. */
  predicate Moved(st: State, agent: string, t: TurnRecord, t': Uncertainty.Tracker) {
    var ue, key := st.mem.ue, Keys.StepKey(agent, st.stepIndex);
    && !t'.fired
    && (if t.invalid then
          t'.pydantic == ue.pydantic[key := GetOr(ue.pydantic, key, 0) + 1] && t'.rejected == ue.rejected
        else if Clears(t) then t'.pydantic == ue.pydantic - {key} && t'.rejected == ue.rejected
        else
          && t'.pydantic == ue.pydantic
          && t'.rejected == if RejectsFix(t) && t.calls == [] then ue.rejected[t.hash := 1] else ue.rejected)
  }

  lemma MovedCounts(cfg: Config, st: State, st': State, agent: string, t: TurnRecord)
    requires Validates(cfg, t.node) && AgentName(t.node) == agent && st'.stepIndex == st.stepIndex
    requires Moved(st, agent, t, st'.mem.ue)
    requires RejectsFix(t) && t.calls == [] && !t.invalid ==> Rejections(st, t.hash) == 0
    requires t.invalid ==> !t.ended.Billed?
    ensures TurnCounts(cfg, st, st', t)
  {
    hide Keys.StepKey;
    forall a ensures Keys.StepKey(a, st.stepIndex) == Keys.StepKey(agent, st.stepIndex) <==> a == agent {
      Keys.StepKeyInjective(a, st.stepIndex, agent, st.stepIndex);
    }
  }

  /** Record t of a turn of node n from a state that has its calls already. */
  predicate Describes(n: Node, st: State, o: Oracle, st': State, ended: Ended, t: TurnRecord) {
    && t.node == n && t.ended == ended && t.review == st'.reviewResult
    && t.calls == st.pending && t.hash == DiffHash(st) && t.invalid == AnswerInvalid(n, st, o)
  }

  /** A turn that leads on: its tracker moved as its record says, and a counted rejection is the first of its fix. */
  predicate LeadsOn(st: State, st': State, agent: string, t: TurnRecord) {
    RouteHalts(st').None? ==>
      && st'.stepIndex == st.stepIndex && Moved(st, agent, t, st'.mem.ue)
      && (RejectsFix(t) && t.calls == [] && !t.invalid ==> Rejections(st, t.hash) == 0)
      && (t.invalid ==> !t.ended.Billed?)
  }

  lemma FailedMoves<T>(st: State, sig: Signals, turn: Turn<T>, agent: string, t: TurnRecord)
    requires Signalled(st, agent, sig) && !turn.Done? && t.ended.Unbilled? && t.invalid == turn.Invalid?
    ensures LeadsOn(st, FailedTurn(st, sig, turn), agent, t)
  {
    hide Keys.StepKey;
  }

  /** The tail of a completed turn: the batch's tracker if there were calls, else the one passed in. */
  lemma ClosedMoves(st: State, updated: State, agent: string, ue: Uncertainty.Tracker, sig: Signals, bill: Bill,
                    t: TurnRecord)
    requires Signalled(st, agent, sig) && updated.status.Running? && updated.outcome.NoOutcome?
    requires updated.stepIndex == st.stepIndex && !t.invalid && t.calls == st.pending && t.hash == DiffHash(st)
    requires t.ended == CloseTurn(st, updated, agent, ue, sig.batch, bill).1 && !t.node.RunPlanner?
    requires t.ended.Billed? ==>
               if RejectsFix(t) then sig.rejection.Synced? && ue == sig.rejection.ue else ue == sig.success
    ensures LeadsOn(st, CloseTurn(st, updated, agent, ue, sig.batch, bill).0, agent, t)
  {
    hide Keys.StepKey;
  }

  lemma CoderMoves(cfg: Config, st: State, sig: Signals, o: Oracle, t: TurnRecord)
    requires Signalled(st, "coder", sig) && st.status.Running? && st.outcome.NoOutcome?
    requires var (st', ended) := Coder(cfg, st, sig, o); Describes(RunCoder, st, o, st', ended, t)
    ensures LeadsOn(st, Coder(cfg, st, sig, o).0, "coder", t)
  {
    hide FailedTurn, CloseTurn, LeadsOn, Signalled, Retries, RetryKey;
    if st.changePlan.Some? && !o.edit.Done? {
      FailedMoves(st, sig, o.edit, "coder", t);
    } else {
      var (edit, bill) := Result(st.changePlan.Some?, o.edit);
      if OverBudget(cfg, st, bill) {
        ExhaustedHalts(st, bill, "coder", t);
      } else {
        var updated := st.(codeEdit := edit, retryCounters := st.retryCounters[RetryKey(st) := Retries(st) + 1]);
        ClosedMoves(st, updated, "coder", sig.success, sig, bill, t);
      }
    }
  }

  lemma ExhaustedHalts(st: State, bill: Bill, agent: string, t: TurnRecord)
    ensures LeadsOn(st, Exhausted(st, bill), agent, t)
  {
    hide Moved;
  }

  lemma ReviewerMoves(cfg: Config, st: State, sig: Signals, o: Oracle, t: TurnRecord)
    requires Signalled(st, "reviewer", sig) && st.status.Running? && st.outcome.NoOutcome?
    requires var (st', ended) := Reviewer(cfg, st, sig, o); Describes(RunReviewer, st, o, st', ended, t)
    ensures LeadsOn(st, Reviewer(cfg, st, sig, o).0, "reviewer", t)
  {
    hide FailedTurn, LeadsOn, MoveCounters, KeepFlag;
    if st.codeEdit.Some? && !o.review.Done? {
      FailedMoves(st, sig, o.review, "reviewer", t);
    } else {
      var (review, bill) := Result(st.codeEdit.Some?, o.review);
      var rejection := if review == Some(RejectWithChanges) then sig.rejection else NoUpdate;
      if OverBudget(cfg, st, bill) {
        ExhaustedHalts(st, bill, "reviewer", t);
      } else if rejection.Escalation? {
        EscalatedHalts(st, rejection.ue, "reviewer", t);
      } else {
        var ue := if rejection.Synced? then rejection.ue else sig.success;
        ClosedMoves(st, st.(reviewResult := review), "reviewer", ue, sig, bill, t);
      }
    }
  }

  lemma EscalatedHalts(st: State, ue: Uncertainty.Tracker, agent: string, t: TurnRecord)
    ensures LeadsOn(st, WithTracker(Escalated(st, UncertaintyEscalation), ue), agent, t)
  {
    hide Moved;
  }

  lemma PlannerMoves(cfg: Config, st: State, sig: Signals, o: Oracle, t: TurnRecord)
    requires Signalled(st, "planner", sig) && st.status.Running? && st.outcome.NoOutcome?
    requires var (st', ended) := Planner(cfg, st, sig, o); Describes(RunPlanner, st, o, st', ended, t)
    ensures LeadsOn(st, Planner(cfg, st, sig, o).0, "planner", t)
  {
    hide Keys.StepKey;
  }

  lemma QaHalts(cfg: Config, st: State)
    ensures !BeforeQa(Next(cfg, RunQa, st))
  {
  }

  /** A hybrid Coder or Reviewer that leads on leaves the tracker alone. */
  lemma HybridMoves(cfg: Config, n: Node, st: State, o: Oracle)
    requires cfg.topology.Hybrid? && (n.RunCoder? || n.RunPeerCoder? || n.RunReviewer?)
    ensures var st' := if n.RunReviewer? then HybridReviewer(cfg, st, o).0
                       else HybridCoder(cfg, st, o, n.RunPeerCoder?).0;
            st'.mem == st.mem && st'.stepIndex == st.stepIndex
  {
  }

  /** A turn that leads to another agent moves the counters as its record says. */
  lemma AgentCounts(cfg: Config, n: Node, st: State, o: Oracle) returns (st': State, ended: Ended)
    requires IsAgent(n) && st.status.Running? && st.outcome.NoOutcome? && !st.mem.ue.fired
    requires cfg.topology.SupervisorOnly? ==> !n.RunPeerCoder?
    ensures (st', ended) == RunAgent(cfg, n, st, o)
    ensures BeforeQa(Next(cfg, n, st')) ==> TurnCounts(cfg, st, st', RecordOf(cfg, n, st, o, st', ended))
  {
    hide Planner, Qa, Coder, Reviewer, HybridCoder, HybridReviewer, SignalsOf, Signalled, LeadsOn, TurnCounts;
    var called, agent := WithCalls(cfg, n, st, o), AgentName(n);
    var sig := SignalsOf(called, agent);
    var r := AgentNode(cfg, n, called, sig, o);
    st', ended := r.0, r.1;
    var t := RecordOf(cfg, n, st, o, st', ended);
    SignalsAreSignalled(called, agent);
    match n {
      case RunPlanner =>
        PlannerMoves(cfg, called, sig, o, t);
        LedOnCounts(cfg, st, called, st', agent, t);
      case RunQa => QaHalts(cfg, st');
      case RunPeerCoder =>
        HybridMoves(cfg, n, called, o);
        UntouchedCounts(cfg, st, st', t);
      case RunCoder =>
        if cfg.topology.Hybrid? {
          HybridMoves(cfg, n, called, o);
          UntouchedCounts(cfg, st, st', t);
        } else {
          CoderMoves(cfg, called, sig, o, t);
          LedOnCounts(cfg, st, called, st', agent, t);
        }
      case RunReviewer =>
        if cfg.topology.Hybrid? {
          HybridMoves(cfg, n, called, o);
          UntouchedCounts(cfg, st, st', t);
        } else {
          ReviewerMoves(cfg, called, sig, o, t);
          LedOnCounts(cfg, st, called, st', agent, t);
        }
    }
  }

  lemma UntouchedCounts(cfg: Config, st: State, st': State, t: TurnRecord)
    requires !Validates(cfg, t.node) && st'.mem == st.mem && st'.stepIndex == st.stepIndex && !st.mem.ue.fired
    ensures TurnCounts(cfg, st, st', t)
  {
  }

  lemma LedOnCounts(cfg: Config, st: State, called: State, st': State, agent: string, t: TurnRecord)
    requires Validates(cfg, t.node) && AgentName(t.node) == agent
    requires called == st.(pending := called.pending) && LeadsOn(called, st', agent, t)
    ensures BeforeQa(Next(cfg, t.node, st')) ==> TurnCounts(cfg, st, st', t)
  {
    hide Moved, RejectsFix, Clears, TurnCounts;
    if BeforeQa(Next(cfg, t.node, st')) {
      MovedCounts(cfg, called, st', agent, t);
      CalledCounts(cfg, st, called, st', t);
    }
  }

  lemma CalledCounts(cfg: Config, st: State, called: State, st': State, t: TurnRecord)
    requires called == st.(pending := called.pending) && TurnCounts(cfg, called, st', t)
    ensures TurnCounts(cfg, st, st', t)
  {
    hide RejectsFix, Clears;
  }

  // ---- Whole runs ----

  lemma TurnKeepsCounted(cfg: Config, st: State, st': State, turns: seq<TurnRecord>, t: TurnRecord)
    requires Counted(cfg, st, turns) && TurnCounts(cfg, st, st', t)
    ensures Counted(cfg, st', turns + [t])
  {
    hide RejectsFix, Clears;
    assert (turns + [t])[..|turns|] == turns;
  }

  /** The counters stand for the turns whenever an agent is still to come. */
  ghost predicate Current(cfg: Config, w: World) {
    w.phase.At? && BeforeQa(w.phase.node) ==> Counted(cfg, w.st, w.turns)
  }

  lemma OtherEventsKeepCurrent(cfg: Config, w: World, e: Event)
    requires Current(cfg, w) && Consistent(cfg, w) && (e.Tick? && w.phase.At? ==> !IsAgent(w.phase.node))
    ensures Current(cfg, Handle(cfg, w, e))
  {
    hide RunAgent, Failures, Rejected, Completion, BeforeInterrupt, AfterApproval, FinishTask;
  }

  lemma {:induction false} AlwaysCurrent(cfg: Config, es: seq<Event>)
    ensures Current(cfg, After(cfg, es))
  {
    hide Counted, TurnCounts, RunAgent, Termination.Counted;
    if es == [] {
      StartCurrent(cfg);
    } else {
      var init, e := es[..|es| - 1], es[|es| - 1];
      var w := After(cfg, init);
      AlwaysCurrent(cfg, init);
      AlwaysConsistent(cfg, init);
      if e.Tick? && w.phase.At? && IsAgent(w.phase.node) {
        var n := w.phase.node;
        Termination.AlwaysCounted(cfg, init);
        AgentFacts(cfg, w);
        var st', ended := AgentCounts(cfg, n, w.st, e.o);
        if BeforeQa(Next(cfg, n, st')) {
          TurnKeepsCounted(cfg, w.st, st', w.turns, RecordOf(cfg, n, w.st, e.o, st', ended));
        }
      } else {
        OtherEventsKeepCurrent(cfg, w, e);
      }
    }
  }

  lemma AgentFacts(cfg: Config, w: World)
    requires Current(cfg, w) && Consistent(cfg, w) && Termination.Counted(cfg, w) && w.phase.At? && IsAgent(w.phase.node)
    ensures Counted(cfg, w.st, w.turns) && !w.st.mem.ue.fired && w.st.status.Running? && w.st.outcome.NoOutcome?
    ensures cfg.topology.SupervisorOnly? ==> !w.phase.node.RunPeerCoder?
  {
  }

  lemma StartCurrent(cfg: Config)
    ensures Current(cfg, START_WORLD)
  {
  }

  /** Whenever an agent is about to run, each counter is what it counts over the turns so far. */
  lemma CountersCountTurns(cfg: Config, es: seq<Event>, agent: string, hash: string)
    requires After(cfg, es).phase.At? && IsAgent(After(cfg, es).phase.node)
    ensures var w := After(cfg, es);
            && ValidationFailures(w.st, agent) == Failures(cfg, w.turns, agent)
            && (hash != "" ==> Rejections(w.st, hash) == Rejected(cfg, w.turns, hash))
            && !w.st.mem.ue.fired
  {
    AlwaysCurrent(cfg, es);
  }

  /** An answer that fails validation escalates exactly when the agent failed twice since its last clearing turn. */
  lemma FailedAnswerEscalatesIff(cfg: Config, es: seq<Event>, o: Oracle)
    requires var w := After(cfg, es);
             w.phase.At? && IsAgent(w.phase.node) && Validates(cfg, w.phase.node) && AnswerInvalid(w.phase.node, w.st, o)
    ensures var w := After(cfg, es);
            RunAgent(cfg, w.phase.node, w.st, o).0.outcome.UncertaintyEscalation?
            <==> Failures(cfg, w.turns, AgentName(w.phase.node)) >= 2
  {
    hide After, Failures, Consistent;
    var w := After(cfg, es);
    CountersCountTurns(cfg, es, AgentName(w.phase.node), "");
    AlwaysConsistent(cfg, es);
    Termination.RunningAtAgent(cfg, w);
    InvalidEscalatesIff(cfg, w.phase.node, w.st, o);
  }

  lemma InvalidEscalatesIff(cfg: Config, n: Node, st: State, o: Oracle)
    requires IsAgent(n) && Validates(cfg, n) && AnswerInvalid(n, st, o) && st.outcome.NoOutcome? && !st.mem.ue.fired
    ensures RunAgent(cfg, n, st, o).0.outcome.UncertaintyEscalation? <==> ValidationFailures(st, AgentName(n)) >= 2
  {
    hide SignalsOf, CloseTurn;
    var called := WithCalls(cfg, n, st, o);
    FailureKind(called, AgentName(n));
  }

  lemma FailureKind(st: State, agent: string)
    requires !st.mem.ue.fired
    ensures var f := SignalsOf(st, agent).failure;
            if ValidationFailures(st, agent) >= 2 then f.Escalation? else f.Synced?
  {
    var t, key := st.mem.ue, Keys.StepKey(agent, st.stepIndex);
    var n := GetOr(t.pydantic, key, 0) + 1;
    assert GetOr(t.pydantic[key := n], key, 0) == n;
  }

  /**
   * In a run, a rejection within budget escalates as uncertain exactly when its fix was counted before, or its
   * calls do.
   */
  lemma RunRejectionEscalatesIff(cfg: Config, es: seq<Event>, o: Oracle, hash: string)
    requires cfg.topology.SupervisorOnly? && After(cfg, es).phase == At(RunReviewer)
    requires var st := After(cfg, es).st; hash != "" && Rejects(st, o, hash) && !OverBudget(cfg, st, o.review.bill)
    ensures var w := After(cfg, es);
            RunAgent(cfg, RunReviewer, w.st, o).0.outcome.UncertaintyEscalation?
            <==> Rejected(cfg, w.turns, hash) > 0 || BatchEscalates(cfg, RunReviewer, w.st, o)
  {
    hide After, Rejected, Consistent, RunAgent, BatchEscalates;
    CountersCountTurns(cfg, es, "reviewer", hash);
    AlwaysConsistent(cfg, es);
    Termination.RunningAtAgent(cfg, After(cfg, es));
    RejectionEscalatesIff(cfg, After(cfg, es).st, o, hash);
  }
}
