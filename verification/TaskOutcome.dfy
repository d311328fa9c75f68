/** What the task row says once a run is over, compared with what happened. */
module TaskOutcome {
  import opened Support
  import opened Orchestrator
  import opened TaskRun

  /** The graph state on the way to an undecided end: it failed, with the outcome of the halt node. */
  predicate Halting(n: Node, st: State) {
    match n
    case End =>
      && st.status.Failed?
      && (st.outcome.CostBudgetExhausted? || st.outcome.SandboxFailure? || st.outcome.PersistentTestFailureOutcome?)
    case HaltCostBudget => st.outcome.CostBudgetExhausted?
    case HaltTaskFailed => st.outcome.SandboxFailure?
    case _ => true
  }

  /** The graph state on the way to the end of an approved run. */
  predicate Resolving(n: Node, checkpoint: Node, st: State) {
    match n
    case End =>
      if checkpoint.HitlPrePr? then
        || (st.outcome.PrOpened? && st.status.Completed? && st.prUrl != "")
        || st.outcome.GithubDeliveryFailed?
      else st.outcome.NoOutcome? && st.status.Running?
    case _ => true
  }

  /** The outcome rows a checkpoint leaves each time its node runs up to the interrupt. */
  function Escalations(checkpoint: Node): seq<Outcome> {
    if checkpoint.HaltRetryExhausted? then [RetryBudgetExhausted] else []
  }

  /** The row of a task whose graph is over, and its outcome rows, by what was decided. */
  predicate FinalRow(w: World) {
    if w.acts == [] then
      // Never decided: failed, unless the outcome is not one the row accepts.
      && w.row.hitlDecision.None? && w.row.prUrl == ""
      && if w.st.outcome.PersistentTestFailureOutcome? then w.row.status.RowRunning? && w.row.outcomes == []
         else
           && w.row.status.RowFailed? && w.row.outcomes == [w.st.outcome]
           && (w.st.outcome.CostBudgetExhausted? || w.st.outcome.SandboxFailure?)
    else if w.acts[0].Accepted? && w.acts[0].decision.RejectTask? then
      && w.row.status.RowRejected? && w.row.hitlDecision == Some(RejectTask) && w.row.prUrl == ""
      && w.row.outcomes == Escalations(w.acts[0].checkpoint) + [HitlRejected]
    else if w.acts[0] != APPROVED then
      // An approved escalation ends the graph: nothing runs, yet the row says running and the decision is gone.
      // The resumed node ran from its start, so its outcome was written a second time.
      && w.row.status.RowRunning? && w.row.hitlDecision.None? && w.row.prUrl == ""
      && w.acts[0].Accepted?
      && w.row.outcomes == Escalations(w.acts[0].checkpoint) + Escalations(w.acts[0].checkpoint)
    else if w.st.outcome.PrOpened? then
      && w.row.status.RowCompleted? && w.row.hitlDecision.None? && w.row.prUrl == w.st.prUrl && w.row.prUrl != ""
      && w.row.outcomes == [PrOpened]
    else
      // Delivery failed after the approve: the row is never finished.
      && w.row.status.RowRunning? && w.row.hitlDecision == Some(Approve) && w.row.prUrl == ""
      && w.row.outcomes == []
  }

  /** The outcome rows while the graph is not over. */
  predicate OutcomesFit(w: World) {
    match w.phase
    case At(n) =>
      w.row.outcomes == if w.acts != [] && w.acts[0].Accepted?
                        then Escalations(w.acts[0].checkpoint) + Escalations(w.acts[0].checkpoint) else []
    case Paused(n) => w.row.outcomes == Escalations(n)
    case Resuming(n) => w.row.outcomes == Escalations(n)
    case Finished => true
  }

  predicate RowFits(w: World) {
    && (w.phase.Finished? ==> FinalRow(w)) && OutcomesFit(w)
    && (!w.phase.Finished? ==> w.row.prUrl == "" && (w.st.prUrl != "" ==> w.phase == At(End) && w.st.outcome.PrOpened?))
    && (w.phase.Resuming? ==> w.row.hitlDecision == Some(Approve))
    && (w.phase.At? ==>
          var n := w.phase.node;
          && w.row.status.RowRunning?
          && (w.acts == [] ==> w.row.hitlDecision.None? && Halting(n, w.st))
          && (w.acts != [] && w.acts[0].Accepted? && !n.HitlPrePr? ==>
                && w.acts[0].decision.Approve? && w.row.hitlDecision == Some(Approve)
                && Resolving(n, w.acts[0].checkpoint, w.st)))
  }

  lemma AgentKeepsRowFits(cfg: Config, w: World, n: Node, st': State, turns: seq<TurnRecord>)
    requires Consistent(cfg, w) && RowFits(w) && w.phase == At(n) && IsAgent(n) && AgentEffect(n, w.st, st')
    ensures RowFits(w.(st := st', phase := At(Next(cfg, n, st')), turns := turns))
  {
  }

  lemma ResumeKeepsRowFits(cfg: Config, w: World, o: Oracle)
    requires Consistent(cfg, w) && RowFits(w) && w.phase.Resuming?
    ensures RowFits(Advance(cfg, w, o))
  {
    hide RunAgent;
  }

  lemma EndKeepsRowFits(cfg: Config, w: World, o: Oracle)
    requires Consistent(cfg, w) && RowFits(w) && w.phase == At(End)
    ensures RowFits(Advance(cfg, w, o))
  {
    hide RunAgent;
  }

  lemma PlainKeepsRowFits(cfg: Config, w: World, o: Oracle)
    requires Consistent(cfg, w) && RowFits(w) && w.phase.At? && !IsAgent(w.phase.node) && !w.phase.node.End?
    ensures RowFits(Advance(cfg, w, o))
  {
    hide RunAgent;
  }

  lemma DecisionKeepsRowFits(cfg: Config, w: World, d: Decision)
    requires Consistent(cfg, w) && RowFits(w)
    ensures RowFits(DecideOn(w, d))
  {
    hide StateFits;
  }

  lemma {:induction false} AlwaysRowFits(cfg: Config, es: seq<Event>)
    ensures RowFits(After(cfg, es))
  {
    hide RowFits, RunPlain, AgentNode;
    if es == [] {
      assert RowFits(START_WORLD) by { InitialRowFits(); }
    } else {
      var w := After(cfg, es[..|es| - 1]);
      AlwaysConsistent(cfg, es[..|es| - 1]);
      AlwaysRowFits(cfg, es[..|es| - 1]);
      match es[|es| - 1]
      case Decide(d) => DecisionKeepsRowFits(cfg, w, d);
      case Tick(o) =>
        if w.phase.At? && IsAgent(w.phase.node) {
          var st' := RunningAt(cfg, w, o);
          AgentKeepsRowFits(cfg, w, w.phase.node, st', Advance(cfg, w, o).turns);
        } else if w.phase == At(End) {
          EndKeepsRowFits(cfg, w, o);
        } else if w.phase.At? {
          PlainKeepsRowFits(cfg, w, o);
        } else if w.phase.Resuming? {
          ResumeKeepsRowFits(cfg, w, o);
        }
    }
  }

  lemma InitialRowFits()
    ensures RowFits(START_WORLD)
  {
  }

  /** Once the graph is over, the row is exactly what FinalRow says, and no further decision is ever accepted. */
  lemma FinishedTaskRow(cfg: Config, es: seq<Event>)
    requires After(cfg, es).phase.Finished?
    ensures FinalRow(After(cfg, es)) && Respond(After(cfg, es).row) != Ok
  {
    AlwaysRowFits(cfg, es);
    AlwaysConsistent(cfg, es);
  }

  /**
   * What the endpoint answers whenever a request comes in: it accepts at an undecided checkpoint only; afterwards a
   * decision is remembered until a completed graph has overwritten it.
   */
  lemma AnswerToRequest(cfg: Config, es: seq<Event>)
    ensures var w := After(cfg, es);
            Respond(w.row)
            == if w.acts == [] then (if w.phase.Paused? then Ok else NotAwaitingHitl)
               else if w.phase.Finished? && w.acts[0].Accepted? && w.acts[0].decision.Approve?
                       && (w.acts[0] != APPROVED || w.st.outcome.PrOpened?) then NotAwaitingHitl
               else DecisionAlreadyMade
  {
    AlwaysRowFits(cfg, es);
    AlwaysConsistent(cfg, es);
  }

  /** When a resume returns, the row is no longer 'approved': the endpoint's final status repair never applies. */
  lemma StatusRepairIsIdle(cfg: Config, es: seq<Event>)
    requires !After(cfg, es).phase.Resuming?
    ensures !After(cfg, es).row.status.RowApproved?
  {
    AlwaysRowFits(cfg, es);
    AlwaysConsistent(cfg, es);
  }
}
