/** One task as a composed system: graph, task row, graph registry and decision endpoint. */
module TaskRun {
  import opened Support
  import opened Orchestrator
  import opened Bookkeeping
  import opened Recording
  import Uncertainty

  datatype Decision = Approve | RejectTask

  datatype RowStatus = RowRunning | RowAwaitingHitl | RowApproved | RowRejected | RowCompleted | RowFailed

  /**
   * The columns of the task row the protocol uses, and the outcome rows that halt nodes, endpoint and completion
   * write.
   */
  datatype Row = Row(status: RowStatus, hitlDecision: Option<Decision>, prUrl: string, outcomes: seq<Outcome>)

  /** Where graph execution stands; Resuming is a paused node that was handed an approve. */
  datatype Phase = At(node: Node) | Paused(node: Node) | Resuming(node: Node) | Finished

  /** What the outside world can observe of the approval protocol. */
  datatype Act = Accepted(decision: Decision, checkpoint: Node) | CommitAndPushCalled | PullRequestCalled

  /**
   * One finished agent turn: how it ended, its span, the verdict it left, the calls that were pending with its own,
   * the hash of the edit it found, whether its answer failed validation, and the outcome row it wrote.
   */
  datatype TurnRecord = TurnRecord(
    node: Node, ended: Ended, spanId: string, parent: string, review: Option<ReviewVerdict>,
    calls: seq<Recorded>, hash: string, invalid: bool, reported: Option<Outcome>)

  predicate IsTurnOf(t: TurnRecord, agent: string) {
    IsAgent(t.node) && AgentName(t.node) == agent
  }

  datatype World = World(
    phase: Phase,
    st: State,
    row: Row,
    registered: bool,
    acts: seq<Act>,
    turns: seq<TurnRecord>)

  const START_WORLD := World(At(RunSupervisor), INITIAL, Row(RowRunning, None, "", []), true, [], [])

  /** One tick of the graph, or one decision request. */
  datatype Event = Tick(o: Oracle) | Decide(d: Decision)

  // ---- Row updates ----

  /** CreateOutcomeParams rejects outcomes outside this list. */
  predicate ValidOutcome(o: Outcome) {
    || o.PrOpened? || o.HitlRejected? || o.RetryBudgetExhausted? || o.LoopDetectedOutcome?
    || o.UncertaintyEscalation? || o.GuardrailBlock? || o.CostBudgetExhausted? || o.SandboxFailure?
  }

  /** finish_task checks the status, then overwrites all four columns, the decision included. */
  function FinishTask(row: Row, status: Status, decision: Option<Decision>, prUrl: string): Row {
    match status
    case Running => row.(status := RowRunning, hitlDecision := decision, prUrl := prUrl)
    case AwaitingHitl => row.(status := RowAwaitingHitl, hitlDecision := decision, prUrl := prUrl)
    case Rejected => row.(status := RowRejected, hitlDecision := decision, prUrl := prUrl)
    case Failed => row.(status := RowFailed, hitlDecision := decision, prUrl := prUrl)
    case Completed => row.(status := RowCompleted, hitlDecision := decision, prUrl := prUrl)
    case PreHitl => row
  }

  function AddOutcome(row: Row, o: Outcome): Row {
    row.(outcomes := row.outcomes + [o])
  }

  /** Processing of a finished graph: an outcome outside the list raises before the row is finished. */
  function Completion(row: Row, st: State): Row {
    if st.outcome.NoOutcome? then FinishTask(row, st.status, None, st.prUrl)
    else if ValidOutcome(st.outcome) then FinishTask(AddOutcome(row, st.outcome), st.status, None, st.prUrl)
    else row
  }

  /** Row effects of an interrupting node up to its interrupt. */
  function BeforeInterrupt(n: Node, row: Row): Row {
    (if n.HaltRetryExhausted? then AddOutcome(row, RetryBudgetExhausted) else row).(status := RowAwaitingHitl)
  }

  /** Row effects of a resumed node: it reruns from its start, then takes the approve branch. */
  function AfterApproval(n: Node, row: Row): Row {
    var rerun := BeforeInterrupt(n, row);
    if n.HitlPrePr? then rerun.(hitlDecision := Some(Approve), status := RowRunning)
    else rerun.(status := RowRunning)
  }

  // ---- Graph steps ----

  function ActsOf(n: Node, st: State, o: Oracle): seq<Act> {
    if n.CommitAndPush? && !o.commit.NoSandbox? then [CommitAndPushCalled]
    else if n.OpenPr? && AsksForPr(st, o) then [PullRequestCalled]
    else []
  }

  function ParentSpan(n: Node, st: State): string {
    if n.RunPeerCoder? then PeerCoderParent(st) else st.supervisorSpanId
  }

  function DiffHash(st: State): string {
    if st.codeEdit.Some? then st.codeEdit.value.diffHash else ""
  }

  /** The agent ran and its answer failed validation. */
  predicate AnswerInvalid(n: Node, st: State, o: Oracle) {
    match n
    case RunPlanner => o.plan.Invalid?
    case RunCoder => st.changePlan.Some? && o.edit.Invalid?
    case RunPeerCoder => st.changePlan.Some? && o.edit.Invalid?
    case RunReviewer => st.codeEdit.Some? && o.review.Invalid?
    case RunQa => st.codeEdit.Some? && o.report.Invalid?
    case _ => false
  }

  ghost function RecordOf(cfg: Config, n: Node, st: State, o: Oracle, st': State, ended: Ended): TurnRecord
    requires IsAgent(n)
  {
    TurnRecord(n, ended, o.spanId, ParentSpan(n, st), st'.reviewResult,
               WithCalls(cfg, n, st, o).pending, DiffHash(st), AnswerInvalid(n, st, o),
               Reported(cfg, n, WithCalls(cfg, n, st, o), o))
  }

  ghost function Advance(cfg: Config, w: World, o: Oracle): World {
    match w.phase
    case At(n) =>
      if n.End? then
        w.(phase := Finished, registered := false, row := Completion(w.row, w.st))
      else if Interrupts(n) then
        w.(phase := Paused(n), row := BeforeInterrupt(n, w.row))
      else if IsAgent(n) then
        var (st', ended) := RunAgent(cfg, n, w.st, o);
        w.(st := st',
           phase := At(Next(cfg, n, st')),
           turns := w.turns + [RecordOf(cfg, n, w.st, o, st', ended)])
      else
        var st' := RunPlain(n, w.st, o);
        w.(st := st', phase := At(Next(cfg, n, st')), acts := w.acts + ActsOf(n, w.st, o))
    case Resuming(n) =>
      var st' := Approved(n, w.st);
      w.(st := st', phase := At(Next(cfg, n, st')), row := AfterApproval(n, w.row))
    case _ => w
  }

  // ---- Decision endpoint ----

  datatype Response = TaskNotFound | DecisionAlreadyMade | NotAwaitingHitl | Ok

  function Respond(row: Row): Response {
    if row.hitlDecision.Some? then DecisionAlreadyMade
    else if row.status != RowAwaitingHitl then NotAwaitingHitl
    else Ok
  }

  /** The checkpoint a decision is about: where the graph is paused, if it is. */
  function Checkpoint(w: World): Node {
    if w.phase.Paused? then w.phase.node else End
  }

  function DecideOn(w: World, d: Decision): World {
    if Respond(w.row) != Ok then w
    else
      match d
      case RejectTask =>
        w.(row := AddOutcome(FinishTask(w.row, Rejected, Some(RejectTask), ""), HitlRejected),
           registered := false, phase := Finished, acts := w.acts + [Accepted(RejectTask, Checkpoint(w))])
      case Approve =>
        w.(row := w.row.(hitlDecision := Some(Approve), status := RowApproved),
           phase := if w.registered && w.phase.Paused? then Resuming(w.phase.node) else w.phase,
           acts := w.acts + [Accepted(Approve, Checkpoint(w))])
  }

  ghost function Handle(cfg: Config, w: World, e: Event): World {
    match e
    case Tick(o) => Advance(cfg, w, o)
    case Decide(d) => DecideOn(w, d)
  }

  /** The world after a whole schedule of graph steps and decision requests, in any interleaving. */
  ghost function After(cfg: Config, es: seq<Event>): World {
    if es == [] then START_WORLD else Handle(cfg, After(cfg, es[..|es| - 1]), es[|es| - 1])
  }

  // ---- The approval protocol ----

  /** The checkpoint whose approval lets writes follow. */
  const APPROVED := Accepted(Approve, HitlPrePr)

  /** Every observable history of a task is one of these. */
  ghost predicate Protocol(cfg: Config, acts: seq<Act>) {
    || acts == []
    || (exists n | Interrupts(n) :: acts == [Accepted(RejectTask, n)])
    || (exists n | Interrupts(n) :: acts == [Accepted(Approve, n)])
    || (!cfg.beforeWriteOps && (acts == [APPROVED, CommitAndPushCalled]
                                || acts == [APPROVED, CommitAndPushCalled, PullRequestCalled]))
  }

  /** What a test report looks like wherever the run may still deliver. */
  predicate Deliverable(st: State) {
    st.testReport.Some? ==> st.testReport.value.failed == 0 && st.reviewResult == Some(Accept)
  }

  predicate BeforeCheckpoint(n: Node) {
    !n.CommitAndPush? && !n.OpenPr? && !n.HaltGithubDelivery?
  }

  predicate BeforeQa(n: Node) {
    n.RunSupervisor? || n.IndexRepo? || n.RunPlanner? || n.RunCoder? || n.RunPeerCoder? || n.RunReviewer? || n.RunQa?
  }

  predicate Delivering(n: Node) {
    n.Finalize? || n.HitlPreCommitPush? || n.HitlPrePr? || n.CommitAndPush? || n.OpenPr?
  }

  /** What the graph state is known to satisfy at each node. */
  predicate StateFits(n: Node, st: State) {
    && (BeforeQa(n) ==> st.status.Running? && st.outcome.NoOutcome? && st.testReport.None?)
    && (BeforeQa(n) || n.HaltTestFailure? ==> st.mem.ue.testFailures == 0)
    && (n.RunQa? ==> st.reviewResult == Some(Accept))
    && (Delivering(n) ==> Deliverable(st) && st.reviewResult != Some(RejectWithChanges))
    && (Delivering(n) && !n.Finalize? && st.reviewResult == Some(Reject) ==> st.status.Failed?)
    && (n.OpenPr? ==> !st.status.Failed?)
  }

  ghost predicate Consistent(cfg: Config, w: World) {
    && (!w.phase.Finished? ==> StateFits(w.phase.node, w.st) && w.registered)
    && (!w.phase.Finished? && w.phase.node.HitlPreCommitPush? ==> cfg.beforeWriteOps)
    && (Delivered(w) ==> Deliverable(w.st) && w.st.reviewResult != Some(RejectWithChanges))
    && (PullRequestCalled in w.acts ==> w.st.reviewResult != Some(Reject))
    && match w.phase
       case At(n) => ActsAt(cfg, w, n)
       case Paused(n) =>
         && Interrupts(n) && w.row.status.RowAwaitingHitl?
         && ((w.acts == [] && w.row.hitlDecision.None? && (cfg.beforeWriteOps ==> !n.HitlPrePr?))
             || (cfg.beforeWriteOps && n.HitlPrePr? && w.acts == [Accepted(Approve, HitlPreCommitPush)]
                 && w.row.hitlDecision.Some?))
       case Resuming(n) =>
         Interrupts(n) && w.acts == [Accepted(Approve, n)] && w.row.hitlDecision.Some?
         && (n.HitlPrePr? ==> !cfg.beforeWriteOps)
       case Finished => !w.registered && !w.row.status.RowAwaitingHitl? && Protocol(cfg, w.acts)
  }

  /** A push was asked for. */
  predicate Delivered(w: World) {
    CommitAndPushCalled in w.acts
  }

  ghost predicate ActsAt(cfg: Config, w: World, n: Node) {
    && !w.row.status.RowAwaitingHitl?
    && (BeforeCheckpoint(n) && !n.End? ==>
          || (w.acts == [] && w.row.hitlDecision.None? && (cfg.beforeWriteOps ==> !n.HitlPrePr?))
          || (cfg.beforeWriteOps && n.HitlPrePr? && w.acts == [Accepted(Approve, HitlPreCommitPush)]
              && w.row.hitlDecision.Some?))
    && (n.CommitAndPush? ==> !cfg.beforeWriteOps && w.acts == [APPROVED])
    && (n.OpenPr? ==> !cfg.beforeWriteOps && w.acts == [APPROVED, CommitAndPushCalled])
    && (n.HaltGithubDelivery? ==>
          !cfg.beforeWriteOps && (w.acts == [APPROVED] || w.acts == [APPROVED, CommitAndPushCalled]))
    && (n.End? ==> Protocol(cfg, w.acts) && !w.st.status.AwaitingHitl?)
  }

  // ---- Preservation ----

  /**
   * What an agent turn leaves alone, and the state it leaves; the only failure it reports itself is
   * sandbox_failure.
   */
  ghost predicate Modest(st: State, st': State) {
    && (RouteHalts(st').None? ==> st'.status.Running? && st'.outcome.NoOutcome?)
    && (RouteHalts(st') == Some(HaltTaskFailed) ==> st'.outcome.SandboxFailure?)
    && st'.mem.ue.testFailures == st.mem.ue.testFailures
    && st'.stepIndex == st.stepIndex
    && st'.prUrl == st.prUrl
  }

  ghost predicate AgentEffect(n: Node, st: State, st': State) {
    && Modest(st, st')
    && (!n.RunQa? ==> st'.testReport == st.testReport)
    && (!n.RunReviewer? ==> st'.reviewResult == st.reviewResult)
  }

  lemma FailedTurnEffect<T>(st: State, sig: Signals, turn: Turn<T>)
    requires st.status.Running? && st.outcome.NoOutcome? && KeepTestFailures(st.mem.ue, sig) && !turn.Done?
    ensures var st' := FailedTurn(st, sig, turn);
            Modest(st, st') && (st'.testReport, st'.reviewResult) == (st.testReport, st.reviewResult)
  {
  }

  lemma CloseTurnEffect(st: State, updated: State, agent: string, ue: Uncertainty.Tracker, batch: BatchUpdate, bill: Bill)
    requires st.status.Running? && st.outcome.NoOutcome? && updated.status.Running? && updated.outcome.NoOutcome?
    requires (updated.stepIndex, updated.mem, updated.prUrl) == (st.stepIndex, st.mem, st.prUrl)
    requires ue.testFailures == st.mem.ue.testFailures
    requires !batch.NoChange? ==> batch.mem.ue.testFailures == st.mem.ue.testFailures
    ensures var st' := CloseTurn(st, updated, agent, ue, batch, bill).0;
            && Modest(st, st')
            && (st'.testReport == st.testReport || st'.testReport == updated.testReport)
            && (st'.reviewResult == st.reviewResult || st'.reviewResult == updated.reviewResult)
  {
  }

  lemma CoderTurnEffect(cfg: Config, st: State, sig: Signals, o: Oracle)
    requires st.status.Running? && st.outcome.NoOutcome? && KeepTestFailures(st.mem.ue, sig)
    ensures AgentEffect(RunCoder, st, Coder(cfg, st, sig, o).0)
  {
    hide FailedTurn, CloseTurn, Retries, RetryKey;
    if st.changePlan.Some? && !o.edit.Done? {
      FailedTurnEffect(st, sig, o.edit);
    } else {
      var (edit, bill) := Result(st.changePlan.Some?, o.edit);
      var updated := st.(codeEdit := edit, retryCounters := st.retryCounters[RetryKey(st) := Retries(st) + 1]);
      CloseTurnEffect(st, updated, "coder", sig.success, sig.batch, bill);
    }
  }

  lemma ReviewerTurnEffect(cfg: Config, st: State, sig: Signals, o: Oracle)
    requires st.status.Running? && st.outcome.NoOutcome? && KeepTestFailures(st.mem.ue, sig)
    ensures AgentEffect(RunReviewer, st, Reviewer(cfg, st, sig, o).0)
  {
    hide FailedTurn, CloseTurn;
    if st.codeEdit.Some? && !o.review.Done? {
      FailedTurnEffect(st, sig, o.review);
    } else {
      var (review, bill) := Result(st.codeEdit.Some?, o.review);
      var updated := st.(reviewResult := review);
      CloseTurnEffect(st, updated, "reviewer", sig.success, sig.batch, bill);
      if sig.rejection.Synced? {
        CloseTurnEffect(st, updated, "reviewer", sig.rejection.ue, sig.batch, bill);
      }
    }
  }

  lemma QaTurnEffect(cfg: Config, st: State, sig: Signals, o: Oracle)
    requires st.status.Running? && st.outcome.NoOutcome? && KeepTestFailures(st.mem.ue, sig)
    ensures AgentEffect(RunQa, st, Qa(cfg, st, sig, o).0)
  {
    hide FailedTurn, CloseTurn;
    if st.codeEdit.Some? && !o.report.Done? {
      FailedTurnEffect(st, sig, o.report);
    } else {
      var (report, bill) := Result(st.codeEdit.Some?, o.report);
      CloseTurnEffect(st, st.(testReport := report), "qa", sig.success, sig.batch, bill);
    }
  }

  lemma HybridTurnEffect(cfg: Config, st: State, o: Oracle, peer: bool)
    requires st.status.Running? && st.outcome.NoOutcome?
    ensures AgentEffect(RunCoder, st, HybridCoder(cfg, st, o, peer).0)
    ensures AgentEffect(RunReviewer, st, HybridReviewer(cfg, st, o).0)
  {
  }

  lemma PlannerTurnEffect(cfg: Config, st: State, sig: Signals, o: Oracle)
    requires st.status.Running? && st.outcome.NoOutcome? && KeepTestFailures(st.mem.ue, sig)
    ensures AgentEffect(RunPlanner, st, Planner(cfg, st, sig, o).0)
  {
  }

  lemma AgentTurnEffect(cfg: Config, n: Node, st: State, o: Oracle) returns (st': State)
    requires IsAgent(n) && st.status.Running? && st.outcome.NoOutcome?
    ensures st' == RunAgent(cfg, n, st, o).0 && AgentEffect(n, st, st')
  {
    hide Planner, Qa, Coder, Reviewer, HybridCoder, HybridReviewer, SignalsOf;
    var called := WithCalls(cfg, n, st, o);
    var sig := SignalsOf(called, AgentName(n));
    SignalsAlwaysFit(called, AgentName(n));
    st' := AgentNode(cfg, n, called, sig, o).0;
    match n
    case RunPlanner => PlannerTurnEffect(cfg, called, sig, o);
    case RunQa => QaTurnEffect(cfg, called, sig, o);
    case RunPeerCoder => HybridTurnEffect(cfg, called, o, true);
    case RunCoder => CoderTurnEffect(cfg, called, sig, o); HybridTurnEffect(cfg, called, o, false);
    case RunReviewer => ReviewerTurnEffect(cfg, called, sig, o); HybridTurnEffect(cfg, called, o, false);
  }

  lemma AgentKeepsConsistent(cfg: Config, w: World, st': State, turns: seq<TurnRecord>)
    requires Consistent(cfg, w) && w.phase.At? && IsAgent(w.phase.node)
    requires AgentEffect(w.phase.node, w.st, st')
    ensures Consistent(cfg, w.(st := st', phase := At(Next(cfg, w.phase.node, st')), turns := turns))
  {
  }

  lemma PlainKeepsConsistent(cfg: Config, w: World, o: Oracle)
    requires Consistent(cfg, w) && w.phase.At? && !IsAgent(w.phase.node) && !Interrupts(w.phase.node)
             && !w.phase.node.End?
    ensures Consistent(cfg, Advance(cfg, w, o))
  {
    if w.phase.node.CommitAndPush? || w.phase.node.OpenPr? {
      DeliveryKeepsConsistent(cfg, w, o);
    }
  }

  lemma DeliveryKeepsConsistent(cfg: Config, w: World, o: Oracle)
    requires Consistent(cfg, w) && w.phase.At? && (w.phase.node.CommitAndPush? || w.phase.node.OpenPr?)
    ensures Consistent(cfg, Advance(cfg, w, o))
  {
    assert Interrupts(HitlPrePr);
  }

  lemma PauseKeepsConsistent(cfg: Config, w: World, o: Oracle)
    requires Consistent(cfg, w)
    requires w.phase.Resuming? || (w.phase.At? && (Interrupts(w.phase.node) || w.phase.node.End?))
    ensures Consistent(cfg, Advance(cfg, w, o))
  {
    hide RunAgent, RunPlain;
  }

  lemma DecisionKeepsConsistent(cfg: Config, w: World, d: Decision)
    requires Consistent(cfg, w)
    ensures Consistent(cfg, DecideOn(w, d))
  {
    hide StateFits;
  }

  lemma HandleKeepsConsistent(cfg: Config, w: World, e: Event)
    requires Consistent(cfg, w)
    ensures Consistent(cfg, Handle(cfg, w, e))
  {
    hide RunAgent, RunPlain, Consistent, Next, Approved;
    match e
    case Decide(d) => DecisionKeepsConsistent(cfg, w, d);
    case Tick(o) =>
      match w.phase
      case Finished =>
      case Paused(_) =>
      case Resuming(_) => PauseKeepsConsistent(cfg, w, o);
      case At(n) =>
        if IsAgent(n) {
          var st' := RunningAt(cfg, w, o);
          AgentKeepsConsistent(cfg, w, st', Advance(cfg, w, o).turns);
        } else if Interrupts(n) || n.End? {
          PauseKeepsConsistent(cfg, w, o);
        } else {
          PlainKeepsConsistent(cfg, w, o);
        }
  }

  lemma RunningAt(cfg: Config, w: World, o: Oracle) returns (st': State)
    requires Consistent(cfg, w) && w.phase.At? && IsAgent(w.phase.node)
    ensures st' == RunAgent(cfg, w.phase.node, w.st, o).0 && AgentEffect(w.phase.node, w.st, st')
  {
    hide RunAgent;
    st' := AgentTurnEffect(cfg, w.phase.node, w.st, o);
  }

  lemma {:induction false} AlwaysConsistent(cfg: Config, es: seq<Event>)
    ensures Consistent(cfg, After(cfg, es))
  {
    if es != [] {
      AlwaysConsistent(cfg, es[..|es| - 1]);
      HandleKeepsConsistent(cfg, After(cfg, es[..|es| - 1]), es[|es| - 1]);
    }
  }
}
