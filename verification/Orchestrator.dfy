/** The graph state, the agent, halt and delivery nodes, and the conditional edges of both topologies. */
module Orchestrator {
  import opened Support
  import opened Uncertainty
  import opened Bookkeeping
  import opened Recording
  import Keys

  const MAX_RETRIES_PER_STEP: nat := 3

  datatype Topology = SupervisorOnly | Hybrid

  /** Environment of a run: topology, HITL_INTERRUPT_BEFORE_WRITE_OPS, MAX_COST_PER_TASK_USD in 0.0001 USD. */
  datatype Config = Config(topology: Topology, beforeWriteOps: bool, maxCost: int)

  datatype Plan = Plan(summary: string)
  datatype Edit = Edit(diffHash: string)
  datatype ReviewVerdict = Accept | RejectWithChanges | Reject
  datatype Report = Report(passed: nat, failed: nat)

  datatype Bill = Bill(tokensIn: nat, tokensOut: nat, cached: nat, cost: nat) {
    function Plus(b: Bill): Bill {
      Bill(tokensIn + b.tokensIn, tokensOut + b.tokensOut, cached + b.cached, cost + b.cost)
    }
  }

  const ZERO := Bill(0, 0, 0, 0)

  datatype Status = Running | AwaitingHitl | PreHitl | Rejected | Failed | Completed

  datatype Outcome =
    | NoOutcome | CostBudgetExhausted | GuardrailBlock | LoopDetectedOutcome | UncertaintyEscalation
    | SandboxFailure | PersistentTestFailureOutcome | ReviewRejected | GithubDeliveryFailed | PrOpened
    | RetryBudgetExhausted | HitlRejected | FailedOutcome

  /**
   * OrchestratorState; totals groups the four running totals, mem the detector fields. pending is the recording
   * registry's list for the task: tool calls recorded and not yet processed.
   */
  datatype State = State(
    status: Status,
    outcome: Outcome,
    changePlan: Option<Plan>,
    codeEdit: Option<Edit>,
    reviewResult: Option<ReviewVerdict>,
    testReport: Option<Report>,
    stepIndex: int,
    retryCounters: map<string, nat>,
    totals: Bill,
    agentCosts: map<string, Bill>,
    mem: Memory,
    peerHandoffCount: nat,
    lastReviewerSpanId: string,
    supervisorSpanId: string,
    prUrl: string,
    pending: seq<Recorded>)

  const INITIAL := State(Running, NoOutcome, None, None, None, None, 0, map[], ZERO, map[], START, 0, "", "", "", [])

  /** What an agent call does: a typed result with its bill, or one of the three kinds of exception. */
  datatype Turn<T> = Done(value: T, bill: Bill) | GuardrailHit | Invalid | Crashed

  datatype CommitResult = NoSandbox | CommitError | Pushed
  datatype PrResult = PrNoSandbox | PrError | PrCreated(url: string)

  /** Everything the environment decides while one node runs; each node reads its own part. */
  datatype Oracle = Oracle(
    plan: Turn<Plan>,
    edit: Turn<Edit>,
    review: Turn<ReviewVerdict>,
    report: Turn<Report>,
    recordings: seq<Recorded>,
    spanId: string,
    commit: CommitResult,
    pr: PrResult)

  /** How an agent node ended, for the billing record: Unbilled turns failed or escalated. */
  datatype Ended = Billed(bill: Bill) | Overspent(bill: Bill) | Unbilled

  datatype Node =
    | RunSupervisor | IndexRepo | RunPlanner | RunCoder | RunPeerCoder | RunReviewer | RunQa | Finalize
    | HitlPreCommitPush | HitlPrePr | CommitAndPush | OpenPr
    | HaltCostBudget | HaltGithubDelivery | HaltTaskFailed | HaltRetryExhausted | HaltTestFailure
    | HitlGuardrail | HitlLoop | HitlUncertainty
    | End

  function RetryKey(st: State): string {
    "coder_" + Keys.IntToString(st.stepIndex)
  }

  function Retries(st: State): nat {
    GetOr(st.retryCounters, RetryKey(st), 0)
  }

  // ---- Shared pieces of the agent nodes ----

  function SandboxFailed(st: State): State {
    st.(outcome := SandboxFailure, status := Failed)
  }

  function Escalated(st: State, outcome: Outcome): State {
    st.(outcome := outcome, status := AwaitingHitl)
  }

  function WithTracker(st: State, ue: Tracker): State {
    st.(mem := st.mem.(ue := ue))
  }

  /** The detector updates a turn can end with; each node merges the ones its branch computes. */
  datatype Signals = Signals(success: Tracker, failure: SignalUpdate, rejection: SignalUpdate, batch: BatchUpdate)

  ghost function SignalsOf(st: State, agent: string): Signals {
    var ue := st.mem.ue;
    Signals(
      RecordedPydanticSuccess(ue, agent, st.stepIndex),
      RecordedPydanticFailure(ue, agent, st.stepIndex),
      if st.codeEdit.Some? then RecordedDiffRejection(ue, st.codeEdit.value.diffHash, agent, st.stepIndex) else NoUpdate,
      Process(st.mem, agent, st.stepIndex, st.pending))
  }

  /** The except branches of the supervisor_only agent nodes. */
  function FailedTurn<T>(st: State, sig: Signals, turn: Turn<T>): State
    requires !turn.Done?
  {
    match turn
    case GuardrailHit => Escalated(st, GuardrailBlock)
    case Crashed => SandboxFailed(st)
    case Invalid =>
      match sig.failure
      case Escalation(ue) => WithTracker(Escalated(st, UncertaintyEscalation), ue)
      case Synced(ue) => WithTracker(st, ue)
      case NoUpdate => SandboxFailed(st)
  }

  function Exhausted(st: State, bill: Bill): State {
    st.(outcome := CostBudgetExhausted, status := Failed, totals := st.totals.(cost := st.totals.cost + bill.cost))
  }

  /** Running totals and the agent's own entry both grow by the bill. */
  function Accumulate(st: State, agent: string, bill: Bill): State {
    st.(totals := st.totals.Plus(bill),
        agentCosts := st.agentCosts[agent := GetOr(st.agentCosts, agent, ZERO).Plus(bill)])
  }

  /**
   * The tail of a successful supervisor_only turn: batch processing, which clears the pending calls, then the
   * merged update.
   * On escalation the tracker passed in overwrites the batch's; otherwise the batch's overwrites it.
   */
  function CloseTurn(st: State, updated: State, agent: string, ue: Tracker, batch: BatchUpdate, bill: Bill)
    : (State, Ended)
  {
    match batch
    case LoopFound(m) => (Escalated(st, LoopDetectedOutcome).(mem := Memory(m.history, ue), pending := []), Unbilled)
    case Uncertain(m) => (Escalated(st, UncertaintyEscalation).(mem := Memory(m.history, ue), pending := []), Unbilled)
    case Merge(m) => (Accumulate(updated.(mem := m, pending := []), agent, bill), Billed(bill))
    case NoChange => (Accumulate(WithTracker(updated.(pending := []), ue), agent, bill), Billed(bill))
  }

  predicate OverBudget(cfg: Config, st: State, bill: Bill) {
    st.totals.cost + bill.cost > cfg.maxCost
  }

  // ---- Agent nodes ----

  function Planner(cfg: Config, st: State, sig: Signals, o: Oracle): (State, Ended) {
    match o.plan
    case Done(plan, bill) =>
      if OverBudget(cfg, st, bill) then (Exhausted(st, bill), Overspent(bill))
      else
        var counted := bill.(cached := 0);
        (Accumulate(WithTracker(st.(changePlan := Some(plan)), sig.success), "planner", counted), Billed(counted))
    case _ =>
      if o.plan.Invalid? && sig.failure.Escalation?
      then (WithTracker(Escalated(st, UncertaintyEscalation), sig.failure.ue), Unbilled)
      else (SandboxFailed(st), Unbilled)
  }

  /** The agent runs only when its input exists; otherwise the node goes on with no result and no bill. */
  function Result<T>(runs: bool, turn: Turn<T>): (Option<T>, Bill)
    requires runs ==> turn.Done?
  {
    if runs then (Some(turn.value), turn.bill) else (None, ZERO)
  }

  function Coder(cfg: Config, st: State, sig: Signals, o: Oracle): (State, Ended) {
    if st.changePlan.Some? && !o.edit.Done? then (FailedTurn(st, sig, o.edit), Unbilled)
    else
      var (edit, bill) := Result(st.changePlan.Some?, o.edit);
      if OverBudget(cfg, st, bill) then (Exhausted(st, bill), Overspent(bill))
      else
        var updated := st.(codeEdit := edit, retryCounters := st.retryCounters[RetryKey(st) := Retries(st) + 1]);
        CloseTurn(st, updated, "coder", sig.success, sig.batch, bill)
  }

  /** A reject_with_changes is recorded against the current diff; an escalation ends the turn at once. */
  function Reviewer(cfg: Config, st: State, sig: Signals, o: Oracle): (State, Ended) {
    if st.codeEdit.Some? && !o.review.Done? then (FailedTurn(st, sig, o.review), Unbilled)
    else
      var (review, bill) := Result(st.codeEdit.Some?, o.review);
      if OverBudget(cfg, st, bill) then (Exhausted(st, bill), Overspent(bill))
      else
        var rejection := if review == Some(RejectWithChanges) then sig.rejection else NoUpdate;
        match rejection
        case Escalation(ue) => (WithTracker(Escalated(st, UncertaintyEscalation), ue), Unbilled)
        case Synced(ue) => CloseTurn(st, st.(reviewResult := review), "reviewer", ue, sig.batch, bill)
        case NoUpdate => CloseTurn(st, st.(reviewResult := review), "reviewer", sig.success, sig.batch, bill)
  }

  function Qa(cfg: Config, st: State, sig: Signals, o: Oracle): (State, Ended) {
    if st.codeEdit.Some? && !o.report.Done? then (FailedTurn(st, sig, o.report), Unbilled)
    else
      var (report, bill) := Result(st.codeEdit.Some?, o.report);
      if OverBudget(cfg, st, bill) then (Exhausted(st, bill), Overspent(bill))
      else
        CloseTurn(st, st.(testReport := report), "qa", sig.success, sig.batch, bill)
  }

  // ---- Hybrid agent nodes: no recordings, no validation counters ----

  /** First Coder and peer Coder; only the peer Coder tells guardrail violations from other exceptions. */
  function HybridCoder(cfg: Config, st: State, o: Oracle, peer: bool): (State, Ended) {
    if st.changePlan.Some? && !o.edit.Done? then
      (if peer && o.edit.GuardrailHit? then Escalated(st, GuardrailBlock) else SandboxFailed(st), Unbilled)
    else
      var (edit, bill) := Result(st.changePlan.Some?, o.edit);
      if OverBudget(cfg, st, bill) then (Exhausted(st, bill), Overspent(bill))
      else
        var updated := st.(codeEdit := edit,
                           retryCounters := st.retryCounters[RetryKey(st) := Retries(st) + 1],
                           peerHandoffCount := st.peerHandoffCount + if peer then 1 else 0);
        (Accumulate(updated, "coder", bill), Billed(bill))
  }

  predicate IsPeerLoop(st: State) {
    st.peerHandoffCount > 0 && st.lastReviewerSpanId != ""
  }

  function HybridReviewer(cfg: Config, st: State, o: Oracle): (State, Ended) {
    if st.codeEdit.Some? && !o.review.Done? then (SandboxFailed(st), Unbilled)
    else
      var (review, bill) := Result(st.codeEdit.Some?, o.review);
      if OverBudget(cfg, st, bill) then (Exhausted(st, bill), Overspent(bill))
      else
        var again := IsPeerLoop(st) && review == Some(RejectWithChanges);
        var updated := st.(reviewResult := review, lastReviewerSpanId := o.spanId,
                           peerHandoffCount := st.peerHandoffCount + if again then 1 else 0);
        (Accumulate(updated, "reviewer", bill), Billed(bill))
  }

  /** Parent of the peer Coder's span. */
  function PeerCoderParent(st: State): string {
    if st.lastReviewerSpanId != "" then st.lastReviewerSpanId else st.supervisorSpanId
  }

  // ---- Halt and delivery nodes ----

  function HaltTest(st: State): State {
    var n := st.mem.ue.testFailures + 1;
    if n >= PERSISTENT_TEST_FAILURE_THRESHOLD && !st.mem.ue.fired then
      WithTracker(Escalated(st, UncertaintyEscalation), st.mem.ue.(testFailures := n, fired := true))
    else
      WithTracker(st.(outcome := PersistentTestFailureOutcome, status := Failed), st.mem.ue.(testFailures := n))
  }

  function FinalizeReview(st: State): State {
    if st.reviewResult == Some(Reject) then st.(outcome := ReviewRejected, status := Failed)
    else st.(status := PreHitl)
  }

  function DeliveryFailed(st: State): State {
    st.(outcome := GithubDeliveryFailed, status := Failed)
  }

  function Commit(st: State, o: Oracle): State {
    if o.commit == Pushed then st else DeliveryFailed(st)
  }

  /** The GitHub client is only asked for a pull request when there is a sandbox and an edit. */
  predicate AsksForPr(st: State, o: Oracle) {
    !o.pr.PrNoSandbox? && st.codeEdit.Some?
  }

  function OpenPullRequest(st: State, o: Oracle): State {
    if AsksForPr(st, o) && o.pr.PrCreated? && o.pr.url != ""
    then st.(prUrl := o.pr.url, outcome := PrOpened, status := Completed)
    else DeliveryFailed(st)
  }

  predicate IsAgent(n: Node) {
    n.RunPlanner? || n.RunCoder? || n.RunPeerCoder? || n.RunReviewer? || n.RunQa?
  }

  /** Nodes that pause the graph for a human decision. */
  predicate Interrupts(n: Node) {
    || n.HitlPreCommitPush? || n.HitlPrePr? || n.HaltRetryExhausted?
    || n.HitlGuardrail? || n.HitlLoop? || n.HitlUncertainty?
  }

  function AgentName(n: Node): string
    requires IsAgent(n)
  {
    match n
    case RunPlanner => "planner"
    case RunReviewer => "reviewer"
    case RunQa => "qa"
    case _ => "coder"
  }

  /** One agent node, in either topology, given the detector updates it may merge. */
  function AgentNode(cfg: Config, n: Node, st: State, sig: Signals, o: Oracle): (State, Ended)
    requires IsAgent(n)
  {
    match n
    case RunPlanner => Planner(cfg, st, sig, o)
    case RunQa => Qa(cfg, st, sig, o)
    case RunPeerCoder => HybridCoder(cfg, st, o, true)
    case RunCoder => if cfg.topology.Hybrid? then HybridCoder(cfg, st, o, false) else Coder(cfg, st, sig, o)
    case _ => if cfg.topology.Hybrid? then HybridReviewer(cfg, st, o) else Reviewer(cfg, st, sig, o)
  }

  /** The agent runs with a recording proxy: supervisor_only Coder and Reviewer, and QA, when their input exists. */
  predicate Records(cfg: Config, n: Node, st: State) {
    match n
    case RunCoder => cfg.topology.SupervisorOnly? && st.changePlan.Some?
    case RunReviewer => cfg.topology.SupervisorOnly? && st.codeEdit.Some?
    case RunQa => st.codeEdit.Some?
    case _ => false
  }

  /** The turn processes pending calls when it completes, whether its agent ran or not. */
  predicate Processes(cfg: Config, n: Node) {
    n.RunQa? || (cfg.topology.SupervisorOnly? && (n.RunCoder? || n.RunReviewer?))
  }

  /** The agent's calls join those an earlier, failed turn left behind. */
  function WithCalls(cfg: Config, n: Node, st: State, o: Oracle): State {
    if Records(cfg, n, st) then st.(pending := st.pending + o.recordings) else st
  }

  /** How often a hash has been rejected, as the tracker remembers it. */
  function Rejections(st: State, hash: string): nat {
    GetOr(st.mem.ue.rejected, hash, 0)
  }

  /** The turn records a rejection of the current fix. */
  predicate RecordsRejection(st: State, o: Oracle) {
    st.codeEdit.Some? && st.codeEdit.value.diffHash != "" && !st.mem.ue.fired
    && o.review.Done? && o.review.value == RejectWithChanges
  }

  /**
   * The turn gets as far as processing: its agent answered if it ran, within budget and without a remembered
   * rejection.
   */
  predicate ReachesProcessing(cfg: Config, n: Node, st: State, o: Oracle)
    requires Processes(cfg, n)
  {
    match n
    case RunCoder => (st.changePlan.Some? ==> o.edit.Done?) && !OverBudget(cfg, st, Result(st.changePlan.Some?, o.edit).1)
    case RunReviewer =>
      && (st.codeEdit.Some? ==> o.review.Done?) && !OverBudget(cfg, st, Result(st.codeEdit.Some?, o.review).1)
      && (RecordsRejection(st, o) ==> Rejections(st, st.codeEdit.value.diffHash) == 0)
    case _ => (st.codeEdit.Some? ==> o.report.Done?) && !OverBudget(cfg, st, Result(st.codeEdit.Some?, o.report).1)
  }

  /**
   * The outcome row a turn writes through the task's store, given the calls with the pending ones: one when its
   * processed calls escalate. An escalation by validation failures or by a rejected fix writes none.
   */
  ghost function Reported(cfg: Config, n: Node, st: State, o: Oracle): Option<Outcome>
    requires IsAgent(n)
  {
    if Processes(cfg, n) && ReachesProcessing(cfg, n, st, o) then
      match SignalsOf(st, AgentName(n)).batch
      case LoopFound(_) => Some(LoopDetectedOutcome)
      case Uncertain(_) => Some(UncertaintyEscalation)
      case _ => None
    else None
  }

  lemma SilentTurn(cfg: Config, n: Node, st: State, o: Oracle)
    requires o.recordings == []
    ensures WithCalls(cfg, n, st, o) == st
  {
    assert st.pending + [] == st.pending;
  }

  ghost function RunAgent(cfg: Config, n: Node, st: State, o: Oracle): (State, Ended)
    requires IsAgent(n)
  {
    var called := WithCalls(cfg, n, st, o);
    AgentNode(cfg, n, called, SignalsOf(called, AgentName(n)), o)
  }

  /** No update of a turn touches the test-failure count. */
  predicate KeepTestFailures(t: Tracker, sig: Signals) {
    && sig.success.testFailures == t.testFailures
    && (!sig.failure.NoUpdate? ==> sig.failure.ue.testFailures == t.testFailures)
    && (!sig.rejection.NoUpdate? ==> sig.rejection.ue.testFailures == t.testFailures)
    && (!sig.batch.NoChange? ==> sig.batch.mem.ue.testFailures == t.testFailures)
  }

  /** How the updates of a turn move the agent's validation counter, kept under key, and the rejected hashes. */
  predicate MoveCounters(t: Tracker, key: string, sig: Signals) {
    var n := GetOr(t.pydantic, key, 0);
    && sig.success.pydantic == t.pydantic - {key} && sig.success.rejected == t.rejected
    && (sig.failure.Synced? ==>
          && n + 1 < PYDANTIC_FAIL_THRESHOLD
          && sig.failure.ue.pydantic == t.pydantic[key := n + 1] && sig.failure.ue.rejected == t.rejected)
    && (sig.rejection.Synced? ==> sig.rejection.ue.pydantic == t.pydantic)
    && (!sig.batch.NoChange? ==> sig.batch.mem.ue.pydantic == t.pydantic && sig.batch.mem.ue.rejected == t.rejected)
  }

  /** Only an escalating update raises the flag. */
  predicate KeepFlag(t: Tracker, sig: Signals) {
    && sig.success.fired == t.fired
    && (sig.failure.Synced? ==> sig.failure.ue.fired == t.fired)
    && (sig.rejection.Synced? ==> sig.rejection.ue.fired == t.fired)
    && (sig.batch.Merge? ==> sig.batch.mem.ue.fired == t.fired)
  }

  lemma SignalsAlwaysFit(st: State, agent: string)
    ensures var t, sig := st.mem.ue, SignalsOf(st, agent);
            && KeepTestFailures(t, sig) && KeepFlag(t, sig)
            && MoveCounters(t, Keys.StepKey(agent, st.stepIndex), sig)
  {
    ProcessKeeps(st.mem, agent, st.stepIndex, st.pending, 0);
    if Process(st.mem, agent, st.stepIndex, st.pending).Merge? {
      MergeFiredNothing(st.mem, agent, st.stepIndex, st.pending);
    }
  }

  /** The nodes that neither run an agent nor interrupt. */
  function RunPlain(n: Node, st: State, o: Oracle): State {
    match n
    case RunSupervisor => st.(supervisorSpanId := o.spanId)
    case Finalize => FinalizeReview(st)
    case CommitAndPush => Commit(st, o)
    case OpenPr => OpenPullRequest(st, o)
    case HaltCostBudget => st.(outcome := CostBudgetExhausted, status := Failed)
    case HaltGithubDelivery => DeliveryFailed(st)
    case HaltTaskFailed => st.(outcome := if st.outcome.NoOutcome? then FailedOutcome else st.outcome, status := Failed)
    case HaltTestFailure => HaltTest(st)
    case _ => st
  }

  /** An interrupting node after it resumed with approve. */
  function Approved(n: Node, st: State): State {
    match n
    case HitlPreCommitPush => st
    case HitlPrePr => st
    case HaltRetryExhausted => st.(outcome := NoOutcome, status := Running, retryCounters := map[])
    case _ => st.(outcome := NoOutcome, status := Running)
  }

  /** An interrupting node after it resumed with reject; the decision endpoint never resumes that way. */
  function Declined(n: Node, st: State): State {
    match n
    case HitlLoop => st.(outcome := LoopDetectedOutcome, status := Failed)
    case HitlUncertainty => st.(outcome := UncertaintyEscalation, status := Failed)
    case HaltRetryExhausted => st.(outcome := RetryBudgetExhausted, status := Failed)
    case _ => st.(outcome := HitlRejected, status := Rejected)
  }

  // ---- Conditional edges ----

  /** The checks every route after an agent makes first. */
  function RouteHalts(st: State): Option<Node> {
    if st.outcome.CostBudgetExhausted? then Some(HaltCostBudget)
    else if st.outcome.GuardrailBlock? then Some(HitlGuardrail)
    else if st.outcome.LoopDetectedOutcome? then Some(HitlLoop)
    else if st.outcome.UncertaintyEscalation? then Some(HitlUncertainty)
    else if st.status.Failed? then Some(HaltTaskFailed)
    else None
  }

  function RouteAfterReview(cfg: Config, st: State): Node {
    match st.reviewResult
    case None => Finalize
    case Some(Accept) => RunQa
    case Some(Reject) => Finalize
    case Some(RejectWithChanges) =>
      if Retries(st) >= MAX_RETRIES_PER_STEP then HaltRetryExhausted
      else if cfg.topology.Hybrid? then RunPeerCoder
      else RunCoder
  }

  function RouteAfterQa(st: State): Node {
    if st.testReport.Some? && st.testReport.value.failed > 0 then HaltTestFailure else Finalize
  }

  /** The edge taken out of node n, given the state after it. */
  function Next(cfg: Config, n: Node, st: State): Node {
    if IsAgent(n) && RouteHalts(st).Some? then RouteHalts(st).value
    else
      match n
      case RunSupervisor => IndexRepo
      case IndexRepo => RunPlanner
      case RunPlanner => RunCoder
      case RunCoder => RunReviewer
      case RunPeerCoder => RunReviewer
      case RunReviewer => RouteAfterReview(cfg, st)
      case RunQa => RouteAfterQa(st)
      case Finalize => if cfg.beforeWriteOps then HitlPreCommitPush else HitlPrePr
      case HitlPreCommitPush => HitlPrePr
      case HitlPrePr => CommitAndPush
      case CommitAndPush =>
        if st.outcome.GithubDeliveryFailed? || st.status.Failed? then HaltGithubDelivery else OpenPr
      case _ => End
  }
}
