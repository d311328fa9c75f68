/** Every run ends: how often each agent can run, and how many events a task can see. */
module Termination {
  import opened Support
  import opened Orchestrator
  import opened TaskRun
  import opened Bookkeeping
  import opened Recording
  import Uncertainty
  import Keys

  predicate IsCoder(n: Node) {
    n.RunCoder? || n.RunPeerCoder?
  }

  predicate InLoop(n: Node) {
    n.RunSupervisor? || n.IndexRepo? || n.RunPlanner? || n.RunReviewer? || IsCoder(n)
  }

  /** The Coder's consecutive validation failures, as the run's tracker counts them. */
  function CoderFailures(st: State): nat {
    GetOr(st.mem.ue.pydantic, Keys.StepKey("coder", st.stepIndex), 0)
  }

  function Limit(cfg: Config): nat {
    if cfg.topology.Hybrid? then 3 else 7
  }

  /**
   * Coder executions still possible from node n. Each completed one raises the retry count and may clear
   * the failures; each failed one costs a failure; before the first edit, a failure leads out of the loop.
   */
  function Budget(cfg: Config, n: Node, st: State): int {
    if !InLoop(n) then 0
    else if st.codeEdit.None? then (if n.RunReviewer? then 0 else Limit(cfg))
    else if Retries(st) >= MAX_RETRIES_PER_STEP then 0
    else if cfg.topology.Hybrid? then MAX_RETRIES_PER_STEP - Retries(st)
    else 3 * (MAX_RETRIES_PER_STEP - Retries(st)) - CoderFailures(st)
  }

  /** What holds of the graph state whenever the loop may go on. */
  predicate LoopFits(cfg: Config, n: Node, st: State) {
    InLoop(n) ==>
      && CoderFailures(st) < Uncertainty.PYDANTIC_FAIL_THRESHOLD
      && (st.codeEdit.Some? ==> Retries(st) >= 1 && (n.RunReviewer? || IsCoder(n)))
      && (st.codeEdit.None? && !n.RunReviewer? ==> Retries(st) == 0 && CoderFailures(st) == 0)
      && (IsCoder(n) || n.RunReviewer? ==> st.changePlan.Some?)
      && (IsCoder(n) && st.codeEdit.Some? ==> Retries(st) < MAX_RETRIES_PER_STEP)
      && (n.RunPeerCoder? ==> st.codeEdit.Some?)
      && (n.RunCoder? && cfg.topology.Hybrid? ==> st.codeEdit.None?)
      && (cfg.topology.Hybrid? && n.RunReviewer? ==> st.codeEdit.Some?)
  }

  // ---- One turn ----

  /** What a turn of the loop does to the two counters, when it does not halt. */
  predicate TurnFits(cfg: Config, n: Node, st: State, st': State) {
    && st'.stepIndex == st.stepIndex
    && (RouteHalts(st').None? ==>
          match n
          case RunPlanner =>
            st'.changePlan.Some? && st'.codeEdit == st.codeEdit && st'.retryCounters == st.retryCounters
            && CoderFailures(st') == CoderFailures(st)
          case RunReviewer =>
            st'.changePlan == st.changePlan && st'.codeEdit == st.codeEdit && st'.retryCounters == st.retryCounters
            && CoderFailures(st') == CoderFailures(st)
            && (st.codeEdit.None? ==> st'.reviewResult.None?)
          case RunQa => true
          case _ =>
            && st'.changePlan == st.changePlan
            && (CompletedCoder(st, st') || (cfg.topology.SupervisorOnly? && FailedCoder(st, st'))))
  }

  predicate CompletedCoder(st: State, st': State) {
    st'.codeEdit.Some? && Retries(st') == Retries(st) + 1 && CoderFailures(st') <= CoderFailures(st)
  }

  predicate FailedCoder(st: State, st': State) {
    && st'.codeEdit == st.codeEdit && Retries(st') == Retries(st)
    && CoderFailures(st') == CoderFailures(st) + 1 < Uncertainty.PYDANTIC_FAIL_THRESHOLD
  }

  lemma PlannerFits(cfg: Config, st: State, sig: Signals, o: Oracle)
    requires MoveCounters(st.mem.ue, Keys.StepKey("planner", st.stepIndex), sig)
    ensures TurnFits(cfg, RunPlanner, st, Planner(cfg, st, sig, o).0)
  {
    Keys.StepKeyInjective("planner", st.stepIndex, "coder", st.stepIndex);
  }

  lemma CoderFits(cfg: Config, st: State, sig: Signals, o: Oracle)
    requires MoveCounters(st.mem.ue, Keys.StepKey("coder", st.stepIndex), sig)
    requires st.changePlan.Some? && cfg.topology.SupervisorOnly?
    ensures TurnFits(cfg, RunCoder, st, Coder(cfg, st, sig, o).0)
  {
  }

  lemma CloseTurnFits(st: State, updated: State, agent: string, ue: Uncertainty.Tracker, batch: BatchUpdate, bill: Bill)
    requires updated.status.Running? && updated.outcome.NoOutcome?
    ensures var st' := CloseTurn(st, updated, agent, ue, batch, bill).0;
            if RouteHalts(st').None? then
              && st' == updated.(mem := st'.mem, totals := st'.totals, agentCosts := st'.agentCosts, pending := [])
              && st'.mem.ue == if batch.Merge? then batch.mem.ue else ue
            else st'.stepIndex == st.stepIndex || st'.stepIndex == updated.stepIndex
  {
  }

  lemma ReviewerFits(cfg: Config, st: State, sig: Signals, o: Oracle)
    requires MoveCounters(st.mem.ue, Keys.StepKey("reviewer", st.stepIndex), sig)
    requires st.status.Running? && st.outcome.NoOutcome?
    ensures TurnFits(cfg, RunReviewer, st, Reviewer(cfg, st, sig, o).0)
  {
    hide CloseTurn;
    Keys.StepKeyInjective("reviewer", st.stepIndex, "coder", st.stepIndex);
    if st.codeEdit.None? || o.review.Done? {
      var (review, bill) := Result(st.codeEdit.Some?, o.review);
      var updated := st.(reviewResult := review);
      CloseTurnFits(st, updated, "reviewer", sig.success, sig.batch, bill);
      if sig.rejection.Synced? {
        CloseTurnFits(st, updated, "reviewer", sig.rejection.ue, sig.batch, bill);
      }
    }
  }

  lemma QaFits(cfg: Config, st: State, sig: Signals, o: Oracle)
    ensures TurnFits(cfg, RunQa, st, Qa(cfg, st, sig, o).0)
  {
  }

  lemma HybridFits(cfg: Config, st: State, o: Oracle, peer: bool)
    ensures st.changePlan.Some? ==> TurnFits(cfg, RunCoder, st, HybridCoder(cfg, st, o, peer).0)
    ensures TurnFits(cfg, RunReviewer, st, HybridReviewer(cfg, st, o).0)
  {
  }

  lemma AgentTurnFits(cfg: Config, n: Node, st: State, o: Oracle) returns (st': State)
    requires IsAgent(n) && (IsCoder(n) ==> st.changePlan.Some?) && st.status.Running? && st.outcome.NoOutcome?
    ensures st' == RunAgent(cfg, n, st, o).0 && TurnFits(cfg, n, st, st')
  {
    hide Planner, Qa, Coder, Reviewer, HybridCoder, HybridReviewer, SignalsOf;
    var called := WithCalls(cfg, n, st, o);
    var sig := SignalsOf(called, AgentName(n));
    SignalsAlwaysFit(called, AgentName(n));
    st' := AgentNode(cfg, n, called, sig, o).0;
    match n
    case RunPlanner => PlannerFits(cfg, called, sig, o);
    case RunQa => QaFits(cfg, called, sig, o);
    case RunPeerCoder => HybridFits(cfg, called, o, true);
    case RunCoder =>
      HybridFits(cfg, called, o, false);
      if cfg.topology.SupervisorOnly? { CoderFits(cfg, called, sig, o); }
    case RunReviewer =>
      HybridFits(cfg, called, o, false);
      ReviewerFits(cfg, called, sig, o);
  }

  /** The edge out of an agent keeps the loop invariant, and a Coder execution uses up budget. */
  lemma AgentEdge(cfg: Config, n: Node, st: State, st': State)
    requires IsAgent(n) && LoopFits(cfg, n, st) && TurnFits(cfg, n, st, st')
    ensures var n' := Next(cfg, n, st');
            && LoopFits(cfg, n', st')
            && 0 <= Budget(cfg, n', st') <= Budget(cfg, n, st) - if IsCoder(n) then 1 else 0
  {
  }

  // ---- Ranking the nodes ----

  /** Bound on the node executions still to come, given the Coder executions still possible. */
  function Distance(n: Node, budget: int): int {
    match n
    case RunSupervisor => 24
    case IndexRepo => 23
    case RunPlanner => 22
    case RunCoder => 7 + 2 * budget
    case RunPeerCoder => 7 + 2 * budget
    case RunReviewer => 8 + 2 * budget
    case RunQa => 7
    case Finalize => 6
    case HitlPreCommitPush => 5
    case HitlPrePr => 4
    case CommitAndPush => 3
    case End => 1
    case _ => 2
  }

  /** Every node execution counts once, an interrupting one up to three times. */
  function Rank(cfg: Config, w: World): int {
    match w.phase
    case At(n) => 3 * Distance(n, Budget(cfg, n, w.st)) + 2
    case Paused(n) => 3 * Distance(n, Budget(cfg, n, w.st)) + 1
    case Resuming(n) => 3 * Distance(n, Budget(cfg, n, w.st))
    case Finished => 0
  }

  lemma EdgeDescends(cfg: Config, n: Node, st: State, st': State)
    requires !n.End? && LoopFits(cfg, n, st) && (IsAgent(n) ==> TurnFits(cfg, n, st, st'))
    requires !IsAgent(n) && InLoop(n) ==>
               (st'.codeEdit, st'.retryCounters, st'.stepIndex, st'.mem, st'.changePlan)
               == (st.codeEdit, st.retryCounters, st.stepIndex, st.mem, st.changePlan)
    ensures var n' := Next(cfg, n, st');
            && LoopFits(cfg, n', st')
            && 0 <= Distance(n', Budget(cfg, n', st')) < Distance(n, Budget(cfg, n, st))
            && 0 <= Budget(cfg, n', st') <= Budget(cfg, n, st) - if IsCoder(n) then 1 else 0
  {
    if IsAgent(n) {
      AgentEdge(cfg, n, st, st');
    }
  }

  // ---- Counting turns ----

  function Executions(turns: seq<TurnRecord>, n: Node): nat {
    if turns == [] then 0
    else Executions(turns[..|turns| - 1], n) + if turns[|turns| - 1].node == n then 1 else 0
  }

  lemma ExecutionsExtend(turns: seq<TurnRecord>, t: TurnRecord, n: Node)
    ensures Executions(turns + [t], n) == Executions(turns, n) + if t.node == n then 1 else 0
  {
    assert (turns + [t])[..|turns|] == turns;
  }

  function CoderExecutions(turns: seq<TurnRecord>): nat {
    Executions(turns, RunCoder) + Executions(turns, RunPeerCoder)
  }

  function Before(n: Node, limit: Node): int {
    match limit
    case RunPlanner => if n.RunSupervisor? || n.IndexRepo? || n.RunPlanner? then 1 else 0
    case _ => if InLoop(n) || n.RunQa? then 1 else 0
  }

  function BudgetLeft(cfg: Config, w: World): int {
    if w.phase.Finished? then 0 else Budget(cfg, w.phase.node, w.st)
  }

  ghost predicate Counted(cfg: Config, w: World) {
    && (!w.phase.Finished? ==> LoopFits(cfg, w.phase.node, w.st) && Budget(cfg, w.phase.node, w.st) >= 0)
    && (w.phase.Paused? || w.phase.Resuming? ==> !InLoop(w.phase.node) && !w.phase.node.End?)
    && CoderExecutions(w.turns) + BudgetLeft(cfg, w) <= Limit(cfg)
    && (cfg.topology.Hybrid? ==>
          && Executions(w.turns, RunCoder) <= 1
          && (Executions(w.turns, RunPeerCoder) > 0 ==> Executions(w.turns, RunCoder) == 1)
          && (!w.phase.Finished? && InLoop(w.phase.node) ==>
                Executions(w.turns, RunCoder) == EditCount(w.st)))
    && (cfg.topology.SupervisorOnly? ==>
          Executions(w.turns, RunPeerCoder) == 0 && (!w.phase.Finished? ==> !w.phase.node.RunPeerCoder?))
    && Executions(w.turns, RunPlanner) + (if w.phase.Finished? then 0 else Before(w.phase.node, RunPlanner)) <= 1
    && Executions(w.turns, RunQa) + (if w.phase.Finished? then 0 else Before(w.phase.node, RunQa)) <= 1
  }

  /** An agent's edge never leads back before the planner or the QA agent, and a hybrid run leaves RunCoder for good. */
  lemma AgentEdgeForward(cfg: Config, n: Node, st: State, st': State)
    requires IsAgent(n) && LoopFits(cfg, n, st) && TurnFits(cfg, n, st, st')
    ensures var n' := Next(cfg, n, st');
            && Before(n', RunPlanner) <= Before(n, RunPlanner) - (if n.RunPlanner? then 1 else 0)
            && Before(n', RunQa) <= Before(n, RunQa) - (if n.RunQa? then 1 else 0)
            && (cfg.topology.SupervisorOnly? ==> !n'.RunPeerCoder?)
            && (cfg.topology.Hybrid? && InLoop(n') ==>
                  InLoop(n) && EditCount(st') == EditCount(st) + if n.RunCoder? then 1 else 0)
  {
  }

  function EditCount(st: State): nat {
    if st.codeEdit.Some? then 1 else 0
  }

  lemma AgentKeepsCounted(cfg: Config, w: World, n: Node, st': State, t: TurnRecord)
    requires Counted(cfg, w) && w.phase == At(n) && IsAgent(n) && TurnFits(cfg, n, w.st, st') && t.node == n
    ensures var w' := w.(st := st', phase := At(Next(cfg, n, st')), turns := w.turns + [t]);
            Counted(cfg, w') && 0 <= Rank(cfg, w') < Rank(cfg, w)
  {
    hide Next, Budget, LoopFits, TurnFits, Distance, Executions, Retries, CoderFailures;
    EdgeDescends(cfg, n, w.st, st');
    AgentEdgeForward(cfg, n, w.st, st');
    ExecutionsExtend(w.turns, t, RunPlanner);
    ExecutionsExtend(w.turns, t, RunCoder);
    ExecutionsExtend(w.turns, t, RunPeerCoder);
    ExecutionsExtend(w.turns, t, RunQa);
    if IsCoder(n) && cfg.topology.Hybrid? {
      RunCoderRunsOnce(cfg, w, n);
    }
  }

  lemma RunCoderRunsOnce(cfg: Config, w: World, n: Node)
    requires Counted(cfg, w) && w.phase == At(n) && IsCoder(n) && cfg.topology.Hybrid?
    ensures Executions(w.turns, RunCoder) == if n.RunCoder? then 0 else 1
  {
  }

  lemma ResumeKeepsCounted(cfg: Config, w: World, o: Oracle)
    requires Counted(cfg, w) && w.phase.Resuming?
    ensures var w' := Advance(cfg, w, o); Counted(cfg, w') && 0 <= Rank(cfg, w') < Rank(cfg, w)
  {
    EdgeDescends(cfg, w.phase.node, w.st, Approved(w.phase.node, w.st));
  }

  lemma PauseKeepsCounted(cfg: Config, w: World, o: Oracle)
    requires Counted(cfg, w) && w.phase.At? && (Interrupts(w.phase.node) || w.phase.node.End?)
    ensures var w' := Advance(cfg, w, o); Counted(cfg, w') && 0 <= Rank(cfg, w') < Rank(cfg, w)
  {
  }

  lemma PlainKeepsCounted(cfg: Config, w: World, o: Oracle)
    requires Counted(cfg, w) && w.phase.At?
    requires !IsAgent(w.phase.node) && !Interrupts(w.phase.node) && !w.phase.node.End?
    ensures var w' := Advance(cfg, w, o); Counted(cfg, w') && 0 <= Rank(cfg, w') < Rank(cfg, w)
  {
    hide RunAgent;
    EdgeDescends(cfg, w.phase.node, w.st, RunPlain(w.phase.node, w.st, o));
  }

  lemma DecisionKeepsCounted(cfg: Config, w: World, d: Decision)
    requires Counted(cfg, w) && Consistent(cfg, w)
    ensures var w' := DecideOn(w, d);
            Counted(cfg, w') && (w' == w || 0 <= Rank(cfg, w') < Rank(cfg, w))
  {
  }

  /**
   * Every event either changes nothing or lowers the rank; a tick changes nothing only when the graph waits or is
   * over.
   */
  lemma HandleDescends(cfg: Config, w: World, e: Event)
    requires Counted(cfg, w) && Consistent(cfg, w)
    ensures var w' := Handle(cfg, w, e);
            && Counted(cfg, w')
            && (w' == w || 0 <= Rank(cfg, w') < Rank(cfg, w))
            && (e.Tick? ==> (w' == w <==> w.phase.Paused? || w.phase.Finished?))
  {
    hide RunAgent, RunPlain, Counted, Rank, TurnFits;
    match e
    case Decide(d) => DecisionKeepsCounted(cfg, w, d);
    case Tick(o) =>
      if w.phase.At? && IsAgent(w.phase.node) {
        var n := w.phase.node;
        CoderHasPlan(cfg, w);
        RunningAtAgent(cfg, w);
        var st' := AgentTurnFits(cfg, n, w.st, o);
        var t := RecordOf(cfg, n, w.st, o, st', RunAgent(cfg, n, w.st, o).1);
        AgentKeepsCounted(cfg, w, n, st', t);
      } else if w.phase.Resuming? {
        ResumeKeepsCounted(cfg, w, o);
      } else if w.phase.At? && (Interrupts(w.phase.node) || w.phase.node.End?) {
        PauseKeepsCounted(cfg, w, o);
      } else if w.phase.At? {
        PlainKeepsCounted(cfg, w, o);
      }
  }

  lemma CoderHasPlan(cfg: Config, w: World)
    requires Counted(cfg, w) && w.phase.At?
    ensures IsCoder(w.phase.node) ==> w.st.changePlan.Some?
  {
  }

  lemma RunningAtAgent(cfg: Config, w: World)
    requires Consistent(cfg, w) && w.phase.At? && IsAgent(w.phase.node)
    ensures w.st.status.Running? && w.st.outcome.NoOutcome?
  {
  }

  lemma {:induction false} AlwaysCounted(cfg: Config, es: seq<Event>)
    ensures Counted(cfg, After(cfg, es)) && Rank(cfg, After(cfg, es)) >= 0
  {
    if es != [] {
      var w := After(cfg, es[..|es| - 1]);
      AlwaysCounted(cfg, es[..|es| - 1]);
      AlwaysConsistent(cfg, es[..|es| - 1]);
      HandleDescends(cfg, w, es[|es| - 1]);
    }
  }

  /** Events that changed anything. */
  ghost function Productive(cfg: Config, es: seq<Event>): nat {
    if es == [] then 0
    else
      var init := es[..|es| - 1];
      Productive(cfg, init) + if After(cfg, es) == After(cfg, init) then 0 else 1
  }

  /** Termination: whatever the agents do, no schedule ever has more than 74 events that change anything. */
  lemma {:induction false} RunsTerminate(cfg: Config, es: seq<Event>)
    ensures Productive(cfg, es) + Rank(cfg, After(cfg, es)) <= 74
    ensures Productive(cfg, es) <= 74
  {
    AlwaysCounted(cfg, es);
    if es != [] {
      var init := es[..|es| - 1];
      RunsTerminate(cfg, init);
      AlwaysCounted(cfg, init);
      AlwaysConsistent(cfg, init);
      HandleDescends(cfg, After(cfg, init), es[|es| - 1]);
    }
  }

  function Ticks(os: seq<Oracle>): seq<Event> {
    if os == [] then [] else Ticks(os[..|os| - 1]) + [Tick(os[|os| - 1])]
  }

  /** Whatever happened so far, ticks alone bring the graph to a pause or to its end. */
  lemma {:induction false} TicksSettle(cfg: Config, es: seq<Event>, os: seq<Oracle>)
    ensures var w := After(cfg, es + Ticks(os));
            w.phase.Paused? || w.phase.Finished? || Rank(cfg, w) <= Rank(cfg, After(cfg, es)) - |os|
    ensures var w := After(cfg, es + Ticks(os));
            |os| >= Rank(cfg, After(cfg, es)) ==> w.phase.Paused? || w.phase.Finished?
  {
    hide Rank, Counted, Consistent, Handle;
    AlwaysCounted(cfg, es + Ticks(os));
    if os == [] {
      assert es + [] == es;
    } else {
      var all, init := es + Ticks(os), es + Ticks(os[..|os| - 1]);
      assert all[..|all| - 1] == init && all[|all| - 1].Tick?;
      TicksSettle(cfg, es, os[..|os| - 1]);
      AlwaysCounted(cfg, init);
      AlwaysConsistent(cfg, init);
      HandleDescends(cfg, After(cfg, init), all[|all| - 1]);
    }
    RankPositive(cfg, After(cfg, es + Ticks(os)));
  }

  lemma RankPositive(cfg: Config, w: World)
    requires Counted(cfg, w)
    ensures w.phase.Finished? || Rank(cfg, w) > 0
  {
  }

  /** How often each agent runs, over every run. */
  lemma AgentRunsBounded(cfg: Config, es: seq<Event>)
    ensures var turns := After(cfg, es).turns;
            && Executions(turns, RunPlanner) <= 1
            && Executions(turns, RunQa) <= 1
            && CoderExecutions(turns) <= (if cfg.topology.Hybrid? then 3 else 7)
            && (cfg.topology.Hybrid? ==> Executions(turns, RunCoder) <= 1 && Executions(turns, RunPeerCoder) <= 2)
            && (cfg.topology.SupervisorOnly? ==> Executions(turns, RunPeerCoder) == 0)
  {
    AlwaysCounted(cfg, es);
  }

  lemma TicksKeepTestFailures(cfg: Config, w: World, e: Event)
    requires Consistent(cfg, w) && w.st.mem.ue.testFailures <= 1
    ensures Handle(cfg, w, e).st.mem.ue.testFailures <= 1
  {
    hide RunAgent;
    if e.Tick? && w.phase.At? && IsAgent(w.phase.node) {
      var st' := RunningAt(cfg, w, e.o);
    }
  }

  /**
   * One run counts at most one test failure, so three in a row can never escalate: the halt node always fails the
   * task.
   */
  lemma {:induction false} TestFailuresNeverEscalate(cfg: Config, es: seq<Event>)
    ensures var w := After(cfg, es);
            && w.st.mem.ue.testFailures <= 1
            && (w.phase == At(HaltTestFailure) ==> HaltTest(w.st).status.Failed?)
  {
    AlwaysConsistent(cfg, es);
    if es != [] {
      TestFailuresNeverEscalate(cfg, es[..|es| - 1]);
      AlwaysConsistent(cfg, es[..|es| - 1]);
      TicksKeepTestFailures(cfg, After(cfg, es[..|es| - 1]), es[|es| - 1]);
    }
  }
}
