/** What can be written to GitHub, and when, over every schedule of graph steps and decision requests. */
module WriteSafety {
  import opened Support
  import opened Orchestrator
  import opened TaskRun
  import opened Bookkeeping

  /** Every reachable history of decisions and writes is a word of the protocol. */
  lemma HistoriesFollowProtocol(cfg: Config, es: seq<Event>)
    ensures Protocol(cfg, After(cfg, es).acts)
  {
    AlwaysConsistent(cfg, es);
    assert Interrupts(HitlPrePr) && Interrupts(HitlPreCommitPush);
  }

  predicate IsWrite(a: Act) {
    a.CommitAndPushCalled? || a.PullRequestCalled?
  }

  /**
   * The decision comes first and is unique; writes follow only an approve at hitl_pre_pr, push before PR, each
   * once.
   */
  lemma WritesFollowTheOneApproval(cfg: Config, es: seq<Event>, i: nat, j: nat)
    requires i < |After(cfg, es).acts| && j < |After(cfg, es).acts|
    ensures var acts := After(cfg, es).acts;
            && (acts[i].Accepted? <==> i == 0)
            && (IsWrite(acts[i]) ==> acts[0] == Accepted(Approve, HitlPrePr))
            && (acts[i].CommitAndPushCalled? <==> i == 1)
            && (acts[i].PullRequestCalled? <==> i == 2)
            && (acts[i].Accepted? && acts[i] != Accepted(Approve, HitlPrePr) ==> acts == [acts[i]])
  {
    HistoriesFollowProtocol(cfg, es);
  }

  /**
   * A test report with failures never reaches a push, nor does an edit sent back for changes; there may be no
   * report.
   */
  lemma NoPushAfterFailedTests(cfg: Config, es: seq<Event>)
    requires CommitAndPushCalled in After(cfg, es).acts
    ensures var st := After(cfg, es).st;
            && (st.testReport.Some? ==> st.testReport.value.failed == 0 && st.reviewResult == Some(Accept))
            && st.reviewResult != Some(RejectWithChanges)
  {
    AlwaysConsistent(cfg, es);
  }

  /** No pull request is ever asked for a terminally rejected change. */
  lemma RejectedChangeGetsNoPr(cfg: Config, es: seq<Event>)
    requires PullRequestCalled in After(cfg, es).acts
    ensures After(cfg, es).st.reviewResult != Some(Reject)
  {
    AlwaysConsistent(cfg, es);
  }

  /** A decision request is accepted exactly when the graph is paused and no decision was made before. */
  lemma AcceptedExactlyWhenPaused(cfg: Config, es: seq<Event>)
    ensures var w := After(cfg, es);
            Respond(w.row) == Ok <==> w.phase.Paused? && w.acts == []
  {
    AlwaysConsistent(cfg, es);
  }

  // ---- Reachability of a push ----

  /** An environment where every agent and every delivery call succeeds at no cost. */
  const SMOOTH := Oracle(Done(Plan("p"), ZERO), Done(Edit("h"), ZERO), Done(Accept, ZERO), Done(Report(1, 0), ZERO),
                         [], "s", Pushed, PrCreated("url"))

  /** Contains the initial world and every world one event away from a member. */
  ghost predicate Closed(cfg: Config, s: iset<World>) {
    START_WORLD in s && forall w, e {:trigger Handle(cfg, w, e)} :: w in s ==> Handle(cfg, w, e) in s
  }

  lemma Step(cfg: Config, s: iset<World>, w: World, e: Event)
    requires Closed(cfg, s) && w in s
    ensures Handle(cfg, w, e) in s
  {
  }

  predicate Undecided(w: World) {
    w.acts == [] && w.row == START_WORLD.row && w.registered
  }

  /** Updates of a turn without recordings from a tracker with no counters. */
  predicate Quiet(st: State, sig: Signals) {
    && sig.batch.NoChange? && sig.success.pydantic == map[] && !sig.success.fired
    && sig.success.windows == map[] && sig.success.rejected == map[]
    && st.mem.ue.pydantic == map[] && !st.mem.ue.fired
  }

  lemma QuietTurn(w: World, agent: string)
    requires Smooth(w.st)
    ensures Quiet(w.st, SignalsOf(w.st, agent))
  {
    SignalsAlwaysFit(w.st, agent);
  }

  /** What a smooth turn leaves: still running, nothing spent, no counters. */
  predicate Smooth(st': State) {
    && st'.status.Running? && st'.outcome.NoOutcome? && st'.totals.cost == 0
    && st'.mem.ue.pydantic == map[] && !st'.mem.ue.fired
    && st'.mem.history == map[] && st'.mem.ue.windows == map[] && st'.mem.ue.rejected == map[]
    && st'.pending == []
  }

  lemma SmoothPlanner(cfg: Config, st: State, sig: Signals, o: Oracle)
    requires cfg.maxCost >= 0 && Smooth(st) && Quiet(st, sig) && o.plan.Done? && o.plan.bill.cost == 0
    ensures var st' := AgentNode(cfg, RunPlanner, st, sig, o).0;
            && Smooth(st') && st'.changePlan.Some? && st'.codeEdit == st.codeEdit
            && st'.reviewResult == st.reviewResult
  {
  }

  lemma SmoothCoder(cfg: Config, st: State, sig: Signals, o: Oracle)
    requires cfg.maxCost >= 0 && Smooth(st) && Quiet(st, sig) && o.edit.Done? && o.edit.bill.cost == 0
             && st.changePlan.Some?
    ensures var st' := AgentNode(cfg, RunCoder, st, sig, o).0;
            Smooth(st') && st'.codeEdit.Some? && st'.reviewResult == st.reviewResult
  {
  }

  lemma SmoothReviewer(cfg: Config, st: State, sig: Signals, o: Oracle)
    requires cfg.maxCost >= 0 && Smooth(st) && Quiet(st, sig) && st.codeEdit.Some?
    requires o.review.Done? && o.review.bill.cost == 0 && o.review.value != RejectWithChanges
    ensures var st' := AgentNode(cfg, RunReviewer, st, sig, o).0;
            Smooth(st') && st'.codeEdit == st.codeEdit && st'.reviewResult == Some(o.review.value)
  {
  }

  lemma SmoothQa(cfg: Config, st: State, sig: Signals, o: Oracle)
    requires cfg.maxCost >= 0 && Smooth(st) && Quiet(st, sig) && st.codeEdit.Some?
    requires o.report.Done? && o.report.bill.cost == 0 && o.report.value.failed == 0
    ensures var st' := AgentNode(cfg, RunQa, st, sig, o).0;
            && Smooth(st') && st'.codeEdit == st.codeEdit && st'.reviewResult == st.reviewResult
            && RouteAfterQa(st') == Finalize
  {
  }

  lemma ReachPlanner(cfg: Config, s: iset<World>) returns (w: World)
    requires Closed(cfg, s)
    ensures w in s && Undecided(w) && Smooth(w.st) && w.phase == At(RunPlanner) && w.st.codeEdit.None?
    ensures w.st.reviewResult.None?
  {
    hide RunAgent;
    Step(cfg, s, START_WORLD, Tick(SMOOTH));
    w := Advance(cfg, START_WORLD, SMOOTH);
    Step(cfg, s, w, Tick(SMOOTH));
    w := Advance(cfg, w, SMOOTH);
  }

  lemma ReachCoder(cfg: Config, s: iset<World>) returns (w: World)
    requires Closed(cfg, s) && cfg.maxCost >= 0
    ensures w in s && Undecided(w) && Smooth(w.st) && w.phase == At(RunCoder)
    ensures w.st.codeEdit.None? && w.st.changePlan.Some? && w.st.reviewResult.None?
  {
    hide AgentNode, SignalsOf;
    w := ReachPlanner(cfg, s);
    QuietTurn(w, "planner");
    SilentTurn(cfg, RunPlanner, w.st, SMOOTH);
    SmoothPlanner(cfg, w.st, SignalsOf(w.st, "planner"), SMOOTH);
    Step(cfg, s, w, Tick(SMOOTH));
    w := Advance(cfg, w, SMOOTH);
  }

  lemma ReachReviewer(cfg: Config, s: iset<World>) returns (w: World)
    requires Closed(cfg, s) && cfg.maxCost >= 0
    ensures w in s && Undecided(w) && Smooth(w.st) && w.phase == At(RunReviewer) && w.st.codeEdit.Some?
    ensures w.st.reviewResult.None?
  {
    hide AgentNode, SignalsOf;
    w := ReachCoder(cfg, s);
    QuietTurn(w, "coder");
    SilentTurn(cfg, RunCoder, w.st, SMOOTH);
    SmoothCoder(cfg, w.st, SignalsOf(w.st, "coder"), SMOOTH);
    Step(cfg, s, w, Tick(SMOOTH));
    w := Advance(cfg, w, SMOOTH);
  }

  lemma ReachQa(cfg: Config, s: iset<World>) returns (w: World)
    requires Closed(cfg, s) && cfg.maxCost >= 0
    ensures w in s && Undecided(w) && Smooth(w.st) && w.phase == At(RunQa) && w.st.codeEdit.Some?
    ensures w.st.reviewResult == Some(Accept)
  {
    hide AgentNode, SignalsOf;
    w := ReachReviewer(cfg, s);
    QuietTurn(w, "reviewer");
    SilentTurn(cfg, RunReviewer, w.st, SMOOTH);
    SmoothReviewer(cfg, w.st, SignalsOf(w.st, "reviewer"), SMOOTH);
    Step(cfg, s, w, Tick(SMOOTH));
    w := Advance(cfg, w, SMOOTH);
  }

  lemma ReachFinalize(cfg: Config, s: iset<World>) returns (w: World)
    requires Closed(cfg, s) && cfg.maxCost >= 0
    ensures w in s && Undecided(w) && Smooth(w.st) && w.phase == At(Finalize) && w.st.codeEdit.Some?
    ensures w.st.reviewResult == Some(Accept)
  {
    hide AgentNode, SignalsOf;
    w := ReachQa(cfg, s);
    QuietTurn(w, "qa");
    SilentTurn(cfg, RunQa, w.st, SMOOTH);
    SmoothQa(cfg, w.st, SignalsOf(w.st, "qa"), SMOOTH);
    Step(cfg, s, w, Tick(SMOOTH));
    w := Advance(cfg, w, SMOOTH);
  }

  /** From finalize to the resumed checkpoint: pause, approve, resume. */
  lemma PassCheckpoint(cfg: Config, s: iset<World>, start: World) returns (w: World)
    requires Closed(cfg, s)
    requires start in s && Undecided(start) && start.phase == At(Finalize) && !cfg.beforeWriteOps
    ensures w in s && w.phase == At(CommitAndPush) && w.acts == [APPROVED] && w.st == FinalizeReview(start.st)
  {
    hide RunAgent;
    w := start;
    Step(cfg, s, w, Tick(SMOOTH));
    w := Advance(cfg, w, SMOOTH);
    Step(cfg, s, w, Tick(SMOOTH));
    w := Advance(cfg, w, SMOOTH);
    Step(cfg, s, w, Decide(Approve));
    w := DecideOn(w, Approve);
    Step(cfg, s, w, Tick(SMOOTH));
    w := Advance(cfg, w, SMOOTH);
  }

  /** What a run delivers: edit, verdict and test report. */
  function Delivery(st: State): (Option<Edit>, Option<ReviewVerdict>, Option<Report>) {
    (st.codeEdit, st.reviewResult, st.testReport)
  }

  /** The push, and the pull request when there is an edit that was not rejected. */
  lemma Deliver(cfg: Config, s: iset<World>, start: World) returns (w: World)
    requires Closed(cfg, s)
    requires start in s && Undecided(start) && start.phase == At(Finalize) && !cfg.beforeWriteOps
    requires start.st.status.Running? && start.st.outcome.NoOutcome?
    ensures w in s && Delivery(w.st) == Delivery(start.st)
    ensures w.acts == [APPROVED, CommitAndPushCalled]
                      + if start.st.codeEdit.Some? && start.st.reviewResult != Some(Reject)
                        then [PullRequestCalled] else []
  {
    hide RunAgent;
    w := PassCheckpoint(cfg, s, start);
    Step(cfg, s, w, Tick(SMOOTH));
    w := Advance(cfg, w, SMOOTH);
    if start.st.reviewResult != Some(Reject) {
      Step(cfg, s, w, Tick(SMOOTH));
      w := Advance(cfg, w, SMOOTH);
    }
  }

  /** The run the documentation describes: approve at hitl_pre_pr, then push, then PR. */
  lemma DeliveryIsReachable(cfg: Config, s: iset<World>) returns (w: World)
    requires Closed(cfg, s)
    requires cfg.maxCost >= 0 && !cfg.beforeWriteOps
    ensures w in s && w.acts == [APPROVED, CommitAndPushCalled, PullRequestCalled]
  {
    w := ReachFinalize(cfg, s);
    w := Deliver(cfg, s, w);
  }

  /** With a negative cost cap the planner's first call already exceeds the budget. */
  predicate Stillborn(w: World) {
    && CommitAndPushCalled !in w.acts
    && (!w.phase.Finished? ==>
          var n := w.phase.node;
          n.RunSupervisor? || n.IndexRepo? || n.RunPlanner? || n.HaltCostBudget? || n.HaltTaskFailed?
          || n.HitlUncertainty? || n.End?)
    && (w.phase.Paused? || w.phase.Resuming? ==> w.phase.node.HitlUncertainty?)
  }

  lemma PlannerAlwaysHalts(cfg: Config, st: State, sig: Signals, o: Oracle)
    requires cfg.maxCost < 0
    ensures var h := RouteHalts(Planner(cfg, st, sig, o).0);
            h == Some(HaltCostBudget) || h == Some(HaltTaskFailed) || h == Some(HitlUncertainty)
  {
  }

  lemma StillbornStep(cfg: Config, w: World, e: Event)
    requires cfg.maxCost < 0 && Stillborn(w)
    ensures Stillborn(Handle(cfg, w, e))
  {
    hide Planner, SignalsOf;
    if e.Tick? {
      PlannerAlwaysHalts(cfg, w.st, SignalsOf(w.st, "planner"), e.o);
    }
  }

  lemma {:induction false} NegativeCapIsStillborn(cfg: Config, es: seq<Event>)
    requires cfg.maxCost < 0
    ensures Stillborn(After(cfg, es))
  {
    if es != [] {
      NegativeCapIsStillborn(cfg, es[..|es| - 1]);
      StillbornStep(cfg, After(cfg, es[..|es| - 1]), es[|es| - 1]);
    }
  }

  ghost predicate Reachable(cfg: Config, w: World) {
    exists es :: w == After(cfg, es)
  }

  lemma ReachableIsClosed(cfg: Config)
    ensures Closed(cfg, iset w: World | Reachable(cfg, w))
  {
    assert START_WORLD == After(cfg, []);
    forall w: World, e | Reachable(cfg, w)
      ensures Reachable(cfg, Handle(cfg, w, e))
    {
      var es :| w == After(cfg, es);
      assert (es + [e])[..|es|] == es;
      assert Handle(cfg, w, e) == After(cfg, es + [e]);
    }
  }

  /** A push can happen exactly when interrupts before write operations are off and the cost cap is not negative. */
  lemma PushReachableIff(cfg: Config)
    ensures (exists w :: Reachable(cfg, w) && CommitAndPushCalled in w.acts) <==> !cfg.beforeWriteOps && cfg.maxCost >= 0
  {
    if !cfg.beforeWriteOps && cfg.maxCost >= 0 {
      ReachableIsClosed(cfg);
      var w := DeliveryIsReachable(cfg, iset w: World | Reachable(cfg, w));
    } else {
      forall w | Reachable(cfg, w)
        ensures CommitAndPushCalled !in w.acts
      {
        var es :| w == After(cfg, es);
        if cfg.maxCost < 0 {
          NegativeCapIsStillborn(cfg, es);
        } else {
          HistoriesFollowProtocol(cfg, es);
        }
      }
    }
  }

  // ---- What the graph alone does not guarantee ----

  /** Resumed with reject, the graph itself would go on to push and then ask for a PR: only the endpoint prevents it. */
  lemma GraphAloneIgnoresReject(cfg: Config, st: State, o: Oracle)
    requires o.commit == Pushed
    ensures var st1 := Declined(HitlPrePr, st);
            && Next(cfg, HitlPrePr, st1) == CommitAndPush
            && ActsOf(CommitAndPush, st1, o) == [CommitAndPushCalled]
            && Next(cfg, CommitAndPush, RunPlain(CommitAndPush, st1, o)) == OpenPr
  {
  }
}
