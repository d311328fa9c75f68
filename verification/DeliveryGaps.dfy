/** What a push or a pull request rests on: which agents completed a turn, and when one of them did not. */
module DeliveryGaps {
  import opened Support
  import opened Orchestrator
  import opened TaskRun
  import opened Termination
  import opened WriteSafety

  /** Some turn of the agent completed. */
  ghost predicate Completed(turns: seq<TurnRecord>, agent: string) {
    exists i :: 0 <= i < |turns| && IsTurnOf(turns[i], agent) && turns[i].ended.Billed?
  }

  lemma CompletedExtends(turns: seq<TurnRecord>, t: TurnRecord, agent: string)
    ensures Completed(turns + [t], agent) <==> Completed(turns, agent) || (IsTurnOf(t, agent) && t.ended.Billed?)
  {
    var turns' := turns + [t];
    assert turns'[|turns|] == t && forall i :: 0 <= i < |turns| ==> turns'[i] == turns[i];
  }

  // ---- One turn ----

  /** What a turn leaves of edit, verdict and report; in hybrid runs only completed turns lead on. */
  predicate TurnRests(cfg: Config, n: Node, st: State, st': State, ended: Ended) {
    && (st'.codeEdit.Some? <==> st.codeEdit.Some? || (IsCoder(n) && ended.Billed?))
    && (st'.reviewResult.Some?
        <==> if n.RunReviewer? && ended.Billed? then st.codeEdit.Some? else st.reviewResult.Some?)
    && (st'.testReport.Some? <==> if n.RunQa? && ended.Billed? then st.codeEdit.Some? else st.testReport.Some?)
    && (cfg.topology.Hybrid? && (IsCoder(n) || n.RunReviewer?) && RouteHalts(st').None? ==> ended.Billed?)
  }

  lemma PlannerRests(cfg: Config, st: State, sig: Signals, o: Oracle)
    ensures var (st', ended) := Planner(cfg, st, sig, o); TurnRests(cfg, RunPlanner, st, st', ended)
  {
  }

  lemma CoderRests(cfg: Config, st: State, sig: Signals, o: Oracle)
    requires cfg.topology.SupervisorOnly? && st.changePlan.Some?
    ensures var (st', ended) := Coder(cfg, st, sig, o); TurnRests(cfg, RunCoder, st, st', ended)
  {
  }

  lemma ReviewerRests(cfg: Config, st: State, sig: Signals, o: Oracle)
    requires cfg.topology.SupervisorOnly?
    ensures var (st', ended) := Reviewer(cfg, st, sig, o); TurnRests(cfg, RunReviewer, st, st', ended)
  {
  }

  lemma QaRests(cfg: Config, st: State, sig: Signals, o: Oracle)
    ensures var (st', ended) := Qa(cfg, st, sig, o); TurnRests(cfg, RunQa, st, st', ended)
  {
  }

  lemma HybridCoderRests(cfg: Config, n: Node, st: State, o: Oracle, peer: bool)
    requires cfg.topology.Hybrid? && IsCoder(n) && st.changePlan.Some?
    ensures var (st', ended) := HybridCoder(cfg, st, o, peer); TurnRests(cfg, n, st, st', ended)
  {
  }

  lemma HybridReviewerRests(cfg: Config, st: State, o: Oracle)
    requires cfg.topology.Hybrid?
    ensures var (st', ended) := HybridReviewer(cfg, st, o); TurnRests(cfg, RunReviewer, st, st', ended)
  {
  }

  lemma AgentRests(cfg: Config, n: Node, st: State, o: Oracle) returns (st': State, ended: Ended)
    requires IsAgent(n) && (IsCoder(n) ==> st.changePlan.Some?)
    requires cfg.topology.SupervisorOnly? ==> !n.RunPeerCoder?
    ensures (st', ended) == RunAgent(cfg, n, st, o) && TurnRests(cfg, n, st, st', ended)
  {
    hide Planner, Qa, Coder, Reviewer, HybridCoder, HybridReviewer, SignalsOf;
    var called := WithCalls(cfg, n, st, o);
    var sig := SignalsOf(called, AgentName(n));
    var r := AgentNode(cfg, n, called, sig, o);
    st', ended := r.0, r.1;
    match n
    case RunPlanner => PlannerRests(cfg, called, sig, o);
    case RunQa => QaRests(cfg, called, sig, o);
    case RunPeerCoder => HybridCoderRests(cfg, n, called, o, true);
    case RunCoder =>
      if cfg.topology.Hybrid? {
        HybridCoderRests(cfg, n, called, o, false);
      } else {
        CoderRests(cfg, called, sig, o);
      }
    case RunReviewer =>
      if cfg.topology.Hybrid? {
        HybridReviewerRests(cfg, called, o);
      } else {
        ReviewerRests(cfg, called, sig, o);
      }
  }

  // ---- Whole runs ----

  predicate PastCoder(n: Node) {
    n.RunReviewer? || n.RunPeerCoder? || n.RunQa? || Delivering(n)
  }

  /** Edit, verdict and report of the state go back to completed turns. */
  ghost predicate Grounded(st: State, turns: seq<TurnRecord>) {
    && (st.codeEdit.Some? <==> Completed(turns, "coder"))
    && (st.testReport.Some? <==> Completed(turns, "qa"))
    && (if st.codeEdit.Some? then st.reviewResult.Some? <==> Completed(turns, "reviewer") else st.reviewResult.None?)
  }

  ghost predicate Rests(cfg: Config, w: World) {
    && Grounded(w.st, w.turns)
    && (!w.phase.Finished? && InLoop(w.phase.node) && w.st.codeEdit.None? ==> !Completed(w.turns, "reviewer"))
    && (cfg.topology.Hybrid? && !w.phase.Finished? && PastCoder(w.phase.node) ==> w.st.codeEdit.Some?)
    && (cfg.topology.Hybrid? && !w.phase.Finished? && (w.phase.node.RunQa? || Delivering(w.phase.node)) ==>
          w.st.reviewResult.Some?)
    && (cfg.topology.Hybrid? && Delivered(w) ==> w.st.codeEdit.Some? && w.st.reviewResult.Some?)
    && (PullRequestCalled in w.acts ==> w.st.codeEdit.Some?)
  }

  lemma TurnGrounds(cfg: Config, st: State, st': State, turns: seq<TurnRecord>, t: TurnRecord)
    requires IsAgent(t.node) && Grounded(st, turns) && TurnRests(cfg, t.node, st, st', t.ended)
    requires IsCoder(t.node) && st.codeEdit.None? ==> !Completed(turns, "reviewer")
    requires t.node.RunQa? ==> st.codeEdit.Some?
    ensures Grounded(st', turns + [t])
  {
    hide Completed;
    CompletedExtends(turns, t, "coder");
    CompletedExtends(turns, t, "reviewer");
    CompletedExtends(turns, t, "qa");
  }

  /** Where an agent's turn leads, as far as edit and verdict matter. */
  lemma TurnLeadsOn(cfg: Config, n: Node, st: State, st': State, ended: Ended)
    requires IsAgent(n) && TurnRests(cfg, n, st, st', ended)
    ensures var n' := Next(cfg, n, st');
            && (InLoop(n') ==> InLoop(n) && (n.RunReviewer? ==> st'.reviewResult.Some?))
            && (PastCoder(n') ==> RouteHalts(st').None? && (IsCoder(n) || n.RunReviewer? || n.RunQa?))
            && (n'.RunQa? || Delivering(n') ==> n.RunReviewer? || n.RunQa?)
  {
    hide TurnRests;
  }

  lemma TurnKeepsRests(cfg: Config, w: World, n: Node, st': State, t: TurnRecord)
    requires Rests(cfg, w) && Consistent(cfg, w) && w.phase == At(n) && IsAgent(n) && t.node == n
    requires TurnRests(cfg, n, w.st, st', t.ended)
    ensures Rests(cfg, w.(st := st', phase := At(Next(cfg, n, st')), turns := w.turns + [t]))
  {
    AgentTurnFacts(cfg, w, n);
    TurnGrounds(cfg, w.st, st', w.turns, t);
    TurnLeadsOn(cfg, n, w.st, st', t.ended);
    CompletedExtends(w.turns, t, "reviewer");
    hide Completed, Consistent, Next, RouteHalts;
  }

  lemma AgentTurnFacts(cfg: Config, w: World, n: Node)
    requires Rests(cfg, w) && Consistent(cfg, w) && w.phase == At(n) && IsAgent(n)
    ensures w.acts == [] && (n.RunQa? ==> w.st.codeEdit.Some?)
    ensures IsCoder(n) && w.st.codeEdit.None? ==> !Completed(w.turns, "reviewer")
  {
    hide Completed;
  }

  lemma PlainTickKeepsRests(cfg: Config, w: World, o: Oracle)
    requires Rests(cfg, w) && w.phase.At? && !IsAgent(w.phase.node) && !Interrupts(w.phase.node) && !w.phase.node.End?
    ensures Rests(cfg, Advance(cfg, w, o))
  {
    hide RunAgent, Completed;
  }

  lemma OtherEventsKeepRests(cfg: Config, w: World, e: Event)
    requires Rests(cfg, w) && Consistent(cfg, w)
    requires e.Tick? && w.phase.At? ==> Interrupts(w.phase.node) || w.phase.node.End?
    ensures Rests(cfg, Handle(cfg, w, e))
  {
    hide RunAgent, RunPlain, Completed, Completion, BeforeInterrupt, AfterApproval, FinishTask;
  }

  lemma {:induction false} AlwaysRests(cfg: Config, es: seq<Event>)
    ensures Rests(cfg, After(cfg, es))
  {
    hide Rests, TurnRests, RunAgent, Counted;
    if es == [] {
      StartRests(cfg);
    } else {
      var init, e := es[..|es| - 1], es[|es| - 1];
      var w := After(cfg, init);
      AlwaysRests(cfg, init);
      AlwaysConsistent(cfg, init);
      AlwaysCounted(cfg, init);
      if e.Tick? && w.phase.At? && IsAgent(w.phase.node) {
        var n := w.phase.node;
        CoderHasPlan(cfg, w);
        PeersAreHybrid(cfg, w);
        var st', ended := AgentRests(cfg, n, w.st, e.o);
        TurnKeepsRests(cfg, w, n, st', RecordOf(cfg, n, w.st, e.o, st', ended));
      } else if e.Tick? && w.phase.At? && !Interrupts(w.phase.node) && !w.phase.node.End? {
        PlainTickKeepsRests(cfg, w, e.o);
      } else {
        OtherEventsKeepRests(cfg, w, e);
      }
    }
  }

  lemma PeersAreHybrid(cfg: Config, w: World)
    requires Counted(cfg, w) && w.phase.At?
    ensures cfg.topology.SupervisorOnly? ==> !w.phase.node.RunPeerCoder?
  {
  }

  lemma StartRests(cfg: Config)
    ensures Rests(cfg, START_WORLD)
  {
  }

  /** A push has an edit, a verdict on it, or a test report exactly when a Coder, Reviewer or QA turn completed. */
  lemma PushRestsOnCompletedTurns(cfg: Config, es: seq<Event>)
    requires CommitAndPushCalled in After(cfg, es).acts
    ensures var w := After(cfg, es);
            && (w.st.codeEdit.Some? <==> Completed(w.turns, "coder"))
            && (w.st.reviewResult.Some? <==> Completed(w.turns, "coder") && Completed(w.turns, "reviewer"))
            && (w.st.testReport.Some? <==> Completed(w.turns, "qa"))
  {
    AlwaysRests(cfg, es);
  }

  /** A pull request comes with a passing report under an accept verdict exactly when a QA turn completed. */
  lemma PullRequestTestedIff(cfg: Config, es: seq<Event>)
    requires PullRequestCalled in After(cfg, es).acts
    ensures var w := After(cfg, es);
            && w.st.codeEdit.Some?
            && (w.st.testReport.Some? && w.st.testReport.value.failed == 0 && w.st.reviewResult == Some(Accept)
                <==> Completed(w.turns, "qa"))
  {
    AlwaysRests(cfg, es);
    AlwaysConsistent(cfg, es);
    HistoriesFollowProtocol(cfg, es);
  }

  /** Hybrid runs push reviewed edits only. */
  lemma HybridPushesReviewedEdits(cfg: Config, es: seq<Event>)
    requires cfg.topology.Hybrid? && CommitAndPushCalled in After(cfg, es).acts
    ensures After(cfg, es).st.codeEdit.Some? && After(cfg, es).st.reviewResult.Some?
  {
    AlwaysRests(cfg, es);
  }

  // ---- The gaps, and exactly when they can occur ----

  /**
   * Environments where the Coder's, the Reviewer's or the QA agent's answer fails validation, or the verdict is
   * reject.
   */
  const NO_EDIT := SMOOTH.(edit := Invalid)
  const NO_REVIEW := SMOOTH.(review := Invalid)
  const NO_REPORT := SMOOTH.(report := Invalid)
  const REJECTING := SMOOTH.(review := Done(Reject, ZERO))

  lemma FirstFailureSyncs(st: State, agent: string)
    requires Smooth(st)
    ensures var sig := SignalsOf(st, agent);
            sig.failure.Synced? && !sig.failure.ue.fired && sig.batch.NoChange?
  {
  }

  /** A first QA answer that fails validation leaves no report and leads to finalize. */
  lemma ReachUntested(cfg: Config, s: iset<World>) returns (w: World)
    requires Closed(cfg, s) && cfg.maxCost >= 0
    requires forall v :: v in s ==> Reachable(cfg, v)
    ensures w in s && Undecided(w) && w.phase == At(Finalize) && w.st.status.Running? && w.st.outcome.NoOutcome?
    ensures w.st.codeEdit.Some? && w.st.reviewResult == Some(Accept) && w.st.testReport.None?
  {
    hide SignalsOf, Reachable;
    w := ReachQa(cfg, s);
    NoReportYet(cfg, w);
    SilentTurn(cfg, RunQa, w.st, NO_REPORT);
    FirstFailureSyncs(w.st, "qa");
    WriteSafety.Step(cfg, s, w, Tick(NO_REPORT));
    w := Advance(cfg, w, NO_REPORT);
  }

  lemma NoReportYet(cfg: Config, w: World)
    requires Reachable(cfg, w) && w.phase == At(RunQa)
    ensures w.st.testReport.None?
  {
    var es :| w == After(cfg, es);
    AlwaysConsistent(cfg, es);
  }

  /** A first Reviewer answer that fails validation leaves no verdict and leads to finalize. */
  lemma ReachUnreviewed(cfg: Config, s: iset<World>) returns (w: World)
    requires Closed(cfg, s) && cfg.maxCost >= 0 && cfg.topology.SupervisorOnly?
    ensures w in s && Undecided(w) && w.phase == At(Finalize) && w.st.status.Running? && w.st.outcome.NoOutcome?
    ensures w.st.codeEdit.Some? && w.st.reviewResult.None?
  {
    hide SignalsOf;
    w := ReachReviewer(cfg, s);
    SilentTurn(cfg, RunReviewer, w.st, NO_REVIEW);
    FirstFailureSyncs(w.st, "reviewer");
    WriteSafety.Step(cfg, s, w, Tick(NO_REVIEW));
    w := Advance(cfg, w, NO_REVIEW);
  }

  /** A terminal rejection leads to finalize as well. */
  lemma ReachRejected(cfg: Config, s: iset<World>) returns (w: World)
    requires Closed(cfg, s) && cfg.maxCost >= 0
    ensures w in s && Undecided(w) && w.phase == At(Finalize) && w.st.status.Running? && w.st.outcome.NoOutcome?
    ensures w.st.codeEdit.Some? && w.st.reviewResult == Some(Reject)
  {
    hide AgentNode, SignalsOf;
    w := ReachReviewer(cfg, s);
    QuietTurn(w, "reviewer");
    SilentTurn(cfg, RunReviewer, w.st, REJECTING);
    SmoothReviewer(cfg, w.st, SignalsOf(w.st, "reviewer"), REJECTING);
    WriteSafety.Step(cfg, s, w, Tick(REJECTING));
    w := Advance(cfg, w, REJECTING);
  }

  /** A failed first Coder turn does not halt: the Reviewer runs next, without an edit, and leads to finalize. */
  lemma ReachUnedited(cfg: Config, s: iset<World>) returns (w: World)
    requires Closed(cfg, s) && cfg.maxCost >= 0 && cfg.topology.SupervisorOnly?
    ensures w in s && Undecided(w) && w.phase == At(Finalize) && w.st.status.Running? && w.st.outcome.NoOutcome?
    ensures w.st.codeEdit.None? && w.st.reviewResult.None?
  {
    w := ReachUneditedReview(cfg, s);
    SilentTurn(cfg, RunReviewer, w.st, NO_EDIT);
    NothingPending(w.st);
    hide SignalsOf;
    WriteSafety.Step(cfg, s, w, Tick(NO_EDIT));
    w := Advance(cfg, w, NO_EDIT);
  }

  lemma NothingPending(st: State)
    requires st.pending == []
    ensures SignalsOf(st, "reviewer").batch.NoChange?
  {
  }

  lemma ReachUneditedReview(cfg: Config, s: iset<World>) returns (w: World)
    requires Closed(cfg, s) && cfg.maxCost >= 0 && cfg.topology.SupervisorOnly?
    ensures w in s && Undecided(w) && w.phase == At(RunReviewer) && w.st.codeEdit.None? && w.st.totals.cost == 0
    ensures w.st.status.Running? && w.st.outcome.NoOutcome? && w.st.pending == []
  {
    hide SignalsOf;
    w := ReachCoder(cfg, s);
    SilentTurn(cfg, RunCoder, w.st, NO_EDIT);
    FirstFailureSyncs(w.st, "coder");
    WriteSafety.Step(cfg, s, w, Tick(NO_EDIT));
    w := Advance(cfg, w, NO_EDIT);
  }

  lemma NoPushWithout(cfg: Config, w: World)
    requires Reachable(cfg, w) && (cfg.beforeWriteOps || cfg.maxCost < 0)
    ensures CommitAndPushCalled !in w.acts && PullRequestCalled !in w.acts
  {
    hide Reachable;
    PushReachableIff(cfg);
    if PullRequestCalled in w.acts {
      PullRequestsArePushes(cfg, w);
    }
  }

  lemma PullRequestsArePushes(cfg: Config, w: World)
    requires Reachable(cfg, w) && PullRequestCalled in w.acts
    ensures CommitAndPushCalled in w.acts
  {
    var es :| w == After(cfg, es);
    HistoriesFollowProtocol(cfg, es);
  }

  /** A pull request without a test report is possible exactly when a push is, in either topology. */
  lemma UntestedPullRequestIff(cfg: Config)
    ensures (exists w :: Reachable(cfg, w) && PullRequestCalled in w.acts && w.st.testReport.None?)
            <==> !cfg.beforeWriteOps && cfg.maxCost >= 0
  {
    hide Reachable;
    if !cfg.beforeWriteOps && cfg.maxCost >= 0 {
      ReachableIsClosed(cfg);
      var s := iset w: World | Reachable(cfg, w);
      var w := ReachUntested(cfg, s);
      w := Deliver(cfg, s, w);
      assert w.acts[2] == PullRequestCalled;
    } else {
      forall w | Reachable(cfg, w) ensures PullRequestCalled !in w.acts {
        NoPushWithout(cfg, w);
      }
    }
  }

  /** A pull request that no Reviewer looked at is possible exactly in supervisor_only, when a push is. */
  lemma UnreviewedPullRequestIff(cfg: Config)
    ensures (exists w :: Reachable(cfg, w) && PullRequestCalled in w.acts && w.st.reviewResult.None?)
            <==> cfg.topology.SupervisorOnly? && !cfg.beforeWriteOps && cfg.maxCost >= 0
  {
    hide Reachable;
    if cfg.topology.SupervisorOnly? && !cfg.beforeWriteOps && cfg.maxCost >= 0 {
      ReachableIsClosed(cfg);
      var s := iset w: World | Reachable(cfg, w);
      var w := ReachUnreviewed(cfg, s);
      w := Deliver(cfg, s, w);
      assert w.acts[2] == PullRequestCalled;
    } else {
      forall w | Reachable(cfg, w) && PullRequestCalled in w.acts ensures w.st.reviewResult.Some? {
        HybridDelivery(cfg, w);
      }
    }
  }

  /** A push without an edit is possible exactly in supervisor_only, when a push is. */
  lemma PushWithoutEditIff(cfg: Config)
    ensures (exists w :: Reachable(cfg, w) && CommitAndPushCalled in w.acts && w.st.codeEdit.None?)
            <==> cfg.topology.SupervisorOnly? && !cfg.beforeWriteOps && cfg.maxCost >= 0
  {
    hide Reachable;
    if cfg.topology.SupervisorOnly? && !cfg.beforeWriteOps && cfg.maxCost >= 0 {
      ReachableIsClosed(cfg);
      var s := iset w: World | Reachable(cfg, w);
      var w := ReachUnedited(cfg, s);
      w := Deliver(cfg, s, w);
      assert w.acts[1] == CommitAndPushCalled;
    } else {
      forall w | Reachable(cfg, w) && CommitAndPushCalled in w.acts ensures w.st.codeEdit.Some? {
        HybridDelivery(cfg, w);
      }
    }
  }

  /** A push of a terminally rejected change is possible exactly when a push is, in either topology. */
  lemma RejectedPushIff(cfg: Config)
    ensures (exists w :: Reachable(cfg, w) && CommitAndPushCalled in w.acts && w.st.reviewResult == Some(Reject))
            <==> !cfg.beforeWriteOps && cfg.maxCost >= 0
  {
    hide Reachable;
    if !cfg.beforeWriteOps && cfg.maxCost >= 0 {
      ReachableIsClosed(cfg);
      var s := iset w: World | Reachable(cfg, w);
      var w := ReachRejected(cfg, s);
      w := Deliver(cfg, s, w);
      assert w.acts[1] == CommitAndPushCalled;
    } else {
      forall w | Reachable(cfg, w) ensures CommitAndPushCalled !in w.acts {
        NoPushWithout(cfg, w);
      }
    }
  }

  /** A push outside the conditions of the gaps is a hybrid one, of a reviewed edit. */
  lemma HybridDelivery(cfg: Config, w: World)
    requires Reachable(cfg, w) && (CommitAndPushCalled in w.acts || PullRequestCalled in w.acts)
    requires cfg.topology.Hybrid? || cfg.beforeWriteOps || cfg.maxCost < 0
    ensures w.st.codeEdit.Some? && w.st.reviewResult.Some?
  {
    if PullRequestCalled in w.acts {
      PullRequestsArePushes(cfg, w);
    }
    var es :| w == After(cfg, es);
    PushReachableIff(cfg);
    HybridPushesReviewedEdits(cfg, es);
  }
}
