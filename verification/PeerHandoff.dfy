/** The peer loop of the hybrid topology: span parents and the handoff count, over every run. */
module PeerHandoff {
  import opened Support
  import opened Orchestrator
  import opened TaskRun
  import opened Bookkeeping
  import Termination

  predicate CompletedReview(t: TurnRecord) {
    t.node.RunReviewer? && t.ended.Billed?
  }

  predicate CompletedPeer(t: TurnRecord) {
    t.node.RunPeerCoder? && t.ended.Billed?
  }

  /** Span of the latest completed Reviewer turn. */
  function LatestReview(turns: seq<TurnRecord>): Option<string> {
    if turns == [] then None
    else if CompletedReview(turns[|turns| - 1]) then Some(turns[|turns| - 1].spanId)
    else LatestReview(turns[..|turns| - 1])
  }

  function SpanOf(review: Option<string>): string {
    if review.Some? then review.value else ""
  }

  function CompletedPeers(turns: seq<TurnRecord>): nat {
    if turns == [] then 0
    else CompletedPeers(turns[..|turns| - 1]) + if CompletedPeer(turns[|turns| - 1]) then 1 else 0
  }

  /** Verdicts that send the edit back after a completed peer Coder: all, or those whose preceding review left an id. */
  function PeerRejections(turns: seq<TurnRecord>, onlyTraced: bool): nat {
    if turns == [] then 0
    else
      var init, t := turns[..|turns| - 1], turns[|turns| - 1];
      PeerRejections(init, onlyTraced)
      + if CompletedReview(t) && t.review == Some(RejectWithChanges) && CompletedPeers(init) > 0
           && (onlyTraced ==> SpanOf(LatestReview(init)) != "") then 1 else 0
  }

  /** The peer Coder turn at i follows the Reviewer turn that sent the edit back, and hangs below its span. */
  predicate HangsBelowReview(turns: seq<TurnRecord>, i: nat, supervisor: string)
    requires i < |turns|
  {
    && i > 0 && CompletedReview(turns[i - 1]) && turns[i - 1].review == Some(RejectWithChanges)
    && turns[i].parent == if turns[i - 1].spanId != "" then turns[i - 1].spanId else supervisor
  }

  predicate BeforePeers(n: Node) {
    n.RunSupervisor? || n.IndexRepo? || n.RunPlanner? || n.RunCoder?
  }

  ghost predicate Traced(w: World) {
    && SpanOf(LatestReview(w.turns)) == w.st.lastReviewerSpanId
    && w.st.peerHandoffCount == CompletedPeers(w.turns) + PeerRejections(w.turns, true)
    && PeerRejections(w.turns, true) <= CompletedPeers(w.turns)
    && (!w.phase.Finished? && w.phase.node.RunReviewer? ==>
          CompletedPeers(w.turns) == 0 || PeerRejections(w.turns, true) < CompletedPeers(w.turns))
    && (!w.phase.Finished? && BeforePeers(w.phase.node) ==> CompletedPeers(w.turns) == 0)
    && (forall i: nat :: i < |w.turns| && w.turns[i].node.RunPeerCoder? ==>
          HangsBelowReview(w.turns, i, w.st.supervisorSpanId))
    && (!w.phase.Finished? && w.phase.node.RunPeerCoder? ==>
          && w.turns != [] && CompletedReview(w.turns[|w.turns| - 1])
          && w.turns[|w.turns| - 1].review == Some(RejectWithChanges))
    && (!w.phase.Finished? && w.phase.node.RunSupervisor? ==> w.turns == [])
    && (!w.phase.Finished? && IsAgent(w.phase.node) ==> w.phase.At?)
  }

  /** What one hybrid turn does to the handoff fields. */
  predicate TurnTraces(cfg: Config, n: Node, st: State, o: Oracle, st': State, ended: Ended) {
    && st'.supervisorSpanId == st.supervisorSpanId
    && st'.lastReviewerSpanId == (if n.RunReviewer? && ended.Billed? then o.spanId else st.lastReviewerSpanId)
    && st'.peerHandoffCount == st.peerHandoffCount
         + (if n.RunPeerCoder? && ended.Billed? then 1 else 0)
         + (if n.RunReviewer? && ended.Billed? && IsPeerLoop(st) && st'.reviewResult == Some(RejectWithChanges)
            then 1 else 0)
    && (Next(cfg, n, st').RunPeerCoder? ==>
          n.RunReviewer? && ended.Billed? && st'.reviewResult == Some(RejectWithChanges))
    && !Next(cfg, n, st').RunSupervisor?
    && (BeforePeers(Next(cfg, n, st')) ==> BeforePeers(n))
    && (Next(cfg, n, st').RunReviewer? ==> n.RunCoder? || (n.RunPeerCoder? && ended.Billed?))
  }

  lemma HybridTurnTraces(cfg: Config, n: Node, st: State, sig: Signals, o: Oracle)
    requires cfg.topology.Hybrid? && (n.RunCoder? || n.RunPeerCoder? || n.RunReviewer?)
    ensures var (st', ended) := AgentNode(cfg, n, st, sig, o); TurnTraces(cfg, n, st, o, st', ended)
  {
  }

  lemma PlannerTraces(cfg: Config, st: State, sig: Signals, o: Oracle)
    ensures var (st', ended) := Planner(cfg, st, sig, o); TurnTraces(cfg, RunPlanner, st, o, st', ended)
  {
  }

  lemma QaTraces(cfg: Config, st: State, sig: Signals, o: Oracle)
    ensures var (st', ended) := Qa(cfg, st, sig, o); TurnTraces(cfg, RunQa, st, o, st', ended)
  {
  }

  lemma AgentTraces(cfg: Config, n: Node, st: State, o: Oracle) returns (st': State, ended: Ended)
    requires cfg.topology.Hybrid? && IsAgent(n)
    ensures (st', ended) == RunAgent(cfg, n, st, o) && TurnTraces(cfg, n, st, o, st', ended)
  {
    hide Planner, Qa, HybridCoder, HybridReviewer, SignalsOf, TurnTraces;
    var called := WithCalls(cfg, n, st, o);
    var sig := SignalsOf(called, AgentName(n));
    var r := AgentNode(cfg, n, called, sig, o);
    st', ended := r.0, r.1;
    match n {
      case RunPlanner => PlannerTraces(cfg, called, sig, o);
      case RunQa => QaTraces(cfg, called, sig, o);
      case _ => HybridTurnTraces(cfg, n, called, sig, o);
    }
    CallsLeaveNoTrace(cfg, n, st, called, o, st', ended);
  }

  lemma CallsLeaveNoTrace(cfg: Config, n: Node, st: State, called: State, o: Oracle, st': State, ended: Ended)
    requires called == st.(pending := called.pending) && TurnTraces(cfg, n, called, o, st', ended)
    ensures TurnTraces(cfg, n, st, o, st', ended)
  {
    hide Next;
  }

  lemma TurnKeepsTraced(cfg: Config, w: World, n: Node, o: Oracle, st': State, ended: Ended)
    requires Traced(w) && w.phase == At(n) && IsAgent(n) && TurnTraces(cfg, n, w.st, o, st', ended)
    ensures Traced(w.(st := st', phase := At(Next(cfg, n, st')),
                      turns := w.turns + [RecordOf(cfg, n, w.st, o, st', ended)]))
  {
    hide Next;
    var t := RecordOf(cfg, n, w.st, o, st', ended);
    var turns' := w.turns + [t];
    assert turns'[..|w.turns|] == w.turns;
    assert n.RunPeerCoder? ==> LatestReview(w.turns) == Some(w.turns[|w.turns| - 1].spanId);
    forall i: nat | i < |turns'| && turns'[i].node.RunPeerCoder?
      ensures HangsBelowReview(turns', i, st'.supervisorSpanId)
    {
      assert i < |w.turns| ==> HangsBelowReview(w.turns, i, w.st.supervisorSpanId);
    }
  }

  lemma PlainTickKeepsTraced(cfg: Config, w: World, o: Oracle)
    requires Traced(w) && w.phase.At? && !IsAgent(w.phase.node) && !Interrupts(w.phase.node) && !w.phase.node.End?
    ensures Traced(Advance(cfg, w, o))
  {
    hide RunAgent, LatestReview, CompletedPeers, PeerRejections, HangsBelowReview;
  }

  lemma OtherEventsKeepTraced(cfg: Config, w: World, e: Event)
    requires Traced(w)
    requires e.Tick? && w.phase.At? ==> Interrupts(w.phase.node) || w.phase.node.End?
    ensures Traced(Handle(cfg, w, e))
  {
    hide RunAgent, RunPlain, LatestReview, CompletedPeers, PeerRejections, HangsBelowReview, CompletedReview;
    hide Completion, FinishTask, BeforeInterrupt, AfterApproval;
  }

  lemma {:induction false} AlwaysTraced(cfg: Config, es: seq<Event>)
    requires cfg.topology.Hybrid?
    ensures Traced(After(cfg, es))
  {
    hide Traced, TurnTraces, RunAgent;
    if es == [] {
      StartTraced();
    } else {
      var w, e := After(cfg, es[..|es| - 1]), es[|es| - 1];
      AlwaysTraced(cfg, es[..|es| - 1]);
      if e.Tick? && w.phase.At? && IsAgent(w.phase.node) {
        var st', ended := AgentTraces(cfg, w.phase.node, w.st, e.o);
        TurnKeepsTraced(cfg, w, w.phase.node, e.o, st', ended);
      } else if e.Tick? && w.phase.At? && !Interrupts(w.phase.node) && !w.phase.node.End? {
        PlainTickKeepsTraced(cfg, w, e.o);
      } else {
        OtherEventsKeepTraced(cfg, w, e);
      }
    }
  }

  lemma StartTraced()
    ensures Traced(START_WORLD)
  {
  }

  /**
   * Every peer Coder turn directly follows a reject_with_changes and hangs below that Reviewer's span, if it has
   * an id.
   */
  lemma PeerSpansHangBelowReviews(cfg: Config, es: seq<Event>, i: nat)
    requires cfg.topology.Hybrid?
    requires i < |After(cfg, es).turns| && After(cfg, es).turns[i].node.RunPeerCoder?
    ensures var w := After(cfg, es); HangsBelowReview(w.turns, i, w.st.supervisorSpanId)
  {
    AlwaysTraced(cfg, es);
  }

  lemma {:induction false} PeersAreExecutions(turns: seq<TurnRecord>)
    ensures CompletedPeers(turns) <= Termination.Executions(turns, RunPeerCoder)
  {
    if turns != [] {
      PeersAreExecutions(turns[..|turns| - 1]);
    }
  }

  /** The handoff count, whatever the span ids: a rejection counts only if the review before it left an id. */
  lemma HandoffCountIsExact(cfg: Config, es: seq<Event>)
    requires cfg.topology.Hybrid?
    ensures var w := After(cfg, es);
            && w.st.peerHandoffCount == CompletedPeers(w.turns) + PeerRejections(w.turns, true)
            && w.st.peerHandoffCount <= 4
  {
    AlwaysTraced(cfg, es);
    Termination.AgentRunsBounded(cfg, es);
    PeersAreExecutions(After(cfg, es).turns);
  }

  lemma {:induction false} PeersFollowReviews(turns: seq<TurnRecord>, supervisor: string)
    requires forall i: nat :: i < |turns| && turns[i].node.RunPeerCoder? ==> HangsBelowReview(turns, i, supervisor)
    ensures CompletedPeers(turns) > 0 ==> LatestReview(turns).Some?
  {
    if turns != [] {
      var init := turns[..|turns| - 1];
      forall i: nat | i < |init| && init[i].node.RunPeerCoder?
        ensures HangsBelowReview(init, i, supervisor)
      {
        assert HangsBelowReview(turns, i, supervisor);
      }
      PeersFollowReviews(init, supervisor);
      if turns[|turns| - 1].node.RunPeerCoder? {
        assert HangsBelowReview(turns, |turns| - 1, supervisor);
      }
    }
  }

  lemma {:induction false} LatestReviewIsAReview(turns: seq<TurnRecord>)
    ensures LatestReview(turns).Some? ==>
              exists i :: 0 <= i < |turns| && CompletedReview(turns[i]) && turns[i].spanId == LatestReview(turns).value
  {
    if turns != [] {
      LatestReviewIsAReview(turns[..|turns| - 1]);
    }
  }

  predicate ReviewsHaveIds(turns: seq<TurnRecord>) {
    forall i :: 0 <= i < |turns| && CompletedReview(turns[i]) ==> turns[i].spanId != ""
  }

  lemma {:induction false} WithIdsEveryRejectionCounts(turns: seq<TurnRecord>, supervisor: string)
    requires forall i: nat :: i < |turns| && turns[i].node.RunPeerCoder? ==> HangsBelowReview(turns, i, supervisor)
    requires ReviewsHaveIds(turns)
    ensures PeerRejections(turns, true) == PeerRejections(turns, false)
  {
    if turns != [] {
      var init := turns[..|turns| - 1];
      forall i: nat | i < |init| && init[i].node.RunPeerCoder?
        ensures HangsBelowReview(init, i, supervisor)
      {
        assert HangsBelowReview(turns, i, supervisor);
      }
      WithIdsEveryRejectionCounts(init, supervisor);
      PeersFollowReviews(init, supervisor);
      LatestReviewIsAReview(init);
    }
  }

  /** When every review leaves an id: completed peer turns plus the reject_with_changes verdicts given after one. */
  lemma HandoffCountWithIds(cfg: Config, es: seq<Event>)
    requires cfg.topology.Hybrid? && ReviewsHaveIds(After(cfg, es).turns)
    ensures var w := After(cfg, es);
            w.st.peerHandoffCount == CompletedPeers(w.turns) + PeerRejections(w.turns, false)
  {
    AlwaysTraced(cfg, es);
    WithIdsEveryRejectionCounts(After(cfg, es).turns, After(cfg, es).st.supervisorSpanId);
  }
}
