/** The turn a delivered run ends with, and where an answer that fails validation leads. */
module LastTurns {
  import opened Support
  import opened Orchestrator
  import opened TaskRun
  import opened Termination
  import opened Answers
  import opened AnsweredRuns
  import Counters
  import DeliveryGaps
  import TurnMerging

  // ---- The turn a delivered run ends with ----

  /** What the last turn was, given the verdict the run delivers under. */
  predicate EndsWith(l: Latest, t: TurnRecord) {
    match l.verdict
    case Some(Accept) => t.node.RunQa? && (t.ended.Billed? <==> l.report.Some?) && (!t.ended.Billed? ==> t.invalid)
    case Some(Reject) => t.node.RunReviewer? && t.ended.Billed?
    case Some(RejectWithChanges) => false
    case None => t.node.RunReviewer? && (l.edit.Some? ==> t.invalid)
  }

  predicate Tail(w: World) {
    && (!w.phase.Finished? && InLoop(w.phase.node) ==>
          w.st.reviewResult.None? || w.st.reviewResult == Some(RejectWithChanges))
    && ((!w.phase.Finished? && Delivering(w.phase.node)) || Delivered(w) ==>
          w.turns != [] && EndsWith(AnswersOf(w.st), w.turns[|w.turns| - 1]))
  }

  lemma TurnTail(cfg: Config, n: Node, st: State, o: Oracle, st': State, ended: Ended, t: TurnRecord)
    requires IsAgent(n) && Honours(cfg, n, st, o, st', ended) && Ends(cfg, n, st, o, st', ended)
    requires t.node == n && t.ended == ended && t.invalid == AnswerInvalid(n, st, o)
    requires InLoop(n) ==> st.reviewResult.None? || st.reviewResult == Some(RejectWithChanges)
    requires n.RunQa? ==> st.reviewResult == Some(Accept) && st.codeEdit.Some? && st.testReport.None?
    ensures var n' := Next(cfg, n, st');
            && (InLoop(n') ==> st'.reviewResult.None? || st'.reviewResult == Some(RejectWithChanges))
            && (Delivering(n') ==> EndsWith(AnswersOf(st'), t))
  {
    hide Keeps, Retries;
  }

  lemma TurnKeepsTail(cfg: Config, w: World, o: Oracle)
    requires Tail(w) && Consistent(cfg, w) && DeliveryGaps.Rests(cfg, w) && w.phase.At? && IsAgent(w.phase.node)
    requires w.phase.node.RunPeerCoder? ==> cfg.topology.Hybrid?
    ensures Tail(Advance(cfg, w, o))
  {
    hide RunAgent, Honours, Ends, EndsWith, Next;
    var n, w' := w.phase.node, Advance(cfg, w, o);
    DeliveryGaps.AgentTurnFacts(cfg, w, n);
    RunningAtAgent(cfg, w);
    TurnHonoursAnswer(cfg, n, w.st, o);
    TurnEnds(cfg, n, w.st, o);
    TurnTail(cfg, n, w.st, o, w'.st, RunAgent(cfg, n, w.st, o).1, w'.turns[|w.turns|]);
  }

  lemma OtherEventsKeepTail(cfg: Config, w: World, e: Event)
    requires Tail(w) && Consistent(cfg, w) && (e.Tick? && w.phase.At? ==> !IsAgent(w.phase.node))
    ensures Tail(Handle(cfg, w, e))
  {
    hide RunAgent, Completion, BeforeInterrupt, AfterApproval, FinishTask, EndsWith;
    OtherEventsHearNothing(cfg, w, e);
  }

  lemma {:induction false} AlwaysTail(cfg: Config, es: seq<Event>)
    ensures Tail(After(cfg, es))
  {
    hide Tail, Consistent, Advance, DecideOn, DeliveryGaps.Rests;
    if es == [] {
      StartTail();
    } else {
      var init, e := es[..|es| - 1], es[|es| - 1];
      var w := After(cfg, init);
      AlwaysTail(cfg, init);
      AlwaysConsistent(cfg, init);
      if e.Tick? && w.phase.At? && IsAgent(w.phase.node) {
        DeliveryGaps.AlwaysRests(cfg, init);
        AtWork(cfg, init);
        TurnKeepsTail(cfg, w, e.o);
      } else {
        OtherEventsKeepTail(cfg, w, e);
      }
    }
  }

  lemma StartTail()
    ensures Tail(START_WORLD)
  {
  }

  /**
   * Every pushed run ends with the turn its verdict calls for: under accept with a QA turn, whose report is stored or
   * whose answer failed validation; under reject with that review; without a verdict with a Reviewer turn that had no
   * edit or an invalid answer.
   */
  lemma PushedRunEndsWith(cfg: Config, es: seq<Event>)
    requires CommitAndPushCalled in After(cfg, es).acts
    ensures var w := After(cfg, es); w.turns != [] && EndsWith(AnswersOf(w.st), w.turns[|w.turns| - 1])
  {
    AlwaysTail(cfg, es);
  }

  // ---- Answers that fail validation ----

  /** Where an answer that fails validation leads, by what the run had stored and counted before. */
  function InvalidEdge(cfg: Config, n: Node, verdict: Option<ReviewVerdict>, failures: nat, coders: nat): Node {
    if failures >= 2 then HitlUncertainty
    else
      match n
      case RunPlanner => HaltTaskFailed
      case RunReviewer => if verdict.None? then Finalize else if coders >= 3 then HaltRetryExhausted else RunCoder
      case RunQa => Finalize
      case _ => RunReviewer
  }

  /**
   * A failed validation that is counted: the third since its agent's last clearing turn escalates; an earlier one
   * fails the Planner's task, and otherwise the run goes on with what it had.
   */
  lemma InvalidTurnLeads(cfg: Config, es: seq<Event>, o: Oracle)
    requires After(cfg, es).phase.At? && IsAgent(After(cfg, es).phase.node)
    requires var w := After(cfg, es);
             Counters.Validates(cfg, w.phase.node) && ReplyTo(w.phase.node, w.st, o).Malformed?
    ensures var w := After(cfg, es);
            After(cfg, es + [Tick(o)]).phase
            == At(InvalidEdge(cfg, w.phase.node, w.st.reviewResult,
                              Counters.Failures(cfg, w.turns, AgentName(w.phase.node)), CompletedCoders(w.turns)))
  {
    hide RunAgent, After, Honours, Retries, CompletedCoders, Counters.Failures, TurnMerging.ValidationFailures;
    var w := After(cfg, es);
    var n := w.phase.node;
    AtWork(cfg, es);
    AlwaysTail(cfg, es);
    AlwaysConsistent(cfg, es);
    AlwaysCounted(cfg, es);
    Counters.CountersCountTurns(cfg, es, AgentName(n), "");
    TurnHonoursAnswer(cfg, n, w.st, o);
    InvalidTurnEnds(cfg, n, w.st, o);
    var (st', ended) := RunAgent(cfg, n, w.st, o);
    HonoursKeeps(cfg, n, w.st, o, st', ended);
    InvalidLeads(cfg, n, w.st, st', Counters.Failures(cfg, w.turns, AgentName(n)), CompletedCoders(w.turns));
    Appended(cfg, es, Tick(o));
    assert Advance(cfg, w, o).phase == At(Next(cfg, n, st'));
  }

  lemma HonoursKeeps(cfg: Config, n: Node, st: State, o: Oracle, st': State, ended: Ended)
    requires IsAgent(n) && Honours(cfg, n, st, o, st', ended) && !ReplyTo(n, st, o).Answered?
    ensures AnswersOf(st') == AnswersOf(st) && Retries(st') == Retries(st)
  {
    hide Retries;
  }

  lemma InvalidLeads(cfg: Config, n: Node, st: State, st': State, failures: nat, coders: nat)
    requires Counters.Validates(cfg, n)
    requires if failures >= 2 then st'.outcome.UncertaintyEscalation?
             else if n.RunPlanner? then Stopped(st')
             else GoesOn(st')
    requires AnswersOf(st') == AnswersOf(st) && Retries(st') == coders
    requires n.RunReviewer? ==> st.reviewResult.None? || st.reviewResult == Some(RejectWithChanges)
    requires n.RunQa? ==> st.testReport.None?
    ensures Next(cfg, n, st') == InvalidEdge(cfg, n, st.reviewResult, failures, coders)
  {
    hide Retries;
  }
}
