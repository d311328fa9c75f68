/** Whole schedules against the answers in them: what is stored and which edge every turn takes. */
module AnsweredRuns {
  import opened Support
  import opened Orchestrator
  import opened TaskRun
  import opened Termination
  import opened Answers
  import Counters

  lemma Appended(cfg: Config, es: seq<Event>, e: Event)
    ensures After(cfg, es + [e]) == Handle(cfg, After(cfg, es), e)
  {
    assert (es + [e])[..|es|] == es;
  }

  // ---- The answers a run rests on ----

  /** The answers of the latest completed turns of Planner, Coder, Reviewer and QA. */
  datatype Latest = Latest(plan: Option<Plan>, edit: Option<Edit>, verdict: Option<ReviewVerdict>, report: Option<Report>)

  /** A Coder without a plan, and a Reviewer or QA agent without an edit, is not called and leaves no answer. */
  function Heard(before: Latest, n: Node, o: Oracle): Latest {
    match n
    case RunPlanner => before.(plan := ValueOf(true, o.plan))
    case RunReviewer => before.(verdict := ValueOf(before.edit.Some?, o.review))
    case RunQa => before.(report := ValueOf(before.edit.Some?, o.report))
    case _ => before.(edit := ValueOf(before.plan.Some?, o.edit))
  }

  /** The tick of an agent whose turn completes. */
  ghost predicate Completes(cfg: Config, w: World, e: Event) {
    e.Tick? && w.phase.At? && IsAgent(w.phase.node) && RunAgent(cfg, w.phase.node, w.st, e.o).1.Billed?
  }

  /** Read off the schedule. */
  ghost function LatestAnswers(cfg: Config, es: seq<Event>): Latest {
    if es == [] then Latest(None, None, None, None)
    else
      var before, w, e := LatestAnswers(cfg, es[..|es| - 1]), After(cfg, es[..|es| - 1]), es[|es| - 1];
      if Completes(cfg, w, e) then Heard(before, w.phase.node, e.o) else before
  }

  function AnswersOf(st: State): Latest {
    Latest(st.changePlan, st.codeEdit, st.reviewResult, st.testReport)
  }

  lemma TurnHears(cfg: Config, w: World, o: Oracle)
    requires w.phase.At? && IsAgent(w.phase.node)
    ensures AnswersOf(Advance(cfg, w, o).st)
            == if Completes(cfg, w, Tick(o)) then Heard(AnswersOf(w.st), w.phase.node, o) else AnswersOf(w.st)
  {
    hide RunAgent, Bills, Keeps;
    TurnHonoursAnswer(cfg, w.phase.node, w.st, o);
  }

  lemma OtherEventsHearNothing(cfg: Config, w: World, e: Event)
    requires e.Tick? && w.phase.At? ==> !IsAgent(w.phase.node)
    ensures AnswersOf(Handle(cfg, w, e).st) == AnswersOf(w.st)
  {
    hide RunAgent, RunPlain, Approved, Next, Completion, BeforeInterrupt, AfterApproval, Interrupts, ActsOf, FinishTask;
    if e.Tick? && !w.phase.Finished? {
      NodesKeepAnswers(w.phase.node, w.st, e.o);
    }
  }

  lemma NodesKeepAnswers(n: Node, st: State, o: Oracle)
    ensures AnswersOf(RunPlain(n, st, o)) == AnswersOf(st) == AnswersOf(Approved(n, st))
  {
  }

  /** Plan, edit, verdict and report are always the agents' own latest answers, as they came. */
  lemma {:induction false} StateHoldsLatestAnswers(cfg: Config, es: seq<Event>)
    ensures AnswersOf(After(cfg, es).st) == LatestAnswers(cfg, es)
  {
    hide Heard, Advance, DecideOn;
    if es != [] {
      var init, e := es[..|es| - 1], es[|es| - 1];
      var w := After(cfg, init);
      StateHoldsLatestAnswers(cfg, init);
      if e.Tick? && w.phase.At? && IsAgent(w.phase.node) {
        TurnHears(cfg, w, e.o);
      } else {
        OtherEventsHearNothing(cfg, w, e);
      }
    }
  }

  // ---- The edge every turn takes ----

  function CompletedCoders(turns: seq<TurnRecord>): nat {
    if turns == [] then 0
    else
      var t := turns[|turns| - 1];
      CompletedCoders(turns[..|turns| - 1]) + if IsCoder(t.node) && t.ended.Billed? then 1 else 0
  }

  lemma CompletedCodersExtend(turns: seq<TurnRecord>, t: TurnRecord)
    ensures CompletedCoders(turns + [t]) == CompletedCoders(turns) + if IsCoder(t.node) && t.ended.Billed? then 1 else 0
  {
    assert (turns + [t])[..|turns|] == turns;
  }

  predicate RetriesCount(w: World) {
    w.acts == [] ==> Retries(w.st) == CompletedCoders(w.turns)
  }

  lemma TurnKeepsCount(cfg: Config, w: World, o: Oracle)
    requires RetriesCount(w) && w.phase.At? && IsAgent(w.phase.node)
    ensures RetriesCount(Advance(cfg, w, o))
  {
    hide RunAgent, Retries, CompletedCoders, Stores, Bills;
    var n, w' := w.phase.node, Advance(cfg, w, o);
    TurnHonoursAnswer(cfg, n, w.st, o);
    assert w'.turns == w.turns + [w'.turns[|w.turns|]];
    CompletedCodersExtend(w.turns, w'.turns[|w.turns|]);
  }

  lemma OtherEventsKeepCount(cfg: Config, w: World, e: Event)
    requires Consistent(cfg, w) && RetriesCount(w) && (e.Tick? && w.phase.At? ==> !IsAgent(w.phase.node))
    ensures RetriesCount(Handle(cfg, w, e))
  {
    hide RunAgent, CompletedCoders;
  }

  /** Until a decision is made, the retry counter is the number of completed Coder turns. */
  lemma {:induction false} RetriesCountCoders(cfg: Config, es: seq<Event>)
    ensures RetriesCount(After(cfg, es))
  {
    hide RetriesCount, Consistent, Advance, DecideOn;
    if es == [] {
      NoRetries();
    } else {
      var init, e := es[..|es| - 1], es[|es| - 1];
      var w := After(cfg, init);
      RetriesCountCoders(cfg, init);
      AlwaysConsistent(cfg, init);
      if e.Tick? && w.phase.At? && IsAgent(w.phase.node) {
        TurnKeepsCount(cfg, w, e.o);
      } else {
        OtherEventsKeepCount(cfg, w, e);
      }
    }
  }

  lemma NoRetries()
    ensures RetriesCount(START_WORLD)
  {
  }

  /** The edge a completed turn takes, by the answer and by how many Coder turns the run has completed. */
  function EdgeOf(cfg: Config, n: Node, called: bool, o: Oracle, coders: nat): Node {
    match n
    case RunPlanner => RunCoder
    case RunReviewer =>
      if !called || !o.review.Done? || o.review.value.Reject? then Finalize
      else if o.review.value.Accept? then RunQa
      else if coders >= 3 then HaltRetryExhausted
      else if cfg.topology.Hybrid? then RunPeerCoder
      else RunCoder
    case RunQa => if called && o.report.Done? && o.report.value.failed > 0 then HaltTestFailure else Finalize
    case _ => RunReviewer
  }

  /** An agent is at work, undecided, with a clean state. */
  lemma AtWork(cfg: Config, es: seq<Event>)
    requires After(cfg, es).phase.At? && IsAgent(After(cfg, es).phase.node)
    ensures var w := After(cfg, es);
            && w.st.status.Running? && w.st.outcome.NoOutcome? && w.acts == []
            && (w.phase.node.RunPeerCoder? ==> cfg.topology.Hybrid?)
            && Retries(w.st) == CompletedCoders(w.turns)
  {
    AlwaysConsistent(cfg, es);
    AlwaysCounted(cfg, es);
    RetriesCountCoders(cfg, es);
    hide Retries, CompletedCoders, LoopFits, Budget;
  }

  lemma CompletedLeads(cfg: Config, n: Node, st: State, o: Oracle, st': State, ended: Ended, coders: nat)
    requires IsAgent(n) && ended.Billed? && Retries(st) == coders
    requires Honours(cfg, n, st, o, st', ended) && Ends(cfg, n, st, o, st', ended)
    ensures Next(cfg, n, st') == EdgeOf(cfg, n, Runs(n, st), o, coders)
  {
    hide Retries;
  }

  lemma HaltedLeads(cfg: Config, n: Node, st: State, o: Oracle, st': State, ended: Ended)
    requires IsAgent(n) && Ends(cfg, n, st, o, st', ended) && Bills(cfg, n, st, o, ended)
    ensures ended.Overspent? ==> Next(cfg, n, st') == HaltCostBudget
    ensures var reply, n' := ReplyTo(n, st, o), Next(cfg, n, st');
            && (reply.Answered? && ended.Unbilled? ==> n' == HitlLoop || n' == HitlUncertainty)
            && (reply.Raised? ==> n' == HaltTaskFailed)
            && (reply.Blocked? ==> n' == if Guarded(cfg, n) then HitlGuardrail else HaltTaskFailed)
            && (reply.Malformed? && !Counters.Validates(cfg, n) ==> n' == HaltTaskFailed)
  {
    hide Runs, ReplyTo;
  }

  /**
   * Where every turn of every run leads: a completed one by its answer and the completed Coder turns so far, one over
   * the cap to the budget halt, one that escalates for its calls or for a repeated rejection to that checkpoint, and
   * one whose call failed by the kind of failure.
   */
  lemma EveryTurnLeads(cfg: Config, es: seq<Event>, o: Oracle)
    requires After(cfg, es).phase.At? && IsAgent(After(cfg, es).phase.node)
    ensures var w := After(cfg, es);
            var n, reply := w.phase.node, ReplyTo(w.phase.node, w.st, o);
            var ended, phase := RunAgent(cfg, n, w.st, o).1, After(cfg, es + [Tick(o)]).phase;
            && phase.At?
            && (ended.Billed? ==> phase.node == EdgeOf(cfg, n, Runs(n, w.st), o, CompletedCoders(w.turns)))
            && (ended.Overspent? ==> phase.node == HaltCostBudget)
            && (reply.Answered? && ended.Unbilled? ==> phase.node == HitlLoop || phase.node == HitlUncertainty)
            && (reply.Raised? ==> phase.node == HaltTaskFailed)
            && (reply.Blocked? ==> phase.node == if Guarded(cfg, n) then HitlGuardrail else HaltTaskFailed)
            && (reply.Malformed? && !Counters.Validates(cfg, n) ==> phase.node == HaltTaskFailed)
  {
    hide RunAgent, After, Next, EdgeOf, Honours, Ends, ReplyTo, Runs, Retries, CompletedCoders;
    var w := After(cfg, es);
    var n := w.phase.node;
    AtWork(cfg, es);
    TurnHonoursAnswer(cfg, n, w.st, o);
    TurnEnds(cfg, n, w.st, o);
    var (st', ended) := RunAgent(cfg, n, w.st, o);
    assert Bills(cfg, n, w.st, o, ended) by { HonoursBills(cfg, n, w.st, o, st', ended); }
    HaltedLeads(cfg, n, w.st, o, st', ended);
    if ended.Billed? {
      CompletedLeads(cfg, n, w.st, o, st', ended, CompletedCoders(w.turns));
    }
    Appended(cfg, es, Tick(o));
    assert Advance(cfg, w, o).phase == At(Next(cfg, n, st'));
  }

  lemma HonoursBills(cfg: Config, n: Node, st: State, o: Oracle, st': State, ended: Ended)
    requires IsAgent(n) && Honours(cfg, n, st, o, st', ended)
    ensures Bills(cfg, n, st, o, ended)
  {
  }
}
