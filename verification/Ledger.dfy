/** Where every token and every cost unit of a run ends up, and the cap on what is recorded. */
module Ledger {
  import opened Support
  import opened Orchestrator
  import opened TaskRun
  import opened Answers
  import Recording
  import Uncertainty

  datatype Column = TokensIn | TokensOut | Cached | Cost

  function Read(b: Bill, c: Column): nat {
    match c
    case TokensIn => b.tokensIn
    case TokensOut => b.tokensOut
    case Cached => b.cached
    case Cost => b.cost
  }

  /** A column summed over the entries of agent_costs. */
  ghost function SumOfAgents(costs: map<string, Bill>, c: Column): int {
    MapSum(map a | a in costs :: Read(costs[a], c))
  }

  lemma SumOfAgentsUpdate(costs: map<string, Bill>, a: string, b: Bill, c: Column)
    ensures SumOfAgents(costs[a := GetOr(costs, a, ZERO).Plus(b)], c) == SumOfAgents(costs, c) + Read(b, c)
  {
    var m: map<string, int> := map k | k in costs :: Read(costs[k], c);
    var costs' := costs[a := GetOr(costs, a, ZERO).Plus(b)];
    MapSumUpdate(m, a, Read(costs'[a], c));
    assert GetOr(m, a, 0) == Read(GetOr(costs, a, ZERO), c);
    assert m[a := Read(costs'[a], c)] == map k | k in costs' :: Read(costs'[k], c);
  }

  // ---- What the turns themselves cost ----

  /** What one turn adds to the running totals: all of a completed turn, the cost alone of the one over budget. */
  function Recorded(t: TurnRecord, c: Column): nat {
    match t.ended
    case Billed(b) => Read(b, c)
    case Overspent(b) => if c.Cost? then b.cost else 0
    case Unbilled => 0
  }

  /** What one turn adds to an agent's own entry: completed turns only. */
  function Charged(t: TurnRecord, agent: string, c: Column): nat {
    if t.ended.Billed? && IsAgent(t.node) && AgentName(t.node) == agent then Read(t.ended.bill, c) else 0
  }

  function TotalRecorded(turns: seq<TurnRecord>, c: Column): nat {
    if turns == [] then 0 else TotalRecorded(turns[..|turns| - 1], c) + Recorded(turns[|turns| - 1], c)
  }

  function TotalCharged(turns: seq<TurnRecord>, agent: string, c: Column): nat {
    if turns == [] then 0 else TotalCharged(turns[..|turns| - 1], agent, c) + Charged(turns[|turns| - 1], agent, c)
  }

  /** The cost recorded for a call that broke the budget, charged to no agent. */
  function Excess(turns: seq<TurnRecord>): nat {
    if turns != [] && turns[|turns| - 1].ended.Overspent? then turns[|turns| - 1].ended.bill.cost else 0
  }

  // ---- One turn ----

  /** How a turn books its bill. */
  predicate Books(cfg: Config, agent: string, st: State, st': State, ended: Ended) {
    match ended
    case Billed(b) =>
      && st'.totals == st.totals.Plus(b) && st'.totals.cost <= cfg.maxCost
      && st'.agentCosts == st.agentCosts[agent := GetOr(st.agentCosts, agent, ZERO).Plus(b)]
      && !st'.outcome.CostBudgetExhausted?
    case Overspent(b) =>
      && st'.totals == st.totals.(cost := st.totals.cost + b.cost) && st'.totals.cost > cfg.maxCost
      && st'.agentCosts == st.agentCosts
      && st'.outcome.CostBudgetExhausted?
    case Unbilled =>
      st'.totals == st.totals && st'.agentCosts == st.agentCosts && !st'.outcome.CostBudgetExhausted?
  }

  lemma CloseTurnBooks(cfg: Config, st: State, updated: State, agent: string, ue: Uncertainty.Tracker,
                       batch: Recording.BatchUpdate, bill: Bill)
    requires updated.outcome.NoOutcome? && (updated.totals, updated.agentCosts) == (st.totals, st.agentCosts)
    requires !OverBudget(cfg, st, bill)
    ensures var (st', ended) := CloseTurn(st, updated, agent, ue, batch, bill); Books(cfg, agent, st, st', ended)
  {
  }

  lemma ExhaustedBooks(cfg: Config, agent: string, st: State, bill: Bill)
    requires OverBudget(cfg, st, bill)
    ensures Books(cfg, agent, st, Exhausted(st, bill), Overspent(bill))
  {
  }

  lemma FailedTurnBooks<T>(cfg: Config, agent: string, st: State, sig: Signals, turn: Turn<T>)
    requires !turn.Done? && st.outcome.NoOutcome?
    ensures Books(cfg, agent, st, FailedTurn(st, sig, turn), Unbilled)
  {
  }

  lemma AccumulateBooks(cfg: Config, st: State, updated: State, agent: string, bill: Bill)
    requires updated.outcome.NoOutcome? && (updated.totals, updated.agentCosts) == (st.totals, st.agentCosts)
    requires !OverBudget(cfg, st, bill)
    ensures Books(cfg, agent, st, Accumulate(updated, agent, bill), Billed(bill))
  {
  }

  lemma CoderBooks(cfg: Config, st: State, sig: Signals, o: Oracle)
    requires st.outcome.NoOutcome?
    ensures var (st', ended) := Coder(cfg, st, sig, o); Books(cfg, "coder", st, st', ended)
  {
    hide CloseTurn, FailedTurn, Exhausted, Books, OverBudget;
    if st.changePlan.Some? && !o.edit.Done? {
      FailedTurnBooks(cfg, "coder", st, sig, o.edit);
    } else {
      var (edit, bill) := Result(st.changePlan.Some?, o.edit);
      if OverBudget(cfg, st, bill) {
        ExhaustedBooks(cfg, "coder", st, bill);
      } else {
        var updated := st.(codeEdit := edit, retryCounters := st.retryCounters[RetryKey(st) := Retries(st) + 1]);
        CloseTurnBooks(cfg, st, updated, "coder", sig.success, sig.batch, bill);
      }
    }
  }

  lemma ReviewerBooks(cfg: Config, st: State, sig: Signals, o: Oracle)
    requires st.outcome.NoOutcome?
    ensures var (st', ended) := Reviewer(cfg, st, sig, o); Books(cfg, "reviewer", st, st', ended)
  {
    hide CloseTurn, FailedTurn, Exhausted, OverBudget;
    if st.codeEdit.Some? && !o.review.Done? {
      FailedTurnBooks(cfg, "reviewer", st, sig, o.review);
    } else {
      var (review, bill) := Result(st.codeEdit.Some?, o.review);
      if OverBudget(cfg, st, bill) {
        ExhaustedBooks(cfg, "reviewer", st, bill);
      } else {
        var updated := st.(reviewResult := review);
        CloseTurnBooks(cfg, st, updated, "reviewer", sig.success, sig.batch, bill);
        if sig.rejection.Synced? {
          CloseTurnBooks(cfg, st, updated, "reviewer", sig.rejection.ue, sig.batch, bill);
        }
      }
    }
  }

  lemma QaBooks(cfg: Config, st: State, sig: Signals, o: Oracle)
    requires st.outcome.NoOutcome?
    ensures var (st', ended) := Qa(cfg, st, sig, o); Books(cfg, "qa", st, st', ended)
  {
    hide CloseTurn, FailedTurn, Exhausted, Books, OverBudget;
    if st.codeEdit.Some? && !o.report.Done? {
      FailedTurnBooks(cfg, "qa", st, sig, o.report);
    } else {
      var (report, bill) := Result(st.codeEdit.Some?, o.report);
      if OverBudget(cfg, st, bill) {
        ExhaustedBooks(cfg, "qa", st, bill);
      } else {
        CloseTurnBooks(cfg, st, st.(testReport := report), "qa", sig.success, sig.batch, bill);
      }
    }
  }

  lemma PlannerBooks(cfg: Config, st: State, sig: Signals, o: Oracle)
    requires st.outcome.NoOutcome?
    ensures var (st', ended) := Planner(cfg, st, sig, o); Books(cfg, "planner", st, st', ended)
  {
  }

  lemma StoppedBooks(cfg: Config, agent: string, st: State)
    requires st.outcome.NoOutcome?
    ensures Books(cfg, agent, st, SandboxFailed(st), Unbilled)
    ensures Books(cfg, agent, st, Escalated(st, GuardrailBlock), Unbilled)
  {
  }

  lemma HybridCoderBooks(cfg: Config, st: State, o: Oracle, peer: bool)
    requires st.outcome.NoOutcome?
    ensures var (st', ended) := HybridCoder(cfg, st, o, peer); Books(cfg, "coder", st, st', ended)
  {
    hide Accumulate, Exhausted, OverBudget, Retries, RetryKey, Books;
    if st.changePlan.Some? && !o.edit.Done? {
      StoppedBooks(cfg, "coder", st);
    } else {
      var (edit, bill) := Result(st.changePlan.Some?, o.edit);
      if OverBudget(cfg, st, bill) {
        ExhaustedBooks(cfg, "coder", st, bill);
      } else {
        var updated := st.(codeEdit := edit,
                           retryCounters := st.retryCounters[RetryKey(st) := Retries(st) + 1],
                           peerHandoffCount := st.peerHandoffCount + if peer then 1 else 0);
        AccumulateBooks(cfg, st, updated, "coder", bill);
      }
    }
  }

  lemma HybridReviewerBooks(cfg: Config, st: State, o: Oracle)
    requires st.outcome.NoOutcome?
    ensures var (st', ended) := HybridReviewer(cfg, st, o); Books(cfg, "reviewer", st, st', ended)
  {
    hide Accumulate, Exhausted, OverBudget;
    if st.codeEdit.None? || o.review.Done? {
      var (review, bill) := Result(st.codeEdit.Some?, o.review);
      if OverBudget(cfg, st, bill) {
        ExhaustedBooks(cfg, "reviewer", st, bill);
      } else {
        var again := IsPeerLoop(st) && review == Some(RejectWithChanges);
        var updated := st.(reviewResult := review, lastReviewerSpanId := o.spanId,
                           peerHandoffCount := st.peerHandoffCount + if again then 1 else 0);
        AccumulateBooks(cfg, st, updated, "reviewer", bill);
      }
    }
  }

  lemma AgentBooks(cfg: Config, n: Node, st: State, o: Oracle) returns (st': State, ended: Ended)
    requires IsAgent(n) && st.outcome.NoOutcome?
    ensures (st', ended) == RunAgent(cfg, n, st, o) && Books(cfg, AgentName(n), st, st', ended)
  {
    hide Planner, Qa, Coder, Reviewer, HybridCoder, HybridReviewer, SignalsOf, Books;
    var called := WithCalls(cfg, n, st, o);
    var sig := SignalsOf(called, AgentName(n));
    var r := AgentNode(cfg, n, called, sig, o);
    st', ended := r.0, r.1;
    match n {
      case RunPlanner => PlannerBooks(cfg, called, sig, o);
      case RunQa => QaBooks(cfg, called, sig, o);
      case RunPeerCoder => HybridCoderBooks(cfg, called, o, true);
      case RunCoder => CoderBooks(cfg, called, sig, o); HybridCoderBooks(cfg, called, o, false);
      case RunReviewer => ReviewerBooks(cfg, called, sig, o); HybridReviewerBooks(cfg, called, o);
    }
    CallsCostNothing(cfg, AgentName(n), st, called, st', ended);
  }

  lemma CallsCostNothing(cfg: Config, agent: string, st: State, called: State, st': State, ended: Ended)
    requires (called.totals, called.agentCosts) == (st.totals, st.agentCosts) && Books(cfg, agent, called, st', ended)
    ensures Books(cfg, agent, st, st', ended)
  {
  }

  // ---- The whole run ----

  function Max(a: int, b: int): int {
    if a < b then b else a
  }

  /** The books balance, column by column and agent by agent. */
  ghost predicate Balanced(totals: Bill, costs: map<string, Bill>, turns: seq<TurnRecord>) {
    && (forall c :: Read(totals, c) == TotalRecorded(turns, c))
    && (forall a, c :: Read(GetOr(costs, a, ZERO), c) == TotalCharged(turns, a, c))
    && (forall c :: Read(totals, c) == SumOfAgents(costs, c) + if c.Cost? then Excess(turns) else 0)
  }

  /** The cap, and when a turn may go over it. */
  predicate Capped(cfg: Config, st: State, turns: seq<TurnRecord>) {
    && (forall i :: 0 <= i < |turns| && turns[i].ended.Overspent? ==> i == |turns| - 1 && st.outcome.CostBudgetExhausted?)
    && (st.outcome.CostBudgetExhausted? ==>
          turns != [] && turns[|turns| - 1].ended.Overspent? && st.totals.cost > cfg.maxCost)
    && st.totals.cost <= Max(cfg.maxCost, 0) + Excess(turns)
  }

  ghost predicate Sound(cfg: Config, w: World) {
    && Balanced(w.st.totals, w.st.agentCosts, w.turns) && Capped(cfg, w.st, w.turns)
    && (w.st.outcome.CostBudgetExhausted? ==>
          w.phase.Finished? || (w.phase.At? && (w.phase.node.HaltCostBudget? || w.phase.node.End?)))
    && (!w.phase.Finished? && w.phase.node.HaltCostBudget? ==> w.st.outcome.CostBudgetExhausted?)
  }

  lemma TurnBalances(cfg: Config, agent: string, st: State, st': State, turns: seq<TurnRecord>, t: TurnRecord)
    requires Balanced(st.totals, st.agentCosts, turns) && Capped(cfg, st, turns) && st.outcome.NoOutcome?
    requires IsAgent(t.node) && AgentName(t.node) == agent && Books(cfg, agent, st, st', t.ended)
    ensures Balanced(st'.totals, st'.agentCosts, turns + [t]) && Capped(cfg, st', turns + [t])
  {
    var turns' := turns + [t];
    assert turns'[..|turns|] == turns;
    assert Excess(turns) == 0;
    forall c
      ensures Read(st'.totals, c) == TotalRecorded(turns', c)
      ensures Read(st'.totals, c) == SumOfAgents(st'.agentCosts, c) + if c.Cost? then Excess(turns') else 0
    {
      if t.ended.Billed? {
        SumOfAgentsUpdate(st.agentCosts, agent, t.ended.bill, c);
      }
    }
  }

  lemma OtherEventsKeepSound(cfg: Config, w: World, e: Event)
    requires Sound(cfg, w) && (e.Tick? && w.phase.At? ==> !IsAgent(w.phase.node))
    ensures Sound(cfg, Handle(cfg, w, e))
  {
    hide RunAgent, Balanced;
  }

  lemma TickKeepsSound(cfg: Config, w: World, o: Oracle)
    requires Sound(cfg, w) && Consistent(cfg, w) && w.phase.At? && IsAgent(w.phase.node)
    ensures Sound(cfg, Advance(cfg, w, o))
  {
    hide RunAgent, Books, Balanced, Capped, Consistent;
    var n := w.phase.node;
    AgentsStartClean(cfg, w);
    var st', ended := AgentBooks(cfg, n, w.st, o);
    var t := RecordOf(cfg, n, w.st, o, st', ended);
    TurnBalances(cfg, AgentName(n), w.st, st', w.turns, t);
  }

  lemma AgentsStartClean(cfg: Config, w: World)
    requires Consistent(cfg, w) && w.phase.At? && IsAgent(w.phase.node)
    ensures w.st.outcome.NoOutcome?
  {
  }

  lemma {:induction false} AlwaysSound(cfg: Config, es: seq<Event>)
    ensures Sound(cfg, After(cfg, es))
  {
    hide Sound;
    if es == [] {
      StartSound(cfg);
    } else {
      var w, e := After(cfg, es[..|es| - 1]), es[|es| - 1];
      AlwaysSound(cfg, es[..|es| - 1]);
      AlwaysConsistent(cfg, es[..|es| - 1]);
      if e.Tick? && w.phase.At? && IsAgent(w.phase.node) {
        TickKeepsSound(cfg, w, e.o);
      } else {
        OtherEventsKeepSound(cfg, w, e);
      }
    }
  }

  lemma StartSound(cfg: Config)
    ensures Sound(cfg, START_WORLD)
  {
  }

  /** Conservation: totals and agent entries are the sums over the turns; failed and escalated turns add nothing. */
  lemma BooksMatchTurns(cfg: Config, es: seq<Event>, agent: string, c: Column)
    ensures var w := After(cfg, es);
            && Read(w.st.totals, c) == TotalRecorded(w.turns, c)
            && Read(GetOr(w.st.agentCosts, agent, ZERO), c) == TotalCharged(w.turns, agent, c)
  {
    AlwaysSound(cfg, es);
  }

  /**
   * Totals equal the sums over agent_costs, save that a budget overrun's cost is in the total and in no agent's
   * entry.
   */
  lemma TotalsEqualAgentSums(cfg: Config, es: seq<Event>, c: Column)
    ensures var w := After(cfg, es);
            if c.Cost? && w.st.outcome.CostBudgetExhausted? then
              && w.turns != [] && w.turns[|w.turns| - 1].ended.Overspent?
              && Read(w.st.totals, c) == SumOfAgents(w.st.agentCosts, c) + w.turns[|w.turns| - 1].ended.bill.cost
            else
              Read(w.st.totals, c) == SumOfAgents(w.st.agentCosts, c)
  {
    AlwaysSound(cfg, es);
  }

  /** The cap holds unless the run is exhausted, and then the last turn alone exceeds it. */
  lemma CostStaysCapped(cfg: Config, es: seq<Event>)
    ensures var w := After(cfg, es);
            && (!w.st.outcome.CostBudgetExhausted? ==> w.st.totals.cost <= Max(cfg.maxCost, 0))
            && (w.st.outcome.CostBudgetExhausted? ==>
                  && w.turns != [] && w.turns[|w.turns| - 1].ended.Overspent?
                  && cfg.maxCost < w.st.totals.cost <= Max(cfg.maxCost, 0) + w.turns[|w.turns| - 1].ended.bill.cost)
  {
    AlwaysSound(cfg, es);
  }

  /** Once a turn went over budget, nothing that happens later adds a turn. */
  lemma {:induction false} NoTurnAfterOverspending(cfg: Config, es: seq<Event>, more: seq<Event>)
    requires After(cfg, es).st.outcome.CostBudgetExhausted?
    ensures After(cfg, es + more).turns == After(cfg, es).turns
    ensures After(cfg, es + more).st.totals == After(cfg, es).st.totals
    ensures After(cfg, es + more).st.outcome.CostBudgetExhausted?
  {
    if more == [] {
      assert es + [] == es;
    } else {
      var init := more[..|more| - 1];
      NoTurnAfterOverspending(cfg, es, init);
      assert (es + more)[..|es + more| - 1] == es + init;
      AlwaysSound(cfg, es + init);
      ExhaustedStays(cfg, After(cfg, es + init), more[|more| - 1]);
    }
  }

  lemma ExhaustedStays(cfg: Config, w: World, e: Event)
    requires Sound(cfg, w) && w.st.outcome.CostBudgetExhausted?
    ensures var w' := Handle(cfg, w, e);
            w'.turns == w.turns && w'.st.totals == w.st.totals && w'.st.outcome.CostBudgetExhausted?
  {
    hide RunAgent, Balanced, Capped;
  }

  // ---- The bills of the schedule ----

  /**
   * What an agent's reply adds to a total, given what was spent before: the bill of a completed turn, without the
   * Planner's cached tokens; the cost alone of a call that goes over the cap; nothing of any other.
   */
  function Booked(cfg: Config, n: Node, reply: Reply, completes: bool, spent: int, c: Column): nat {
    if !reply.Answered? then 0
    else if spent + reply.bill.cost > cfg.maxCost then (if c.Cost? then reply.bill.cost else 0)
    else if completes && !(n.RunPlanner? && c.Cached?) then Read(reply.bill, c)
    else 0
  }

  ghost predicate Completing(cfg: Config, w: World, o: Oracle)
    requires w.phase.At? && IsAgent(w.phase.node)
  {
    RunAgent(cfg, w.phase.node, w.st, o).1.Billed?
  }

  /** A total, added up from the bills in the schedule. */
  ghost function Spent(cfg: Config, es: seq<Event>, c: Column): nat {
    if es == [] then 0
    else
      var init, e := es[..|es| - 1], es[|es| - 1];
      var w := After(cfg, init);
      Spent(cfg, init, c)
      + if e.Tick? && w.phase.At? && IsAgent(w.phase.node)
        then var n := w.phase.node;
             Booked(cfg, n, ReplyTo(n, w.st, e.o), Completing(cfg, w, e.o), Spent(cfg, init, Cost), c)
        else 0
  }

  /** An agent's share: the bills of its completed turns. */
  ghost function SpentBy(cfg: Config, es: seq<Event>, agent: string, c: Column): nat {
    if es == [] then 0
    else
      var init, e := es[..|es| - 1], es[|es| - 1];
      var w := After(cfg, init);
      SpentBy(cfg, init, agent, c)
      + if e.Tick? && w.phase.At? && IsAgent(w.phase.node) && AgentName(w.phase.node) == agent && Completing(cfg, w, e.o)
        then Booked(cfg, w.phase.node, ReplyTo(w.phase.node, w.st, e.o), true, Spent(cfg, init, Cost), c)
        else 0
  }

  lemma TurnBooksReply(cfg: Config, w: World, o: Oracle, agent: string, c: Column)
    requires Consistent(cfg, w) && w.phase.At? && IsAgent(w.phase.node)
    ensures var n, w' := w.phase.node, Advance(cfg, w, o);
            var reply, completes := ReplyTo(n, w.st, o), Completing(cfg, w, o);
            && Read(w'.st.totals, c) == Read(w.st.totals, c) + Booked(cfg, n, reply, completes, w.st.totals.cost, c)
            && Read(GetOr(w'.st.agentCosts, agent, ZERO), c)
               == Read(GetOr(w.st.agentCosts, agent, ZERO), c)
                  + if AgentName(n) == agent && completes then Booked(cfg, n, reply, true, w.st.totals.cost, c) else 0
  {
    hide RunAgent, Next, Stores, Keeps, ReplyTo;
    AgentsStartClean(cfg, w);
    var st', ended := AgentBooks(cfg, w.phase.node, w.st, o);
    TurnHonoursAnswer(cfg, w.phase.node, w.st, o);
  }

  lemma OtherEventsBookNothing(cfg: Config, w: World, e: Event)
    requires e.Tick? && w.phase.At? ==> !IsAgent(w.phase.node)
    ensures Handle(cfg, w, e).st.totals == w.st.totals && Handle(cfg, w, e).st.agentCosts == w.st.agentCosts
  {
    hide RunAgent, Completion, BeforeInterrupt, AfterApproval, FinishTask;
  }

  /** Over every run, totals and agent entries are the sums of the bills the agents sent. */
  lemma {:induction false} TotalsAreSentBills(cfg: Config, es: seq<Event>, agent: string, c: Column)
    ensures var st := After(cfg, es).st;
            && Read(st.totals, c) == Spent(cfg, es, c) && st.totals.cost == Spent(cfg, es, Cost)
            && Read(GetOr(st.agentCosts, agent, ZERO), c) == SpentBy(cfg, es, agent, c)
  {
    hide Advance, DecideOn, Booked, Completing, Consistent;
    if es != [] {
      var init, e := es[..|es| - 1], es[|es| - 1];
      var w := After(cfg, init);
      TotalsAreSentBills(cfg, init, agent, c);
      AlwaysConsistent(cfg, init);
      if e.Tick? && w.phase.At? && IsAgent(w.phase.node) {
        TurnBooksReply(cfg, w, e.o, agent, c);
        TurnBooksReply(cfg, w, e.o, agent, Cost);
      } else {
        OtherEventsBookNothing(cfg, w, e);
      }
    }
  }
}
