/** The bound of seven Coder executions is exact: an environment that reaches it. */
module CoderBudget {
  import opened Support
  import opened Orchestrator
  import opened TaskRun
  import opened WriteSafety
  import opened Termination
  import opened Bookkeeping
  import Uncertainty
  import Keys

  /** An edit with no diff hash, sent back for changes every time. */
  const REWORK := SMOOTH.(edit := Done(Edit(""), ZERO), review := Done(RejectWithChanges, ZERO))
  /** The same Reviewer, but the Coder's answer fails validation. */
  const GARBLED := REWORK.(edit := Invalid)

  /** At node n in the rework loop: c completed Coder executions, v failures since the last, k executions in all. */
  predicate Spins(cfg: Config, n: Node, st: State, c: nat, v: nat) {
    && cfg.maxCost >= 0 && cfg.topology.SupervisorOnly? && (n.RunCoder? || n.RunReviewer?)
    && st.status.Running? && st.outcome.NoOutcome? && st.totals.cost == 0 && !st.mem.ue.fired
    && st.mem.history == map[] && st.mem.ue.windows == map[] && st.mem.ue.rejected == map[] && st.pending == []
    && st.changePlan.Some? && (c > 0 ==> st.codeEdit == Some(Edit("")))
    && Retries(st) == c && CoderFailures(st) == v < Uncertainty.PYDANTIC_FAIL_THRESHOLD && ReviewerFailures(st) == 0
  }

  function ReviewerFailures(st: State): nat {
    GetOr(st.mem.ue.pydantic, Keys.StepKey("reviewer", st.stepIndex), 0)
  }

  /** The updates of a turn without recordings. */
  predicate Plain(st: State, agent: string, sig: Signals) {
    && sig.batch.NoChange? && !sig.success.fired
    && sig.success.windows == map[] && sig.success.rejected == st.mem.ue.rejected
    && sig.success.pydantic == st.mem.ue.pydantic - {Keys.StepKey(agent, st.stepIndex)}
    && (st.codeEdit == Some(Edit("")) ==> sig.rejection.NoUpdate?)
    && (GetOr(st.mem.ue.pydantic, Keys.StepKey(agent, st.stepIndex), 0) + 1 < Uncertainty.PYDANTIC_FAIL_THRESHOLD ==>
          && sig.failure.Synced? && !sig.failure.ue.fired
          && sig.failure.ue.windows == map[] && sig.failure.ue.rejected == st.mem.ue.rejected
          && var key := Keys.StepKey(agent, st.stepIndex);
             sig.failure.ue.pydantic == st.mem.ue.pydantic[key := GetOr(st.mem.ue.pydantic, key, 0) + 1])
  }

  lemma PlainTurn(st: State, agent: string)
    requires !st.mem.ue.fired && st.mem.ue.windows == map[] && st.pending == []
    ensures Plain(st, agent, SignalsOf(st, agent))
  {
    SignalsAlwaysFit(st, agent);
    var key := Keys.StepKey(agent, st.stepIndex);
    var n := GetOr(st.mem.ue.pydantic, key, 0) + 1;
    if n < Uncertainty.PYDANTIC_FAIL_THRESHOLD {
      assert GetOr(st.mem.ue.pydantic[key := n], key, 0) == n;
    }
  }

  lemma ReworkCoder(cfg: Config, st: State, sig: Signals, o: Oracle, c: nat, v: nat)
    requires Spins(cfg, RunCoder, st, c, v) && Plain(st, "coder", sig)
    requires o.edit.Done? && o.edit.value == Edit("") && o.edit.bill.cost == 0
    ensures var st' := Coder(cfg, st, sig, o).0;
            Spins(cfg, RunReviewer, st', c + 1, 0) && RouteHalts(st').None? && st'.reviewResult == st.reviewResult
  {
  }

  lemma GarbledCoder(cfg: Config, st: State, sig: Signals, o: Oracle, c: nat, v: nat)
    requires Spins(cfg, RunCoder, st, c, v) && Plain(st, "coder", sig) && v + 1 < Uncertainty.PYDANTIC_FAIL_THRESHOLD
    requires o.edit.Invalid?
    ensures var st' := Coder(cfg, st, sig, o).0;
            Spins(cfg, RunReviewer, st', c, v + 1) && RouteHalts(st').None? && st'.reviewResult == st.reviewResult
  {
    hide Keys.StepKey;
    Keys.StepKeyInjective("reviewer", st.stepIndex, "coder", st.stepIndex);
  }

  lemma ReworkReviewer(cfg: Config, st: State, sig: Signals, o: Oracle, c: nat, v: nat)
    requires Spins(cfg, RunReviewer, st, c, v) && Plain(st, "reviewer", sig) && c > 0
    requires o.review.Done? && o.review.value == RejectWithChanges && o.review.bill.cost == 0
    ensures var st' := Reviewer(cfg, st, sig, o).0;
            Spins(cfg, RunCoder, st', c, v) && RouteHalts(st').None? && st'.reviewResult == Some(RejectWithChanges)
  {
    hide Keys.StepKey;
    Keys.StepKeyInjective("reviewer", st.stepIndex, "coder", st.stepIndex);
  }

  /** What a Coder execution makes of the two counts. */
  function Counts(c: nat, v: nat, o: Oracle): (nat, nat) {
    if o == REWORK then (c + 1, 0) else (c, v + 1)
  }

  predicate Allowed(c: nat, v: nat, o: Oracle) {
    o == REWORK || (o == GARBLED && c > 0 && v + 1 < Uncertainty.PYDANTIC_FAIL_THRESHOLD)
  }

  lemma CoderTick(cfg: Config, s: iset<World>, w: World, c: nat, v: nat, o: Oracle) returns (w': World)
    requires Closed(cfg, s) && w in s && w.phase == At(RunCoder) && Spins(cfg, RunCoder, w.st, c, v) && Allowed(c, v, o)
    ensures w' in s && w'.phase == At(RunReviewer) && w'.st.reviewResult == w.st.reviewResult
    ensures Spins(cfg, RunReviewer, w'.st, Counts(c, v, o).0, Counts(c, v, o).1)
    ensures CoderExecutions(w'.turns) == CoderExecutions(w.turns) + 1
  {
    hide Coder, Reviewer, SignalsOf, Plain, Executions;
    PlainTurn(w.st, "coder");
    SilentTurn(cfg, RunCoder, w.st, o);
    if o == REWORK {
      ReworkCoder(cfg, w.st, SignalsOf(w.st, "coder"), o, c, v);
    } else {
      GarbledCoder(cfg, w.st, SignalsOf(w.st, "coder"), o, c, v);
    }
    WriteSafety.Step(cfg, s, w, Tick(o));
    w' := Advance(cfg, w, o);
    TurnCounted(w, w');
  }

  /** One Coder execution and the review that sends its result back. */
  lemma Round(cfg: Config, s: iset<World>, w: World, c: nat, v: nat, o: Oracle) returns (w': World)
    requires Closed(cfg, s) && w in s && w.phase == At(RunCoder) && Spins(cfg, RunCoder, w.st, c, v) && Allowed(c, v, o)
    ensures var (c', v') := Counts(c, v, o);
            w' in s && Spins(cfg, RunCoder, w'.st, c', v') && (c' < MAX_RETRIES_PER_STEP ==> w'.phase == At(RunCoder))
    ensures CoderExecutions(w'.turns) == CoderExecutions(w.turns) + 1 && w'.st.reviewResult == Some(RejectWithChanges)
  {
    hide Spins, CoderExecutions;
    w' := CoderTick(cfg, s, w, c, v, o);
    w' := SentBack(cfg, s, w', Counts(c, v, o).0, Counts(c, v, o).1);
  }

  lemma SentBack(cfg: Config, s: iset<World>, w: World, c: nat, v: nat) returns (w': World)
    requires Closed(cfg, s) && w in s && w.phase == At(RunReviewer) && Spins(cfg, RunReviewer, w.st, c, v) && c > 0
    ensures w' in s && Spins(cfg, RunCoder, w'.st, c, v) && (c < MAX_RETRIES_PER_STEP ==> w'.phase == At(RunCoder))
    ensures CoderExecutions(w'.turns) == CoderExecutions(w.turns) && w'.st.reviewResult == Some(RejectWithChanges)
  {
    hide Coder, Reviewer, SignalsOf, Plain, Executions;
    PlainTurn(w.st, "reviewer");
    SilentTurn(cfg, RunReviewer, w.st, REWORK);
    ReworkReviewer(cfg, w.st, SignalsOf(w.st, "reviewer"), REWORK, c, v);
    WriteSafety.Step(cfg, s, w, Tick(REWORK));
    w' := Advance(cfg, w, REWORK);
    TurnCounted(w, w');
  }

  lemma TurnCounted(w: World, w': World)
    requires |w'.turns| == |w.turns| + 1 && w'.turns[..|w.turns|] == w.turns
    ensures CoderExecutions(w'.turns)
            == CoderExecutions(w.turns) + if IsCoder(w'.turns[|w.turns|].node) then 1 else 0
  {
  }

  /** The first Coder turn of a reachable run starts with clean counters. */
  lemma ReachFreshCoder(cfg: Config) returns (w: World)
    requires cfg.maxCost >= 0 && cfg.topology.SupervisorOnly?
    ensures Reachable(cfg, w) && w.phase == At(RunCoder) && Spins(cfg, RunCoder, w.st, 0, 0)
    ensures CoderExecutions(w.turns) == 0
  {
    ReachableIsClosed(cfg);
    w := ReachCoder(cfg, iset w: World | Reachable(cfg, w));
    var es :| w == After(cfg, es);
    AlwaysCounted(cfg, es);
  }

  /** Two validation failures follow each of the first two completed executions, and a third completes: seven in all. */
  lemma SevenCoderExecutionsHappen(cfg: Config) returns (w: World)
    requires cfg.maxCost >= 0 && cfg.topology.SupervisorOnly?
    ensures Reachable(cfg, w) && CoderExecutions(w.turns) == 7
  {
    hide Spins, CoderExecutions, Reachable;
    ReachableIsClosed(cfg);
    var s := iset w: World | Reachable(cfg, w);
    w := ReachFreshCoder(cfg);
    w := Round(cfg, s, w, 0, 0, REWORK);
    w := Round(cfg, s, w, 1, 0, GARBLED);
    w := Round(cfg, s, w, 1, 1, GARBLED);
    w := Round(cfg, s, w, 1, 2, REWORK);
    w := Round(cfg, s, w, 2, 0, GARBLED);
    w := Round(cfg, s, w, 2, 1, GARBLED);
    w := Round(cfg, s, w, 2, 2, REWORK);
  }
}
