/** Every outcome row of a task: those its turns wrote and those of checkpoint, endpoint and completion. */
module OutcomeRows {
  import opened Support
  import opened Orchestrator
  import opened TaskRun
  import opened WriteSafety
  import opened TaskOutcome
  import opened TurnMerging
  import opened Recording
  import opened Bookkeeping
  import opened CoderBudget
  import Keys

  /** The outcome rows the turns wrote, oldest first. */
  function TurnRows(turns: seq<TurnRecord>): seq<Outcome> {
    if turns == [] then []
    else
      var last := turns[|turns| - 1].reported;
      TurnRows(turns[..|turns| - 1]) + if last.Some? then [last.value] else []
  }

  /** All outcome rows: no turn follows a checkpoint or the end. */
  function OutcomeRows(w: World): seq<Outcome> {
    TurnRows(w.turns) + w.row.outcomes
  }

  /** The last turn took its calls out of the registry. */
  predicate CallsProcessed(w: World) {
    w.turns != [] && w.turns[|w.turns| - 1].calls != w.st.pending
  }

  /** The rows turns have written once a run is at a checkpoint. */
  function Detected(checkpoint: Node, w: World): seq<Outcome> {
    match checkpoint
    case HitlLoop => [LoopDetectedOutcome]
    case HitlUncertainty => if CallsProcessed(w) then [UncertaintyEscalation] else []
    case _ => []
  }

  /** Where the run is, or was when its one decision was taken. */
  function Stop(w: World): Node {
    if w.acts != [] && w.acts[0].Accepted? then w.acts[0].checkpoint
    else if w.phase.Finished? then End
    else w.phase.node
  }

  predicate TurnRowsFit(w: World) {
    TurnRows(w.turns) == Detected(Stop(w), w)
  }

  /** How the turn escalates decides whether it got as far as processing its calls. */
  predicate Reports(cfg: Config, n: Node, st: State, sig: Signals, o: Oracle)
    requires IsAgent(n)
  {
    var st' := AgentNode(cfg, n, st, sig, o).0;
    var processed := Processes(cfg, n) && ReachesProcessing(cfg, n, st, o);
    && (RouteHalts(st') == Some(HitlLoop) <==> processed && sig.batch.LoopFound?)
    && (RouteHalts(st') == Some(HitlUncertainty) && st'.pending != st.pending <==> processed && sig.batch.Uncertain?)
  }

  predicate SignalsFit(st: State, sig: Signals, o: Oracle) {
    && st.status.Running? && st.outcome.NoOutcome? && (sig.batch.NoChange? <==> st.pending == [])
    && (RecordsRejection(st, o) ==>
          (sig.rejection.Escalation? <==> Rejections(st, st.codeEdit.value.diffHash) > 0))
    && (st.codeEdit.Some? && o.review.Done? && o.review.value == RejectWithChanges && !RecordsRejection(st, o) ==>
          sig.rejection.NoUpdate?)
  }

  lemma CoderReports(cfg: Config, st: State, sig: Signals, o: Oracle)
    requires SignalsFit(st, sig, o) && cfg.topology.SupervisorOnly?
    ensures Reports(cfg, RunCoder, st, sig, o)
  {
    hide Retries, RetryKey, RecordsRejection, Rejections;
  }

  lemma ReviewerReports(cfg: Config, st: State, sig: Signals, o: Oracle)
    requires SignalsFit(st, sig, o) && cfg.topology.SupervisorOnly?
    ensures Reports(cfg, RunReviewer, st, sig, o)
  {
    hide Retries, RetryKey, Rejections;
  }

  lemma QaReports(cfg: Config, st: State, sig: Signals, o: Oracle)
    requires SignalsFit(st, sig, o)
    ensures Reports(cfg, RunQa, st, sig, o)
  {
    hide Retries, RetryKey, RecordsRejection, Rejections;
  }

  lemma OtherReports(cfg: Config, n: Node, st: State, sig: Signals, o: Oracle)
    requires SignalsFit(st, sig, o) && IsAgent(n) && !Processes(cfg, n)
    ensures Reports(cfg, n, st, sig, o)
  {
    hide Retries, RetryKey, RecordsRejection, Rejections;
  }

  /** A turn writes its outcome row exactly when it escalates by processing calls. */
  lemma TurnReports(cfg: Config, n: Node, st: State, o: Oracle)
    requires IsAgent(n) && st.status.Running? && st.outcome.NoOutcome?
    ensures var called, st' := WithCalls(cfg, n, st, o), RunAgent(cfg, n, st, o).0;
            var next := Next(cfg, n, st');
            Reported(cfg, n, called, o)
            == if next.HitlLoop? then Some(LoopDetectedOutcome)
               else if next.HitlUncertainty? && called.pending != st'.pending then Some(UncertaintyEscalation)
               else None
  {
    hide AgentNode, RouteHalts, RouteAfterReview, RouteAfterQa, ReachesProcessing, RecordsRejection;
    var called, sig := WithCalls(cfg, n, st, o), SignalsOf(WithCalls(cfg, n, st, o), AgentName(n));
    TurnSignalsFit(called, AgentName(n), o);
    if !Processes(cfg, n) {
      OtherReports(cfg, n, called, sig, o);
    } else if n.RunCoder? {
      CoderReports(cfg, called, sig, o);
    } else if n.RunReviewer? {
      ReviewerReports(cfg, called, sig, o);
    } else {
      QaReports(cfg, called, sig, o);
    }
    RoutesToEscalation(cfg, n, RunAgent(cfg, n, st, o).0);
  }

  lemma RoutesToEscalation(cfg: Config, n: Node, st: State)
    requires IsAgent(n)
    ensures Next(cfg, n, st).HitlLoop? <==> RouteHalts(st) == Some(HitlLoop)
    ensures Next(cfg, n, st).HitlUncertainty? <==> RouteHalts(st) == Some(HitlUncertainty)
  {
    hide Retries;
  }

  lemma TurnSignalsFit(st: State, agent: string, o: Oracle)
    requires st.status.Running? && st.outcome.NoOutcome?
    ensures SignalsFit(st, SignalsOf(st, agent), o)
  {
    BatchSignal(st, agent);
    RejectionKind(st, agent);
    if RecordsRejection(st, o) {
      RejectionSignal(st, agent, st.codeEdit.value.diffHash);
    }
    hide SignalsOf;
  }

  /** A turn starts a new list of rows: none was written before. */
  lemma TurnKeepsTurnRowsFit(cfg: Config, w: World, o: Oracle)
    requires Consistent(cfg, w) && TurnRowsFit(w) && w.phase.At? && IsAgent(w.phase.node)
    ensures TurnRowsFit(Advance(cfg, w, o))
  {
    hide RunAgent, Next, Reported, TurnRows;
    var n, w' := w.phase.node, Advance(cfg, w, o);
    TurnReports(cfg, n, w.st, o);
    assert TurnRows(w.turns) == [];
    assert w'.turns[..|w.turns|] == w.turns;
    RowsAppend(w.turns, w'.turns[|w.turns|]);
  }

  lemma RowsAppend(turns: seq<TurnRecord>, t: TurnRecord)
    ensures TurnRows(turns + [t]) == TurnRows(turns) + if t.reported.Some? then [t.reported.value] else []
  {
    assert (turns + [t])[..|turns|] == turns;
  }

  /** Where the run stops stays what it is, or moves between nodes without rows. */
  lemma OtherStepsKeepTurnRowsFit(cfg: Config, w: World, e: Event)
    requires Consistent(cfg, w) && TurnRowsFit(w) && RowFits(w)
    requires e.Tick? ==> !(w.phase.At? && IsAgent(w.phase.node))
    ensures TurnRowsFit(Handle(cfg, w, e))
  {
    hide RunAgent, TurnRows;
  }

  lemma {:induction false} AlwaysTurnRowsFit(cfg: Config, es: seq<Event>)
    ensures TurnRowsFit(After(cfg, es))
  {
    hide Advance, DecideOn, TurnRowsFit, RowFits, Consistent;
    if es == [] {
      InitialTurnRowsFit();
    } else {
      var init, e := es[..|es| - 1], es[|es| - 1];
      AlwaysConsistent(cfg, init);
      AlwaysRowFits(cfg, init);
      AlwaysTurnRowsFit(cfg, init);
      var w := After(cfg, init);
      if e.Tick? && w.phase.At? && IsAgent(w.phase.node) {
        TurnKeepsTurnRowsFit(cfg, w, e.o);
      } else {
        OtherStepsKeepTurnRowsFit(cfg, w, e);
      }
    }
  }

  lemma InitialTurnRowsFit()
    ensures TurnRowsFit(START_WORLD)
  {
  }

  /**
   * At a checkpoint every escalation has one outcome row, except that of validation failures or of a fix rejected
   * twice, which has none; the guardrail's own row aside.
   */
  lemma PausedOutcomes(cfg: Config, es: seq<Event>)
    requires After(cfg, es).phase.Paused?
    ensures var w := After(cfg, es);
            OutcomeRows(w)
            == match w.phase.node
               case HaltRetryExhausted => [RetryBudgetExhausted]
               case HitlLoop => [LoopDetectedOutcome]
               case HitlUncertainty => if CallsProcessed(w) then [UncertaintyEscalation] else []
               case _ => []
  {
    hide TurnRows, CallsProcessed;
    AlwaysTurnRowsFit(cfg, es);
    AlwaysRowFits(cfg, es);
    AlwaysConsistent(cfg, es);
  }

  /** All outcome rows of a task whose graph is over, by how it ended. */
  function FinalOutcomes(w: World): seq<Outcome> {
    if w.acts == [] || !w.acts[0].Accepted? then
      if w.st.outcome.PersistentTestFailureOutcome? then [] else [w.st.outcome]
    else
      var checkpoint := w.acts[0].checkpoint;
      var escalated := Detected(checkpoint, w) + Escalations(checkpoint);
      if w.acts[0].decision.RejectTask? then escalated + [HitlRejected]
      else if checkpoint.HitlPrePr? then if w.st.outcome.PrOpened? then [PrOpened] else []
      else escalated + Escalations(checkpoint)
  }

  lemma FinishedOutcomes(cfg: Config, es: seq<Event>)
    requires After(cfg, es).phase.Finished?
    ensures OutcomeRows(After(cfg, es)) == FinalOutcomes(After(cfg, es))
  {
    hide TurnRows, CallsProcessed;
    AlwaysTurnRowsFit(cfg, es);
    AlwaysRowFits(cfg, es);
    AlwaysConsistent(cfg, es);
  }

  // ---- An escalation without an outcome row ----

  /** The third failure in a row escalates and leaves the registry alone. */
  lemma ThirdFailure(cfg: Config, st: State, c: nat)
    requires Spins(cfg, RunCoder, st, c, 2)
    ensures var st' := RunAgent(cfg, RunCoder, st, GARBLED).0;
            st'.outcome.UncertaintyEscalation? && st'.pending == [] && WithCalls(cfg, RunCoder, st, GARBLED).pending == []
  {
    hide Keys.StepKey, Retries, RetryKey, Process, RecordedPydanticSuccess, RecordedDiffRejection;
    SilentTurn(cfg, RunCoder, st, GARBLED);
    var key := Keys.StepKey("coder", st.stepIndex);
    assert GetOr(st.mem.ue.pydantic[key := 3], key, 0) == 3;
  }

  /** A run that escalates for its Coder's third validation failure: it waits for a human and nothing was written. */
  lemma SilentEscalation(cfg: Config) returns (w: World)
    requires cfg.maxCost >= 0 && cfg.topology.SupervisorOnly?
    ensures Reachable(cfg, w) && w.phase == Paused(HitlUncertainty) && OutcomeRows(w) == []
  {
    hide Spins, Reachable, OutcomeRows, CallsProcessed;
    ReachableIsClosed(cfg);
    var s := iset v: World | Reachable(cfg, v);
    w := ReachFreshCoder(cfg);
    w := Round(cfg, s, w, 0, 0, REWORK);
    w := Round(cfg, s, w, 1, 0, GARBLED);
    w := Round(cfg, s, w, 1, 1, GARBLED);
    w := ThirdFailurePauses(cfg, s, w, 1);
    ReachedPause(cfg, w);
  }

  lemma ThirdFailurePauses(cfg: Config, s: iset<World>, w: World, c: nat) returns (w': World)
    requires Closed(cfg, s) && w in s && w.phase == At(RunCoder) && Spins(cfg, RunCoder, w.st, c, 2)
    ensures w' in s && w'.phase == Paused(HitlUncertainty) && !CallsProcessed(w')
  {
    hide Spins, RunAgent, TurnRows, Reported, Closed;
    ThirdFailure(cfg, w.st, c);
    WriteSafety.Step(cfg, s, w, Tick(GARBLED));
    w' := Advance(cfg, w, GARBLED);
    WriteSafety.Step(cfg, s, w', Tick(GARBLED));
    w' := Advance(cfg, w', GARBLED);
  }

  lemma ReachedPause(cfg: Config, w: World)
    requires Reachable(cfg, w) && w.phase == Paused(HitlUncertainty) && !CallsProcessed(w)
    ensures OutcomeRows(w) == []
  {
    var es :| w == After(cfg, es);
    PausedOutcomes(cfg, es);
  }
}
