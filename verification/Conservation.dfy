/** Every tool call of a run is processed once or still pending, and every span hangs where it should. */
module Conservation {
  import opened Orchestrator
  import opened TaskRun
  import opened Recording
  import opened OutcomeRows
  import opened Answers
  import opened AnsweredRuns

  // ---- Tool calls ----

  /** The calls an event adds to the registry. */
  function NewCalls(cfg: Config, w: World, e: Event): seq<Recorded> {
    if e.Tick? && w.phase.At? && Processes(cfg, w.phase.node) && Runs(w.phase.node, w.st) then e.o.recordings else []
  }

  /** All tool calls of a run, in order, read off the schedule. */
  ghost function Made(cfg: Config, es: seq<Event>): seq<Recorded> {
    if es == [] then []
    else
      var init := es[..|es| - 1];
      Made(cfg, init) + NewCalls(cfg, After(cfg, init), es[|es| - 1])
  }

  /** The turn processed its calls: it completed behind a proxy, or its calls made it escalate. */
  predicate Took(cfg: Config, t: TurnRecord) {
    (t.ended.Billed? && Processes(cfg, t.node)) || t.reported.Some?
  }

  /** The calls turns processed, in order. */
  function Taken(cfg: Config, turns: seq<TurnRecord>): seq<Recorded> {
    if turns == [] then []
    else
      var t := turns[|turns| - 1];
      Taken(cfg, turns[..|turns| - 1]) + if Took(cfg, t) then t.calls else []
  }

  /** A turn that gets as far as processing takes all its calls out of the registry, any other leaves them. */
  predicate Clears(cfg: Config, n: Node, st: State, sig: Signals, o: Oracle)
    requires IsAgent(n)
  {
    var (st', ended) := AgentNode(cfg, n, st, sig, o);
    var processed := Processes(cfg, n) && ReachesProcessing(cfg, n, st, o);
    && st'.pending == (if processed then [] else st.pending)
    && (ended.Billed? && Processes(cfg, n) <==> processed && !sig.batch.LoopFound? && !sig.batch.Uncertain?)
  }

  lemma CoderClears(cfg: Config, st: State, sig: Signals, o: Oracle)
    requires SignalsFit(st, sig, o) && cfg.topology.SupervisorOnly?
    ensures Clears(cfg, RunCoder, st, sig, o)
  {
    hide Retries, RetryKey, RecordsRejection, Rejections;
  }

  lemma ReviewerClears(cfg: Config, st: State, sig: Signals, o: Oracle)
    requires SignalsFit(st, sig, o) && cfg.topology.SupervisorOnly?
    ensures Clears(cfg, RunReviewer, st, sig, o)
  {
    hide Retries, RetryKey, Rejections;
  }

  lemma QaClears(cfg: Config, st: State, sig: Signals, o: Oracle)
    requires SignalsFit(st, sig, o)
    ensures Clears(cfg, RunQa, st, sig, o)
  {
    hide Retries, RetryKey, RecordsRejection, Rejections;
  }

  lemma OtherClears(cfg: Config, n: Node, st: State, sig: Signals, o: Oracle)
    requires SignalsFit(st, sig, o) && IsAgent(n) && !Processes(cfg, n)
    ensures Clears(cfg, n, st, sig, o)
  {
    hide Retries, RetryKey, RecordsRejection, Rejections;
  }

  lemma TurnClears(cfg: Config, n: Node, st: State, o: Oracle)
    requires IsAgent(n) && st.status.Running? && st.outcome.NoOutcome?
    ensures var called := WithCalls(cfg, n, st, o);
            Clears(cfg, n, called, SignalsOf(called, AgentName(n)), o)
  {
    hide AgentNode, ReachesProcessing, RecordsRejection, Clears, SignalsFit;
    var called, sig := WithCalls(cfg, n, st, o), SignalsOf(WithCalls(cfg, n, st, o), AgentName(n));
    TurnSignalsFit(called, AgentName(n), o);
    if !Processes(cfg, n) {
      OtherClears(cfg, n, called, sig, o);
    } else if n.RunCoder? {
      CoderClears(cfg, called, sig, o);
    } else if n.RunReviewer? {
      ReviewerClears(cfg, called, sig, o);
    } else {
      QaClears(cfg, called, sig, o);
    }
  }

  lemma TakenExtends(cfg: Config, turns: seq<TurnRecord>, t: TurnRecord)
    ensures Taken(cfg, turns + [t]) == Taken(cfg, turns) + if Took(cfg, t) then t.calls else []
  {
    assert (turns + [t])[..|turns|] == turns;
  }

  predicate Conserved(cfg: Config, w: World, made: seq<Recorded>) {
    made == Taken(cfg, w.turns) + w.st.pending
  }

  lemma TurnConserves(cfg: Config, w: World, o: Oracle, made: seq<Recorded>)
    requires Conserved(cfg, w, made) && w.phase.At? && IsAgent(w.phase.node)
    requires w.st.status.Running? && w.st.outcome.NoOutcome?
    ensures Conserved(cfg, Advance(cfg, w, o), made + NewCalls(cfg, w, Tick(o)))
  {
    hide AgentNode, ReachesProcessing, SignalsOf, Next, Taken;
    var n, w' := w.phase.node, Advance(cfg, w, o);
    var t := w'.turns[|w.turns|];
    TurnClears(cfg, n, w.st, o);
    assert w'.turns == w.turns + [t];
    TakenExtends(cfg, w.turns, t);
    var called := WithCalls(cfg, n, w.st, o).pending;
    assert called == w.st.pending + NewCalls(cfg, w, Tick(o));
    assert t.calls == called && w'.st.pending == if Took(cfg, t) then [] else called;
  }

  lemma OtherEventsConserve(cfg: Config, w: World, e: Event, made: seq<Recorded>)
    requires Conserved(cfg, w, made) && (e.Tick? && w.phase.At? ==> !IsAgent(w.phase.node))
    ensures NewCalls(cfg, w, e) == [] && Conserved(cfg, Handle(cfg, w, e), made)
  {
    hide RunAgent, Completion, BeforeInterrupt, AfterApproval, FinishTask, Taken;
  }

  /** Whatever fails and escalates, each call of a run is processed by exactly one turn, in order, or is still pending. */
  lemma {:induction false} CallsConserved(cfg: Config, es: seq<Event>)
    ensures Conserved(cfg, After(cfg, es), Made(cfg, es))
  {
    hide Conserved, NewCalls, Advance, DecideOn;
    if es == [] {
      NoCalls(cfg);
    } else {
      var init, e := es[..|es| - 1], es[|es| - 1];
      var w := After(cfg, init);
      CallsConserved(cfg, init);
      if e.Tick? && w.phase.At? && IsAgent(w.phase.node) {
        AtWork(cfg, init);
        TurnConserves(cfg, w, e.o, Made(cfg, init));
      } else {
        OtherEventsConserve(cfg, w, e, Made(cfg, init));
        assert Made(cfg, init) + [] == Made(cfg, init);
      }
    }
  }

  lemma NoCalls(cfg: Config)
    ensures Conserved(cfg, START_WORLD, [])
  {
  }

  // ---- Spans ----

  /** Span id of the first tick: the supervisor node runs first. */
  function SupervisorSpan(es: seq<Event>): string {
    if es == [] then ""
    else
      var before := SupervisorSpan(es[..|es| - 1]);
      if es[|es| - 1].Tick? && (forall i :: 0 <= i < |es| - 1 ==> es[i].Decide?) then es[|es| - 1].o.spanId else before
  }

  predicate SpansHang(w: World, span: string) {
    && w.st.supervisorSpanId == span
    && forall i :: 0 <= i < |w.turns| && !w.turns[i].node.RunPeerCoder? ==> w.turns[i].parent == span
  }

  lemma TurnHangs(cfg: Config, w: World, o: Oracle, span: string)
    requires SpansHang(w, span) && w.phase.At? && IsAgent(w.phase.node)
    ensures SpansHang(Advance(cfg, w, o), span)
  {
    hide RunAgent, Next, Stores, Bills, Retries;
    TurnHonoursAnswer(cfg, w.phase.node, w.st, o);
  }

  lemma OtherEventsHang(cfg: Config, w: World, e: Event, span: string)
    requires SpansHang(w, span) && (e.Tick? && w.phase.At? ==> !IsAgent(w.phase.node) && !w.phase.node.RunSupervisor?)
    requires w.phase.Resuming? || w.phase.Paused? ==> !w.phase.node.RunSupervisor?
    ensures SpansHang(Handle(cfg, w, e), span)
  {
    hide RunAgent, Completion, BeforeInterrupt, AfterApproval, FinishTask;
  }

  predicate Started(w: World, es: seq<Event>) {
    if forall i :: 0 <= i < |es| ==> es[i].Decide? then w == START_WORLD
    else w.phase.Finished? || !w.phase.node.RunSupervisor?
  }

  lemma {:induction false} StartsWithSupervisor(cfg: Config, es: seq<Event>)
    ensures Started(After(cfg, es), es)
  {
    hide Handle;
    if es != [] {
      var init, e := es[..|es| - 1], es[|es| - 1];
      StartsWithSupervisor(cfg, init);
      StaysStarted(cfg, After(cfg, init), e);
      assert forall i :: 0 <= i < |init| ==> init[i] == es[i];
    }
  }

  lemma StaysStarted(cfg: Config, w: World, e: Event)
    ensures w == START_WORLD && e.Decide? ==> Handle(cfg, w, e) == START_WORLD
    ensures w == START_WORLD && e.Tick? ==> Handle(cfg, w, e).phase == At(IndexRepo)
    ensures w.phase.Finished? || !w.phase.node.RunSupervisor? ==>
              Handle(cfg, w, e).phase.Finished? || !Handle(cfg, w, e).phase.node.RunSupervisor?
  {
    hide RunAgent, Completion, BeforeInterrupt, AfterApproval, FinishTask;
  }

  /** Every agent span hangs below the span of the run's first tick, save those of peer Coders. */
  lemma {:induction false} SpansHangBelowSupervisor(cfg: Config, es: seq<Event>)
    ensures SpansHang(After(cfg, es), SupervisorSpan(es))
  {
    hide SpansHang, Advance, DecideOn;
    if es == [] {
      NoSpans();
    } else {
      var init, e := es[..|es| - 1], es[|es| - 1];
      var w := After(cfg, init);
      SpansHangBelowSupervisor(cfg, init);
      StartsWithSupervisor(cfg, init);
      assert forall i :: 0 <= i < |init| ==> init[i] == es[i];
      if e.Tick? && w.phase == At(RunSupervisor) {
        FirstTickHangs(cfg, w, e.o);
      } else if e.Tick? && w.phase.At? && IsAgent(w.phase.node) {
        TurnHangs(cfg, w, e.o, SupervisorSpan(init));
      } else {
        OtherEventsHang(cfg, w, e, SupervisorSpan(init));
      }
    }
  }

  lemma NoSpans()
    ensures SpansHang(START_WORLD, "")
  {
  }

  lemma FirstTickHangs(cfg: Config, w: World, o: Oracle)
    requires w == START_WORLD
    ensures SpansHang(Advance(cfg, w, o), o.spanId)
  {
    hide RunAgent;
  }
}
