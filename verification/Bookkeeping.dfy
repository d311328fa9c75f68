/** Rebuilding the failure detectors from serialised state, and syncing them back, around every record. */
module Bookkeeping {
  import opened Support
  import Keys
  import opened LoopDetection
  import opened Uncertainty

  const WINDOW_SIZE: nat := 5
  const THRESHOLD: nat := 3

  /** The serialised detector state kept between graph nodes. */
  datatype Memory = Memory(history: map<string, seq<Call>>, ue: Tracker)

  datatype Verdict = NoEscalation | LoopDetected | UncertaintyEscalated

  /** What the tracker is after a rebuild: each window passes through a bounded deque. */
  function Rebuilt(t: Tracker): Tracker {
    t.(windows := map agent | agent in t.windows :: LastN(t.windows[agent], TOOL_ERROR_WINDOW_SIZE))
  }

  /** The new call closes a loop against the stored history. */
  ghost predicate ClosesLoop(history: map<string, seq<Call>>, agent: string, call: Call) {
    Loops(LastN(GetOr(history, agent, []) + [call], WINDOW_SIZE), THRESHOLD)
  }

  function HistoryUpdate(history: map<string, seq<Call>>, agent: string, call: Call): map<string, seq<Call>> {
    history[agent := LastN(GetOr(history, agent, []) + [call], WINDOW_SIZE)]
  }

  method ReconstructUncertainty(t: Tracker) returns (u: UncertaintyEscalation)
    ensures fresh(u) && u.View() == Rebuilt(t)
  {
    u := new UncertaintyEscalation();
    u.pydanticFailCounters := t.pydantic;
    u.testFailureCount := t.testFailures;
    u.rejectedDiffHashes := t.rejected;
    u.toolErrorWindows := map agent | agent in t.windows :: LastN(t.windows[agent], TOOL_ERROR_WINDOW_SIZE);
    u.triggerFired := t.fired;
  }

  /** Replays the stored history into a new detector, records the new call and checks. */
  method CheckLoopDetection(history: map<string, seq<Call>>, agent: string, call: Call) returns (looped: bool)
    ensures looped <==> ClosesLoop(history, agent, call)
  {
    var detector := new LoopDetector(WINDOW_SIZE, THRESHOLD);
    var past := GetOr(history, agent, []);
    for i := 0 to |past|
      invariant fresh(detector) && detector.Valid()
      invariant CallsOf(detector.history, agent) == past[..i]
    {
      ghost var h := detector.history;
      detector.Record(agent, past[i]);
      assert detector.history[..|detector.history| - 1] == h;
    }
    ghost var h := detector.history;
    detector.Record(agent, call);
    assert detector.history[..|detector.history| - 1] == h;
    assert past[..|past|] == past;
    var r := detector.Check(agent);
    looped := r.Some?;
  }

  /** State after one dispatched tool call: loop detection first, then the error rate. */
  ghost function RecordedToolCall(mem: Memory, agent: string, call: Call, ok: bool, step: int): (Verdict, Memory) {
    var (ue, trigger) := Apply(Rebuilt(mem.ue), ToolCalled(agent, ok, step));
    if ClosesLoop(mem.history, agent, call) then
      (LoopDetected, Memory(HistoryUpdate(mem.history, agent, call), ue))
    else if trigger.Some? then
      (UncertaintyEscalated, Memory(mem.history, ue))
    else
      (NoEscalation, Memory(HistoryUpdate(mem.history, agent, call), ue))
  }

  method RecordToolCallAndCheck(mem: Memory, agent: string, call: Call, ok: bool, step: int)
    returns (verdict: Verdict, mem': Memory)
    ensures (verdict, mem') == RecordedToolCall(mem, agent, call, ok, step)
  {
    var looped := CheckLoopDetection(mem.history, agent, call);
    if looped {
      var ue := ReconstructUncertainty(mem.ue);
      var _ := ue.RecordToolCall(agent, ok, step);
      return LoopDetected, Memory(HistoryUpdate(mem.history, agent, call), ue.View());
    }
    var ue := ReconstructUncertainty(mem.ue);
    var trigger := ue.RecordToolCall(agent, ok, step);
    if trigger.Some? {
      return UncertaintyEscalated, Memory(mem.history, ue.View());
    }
    return NoEscalation, Memory(HistoryUpdate(mem.history, agent, call), ue.View());
  }

  /** Result of the validation-failure and diff-rejection helpers: None, a synced tracker, or an escalation. */
  datatype SignalUpdate = NoUpdate | Synced(ue: Tracker) | Escalation(ue: Tracker)

  function RecordedPydanticFailure(t: Tracker, agent: string, step: int): SignalUpdate {
    var (ue, trigger) := Apply(Rebuilt(t), ValidationFailed(agent, step));
    if trigger.Some? then Escalation(ue)
    else if ue.pydantic == t.pydantic then NoUpdate
    else Synced(ue)
  }

  function RecordedPydanticSuccess(t: Tracker, agent: string, step: int): Tracker {
    Apply(Rebuilt(t), ValidationPassed(agent, step)).0
  }

  function RecordedDiffRejection(t: Tracker, hash: string, agent: string, step: int): SignalUpdate {
    if hash == "" then NoUpdate
    else
      var (ue, trigger) := Apply(Rebuilt(t), DiffRejected(hash, agent, step));
      if trigger.Some? then Escalation(ue)
      else if ue.rejected == t.rejected then NoUpdate
      else Synced(ue)
  }

  // ---- Simulation: replaying trimmed state against two live detectors ----

  /** One recording made during a run. */
  datatype Step =
    | Tool(agent: string, call: Call, ok: bool, step: int)
    | Failure(agent: string, step: int)
    | Success(agent: string, step: int)
    | Rejection(hash: string, agent: string, step: int)

  const START := Memory(map[], EMPTY)

  /** One step on serialised state. */
  ghost function Replay(mem: Memory, s: Step): (Verdict, Memory) {
    match s
    case Tool(agent, call, ok, step) => RecordedToolCall(mem, agent, call, ok, step)
    case Success(agent, step) => (NoEscalation, mem.(ue := RecordedPydanticSuccess(mem.ue, agent, step)))
    case Failure(agent, step) => Settle(mem, RecordedPydanticFailure(mem.ue, agent, step))
    case Rejection(hash, agent, step) => Settle(mem, RecordedDiffRejection(mem.ue, hash, agent, step))
  }

  function Settle(mem: Memory, u: SignalUpdate): (Verdict, Memory) {
    match u
    case NoUpdate => (NoEscalation, mem)
    case Synced(ue) => (NoEscalation, mem.(ue := ue))
    case Escalation(ue) => (UncertaintyEscalated, mem.(ue := ue))
  }

  ghost function Replayed(steps: seq<Step>): Memory {
    if steps == [] then START else Replay(Replayed(steps[..|steps| - 1]), steps[|steps| - 1]).1
  }

  ghost function ReplayVerdict(steps: seq<Step>): Verdict
    requires steps != []
  {
    Replay(Replayed(steps[..|steps| - 1]), steps[|steps| - 1]).0
  }

  /** What a live LoopDetector(5, 3) would have recorded. */
  function Entries(steps: seq<Step>): seq<Entry> {
    if steps == [] then []
    else
      var s := steps[|steps| - 1];
      Entries(steps[..|steps| - 1]) + if s.Tool? then [Entry(s.agent, s.call)] else []
  }

  /** What a live UncertaintyEscalation would have been told; an empty hash is never reported. */
  function Events(steps: seq<Step>): seq<Event> {
    if steps == [] then []
    else
      Events(steps[..|steps| - 1]) + EventOf(steps[|steps| - 1])
  }

  function EventOf(s: Step): seq<Event> {
    match s
    case Tool(agent, _, ok, step) => [ToolCalled(agent, ok, step)]
    case Failure(agent, step) => [ValidationFailed(agent, step)]
    case Success(agent, step) => [ValidationPassed(agent, step)]
    case Rejection(hash, agent, step) => if hash == "" then [] else [DiffRejected(hash, agent, step)]
  }

  /** The verdict of the two live detectors on the last step; loop detection wins ties. */
  ghost function LiveVerdict(steps: seq<Step>): Verdict
    requires steps != []
  {
    var s := steps[|steps| - 1];
    if s.Tool? && LoopInHistory(Entries(steps), s.agent, WINDOW_SIZE, THRESHOLD) then LoopDetected
    else if EventOf(s) != [] && Returned(Events(steps)).Some? then UncertaintyEscalated
    else NoEscalation
  }

  ghost predicate Agrees(mem: Memory, steps: seq<Step>) {
    && mem.ue == Run(Events(steps))
    && forall agent :: GetOr(mem.history, agent, []) == LastN(CallsOf(Entries(steps), agent), WINDOW_SIZE)
  }

  lemma ApplyKeepsBounds(t: Tracker, e: Event)
    requires Rebuilt(t) == t
    ensures Rebuilt(Apply(t, e).0) == Apply(t, e).0
  {
    var t' := Apply(t, e).0;
    forall agent | agent in t'.windows
      ensures |t'.windows[agent]| <= TOOL_ERROR_WINDOW_SIZE
    {
      if agent in t.windows {
        assert Rebuilt(t).windows[agent] == LastN(t.windows[agent], TOOL_ERROR_WINDOW_SIZE);
      }
    }
  }

  lemma {:induction false} RunWindowsBounded(h: seq<Event>)
    ensures Rebuilt(Run(h)) == Run(h)
  {
    if h != [] {
      RunWindowsBounded(h[..|h| - 1]);
      ApplyKeepsBounds(Run(h[..|h| - 1]), h[|h| - 1]);
    }
  }

  lemma StepExtends(steps: seq<Step>, s: Step)
    ensures Events(steps + [s]) == Events(steps) + EventOf(s)
    ensures Entries(steps + [s]) == Entries(steps) + if s.Tool? then [Entry(s.agent, s.call)] else []
  {
    assert (steps + [s])[..|steps|] == steps;
  }

  lemma HistoryAgrees(history: map<string, seq<Call>>, es: seq<Entry>, e: Entry)
    requires forall agent :: GetOr(history, agent, []) == LastN(CallsOf(es, agent), WINDOW_SIZE)
    ensures ClosesLoop(history, e.agent, e.call) <==> LoopInHistory(es + [e], e.agent, WINDOW_SIZE, THRESHOLD)
    ensures forall agent ::
              GetOr(HistoryUpdate(history, e.agent, e.call), agent, []) == LastN(CallsOf(es + [e], agent), WINDOW_SIZE)
  {
    LastNAppend(CallsOf(es, e.agent), e.call, WINDOW_SIZE);
    forall agent
      ensures CallsOf(es + [e], agent) == CallsOf(es, agent) + if e.agent == agent then [e.call] else []
    {
      CallsOfExtend(es, e, agent);
    }
    assert forall s: seq<Call> :: s + [] == s;
  }

  lemma StepAgrees(mem: Memory, steps: seq<Step>, s: Step)
    requires Agrees(mem, steps)
    ensures var (v, mem') := Replay(mem, s);
            && v == LiveVerdict(steps + [s])
            && (v == NoEscalation ==> Agrees(mem', steps + [s]))
  {
    StepExtends(steps, s);
    RunWindowsBounded(Events(steps));
    if s.Tool? {
      HistoryAgrees(mem.history, Entries(steps), Entry(s.agent, s.call));
      RunExtend(Events(steps), ToolCalled(s.agent, s.ok, s.step));
    } else {
      SignalAgrees(mem, steps, s);
    }
  }

  /** A None from the helpers really means that nothing changed. */
  lemma SignalIsApply(mem: Memory, s: Step)
    requires !s.Tool? && EventOf(s) != [] && Rebuilt(mem.ue) == mem.ue
    ensures var (ue, trigger) := Apply(mem.ue, EventOf(s)[0]);
            Replay(mem, s) == (if trigger.Some? then UncertaintyEscalated else NoEscalation, mem.(ue := ue))
  {
    var t := mem.ue;
    match s
    case Failure(agent, step) =>
      var key := Keys.StepKey(agent, step);
      assert !t.fired ==> GetOr(Apply(t, EventOf(s)[0]).0.pydantic, key, 0) == GetOr(t.pydantic, key, 0) + 1;
    case Rejection(hash, _, _) =>
      assert !t.fired ==> GetOr(Apply(t, EventOf(s)[0]).0.rejected, hash, 0) == GetOr(t.rejected, hash, 0) + 1;
    case _ =>
  }

  lemma SignalAgrees(mem: Memory, steps: seq<Step>, s: Step)
    requires Agrees(mem, steps) && !s.Tool? && Rebuilt(mem.ue) == mem.ue
    requires Events(steps + [s]) == Events(steps) + EventOf(s) && Entries(steps + [s]) == Entries(steps)
    ensures var (v, mem') := Replay(mem, s);
            && v == LiveVerdict(steps + [s])
            && (v == NoEscalation ==> Agrees(mem', steps + [s]))
  {
    if EventOf(s) == [] {
      assert Events(steps) + [] == Events(steps);
    } else {
      assert EventOf(s) == [EventOf(s)[0]];
      RunExtend(Events(steps), EventOf(s)[0]);
      SignalIsApply(mem, s);
    }
  }

  /** No step of the run was escalated by the live detectors. */
  ghost predicate Unescalated(steps: seq<Step>)
    decreases |steps|
  {
    steps == [] || (LiveVerdict(steps) == NoEscalation && Unescalated(steps[..|steps| - 1]))
  }

  lemma {:induction false} ReplayAgrees(steps: seq<Step>)
    requires Unescalated(steps)
    ensures Agrees(Replayed(steps), steps)
  {
    if steps != [] {
      var init, last := steps[..|steps| - 1], steps[|steps| - 1];
      ReplayAgrees(init);
      assert steps == init + [last];
      StepAgrees(Replayed(init), init, last);
    }
  }

  /** Verdicts from rebuilt state equal the live detectors', up to and including the first escalation. */
  lemma ReplaySimulatesLive(steps: seq<Step>)
    requires steps != [] && Unescalated(steps[..|steps| - 1])
    ensures ReplayVerdict(steps) == LiveVerdict(steps)
  {
    var init, last := steps[..|steps| - 1], steps[|steps| - 1];
    ReplayAgrees(init);
    assert steps == init + [last];
    StepAgrees(Replayed(init), init, last);
  }
}
