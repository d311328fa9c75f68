/** Tool-call recordings of one agent turn, processed in a batch when the turn ends. */
module Recording {
  import opened Support
  import opened LoopDetection
  import opened Uncertainty
  import opened Bookkeeping

  /** A recorded tool call and whether it succeeded. */
  datatype Recorded = Recorded(call: Call, ok: bool)

  /** None, or the update the agent node merges: with an escalating outcome or without. */
  datatype BatchUpdate =
    | NoChange
    | Merge(mem: Memory)
    | LoopFound(mem: Memory)
    | Uncertain(mem: Memory)

  /** The tracker after the first n recordings, one record_tool_call at a time. */
  function TrackerAfter(t: Tracker, agent: string, step: int, recs: seq<Recorded>): Tracker {
    if recs == [] then t
    else
      Apply(TrackerAfter(t, agent, step, recs[..|recs| - 1]), ToolCalled(agent, recs[|recs| - 1].ok, step)).0
  }

  /** Recording i makes the error-rate trigger fire. */
  predicate TriggersAt(t: Tracker, agent: string, step: int, recs: seq<Recorded>, i: nat)
    requires i < |recs|
  {
    Apply(TrackerAfter(t, agent, step, recs[..i]), ToolCalled(agent, recs[i].ok, step)).1.Some?
  }

  /** Processing stops at i: a loop against the pre-batch history, or the error-rate trigger. */
  ghost predicate StopsAt(mem: Memory, agent: string, step: int, recs: seq<Recorded>, i: nat)
    requires i < |recs|
  {
    ClosesLoop(mem.history, agent, recs[i].call) || TriggersAt(Rebuilt(mem.ue), agent, step, recs, i)
  }

  /** What stopping at i leaves: the history gains only recording i, the tracker all up to i. */
  function StateAt(mem: Memory, agent: string, step: int, recs: seq<Recorded>, i: nat): Memory
    requires i < |recs|
  {
    Memory(HistoryUpdate(mem.history, agent, recs[i].call), TrackerAfter(Rebuilt(mem.ue), agent, step, recs[..i + 1]))
  }

  /** The batch result, from recording i on. */
  ghost function ProcessFrom(mem: Memory, agent: string, step: int, recs: seq<Recorded>, i: nat): BatchUpdate
    requires i <= |recs|
    decreases |recs| - i
  {
    if i < |recs| then
      if ClosesLoop(mem.history, agent, recs[i].call) then LoopFound(StateAt(mem, agent, step, recs, i))
      else if TriggersAt(Rebuilt(mem.ue), agent, step, recs, i) then Uncertain(StateAt(mem, agent, step, recs, i))
      else ProcessFrom(mem, agent, step, recs, i + 1)
    else if recs == [] then NoChange
    else
      var m := StateAt(mem, agent, step, recs, |recs| - 1);
      if m.history != mem.history || m.ue.windows != mem.ue.windows || m.ue.fired != mem.ue.fired
      then Merge(m)
      else NoChange
  }

  ghost function Process(mem: Memory, agent: string, step: int, recs: seq<Recorded>): BatchUpdate {
    ProcessFrom(mem, agent, step, recs, 0)
  }

  class RecordingRegistry {
    var recordings: map<string, seq<Recorded>>

    constructor ()
      ensures recordings == map[]
    {
      recordings := map[];
    }

    /** Creating a recording proxy keeps what an earlier, failed turn left behind. */
    method OpenProxy(task: string)
      modifies this
      ensures recordings == old(recordings)[task := GetOr(old(recordings), task, [])]
    {
      if task !in recordings {
        recordings := recordings[task := []];
      }
    }

    method Record(task: string, rec: Recorded)
      modifies this
      ensures recordings == old(recordings)[task := GetOr(old(recordings), task, []) + [rec]]
    {
      recordings := recordings[task := GetOr(recordings, task, []) + [rec]];
    }

    /** Processes and clears the recordings of a task; other tasks keep theirs. */
    method ProcessToolCallRecordings(task: string, mem: Memory, agent: string, step: int) returns (r: BatchUpdate)
      modifies this
      ensures r == Process(mem, agent, step, GetOr(old(recordings), task, []))
      ensures GetOr(recordings, task, []) == []
      ensures recordings - {task} == old(recordings) - {task}
    {
      var recs := GetOr(recordings, task, []);
      if recs == [] {
        return NoChange;
      }
      r := ProcessAll(recs, mem, agent, step);
      recordings := recordings - {task};
    }
  }

  /** The loop over one turn's recordings; only the accumulated windows flow from one to the next. */
  method ProcessAll(recs: seq<Recorded>, mem: Memory, agent: string, step: int) returns (r: BatchUpdate)
    requires recs != []
    ensures r == Process(mem, agent, step, recs)
  {
    hide Rebuilt, ClosesLoop, HistoryUpdate, Apply;
    ghost var start := Rebuilt(mem.ue);
    ghost var current := start;
    var windows: map<string, seq<bool>> := map[];
    var m := mem;
    RebuiltTwice(mem.ue);
    for i := 0 to |recs|
      invariant ProcessFrom(mem, agent, step, recs, 0) == ProcessFrom(mem, agent, step, recs, i)
      invariant current == TrackerAfter(start, agent, step, recs[..i]) && Rebuilt(current) == current
      invariant Carries(start, windows, current)
      invariant i > 0 ==> m == StateAt(mem, agent, step, recs, i - 1)
    {
      var rec := recs[i];
      var t, trigger := RecordInBatch(mem.ue, windows, agent, rec.ok, step, current);
      assert recs[..i + 1][..i] == recs[..i];
      current, windows := t, t.windows;
      m := Memory(HistoryUpdate(mem.history, agent, rec.call), t);
      var looped := CheckLoopDetection(mem.history, agent, rec.call);
      if looped {
        return LoopFound(m);
      }
      if trigger.Some? {
        return Uncertain(m);
      }
    }
    r := if m.history != mem.history || m.ue.windows != mem.ue.windows || m.ue.fired != mem.ue.fired
         then Merge(m) else NoChange;
  }

  lemma RebuiltTwice(t: Tracker)
    ensures Rebuilt(Rebuilt(t)) == Rebuilt(t)
  {
  }

  /** The accumulated windows, laid over the tracker rebuilt from the pre-batch state, are the current tracker. */
  ghost predicate Carries(start: Tracker, windows: map<string, seq<bool>>, current: Tracker) {
    current == if windows == map[] then start else start.(windows := windows)
  }

  /** One recording: rebuild from the pre-batch state, lay the accumulated windows over it, record. */
  method RecordInBatch(
    t: Tracker, windows: map<string, seq<bool>>, agent: string, ok: bool, step: int, ghost current: Tracker)
    returns (t': Tracker, trigger: Option<Trigger>)
    requires Carries(Rebuilt(t), windows, current) && Rebuilt(current) == current
    ensures (t', trigger) == Apply(current, ToolCalled(agent, ok, step))
    ensures Rebuilt(t') == t'
    ensures trigger.None? ==> Carries(Rebuilt(t), t'.windows, t')
  {
    var ue := ReconstructUncertainty(t);
    if windows != map[] {
      ue.toolErrorWindows := map a | a in windows :: LastN(windows[a], TOOL_ERROR_WINDOW_SIZE);
    }
    assert ue.View() == current;
    trigger := ue.RecordToolCall(agent, ok, step);
    t' := ue.View();
    ApplyKeepsBounds(current, ToolCalled(agent, ok, step));
  }

  lemma {:induction false} TrackerAfterKeeps(t: Tracker, agent: string, step: int, recs: seq<Recorded>)
    ensures var t' := TrackerAfter(t, agent, step, recs);
            (t'.pydantic, t'.testFailures, t'.rejected) == (t.pydantic, t.testFailures, t.rejected)
  {
    if recs != [] {
      TrackerAfterKeeps(t, agent, step, recs[..|recs| - 1]);
    }
  }

  /** A batch update carries the old validation counters, test failures and rejected hashes. */
  lemma {:induction false} ProcessKeeps(mem: Memory, agent: string, step: int, recs: seq<Recorded>, i: nat)
    requires i <= |recs|
    ensures var r := ProcessFrom(mem, agent, step, recs, i);
            !r.NoChange? ==>
              var t, t' := mem.ue, r.mem.ue;
              && (t'.pydantic, t'.testFailures, t'.rejected) == (t.pydantic, t.testFailures, t.rejected)
              && (r.Merge? ==> forall k: nat | i <= k < |recs| :: !TriggersAt(Rebuilt(t), agent, step, recs, k))
    decreases |recs| - i
  {
    if i < |recs| {
      TrackerAfterKeeps(Rebuilt(mem.ue), agent, step, recs[..i + 1]);
      ProcessKeeps(mem, agent, step, recs, i + 1);
    } else if recs != [] {
      TrackerAfterKeeps(Rebuilt(mem.ue), agent, step, recs[..|recs|]);
    }
  }

  lemma {:induction false} FiresOnlyAtTrigger(t: Tracker, agent: string, step: int, recs: seq<Recorded>)
    requires forall k: nat | k < |recs| :: !TriggersAt(t, agent, step, recs, k)
    ensures TrackerAfter(t, agent, step, recs).fired == t.fired
  {
    if recs != [] {
      var init := recs[..|recs| - 1];
      forall k: nat | k < |init|
        ensures !TriggersAt(t, agent, step, init, k)
      {
        assert init[..k] == recs[..k] && !TriggersAt(t, agent, step, recs, k);
      }
      FiresOnlyAtTrigger(t, agent, step, init);
      assert !TriggersAt(t, agent, step, recs, |recs| - 1);
    }
  }

  /** A merged batch fired nothing. */
  lemma MergeFiredNothing(mem: Memory, agent: string, step: int, recs: seq<Recorded>)
    requires Process(mem, agent, step, recs).Merge?
    ensures Process(mem, agent, step, recs).mem.ue.fired == mem.ue.fired
  {
    ProcessKeeps(mem, agent, step, recs, 0);
    FiresOnlyAtTrigger(Rebuilt(mem.ue), agent, step, recs);
    MergedState(mem, agent, step, recs, 0);
  }

  lemma {:induction false} MergedState(mem: Memory, agent: string, step: int, recs: seq<Recorded>, i: nat)
    requires i <= |recs| && ProcessFrom(mem, agent, step, recs, i).Merge?
    ensures ProcessFrom(mem, agent, step, recs, i).mem.ue == TrackerAfter(Rebuilt(mem.ue), agent, step, recs)
    decreases |recs| - i
  {
    if i < |recs| {
      MergedState(mem, agent, step, recs, i + 1);
    } else {
      assert recs[..|recs|] == recs;
    }
  }

  // ---- The batch against one-at-a-time recording ----

  /** The tool calls of a batch as tracker events. */
  function EventsOf(agent: string, step: int, recs: seq<Recorded>): seq<Event> {
    seq(|recs|, i requires 0 <= i < |recs| => ToolCalled(agent, recs[i].ok, step))
  }

  /** The batch's windows and trigger points are those of the calls recorded one by one. */
  lemma {:induction false} BatchTracksOneByOne(h: seq<Event>, agent: string, step: int, recs: seq<Recorded>)
    ensures TrackerAfter(Run(h), agent, step, recs) == Run(h + EventsOf(agent, step, recs))
    ensures recs != [] ==>
              var n := |recs| - 1;
              TriggersAt(Run(h), agent, step, recs, n) <==> Returned(h + EventsOf(agent, step, recs)).Some?
  {
    if recs == [] {
      assert h + EventsOf(agent, step, recs) == h;
    } else {
      var init, e := recs[..|recs| - 1], ToolCalled(agent, recs[|recs| - 1].ok, step);
      BatchTracksOneByOne(h, agent, step, init);
      assert h + EventsOf(agent, step, recs) == h + EventsOf(agent, step, init) + [e];
      RunExtend(h + EventsOf(agent, step, init), e);
    }
  }

  /** The first stopping recording decides; a loop beats the error rate there. */
  lemma {:induction false} StopsAtFirst(mem: Memory, agent: string, step: int, recs: seq<Recorded>, i: nat, n: nat)
    requires i <= n < |recs| && StopsAt(mem, agent, step, recs, n)
    requires forall k: nat | i <= k < n :: !StopsAt(mem, agent, step, recs, k)
    ensures ProcessFrom(mem, agent, step, recs, i) ==
              var m := StateAt(mem, agent, step, recs, n);
              if ClosesLoop(mem.history, agent, recs[n].call) then LoopFound(m) else Uncertain(m)
    decreases n - i
  {
    if i < n {
      assert !StopsAt(mem, agent, step, recs, i);
      StopsAtFirst(mem, agent, step, recs, i + 1, n);
    }
  }

  /** A full window that a call leaves unchanged consists of that call only. */
  lemma FixedWindowLoops(window: seq<Call>, call: Call)
    requires LastN(window + [call], WINDOW_SIZE) == window
    ensures Loops(window, THRESHOLD)
  {
    assert |window| == WINDOW_SIZE && window == (window + [call])[1..];
    assert window[4] == call && forall i | 0 <= i < 4 :: window[i] == window[i + 1];
    assert window == [call, call, call, call, call];
    assert multiset(window)[call] >= THRESHOLD;
  }

  /** Recording a call that closes no loop always changes the stored history. */
  lemma HistoryAlwaysMoves(history: map<string, seq<Call>>, agent: string, call: Call)
    requires !ClosesLoop(history, agent, call)
    ensures HistoryUpdate(history, agent, call) != history
  {
    var w := LastN(GetOr(history, agent, []) + [call], WINDOW_SIZE);
    assert HistoryUpdate(history, agent, call)[agent] == w;
    if w == GetOr(history, agent, []) {
      FixedWindowLoops(w, call);
    }
  }

  /** Without a stop, the history gains exactly the batch's last call; a non-empty batch never reports None. */
  lemma {:induction false} UnstoppedBatch(mem: Memory, agent: string, step: int, recs: seq<Recorded>, i: nat)
    requires i <= |recs| && forall k: nat | i <= k < |recs| :: !StopsAt(mem, agent, step, recs, k)
    requires i < |recs| || recs == []
    ensures ProcessFrom(mem, agent, step, recs, i) ==
              if recs == [] then NoChange
              else
                var last := recs[|recs| - 1].call;
                Merge(Memory(
                        mem.history[agent := LastN(GetOr(mem.history, agent, []) + [last], 5)],
                        TrackerAfter(Rebuilt(mem.ue), agent, step, recs)))
    decreases |recs| - i
  {
    if i < |recs| {
      assert !StopsAt(mem, agent, step, recs, i);
      if i + 1 < |recs| {
        UnstoppedBatch(mem, agent, step, recs, i + 1);
      } else {
        HistoryAlwaysMoves(mem.history, agent, recs[i].call);
        assert recs[..i + 1] == recs;
      }
    }
  }

  /** Against a loop-free history, a call closes a loop exactly when two of the last four calls equal it. */
  lemma ClosesLoopIffTwoOfLastFour(history: map<string, seq<Call>>, agent: string, call: Call)
    requires !Loops(LastN(GetOr(history, agent, []), 5), THRESHOLD)
    ensures ClosesLoop(history, agent, call) <==> multiset(LastN(GetOr(history, agent, []), 4))[call] >= 2
  {
    var past := GetOr(history, agent, []);
    var four, five := LastN(past, 4), LastN(past, 5);
    var w := LastN(past + [call], WINDOW_SIZE);
    assert w == four + [call];
    assert multiset(w)[call] == multiset(four)[call] + 1;
    if |past| >= 5 {
      assert five == [five[0]] + four;
    } else {
      assert five == past;
    }
    forall c: Call | c != call
      ensures multiset(w)[c] < THRESHOLD
    {
      assert multiset(w)[c] == multiset(four)[c] <= multiset(five)[c];
      assert !(multiset(five)[c] >= THRESHOLD);
    }
  }
}
