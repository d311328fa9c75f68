/** Deterministic uncertainty triggers, first trigger wins. */
module Uncertainty {
  import opened Support
  import Keys

  const PYDANTIC_FAIL_THRESHOLD: nat := 3
  const PERSISTENT_TEST_FAILURE_THRESHOLD: nat := 3
  const TOOL_ERROR_WINDOW_SIZE: nat := 10

  datatype TriggerName = PydanticValidation3x | PersistentTestFailure | SameFixRejectedTwice | ToolErrorRateExceeded

  datatype Trigger = Trigger(name: TriggerName, agent: string, step: int, count: nat, outOf: nat)

  /** One call of a record_* method. */
  datatype Event =
    | ValidationFailed(agent: string, step: int)
    | ValidationPassed(agent: string, step: int)
    | TestsFailed(agent: string, step: int)
    | TestsPassed
    | DiffRejected(hash: string, agent: string, step: int)
    | ToolCalled(agent: string, ok: bool, step: int)

  function Errors(window: seq<bool>): nat {
    if window == [] then 0
    else Errors(window[..|window| - 1]) + if window[|window| - 1] then 0 else 1
  }

  /** More than half errors, with at least two calls seen. */
  predicate Unhealthy(window: seq<bool>) {
    |window| >= 2 && 2 * Errors(window) > |window|
  }

  /** The tracked counters: the class's fields, and what is serialised between graph nodes. */
  datatype Tracker = Tracker(
    pydantic: map<string, nat>,
    testFailures: nat,
    rejected: map<string, nat>,
    windows: map<string, seq<bool>>,
    fired: bool)

  const EMPTY := Tracker(map[], 0, map[], map[], false)

  /** The effect and result of one record_* call. */
  function Apply(t: Tracker, e: Event): (Tracker, Option<Trigger>) {
    if t.fired && !e.ValidationPassed? && !e.TestsPassed? then (t, None)
    else
      match e
      case ValidationFailed(agent, step) =>
        var key := Keys.StepKey(agent, step);
        var n := GetOr(t.pydantic, key, 0) + 1;
        var t' := t.(pydantic := t.pydantic[key := n]);
        if n >= PYDANTIC_FAIL_THRESHOLD
        then (t'.(fired := true), Some(Trigger(PydanticValidation3x, agent, step, n, n)))
        else (t', None)
      case ValidationPassed(agent, step) =>
        (t.(pydantic := t.pydantic - {Keys.StepKey(agent, step)}), None)
      case TestsFailed(agent, step) =>
        var n := t.testFailures + 1;
        var t' := t.(testFailures := n);
        if n >= PERSISTENT_TEST_FAILURE_THRESHOLD
        then (t'.(fired := true), Some(Trigger(PersistentTestFailure, agent, step, n, n)))
        else (t', None)
      case TestsPassed =>
        (t.(testFailures := 0), None)
      case DiffRejected(hash, agent, step) =>
        var n := GetOr(t.rejected, hash, 0) + 1;
        var t' := t.(rejected := t.rejected[hash := n]);
        if n >= 2
        then (t'.(fired := true), Some(Trigger(SameFixRejectedTwice, agent, step, n, n)))
        else (t', None)
      case ToolCalled(agent, ok, step) =>
        var w := LastN(GetOr(t.windows, agent, []) + [ok], TOOL_ERROR_WINDOW_SIZE);
        var t' := t.(windows := t.windows[agent := w]);
        if Unhealthy(w)
        then (t'.(fired := true), Some(Trigger(ToolErrorRateExceeded, agent, step, Errors(w), |w|)))
        else (t', None)
  }

  /** The tracker after a whole history of calls, without reset. */
  function Run(h: seq<Event>): Tracker {
    if h == [] then EMPTY else Apply(Run(h[..|h| - 1]), h[|h| - 1]).0
  }

  /** What the last call of the history returns. */
  function Returned(h: seq<Event>): Option<Trigger>
    requires h != []
  {
    Apply(Run(h[..|h| - 1]), h[|h| - 1]).1
  }

  lemma RunExtend(h: seq<Event>, e: Event)
    ensures (Run(h + [e]), Returned(h + [e])) == Apply(Run(h), e)
  {
    assert (h + [e])[..|h|] == h;
  }

  class UncertaintyEscalation {
    var pydanticFailCounters: map<string, nat>
    var testFailureCount: nat
    var rejectedDiffHashes: map<string, nat>
    var toolErrorWindows: map<string, seq<bool>>
    var triggerFired: bool

    function View(): Tracker
      reads this
    {
      Tracker(pydanticFailCounters, testFailureCount, rejectedDiffHashes, toolErrorWindows, triggerFired)
    }

    constructor ()
      ensures View() == EMPTY
    {
      pydanticFailCounters, testFailureCount, rejectedDiffHashes, toolErrorWindows := map[], 0, map[], map[];
      triggerFired := false;
    }

    method RecordPydanticFailure(agent: string, step: int) returns (r: Option<Trigger>)
      modifies this
      ensures (View(), r) == Apply(old(View()), ValidationFailed(agent, step))
    {
      if triggerFired {
        return None;
      }
      var key := Keys.StepKey(agent, step);
      var current := GetOr(pydanticFailCounters, key, 0);
      var newCount := current + 1;
      pydanticFailCounters := pydanticFailCounters[key := newCount];
      if newCount >= PYDANTIC_FAIL_THRESHOLD {
        triggerFired := true;
        return Some(Trigger(PydanticValidation3x, agent, step, newCount, newCount));
      }
      return None;
    }

    method RecordPydanticSuccess(agent: string, step: int)
      modifies this`pydanticFailCounters
      ensures (View(), None) == Apply(old(View()), ValidationPassed(agent, step))
    {
      pydanticFailCounters := pydanticFailCounters - {Keys.StepKey(agent, step)};
    }

    method RecordTestFailure(agent: string, step: int) returns (r: Option<Trigger>)
      modifies this
      ensures (View(), r) == Apply(old(View()), TestsFailed(agent, step))
    {
      if triggerFired {
        return None;
      }
      testFailureCount := testFailureCount + 1;
      if testFailureCount >= PERSISTENT_TEST_FAILURE_THRESHOLD {
        triggerFired := true;
        return Some(Trigger(PersistentTestFailure, agent, step, testFailureCount, testFailureCount));
      }
      return None;
    }

    method RecordTestSuccess()
      modifies this`testFailureCount
      ensures (View(), None) == Apply(old(View()), TestsPassed)
    {
      testFailureCount := 0;
    }

    method RecordDiffRejection(hash: string, agent: string, step: int) returns (r: Option<Trigger>)
      modifies this
      ensures (View(), r) == Apply(old(View()), DiffRejected(hash, agent, step))
    {
      if triggerFired {
        return None;
      }
      var count := GetOr(rejectedDiffHashes, hash, 0) + 1;
      rejectedDiffHashes := rejectedDiffHashes[hash := count];
      if count >= 2 {
        triggerFired := true;
        return Some(Trigger(SameFixRejectedTwice, agent, step, count, count));
      }
      return None;
    }

    method RecordToolCall(agent: string, ok: bool, step: int) returns (r: Option<Trigger>)
      modifies this
      ensures (View(), r) == Apply(old(View()), ToolCalled(agent, ok, step))
    {
      hide Errors;
      if triggerFired {
        return None;
      }
      if agent !in toolErrorWindows {
        toolErrorWindows := toolErrorWindows[agent := []];
      }
      var window := LastN(toolErrorWindows[agent] + [ok], TOOL_ERROR_WINDOW_SIZE);
      toolErrorWindows := toolErrorWindows[agent := window];
      assert toolErrorWindows == old(toolErrorWindows)[agent := window];
      var total := |window|;
      var errors := CountErrors(window);
      if total >= 2 && 2 * errors > total {
        triggerFired := true;
        return Some(Trigger(ToolErrorRateExceeded, agent, step, errors, total));
      }
      return None;
    }

    method Reset()
      modifies this
      ensures View() == EMPTY
    {
      pydanticFailCounters, testFailureCount, rejectedDiffHashes, toolErrorWindows := map[], 0, map[], map[];
      triggerFired := false;
    }
  }

  method CountErrors(window: seq<bool>) returns (errors: nat)
    ensures errors == Errors(window)
  {
    errors := 0;
    for i := 0 to |window|
      invariant errors == Errors(window[..i])
    {
      assert window[..i + 1][..i] == window[..i];
      if !window[i] {
        errors := errors + 1;
      }
    }
    assert window[..|window|] == window;
  }

  // ---- The declarative conditions, over the whole call history ----

  /** Failures of one (agent, step) since its last success. */
  function FailureRun(h: seq<Event>, agent: string, step: int): nat {
    if h == [] then 0
    else
      var before := FailureRun(h[..|h| - 1], agent, step);
      match h[|h| - 1]
      case ValidationFailed(a, s) => if a == agent && s == step then before + 1 else before
      case ValidationPassed(a, s) => if a == agent && s == step then 0 else before
      case _ => before
  }

  /** Test failures since the last passing test run. */
  function TestFailureRun(h: seq<Event>): nat {
    if h == [] then 0
    else
      match h[|h| - 1]
      case TestsFailed(_, _) => TestFailureRun(h[..|h| - 1]) + 1
      case TestsPassed => 0
      case _ => TestFailureRun(h[..|h| - 1])
  }

  function Rejections(h: seq<Event>, hash: string): nat {
    if h == [] then 0
    else
      var last := h[|h| - 1];
      Rejections(h[..|h| - 1], hash) + if last.DiffRejected? && last.hash == hash then 1 else 0
  }

  /** Success flags of every tool call of one agent. */
  function ToolResults(h: seq<Event>, agent: string): seq<bool> {
    if h == [] then []
    else
      var last := h[|h| - 1];
      ToolResults(h[..|h| - 1], agent) + if last.ToolCalled? && last.agent == agent then [last.ok] else []
  }

  function RecentResults(h: seq<Event>, agent: string): seq<bool> {
    LastN(ToolResults(h, agent), TOOL_ERROR_WINDOW_SIZE)
  }

  /** The history as it stands meets one of the four documented conditions. */
  ghost predicate Alarming(h: seq<Event>) {
    || (exists agent, step :: FailureRun(h, agent, step) >= 3)
    || TestFailureRun(h) >= 3
    || (exists hash :: Rejections(h, hash) >= 2)
    || (exists agent :: Unhealthy(RecentResults(h, agent)))
  }

  /** No prefix meets a condition. */
  ghost predicate Calm(h: seq<Event>) {
    forall k | 0 <= k <= |h| :: !Alarming(h[..k])
  }

  /** The tracker's counters are the declarative quantities. */
  ghost predicate Counts(t: Tracker, h: seq<Event>) {
    && (forall agent, step :: GetOr(t.pydantic, Keys.StepKey(agent, step), 0) == FailureRun(h, agent, step))
    && t.testFailures == TestFailureRun(h)
    && (forall hash :: GetOr(t.rejected, hash, 0) == Rejections(h, hash))
    && (forall agent :: GetOr(t.windows, agent, []) == RecentResults(h, agent))
  }

  lemma PydanticStep(t: Tracker, h: seq<Event>, e: Event, agent: string, step: int)
    requires !t.fired && GetOr(t.pydantic, Keys.StepKey(agent, step), 0) == FailureRun(h, agent, step)
    ensures GetOr(Apply(t, e).0.pydantic, Keys.StepKey(agent, step), 0) == FailureRun(h + [e], agent, step)
  {
    hide Keys.StepKey;
    assert (h + [e])[..|h|] == h;
    if e.ValidationFailed? || e.ValidationPassed? {
      Keys.StepKeyInjective(agent, step, e.agent, e.step);
    }
  }

  lemma WindowStep(t: Tracker, h: seq<Event>, e: Event, agent: string)
    requires !t.fired && GetOr(t.windows, agent, []) == RecentResults(h, agent)
    ensures GetOr(Apply(t, e).0.windows, agent, []) == RecentResults(h + [e], agent)
  {
    hide Keys.StepKey, Errors;
    assert (h + [e])[..|h|] == h;
    var all := ToolResults(h, agent);
    if e.ToolCalled? && e.agent == agent {
      assert ToolResults(h + [e], agent) == all + [e.ok];
      LastNAppend(all, e.ok, TOOL_ERROR_WINDOW_SIZE);
    } else {
      assert ToolResults(h + [e], agent) == all;
    }
  }

  lemma CountsStep(t: Tracker, h: seq<Event>, e: Event)
    requires !t.fired && Counts(t, h)
    ensures Counts(Apply(t, e).0, h + [e])
  {
    assert (h + [e])[..|h|] == h;
    var t', h' := Apply(t, e).0, h + [e];
    forall agent, step
      ensures GetOr(t'.pydantic, Keys.StepKey(agent, step), 0) == FailureRun(h', agent, step)
    {
      PydanticStep(t, h, e, agent, step);
    }
    forall agent
      ensures GetOr(t'.windows, agent, []) == RecentResults(h', agent)
    {
      WindowStep(t, h, e, agent);
    }
  }

  /** From a history that meets no condition, a call fires exactly when the longer history meets one. */
  lemma FiresIffAlarming(t: Tracker, h: seq<Event>, e: Event)
    requires !t.fired && Counts(t, h) && !Alarming(h)
    ensures var (t', r) := Apply(t, e); (r.Some? <==> Alarming(h + [e])) && t'.fired == r.Some?
  {
    var h', t' := h + [e], Apply(t, e).0;
    CountsStep(t, h, e);
    assert h'[..|h|] == h;
    OtherQuantitiesKeep(h, e);
    match e
    case DiffRejected(hash, _, _) => assert GetOr(t'.rejected, hash, 0) == Rejections(h', hash);
    case ToolCalled(a, _, _) => assert GetOr(t'.windows, a, []) == RecentResults(h', a);
    case _ =>
  }

  /** A call only moves the quantity it is about, or lowers it. */
  lemma OtherQuantitiesKeep(h: seq<Event>, e: Event)
    ensures forall a, s ::
              || (e.ValidationFailed? && (e.agent, e.step) == (a, s))
              || FailureRun(h + [e], a, s) <= FailureRun(h, a, s)
    ensures e.TestsFailed? || TestFailureRun(h + [e]) <= TestFailureRun(h)
    ensures forall d :: (e.DiffRejected? && e.hash == d) || Rejections(h + [e], d) == Rejections(h, d)
    ensures forall a :: (e.ToolCalled? && e.agent == a) || RecentResults(h + [e], a) == RecentResults(h, a)
  {
    assert (h + [e])[..|h|] == h;
    forall a | !(e.ToolCalled? && e.agent == a)
      ensures RecentResults(h + [e], a) == RecentResults(h, a)
    {
      assert ToolResults(h, a) + [] == ToolResults(h, a);
    }
  }

  lemma CalmExtend(h: seq<Event>, e: Event)
    ensures Calm(h + [e]) <==> Calm(h) && !Alarming(h + [e])
    ensures FirstAlarm(h + [e]) <==> Calm(h) && Alarming(h + [e])
  {
    var h' := h + [e];
    assert h'[..|h'|] == h';
    assert forall k | 0 <= k <= |h| :: h'[..k] == h[..k];
    if Calm(h') {
      assert forall k | 0 <= k <= |h| :: !Alarming(h'[..k]);
    }
  }

  lemma {:induction false} CalmTracks(h: seq<Event>)
    requires Calm(h)
    ensures !Run(h).fired && Counts(Run(h), h)
  {
    if h != [] {
      var init, last := h[..|h| - 1], h[|h| - 1];
      assert h == init + [last];
      CalmExtend(init, last);
      CalmTracks(init);
      assert init[..|init|] == init;
      CountsStep(Run(init), init, last);
      FiresIffAlarming(Run(init), init, last);
    }
  }

  /** h is the shortest prefix of itself that meets a condition. */
  ghost predicate FirstAlarm(h: seq<Event>) {
    Alarming(h) && forall k | 0 <= k < |h| :: !Alarming(h[..k])
  }

  lemma EmptyIsCalm()
    ensures !Alarming([])
  {
  }

  /** The flag is up exactly when some prefix was alarming; a call returns a trigger exactly at the first one. */
  lemma {:induction false} FiresExactlyAtFirstAlarm(h: seq<Event>)
    ensures Run(h).fired <==> !Calm(h)
    ensures h != [] ==> (Returned(h).Some? <==> FirstAlarm(h))
  {
    if h == [] {
      EmptyIsCalm();
    } else {
      var init, last := h[..|h| - 1], h[|h| - 1];
      assert h == init + [last];
      FiresExactlyAtFirstAlarm(init);
      CalmExtend(init, last);
      if Calm(init) {
        CalmTracks(init);
        assert init[..|init|] == init;
        FiresIffAlarming(Run(init), init, last);
      }
    }
  }

  /** Over a whole run, at most one call ever returns a trigger. */
  lemma AtMostOneTrigger(h: seq<Event>, i: nat, j: nat)
    requires 0 < i <= |h| && 0 < j <= |h|
    requires Returned(h[..i]).Some? && Returned(h[..j]).Some?
    ensures i == j
  {
    if i < j { assert h[..j][..i] == h[..i]; }
    if j < i { assert h[..i][..j] == h[..j]; }
    FiresExactlyAtFirstAlarm(h[..i]);
    FiresExactlyAtFirstAlarm(h[..j]);
  }

  /** And some call does as soon as a prefix is alarming. */
  lemma {:induction false} SomeTriggerIfAlarmed(h: seq<Event>) returns (i: nat)
    requires !Calm(h)
    ensures 0 < i <= |h| && Returned(h[..i]).Some? && FirstAlarm(h[..i])
  {
    FiresExactlyAtFirstAlarm(h);
    EmptyIsCalm();
    assert h[..|h|] == h;
    if FirstAlarm(h) {
      i := |h|;
    } else {
      var k :| 0 <= k <= |h| && Alarming(h[..k]);
      var m := if k < |h| then k else var k' :| 0 <= k' < |h| && Alarming(h[..k']); k';
      var p := h[..m];
      assert p[..m] == p;
      i := SomeTriggerIfAlarmed(p);
      assert p[..i] == h[..i];
    }
  }

  /** While nothing has fired, no agent's window of two or more calls is mostly errors. */
  lemma CalmWindowsAreHealthy(h: seq<Event>, agent: string)
    requires !Run(h).fired
    ensures !Unhealthy(GetOr(Run(h).windows, agent, []))
  {
    FiresExactlyAtFirstAlarm(h);
    CalmTracks(h);
    assert h[..|h|] == h;
  }

  lemma {:induction false} ErrorsAreFailures(w: seq<bool>)
    ensures Errors(w) == multiset(w)[false] == |w| - multiset(w)[true]
  {
    if w != [] {
      ErrorsAreFailures(w[..|w| - 1]);
      assert w == w[..|w| - 1] + [w[|w| - 1]];
    }
  }

  /** The condition on tool errors: two calls or more, and more failures than successes. */
  lemma UnhealthyMeans(w: seq<bool>)
    ensures Unhealthy(w) <==> |w| >= 2 && multiset(w)[false] > multiset(w)[true]
  {
    ErrorsAreFailures(w);
  }

  /** What the trigger of a call names: its condition, agent and step, and the numbers that met it. */
  predicate Exact(t: Trigger, e: Event, window: seq<bool>) {
    match e
    case ValidationFailed(a, s) => t == Trigger(PydanticValidation3x, a, s, 3, 3)
    case TestsFailed(a, s) => t == Trigger(PersistentTestFailure, a, s, 3, 3)
    case DiffRejected(_, a, s) => t == Trigger(SameFixRejectedTwice, a, s, 2, 2)
    case ToolCalled(a, _, s) => t == Trigger(ToolErrorRateExceeded, a, s, multiset(window)[false], |window|)
    case _ => false
  }

  lemma CallIsExact(t: Tracker, e: Event, window: seq<bool>)
    requires !t.fired && Apply(t, e).1.Some?
    requires e.ValidationFailed? ==> GetOr(t.pydantic, Keys.StepKey(e.agent, e.step), 0) < 3
    requires e.TestsFailed? ==> t.testFailures < 3
    requires e.DiffRejected? ==> GetOr(t.rejected, e.hash, 0) < 2
    requires e.ToolCalled? ==> GetOr(Apply(t, e).0.windows, e.agent, []) == window
    ensures Exact(Apply(t, e).1.value, e, window)
  {
    hide Errors;
    ErrorsAreFailures(window);
  }

  /** The window of the agent a call is about, if it is a tool call. */
  function WindowOf(h: seq<Event>, e: Event): seq<bool> {
    if e.ToolCalled? then RecentResults(h, e.agent) else []
  }

  /** Whatever happened before, a returned trigger is exact. */
  lemma TriggerIsExact(h: seq<Event>)
    requires h != [] && Returned(h).Some?
    ensures Exact(Returned(h).value, h[|h| - 1], WindowOf(h, h[|h| - 1]))
  {
    hide Exact, RecentResults, Run;
    var init, e := h[..|h| - 1], h[|h| - 1];
    assert init[..|init|] == init && h == init + [e];
    assert forall k | 0 <= k <= |init| :: init[..k] == h[..k];
    FiresExactlyAtFirstAlarm(h);
    CalmTracks(init);
    Quantities(init, e);
    if e.ToolCalled? {
      WindowStep(Run(init), init, e, e.agent);
    }
    hide Apply;
    CallIsExact(Run(init), e, WindowOf(h, e));
  }

  lemma Quantities(h: seq<Event>, e: Event)
    requires !Alarming(h) && Counts(Run(h), h)
    ensures e.ValidationFailed? ==> GetOr(Run(h).pydantic, Keys.StepKey(e.agent, e.step), 0) < 3
    ensures Run(h).testFailures < 3
    ensures e.DiffRejected? ==> GetOr(Run(h).rejected, e.hash, 0) < 2
    ensures e.ToolCalled? ==> GetOr(Run(h).windows, e.agent, []) == RecentResults(h, e.agent)
  {
    hide Run, Keys.StepKey;
  }

  /** After a trigger nothing is counted any more, but passing validations and tests still clear their counters. */
  lemma FrozenAfterTrigger(h: seq<Event>, e: Event)
    requires Run(h).fired
    ensures var t, t' := Run(h), Run(h + [e]);
            && t'.fired && Returned(h + [e]).None?
            && t'.rejected == t.rejected && t'.windows == t.windows
            && t'.testFailures == (if e.TestsPassed? then 0 else t.testFailures)
            && forall a, s :: GetOr(t'.pydantic, Keys.StepKey(a, s), 0)
                 == if e == ValidationPassed(a, s) then 0 else GetOr(t.pydantic, Keys.StepKey(a, s), 0)
  {
    hide Keys.StepKey;
    RunExtend(h, e);
    forall a, s
      ensures e.ValidationPassed? && e != ValidationPassed(a, s) ==> Keys.StepKey(a, s) != Keys.StepKey(e.agent, e.step)
    {
      if e.ValidationPassed? {
        Keys.StepKeyInjective(a, s, e.agent, e.step);
      }
    }
  }

  lemma {:induction false} ErrorsOfSuffix(w: seq<bool>, k: nat)
    requires k <= |w|
    ensures Errors(w[k..]) <= Errors(w)
  {
    if k < |w| {
      ErrorsOfSuffix(w[..|w| - 1], k);
      assert w[k..][..|w| - 1 - k] == w[..|w| - 1][k..];
    }
  }

  /** A success never makes a healthy window unhealthy, even when it pushes an old result out. */
  lemma SuccessKeepsHealthy(w: seq<bool>, n: nat)
    requires !Unhealthy(w) && |w| <= n && n >= 2
    ensures !Unhealthy(LastN(w + [true], n))
  {
    assert (w + [true])[..|w|] == w;
    ErrorsOfSuffix(w + [true], if |w| < n then 0 else 1);
    if |w| == 1 {
      assert Errors(w[..0]) == 0;
    }
  }

  /** The error-rate trigger only ever fires on a failing call, never on a success that shifts the window. */
  lemma ErrorRateFiresOnFailure(h: seq<Event>)
    requires h != [] && Returned(h).Some? && Returned(h).value.name == ToolErrorRateExceeded
    ensures h[|h| - 1].ToolCalled? && !h[|h| - 1].ok
  {
    var init, e := h[..|h| - 1], h[|h| - 1];
    FiresExactlyAtFirstAlarm(init);
    CalmTracks(init);
    CalmWindowsAreHealthy(init, e.agent);
    SuccessKeepsHealthy(GetOr(Run(init).windows, e.agent, []), TOOL_ERROR_WINDOW_SIZE);
  }
}
