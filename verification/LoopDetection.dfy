/** Per-agent sliding-window loop detector. */
module LoopDetection {
  import opened Support
  import Keys

  /** SHA-256 hex digest of the canonical JSON arguments: opaque, but free of colons. */
  type ArgsHash = s: string | ':' !in s witness ""

  /** One recorded tool call. */
  datatype Call = Call(tool: string, hash: ArgsHash) {
    function Key(): string { Keys.Composite(tool, hash) }
  }

  lemma KeyInjective(a: Call, b: Call)
    ensures a.Key() == b.Key() <==> a == b
  {
    if a.Key() == b.Key() {
      Keys.CompositeInjective(a.tool, a.hash, b.tool, b.hash);
    }
  }

  /** A call as it entered the detector, tagged with the agent that made it. */
  datatype Entry = Entry(agent: string, call: Call)

  datatype Detection = Detection(tool: string, hash: string, count: nat, snapshot: seq<Call>)

  /** Everything one agent ever called, in order. */
  function CallsOf(history: seq<Entry>, agent: string): seq<Call> {
    if history == [] then []
    else
      var last := history[|history| - 1];
      CallsOf(history[..|history| - 1], agent) + if last.agent == agent then [last.call] else []
  }

  lemma CallsOfExtend(history: seq<Entry>, e: Entry, agent: string)
    ensures CallsOf(history + [e], agent) == CallsOf(history, agent) + if e.agent == agent then [e.call] else []
  {
    assert (history + [e])[..|history|] == history;
  }

  /** The history without one agent's calls. */
  function Without(history: seq<Entry>, agent: string): seq<Entry> {
    if history == [] then []
    else
      var last := history[|history| - 1];
      Without(history[..|history| - 1], agent) + if last.agent == agent then [] else [last]
  }

  lemma {:induction false} WithoutCalls(history: seq<Entry>, agent: string, other: string)
    ensures CallsOf(Without(history, agent), other) == if other == agent then [] else CallsOf(history, other)
  {
    if history != [] {
      var init := history[..|history| - 1];
      WithoutCalls(init, agent, other);
      var w := Without(init, agent);
      var last := history[|history| - 1];
      if last.agent != agent {
        assert (w + [last])[..|w|] == w;
      } else {
        assert w + [] == w;
      }
    }
  }

  /** Some call occurs at least threshold times in the window. */
  ghost predicate Loops(window: seq<Call>, threshold: nat) {
    exists c: Call :: multiset(window)[c] >= threshold
  }

  /** The call an agent repeats, as declared over its unbounded history. */
  ghost predicate LoopInHistory(history: seq<Entry>, agent: string, windowSize: nat, threshold: nat) {
    Loops(LastN(CallsOf(history, agent), windowSize), threshold)
  }

  function KeysOf(window: seq<Call>): seq<string> {
    seq(|window|, i requires 0 <= i < |window| => window[i].Key())
  }

  /** Counting string keys counts calls. */
  lemma {:induction false} KeyCounts(window: seq<Call>, c: Call)
    ensures multiset(KeysOf(window))[c.Key()] == multiset(window)[c]
  {
    if window != [] {
      var init, last := window[..|window| - 1], window[|window| - 1];
      KeyCounts(init, c);
      KeyInjective(last, c);
      assert window == init + [last];
      assert KeysOf(window) == KeysOf(init) + [last.Key()];
    }
  }

  /** Distinct keys in order of first occurrence: the iteration order of the counting dict. */
  function FirstOccurrences(keys: seq<string>): seq<string> {
    if keys == [] then []
    else
      var earlier := FirstOccurrences(keys[..|keys| - 1]);
      var last := keys[|keys| - 1];
      if last in earlier then earlier else earlier + [last]
  }

  lemma {:induction false} FirstOccurrencesComplete(keys: seq<string>)
    ensures forall k :: k in FirstOccurrences(keys) <==> k in keys
  {
    if keys != [] {
      FirstOccurrencesComplete(keys[..|keys| - 1]);
      assert keys == keys[..|keys| - 1] + [keys[|keys| - 1]];
    }
  }

  /** What check reports on a window: the earliest key that reaches the threshold. */
  ghost predicate Reports(window: seq<Call>, threshold: nat, d: Detection) {
    exists i: nat | i < |window| :: ReportsAt(window, threshold, d, i)
  }

  ghost predicate ReportsAt(window: seq<Call>, threshold: nat, d: Detection, i: nat)
    requires i < |window|
  {
    var order := FirstOccurrences(KeysOf(window));
    && d == Detection(d.tool, d.hash, multiset(window)[window[i]], window)
    && d.count >= threshold
    && ':' in window[i].Key() && (d.tool, d.hash) == Keys.SplitAtFirstColon(window[i].Key())
    && exists j: nat | j < |order| :: order[j] == window[i].Key() && Below(KeysOf(window), order[..j], threshold)
  }

  /** None of the given keys reaches the threshold. */
  ghost predicate Below(keys: seq<string>, some: seq<string>, threshold: nat) {
    forall k | k in some :: multiset(keys)[k] < threshold
  }

  lemma KeyHasColon(c: Call)
    ensures ':' in c.Key()
  {
    assert c.Key()[|c.tool|] == ':';
  }

  /** The report names the looping call itself exactly when its tool name has no colon. */
  lemma ReportNamesTheCall(c: Call)
    ensures ':' in c.Key()
    ensures Keys.SplitAtFirstColon(c.Key()) == (c.tool, c.hash) <==> ':' !in c.tool
  {
    KeyHasColon(c);
    Keys.SplitUndoesComposite(c.tool, c.hash);
  }

  /** Every stored window holds the agent's last n calls. */
  ghost predicate WindowsOf(windows: map<string, seq<Call>>, history: seq<Entry>, n: nat) {
    forall agent :: GetOr(windows, agent, []) == LastN(CallsOf(history, agent), n)
  }

  lemma RecordKeepsWindows(windows: map<string, seq<Call>>, history: seq<Entry>, e: Entry, n: nat)
    requires WindowsOf(windows, history, n)
    ensures WindowsOf(windows[e.agent := LastN(GetOr(windows, e.agent, []) + [e.call], n)], history + [e], n)
  {
    LastNAppend(CallsOf(history, e.agent), e.call, n);
    forall agent
      ensures CallsOf(history + [e], agent) == CallsOf(history, agent) + if agent == e.agent then [e.call] else []
    {
      CallsOfExtend(history, e, agent);
    }
    assert forall s: seq<Call> :: s + [] == s;
  }

  datatype Created = Created(detector: LoopDetector) | Rejected(badWindow: bool)

  class LoopDetector {
    const windowSize: nat
    const threshold: nat
    var windows: map<string, seq<Call>>
    ghost var history: seq<Entry>

    /** Every window is the recent past of its agent's unbounded history. */
    ghost predicate Valid()
      reads this
    {
      windowSize >= 1 && threshold >= 2 && WindowsOf(windows, history, windowSize)
    }

    constructor (windowSize: nat, threshold: nat)
      requires windowSize >= 1 && threshold >= 2
      ensures Valid() && history == []
      ensures this.windowSize == windowSize && this.threshold == threshold && windows == map[]
    {
      this.windowSize, this.threshold := windowSize, threshold;
      windows, history := map[], [];
    }

    /** The constructor's argument checks, in the order they are made. */
    static method Create(windowSize: int, threshold: int) returns (r: Created)
      ensures r.Rejected? <==> windowSize < 1 || threshold < 2
      ensures r.Rejected? ==> r.badWindow == (windowSize < 1)
      ensures r.Created? ==> fresh(r.detector) && r.detector.Valid() && r.detector.history == []
      ensures r.Created? ==> r.detector.windowSize == windowSize && r.detector.threshold == threshold
    {
      if windowSize < 1 {
        return Rejected(true);
      }
      if threshold < 2 {
        return Rejected(false);
      }
      var d := new LoopDetector(windowSize, threshold);
      return Created(d);
    }

    method Record(agent: string, call: Call)
      requires Valid()
      modifies this
      ensures Valid() && history == old(history) + [Entry(agent, call)]
      ensures forall other :: other != agent ==> GetWindow(other) == old(GetWindow(other))
    {
      if agent !in windows {
        windows := windows[agent := []];
      }
      RecordKeepsWindows(windows, history, Entry(agent, call), windowSize);
      windows := windows[agent := LastN(windows[agent] + [call], windowSize)];
      history := history + [Entry(agent, call)];
    }

    function GetWindow(agent: string): seq<Call>
      reads this
    {
      GetOr(windows, agent, [])
    }

    /** A loop is reported exactly when the unbounded history has one. */
    method Check(agent: string) returns (r: Option<Detection>)
      requires Valid()
      ensures r.Some? <==> LoopInHistory(history, agent, windowSize, threshold)
      ensures r.Some? ==> Reports(LastN(CallsOf(history, agent), windowSize), threshold, r.value)
    {
      r := CheckWindow(GetWindow(agent), threshold);
    }

    method Reset(agent: string)
      requires Valid()
      modifies this
      ensures Valid() && history == Without(old(history), agent)
      ensures GetWindow(agent) == []
      ensures forall other :: other != agent ==> GetWindow(other) == old(GetWindow(other))
    {
      forall other
        ensures GetOr(windows - {agent}, other, []) == LastN(CallsOf(Without(history, agent), other), windowSize)
      {
        WithoutCalls(history, agent, other);
      }
      windows := windows - {agent};
      history := Without(history, agent);
    }
  }

  /** The counting loop of check: occurrences per key, and the keys in insertion order. */
  method CountKeys(window: seq<Call>) returns (counts: map<string, nat>, order: seq<string>)
    ensures order == FirstOccurrences(KeysOf(window))
    ensures forall k :: GetOr(counts, k, 0) == multiset(KeysOf(window))[k]
    ensures forall k :: k in order <==> k in counts
  {
    ghost var keys := KeysOf(window);
    counts, order := map[], [];
    for i := 0 to |window|
      invariant order == FirstOccurrences(keys[..i])
      invariant forall k :: k in counts <==> k in order
      invariant forall k :: GetOr(counts, k, 0) == multiset(keys[..i])[k]
    {
      var k := window[i].Key();
      assert keys[..i + 1][..i] == keys[..i] && keys[..i + 1] == keys[..i] + [k];
      if k !in counts {
        order := order + [k];
      }
      counts := counts[k := GetOr(counts, k, 0) + 1];
    }
    assert keys[..|window|] == keys;
  }

  /** The part of check that works on one agent's window. */
  method CheckWindow(window: seq<Call>, threshold: nat) returns (r: Option<Detection>)
    requires threshold >= 2
    ensures r.Some? <==> Loops(window, threshold)
    ensures r.Some? ==> Reports(window, threshold, r.value)
  {
    if |window| < threshold {
      assert forall c: Call :: multiset(window)[c] <= |multiset(window)|;
      return None;
    }
    var counts, order := CountKeys(window);
    ghost var keys := KeysOf(window);
    FirstOccurrencesComplete(keys);
    for j := 0 to |order|
      invariant Below(keys, order[..j], threshold)
    {
      var key := order[j];
      if counts[key] >= threshold {
        KeyInWindow(window, key);
        var (tool, hash) := Keys.SplitAtFirstColon(key);
        r := Some(Detection(tool, hash, counts[key], window));
        ReportIsRight(window, threshold, r.value, order, j);
        return;
      }
      assert order[..j + 1] == order[..j] + [key];
    }
    NoLoop(window, threshold, order);
    r := None;
  }

  predicate Distinct(keys: seq<string>) {
    forall i, j :: 0 <= i < j < |keys| ==> keys[i] != keys[j]
  }

  lemma DistinctExtends(keys: seq<string>, last: string)
    requires Distinct(keys) && last !in keys
    ensures Distinct(keys + [last])
  {
  }

  lemma {:induction false} OrderIsDistinct(keys: seq<string>)
    ensures Distinct(FirstOccurrences(keys))
  {
    if keys != [] {
      var earlier, last := FirstOccurrences(keys[..|keys| - 1]), keys[|keys| - 1];
      OrderIsDistinct(keys[..|keys| - 1]);
      if last !in earlier {
        DistinctExtends(earlier, last);
      }
    }
  }

  lemma {:induction false} OrderGrows(keys: seq<string>, i: nat)
    requires i < |keys|
    ensures FirstOccurrences(keys[..i]) <= FirstOccurrences(keys)
    ensures keys[i] !in keys[..i] ==> FirstOccurrences(keys[..i]) + [keys[i]] <= FirstOccurrences(keys)
  {
    var init := keys[..|keys| - 1];
    if i < |init| {
      OrderGrows(init, i);
      assert init[..i] == keys[..i];
    } else {
      FirstOccurrencesComplete(init);
    }
  }

  /** The report is about the first call of the window that occurs often enough, and no call before it does. */
  lemma ReportIsEarliest(window: seq<Call>, threshold: nat, d: Detection) returns (i: nat)
    requires Reports(window, threshold, d)
    ensures i < |window| && d.count == multiset(window)[window[i]] >= threshold && d.snapshot == window
    ensures ':' in window[i].Key() && (d.tool, d.hash) == Keys.SplitAtFirstColon(window[i].Key())
    ensures forall j :: 0 <= j < i ==> multiset(window)[window[j]] < threshold
  {
    hide FirstOccurrences;
    var n: nat :| n < |window| && ReportsAt(window, threshold, d, n);
    var keys := KeysOf(window);
    var order := FirstOccurrences(keys);
    var p: nat :| p < |order| && order[p] == keys[n] && Below(keys, order[..p], threshold);
    i := FirstAt(keys, n);
    KeyInjective(window[i], window[n]);
    OrderGrows(keys, i);
    OrderIsDistinct(keys);
    var before := FirstOccurrences(keys[..i]);
    assert order[|before|] == (before + [keys[i]])[|before|];
    FirstOccurrencesComplete(keys[..i]);
    forall j | 0 <= j < i ensures multiset(window)[window[j]] < threshold {
      assert keys[j] in keys[..i] && keys[j] in before && order[..p] == before;
      KeyCounts(window, window[j]);
    }
  }

  /** Where a key first occurs. */
  lemma {:induction false} FirstAt(keys: seq<string>, n: nat) returns (i: nat)
    requires n < |keys|
    ensures i <= n && keys[i] == keys[n] && keys[i] !in keys[..i]
  {
    if j: nat :| j < n && keys[j] == keys[n] {
      i := FirstAt(keys, j);
    } else {
      i := n;
    }
  }

  lemma KeyInWindow(window: seq<Call>, key: string)
    requires key in KeysOf(window)
    ensures ':' in key
  {
    var i :| 0 <= i < |window| && KeysOf(window)[i] == key;
    KeyHasColon(window[i]);
  }

  lemma ReportIsRight(window: seq<Call>, threshold: nat, d: Detection, order: seq<string>, j: nat)
    requires j < |order| && order == FirstOccurrences(KeysOf(window)) && Below(KeysOf(window), order[..j], threshold)
    requires order[j] in KeysOf(window) && ':' in order[j]
    requires (d.tool, d.hash) == Keys.SplitAtFirstColon(order[j]) && d.snapshot == window
    requires d.count == multiset(KeysOf(window))[order[j]] >= threshold
    ensures Loops(window, threshold) && Reports(window, threshold, d)
  {
    var i: nat :| i < |window| && KeysOf(window)[i] == order[j];
    KeyCounts(window, window[i]);
    assert ReportsAt(window, threshold, d, i);
  }

  lemma NoLoop(window: seq<Call>, threshold: nat, order: seq<string>)
    requires threshold > 0 && Below(KeysOf(window), order, threshold)
    requires forall k :: k in KeysOf(window) ==> k in order
    ensures !Loops(window, threshold)
  {
    forall c: Call
      ensures multiset(window)[c] < threshold
    {
      KeyCounts(window, c);
      assert c.Key() in multiset(KeysOf(window)) ==> c.Key() in KeysOf(window);
    }
  }
}
