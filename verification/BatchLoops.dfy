/** Where a batch of tool calls reports its first loop, compared with recording the same calls one at a time. */
module BatchLoops {
  import opened Support
  import opened LoopDetection
  import opened Bookkeeping
  import opened Recording

  type History = map<string, seq<Call>>

  /** The stored window of the agent holds no loop. */
  ghost predicate LoopFree(history: History, agent: string) {
    !Loops(LastN(GetOr(history, agent, []), WINDOW_SIZE), THRESHOLD)
  }

  /** The history after recording calls one at a time. */
  function Folded(history: History, agent: string, recs: seq<Recorded>): History {
    if recs == [] then history
    else HistoryUpdate(Folded(history, agent, recs[..|recs| - 1]), agent, recs[|recs| - 1].call)
  }

  /** Call i closes a loop: against the history before the batch, or against all calls before it. */
  ghost predicate ClosesAt(history: History, agent: string, recs: seq<Recorded>, i: nat, batched: bool)
    requires i < |recs|
  {
    ClosesLoop(if batched then history else Folded(history, agent, recs[..i]), agent, recs[i].call)
  }

  /** The first loop is reported at call i. */
  ghost predicate FirstLoopAt(history: History, agent: string, recs: seq<Recorded>, i: nat, batched: bool) {
    && i < |recs| && ClosesAt(history, agent, recs, i, batched)
    && forall k: nat | k < i :: !ClosesAt(history, agent, recs, k, batched)
  }

  ghost predicate SameFirstLoop(history: History, agent: string, recs: seq<Recorded>) {
    forall i: nat :: FirstLoopAt(history, agent, recs, i, true) <==> FirstLoopAt(history, agent, recs, i, false)
  }

  /** One at a time is what recording single calls does. */
  lemma FoldingRecordsSingly(mem: Memory, agent: string, recs: seq<Recorded>, step: int, i: nat)
    requires i < |recs|
    ensures var history := Folded(mem.history, agent, recs[..i]);
            var (verdict, after) := RecordedToolCall(Memory(history, mem.ue), agent, recs[i].call, recs[i].ok, step);
            && (verdict.LoopDetected? <==> ClosesAt(mem.history, agent, recs, i, false))
            && (!verdict.UncertaintyEscalated? ==> after.history == Folded(mem.history, agent, recs[..i + 1]))
  {
    hide ClosesLoop;
    assert recs[..i + 1][..i] == recs[..i];
  }

  /** The batch's first loop is what processing the batch reports, unless the error rate stopped it before. */
  lemma BatchReportsFirstLoop(mem: Memory, agent: string, recs: seq<Recorded>, step: int, i: nat)
    requires FirstLoopAt(mem.history, agent, recs, i, true)
    requires forall k: nat | k < i :: !TriggersAt(Rebuilt(mem.ue), agent, step, recs, k)
    ensures Process(mem, agent, step, recs) == LoopFound(StateAt(mem, agent, step, recs, i))
  {
    hide ClosesLoop, TriggersAt;
    forall k: nat | k < i ensures !StopsAt(mem, agent, step, recs, k) {
      assert !ClosesAt(mem.history, agent, recs, k, true);
    }
    StopsAtFirst(mem, agent, step, recs, 0, i);
  }

  lemma CountAppend(w: seq<Call>, last: Call, c: Call)
    ensures multiset(w + [last])[c] == multiset(w)[c] + if last == c then 1 else 0
  {
  }

  lemma CountOfTwo(p: Call, q: Call, c: Call)
    ensures multiset([p, q])[c] == (if p == c then 1 else 0) + if q == c then 1 else 0
  {
    assert [p, q] == [p] + [q];
    CountAppend([p], q, c);
    assert multiset([p])[c] == if p == c then 1 else 0;
  }

  lemma CountOfConcat(v: seq<Call>, w: seq<Call>, c: Call)
    ensures multiset(v + w)[c] == multiset(v)[c] + multiset(w)[c]
  {
  }

  /** Occurrences of a call in a window of four. */
  lemma CountOfFour(p: Call, q: Call, r: Call, s: Call, c: Call)
    ensures multiset([p, q, r, s])[c]
            == (if p == c then 1 else 0) + (if q == c then 1 else 0) + (if r == c then 1 else 0) + if s == c then 1 else 0
  {
    var v, w := [p, q], [r, s];
    assert [p, q, r, s] == v + w;
    CountOfConcat(v, w, c);
    CountOfTwo(p, q, c);
    CountOfTwo(r, s, c);
  }

  lemma FourLoop(p: Call, q: Call, r: Call, s: Call)
    requires p == q ==> r != p && s != p
    requires p != q ==> r != p && r != q && s != p && s != q && r != s
    ensures !Loops([p, q, r, s], THRESHOLD)
  {
    forall c: Call ensures multiset([p, q, r, s])[c] < THRESHOLD {
      CountOfFour(p, q, r, s, c);
    }
  }

  /** Calls that differ from two given ones and, for different suffixes, from each other. */
  function Fresh(a: Call, b: Call, suffix: string): Call {
    Call(a.tool + b.tool + suffix, "")
  }

  lemma FreshDiffers(a: Call, b: Call, s1: string, s2: string)
    requires s1 != "" && s2 != "" && s1 != s2
    ensures Fresh(a, b, s1) != a && Fresh(a, b, s1) != b && Fresh(a, b, s1) != Fresh(a, b, s2)
  {
    var u := a.tool + b.tool;
    assert |u + s1| > |a.tool| && |u + s1| > |b.tool|;
    assert (u + s1)[|u|..] == s1 && (u + s2)[|u|..] == s2;
  }

  /** A window of four, then one more call: what recording leaves, and which next call closes a loop. */
  lemma AfterFour(history: History, agent: string, p: Call, q: Call, r: Call, s: Call, c: Call, d: Call)
    requires GetOr(history, agent, []) == [p, q, r, s] && !Loops([p, q, r, s], THRESHOLD)
    ensures ClosesLoop(history, agent, c) <==> multiset([p, q, r, s])[c] >= 2
    ensures !ClosesLoop(history, agent, c) ==>
              (ClosesLoop(HistoryUpdate(history, agent, c), agent, d) <==> multiset([q, r, s, c])[d] >= 2)
  {
    ClosesLoopIffTwoOfLastFour(history, agent, c);
    if !ClosesLoop(history, agent, c) {
      var next := HistoryUpdate(history, agent, c);
      assert GetOr(next, agent, []) == [p, q, r, s, c] == [p] + [q, r, s, c];
      assert LastN(GetOr(next, agent, []), 4) == [q, r, s, c];
      ClosesLoopIffTwoOfLastFour(next, agent, d);
    }
  }

  /**
   * The second call differs from the first: the batch reports it against two old copies, one of which has left the
   * window.
   */
  lemma BatchReportsTooMuch(agent: string, recs: seq<Recorded>) returns (history: History)
    requires |recs| >= 2 && recs[0].call != recs[1].call
    ensures LoopFree(history, agent)
    ensures FirstLoopAt(history, agent, recs, 1, true) && !FirstLoopAt(history, agent, recs, 1, false)
  {
    var a, b := recs[0].call, recs[1].call;
    var x, y := Fresh(a, b, "x"), Fresh(a, b, "xx");
    FreshDiffers(a, b, "x", "xx");
    FreshDiffers(a, b, "xx", "x");
    history := map[agent := [b, b, x, y]];
    FourLoop(b, b, x, y);
    CountOfFour(b, b, x, y, a);
    CountOfFour(b, b, x, y, b);
    CountOfFour(b, x, y, a, b);
    AfterFour(history, agent, b, b, x, y, a, b);
    AfterFour(history, agent, b, b, x, y, b, b);
    FirstTwo(history, agent, recs);
  }

  /**
   * The second call equals the first: recorded singly it is the third copy in the window, which the batch does not
   * see.
   */
  lemma BatchReportsTooLittle(agent: string, recs: seq<Recorded>) returns (history: History)
    requires |recs| >= 2 && recs[0].call == recs[1].call
    ensures LoopFree(history, agent)
    ensures FirstLoopAt(history, agent, recs, 1, false) && !FirstLoopAt(history, agent, recs, 1, true)
  {
    var c := recs[0].call;
    var x, y, z := Fresh(c, c, "x"), Fresh(c, c, "xx"), Fresh(c, c, "xxx");
    FreshDiffers(c, c, "x", "xx");
    FreshDiffers(c, c, "xx", "xxx");
    FreshDiffers(c, c, "xxx", "x");
    history := map[agent := [x, y, z, c]];
    FourLoop(x, y, z, c);
    CountOfFour(x, y, z, c, c);
    CountOfFour(y, z, c, c, c);
    AfterFour(history, agent, x, y, z, c, c, c);
    FirstTwo(history, agent, recs);
  }

  lemma FirstTwo(history: History, agent: string, recs: seq<Recorded>)
    requires |recs| >= 2
    ensures forall batched :: ClosesAt(history, agent, recs, 0, batched) <==> ClosesLoop(history, agent, recs[0].call)
    ensures ClosesAt(history, agent, recs, 1, true) <==> ClosesLoop(history, agent, recs[1].call)
    ensures ClosesAt(history, agent, recs, 1, false)
            <==> ClosesLoop(HistoryUpdate(history, agent, recs[0].call), agent, recs[1].call)
  {
    hide ClosesLoop, HistoryUpdate;
    assert recs[..0] == [] && recs[..1] == [recs[0]] && recs[..1][..0] == [];
    assert Folded(history, agent, recs[..1]) == HistoryUpdate(history, agent, recs[0].call);
  }

  /**
   * Batch and single recording report their first loop at the same call, for every loop-free history, exactly when
   * the batch has at most one call.
   */
  lemma SameFirstLoopIff(agent: string, recs: seq<Recorded>)
    ensures (forall history | LoopFree(history, agent) :: SameFirstLoop(history, agent, recs)) <==> |recs| <= 1
  {
    hide ClosesLoop, LoopFree;
    if |recs| <= 1 {
      forall history | LoopFree(history, agent) ensures SameFirstLoop(history, agent, recs) {
        assert |recs| > 0 ==> recs[..0] == [];
      }
    } else {
      var history: History;
      if recs[0].call == recs[1].call {
        history := BatchReportsTooLittle(agent, recs);
      } else {
        history := BatchReportsTooMuch(agent, recs);
      }
      assert !SameFirstLoop(history, agent, recs);
    }
  }
}
