/** What can no longer be pushed once an answer came in. */
module HaltedRuns {
  import opened Support
  import opened Orchestrator
  import opened TaskRun
  import opened WriteSafety
  import opened Termination
  import opened Answers
  import opened AnsweredRuns
  import TaskOutcome

  /** Halts and escalations: every edge out of them leads to the end. */
  predicate Halts(n: Node) {
    || n.HaltCostBudget? || n.HaltTaskFailed? || n.HaltRetryExhausted? || n.HaltTestFailure?
    || n.HitlGuardrail? || n.HitlLoop? || n.HitlUncertainty?
  }

  /** The run is on its way to an end without a push. */
  predicate Halted(w: World) {
    && CommitAndPushCalled !in w.acts && PullRequestCalled !in w.acts
    && (!w.phase.Finished? ==> Halts(w.phase.node) || w.phase == At(End))
  }

  lemma HaltedStays(cfg: Config, w: World, e: Event)
    requires Halted(w)
    ensures Halted(Handle(cfg, w, e)) && Handle(cfg, w, e).st.testReport == w.st.testReport
  {
    hide RunAgent, Completion, BeforeInterrupt, AfterApproval, FinishTask;
  }

  /** Whatever happens later, a halted run asks for no push and no pull request. */
  lemma {:induction false} HaltedNeverPushes(cfg: Config, es: seq<Event>, more: seq<Event>)
    requires Halted(After(cfg, es))
    ensures Halted(After(cfg, es + more))
  {
    hide Halted, Handle;
    if more == [] {
      assert es + more == es;
    } else {
      var init, last := more[..|more| - 1], more[|more| - 1];
      HaltedNeverPushes(cfg, es, init);
      assert es + more == es + init + [last];
      Appended(cfg, es + init, last);
      HaltedStays(cfg, After(cfg, es + init), last);
    }
  }

  /** Every turn that is not completed halts the run, unless it counts one more failed validation. */
  lemma TurnHalts(cfg: Config, es: seq<Event>, o: Oracle)
    requires After(cfg, es).phase.At? && IsAgent(After(cfg, es).phase.node)
    requires var w := After(cfg, es); !RunAgent(cfg, w.phase.node, w.st, o).1.Billed?
    requires var w := After(cfg, es); !ReplyTo(w.phase.node, w.st, o).Malformed?
    ensures Halted(After(cfg, es + [Tick(o)]))
  {
    hide After, RunAgent, Next, ReplyTo, EdgeOf, CompletedCoders;
    var w := After(cfg, es);
    EveryTurnLeads(cfg, es, o);
    AtWork(cfg, es);
    Appended(cfg, es, Tick(o));
    assert Advance(cfg, w, o).acts == w.acts;
  }

  /** A QA answer with failing tests is never pushed, whatever the answers and the decisions that follow. */
  lemma FailingReportNeverPushed(cfg: Config, es: seq<Event>, o: Oracle, more: seq<Event>)
    requires After(cfg, es).phase == At(RunQa) && After(cfg, es).st.codeEdit.Some?
    requires o.report.Done? && o.report.value.failed > 0
    ensures var acts := After(cfg, es + [Tick(o)] + more).acts;
            CommitAndPushCalled !in acts && PullRequestCalled !in acts
  {
    hide After, RunAgent, Next, CompletedCoders;
    var w := After(cfg, es);
    if RunAgent(cfg, RunQa, w.st, o).1.Billed? {
      EveryTurnLeads(cfg, es, o);
      AtWork(cfg, es);
      Appended(cfg, es, Tick(o));
      assert Advance(cfg, w, o).acts == w.acts;
    } else {
      TurnHalts(cfg, es, o);
    }
    HaltedNeverPushes(cfg, es + [Tick(o)], more);
  }

  predicate TestsFailed(st: State) {
    st.testReport.Some? && st.testReport.value.failed > 0
  }

  /** A stored report with failures, and only that, leads over the test halt to its outcome. */
  predicate FailsWithTests(w: World) {
    && (TestsFailed(w.st) ==>
          || (w.phase == At(HaltTestFailure) && w.acts == [])
          || ((w.phase == At(End) || w.phase.Finished?) && w.acts == [] && w.st.outcome.PersistentTestFailureOutcome?))
    && (w.st.outcome.PersistentTestFailureOutcome? || w.phase == At(HaltTestFailure) ==> TestsFailed(w.st))
  }

  lemma TurnFails(cfg: Config, n: Node, st: State, o: Oracle, st': State, ended: Ended)
    requires IsAgent(n) && Honours(cfg, n, st, o, st', ended) && Ends(cfg, n, st, o, st', ended) && !TestsFailed(st)
    ensures !st'.outcome.PersistentTestFailureOutcome?
    ensures TestsFailed(st') <==> Next(cfg, n, st') == HaltTestFailure
  {
    hide Keeps, Retries;
  }

  lemma TurnKeepsFailing(cfg: Config, w: World, o: Oracle)
    requires FailsWithTests(w) && w.phase.At? && IsAgent(w.phase.node) && w.acts == []
    requires w.st.status.Running? && w.st.outcome.NoOutcome? && (w.phase.node.RunPeerCoder? ==> cfg.topology.Hybrid?)
    ensures FailsWithTests(Advance(cfg, w, o))
  {
    hide RunAgent, Honours, Ends, Next;
    var n := w.phase.node;
    TurnHonoursAnswer(cfg, n, w.st, o);
    TurnEnds(cfg, n, w.st, o);
    var (st', ended) := RunAgent(cfg, n, w.st, o);
    TurnFails(cfg, n, w.st, o, st', ended);
  }

  lemma OtherEventsKeepFailing(cfg: Config, w: World, e: Event)
    requires FailsWithTests(w) && Consistent(cfg, w) && (e.Tick? && w.phase.At? ==> !IsAgent(w.phase.node))
    ensures FailsWithTests(Handle(cfg, w, e))
  {
    hide RunAgent, Completion, BeforeInterrupt, AfterApproval, FinishTask;
  }

  lemma {:induction false} AlwaysFailsWithTests(cfg: Config, es: seq<Event>)
    ensures FailsWithTests(After(cfg, es))
  {
    hide FailsWithTests, Consistent, Advance, DecideOn;
    if es == [] {
      NothingFailed();
    } else {
      var init, e := es[..|es| - 1], es[|es| - 1];
      var w := After(cfg, init);
      AlwaysFailsWithTests(cfg, init);
      AlwaysConsistent(cfg, init);
      if e.Tick? && w.phase.At? && IsAgent(w.phase.node) {
        AtWork(cfg, init);
        TurnKeepsFailing(cfg, w, e.o);
      } else {
        OtherEventsKeepFailing(cfg, w, e);
      }
    }
  }

  lemma NothingFailed()
    ensures FailsWithTests(START_WORLD)
  {
  }

  /**
   * A finished run failed its tests exactly when it ends undecided with persistent_test_failure; that outcome is
   * refused, so its row is left running and without an outcome row.
   */
  lemma FailedTestsEnd(cfg: Config, es: seq<Event>)
    requires After(cfg, es).phase.Finished?
    ensures var w := After(cfg, es);
            && (TestsFailed(w.st) <==> w.st.outcome.PersistentTestFailureOutcome?)
            && (TestsFailed(w.st) ==> w.acts == [] && w.row.status.RowRunning? && w.row.outcomes == [])
  {
    AlwaysFailsWithTests(cfg, es);
    TaskOutcome.FinishedTaskRow(cfg, es);
  }

  /** A pushed run's latest QA answer, if it has one, passed, under an accept; its latest review sent nothing back. */
  lemma PushedAnswers(cfg: Config, es: seq<Event>)
    requires CommitAndPushCalled in After(cfg, es).acts
    ensures var l := LatestAnswers(cfg, es);
            && (l.report.Some? ==> l.report.value.failed == 0 && l.verdict == Some(Accept))
            && l.verdict != Some(RejectWithChanges)
  {
    StateHoldsLatestAnswers(cfg, es);
    NoPushAfterFailedTests(cfg, es);
  }

  /** A terminal rejection came in; no agent runs again. */
  predicate Refused(w: World) {
    || Halted(w)
    || (w.st.reviewResult == Some(Reject) && (w.phase.Finished? || (!InLoop(w.phase.node) && !IsAgent(w.phase.node))))
  }

  lemma RefusedStays(cfg: Config, w: World, e: Event)
    requires Refused(w)
    ensures Refused(Handle(cfg, w, e))
  {
    hide RunAgent, Completion, BeforeInterrupt, AfterApproval, FinishTask, Halted;
    if Halted(w) {
      HaltedStays(cfg, w, e);
    }
  }

  lemma {:induction false} RefusedForGood(cfg: Config, es: seq<Event>, more: seq<Event>)
    requires Refused(After(cfg, es))
    ensures Refused(After(cfg, es + more))
  {
    hide Refused, Handle;
    if more == [] {
      assert es + more == es;
    } else {
      var init, last := more[..|more| - 1], more[|more| - 1];
      RefusedForGood(cfg, es, init);
      assert es + more == es + init + [last];
      Appended(cfg, es + init, last);
      RefusedStays(cfg, After(cfg, es + init), last);
    }
  }

  /** After a Reviewer's terminal rejection of an edit no pull request is ever asked for. */
  lemma RejectionNeverGetsPr(cfg: Config, es: seq<Event>, o: Oracle, more: seq<Event>)
    requires After(cfg, es).phase == At(RunReviewer) && After(cfg, es).st.codeEdit.Some?
    requires o.review.Done? && o.review.value.Reject?
    ensures PullRequestCalled !in After(cfg, es + [Tick(o)] + more).acts
  {
    hide After, RunAgent, Next, CompletedCoders, Halted;
    var w := After(cfg, es);
    if RunAgent(cfg, RunReviewer, w.st, o).1.Billed? {
      EveryTurnLeads(cfg, es, o);
      TurnHonoursAnswer(cfg, RunReviewer, w.st, o);
      Appended(cfg, es, Tick(o));
      assert Advance(cfg, w, o).st == RunAgent(cfg, RunReviewer, w.st, o).0;
    } else {
      TurnHalts(cfg, es, o);
    }
    RefusedForGood(cfg, es + [Tick(o)], more);
    RefusedGetsNoPr(cfg, es + [Tick(o)] + more);
  }

  lemma RefusedGetsNoPr(cfg: Config, es: seq<Event>)
    requires Refused(After(cfg, es))
    ensures PullRequestCalled !in After(cfg, es).acts
  {
    if PullRequestCalled in After(cfg, es).acts {
      RejectedChangeGetsNoPr(cfg, es);
    }
  }
}
