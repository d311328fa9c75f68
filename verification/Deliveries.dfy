/** What the git and GitHub clients answered in a run, and what that makes of the task. */
module Deliveries {
  import opened Support
  import opened Orchestrator
  import opened TaskRun
  import opened WriteSafety
  import opened TaskOutcome
  import opened Answers
  import opened AnsweredRuns
  import Termination

  /** The commit client's answer in the run, read off the schedule. */
  ghost function PushAnswer(cfg: Config, es: seq<Event>): Option<CommitResult> {
    if es == [] then None
    else
      var e := es[|es| - 1];
      if e.Tick? && After(cfg, es[..|es| - 1]).phase == At(CommitAndPush) then Some(e.o.commit)
      else PushAnswer(cfg, es[..|es| - 1])
  }

  /** The pull request client's answer in the run. */
  ghost function PrAnswer(cfg: Config, es: seq<Event>): Option<PrResult> {
    if es == [] then None
    else
      var e := es[|es| - 1];
      if e.Tick? && After(cfg, es[..|es| - 1]).phase == At(OpenPr) then Some(e.o.pr)
      else PrAnswer(cfg, es[..|es| - 1])
  }

  /** A pull request was created for an edit, at a non-empty address. */
  predicate Opened(edit: Option<Edit>, pr: Option<PrResult>) {
    edit.Some? && pr.Some? && pr.value.PrCreated? && pr.value.url != ""
  }

  /** How far delivery got, by the clients' answers. */
  predicate Delivers(w: World, push: Option<CommitResult>, pr: Option<PrResult>) {
    && (push.Some? ==>
          w.phase.Finished? || w.phase == At(OpenPr) || w.phase == At(HaltGithubDelivery) || w.phase == At(End))
    && (pr.Some? ==> push == Some(Pushed) && (w.phase.Finished? || w.phase == At(End)))
    && (!w.phase.Finished? && w.phase.node.OpenPr? ==> w.phase.At? && push == Some(Pushed) && pr.None?)
    && (!w.phase.Finished? && w.phase.node.CommitAndPush? ==> w.phase.At?)
    && (CommitAndPushCalled in w.acts <==> push.Some? && push != Some(NoSandbox))
    && (PullRequestCalled in w.acts <==> pr.Some? && pr != Some(PrNoSandbox) && w.st.codeEdit.Some?)
    && (w.st.outcome.PrOpened? <==> Opened(w.st.codeEdit, pr))
    && w.st.prUrl == if Opened(w.st.codeEdit, pr) then pr.value.url else ""
  }

  lemma AgentDelivers(cfg: Config, w: World, o: Oracle, push: Option<CommitResult>, pr: Option<PrResult>)
    requires Delivers(w, push, pr) && Consistent(cfg, w) && w.phase.At? && IsAgent(w.phase.node)
    requires w.phase.node.RunPeerCoder? ==> cfg.topology.Hybrid?
    ensures Delivers(Advance(cfg, w, o), push, pr)
  {
    hide RunAgent, Honours;
    var n := w.phase.node;
    Termination.RunningAtAgent(cfg, w);
    TurnEnds(cfg, n, w.st, o);
    var st' := RunningAt(cfg, w, o);
    AgentNeverDelivers(cfg, n, w.st, o, st', RunAgent(cfg, n, w.st, o).1);
  }

  lemma AgentNeverDelivers(cfg: Config, n: Node, st: State, o: Oracle, st': State, ended: Ended)
    requires IsAgent(n) && Ends(cfg, n, st, o, st', ended)
    ensures !st'.outcome.PrOpened?
    ensures var n' := Next(cfg, n, st'); !n'.OpenPr? && !n'.CommitAndPush?
  {
  }

  lemma CommitDelivers(cfg: Config, w: World, o: Oracle, push: Option<CommitResult>, pr: Option<PrResult>)
    requires Delivers(w, push, pr) && w.phase == At(CommitAndPush)
    ensures Delivers(Advance(cfg, w, o), Some(o.commit), pr)
  {
    hide RunAgent;
  }

  lemma OpenDelivers(cfg: Config, w: World, o: Oracle, push: Option<CommitResult>, pr: Option<PrResult>)
    requires Delivers(w, push, pr) && w.phase == At(OpenPr)
    ensures Delivers(Advance(cfg, w, o), push, Some(o.pr))
  {
    hide RunAgent;
  }

  lemma OtherEventsDeliver(cfg: Config, w: World, e: Event, push: Option<CommitResult>, pr: Option<PrResult>)
    requires Delivers(w, push, pr) && Consistent(cfg, w)
    requires e.Tick? && w.phase.At? ==>
               !IsAgent(w.phase.node) && !w.phase.node.CommitAndPush? && !w.phase.node.OpenPr?
    ensures Delivers(Handle(cfg, w, e), push, pr)
  {
    hide RunAgent, Completion, BeforeInterrupt, AfterApproval, FinishTask;
  }

  lemma {:induction false} AlwaysDelivers(cfg: Config, es: seq<Event>)
    ensures Delivers(After(cfg, es), PushAnswer(cfg, es), PrAnswer(cfg, es))
  {
    hide Delivers, Advance, DecideOn, Consistent;
    if es == [] {
      NothingDelivered();
    } else {
      var init, e := es[..|es| - 1], es[|es| - 1];
      var w, push, pr := After(cfg, init), PushAnswer(cfg, init), PrAnswer(cfg, init);
      AlwaysDelivers(cfg, init);
      AlwaysConsistent(cfg, init);
      if e.Tick? && w.phase == At(CommitAndPush) {
        CommitDelivers(cfg, w, e.o, push, pr);
      } else if e.Tick? && w.phase == At(OpenPr) {
        OpenDelivers(cfg, w, e.o, push, pr);
      } else if e.Tick? && w.phase.At? && IsAgent(w.phase.node) {
        AtWork(cfg, init);
        AgentDelivers(cfg, w, e.o, push, pr);
      } else {
        OtherEventsDeliver(cfg, w, e, push, pr);
      }
    }
  }

  lemma NothingDelivered()
    ensures Delivers(START_WORLD, None, None)
  {
  }

  /** A push is asked for when there is a sandbox; a pull request only after the push succeeded, and for an edit. */
  lemma WritesFollowAnswers(cfg: Config, es: seq<Event>)
    ensures var w, push, pr := After(cfg, es), PushAnswer(cfg, es), PrAnswer(cfg, es);
            && (CommitAndPushCalled in w.acts <==> push == Some(CommitError) || push == Some(Pushed))
            && (PullRequestCalled in w.acts <==> pr.Some? && pr != Some(PrNoSandbox) && w.st.codeEdit.Some?)
            && (pr.Some? ==> push == Some(Pushed))
  {
    AlwaysDelivers(cfg, es);
  }

  /**
   * A finished task is completed exactly when a pull request was created for its edit at a non-empty address, and its
   * row then shows that address; with any other answer it shows none.
   */
  lemma CompletedIffPrCreated(cfg: Config, es: seq<Event>)
    requires After(cfg, es).phase.Finished?
    ensures var w, pr := After(cfg, es), PrAnswer(cfg, es);
            && (w.row.status.RowCompleted? <==> Opened(w.st.codeEdit, pr))
            && w.row.prUrl == if Opened(w.st.codeEdit, pr) then pr.value.url else ""
  {
    AlwaysDelivers(cfg, es);
    AlwaysConsistent(cfg, es);
    FinishedTaskRow(cfg, es);
    if After(cfg, es).st.outcome.PrOpened? {
      OnlyDeliveredRunsOpen(cfg, es);
    }
  }

  lemma OnlyDeliveredRunsOpen(cfg: Config, es: seq<Event>)
    requires After(cfg, es).st.outcome.PrOpened?
    ensures After(cfg, es).acts != [] && After(cfg, es).acts[0] == APPROVED
  {
    AlwaysDelivers(cfg, es);
    HistoriesFollowProtocol(cfg, es);
  }
}
