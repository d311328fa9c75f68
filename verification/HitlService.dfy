/** The decision endpoint over many tasks: task rows and the registry of paused graphs, changed in place. */
module HitlService {
  import opened Support
  import opened Orchestrator
  import opened TaskRun
  import opened WriteSafety
  import opened TaskOutcome
  import Termination

  /** A registered graph: still running, or paused with what the checkpointer holds for it. */
  datatype Graph = RunningGraph | Checkpointed(node: Node, st: State)

  /** k graph steps in which the delivery clients answer as o says. */
  ghost function Ticked(cfg: Config, w: World, o: Oracle, k: nat): World {
    if k == 0 then w else Advance(cfg, Ticked(cfg, w, o, k - 1), o)
  }

  predicate Settled(w: World) {
    w.phase.Paused? || w.phase.Finished?
  }

  /** What an accepted approve leads to: the graph resumes and runs to its next pause or its end. */
  ghost predicate RunsOn(cfg: Config, w: World, o: Oracle, w': World) {
    Settled(w') && exists k :: w' == Ticked(cfg, w, o, k)
  }

  lemma ReachableFacts(cfg: Config, w: World)
    requires Reachable(cfg, w)
    ensures Consistent(cfg, w) && RowFits(w)
    ensures forall e :: Reachable(cfg, Handle(cfg, w, e))
  {
    var es :| w == After(cfg, es);
    AlwaysConsistent(cfg, es);
    AlwaysRowFits(cfg, es);
    ReachableIsClosed(cfg);
  }

  /** An open row means a paused graph, so an accepted decision never finds the registry empty. */
  lemma Accepts(cfg: Config, w: World, d: Decision)
    requires Reachable(cfg, w) && Respond(w.row) == Ok
    ensures w.phase.Paused?
    ensures var w' := DecideOn(w, d);
            && Reachable(cfg, w') && Respond(w'.row) != Ok
            && match d
               case Approve =>
                 && w'.phase == Resuming(w.phase.node) && w'.st == w.st
                 && w'.row == w.row.(hitlDecision := Some(Approve), status := RowApproved)
               case RejectTask =>
                 && w'.phase.Finished?
                 && w'.row == AddOutcome(FinishTask(w.row, Rejected, Some(RejectTask), ""), HitlRejected)
  {
    hide RunAgent, RunPlain, RowFits;
    ReachableFacts(cfg, w);
    assert Handle(cfg, w, Decide(d)) == DecideOn(w, d);
  }

  lemma {:induction false} TicksKeepActs(cfg: Config, w: World, o: Oracle, k: nat)
    ensures |Ticked(cfg, w, o, k).acts| >= |w.acts|
  {
    hide RunAgent, RunPlain, Next, Completion;
    if k > 0 {
      TicksKeepActs(cfg, w, o, k - 1);
    }
  }

  /** A task at rest after an accepted approve accepts no second decision, and its row is no longer 'approved'. */
  lemma RunsOnDecided(cfg: Config, w: World, o: Oracle, w': World)
    requires Reachable(cfg, w) && Respond(w.row) == Ok
    requires RunsOn(cfg, DecideOn(w, Approve), o, w') && Reachable(cfg, w')
    ensures Respond(w'.row) != Ok && !w'.row.status.RowApproved?
  {
    hide Ticked, RunAgent, StateFits;
    var k :| w' == Ticked(cfg, DecideOn(w, Approve), o, k);
    TicksKeepActs(cfg, DecideOn(w, Approve), o, k);
    ReachableFacts(cfg, w');
  }

  /** The registry entry of a task: its graph is registered when it starts to run and removed when it is over. */
  function GraphOf(w: World): Option<Graph> {
    match w.phase
    case At(_) => Some(RunningGraph)
    case Paused(n) => Some(Checkpointed(n, w.st))
    case Resuming(_) => Some(RunningGraph)
    case Finished => None
  }

  /** The row and the registry entry of a task between two requests; a resume ends within its own. */
  ghost predicate Fits(cfg: Config, w: World, row: Row, graph: Option<Graph>) {
    Reachable(cfg, w) && !w.phase.Resuming? && row == w.row && graph == GraphOf(w)
  }

  function Find<T>(m: map<string, T>, k: string): Option<T> {
    if k in m then Some(m[k]) else None
  }

  /** Every stored task is a reachable world, and the registry holds exactly the graphs that are not over. */
  ghost predicate Stored(cfg: Config, rows: map<string, Row>, graphs: map<string, Graph>,
                         worlds: map<string, World>)
  {
    && rows.Keys == worlds.Keys && graphs.Keys <= worlds.Keys
    && (forall t :: t in worlds ==> Fits(cfg, worlds[t], rows[t], Find(graphs, t)))
  }

  /** Storing one task's new row, graph and world keeps every other task's. */
  lemma StoreOne(cfg: Config, rows: map<string, Row>, graphs: map<string, Graph>, worlds: map<string, World>,
                 task: string, rows': map<string, Row>, graphs': map<string, Graph>, w: World)
    requires Stored(cfg, rows, graphs, worlds)
    requires task in rows' && rows' == rows[task := rows'[task]] && graphs' - {task} == graphs - {task}
    requires Fits(cfg, w, rows'[task], Find(graphs', task))
    ensures Stored(cfg, rows', graphs', worlds[task := w])
  {
    hide Fits;
    forall t | t in graphs' ensures t in worlds || t == task {
      if t != task {
        assert t in graphs' - {task};
      }
    }
    forall t | t in worlds && t != task ensures Find(graphs', t) == Find(graphs, t) {
      assert t in graphs' <==> t in graphs' - {task};
      assert t in graphs <==> t in graphs - {task};
      if t in graphs {
        assert (graphs - {task})[t] == (graphs' - {task})[t];
      }
    }
  }

  class DecisionService {
    const cfg: Config
    var rows: map<string, Row>
    var activeGraphs: map<string, Graph>
    ghost var worlds: map<string, World>

    ghost predicate Valid()
      reads this
    {
      Stored(cfg, rows, activeGraphs, worlds)
    }

    constructor (config: Config)
      ensures Valid() && cfg == config && rows == map[]
    {
      cfg := config;
      rows, activeGraphs, worlds := map[], map[], map[];
    }

    /** run_task up to the start of the graph: a fresh row and a registered graph. */
    method GraphStarted(task: string)
      requires Valid() && task !in rows
      modifies this
      ensures Valid()
      ensures rows == old(rows)[task := START_WORLD.row] && worlds == old(worlds)[task := START_WORLD]
      ensures activeGraphs == old(activeGraphs)[task := RunningGraph]
    {
      hide Reachable;
      ghost var rows0, graphs0, worlds0 := rows, activeGraphs, worlds;
      rows := rows[task := Row(RowRunning, None, "", [])];
      activeGraphs := activeGraphs[task := RunningGraph];
      worlds := worlds[task := START_WORLD];
      StartReaches(cfg);
      StoreOne(cfg, rows0, graphs0, worlds0, task, rows, activeGraphs, START_WORLD);
    }

    /** One node of a running graph that neither interrupts nor ends it: neither the row nor the registry moves. */
    ghost method GraphStepped(task: string, o: Oracle)
      requires Valid() && task in worlds && worlds[task].phase.At?
      requires !Interrupts(worlds[task].phase.node) && !worlds[task].phase.node.End?
      modifies this`worlds
      ensures Valid() && worlds == old(worlds)[task := Advance(cfg, old(worlds)[task], o)]
    {
      hide Reachable;
      var before := worlds[task];
      assert Fits(cfg, before, rows[task], Find(activeGraphs, task));
      TickReaches(cfg, before, o);
      GraphMoves(cfg, before, o);
      worlds := worlds[task := Advance(cfg, before, o)];
      StoreOne(cfg, rows, activeGraphs, old(worlds), task, rows, activeGraphs, worlds[task]);
    }

    /** A running graph that hits an interrupt: the node opens the row, and the graph stays registered as paused. */
    method GraphPaused(task: string, node: Node, st: State, ghost o: Oracle)
      requires Valid() && task in worlds && worlds[task].phase == At(node) && worlds[task].st == st && Interrupts(node)
      modifies this
      ensures Valid()
      ensures worlds == old(worlds)[task := Advance(cfg, old(worlds)[task], o)] && worlds[task].phase == Paused(node)
      ensures rows == old(rows)[task := worlds[task].row]
      ensures activeGraphs == old(activeGraphs)[task := Checkpointed(node, st)]
    {
      hide Reachable, BeforeInterrupt;
      ghost var rows0, graphs0, worlds0 := rows, activeGraphs, worlds;
      ghost var before := worlds[task];
      assert Fits(cfg, before, rows[task], Find(activeGraphs, task));
      TickReaches(cfg, before, o);
      ReachInterrupt(task, node);
      activeGraphs := activeGraphs[task := Checkpointed(node, st)];
      worlds := worlds[task := Advance(cfg, before, o)];
      StoreOne(cfg, rows0, graphs0, worlds0, task, rows, activeGraphs, worlds[task]);
    }

    /** A running graph that reaches its end without a human: unregistered, then the row is completed. */
    method GraphCompleted(task: string, st: State, ghost o: Oracle)
      requires Valid() && task in worlds && worlds[task].phase == At(End) && worlds[task].st == st
      modifies this
      ensures Valid()
      ensures worlds == old(worlds)[task := Advance(cfg, old(worlds)[task], o)] && worlds[task].phase.Finished?
      ensures rows == old(rows)[task := worlds[task].row] && activeGraphs == old(activeGraphs) - {task}
    {
      hide Reachable, Completion;
      ghost var rows0, graphs0, worlds0 := rows, activeGraphs, worlds;
      ghost var before := worlds[task];
      assert Fits(cfg, before, rows[task], Find(activeGraphs, task));
      TickReaches(cfg, before, o);
      activeGraphs := activeGraphs - {task};
      PostGraphCompletion(task, st);
      worlds := worlds[task := Advance(cfg, before, o)];
      StoreOne(cfg, rows0, graphs0, worlds0, task, rows, activeGraphs, worlds[task]);
    }

    /** POST /tasks/{id}/hitl/decision, handled as one atomic request. */
    method HitlDecision(task: string, d: Decision, o: Oracle) returns (r: Response)
      requires Valid()
      modifies this
      ensures Valid()
      ensures r == if task !in old(rows) then TaskNotFound else Respond(old(rows)[task])
      ensures r != Ok ==> rows == old(rows) && activeGraphs == old(activeGraphs) && worlds == old(worlds)
      ensures r == Ok ==>
                && worlds.Keys == old(worlds).Keys
                && match d
                   case RejectTask => worlds[task] == DecideOn(old(worlds)[task], RejectTask)
                   case Approve => RunsOn(cfg, DecideOn(old(worlds)[task], Approve), o, worlds[task])
      ensures r == Ok ==> Respond(rows[task]) != Ok
      ensures forall t :: t in old(worlds) && t != task ==> t in worlds && worlds[t] == old(worlds)[t]
    {
      if task !in rows {
        return TaskNotFound;
      }
      var row := rows[task];
      if row.hitlDecision.Some? {
        return DecisionAlreadyMade;
      }
      if row.status != RowAwaitingHitl {
        return NotAwaitingHitl;
      }
      match d {
        case Approve => ApproveTask(task, o);
        case RejectTask => RejectTaskOutright(task);
      }
      return Ok;
    }

    /** The approve branch: record the decision, resume the graph, repair the status if nothing moved it. */
    method ApproveTask(task: string, o: Oracle)
      requires Valid() && task in rows && Respond(rows[task]) == Ok
      modifies this
      ensures Valid() && task in worlds && worlds == old(worlds)[task := worlds[task]]
      ensures RunsOn(cfg, DecideOn(old(worlds)[task], Approve), o, worlds[task])
      ensures rows == old(rows)[task := rows[task]] && Respond(rows[task]) != Ok
    {
      hide Reachable, DecideOn, RunsOn, Respond;
      ghost var rows0, graphs0, worlds0 := rows, activeGraphs, worlds;
      ghost var before := worlds[task];
      assert Fits(cfg, before, rows[task], Find(activeGraphs, task));
      Accepts(cfg, before, Approve);
      RecordDecision(task, Approve);
      UpdateTaskStatus(task, RowApproved);
      var resumed := ResumeGraph(task, o, DecideOn(before, Approve));
      if resumed && rows[task].status == RowApproved {
        UpdateTaskStatus(task, RowRunning);
      }
      RunsOnDecided(cfg, before, o, worlds[task]);
      StoreOne(cfg, rows0, graphs0, worlds0, task, rows, activeGraphs, worlds[task]);
    }

    /** The reject branch: finish the row, record the outcome, drop the graph. */
    method RejectTaskOutright(task: string)
      requires Valid() && task in rows && Respond(rows[task]) == Ok
      modifies this
      ensures Valid() && worlds == old(worlds)[task := DecideOn(old(worlds)[task], RejectTask)]
      ensures rows == old(rows)[task := rows[task]] && Respond(rows[task]) != Ok
    {
      hide Reachable, DecideOn, Respond;
      ghost var rows0, graphs0, worlds0 := rows, activeGraphs, worlds;
      ghost var before := worlds[task];
      assert Fits(cfg, before, rows[task], Find(activeGraphs, task));
      Accepts(cfg, before, RejectTask);
      var _ := FinishTaskRow(task, Rejected, Some(RejectTask), "");
      var _ := CreateOutcome(task, HitlRejected);
      activeGraphs := activeGraphs - {task};
      worlds := worlds[task := DecideOn(before, RejectTask)];
      StoreOne(cfg, rows0, graphs0, worlds0, task, rows, activeGraphs, DecideOn(before, RejectTask));
    }

    // ---- Row updates ----

    method RecordDecision(task: string, d: Decision)
      requires task in rows
      modifies this`rows
      ensures rows == old(rows)[task := old(rows)[task].(hitlDecision := Some(d))]
    {
      rows := rows[task := rows[task].(hitlDecision := Some(d))];
    }

    /** Raises, and writes nothing, for an outcome outside the accepted list. */
    method CreateOutcome(task: string, outcome: Outcome) returns (raised: bool)
      requires task in rows
      modifies this`rows
      ensures raised <==> !ValidOutcome(outcome)
      ensures rows == if raised then old(rows) else old(rows)[task := AddOutcome(old(rows)[task], outcome)]
    {
      raised := !ValidOutcome(outcome);
      if !raised {
        rows := rows[task := AddOutcome(rows[task], outcome)];
      }
    }

    /** Raises, and writes nothing, for a status the row does not know. */
    method FinishTaskRow(task: string, status: Status, decision: Option<Decision>, prUrl: string) returns (raised: bool)
      requires task in rows
      modifies this`rows
      ensures raised <==> status.PreHitl?
      ensures rows == old(rows)[task := FinishTask(old(rows)[task], status, decision, prUrl)]
      ensures if raised then rows == old(rows) else rows[task].hitlDecision == decision && rows[task].prUrl == prUrl
    {
      raised := status.PreHitl?;
      rows := rows[task := FinishTask(rows[task], status, decision, prUrl)];
    }

    /** An interrupting node up to its interrupt. */
    method ReachInterrupt(task: string, node: Node)
      requires task in rows
      modifies this`rows
      ensures rows == old(rows)[task := BeforeInterrupt(node, old(rows)[task])]
    {
      if node.HaltRetryExhausted? {
        var _ := CreateOutcome(task, RetryBudgetExhausted);
      }
      UpdateTaskStatus(task, RowAwaitingHitl);
    }

    /** A resumed node: it runs again from its start, then takes the approve branch. */
    method TakeApproval(task: string, node: Node)
      requires task in rows
      modifies this`rows
      ensures rows == old(rows)[task := AfterApproval(node, old(rows)[task])]
    {
      ReachInterrupt(task, node);
      if node.HitlPrePr? {
        RecordDecision(task, Approve);
        UpdateTaskStatus(task, RowApproved);
      }
      UpdateTaskStatus(task, RowRunning);
    }

    /** After a resumed graph ended: the outcome first, which may raise and leave the row unfinished. */
    method PostGraphCompletion(task: string, st: State)
      requires task in rows
      modifies this`rows
      ensures rows == old(rows)[task := Completion(old(rows)[task], st)]
    {
      if !st.outcome.NoOutcome? {
        var raised := CreateOutcome(task, st.outcome);
        if raised {
          return;
        }
      }
      var _ := FinishTaskRow(task, st.status, None, st.prUrl);
    }

    method UpdateTaskStatus(task: string, status: RowStatus)
      requires task in rows
      modifies this`rows
      ensures rows == old(rows)[task := old(rows)[task].(status := status)]
    {
      rows := rows[task := rows[task].(status := status)];
    }

    /** Resumes the paused graph with approve and runs it to its next pause or its end; False without a graph. */
    method ResumeGraph(task: string, o: Oracle, ghost start: World) returns (resumed: bool)
      requires task in rows && task in worlds
      requires task in activeGraphs ==>
                 && activeGraphs[task].Checkpointed? && Reachable(cfg, start)
                 && start.phase == Resuming(activeGraphs[task].node)
                 && start.st == activeGraphs[task].st && start.row == rows[task]
      modifies this
      ensures resumed <==> task in old(activeGraphs)
      ensures !resumed ==> rows == old(rows) && activeGraphs == old(activeGraphs) && worlds == old(worlds)
      ensures resumed ==>
                && task in rows && rows == old(rows)[task := rows[task]]
                && activeGraphs - {task} == old(activeGraphs) - {task}
                && task in worlds && worlds == old(worlds)[task := worlds[task]]
                && RunsOn(cfg, start, o, worlds[task]) && Fits(cfg, worlds[task], rows[task], Find(activeGraphs, task))
    {
      hide RunAgent, RunPlain, Approved, AfterApproval, Completion, BeforeInterrupt, Reachable, Next, Ticked;
      if task !in activeGraphs {
        return false;
      }
      var graph := activeGraphs[task];
      TakeApproval(task, graph.node);
      var st := Approved(graph.node, graph.st);
      Resumed(cfg, start, o);
      ghost var w, k;
      var node;
      node, st, w, k := RunToPause(cfg, Next(cfg, graph.node, st), st, o, start);
      Rests(cfg, start, o, w, k);
      worlds := worlds[task := Advance(cfg, w, o)];
      if Interrupts(node) {
        ReachInterrupt(task, node);
        activeGraphs := activeGraphs[task := Checkpointed(node, st)];
      } else {
        PostGraphCompletion(task, st);
        activeGraphs := activeGraphs - {task};
      }
      return true;
    }
  }

  /** Runs plain nodes until the graph reaches an interrupt or its end. */
  method RunToPause(cfg: Config, first: Node, resumed: State, o: Oracle, ghost start: World)
    returns (node: Node, st: State, ghost w: World, ghost k: nat)
    requires AfterCheckpoint(first)
    requires var w := Advance(cfg, start, o); Reachable(cfg, w) && w.phase == At(first) && w.st == resumed
    ensures Interrupts(node) || node.End?
    ensures w == Ticked(cfg, start, o, k) && Reachable(cfg, w)
    ensures w.phase == At(node) && w.st == st && w.row == Advance(cfg, start, o).row
  {
    hide RunAgent, RunPlain, Next, Advance, Reachable, Ticked, Termination.Distance, AfterCheckpoint;
    node, st, w, k := first, resumed, Advance(cfg, start, o), 1;
    OneTick(cfg, start, o, 0);
    while !node.End? && !Interrupts(node)
      invariant Reachable(cfg, w) && w.phase == At(node) && w.st == st && w.row == Advance(cfg, start, o).row
      invariant w == Ticked(cfg, start, o, k) && AfterCheckpoint(node)
      decreases Termination.Distance(node, 0)
    {
      TickReaches(cfg, w, o);
      PlainTick(cfg, w, o);
      OneTick(cfg, start, o, k);
      w, k := Advance(cfg, w, o), k + 1;
      st := RunPlain(node, st, o);
      node := Next(cfg, node, st);
    }
  }

  lemma GraphMoves(cfg: Config, w: World, o: Oracle)
    requires w.phase.At? && !Interrupts(w.phase.node) && !w.phase.node.End?
    ensures Advance(cfg, w, o).phase.At? && Advance(cfg, w, o).row == w.row
  {
    hide RunAgent, RunPlain, Next;
  }

  lemma StartReaches(cfg: Config)
    ensures Reachable(cfg, START_WORLD)
  {
    assert After(cfg, []) == START_WORLD;
  }

  lemma OneTick(cfg: Config, w: World, o: Oracle, k: nat)
    ensures Ticked(cfg, w, o, k + 1) == Advance(cfg, Ticked(cfg, w, o, k), o)
    ensures Ticked(cfg, w, o, 0) == w
  {
    hide Advance;
  }

  lemma PlainTick(cfg: Config, w: World, o: Oracle)
    requires w.phase.At? && AfterCheckpoint(w.phase.node) && !Interrupts(w.phase.node) && !w.phase.node.End?
    ensures var w', st' := Advance(cfg, w, o), RunPlain(w.phase.node, w.st, o);
            var n' := Next(cfg, w.phase.node, st');
            && w'.phase == At(n') && w'.st == st' && w'.row == w.row && AfterCheckpoint(n')
            && 0 <= Termination.Distance(n', 0) < Termination.Distance(w.phase.node, 0)
  {
    hide RunAgent, RunPlain;
  }

  lemma TickReaches(cfg: Config, w: World, o: Oracle)
    requires Reachable(cfg, w)
    ensures Reachable(cfg, Advance(cfg, w, o))
  {
    ReachableFacts(cfg, w);
    assert Handle(cfg, w, Tick(o)) == Advance(cfg, w, o);
  }

  /** The step at an interrupt or at the end brings the task to rest. */
  lemma Rests(cfg: Config, start: World, o: Oracle, w: World, k: nat)
    requires w == Ticked(cfg, start, o, k) && Reachable(cfg, w)
    requires w.phase.At? && (Interrupts(w.phase.node) || w.phase.node.End?)
    ensures var w' := Advance(cfg, w, o); RunsOn(cfg, start, o, w') && Reachable(cfg, w')
  {
    TickReaches(cfg, w, o);
    OneTick(cfg, start, o, k);
    assert Settled(Advance(cfg, w, o)) by { hide RunAgent, RunPlain; }
  }

  /** The nodes a graph can pass through once a human approved. */
  predicate AfterCheckpoint(n: Node) {
    n.HitlPrePr? || n.CommitAndPush? || n.OpenPr? || n.HaltGithubDelivery? || n.End?
  }

  lemma Resumed(cfg: Config, w: World, o: Oracle)
    requires Reachable(cfg, w) && w.phase.Resuming?
    ensures Reachable(cfg, Advance(cfg, w, o))
    ensures AfterCheckpoint(Next(cfg, w.phase.node, Approved(w.phase.node, w.st)))
  {
    hide RunAgent;
    ReachableFacts(cfg, w);
    TickReaches(cfg, w, o);
  }
}
