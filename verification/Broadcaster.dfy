/** Trace events broadcast to bounded subscriber queues. */
module Broadcaster {
  const CAPACITY: nat := 1000

  /** One call on the broadcaster, or one message taken from the queue of subscription id. */
  datatype Op =
    | Subscribe(task: string)
    | Unsubscribe(task: string, id: nat)
    | Publish(task: string, message: string)
    | Consume(id: nat)

  /** A subscription: what waits in its queue, what was taken, and whether the broadcaster still feeds it. */
  datatype Subscription = Subscription(task: string, items: seq<string>, consumed: seq<string>, live: bool)

  /** The effect of one operation on subscription id; a message for a full queue is dropped and ends it. */
  function Affect(s: Subscription, id: nat, op: Op): Subscription {
    match op
    case Subscribe(_) => s
    case Unsubscribe(task, i) => if i == id && task == s.task then s.(live := false) else s
    case Publish(task, message) =>
      if task != s.task || !s.live then s
      else if |s.items| < CAPACITY then s.(items := s.items + [message])
      else s.(live := false)
    case Consume(i) =>
      if i == id && s.items != [] then s.(items := s.items[1..], consumed := s.consumed + [s.items[0]]) else s
  }

  function Apply(subs: seq<Subscription>, op: Op): seq<Subscription> {
    var affected := seq(|subs|, i requires 0 <= i < |subs| => Affect(subs[i], i, op));
    if op.Subscribe? then affected + [Subscription(op.task, [], [], true)] else affected
  }

  function Subscribes(ops: seq<Op>): nat {
    if ops == [] then 0 else Subscribes(ops[..|ops| - 1]) + if ops[|ops| - 1].Subscribe? then 1 else 0
  }

  /** The subscriptions after a history of operations, in any interleaving. */
  function Run(ops: seq<Op>): (subs: seq<Subscription>)
    ensures |subs| == Subscribes(ops)
  {
    if ops == [] then [] else Apply(Run(ops[..|ops| - 1]), ops[|ops| - 1])
  }

  lemma Published(subs: seq<Subscription>, task: string, message: string)
    ensures var subs' := Apply(subs, Publish(task, message));
            && |subs'| == |subs|
            && forall i :: 0 <= i < |subs| ==>
                 var s, fits := subs[i], |subs[i].items| < CAPACITY;
                 subs'[i] == if s.task == task && s.live
                             then (if fits then s.(items := s.items + [message]) else s.(live := false)) else s
  {
  }

  // ---- What every subscriber sees, over all histories ----

  /** The operation that created subscription id. */
  function SubscribedAt(ops: seq<Op>, id: nat): (at: nat)
    requires id < Subscribes(ops)
    ensures at < |ops| && ops[at].Subscribe?
  {
    var init := ops[..|ops| - 1];
    if id == Subscribes(init) then |ops| - 1 else SubscribedAt(init, id)
  }

  /** The messages published for a task, in order. */
  function Messages(ops: seq<Op>, task: string): seq<string> {
    if ops == [] then []
    else
      var last := ops[|ops| - 1];
      Messages(ops[..|ops| - 1], task) + if last.Publish? && last.task == task then [last.message] else []
  }

  /** How long subscription id was fed: the longest history in which it is still live. */
  function FedUntil(ops: seq<Op>, id: nat): (n: nat)
    requires id < |Run(ops)|
    ensures n <= |ops|
  {
    if Run(ops)[id].live then |ops|
    else if id < |Run(ops[..|ops| - 1])| then FedUntil(ops[..|ops| - 1], id)
    else 0
  }

  function Received(s: Subscription): seq<string> {
    s.consumed + s.items
  }

  lemma MessagesExtend(ops: seq<Op>, op: Op, task: string)
    ensures Messages(ops + [op], task)
            == Messages(ops, task) + if op.Publish? && op.task == task then [op.message] else []
  {
    assert (ops + [op])[..|ops|] == ops;
  }

  /** While it lives, a subscription gains exactly the messages for its task; removed, it gains nothing. */
  lemma AffectReceived(s: Subscription, id: nat, op: Op)
    requires |s.items| <= CAPACITY
    ensures var s' := Affect(s, id, op);
            && s'.task == s.task && |s'.items| <= CAPACITY && (s'.live ==> s.live)
            && Received(s') == Received(s)
                 + if s'.live && op.Publish? && op.task == s.task then [op.message] else []
  {
    if op.Consume? && op.id == id && s.items != [] {
      assert s.items == [s.items[0]] + s.items[1..];
    }
  }

  predicate Contiguous(ops: seq<Op>, s: Subscription, at: nat, end: nat) {
    && at < end <= |ops| && ops[at] == Subscribe(s.task)
    && Received(s) == Messages(ops[at + 1..end], s.task)
    && (s.live <==> end == |ops|)
    && |s.items| <= 1000
  }

  lemma OneMoreOp(ops: seq<Op>, op: Op, id: nat, s: Subscription, at: nat, end: nat)
    requires Contiguous(ops, s, at, end)
    ensures var s' := Affect(s, id, op);
            Contiguous(ops + [op], s', at, if s'.live then |ops| + 1 else end)
  {
    hide Affect, Messages, Received;
    AffectReceived(s, id, op);
    var window := ops[at + 1..end];
    MessagesExtend(window, op, s.task);
    assert (ops + [op])[at + 1..end] == window;
    if end == |ops| {
      assert (ops + [op])[at + 1..|ops| + 1] == window + [op];
    }
    assert window + [] == window && Received(s) + [] == Received(s);
  }

  /**
   * What a subscriber consumed followed by what still waits is exactly the messages published for its task
   * from its subscription until it was removed, without gaps; the queue never exceeds its capacity.
   */
  lemma {:induction false} ReceivedIsContiguous(ops: seq<Op>, id: nat)
    requires id < |Run(ops)|
    ensures Contiguous(ops, Run(ops)[id], SubscribedAt(ops, id), FedUntil(ops, id))
  {
    var init, last := ops[..|ops| - 1], ops[|ops| - 1];
    if id < |Run(init)| {
      ReceivedIsContiguous(init, id);
      hide Messages, Received, SubscribedAt, FedUntil, Run, Affect;
      Unfold(ops, id);
      OneMoreOp(init, last, id, Run(init)[id], SubscribedAt(init, id), FedUntil(init, id));
      assert ops == init + [last];
    } else {
      NewSubscription(ops, id);
    }
  }

  lemma Unfold(ops: seq<Op>, id: nat)
    requires id < |Run(ops)| && ops != [] && id < |Run(ops[..|ops| - 1])|
    ensures var init := ops[..|ops| - 1];
            && Run(ops)[id] == Affect(Run(init)[id], id, ops[|ops| - 1])
            && SubscribedAt(ops, id) == SubscribedAt(init, id)
            && FedUntil(ops, id) == if Run(ops)[id].live then |ops| else FedUntil(init, id)
  {
    hide Affect;
  }

  lemma NewSubscription(ops: seq<Op>, id: nat)
    requires id < |Run(ops)| && id >= |Run(ops[..|ops| - 1])|
    ensures var s, at, end := Run(ops)[id], SubscribedAt(ops, id), FedUntil(ops, id);
            && ops[at] == Subscribe(s.task) && at == |ops| - 1 && end == |ops| && s.live
            && Received(s) == [] == Messages(ops[at + 1..end], s.task) && |s.items| <= CAPACITY
  {
    assert ops[|ops|..|ops|] == [];
  }

  /** A subscription ends only by its own unsubscribe or by a message for its task that finds the queue full. */
  lemma {:induction false} WhatEndsASubscription(ops: seq<Op>, id: nat)
    requires id < |Run(ops)| && !Run(ops)[id].live
    ensures var end := FedUntil(ops, id);
            && end < |ops| && id < |Run(ops[..end])|
            && var s := Run(ops[..end])[id];
               || ops[end] == Unsubscribe(s.task, id)
               || (ops[end].Publish? && ops[end].task == s.task && |s.items| == 1000)
  {
    var init := ops[..|ops| - 1];
    if id < |Run(init)| {
      ReceivedIsContiguous(init, id);
      if Run(init)[id].live {
        assert FedUntil(ops, id) == |init|;
      } else {
        WhatEndsASubscription(init, id);
        assert ops[..FedUntil(init, id)] == init[..FedUntil(init, id)];
      }
    }
  }

  /** And those two always end it. */
  lemma SurvivesIff(ops: seq<Op>, op: Op, id: nat)
    requires id < |Run(ops)| && Run(ops)[id].live
    ensures id < |Run(ops + [op])|
    ensures var s := Run(ops)[id];
            Run(ops + [op])[id].live
            <==> !(op == Unsubscribe(s.task, id) || (op.Publish? && op.task == s.task && |s.items| == 1000))
  {
    assert (ops + [op])[..|ops|] == ops;
    ReceivedIsContiguous(ops, id);
  }

  /** Only the subscriber itself takes messages, the oldest first, and as long as one waits. */
  lemma ConsumeTakesOldest(ops: seq<Op>, op: Op, id: nat)
    requires id < |Run(ops)|
    ensures id < |Run(ops + [op])|
    ensures var s, s' := Run(ops)[id], Run(ops + [op])[id];
            if op == Consume(id) && s.items != []
            then s'.consumed == s.consumed + [s.items[0]] && s.items == [s.items[0]] + s'.items && s'.live == s.live
            else s'.consumed == s.consumed
  {
    assert (ops + [op])[..|ops|] == ops;
    var s := Run(ops)[id];
    assert s.items != [] ==> s.items == [s.items[0]] + s.items[1..];
  }

  /** After eviction or unsubscribe nothing more arrives, whatever happens later. */
  lemma {:induction false} NothingAfterRemoval(ops: seq<Op>, more: seq<Op>, id: nat)
    requires id < |Run(ops)| && !Run(ops)[id].live
    ensures id < |Run(ops + more)| && !Run(ops + more)[id].live
    ensures Received(Run(ops + more)[id]) == Received(Run(ops)[id])
  {
    hide Affect, Received;
    if more == [] {
      assert ops + more == ops;
    } else {
      var init, last := more[..|more| - 1], more[|more| - 1];
      NothingAfterRemoval(ops, init, id);
      assert (ops + more)[..|ops + more| - 1] == ops + init && (ops + more)[|ops + more| - 1] == last;
      DeadStaysDead(Run(ops + init)[id], id, last);
    }
  }

  lemma DeadStaysDead(s: Subscription, id: nat, op: Op)
    requires !s.live
    ensures !Affect(s, id, op).live && Received(Affect(s, id, op)) == Received(s)
  {
    assert s.items != [] ==> s.items == [s.items[0]] + s.items[1..];
  }

  /** A publish for another task can be taken out of any history without changing what a subscriber has seen. */
  lemma {:induction false} OtherTasksAreInvisible(before: seq<Op>, task: string, message: string, later: seq<Op>)
    ensures |Run(before + [Publish(task, message)] + later)| == |Run(before + later)|
    ensures forall id :: 0 <= id < |Run(before + later)| ==>
              var s, s' := Run(before + later)[id], Run(before + [Publish(task, message)] + later)[id];
              s'.task == s.task && (s.task != task ==> s' == s)
  {
    var with := before + [Publish(task, message)] + later;
    if later == [] {
      assert with[..|with| - 1] == before && before + later == before;
    } else {
      var init := later[..|later| - 1];
      OtherTasksAreInvisible(before, task, message, init);
      assert with[..|with| - 1] == before + [Publish(task, message)] + init;
      assert (before + later)[..|before + later| - 1] == before + init;
    }
  }

  // ---- The broadcaster ----

  class Queue {
    var items: seq<string>
    ghost var consumed: seq<string>
    ghost const id: nat

    constructor (ghost number: nat)
      ensures items == [] && consumed == [] && id == number
    {
      items, consumed, id := [], [], number;
    }

    method PutNowait(message: string) returns (full: bool)
      modifies this`items
      ensures full <==> |old(items)| >= CAPACITY
      ensures items == if full then old(items) else old(items) + [message]
    {
      full := |items| >= CAPACITY;
      if !full {
        items := items + [message];
      }
    }
  }

  /** Offers the message to each queue once, in any order; reports the queues that were full. */
  method Deliver(targets: set<Queue>, message: string) returns (dead: set<Queue>)
    modifies targets
    ensures dead <= targets
    ensures forall q :: q in targets ==>
              && (q in dead <==> |old(q.items)| >= CAPACITY)
              && q.items == (if q in dead then old(q.items) else old(q.items) + [message])
              && q.consumed == old(q.consumed)
  {
    var remaining := targets;
    dead := {};
    while remaining != {}
      invariant remaining <= targets && dead <= targets - remaining
      invariant forall q :: q in targets ==> q.consumed == old(q.consumed)
      invariant forall q :: q in remaining ==> q.items == old(q.items)
      invariant forall q :: q in targets - remaining ==>
                  && (q in dead <==> |old(q.items)| >= CAPACITY)
                  && q.items == (if q in dead then old(q.items) else old(q.items) + [message])
      decreases |remaining|
    {
      var queue :| queue in remaining;
      remaining := remaining - {queue};
      var full := queue.PutNowait(message);
      if full {
        dead := dead + {queue};
      }
    }
  }

  /** Every queue ever handed out has its subscription, and the map holds exactly the live ones, by task. */
  ghost predicate Linked(subscribers: map<string, set<Queue>>, queues: seq<Queue>, subs: seq<Subscription>) {
    && |queues| == |subs|
    && (forall i :: 0 <= i < |queues| ==>
          queues[i].id == i
          && (subs[i].live <==> subs[i].task in subscribers && queues[i] in subscribers[subs[i].task]))
    && (forall task, q :: task in subscribers && q in subscribers[task] ==>
          q.id < |queues| && queues[q.id] == q && subs[q.id].task == task)
  }

  ghost predicate Mirrors(queues: seq<Queue>, subs: seq<Subscription>)
    requires |queues| == |subs|
    reads queues
  {
    forall i :: 0 <= i < |queues| ==> queues[i].items == subs[i].items && queues[i].consumed == subs[i].consumed
  }

  lemma PublishLinks(subscribers: map<string, set<Queue>>, queues: seq<Queue>, subs: seq<Subscription>,
                     task: string, message: string, dead: set<Queue>)
    requires Linked(subscribers, queues, subs) && task in subscribers && dead <= subscribers[task]
    requires forall i :: 0 <= i < |queues| && queues[i] in subscribers[task] ==>
                           (queues[i] in dead <==> |subs[i].items| >= CAPACITY)
    ensures Linked(subscribers[task := subscribers[task] - dead], queues, Apply(subs, Publish(task, message)))
    ensures dead == {} ==> Linked(subscribers, queues, Apply(subs, Publish(task, message)))
    ensures forall i :: 0 <= i < |queues| ==>
              var s, s' := subs[i], Apply(subs, Publish(task, message))[i];
              && s'.consumed == s.consumed
              && s'.items == if queues[i] in subscribers[task] && queues[i] !in dead then s.items + [message] else s.items
  {
    hide Apply;
    Published(subs, task, message);
  }

  lemma Subscribed(subs: seq<Subscription>, task: string)
    ensures Apply(subs, Subscribe(task)) == subs + [Subscription(task, [], [], true)]
  {
  }

  lemma SubscribeLinks(subscribers: map<string, set<Queue>>, queues: seq<Queue>, subs: seq<Subscription>,
                       task: string, queue: Queue)
    requires Linked(subscribers, queues, subs) && queue.id == |queues|
    ensures var others := if task in subscribers then subscribers[task] else {};
            Linked(subscribers[task := others + {queue}], queues + [queue], Apply(subs, Subscribe(task)))
  {
  }

  lemma UnsubscribeLinks(subscribers: map<string, set<Queue>>, queues: seq<Queue>, subs: seq<Subscription>,
                         task: string, queue: Queue)
    requires Linked(subscribers, queues, subs) && queue in queues
    ensures var subs' := Apply(subs, Unsubscribe(task, queue.id));
            if task !in subscribers then Linked(subscribers, queues, subs')
            else if subscribers[task] - {queue} == {} then Linked(subscribers[task := {}] - {task}, queues, subs')
            else Linked(subscribers[task := subscribers[task] - {queue}], queues, subs')
  {
    var op := Unsubscribe(task, queue.id);
    forall i | 0 <= i < |queues|
      ensures (queues[i] == queue <==> i == queue.id) && Apply(subs, op)[i] == Affect(subs[i], i, op)
    {
    }
    assert task in subscribers ==>
        forall i :: 0 <= i < |queues| && i != queue.id && queues[i] in subscribers[task] ==>
                      queues[i] in subscribers[task] - {queue};
  }

  lemma NoTargets(subscribers: map<string, set<Queue>>, queues: seq<Queue>, subs: seq<Subscription>,
                  task: string, message: string)
    requires Linked(subscribers, queues, subs) && (task !in subscribers || subscribers[task] == {})
    ensures Apply(subs, Publish(task, message)) == subs
  {
  }

  /** The queues a publish reaches are those of the task's live subscriptions. */
  lemma Targets(subscribers: map<string, set<Queue>>, queues: seq<Queue>, subs: seq<Subscription>, task: string)
    requires Linked(subscribers, queues, subs) && task in subscribers
    ensures forall q :: q in subscribers[task] ==> q in queues
    ensures forall i :: 0 <= i < |queues| ==> (queues[i] in subscribers[task] <==> subs[i].task == task && subs[i].live)
  {
    assert forall q :: q in subscribers[task] ==> queues[q.id] == q;
  }

  class TraceBroadcaster {
    var subscribers: map<string, set<Queue>>
    ghost var queues: seq<Queue>
    ghost var subs: seq<Subscription>

    ghost predicate Valid()
      reads this, queues
    {
      Linked(subscribers, queues, subs) && Mirrors(queues, subs)
    }

    constructor ()
      ensures Valid() && subs == []
    {
      subscribers, queues, subs := map[], [], [];
    }

    method AddSubscriber(task: string) returns (queue: Queue)
      requires Valid()
      modifies this
      ensures Valid() && fresh(queue) && subs == Apply(old(subs), Subscribe(task)) && queues == old(queues) + [queue]
    {
      assert |queues| == |subs|;
      hide Apply, Linked;
      queue := new Queue(|queues|);
      Subscribed(subs, task);
      SubscribeLinks(subscribers, queues, subs, task, queue);
      ghost var linked := subscribers[task := (if task in subscribers then subscribers[task] else {}) + {queue}];
      if task !in subscribers {
        subscribers := subscribers[task := {}];
      }
      subscribers := subscribers[task := subscribers[task] + {queue}];
      assert subscribers == linked;
      queues := queues + [queue];
      subs := Apply(subs, Subscribe(task));
    }

    method RemoveSubscriber(task: string, queue: Queue)
      requires Valid() && queue in queues
      modifies this
      ensures Valid() && subs == Apply(old(subs), Unsubscribe(task, queue.id)) && queues == old(queues)
    {
      UnsubscribeLinks(subscribers, queues, subs, task, queue);
      if task in subscribers {
        subscribers := subscribers[task := subscribers[task] - {queue}];
        if subscribers[task] == {} {
          subscribers := subscribers - {task};
        }
      }
      subs := Apply(subs, Unsubscribe(task, queue.id));
    }

    /** Puts the message into every subscriber's queue, then drops the subscribers whose queue was full. */
    method PublishEvent(task: string, message: string)
      requires Valid()
      modifies this, queues
      ensures Valid() && subs == Apply(old(subs), Publish(task, message)) && queues == old(queues)
    {
      assert |queues| == |subs|;
      hide Apply, Linked;
      if task !in subscribers || subscribers[task] == {} {
        NoTargets(subscribers, queues, subs, task, message);
        return;
      }
      var targets := subscribers[task];
      Targets(subscribers, queues, subs, task);
      var dead := Deliver(targets, message);
      PublishLinks(subscribers, queues, subs, task, message, dead);
      subs := Apply(subs, Publish(task, message));
      if dead != {} {
        subscribers := subscribers[task := subscribers[task] - dead];
      }
    }

    /** The subscriber takes the next message, if there is one. */
    method Get(queue: Queue) returns (message: string)
      requires Valid() && queue in queues && queue.items != []
      modifies this`subs, queue
      ensures Valid() && subs == Apply(old(subs), Consume(queue.id)) && message == old(queue.items)[0]
    {
      message := queue.items[0];
      queue.items := queue.items[1..];
      queue.consumed := queue.consumed + [message];
      subs := Apply(subs, Consume(queue.id));
    }
  }
}
