/** Building a forest of spans from a flat list of trace events. */
module SpanTree {
  import opened Support

  /** A span and the id of its parent; a missing parent id is the empty string. */
  datatype TraceEvent = TraceEvent(spanId: string, parentId: string)

  function Ids(events: seq<TraceEvent>): set<string> {
    set i | 0 <= i < |events| :: events[i].spanId
  }

  predicate IsRoot(e: TraceEvent, ids: set<string>) {
    e.parentId == "" || e.parentId !in ids
  }

  /** Span ids of the events without a parent among ids, in input order. */
  function Roots(events: seq<TraceEvent>, ids: set<string>): seq<string> {
    if events == [] then []
    else
      var last := events[|events| - 1];
      Roots(events[..|events| - 1], ids) + if IsRoot(last, ids) then [last.spanId] else []
  }

  /** Span ids of the events below parent, in input order. */
  function Kids(events: seq<TraceEvent>, ids: set<string>, parent: string): seq<string> {
    if events == [] then []
    else
      var last := events[|events| - 1];
      Kids(events[..|events| - 1], ids, parent)
      + if !IsRoot(last, ids) && last.parentId == parent then [last.spanId] else []
  }

  lemma {:induction false} ListsHoldIds(events: seq<TraceEvent>, ids: set<string>, parent: string)
    ensures forall i :: 0 <= i < |Roots(events, ids)| ==> Roots(events, ids)[i] in Ids(events)
    ensures forall i :: 0 <= i < |Kids(events, ids, parent)| ==> Kids(events, ids, parent)[i] in Ids(events)
  {
    if events != [] {
      var init := events[..|events| - 1];
      ListsHoldIds(init, ids, parent);
      assert Ids(init) <= Ids(events) && events[|events| - 1].spanId in Ids(events);
    }
  }

  class SpanNode {
    const event: TraceEvent
    var children: seq<SpanNode>

    constructor (e: TraceEvent)
      ensures event == e && children == []
    {
      event, children := e, [];
    }
  }

  /** The last event with a given span id. */
  function LastWith(events: seq<TraceEvent>, k: string): TraceEvent
    requires k in Ids(events)
  {
    var last := events[|events| - 1];
    if last.spanId == k then last
    else
      LastWith(events[..|events| - 1], k)
  }

  predicate Covers(nodes: map<string, SpanNode>, ids: seq<string>) {
    forall i :: 0 <= i < |ids| ==> ids[i] in nodes
  }

  /** The nodes of a list of span ids. */
  ghost function NodesOf(nodes: map<string, SpanNode>, ids: seq<string>): (r: seq<SpanNode>)
    requires Covers(nodes, ids)
    ensures |r| == |ids| && forall i :: 0 <= i < |ids| ==> r[i] == nodes[ids[i]]
  {
    seq(|ids|, i requires 0 <= i < |ids| => nodes[ids[i]])
  }

  lemma NodesOfExtend(nodes: map<string, SpanNode>, ids: seq<string>, k: string)
    requires Covers(nodes, ids) && k in nodes
    ensures Covers(nodes, ids + [k]) && NodesOf(nodes, ids + [k]) == NodesOf(nodes, ids) + [nodes[k]]
  {
  }

  /** Every span id has one node, holding the last event with that id. */
  ghost predicate Nodes(nodes: map<string, SpanNode>, events: seq<TraceEvent>) {
    && nodes.Keys == Ids(events)
    && forall k :: k in nodes ==> nodes[k].event == LastWith(events, k)
  }

  lemma {:induction false} LastWithIsLast(events: seq<TraceEvent>, k: string)
    requires k in Ids(events)
    ensures LastWith(events, k).spanId == k
    ensures exists i :: 0 <= i < |events| && events[i] == LastWith(events, k)
                        && forall j :: i < j < |events| ==> events[j].spanId != k
  {
    var init := events[..|events| - 1];
    if events[|events| - 1].spanId != k {
      LastWithIsLast(init, k);
      var i :| 0 <= i < |init| && init[i] == LastWith(init, k) && forall j :: i < j < |init| ==> init[j].spanId != k;
      assert events[i] == init[i];
      forall j | i < j < |events| ensures events[j].spanId != k {
        assert j < |init| ==> events[j] == init[j];
      }
    }
  }

  ghost function ChildrenOf(nodes: map<string, SpanNode>): (r: map<string, seq<SpanNode>>)
    reads set k | k in nodes :: nodes[k]
    ensures r.Keys == nodes.Keys && forall k :: k in nodes ==> r[k] == nodes[k].children
  {
    map k | k in nodes :: nodes[k].children
  }

  /** The forest built so far: roots and children are the nodes of the lists for the events seen. */
  ghost predicate Attached(nodes: map<string, SpanNode>, roots: seq<SpanNode>, children: map<string, seq<SpanNode>>,
                           events: seq<TraceEvent>, ids: set<string>)
  {
    && children.Keys == nodes.Keys
    && Covers(nodes, Roots(events, ids)) && roots == NodesOf(nodes, Roots(events, ids))
    && forall k :: k in nodes ==>
         Covers(nodes, Kids(events, ids, k)) && children[k] == NodesOf(nodes, Kids(events, ids, k))
  }

  predicate HasParent(nodes: map<string, SpanNode>, e: TraceEvent) {
    e.parentId != "" && e.parentId in nodes
  }

  /** First every event gets its node, then every event's node is pushed below its parent's or onto the roots. */
  method BuildSpanTree(events: seq<TraceEvent>) returns (roots: seq<SpanNode>, nodes: map<string, SpanNode>)
    ensures Nodes(nodes, events) && Attached(nodes, roots, ChildrenOf(nodes), events, Ids(events))
    ensures forall k :: k in nodes ==> fresh(nodes[k])
  {
    hide Attached, LastWith;
    nodes := CreateNodes(events);
    ghost var ids := Ids(events);
    roots := [];
    NodesKnowTheirIds(nodes, events);
    NothingAttached(nodes, ids, ChildrenOf(nodes));
    for i := 0 to |events|
      invariant forall k :: k in nodes ==> fresh(nodes[k])
      invariant Attached(nodes, roots, ChildrenOf(nodes), events[..i], ids)
    {
      assert events[i].spanId in ids;
      AttachStep(nodes, roots, ChildrenOf(nodes), events, i, ids);
      roots := PushNode(nodes, roots, events[i]);
    }
    assert events[..|events|] == events;
  }

  /** One event's node goes below its parent's node, or onto the roots. */
  method PushNode(nodes: map<string, SpanNode>, roots: seq<SpanNode>, e: TraceEvent) returns (roots': seq<SpanNode>)
    requires e.spanId in nodes && forall k :: k in nodes ==> nodes[k].event.spanId == k
    modifies set k | k in nodes :: nodes[k]
    ensures roots' == if HasParent(nodes, e) then roots else roots + [nodes[e.spanId]]
    ensures ChildrenOf(nodes) == Pushed(nodes, old(ChildrenOf(nodes)), e)
  {
    var node := nodes[e.spanId];
    if e.parentId != "" && e.parentId in nodes {
      var parent := nodes[e.parentId];
      parent.children := parent.children + [node];
      roots' := roots;
    } else {
      roots' := roots + [node];
    }
  }

  ghost function Pushed(nodes: map<string, SpanNode>, children: map<string, seq<SpanNode>>, e: TraceEvent)
    : map<string, seq<SpanNode>>
    requires e.spanId in nodes && children.Keys == nodes.Keys
  {
    if HasParent(nodes, e) then children[e.parentId := children[e.parentId] + [nodes[e.spanId]]] else children
  }

  lemma AttachStep(nodes: map<string, SpanNode>, roots: seq<SpanNode>, children: map<string, seq<SpanNode>>,
                   events: seq<TraceEvent>, i: nat, ids: set<string>)
    requires i < |events| && ids == nodes.Keys && events[i].spanId in ids
    requires Attached(nodes, roots, children, events[..i], ids)
    ensures var e := events[i];
            Attached(nodes, if HasParent(nodes, e) then roots else roots + [nodes[e.spanId]], Pushed(nodes, children, e),
                     events[..i + 1], ids)
  {
    hide Roots, Kids, IsRoot, NodesOf;
    var e := events[i];
    ListsExtend(events, i, ids, nodes);
    if HasParent(nodes, e) {
      NodesOfExtend(nodes, Kids(events[..i], ids, e.parentId), e.spanId);
    } else {
      NodesOfExtend(nodes, Roots(events[..i], ids), e.spanId);
    }
  }

  lemma NodesKnowTheirIds(nodes: map<string, SpanNode>, events: seq<TraceEvent>)
    requires Nodes(nodes, events)
    ensures forall k :: k in nodes ==> nodes[k].event.spanId == k
  {
    forall k | k in nodes ensures nodes[k].event.spanId == k {
      LastWithIsLast(events, k);
    }
  }

  lemma NothingAttached(nodes: map<string, SpanNode>, ids: set<string>, children: map<string, seq<SpanNode>>)
    requires children.Keys == nodes.Keys && forall k :: k in nodes ==> children[k] == []
    ensures Attached(nodes, [], children, [], ids)
  {
  }

  lemma ListsExtend(events: seq<TraceEvent>, i: nat, ids: set<string>, nodes: map<string, SpanNode>)
    requires i < |events| && ids == nodes.Keys
    ensures var e := events[i];
            if e.parentId != "" && e.parentId in nodes then
              && Roots(events[..i + 1], ids) == Roots(events[..i], ids)
              && forall k :: Kids(events[..i + 1], ids, k)
                             == if k == e.parentId then Kids(events[..i], ids, k) + [e.spanId]
                                else Kids(events[..i], ids, k)
            else
              && Roots(events[..i + 1], ids) == Roots(events[..i], ids) + [e.spanId]
              && forall k :: Kids(events[..i + 1], ids, k) == Kids(events[..i], ids, k)
  {
    assert events[..i + 1][..i] == events[..i];
  }

  method CreateNodes(events: seq<TraceEvent>) returns (nodes: map<string, SpanNode>)
    ensures Nodes(nodes, events)
    ensures forall k :: k in nodes ==> fresh(nodes[k]) && nodes[k].children == []
  {
    nodes := map[];
    for i := 0 to |events|
      invariant Nodes(nodes, events[..i])
      invariant forall k :: k in nodes ==> fresh(nodes[k]) && nodes[k].children == []
    {
      var node := new SpanNode(events[i]);
      nodes := nodes[events[i].spanId := node];
      assert events[..i + 1][..i] == events[..i];
      IdsExtend(events[..i + 1]);
    }
    assert events[..|events|] == events;
  }

  lemma IdsExtend(events: seq<TraceEvent>)
    requires events != []
    ensures Ids(events) == Ids(events[..|events| - 1]) + {events[|events| - 1].spanId}
  {
  }

  // ---- Every event is attached once ----

  /** Number of entries below the spans of a set. */
  ghost function Attachments(events: seq<TraceEvent>, ids: set<string>): int {
    MapSum(map p | p in ids :: |Kids(events, ids, p)|)
  }

  lemma KidsExtend(events: seq<TraceEvent>, ids: set<string>, e: TraceEvent, p: string)
    ensures Kids(events + [e], ids, p)
            == Kids(events, ids, p) + if !IsRoot(e, ids) && e.parentId == p then [e.spanId] else []
    ensures Roots(events + [e], ids) == Roots(events, ids) + if IsRoot(e, ids) then [e.spanId] else []
  {
    assert (events + [e])[..|events|] == events;
  }

  lemma AttachOne(events: seq<TraceEvent>, ids: set<string>, e: TraceEvent)
    ensures |Roots(events + [e], ids)| + Attachments(events + [e], ids)
            == |Roots(events, ids)| + Attachments(events, ids) + 1
  {
    hide Roots, Kids, MapSum;
    var m: map<string, int> := map p | p in ids :: |Kids(events, ids, p)|;
    var m': map<string, int> := map p | p in ids :: |Kids(events + [e], ids, p)|;
    KidsExtend(events, ids, e, "");
    forall p | p in ids ensures m'[p] == m[p] + if !IsRoot(e, ids) && p == e.parentId then 1 else 0 {
      KidsExtend(events, ids, e, p);
    }
    if IsRoot(e, ids) {
      assert m' == m;
    } else {
      MapSumUpdate(m, e.parentId, m[e.parentId] + 1);
      assert m' == m[e.parentId := m[e.parentId] + 1];
    }
  }

  lemma NoAttachments(ids: set<string>)
    ensures Attachments([], ids) == 0
  {
    var m: map<string, int> := map p | p in ids :: |Kids([], ids, p)|;
    MapSumZero(m);
  }

  /** Conservation, for any input: root entries and child entries together are as many as the events. */
  lemma {:induction false} EveryEventAttachedOnce(events: seq<TraceEvent>, ids: set<string>)
    ensures |Roots(events, ids)| + Attachments(events, ids) == |events|
  {
    if events == [] {
      NoAttachments(ids);
    } else {
      var init := events[..|events| - 1];
      EveryEventAttachedOnce(init, ids);
      AttachOne(init, ids, events[|events| - 1]);
      assert init + [events[|events| - 1]] == events;
    }
  }

  /** Number of events with a span id. */
  function EventsWith(events: seq<TraceEvent>, k: string): nat {
    if events == [] then 0
    else EventsWith(events[..|events| - 1], k) + if events[|events| - 1].spanId == k then 1 else 0
  }

  /** How often a span occurs below each span of a set. */
  ghost function KidCounts(events: seq<TraceEvent>, ids: set<string>, k: string): map<string, int> {
    map p | p in ids :: multiset(Kids(events, ids, p))[k]
  }

  /** How often a span is attached: among the roots and below all the spans of a set. */
  ghost function Placements(events: seq<TraceEvent>, ids: set<string>, k: string): int {
    multiset(Roots(events, ids))[k] + MapSum(KidCounts(events, ids, k))
  }

  lemma CountAppended(s: seq<string>, x: string, k: string)
    ensures multiset(s + [x])[k] == multiset(s)[k] + if x == k then 1 else 0
    ensures multiset(s + [])[k] == multiset(s)[k]
  {
    assert s + [] == s;
  }

  lemma RootCountExtends(events: seq<TraceEvent>, ids: set<string>, e: TraceEvent, k: string)
    ensures multiset(Roots(events + [e], ids))[k]
            == multiset(Roots(events, ids))[k] + if IsRoot(e, ids) && e.spanId == k then 1 else 0
  {
    hide Roots, Kids, IsRoot;
    KidsExtend(events, ids, e, "");
    CountAppended(Roots(events, ids), e.spanId, k);
  }

  lemma KidCountsExtend(events: seq<TraceEvent>, ids: set<string>, e: TraceEvent, k: string)
    ensures var m, m' := KidCounts(events, ids, k), KidCounts(events + [e], ids, k);
            if IsRoot(e, ids) then m' == m
            else e.parentId in m && m' == m[e.parentId := m[e.parentId] + if e.spanId == k then 1 else 0]
  {
    hide Roots, Kids;
    forall p | p in ids
      ensures multiset(Kids(events + [e], ids, p))[k]
              == multiset(Kids(events, ids, p))[k] + if !IsRoot(e, ids) && p == e.parentId && e.spanId == k then 1 else 0
    {
      KidsExtend(events, ids, e, p);
      CountAppended(Kids(events, ids, p), e.spanId, k);
    }
  }

  lemma PlaceOne(events: seq<TraceEvent>, ids: set<string>, e: TraceEvent, k: string)
    ensures Placements(events + [e], ids, k) == Placements(events, ids, k) + if e.spanId == k then 1 else 0
  {
    hide Roots, KidCounts, MapSum;
    RootCountExtends(events, ids, e, k);
    KidCountsExtend(events, ids, e, k);
    if !IsRoot(e, ids) {
      var m := KidCounts(events, ids, k);
      MapSumUpdate(m, e.parentId, m[e.parentId] + if e.spanId == k then 1 else 0);
    }
  }

  /** For any input, a span is attached as often as events carry its id. */
  lemma {:induction false} PlacedOncePerEvent(events: seq<TraceEvent>, ids: set<string>, k: string)
    ensures Placements(events, ids, k) == EventsWith(events, k)
  {
    if events == [] {
      MapSumZero(KidCounts(events, ids, k));
    } else {
      var init := events[..|events| - 1];
      PlacedOncePerEvent(init, ids, k);
      PlaceOne(init, ids, events[|events| - 1], k);
      assert init + [events[|events| - 1]] == events;
    }
  }

  lemma {:induction false} DistinctCounts(events: seq<TraceEvent>, k: string)
    ensures EventsWith(events, k) > 0 <==> k in Ids(events)
    ensures Distinct(events) ==> EventsWith(events, k) <= 1
  {
    if events != [] {
      DistinctCounts(events[..|events| - 1], k);
      IdsExtend(events);
    }
  }

  lemma {:induction false} RepeatCounts(events: seq<TraceEvent>, i: nat, j: nat)
    requires i < j < |events| && events[i].spanId == events[j].spanId
    ensures EventsWith(events, events[i].spanId) >= 2
  {
    var init := events[..|events| - 1];
    if j < |init| {
      RepeatCounts(init, i, j);
    } else {
      DistinctCounts(init, events[i].spanId);
      assert init[i] == events[i];
    }
  }

  /** Every span is attached exactly once if and only if no two events share an id. */
  lemma AttachedOnceIffDistinct(events: seq<TraceEvent>)
    ensures (forall k | k in Ids(events) :: Placements(events, Ids(events), k) == 1) <==> Distinct(events)
  {
    hide Ids, Placements, EventsWith;
    var ids := Ids(events);
    forall k | k in ids ensures Placements(events, ids, k) == EventsWith(events, k) > 0 {
      PlacedOncePerEvent(events, ids, k);
      DistinctCounts(events, k);
    }
    if Distinct(events) {
      forall k | k in ids ensures Placements(events, ids, k) == 1 {
        DistinctCounts(events, k);
      }
    } else {
      var i: nat, j: nat :| i < j < |events| && events[i].spanId == events[j].spanId;
      RepeatCounts(events, i, j);
      DistinctCounts(events, events[i].spanId);
      assert events[i].spanId in ids;
    }
  }

  /** A span is listed below p iff an event says so and p is a span; it is a root iff an event of it has no such parent. */
  lemma ListedWhereEventsSay(events: seq<TraceEvent>, k: string, p: string)
    ensures k in Kids(events, Ids(events), p)
            <==> p != "" && (exists j :: 0 <= j < |events| && events[j].spanId == p)
                 && exists i :: 0 <= i < |events| && events[i] == TraceEvent(k, p)
    ensures k in Roots(events, Ids(events))
            <==> exists i :: 0 <= i < |events| && events[i].spanId == k
                             && (events[i].parentId == ""
                                 || forall j :: 0 <= j < |events| ==> events[j].spanId != events[i].parentId)
  {
    Listed(events, Ids(events), k, p);
  }

  lemma {:induction false} Listed(events: seq<TraceEvent>, ids: set<string>, k: string, p: string)
    ensures k in Kids(events, ids, p)
            <==> p != "" && p in ids && exists i :: 0 <= i < |events| && events[i] == TraceEvent(k, p)
    ensures k in Roots(events, ids)
            <==> exists i :: 0 <= i < |events| && events[i].spanId == k
                             && (events[i].parentId == "" || events[i].parentId !in ids)
  {
    if events != [] {
      var init, last := events[..|events| - 1], events[|events| - 1];
      Listed(init, ids, k, p);
      assert forall i :: 0 <= i < |init| ==> events[i] == init[i];
    }
  }

  // ---- Order ----

  lemma {:induction false} RootAt(events: seq<TraceEvent>, ids: set<string>, a: nat) returns (i: nat)
    requires a < |Roots(events, ids)|
    ensures i < |events| && IsRoot(events[i], ids) && events[i].spanId == Roots(events, ids)[a]
    ensures |Roots(events[..i], ids)| == a
  {
    var init := events[..|events| - 1];
    if a < |Roots(init, ids)| {
      i := RootAt(init, ids, a);
      assert events[..i] == init[..i];
    } else {
      i := |events| - 1;
    }
  }

  lemma {:induction false} KidAt(events: seq<TraceEvent>, ids: set<string>, p: string, a: nat) returns (i: nat)
    requires a < |Kids(events, ids, p)|
    ensures i < |events| && !IsRoot(events[i], ids) && events[i].parentId == p
            && events[i].spanId == Kids(events, ids, p)[a]
    ensures |Kids(events[..i], ids, p)| == a
  {
    var init := events[..|events| - 1];
    if a < |Kids(init, ids, p)| {
      i := KidAt(init, ids, p, a);
      assert events[..i] == init[..i];
    } else {
      i := |events| - 1;
    }
  }

  lemma {:induction false} ListsGrow(events: seq<TraceEvent>, ids: set<string>, p: string, i: nat)
    requires i <= |events|
    ensures |Roots(events[..i], ids)| <= |Roots(events, ids)| && |Kids(events[..i], ids, p)| <= |Kids(events, ids, p)|
  {
    if i < |events| {
      ListsGrow(events[..|events| - 1], ids, p, i);
      assert events[..|events| - 1][..i] == events[..i];
    } else {
      assert events[..i] == events;
    }
  }

  /** Roots and siblings come in input order. */
  lemma InputOrderKept(events: seq<TraceEvent>, ids: set<string>, p: string, a: nat, b: nat)
    requires a < b
    ensures b < |Roots(events, ids)| ==>
              exists i, j :: 0 <= i < j < |events|
                             && events[i].spanId == Roots(events, ids)[a] && events[j].spanId == Roots(events, ids)[b]
    ensures b < |Kids(events, ids, p)| ==>
              exists i, j :: 0 <= i < j < |events|
                             && events[i].spanId == Kids(events, ids, p)[a] && events[j].spanId == Kids(events, ids, p)[b]
  {
    if b < |Roots(events, ids)| {
      var i := RootAt(events, ids, a);
      var j := RootAt(events, ids, b);
      if j < i {
        assert events[..i][..j] == events[..j];
        ListsGrow(events[..i], ids, p, j);
      }
    }
    if b < |Kids(events, ids, p)| {
      var i := KidAt(events, ids, p, a);
      var j := KidAt(events, ids, p, b);
      if j < i {
        assert events[..i][..j] == events[..j];
        ListsGrow(events[..i], ids, p, j);
      }
    }
  }

  // ---- Placement with distinct ids ----

  predicate Distinct(events: seq<TraceEvent>) {
    forall i, j :: 0 <= i < j < |events| ==> events[i].spanId != events[j].spanId
  }

  /** The parent a span hangs below, if it has one. */
  function Up(events: seq<TraceEvent>, k: string): (r: Option<string>)
    requires k in Ids(events)
    ensures r.Some? ==> r.value in Ids(events)
  {
    var e := LastWith(events, k);
    if IsRoot(e, Ids(events)) then None else Some(e.parentId)
  }

  /** n parents above k there is a root. */
  predicate ReachesRoot(events: seq<TraceEvent>, k: string, n: nat)
    requires k in Ids(events)
    decreases n
  {
    if n == 0 then Up(events, k).None?
    else Up(events, k).Some? && ReachesRoot(events, Up(events, k).value, n - 1)
  }

  /** With distinct ids, a span is in the list its parent says, once, and in no other. */
  lemma ListsAreExact(events: seq<TraceEvent>, k: string, p: string)
    requires Distinct(events)
    ensures k in Roots(events, Ids(events)) <==> k in Ids(events) && Up(events, k).None?
    ensures k in Kids(events, Ids(events), p) <==> k in Ids(events) && Up(events, k) == Some(p)
    ensures multiset(Roots(events, Ids(events)))[k] <= 1 && multiset(Kids(events, Ids(events), p))[k] <= 1
  {
    hide Ids;
    var ids := Ids(events);
    Occurrences(events, ids, k, p);
    if k in ids {
      LastWithIsLast(events, k);
    }
    ListsHoldIds(events, ids, p);
  }

  /** With distinct ids, the event with id k accounts for every occurrence of k. */
  lemma {:induction false} Occurrences(events: seq<TraceEvent>, ids: set<string>, k: string, p: string)
    requires Distinct(events)
    ensures multiset(Roots(events, ids))[k]
            == if k in Ids(events) && IsRoot(LastWith(events, k), ids) then 1 else 0
    ensures multiset(Kids(events, ids, p))[k]
            == if k in Ids(events) && !IsRoot(LastWith(events, k), ids) && LastWith(events, k).parentId == p then 1 else 0
  {
    if events != [] {
      var init, last := events[..|events| - 1], events[|events| - 1];
      Occurrences(init, ids, k, p);
      IdsExtend(events);
      if last.spanId == k {
        assert k !in Ids(init);
      }
    }
  }

  /** A path through the forest: from a root down children lists to k. */
  ghost predicate ForestPath(events: seq<TraceEvent>, path: seq<string>, k: string)
    decreases |path|
  {
    && path != [] && path[|path| - 1] == k
    && if |path| == 1 then k in Roots(events, Ids(events))
       else
         var above := path[|path| - 2];
         k in Kids(events, Ids(events), above) && ForestPath(events, path[..|path| - 1], above)
  }

  lemma LastStep(events: seq<TraceEvent>, path: seq<string>, k: string)
    requires Distinct(events) && ForestPath(events, path, k)
    ensures path != [] && path[|path| - 1] == k && k in Ids(events)
    ensures if |path| == 1 then Up(events, k).None?
            else Up(events, k) == Some(path[|path| - 2]) && ForestPath(events, path[..|path| - 1], path[|path| - 2])
  {
    hide Roots, Kids, Distinct, Up;
    ListsAreExact(events, k, if |path| > 1 then path[|path| - 2] else "");
  }

  lemma {:induction false} PathsFollowParents(events: seq<TraceEvent>, path: seq<string>, k: string)
    requires Distinct(events) && ForestPath(events, path, k)
    ensures path != [] && k in Ids(events) && ReachesRoot(events, k, |path| - 1)
    decreases |path|
  {
    hide Roots, Kids, Distinct, Up, ForestPath;
    LastStep(events, path, k);
    if |path| > 1 {
      PathsFollowParents(events, path[..|path| - 1], path[|path| - 2]);
    }
  }

  lemma {:induction false} ParentsGivePath(events: seq<TraceEvent>, k: string, n: nat) returns (path: seq<string>)
    requires Distinct(events) && k in Ids(events) && ReachesRoot(events, k, n)
    ensures ForestPath(events, path, k)
    decreases n
  {
    ListsAreExact(events, k, "");
    if n == 0 {
      path := [k];
    } else {
      var above := Up(events, k).value;
      var rest := ParentsGivePath(events, above, n - 1);
      path := rest + [k];
      assert path[..|path| - 1] == rest;
      ListsAreExact(events, k, above);
    }
  }

  /** A span has at most one place in the forest. */
  lemma {:induction false} OnePlaceAtMost(events: seq<TraceEvent>, path1: seq<string>, path2: seq<string>, k: string)
    requires Distinct(events) && ForestPath(events, path1, k) && ForestPath(events, path2, k)
    ensures path1 == path2
    decreases |path1|
  {
    hide *;
    LastStep(events, path1, k);
    LastStep(events, path2, k);
    if |path1| > 1 {
      OnePlaceAtMost(events, path1[..|path1| - 1], path2[..|path2| - 1], path1[|path1| - 2]);
      assert path1 == path1[..|path1| - 1] + [k] && path2 == path2[..|path2| - 1] + [k];
    } else {
      assert path1 == [k] && path2 == [k];
    }
  }

  /** With distinct ids, a span appears in the forest, and then once, exactly when its parent chain reaches a root. */
  lemma PlacedIffChainReachesRoot(events: seq<TraceEvent>, k: string)
    requires Distinct(events) && k in Ids(events)
    ensures (exists path :: ForestPath(events, path, k)) <==> (exists n: nat :: ReachesRoot(events, k, n))
    ensures forall p1, p2 :: ForestPath(events, p1, k) && ForestPath(events, p2, k) ==> p1 == p2
  {
    hide ForestPath, ReachesRoot, Distinct;
    if n: nat :| ReachesRoot(events, k, n) {
      var path := ParentsGivePath(events, k, n);
    }
    if path :| ForestPath(events, path, k) {
      PathsFollowParents(events, path, k);
      var n: nat := |path| - 1;
      assert ReachesRoot(events, k, n);
    }
    forall p1, p2 | ForestPath(events, p1, k) && ForestPath(events, p2, k) ensures p1 == p2 {
      OnePlaceAtMost(events, p1, p2, k);
    }
  }

  // ---- Cycles ----

  /** The span n parents above k, if there is one. */
  function Climb(events: seq<TraceEvent>, k: string, n: nat): (r: Option<string>)
    requires k in Ids(events)
    ensures r.Some? ==> r.value in Ids(events)
  {
    if n == 0 then Some(k)
    else
      var below := Climb(events, k, n - 1);
      if below.None? then None else Up(events, below.value)
  }

  /** The parent chain of k comes back to a span it passed: k is on a cycle or below one. */
  ghost predicate OnOrBelowCycle(events: seq<TraceEvent>, k: string)
    requires k in Ids(events)
  {
    exists i: nat, j: nat :: i < j && Climb(events, k, i).Some? && Climb(events, k, i) == Climb(events, k, j)
  }

  lemma {:induction false} ClimbFirst(events: seq<TraceEvent>, k: string, n: nat)
    requires k in Ids(events) && Up(events, k).Some?
    ensures Climb(events, k, n + 1) == Climb(events, Up(events, k).value, n)
  {
    if n > 0 {
      ClimbFirst(events, k, n - 1);
    } else {
      assert Climb(events, k, 0) == Some(k);
    }
  }

  lemma {:induction false} ReachingIsClimbing(events: seq<TraceEvent>, k: string, n: nat)
    requires k in Ids(events)
    ensures ReachesRoot(events, k, n) <==> Climb(events, k, n).Some? && Climb(events, k, n + 1).None?
    decreases n
  {
    if Up(events, k).Some? {
      ClimbFirst(events, k, n);
      if n > 0 {
        ClimbFirst(events, k, n - 1);
        ReachingIsClimbing(events, Up(events, k).value, n - 1);
      }
    } else {
      assert Climb(events, k, 0) == Some(k);
      NothingAbove(events, k, 1, n);
    }
  }

  /** Once the chain ended it stays ended. */
  lemma {:induction false} NothingAbove(events: seq<TraceEvent>, k: string, m: nat, n: nat)
    requires k in Ids(events) && Climb(events, k, m).None?
    ensures n >= m ==> Climb(events, k, n).None?
  {
    if n > m {
      NothingAbove(events, k, m, n - 1);
    }
  }

  /** Two equal spans on the chain are followed by equal chains. */
  lemma {:induction false} ChainsRepeat(events: seq<TraceEvent>, k: string, i: nat, j: nat, d: nat)
    requires k in Ids(events) && Climb(events, k, i) == Climb(events, k, j)
    ensures Climb(events, k, i + d) == Climb(events, k, j + d)
  {
    if d > 0 {
      ChainsRepeat(events, k, i, j, d - 1);
    }
  }

  /** A list longer than the set it draws from has a repetition. */
  lemma {:induction false} Pigeonhole(s: seq<string>, ids: set<string>)
    requires (forall i :: 0 <= i < |s| ==> s[i] in ids) && |s| > |ids|
    ensures exists i, j :: 0 <= i < j < |s| && s[i] == s[j]
  {
    var n := |s| - 1;
    if forall i :: 0 <= i < n ==> s[i] != s[n] {
      Pigeonhole(s[..n], ids - {s[n]});
      var i, j :| 0 <= i < j < n && s[..n][i] == s[..n][j];
      assert s[i] == s[j];
    }
  }

  /** A parent chain reaches a root exactly when it meets no cycle. */
  lemma ReachesRootIffNoCycle(events: seq<TraceEvent>, k: string)
    requires k in Ids(events)
    ensures (exists n: nat :: ReachesRoot(events, k, n)) <==> !OnOrBelowCycle(events, k)
  {
    hide Climb, Up, ReachesRoot;
    if n: nat :| ReachesRoot(events, k, n) {
      ReachingIsClimbing(events, k, n);
      forall i: nat, j: nat | i < j && Climb(events, k, i).Some? ensures Climb(events, k, i) != Climb(events, k, j) {
        NothingAbove(events, k, n + 1, i);
        if i <= n && Climb(events, k, i) == Climb(events, k, j) {
          ChainsRepeat(events, k, i, j, n - i);
          NothingAbove(events, k, n + 1, j + (n - i));
        }
      }
    } else {
      NeverReachingRepeats(events, k);
    }
  }

  lemma {:induction false} NeverEnds(events: seq<TraceEvent>, k: string, n: nat)
    requires k in Ids(events) && forall m: nat :: !ReachesRoot(events, k, m)
    ensures Climb(events, k, n).Some?
  {
    hide ReachesRoot;
    if n > 0 {
      NeverEnds(events, k, n - 1);
      ReachingIsClimbing(events, k, n - 1);
    }
  }

  lemma NeverReachingRepeats(events: seq<TraceEvent>, k: string)
    requires k in Ids(events) && forall n: nat :: !ReachesRoot(events, k, n)
    ensures OnOrBelowCycle(events, k)
  {
    hide Climb, ReachesRoot;
    var ids := Ids(events);
    forall n: nat ensures Climb(events, k, n).Some? {
      NeverEnds(events, k, n);
    }
    var chain := seq(|ids| + 1, i requires 0 <= i <= |ids| => Climb(events, k, i).value);
    Pigeonhole(chain, ids);
    var i, j :| 0 <= i < j < |chain| && chain[i] == chain[j];
    assert Climb(events, k, i) == Some(chain[i]) == Climb(events, k, j);
  }

  /** With distinct ids the forest leaves out exactly the spans on or below a parent cycle. */
  lemma OnlyCyclesAreLeftOut(events: seq<TraceEvent>, k: string)
    requires Distinct(events) && k in Ids(events)
    ensures (exists path :: ForestPath(events, path, k)) <==> !OnOrBelowCycle(events, k)
  {
    PlacedIffChainReachesRoot(events, k);
    ReachesRootIffNoCycle(events, k);
  }
}
