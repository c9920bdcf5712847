/** The room as the object the server keeps: dictionaries of node and edge objects that its
    methods update in place (HexWar.Domain/Entities/GameRoom.cs, GameRoom.Events.cs and
    PendingEncounter in GameResults.cs). Every method is tied to its function on values. */
module RoomObjects {
  import opened HexTypes
  import opened Nodes
  import opened Edges
  import opened Rooms
  import opened RoomWellFormed
  import opened RoomLedger
  import opened Announcements

  class PendingEncounter {
    const edgeId: EdgeId
    const groupA: TravelingGroup
    const groupB: TravelingGroup
    const remainingRounds: int
    var decisionA: Option<Decision>
    var decisionB: Option<Decision>
    var outcomeA: Option<Outcome>
    var outcomeB: Option<Outcome>

    ghost function View(): Encounter
      reads this
    {
      Encounter(edgeId, groupA, groupB, remainingRounds, PerSide(decisionA, decisionB), PerSide(outcomeA, outcomeB))
    }

    constructor (enc: EncounterInfo)
      ensures View() == Encounter(enc.edgeId, enc.groupA, enc.groupB, enc.remaining, PerSide(None, None), PerSide(None, None))
    {
      edgeId, groupA, groupB, remainingRounds := enc.edgeId, enc.groupA, enc.groupB, enc.remaining;
      decisionA, decisionB, outcomeA, outcomeB := None, None, None, None;
    }

    predicate HasDecided(side: Side)
      reads this
      ensures HasDecided(side) == View().HasDecided(side)
    {
      if side == A then decisionA.Some? else decisionB.Some?
    }

    predicate BothDecided()
      reads this
      ensures BothDecided() == View().BothDecided()
    {
      decisionA.Some? && decisionB.Some?
    }

    method MarkDecided(side: Side, decision: Decision, outcome: Outcome)
      modifies this
      ensures View() == old(View()).Marked(side, decision, outcome)
      ensures side == A ==> decisionA == Some(decision) && outcomeA == Some(outcome) && unchanged(`decisionB, `outcomeB)
      ensures side == B ==> decisionB == Some(decision) && outcomeB == Some(outcome) && unchanged(`decisionA, `outcomeA)
    {
      if side == A {
        decisionA, outcomeA := Some(decision), Some(outcome);
      } else {
        decisionB, outcomeB := Some(decision), Some(outcome);
      }
    }
  }

  // ---- Object lists as values ----

  ghost function Objects(ns: seq<Node>): (r: set<object>)
    ensures forall n :: n in ns ==> n in r && n.unitsA in r && n.unitsB in r
    ensures forall o :: o in r ==> o is Node || o is UnitGroup
  {
    if ns == [] then {} else {ns[0], ns[0].unitsA, ns[0].unitsB} + Objects(ns[1..])
  }

  ghost function NodeViews(ns: seq<Node>): seq<NodeState>
    reads Objects(ns)
  {
    seq(|ns|, i requires 0 <= i < |ns| reads Objects(ns) => ns[i].View())
  }

  ghost function EdgeViews(es: seq<Edge>): seq<EdgeState>
    reads es
  {
    seq(|es|, i requires 0 <= i < |es| reads es => es[i].View())
  }

  ghost function PendingViews(ps: seq<PendingEncounter>): seq<Encounter>
    reads ps
  {
    seq(|ps|, i requires 0 <= i < |ps| reads ps => ps[i].View())
  }

  /** Two nodes share no object. */
  ghost predicate Separate(m: Node, n: Node) {
    && m != n
    && m.unitsA != n.unitsA && m.unitsA != n.unitsB
    && m.unitsB != n.unitsA && m.unitsB != n.unitsB
  }

  ghost predicate Apart(ns: seq<Node>) {
    forall i, j :: 0 <= i < j < |ns| ==> Separate(ns[i], ns[j])
  }

  ghost predicate NodesValid(ns: seq<Node>)
    reads Objects(ns)
  {
    Apart(ns) && forall n :: n in ns ==> n.Valid()
  }

  ghost predicate EdgesValid(es: seq<Edge>)
    reads es
  {
    (forall i, j :: 0 <= i < j < |es| ==> es[i] != es[j]) && forall e :: e in es ==> e.Valid()
  }

  ghost predicate PendingValid(ps: seq<PendingEncounter>) {
    forall i, j :: 0 <= i < j < |ps| ==> ps[i] != ps[j]
  }

  lemma {:induction false} ObjectsAppend(ns: seq<Node>, n: Node)
    ensures Objects(ns + [n]) == Objects(ns) + {n, n.unitsA, n.unitsB}
  {
    if ns == [] {
      assert [] + [n] == [n] && [n][1..] == [];
    } else {
      assert (ns + [n])[1..] == ns[1..] + [n];
      ObjectsAppend(ns[1..], n);
    }
  }

  lemma AppendNode(ns: seq<Node>, n: Node)
    requires NodesValid(ns) && n.Valid()
    requires n !in Objects(ns) && n.unitsA !in Objects(ns) && n.unitsB !in Objects(ns)
    ensures NodesValid(ns + [n])
    ensures NodeViews(ns + [n]) == NodeViews(ns) + [n.View()]
  {
    ObjectsAppend(ns, n);
  }

  lemma NodeAt(ns: seq<Node>, i: nat)
    requires i < |ns| && NodesValid(ns)
    ensures ns[i].Valid()
    ensures |NodeViews(ns)| == |ns| && NodeViews(ns)[i] == ns[i].View()
  {
  }

  lemma EdgeAt(es: seq<Edge>, i: nat)
    requires i < |es| && EdgesValid(es)
    ensures es[i].Valid()
    ensures |EdgeViews(es)| == |es| && EdgeViews(es)[i] == es[i].View()
  {
  }

  lemma StoreEdge(es: seq<Edge>, i: nat, e: Edge)
    requires i <= |es| && EdgesValid(es) && e.Valid() && e !in es
    ensures EdgesValid(if i < |es| then es[i := e] else es + [e])
    ensures EdgeViews(if i < |es| then es[i := e] else es + [e]) ==
              if i < |es| then EdgeViews(es)[i := e.View()] else EdgeViews(es) + [e.View()]
  {
    hide Edge.Valid, Edge.View;
  }

  lemma PendingAt(ps: seq<PendingEncounter>, k: nat)
    requires k < |ps|
    ensures |PendingViews(ps)| == |ps| && PendingViews(ps)[k] == ps[k].View()
  {
  }

  lemma PendingCount(ps: seq<PendingEncounter>)
    ensures |PendingViews(ps)| == |ps|
  {
  }

  lemma DropPending(ps: seq<PendingEncounter>, k: nat)
    requires k < |ps| && PendingValid(ps)
    ensures PendingValid(ps[..k] + ps[k + 1..])
    ensures PendingViews(ps[..k] + ps[k + 1..]) == PendingViews(ps)[..k] + PendingViews(ps)[k + 1..]
  {
  }

  // ---- Loop steps on values ----

  lemma MoveRecordsStep(side: Side, ms: seq<PendingMove>, k: nat)
    requires k <= |ms|
    ensures MoveRecords(side, ms[..0]) == []
    ensures k < |ms| ==>
              MoveRecords(side, ms[..k + 1]) == MoveRecords(side, ms[..k]) + [MoveRecord(ms[k].from, ms[k].to, side, ms[k].count)]
  {
  }

  lemma EdgeCount(es: seq<Edge>)
    ensures |EdgeViews(es)| == |es|
  {
  }

  lemma AdvancingStart(before: seq<EdgeState>)
    ensures AdvancedEdges(before[..0]) + before[0..] == before
    ensures before[0..] == before
  {
  }

  lemma AdvancingStep(before: seq<EdgeState>, k: nat)
    requires k < |before|
    ensures (AdvancedEdges(before[..k]) + before[k..])[k] == before[k]
    ensures (AdvancedEdges(before[..k]) + before[k..])[k := AdvancedEdge(before[k])] ==
              AdvancedEdges(before[..k + 1]) + before[k + 1..]
    ensures EdgeArrivals(before[k..]) == AsArrivals(Arrivals(before[k].traveling), before[k].id) + EdgeArrivals(before[k + 1..])
  {
    assert before[k..][0] == before[k] && before[k..][1..] == before[k + 1..];
  }

  lemma NewPendingStep(encs: seq<EncounterInfo>, k: nat)
    requires k <= |encs|
    ensures NewPending(encs[..0]) == []
    ensures k < |encs| ==>
              NewPending(encs[..k + 1]) == NewPending(encs[..k]) +
                [Encounter(encs[k].edgeId, encs[k].groupA, encs[k].groupB, encs[k].remaining, PerSide(None, None), PerSide(None, None))]
  {
  }

  lemma AddPending(ps: seq<PendingEncounter>, p: PendingEncounter)
    requires PendingValid(ps) && p !in ps
    ensures PendingValid(ps + [p])
    ensures PendingViews(ps + [p]) == PendingViews(ps) + [p.View()]
  {
  }

  lemma NodeCount(ns: seq<Node>)
    ensures |NodeViews(ns)| == |ns|
  {
  }

  lemma ClearingStart(before: seq<NodeState>)
    ensures HistoryCleared(before[..0]) + before[0..] == before
  {
  }

  lemma ClearingStep(before: seq<NodeState>, k: nat)
    requires k < |before|
    ensures (HistoryCleared(before[..k]) + before[k..])[k] == before[k]
    ensures (HistoryCleared(before[..k]) + before[k..])[k := before[k].(recent := [])] ==
              HistoryCleared(before[..k + 1]) + before[k + 1..]
  {
  }

  // ---- A resolution assembled from its parts ----

  lemma RefusedOutsidePlanning(r: Room)
    requires r.phase != Planning
    ensures Rooms.ResolveRound(r) == Err(WrongPhase)
  {
  }

  lemma DispatchIgnores(r: Room, s: Room)
    requires r.nodes == s.nodes && r.edges == s.edges && r.moves == s.moves
    ensures Dispatch(r) == Dispatch(s)
  {
  }

  lemma DispatchStops(r: Room, error: Error)
    requires r.phase == Planning && Dispatch(r) == Err(error)
    ensures Rooms.ResolveRound(r) == Err(error)
  {
  }

  lemma ResolveRoundIs(r: Room, b: Board)
    requires r.phase == Planning && Dispatch(r) == Ok(b)
    ensures Rooms.ResolveRound(r) ==
              match RoundLanding(b)
              case Err(error) => Err(error)
              case Ok(l) => Ok(Rooms.Conclude(r, AdvancedEdges(b.edges), l, AllEncounters(AdvancedEdges(b.edges))))
  {
  }

  lemma ConcludeIs(was: Room, now: Room, l: Landing, encs: seq<EncounterInfo>, over: bool)
    requires now.(phase := was.phase, round := was.round, nodes := was.nodes, edges := was.edges, used := was.used,
                  moves := was.moves, pending := was.pending, events := was.events) == was
    requires now.phase == if over then GameOver else Planning
    requires now.round == was.round + 1 && now.used == PerSide(0, 0) && now.moves == PerSide([], [])
    requires now.nodes == HistoryCleared(l.nodes) && now.pending == was.pending + NewPending(encs)
    requires over <==> Rooms.CheckGameOver(now.nodes) || now.round > was.maxRounds
    requires now.events ==
               [RoundResolved(was.round, MoveRecords(A, was.moves.a) + MoveRecords(B, was.moves.b), l.landed, encs,
                              l.changes, BothDecidedOnes(now.pending)),
                if over
                then GameEnded(Winner(now.nodes), if now.round > was.maxRounds then MaxRoundsReached else AllNodesCaptured,
                               was.round, Scores(now.nodes))
                else RoundStarted(now.round)]
    ensures now == Rooms.Conclude(was, now.edges, l, encs)
  {
    hide Rooms.CheckGameOver, Winner, Scores, BothDecidedOnes, NewPending, HistoryCleared, MoveRecords;
  }

  // ---- The initial map, entry by entry ----

  lemma InitialNodeList()
    ensures |InitialNodes()| == 6
    ensures InitialNodes()[..0] == []
    ensures InitialNodes()[0] == NewNode(1, OutPost)
    ensures InitialNodes()[1] == NewNode(2, Chokepoint)
    ensures InitialNodes()[2] == NewNode(3, SupplyLine)
    ensures InitialNodes()[3] == NewNode(4, Chokepoint)
    ensures InitialNodes()[4] == NewNode(5, OutPost)
    ensures InitialNodes()[5] == NewNode(6, Headquarters)
  {
  }

  lemma InitialEdgeList()
    ensures |InitialEdges()| == 12
    ensures InitialEdges()[..0] == []
    ensures InitialEdges()[0] == NewEdge(1, 2, 1)
    ensures InitialEdges()[1] == NewEdge(1, 4, 2)
    ensures InitialEdges()[2] == NewEdge(1, 5, 2)
    ensures InitialEdges()[3] == NewEdge(1, 6, 1)
    ensures InitialEdges()[4] == NewEdge(2, 3, 2)
    ensures InitialEdges()[5] == NewEdge(2, 6, 1)
    ensures InitialEdges()[6] == NewEdge(3, 4, 1)
    ensures InitialEdges()[7] == NewEdge(3, 5, 1)
    ensures InitialEdges()[8] == NewEdge(3, 6, 1)
    ensures InitialEdges()[9] == NewEdge(4, 5, 1)
    ensures InitialEdges()[10] == NewEdge(4, 6, 1)
    ensures InitialEdges()[11] == NewEdge(5, 6, 1)
  {
  }

  lemma InitialNodeStep(k: nat)
    requires k < |InitialNodes()|
    ensures NodeIndex(InitialNodes()[..k], InitialNodes()[k].id).None?
    ensures InitialNodes()[..k] + [InitialNodes()[k]] == InitialNodes()[..k + 1]
  {
    InitialNodeList();
    hide InitialNodes, NodeIndex;
    assert forall i :: 0 <= i < k ==> InitialNodes()[i].id != InitialNodes()[k].id;
  }

  lemma InitialEdgeStep(k: nat)
    requires k < |InitialEdges()|
    ensures PutEdge(InitialEdges()[..k], InitialEdges()[k]) == InitialEdges()[..k + 1]
  {
    InitialEdgesOk();
    hide InitialEdges, EdgeIndex, EdgeOk;
    assert forall i :: 0 <= i < k ==> InitialEdges()[i].id != InitialEdges()[k].id;
  }

  // ---- Queries over object lists ----

  function UndecidedOf(ps: seq<PendingEncounter>, side: Side): seq<PendingEncounter>
    reads ps
  {
    if ps == [] then []
    else if ps[0].HasDecided(side) then UndecidedOf(ps[1..], side)
    else [ps[0]] + UndecidedOf(ps[1..], side)
  }

  function MobileSum(ns: seq<Node>, side: Side): int
    reads set n | n in ns :: n.Group(side)
  {
    if ns == [] then 0 else ns[0].Group(side).mobileCount + MobileSum(ns[1..], side)
  }

  lemma {:induction false} UndecidedViews(ps: seq<PendingEncounter>, side: Side)
    ensures PendingViews(UndecidedOf(ps, side)) == Undecided(PendingViews(ps), side)
    ensures forall p :: p in UndecidedOf(ps, side) ==> p in ps
  {
    if ps != [] {
      UndecidedViews(ps[1..], side);
      assert PendingViews(ps)[1..] == PendingViews(ps[1..]) && PendingViews(ps)[0] == ps[0].View();
    }
  }

  lemma {:induction false} MobileViews(ns: seq<Node>, side: Side)
    ensures MobileSum(ns, side) == NodeMobile(NodeViews(ns), side)
  {
    if ns != [] {
      MobileViews(ns[1..], side);
      assert NodeViews(ns)[1..] == NodeViews(ns[1..]) && NodeViews(ns)[0] == ns[0].View();
    }
  }

  // ---- The room ----

  class GameRoom {
    const maxRounds: int := MAX_ROUNDS
    var ownerServer: Option<string>
    var phase: Phase
    var currentRound: int
    var nodes: seq<Node>
    var edges: seq<Edge>
    var players: seq<string>
    var unitUsedThisRound: PerSide<int>
    var pendingMoves: PerSide<seq<PendingMove>>
    var pendingEncounters: seq<PendingEncounter>
    var domainEvents: seq<Event>
    ghost var parts: set<object> // every object of `nodes`

    ghost function View(): Room
      reads this, Objects(nodes), edges, pendingEncounters
    {
      Room(phase, currentRound, maxRounds, ownerServer, NodeViews(nodes), EdgeViews(edges), players,
           unitUsedThisRound, pendingMoves, PendingViews(pendingEncounters), domainEvents)
    }

    ghost function BoardView(): Board
      reads this, Objects(nodes), edges
    {
      Board(NodeViews(nodes), EdgeViews(edges))
    }

    ghost predicate Valid()
      reads this, Objects(nodes), edges
    {
      NodesValid(nodes) && EdgesValid(edges) && PendingValid(pendingEncounters) && parts == Objects(nodes) && this !in parts
    }

    constructor ()
      ensures Valid()
      ensures View() == NewRoom() && nodes == [] && edges == []
    {
      ownerServer, phase, currentRound := None, WaitingForPlayers, 0;
      nodes, edges, players := [], [], [];
      unitUsedThisRound, pendingMoves := PerSide(0, 0), PerSide([], []);
      pendingEncounters, domainEvents := [], [];
      parts := {};
    }

    // ---- Dictionary lookups ----

    method FindNode(id: NodeId) returns (r: Option<nat>)
      ensures r == NodeIndex(NodeViews(nodes), id)
      ensures r.Some? ==> r.value < |nodes| && nodes[r.value].id == id
    {
      var i := 0;
      while i < |nodes|
        invariant i <= |nodes|
        invariant forall j :: 0 <= j < i ==> NodeViews(nodes)[j].id != id
      {
        if nodes[i].id == id {
          assert NodeViews(nodes)[i].id == id;
          return Some(i);
        }
        i := i + 1;
      }
      r := None;
    }

    method FindEdge(id: EdgeId) returns (r: Option<nat>)
      ensures r == EdgeIndex(EdgeViews(edges), id)
      ensures r.Some? ==> r.value < |edges| && edges[r.value].id == id
    {
      var i := 0;
      while i < |edges|
        invariant i <= |edges|
        invariant forall j :: 0 <= j < i ==> EdgeViews(edges)[j].id != id
      {
        if edges[i].id == id {
          assert EdgeViews(edges)[i].id == id;
          return Some(i);
        }
        i := i + 1;
      }
      r := None;
    }

    method FindPending(id: EdgeId) returns (r: Option<nat>)
      ensures r == PendingIndex(PendingViews(pendingEncounters), id)
      ensures r.Some? ==> r.value < |pendingEncounters| && pendingEncounters[r.value].edgeId == id
    {
      var i := 0;
      while i < |pendingEncounters|
        invariant i <= |pendingEncounters|
        invariant forall j :: 0 <= j < i ==> PendingViews(pendingEncounters)[j].edgeId != id
      {
        if pendingEncounters[i].edgeId == id {
          assert PendingViews(pendingEncounters)[i].edgeId == id;
          return Some(i);
        }
        i := i + 1;
      }
      r := None;
    }

    method HasPendingEncounterOn(id: EdgeId) returns (found: bool)
      requires Valid()
      ensures found == PendingIndex(View().pending, id).Some?
    {
      hide NodesValid, EdgesValid, PendingValid, NodeViews, EdgeViews, PendingViews, Objects, PendingIndex;
      var k := FindPending(id);
      found := k.Some?;
    }

    // ---- One object changed ----

    /** When only the objects of one node changed, the list of nodes changed in that place. */
    twostate lemma NodeReplaced(new i: nat)
      requires i < |nodes| && nodes == old(nodes) && parts == old(parts) == Objects(nodes)
      requires old(NodesValid(nodes)) && nodes[i].Valid()
      requires forall o :: o in parts && o != nodes[i] && o != nodes[i].unitsA && o != nodes[i].unitsB ==> unchanged(o)
      ensures NodesValid(nodes)
      ensures NodeViews(nodes) == old(NodeViews(nodes))[i := nodes[i].View()]
    {
      hide Objects, Node.Valid, Node.View;
      forall j | 0 <= j < |nodes| && j != i
        ensures unchanged(nodes[j]) && unchanged(nodes[j].unitsA) && unchanged(nodes[j].unitsB)
      {
        assert Separate(nodes[Min(i, j)], nodes[Max(i, j)]);
        assert nodes[j] in nodes && nodes[j] in parts && nodes[j].unitsA in parts && nodes[j].unitsB in parts;
      }
    }

    twostate lemma EdgeReplaced(new i: nat)
      requires i < |edges| && edges == old(edges)
      requires old(EdgesValid(edges)) && edges[i].Valid()
      requires forall j :: 0 <= j < |edges| && edges[j] != edges[i] ==> unchanged(edges[j])
      ensures EdgesValid(edges)
      ensures EdgeViews(edges) == old(EdgeViews(edges))[i := edges[i].View()]
    {
    }

    twostate lemma PendingReplaced(new k: nat)
      requires k < |pendingEncounters| && pendingEncounters == old(pendingEncounters) && PendingValid(pendingEncounters)
      requires forall j :: 0 <= j < |pendingEncounters| && pendingEncounters[j] != pendingEncounters[k] ==> unchanged(pendingEncounters[j])
      ensures PendingViews(pendingEncounters) == old(PendingViews(pendingEncounters))[k := pendingEncounters[k].View()]
    {
    }

    // ---- Map and players ----

    method CreateNode(id: NodeId, kind: NodeKind) returns (ok: bool)
      requires Valid()
      modifies this
      ensures Valid() && fresh(parts - old(parts))
      ensures ok == NodeIndex(old(View()).nodes, id).None?
      ensures View() == if ok then old(View()).(nodes := old(View()).nodes + [NewNode(id, kind)]) else old(View())
    {
      hide NodesValid, EdgesValid, PendingValid, NodeViews, EdgeViews, PendingViews, Objects, Node.Valid, Node.View, NodeIndex;
      var found := FindNode(id);
      if found.Some? {
        return false;
      }
      var node := new Node(id, kind);
      AppendNode(nodes, node);
      ObjectsAppend(nodes, node);
      nodes, parts := nodes + [node], parts + {node, node.unitsA, node.unitsB};
      assert NodeViews(nodes) == old(NodeViews(nodes)) + [NewNode(id, kind)];
      assert EdgeViews(edges) == old(EdgeViews(edges)) && PendingViews(pendingEncounters) == old(PendingViews(pendingEncounters));
      ok := true;
    }

    /** The edge is stored before its end nodes are looked up, so it stays when one is missing. */
    method CreateEdge(from: NodeId, to: NodeId, distance: int) returns (ok: bool)
      requires Valid()
      modifies this
      ensures Valid()
      ensures forall e :: e in edges && e !in old(edges) ==> fresh(e)
      ensures ok == (NodeIndex(old(View()).nodes, from).Some? && NodeIndex(old(View()).nodes, to).Some?)
      ensures View() == old(View()).(edges := PutEdge(old(View()).edges, NewEdge(from, to, distance)))
    {
      hide NodesValid, PendingValid, NodeViews, PendingViews, EdgesValid, EdgeViews, Objects, EdgeIndex, NodeIndex;
      var edge := new Edge(from, to, distance);
      var i := FindEdge(edge.id);
      StoreEdge(edges, if i.Some? then i.value else |edges|, edge);
      edges := if i.Some? then edges[i.value := edge] else edges + [edge];
      var start := FindNode(from);
      var end := FindNode(to);
      ok := start.Some? && end.Some?;
    }

    /** The initial map: none of the names repeats, so nothing is refused or overwritten. */
    method InitializeMap()
      requires Valid() && nodes == [] && edges == []
      modifies this
      ensures Valid() && View() == old(View()).(nodes := InitialNodes(), edges := InitialEdges())
    {
      EdgeCount(edges);
      CreateNodes();
      EdgeCount(edges);
      CreateEdges();
    }

    method CreateNodes()
      requires Valid() && nodes == []
      modifies this
      ensures Valid() && View() == old(View()).(nodes := InitialNodes())
    {
      hide NodesValid, EdgesValid, PendingValid, NodeViews, EdgeViews, PendingViews, Objects, InitialNodes;
      NodeCount(nodes);
      InitialNodeList();
      assert InitialNodes()[..6] == InitialNodes();
      CreateInitialNode(0, 1, OutPost);
      CreateInitialNode(1, 2, Chokepoint);
      CreateInitialNode(2, 3, SupplyLine);
      CreateInitialNode(3, 4, Chokepoint);
      CreateInitialNode(4, 5, OutPost);
      CreateInitialNode(5, 6, Headquarters);
    }

    method CreateEdges()
      requires Valid() && edges == []
      modifies this
      ensures Valid() && View() == old(View()).(edges := InitialEdges())
    {
      hide NodesValid, EdgesValid, PendingValid, NodeViews, EdgeViews, PendingViews, Objects, InitialEdges, NewEdge;
      EdgeCount(edges);
      InitialEdgeList();
      assert InitialEdges()[..12] == InitialEdges();
      CreateInitialEdge(0, 1, 2, 1);
      CreateInitialEdge(1, 1, 4, 2);
      CreateInitialEdge(2, 1, 5, 2);
      CreateInitialEdge(3, 1, 6, 1);
      CreateInitialEdge(4, 2, 3, 2);
      CreateInitialEdge(5, 2, 6, 1);
      CreateInitialEdge(6, 3, 4, 1);
      CreateInitialEdge(7, 3, 5, 1);
      CreateInitialEdge(8, 3, 6, 1);
      CreateInitialEdge(9, 4, 5, 1);
      CreateInitialEdge(10, 4, 6, 1);
      CreateInitialEdge(11, 5, 6, 1);
    }

    method CreateInitialNode(ghost k: nat, id: NodeId, kind: NodeKind)
      requires Valid() && k < |InitialNodes()| && InitialNodes()[k] == NewNode(id, kind)
      requires NodeViews(nodes) == InitialNodes()[..k]
      modifies this
      ensures Valid() && View() == old(View()).(nodes := InitialNodes()[..k + 1])
    {
      hide NodesValid, EdgesValid, PendingValid, NodeViews, EdgeViews, PendingViews, Objects, InitialNodes;
      InitialNodeStep(k);
      var ok := CreateNode(id, kind);
    }

    method CreateInitialEdge(ghost k: nat, from: NodeId, to: NodeId, distance: int)
      requires Valid() && k < |InitialEdges()| && InitialEdges()[k] == NewEdge(from, to, distance)
      requires EdgeViews(edges) == InitialEdges()[..k]
      modifies this
      ensures Valid() && View() == old(View()).(edges := InitialEdges()[..k + 1])
    {
      hide NodesValid, EdgesValid, PendingValid, NodeViews, EdgeViews, PendingViews, Objects, InitialEdges, NodeIndex, PutEdge, NewEdge;
      InitialEdgeStep(k);
      var ok := CreateEdge(from, to, distance);
    }

    method AddPlayer(player: string) returns (r: Result<Side, Error>)
      requires Valid()
      requires forall n :: n in nodes && (n.id == StartNode(A) || n.id == StartNode(B)) ==> n.kind == OutPost
      modifies this, parts
      ensures Valid() && parts == old(parts)
      ensures r.Ok? ==> r.value == NextSide(old(View())) && Rooms.AddPlayer(old(View()), player) == Ok(View())
      ensures r.Err? ==> Rooms.AddPlayer(old(View()), player) == Err(r.error)
      ensures r.Err? && r.error != KeyNotFound ==> View() == old(View())
    {
      hide NodesValid, EdgesValid, PendingValid, NodeViews, EdgeViews, PendingViews, Objects, NodeIndex, Stationed;
      if |players| >= 2 {
        return Err(RoomFull);
      }
      if player in players {
        return Err(AlreadyInRoom);
      }
      var side := if |players| == 0 then A else B;
      players := players + [player];
      var i := FindNode(StartNode(side));
      if i.None? {
        return Err(KeyNotFound);
      }
      PlaceUnits(i.value, side);
      if |players| >= 2 {
        phase := Planning;
        currentRound := 1;
        domainEvents := domainEvents + [GameStarted(players[0], players[1])];
      }
      r := Ok(side);
    }

    method PlaceUnits(i: nat, side: Side)
      requires Valid() && i < |nodes| && nodes[i].kind == OutPost
      modifies parts
      ensures Valid() && |old(NodeViews(nodes))| == |nodes|
      ensures NodeViews(nodes) == old(NodeViews(nodes))[i := Stationed(old(NodeViews(nodes))[i], side, MAX_UNITS)]
    {
      hide NodesValid, EdgesValid, PendingValid, NodeViews, EdgeViews, PendingViews, Objects, Node.Valid, Stationed;
      NodeAt(nodes, i);
      nodes[i].Station(side, MAX_UNITS);
      NodeReplaced(i);
    }

    // ---- Planning ----

    method MoveUnits(side: Side, command: MoveCommand) returns (r: Result<int, Error>)
      requires Valid()
      modifies this`pendingMoves, this`unitUsedThisRound, this`domainEvents
      ensures Valid()
      ensures r.Err? ==> Rooms.MoveUnits(old(View()), side, command) == Err(r.error) && View() == old(View())
      ensures r.Ok? ==> Rooms.MoveUnits(old(View()), side, command) == Ok(View())
      ensures r.Ok? ==> r.value == Min(command.unitCount, Remaining(old(View()), side))
    {
      hide NodesValid, EdgesValid, PendingValid, NodeViews, EdgeViews, PendingViews, Objects, NodeIndex, EdgeIndex, Committed;
      if phase != Planning {
        return Err(WrongPhase);
      }
      if unitUsedThisRound.Get(side) >= MAX_UNITS {
        return Err(AllUnitsMoved);
      }
      var remainingUnits := MAX_UNITS - unitUsedThisRound.Get(side);
      var actualCount := Min(command.unitCount, remainingUnits);
      if actualCount <= 0 {
        return Err(NothingToCommit);
      }
      var path := FindEdge(MakeEdgeId(command.from, command.to));
      if path.None? {
        return Err(NoPath);
      }
      var source := FindNode(command.from);
      if source.None? {
        return Err(KeyNotFound);
      }
      NodeAt(nodes, source.value);
      var alreadyCommitted := Committed(pendingMoves.Get(side), command.from);
      var available := nodes[source.value].Group(side).mobileCount - alreadyCommitted;
      if available < actualCount {
        return Err(NotEnoughUnits);
      }
      pendingMoves := pendingMoves.Set(side, pendingMoves.Get(side) + [PendingMove(command.from, command.to, actualCount)]);
      unitUsedThisRound := unitUsedThisRound.Set(side, unitUsedThisRound.Get(side) + actualCount);
      domainEvents := domainEvents + [UnitsDeparted(side, command.from, actualCount, currentRound)];
      r := Ok(actualCount);
    }

    method ResolveEncounter(edgeId: EdgeId, side: Side, decision: Decision) returns (r: Option<Error>)
      requires Valid()
      modifies this`pendingEncounters, this`domainEvents, edges, pendingEncounters
      ensures Valid() && forall i :: 0 <= i < |pendingEncounters| ==> pendingEncounters[i] in old(pendingEncounters)
      ensures r.Some? ==> Rooms.ResolveEncounter(old(View()), edgeId, side, decision) == Err(r.value) && View() == old(View())
      ensures r.None? ==> Rooms.ResolveEncounter(old(View()), edgeId, side, decision) == Ok(View())
      ensures r.None? && WellFormed(old(View())) ==> Taken(old(View()), View(), edgeId, side, decision)
    {
      hide NodesValid, EdgesValid, PendingValid, NodeViews, EdgeViews, PendingViews, Objects, EdgeIndex, PendingIndex, Edge.Valid, Edge.View, Decide,
        Settled, Encounter.Marked, WellFormed, Taken;
      DecisionTaken(View(), edgeId, side, decision);
      if phase != Planning {
        return Some(WrongPhase);
      }
      var k := FindPending(edgeId);
      if k.None? {
        return Some(NoPendingEncounter);
      }
      PendingAt(pendingEncounters, k.value);
      var pending := pendingEncounters[k.value];
      if pending.HasDecided(side) {
        return Some(AlreadyDecided);
      }
      var i := FindEdge(edgeId);
      if i.None? {
        return Some(KeyNotFound);
      }
      var outcome := CarryOut(i.value, pending, side, decision);
      if outcome.Err? {
        return Some(outcome.error);
      }
      Settle(k.value, side, decision, outcome.value);
      ghost var told := DecisionEvents(old(pending.View()), side, decision, currentRound);
      assert old(domainEvents) + told[..1] + told[1..] == old(domainEvents) + told;
      r := None;
    }

    /** What the decision does on the edge itself. */
    method CarryOut(i: nat, pending: PendingEncounter, side: Side, decision: Decision) returns (r: Result<Outcome, Error>)
      requires Valid() && i < |edges|
      modifies this`domainEvents, edges[i]
      ensures Valid() && |EdgeViews(edges)| == old(|EdgeViews(edges)|) == |edges|
      ensures r.Err? ==> Decide(old(EdgeViews(edges)[i]), pending.View(), side, decision) == Err(r.error) && View() == old(View())
      ensures r.Ok? ==>
                && Decide(old(EdgeViews(edges)[i]), pending.View(), side, decision) == Ok((EdgeViews(edges)[i], r.value))
                && EdgeViews(edges) == old(EdgeViews(edges))[i := EdgeViews(edges)[i]]
                && domainEvents == old(domainEvents) + DecisionEvents(pending.View(), side, decision, currentRound)[..1]
    {
      hide NodesValid, EdgesValid, PendingValid, NodeViews, EdgeViews, PendingViews, Objects, Edge.Valid;
      EdgeAt(edges, i);
      var edge := edges[i];
      var decidingGroup := if pending.groupA.side == side then pending.groupA else pending.groupB;
      if decision == Retreat {
        var back := edge.id.Opposite(decidingGroup.destination);
        if back.None? {
          return Err(NotOnEdge);
        }
        edge.RemoveTravelingGroup(side);
        edge.StartTravel(side, decidingGroup.unitCount, back.value);
        domainEvents := domainEvents + [UnitsRetreated(side, pending.edgeId, decidingGroup.unitCount, currentRound)];
        r := Ok(Outcome(side, back.value, decidingGroup.unitCount, edge.distance));
      } else {
        domainEvents := domainEvents + [UnitsAdvanced(side, pending.edgeId, decidingGroup.unitCount, currentRound)];
        r := Ok(Outcome(side, decidingGroup.destination, decidingGroup.unitCount, pending.remainingRounds));
      }
      EdgeReplaced(i);
    }

    /** The decision is recorded; the encounter leaves the list once both have decided. */
    method Settle(k: nat, side: Side, decision: Decision, outcome: Outcome)
      requires Valid() && k < |pendingEncounters|
      modifies this`pendingEncounters, this`domainEvents, pendingEncounters[k]
      ensures Valid() && forall i :: 0 <= i < |pendingEncounters| ==> pendingEncounters[i] in old(pendingEncounters)
      ensures |old(PendingViews(pendingEncounters))| == |old(pendingEncounters)|
      ensures var p := old(PendingViews(pendingEncounters))[k];
              var marked := p.Marked(side, decision, outcome);
              && PendingViews(pendingEncounters) == Settled(old(PendingViews(pendingEncounters)), k, marked)
              && domainEvents == old(domainEvents) + DecisionEvents(p, side, decision, currentRound)[1..]
                                 + if marked.BothDecided()
                                   then [EncounterResolved(p.edgeId, marked.decisions, marked.outcomes, currentRound)]
                                   else []
    {
      hide NodesValid, EdgesValid, PendingValid, NodeViews, EdgeViews, PendingViews, Objects;
      PendingAt(pendingEncounters, k);
      var pending := pendingEncounters[k];
      pending.MarkDecided(side, decision, outcome);
      PendingReplaced(k);
      var decidingGroup := if pending.groupA.side == side then pending.groupA else pending.groupB;
      domainEvents := domainEvents + [EncounterDecisionMade(side, pending.edgeId, decision, decidingGroup.unitCount, currentRound)];
      if pending.BothDecided() {
        DropPending(pendingEncounters, k);
        pendingEncounters := pendingEncounters[..k] + pendingEncounters[k + 1..];
        domainEvents := domainEvents + [EncounterResolved(pending.edgeId, PerSide(pending.decisionA, pending.decisionB),
                                                          PerSide(pending.outcomeA, pending.outcomeB), currentRound)];
      }
    }

    // ---- Resolution ----

    /** One reserved move: units leave the source node and set out on the edge. */
    method ExecuteMove(side: Side, move: PendingMove) returns (r: Option<Error>)
      requires Valid()
      modifies parts, edges
      ensures Valid()
      ensures r.Some? ==> ExecMove(old(BoardView()), side, move) == Err(r.value)
      ensures r.None? ==> ExecMove(old(BoardView()), side, move) == Ok(BoardView())
    {
      hide NodesValid, EdgesValid, PendingValid, NodeViews, EdgeViews, PendingViews, Objects, NodeIndex, EdgeIndex,
        Node.Valid, Node.View, Edge.Valid, Edge.View, Departed, Started;
      var i := FindNode(move.from);
      if i.None? {
        return Some(KeyNotFound);
      }
      NodeAt(nodes, i.value);
      var moved := nodes[i.value].DepartMobileUnits(side, move.count);
      NodeReplaced(i.value);
      if moved.Err? {
        return Some(moved.error);
      }
      var j := FindEdge(MakeEdgeId(move.from, move.to));
      if j.None? {
        return Some(KeyNotFound);
      }
      EdgeAt(edges, j.value);
      edges[j.value].StartTravel(side, move.count, move.to);
      EdgeReplaced(j.value);
      r := None;
    }

    method ExecuteMoves(side: Side) returns (r: Result<seq<MoveRecord>, Error>)
      requires Valid()
      modifies parts, edges
      ensures Valid()
      ensures r.Err? ==> ExecMoves(old(BoardView()), side, pendingMoves.Get(side)) == Err(r.error)
      ensures r.Ok? ==> ExecMoves(old(BoardView()), side, pendingMoves.Get(side)) == Ok(BoardView())
      ensures r.Ok? ==> r.value == MoveRecords(side, pendingMoves.Get(side))
    {
      hide NodesValid, EdgesValid, PendingValid, NodeViews, EdgeViews, Objects, BoardView, ExecMove, MoveRecords;
      var moves := pendingMoves.Get(side);
      var executed: seq<MoveRecord> := [];
      MoveRecordsStep(side, moves, 0);
      assert moves[0..] == moves;
      for k := 0 to |moves|
        invariant Valid()
        invariant ExecMoves(BoardView(), side, moves[k..]) == ExecMoves(old(BoardView()), side, moves)
        invariant executed == MoveRecords(side, moves[..k])
      {
        assert moves[k..][0] == moves[k] && moves[k..][1..] == moves[k + 1..];
        var failed := ExecuteMove(side, moves[k]);
        if failed.Some? {
          return Err(failed.value);
        }
        executed := executed + [MoveRecord(moves[k].from, moves[k].to, side, moves[k].count)];
        MoveRecordsStep(side, moves, k);
      }
      assert moves[..|moves|] == moves;
      r := Ok(executed);
    }

    method AdvanceEdge(k: nat) returns (arrivals: seq<ArrivalInfo>)
      requires Valid() && k < |edges|
      modifies edges[k]
      ensures Valid() && |old(EdgeViews(edges))| == |edges|
      ensures var e := old(EdgeViews(edges))[k];
              && EdgeViews(edges) == old(EdgeViews(edges))[k := AdvancedEdge(e)]
              && arrivals == AsArrivals(Arrivals(e.traveling), e.id)
    {
      hide NodesValid, EdgesValid, PendingValid, NodeViews, EdgeViews, PendingViews, Objects, Edge.Valid, AsArrivals, Arrivals;
      EdgeAt(edges, k);
      var arrived := edges[k].AdvanceRound();
      EdgeReplaced(k);
      arrivals := ToArrivals(arrived, edges[k].id);
    }

    method ProcessAllEdgeAdvances() returns (arrivals: seq<ArrivalInfo>)
      requires Valid()
      modifies edges
      ensures Valid()
      ensures EdgeViews(edges) == AdvancedEdges(old(EdgeViews(edges)))
      ensures arrivals == EdgeArrivals(old(EdgeViews(edges)))
    {
      hide NodesValid, EdgesValid, PendingValid, NodeViews, EdgeViews, PendingViews, Objects, AdvancedEdges, AsArrivals, Arrivals, AdvancedEdge;
      ghost var before := EdgeViews(edges);
      EdgeCount(edges);
      AdvancingStart(before);
      arrivals := [];
      for k := 0 to |edges|
        invariant Valid()
        invariant EdgeViews(edges) == AdvancedEdges(before[..k]) + before[k..]
        invariant arrivals + EdgeArrivals(before[k..]) == EdgeArrivals(before)
      {
        AdvancingStep(before, k);
        var here := AdvanceEdge(k);
        arrivals := arrivals + here;
      }
      assert before[..|edges|] == before && before[|edges|..] == [];
    }

    static method ToArrivals(groups: seq<TravelingGroup>, via: EdgeId) returns (arrivals: seq<ArrivalInfo>)
      ensures arrivals == AsArrivals(groups, via)
    {
      arrivals := [];
      for j := 0 to |groups|
        invariant arrivals == AsArrivals(groups[..j], via)
      {
        arrivals := arrivals + [ArrivalInfo(groups[j].destination, groups[j].side, groups[j].unitCount, via)];
      }
      assert groups[..|groups|] == groups;
    }

    method FindAllEncounters() returns (encounters: seq<EncounterInfo>)
      requires Valid()
      ensures encounters == AllEncounters(EdgeViews(edges))
    {
      hide EdgesValid, EdgeViews, Encounters, Edge.Valid, NodesValid, Objects;
      ghost var views := EdgeViews(edges);
      EdgeCount(edges);
      assert views[0..] == views;
      encounters := [];
      for k := 0 to |edges|
        invariant encounters + AllEncounters(views[k..]) == AllEncounters(views)
      {
        EdgeAt(edges, k);
        assert views[k..][0] == views[k] && views[k..][1..] == views[k + 1..];
        var here := edges[k].FindAllEncounters();
        encounters := encounters + here;
      }
    }

    static method GetBlockedUnits(encounters: seq<EncounterInfo>) returns (blocked: seq<ArrivalInfo>)
      ensures blocked == Blocked(encounters)
    {
      blocked := [];
      for k := 0 to |encounters|
        invariant blocked + Blocked(encounters[k..]) == Blocked(encounters)
      {
        var enc := encounters[k];
        assert encounters[k..][0] == enc && encounters[k..][1..] == encounters[k + 1..];
        var pair := ToArrivals([enc.groupA, enc.groupB], enc.edgeId);
        blocked := blocked + pair;
      }
    }

    /** One arrival: dropped if its record equals a blocked one. */
    method LandArrival(arrival: ArrivalInfo, blocked: seq<ArrivalInfo>, landed: seq<ArrivalInfo>, changes: seq<OwnershipChange>)
      returns (r: Result<(seq<ArrivalInfo>, seq<OwnershipChange>), Error>)
      requires Valid()
      modifies parts
      ensures Valid()
      ensures r.Err? ==> LandOne(Landing(old(NodeViews(nodes)), landed, changes), arrival, blocked) == Err(r.error)
      ensures r.Ok? ==> LandOne(Landing(old(NodeViews(nodes)), landed, changes), arrival, blocked) ==
                          Ok(Landing(NodeViews(nodes), r.value.0, r.value.1))
    {
      hide NodesValid, EdgesValid, PendingValid, NodeViews, EdgeViews, PendingViews, Objects, NodeIndex, Arrived;
      if arrival in blocked {
        return Ok((landed, changes));
      }
      var i := FindNode(arrival.destination);
      if i.None? {
        return Err(KeyNotFound);
      }
      NodeAt(nodes, i.value);
      var node := nodes[i.value];
      var previousOwnership := node.ownership;
      var ok := node.ArriveMobileUnits(arrival.side, arrival.count);
      NodeReplaced(i.value);
      if !ok {
        return Err(NonPositiveCount);
      }
      var change := if node.ownership == previousOwnership then []
                    else [OwnershipChange(arrival.destination, previousOwnership, node.ownership, node.kind == SupplyLine)];
      r := Ok((landed + [arrival], changes + change));
    }

    method LandArrivals(arrivals: seq<ArrivalInfo>, blocked: seq<ArrivalInfo>)
      returns (r: Result<(seq<ArrivalInfo>, seq<OwnershipChange>), Error>)
      requires Valid()
      modifies parts
      ensures Valid()
      ensures r.Err? ==> Land(Landing(old(NodeViews(nodes)), [], []), arrivals, blocked) == Err(r.error)
      ensures r.Ok? ==> Land(Landing(old(NodeViews(nodes)), [], []), arrivals, blocked) ==
                          Ok(Landing(NodeViews(nodes), r.value.0, r.value.1))
    {
      hide NodesValid, EdgesValid, PendingValid, NodeViews, EdgeViews, PendingViews, Objects, LandOne;
      var landed: seq<ArrivalInfo>, changes: seq<OwnershipChange> := [], [];
      assert arrivals[0..] == arrivals;
      for k := 0 to |arrivals|
        invariant Valid()
        invariant Land(Landing(NodeViews(nodes), landed, changes), arrivals[k..], blocked) ==
                  Land(Landing(old(NodeViews(nodes)), [], []), arrivals, blocked)
      {
        assert arrivals[k..][0] == arrivals[k] && arrivals[k..][1..] == arrivals[k + 1..];
        var next := LandArrival(arrivals[k], blocked, landed, changes);
        if next.Err? {
          return Err(next.error);
        }
        landed, changes := next.value.0, next.value.1;
      }
      r := Ok((landed, changes));
    }

    method RegisterEncounters(encounters: seq<EncounterInfo>)
      requires Valid()
      modifies this`pendingEncounters
      ensures Valid()
      ensures PendingViews(pendingEncounters) == old(PendingViews(pendingEncounters)) + NewPending(encounters)
    {
      hide NodesValid, EdgesValid, PendingValid, NodeViews, EdgeViews, PendingViews, Objects, NewPending;
      ghost var before := PendingViews(pendingEncounters);
      NewPendingStep(encounters, 0);
      assert before + [] == before;
      for k := 0 to |encounters|
        invariant Valid() && forall p :: p in pendingEncounters ==> p in old(pendingEncounters) || fresh(p)
        invariant PendingViews(pendingEncounters) == before + NewPending(encounters[..k])
      {
        var pending := new PendingEncounter(encounters[k]);
        AddPending(pendingEncounters, pending);
        pendingEncounters := pendingEncounters + [pending];
        NewPendingStep(encounters, k);
      }
      assert encounters[..|encounters|] == encounters;
    }

    method ClearDepartureHistories()
      requires Valid()
      modifies parts
      ensures Valid()
      ensures NodeViews(nodes) == HistoryCleared(old(NodeViews(nodes)))
    {
      hide NodesValid, EdgesValid, PendingValid, NodeViews, EdgeViews, PendingViews, Objects, HistoryCleared, Node.Valid;
      ghost var before := NodeViews(nodes);
      NodeCount(nodes);
      ClearingStart(before);
      for k := 0 to |nodes|
        invariant Valid()
        invariant NodeViews(nodes) == HistoryCleared(before[..k]) + before[k..]
      {
        NodeAt(nodes, k);
        ClearingStep(before, k);
        label L:
        nodes[k].ClearDepartureHistory();
        NodeReplaced@L(k);
      }
      assert before[..|nodes|] == before && before[|nodes|..] == [];
    }

    method CountOwnedBy(owner: Ownership) returns (n: nat)
      requires Valid()
      ensures n == CountOwned(NodeViews(nodes), owner)
    {
      hide NodesValid, EdgesValid, NodeViews, Objects;
      ghost var views := NodeViews(nodes);
      NodeCount(nodes);
      assert views[0..] == views;
      n := 0;
      for k := 0 to |nodes|
        invariant n + CountOwned(views[k..], owner) == CountOwned(views, owner)
      {
        NodeAt(nodes, k);
        assert views[k..][0] == views[k] && views[k..][1..] == views[k + 1..];
        if nodes[k].ownership == owner {
          n := n + 1;
        }
      }
    }

    method AllNonHeadquartersOwnedBy(owner: Ownership) returns (all: bool)
      requires Valid()
      ensures all == AllOwnedBy(NodeViews(nodes), owner)
    {
      hide NodesValid, EdgesValid, NodeViews, Objects;
      NodeCount(nodes);
      for k := 0 to |nodes|
        invariant forall i :: 0 <= i < k && NodeViews(nodes)[i].kind != Headquarters ==> NodeViews(nodes)[i].owner == owner
      {
        NodeAt(nodes, k);
        if nodes[k].kind != Headquarters && nodes[k].ownership != owner {
          return false;
        }
      }
      all := true;
    }

    method CheckGameOver() returns (over: bool)
      requires Valid()
      ensures over == Rooms.CheckGameOver(NodeViews(nodes))
    {
      hide NodesValid, EdgesValid, NodeViews, Objects, AllOwnedBy;
      var allPlayerA := AllNonHeadquartersOwnedBy(PlayerA);
      var allPlayerB := AllNonHeadquartersOwnedBy(PlayerB);
      over := allPlayerA || allPlayerB;
    }

    method GetWinner() returns (winner: Option<Side>, scores: PerSide<int>)
      requires Valid()
      ensures winner == Winner(NodeViews(nodes)) && scores == Scores(NodeViews(nodes))
      ensures WonBy(winner, NodeViews(nodes))
      ensures scores.a == |Held(NodeViews(nodes), PlayerA)| && scores.b == |Held(NodeViews(nodes), PlayerB)|
    {
      hide NodesValid, EdgesValid, NodeViews, Objects, CountOwned, WonBy, Held;
      WinnerHoldsMore(NodeViews(nodes));
      var nodesA := CountOwnedBy(PlayerA);
      var nodesB := CountOwnedBy(PlayerB);
      scores := PerSide(nodesA, nodesB);
      if nodesA > nodesB {
        winner := Some(A);
      } else if nodesB > nodesA {
        winner := Some(B);
      } else {
        winner := None;
      }
    }

    method BothDecidedEncounters() returns (resolved: seq<Encounter>)
      requires Valid()
      ensures resolved == BothDecidedOnes(PendingViews(pendingEncounters))
    {
      hide NodesValid, EdgesValid, PendingValid, PendingViews, Objects;
      ghost var views := PendingViews(pendingEncounters);
      PendingCount(pendingEncounters);
      assert views[0..] == views;
      resolved := [];
      for k := 0 to |pendingEncounters|
        invariant resolved + BothDecidedOnes(views[k..]) == BothDecidedOnes(views)
      {
        PendingAt(pendingEncounters, k);
        assert views[k..][0] == views[k] && views[k..][1..] == views[k + 1..];
        var p := pendingEncounters[k];
        if p.BothDecided() {
          resolved := resolved + [Encounter(p.edgeId, p.groupA, p.groupB, p.remainingRounds,
                                            PerSide(p.decisionA, p.decisionB), PerSide(p.outcomeA, p.outcomeB))];
        }
      }
    }

    /** The reserved moves of both sides, A's first. */
    method DispatchMoves() returns (r: Result<seq<MoveRecord>, Error>)
      requires Valid()
      modifies parts, edges
      ensures Valid()
      ensures r.Err? ==> Dispatch(old(View())) == Err(r.error)
      ensures r.Ok? ==> Dispatch(old(View())) == Ok(BoardView())
      ensures r.Ok? ==> r.value == MoveRecords(A, pendingMoves.a) + MoveRecords(B, pendingMoves.b)
    {
      hide NodesValid, EdgesValid, PendingValid, NodeViews, EdgeViews, PendingViews, Objects, ExecMoves, MoveRecords;
      var movesA := ExecuteMoves(A);
      if movesA.Err? {
        return Err(movesA.error);
      }
      var movesB := ExecuteMoves(B);
      if movesB.Err? {
        return Err(movesB.error);
      }
      r := Ok(movesA.value + movesB.value);
    }

    /** Every edge advances; new encounters are registered; unstopped groups arrive. */
    method AdvanceAndLand() returns (r: Result<Landing, Error>, encounters: seq<EncounterInfo>)
      requires Valid()
      modifies this`pendingEncounters, parts, edges
      ensures Valid()
      ensures r.Err? ==> RoundLanding(old(BoardView())) == Err(r.error)
      ensures r.Ok? ==> RoundLanding(old(BoardView())) == Ok(r.value.(nodes := NodeViews(nodes))) && r.value.nodes == []
      ensures EdgeViews(edges) == AdvancedEdges(old(EdgeViews(edges))) && encounters == AllEncounters(EdgeViews(edges))
      ensures PendingViews(pendingEncounters) == old(PendingViews(pendingEncounters)) + NewPending(encounters)
    {
      hide NodesValid, EdgesValid, PendingValid, NodeViews, EdgeViews, PendingViews, Objects,
        AdvancedEdges, AllEncounters, EdgeArrivals, Blocked, Land, NewPending;
      var arrivals := ProcessAllEdgeAdvances();
      encounters := FindAllEncounters();
      RegisterEncounters(encounters);
      var blocked := GetBlockedUnits(encounters);
      var landing := LandArrivals(arrivals, blocked);
      r := if landing.Err? then Err(landing.error) else Ok(Landing([], landing.value.0, landing.value.1));
    }

    /** The whole round. After an error inside it the room is left half resolved. */
    method ResolveRound() returns (r: Option<Error>)
      requires Valid()
      modifies this, parts, edges
      ensures Valid() && nodes == old(nodes) && edges == old(edges) && parts == old(parts)
      ensures old(phase) != Planning ==> r == Some(WrongPhase) && View() == old(View())
      ensures r.Some? ==> Rooms.ResolveRound(old(View())) == Err(r.value)
      ensures r.None? ==> Rooms.ResolveRound(old(View())) == Ok(View())
    {
      hide NodesValid, EdgesValid, PendingValid, NodeViews, EdgeViews, PendingViews, Objects,
        RoundLanding, AdvancedEdges, AllEncounters, NewPending, MoveRecords, Rooms.Conclude, Rooms.ResolveRound, Dispatch;
      if phase != Planning {
        RefusedOutsidePlanning(View());
        return Some(WrongPhase);
      }
      ghost var before := View();
      phase := Resolution;
      domainEvents := [];
      DispatchIgnores(before, View());
      var executed := DispatchMoves();
      if executed.Err? {
        DispatchStops(before, executed.error);
        return Some(executed.error);
      }
      ResolveRoundIs(before, BoardView());
      var landing, encounters := AdvanceAndLand();
      if landing.Err? {
        return Some(landing.error);
      }
      Conclude(executed.value, landing.value.landed, landing.value.changes, encounters, before);
      r := None;
    }

    /** Clean-up, the round's events and the end-of-game test. */
    method Conclude(executed: seq<MoveRecord>, landed: seq<ArrivalInfo>, changes: seq<OwnershipChange>,
                    encounters: seq<EncounterInfo>, ghost was: Room)
      requires Valid() && domainEvents == []
      requires was.maxRounds == maxRounds && was.ownerServer == ownerServer && was.players == players && was.round == currentRound
      requires was.pending + NewPending(encounters) == PendingViews(pendingEncounters)
      requires MoveRecords(A, was.moves.a) + MoveRecords(B, was.moves.b) == executed
      modifies this`phase, this`currentRound, this`pendingMoves, this`unitUsedThisRound, this`domainEvents, parts
      ensures Valid()
      ensures View() == Rooms.Conclude(was, EdgeViews(edges), Landing(old(NodeViews(nodes)), landed, changes), encounters)
    {
      hide NodesValid, EdgesValid, PendingValid, NodeViews, EdgeViews, PendingViews, Objects,
        NewPending, HistoryCleared, MoveRecords, Rooms.CheckGameOver, Winner, Scores, BothDecidedOnes, Rooms.Conclude;
      var resolved := BothDecidedEncounters();
      ClearDepartureHistories();
      pendingMoves := PerSide([], []);
      var completedRound := currentRound;
      currentRound := currentRound + 1;
      unitUsedThisRound := PerSide(0, 0);
      domainEvents := domainEvents + [RoundResolved(completedRound, executed, landed, encounters, changes, resolved)];
      EndOrContinue(completedRound);
      assert NodeViews(nodes) == HistoryCleared(old(NodeViews(nodes)));
      ConcludeIs(was, View(), Landing(old(NodeViews(nodes)), landed, changes), encounters, phase == GameOver);
    }

    method EndOrContinue(completedRound: int)
      requires Valid()
      modifies this`phase, this`domainEvents
      ensures var over := Rooms.CheckGameOver(NodeViews(nodes)) || currentRound > maxRounds;
              && phase == (if over then GameOver else Planning)
              && domainEvents == old(domainEvents) +
                   [if over
                    then GameEnded(Winner(NodeViews(nodes)), if currentRound > maxRounds then MaxRoundsReached else AllNodesCaptured,
                                   completedRound, Scores(NodeViews(nodes)))
                    else RoundStarted(currentRound)]
    {
      hide NodesValid, EdgesValid, PendingValid, NodeViews, Objects, Rooms.CheckGameOver, Winner, Scores;
      var captured := CheckGameOver();
      if captured || currentRound > maxRounds {
        phase := GameOver;
        var winner, scores := GetWinner();
        var reason := if currentRound > maxRounds then MaxRoundsReached else AllNodesCaptured;
        domainEvents := domainEvents + [GameEnded(winner, reason, completedRound, scores)];
      } else {
        phase := Planning;
        domainEvents := domainEvents + [RoundStarted(currentRound)];
      }
    }

    method ForceGameOver(winner: Option<Side>, reason: Reason)
      requires Valid()
      modifies this`phase, this`domainEvents
      ensures Valid()
      ensures View() == Rooms.ForceGameOver(old(View()), winner, reason)
    {
      hide NodesValid, EdgesValid, PendingValid, NodeViews, EdgeViews, PendingViews, Objects, Scores, Winner;
      phase := GameOver;
      var _, scores := GetWinner();
      domainEvents := domainEvents + [GameEnded(winner, reason, currentRound, scores)];
    }

    method AssignOwner(serverId: string)
      requires Valid()
      modifies this`ownerServer
      ensures Valid()
      ensures View() == Rooms.AssignOwner(old(View()), serverId)
    {
      hide NodesValid, EdgesValid, PendingValid, NodeViews, EdgeViews, PendingViews, Objects;
      ownerServer := Some(serverId);
    }

    method FlushDomainEvents() returns (events: seq<Event>)
      requires Valid()
      modifies this`domainEvents
      ensures Valid()
      ensures View() == Flushed(old(View())) && events == old(View()).events
    {
      hide NodesValid, EdgesValid, PendingValid, NodeViews, EdgeViews, PendingViews, Objects;
      events := domainEvents;
      domainEvents := [];
    }

    // ---- Queries ----

    function GetUndecidedEncounters(side: Side): seq<PendingEncounter>
      reads this, pendingEncounters
    {
      UndecidedOf(pendingEncounters, side)
    }

    predicate IsReadyForResolution()
      reads this, pendingEncounters
    {
      phase == Planning && forall p :: p in pendingEncounters ==> p.BothDecided()
    }

    function GetRemainingUnits(side: Side): int
      reads this
    {
      MAX_UNITS - unitUsedThisRound.Get(side)
    }

    lemma ViewFields()
      ensures View().phase == phase && View().round == currentRound && View().used == unitUsedThisRound
    {
      hide NodeViews, EdgeViews, PendingViews, Objects;
    }

    /** What the queries say, on the room as a value. */
    lemma QueriesAgree(side: Side)
      requires Valid()
      ensures View().phase == phase && View().round == currentRound
      ensures PendingViews(GetUndecidedEncounters(side)) == Undecided(View().pending, side)
      ensures IsReadyForResolution() == Rooms.IsReadyForResolution(View())
      ensures GetRemainingUnits(side) == Remaining(View(), side)
      ensures MobileSum(nodes, side) == NodeMobile(View().nodes, side)
    {
      hide NodesValid, EdgesValid, PendingValid, NodeViews, EdgeViews, PendingViews, Objects;
      UndecidedViews(pendingEncounters, side);
      MobileViews(nodes, side);
      PendingCount(pendingEncounters);
      forall k | 0 <= k < |pendingEncounters| ensures pendingEncounters[k].BothDecided() == View().pending[k].BothDecided() {
        PendingAt(pendingEncounters, k);
      }
    }
  }
}
