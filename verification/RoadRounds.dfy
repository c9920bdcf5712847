/** Rounds in which all traffic is on one road: nodes off the road stay as they are, and what the
    round does is worked out on the road alone. Then the opening of a game on the map the code draws,
    and what an order and a timeout do there. */
module RoadRounds {
  import opened HexTypes
  import opened Nodes
  import opened Edges
  import opened Rooms
  import opened RoomWellFormed
  import opened RoomLedger
  import opened EncounterInvariant
  import opened SessionWorld

  // ---- A round with all traffic on one road ----

  predicate Silent(es: seq<EdgeState>) {
    forall i :: 0 <= i < |es| ==> es[i].traveling == []
  }

  predicate OnlyRoad(es: seq<EdgeState>, j: nat) {
    j < |es| && forall i :: 0 <= i < |es| && i != j ==> es[i].traveling == []
  }

  lemma {:induction false} NoTraffic(es: seq<EdgeState>, side: Side)
    requires Silent(es)
    ensures EdgeArrivals(es) == [] && AllEncounters(es) == [] && EdgeTravel(es, side) == 0
  {
    if es != [] {
      NoTraffic(es[1..], side);
    }
  }

  lemma {:induction false} OneRoad(es: seq<EdgeState>, j: nat, side: Side)
    requires OnlyRoad(es, j)
    ensures EdgeArrivals(es) == AsArrivals(Arrivals(es[j].traveling), es[j].id)
    ensures AllEncounters(es) == Encounters(es[j].id, es[j].traveling)
    ensures EdgeTravel(es, side) == CountOn(es[j].traveling, side)
  {
    hide Arrivals, Encounters, CountOn;
    if j == 0 {
      NoTraffic(es[1..], side);
    } else {
      EmptyEdge(es[0].id, side);
      OneRoad(es[1..], j - 1, side);
      assert es[1..][j - 1] == es[j];
    }
  }

  lemma EmptyEdge(id: EdgeId, side: Side)
    ensures AsArrivals(Arrivals([]), id) == [] && Encounters(id, []) == [] && CountOn([], side) == 0
  {
  }

  lemma RoadAdvances(es: seq<EdgeState>, j: nat)
    requires OnlyRoad(es, j)
    ensures AdvancedEdges(es) == es[j := AdvancedEdge(es[j])]
    ensures OnlyRoad(AdvancedEdges(es), j)
  {
  }

  predicate Along(id: EdgeId, ms: seq<PendingMove>) {
    forall k :: 0 <= k < |ms| ==> MakeEdgeId(ms[k].from, ms[k].to) == id
  }

  /** The road once the moves are under way. */
  function StartAll(e: EdgeState, side: Side, ms: seq<PendingMove>): EdgeState
    decreases |ms|
  {
    if ms == [] then e else StartAll(Started(e, side, ms[0].count, ms[0].to), side, ms[1..])
  }

  /** Nodes off the road stay as they are. */
  predicate OffRoadSame(id: EdgeId, ns: seq<NodeState>, ms: seq<NodeState>) {
    |ns| == |ms| && forall i :: 0 <= i < |ns| && !id.Touches(ns[i].id) ==> ms[i] == ns[i]
  }

  lemma {:induction false} MovesAlong(b: Board, side: Side, ms: seq<PendingMove>, j: nat)
    requires BoardOk(b) && ReservedOk(b, side, ms) && j < |b.edges| && Along(b.edges[j].id, ms)
    ensures ExecMoves(b, side, ms).Ok?
    ensures ExecMoves(b, side, ms).value.edges == b.edges[j := StartAll(b.edges[j], side, ms)]
    ensures OffRoadSame(b.edges[j].id, b.nodes, ExecMoves(b, side, ms).value.nodes)
    decreases |ms|
  {
    if ms != [] {
      hide BoardOk, ReservedOk, ExecMove;
      MovedAlong(b, side, ms, j);
      var c := ExecMove(b, side, ms[0]).value;
      ExecMoveOk(b, side, ms);
      ExecMoveReserved(b, c, side, ms);
      assert forall k :: 0 <= k < |ms[1..]| ==> ms[1..][k] == ms[k + 1];
      MovesAlong(c, side, ms[1..], j);
      Replaced(b.edges, j, c.edges[j], StartAll(c.edges[j], side, ms[1..]));
      assert SameIds(b.nodes, c.nodes);
    }
  }

  lemma Replaced<T>(s: seq<T>, j: nat, x: T, y: T)
    requires j < |s|
    ensures s[j := x][j := y] == s[j := y]
  {
  }

  lemma MovedAlong(b: Board, side: Side, ms: seq<PendingMove>, j: nat)
    requires BoardOk(b) && ReservedOk(b, side, ms) && ms != [] && j < |b.edges| && Along(b.edges[j].id, ms)
    ensures ExecMove(b, side, ms[0]).Ok?
    ensures var c := ExecMove(b, side, ms[0]).value;
            && c.edges == b.edges[j := Started(b.edges[j], side, ms[0].count, ms[0].to)]
            && OffRoadSame(b.edges[j].id, b.nodes, c.nodes)
  {
    ExecMoveExact(b, side, ms);
    EdgeAt(b.edges, j);
    EdgeIdIsUndirected(ms[0].from, ms[0].to, ms[0].from, ms[0].to);
  }

  lemma {:induction false} LandsAlong(l: Landing, arrivals: seq<ArrivalInfo>, blocked: seq<ArrivalInfo>, id: EdgeId)
    requires Land(l, arrivals, blocked).Ok? && forall a :: a in arrivals ==> id.Touches(a.destination)
    ensures OffRoadSame(id, l.nodes, Land(l, arrivals, blocked).value.nodes)
    decreases |arrivals|
  {
    if arrivals != [] {
      assert arrivals[0] in arrivals && forall a :: a in arrivals[1..] ==> a in arrivals;
      var next := LandOne(l, arrivals[0], blocked).value;
      LandsAlong(next, arrivals[1..], blocked, id);
      assert forall i :: 0 <= i < |l.nodes| ==> next.nodes[i].id == l.nodes[i].id;
    }
  }

  predicate RoadRoom(r: Room, j: nat) {
    && WellFormed(r) && r.phase == Planning && r.round < MAX_ROUNDS
    && OnlyRoad(r.edges, j)
    && Along(r.edges[j].id, r.moves.a) && Along(r.edges[j].id, r.moves.b)
  }

  /** The road with this round's moves on it, before it advances. */
  function Sent(r: Room, j: nat): EdgeState
    requires j < |r.edges|
  {
    StartAll(StartAll(r.edges[j], A, r.moves.a), B, r.moves.b)
  }

  /** A node nobody owns, off the road: it keeps the game going. */
  predicate Bystander(r: Room, j: nat, t: nat) {
    && j < |r.edges| && t < |r.nodes|
    && r.nodes[t].owner == Neutral && r.nodes[t].kind != Headquarters && !r.edges[j].id.Touches(r.nodes[t].id)
  }

  lemma {:induction false} StartAllName(e: EdgeState, side: Side, ms: seq<PendingMove>)
    ensures StartAll(e, side, ms).id == e.id
    decreases |ms|
  {
    if ms != [] {
      StartAllName(Started(e, side, ms[0].count, ms[0].to), side, ms[1..]);
    }
  }

  /** What sending one side's moves along the road leaves behind. */
  predicate RoadMoved(b: Board, c: Board, j: nat, e: EdgeState) {
    && BoardOk(c) && SameIds(b.nodes, c.nodes) && SameEdges(b.edges, c.edges)
    && j < |b.edges| && c.edges == b.edges[j := e] && e.id == b.edges[j].id
    && OffRoadSame(e.id, b.nodes, c.nodes)
  }

  /** Every node has given up what was reserved there. */
  predicate Spent(ns: seq<NodeState>, after: seq<NodeState>, side: Side, ms: seq<PendingMove>) {
    |ns| == |after| &&
    forall i :: 0 <= i < |ns| ==> Mobile(after[i], side) == Mobile(ns[i], side) - Committed(ms, ns[i].id)
  }

  lemma SideSent(b: Board, side: Side, ms: seq<PendingMove>, j: nat)
    requires BoardOk(b) && ReservedOk(b, side, ms) && j < |b.edges| && Along(b.edges[j].id, ms)
    ensures ExecMoves(b, side, ms).Ok?
    ensures var c := ExecMoves(b, side, ms).value;
            && RoadMoved(b, c, j, StartAll(b.edges[j], side, ms))
            && Spent(b.nodes, c.nodes, side, ms) && Spent(b.nodes, c.nodes, side.Other(), [])
  {
    hide BoardOk, ReservedOk, ExecMoves, Mobile;
    MovesAlong(b, side, ms, j);
    ExecMovesOk(b, side, ms);
    StartAllName(b.edges[j], side, ms);
  }

  lemma SecondSide(b: Board, c: Board, side: Side, ms: seq<PendingMove>, j: nat, e: EdgeState, first: seq<PendingMove>)
    requires RoadMoved(b, c, j, e) && ReservedOk(b, side, ms) && Along(b.edges[j].id, ms)
    requires Spent(b.nodes, c.nodes, side, []) && Spent(b.nodes, c.nodes, side.Other(), first)
    ensures ExecMoves(c, side, ms).Ok?
    ensures var d := ExecMoves(c, side, ms).value;
            && RoadMoved(b, d, j, StartAll(e, side, ms))
            && Spent(b.nodes, d.nodes, side, ms) && Spent(b.nodes, d.nodes, side.Other(), first)
  {
    hide BoardOk, ReservedOk, ExecMoves, Mobile, SameEdge;
    ReservedCarries(b, c, side, ms);
    SideSent(c, side, ms, j);
    SameTrans(b, c, ExecMoves(c, side, ms).value);
  }

  lemma RoadDispatch(r: Room, j: nat)
    requires RoadRoom(r, j)
    ensures Dispatch(r).Ok?
    ensures RoadMoved(Board(r.nodes, r.edges), Dispatch(r).value, j, Sent(r, j))
    ensures Spent(r.nodes, Dispatch(r).value.nodes, A, r.moves.a) && Spent(r.nodes, Dispatch(r).value.nodes, B, r.moves.b)
  {
    var b := Board(r.nodes, r.edges);
    assert SideOk(r, A) && SideOk(r, B);
    hide BoardOk, ReservedOk, ExecMoves, Mobile, RoadMoved, Spent;
    SideSent(b, A, r.moves.a, j);
    SecondSide(b, ExecMoves(b, A, r.moves.a).value, B, r.moves.b, j, StartAll(r.edges[j], A, r.moves.a), r.moves.a);
  }

  /** The landing of the arrivals the road hands out. */
  lemma RoadLanding(b: Board, j: nat)
    requires BoardOk(b) && OnlyRoad(b.edges, j)
    ensures RoundLanding(b).Ok?
    ensures SameIds(b.nodes, RoundLanding(b).value.nodes)
    ensures OffRoadSame(b.edges[j].id, b.nodes, RoundLanding(b).value.nodes)
    ensures Arrivals(b.edges[j].traveling) == [] ==> RoundLanding(b).value.nodes == b.nodes
  {
    var e := b.edges[j];
    EdgeArrivalsOk(b.nodes, b.edges);
    LandOk(Landing(b.nodes, [], []), EdgeArrivals(b.edges), RoundBlocked(b));
    OneRoad(b.edges, j, A);
    AdvancedOk(e);
    var xs := AsArrivals(Arrivals(e.traveling), e.id);
    forall a | a in xs ensures e.id.Touches(a.destination) {
      var k :| 0 <= k < |xs| && xs[k] == a;
      assert GroupOk(e.id, Arrivals(e.traveling)[k]);
    }
    LandsAlong(Landing(b.nodes, [], []), xs, RoundBlocked(b), e.id);
  }

  /** The room one round later, when the road stood as `e` before it advanced. */
  predicate RoundLater(r: Room, next: Room, j: nat, e: EdgeState) {
    && next.phase == Planning && next.round == r.round + 1 && next.used == PerSide(0, 0) && next.moves == PerSide([], [])
    && j < |r.edges| && next.edges == r.edges[j := AdvancedEdge(e)]
    && next.pending == r.pending + NewPending(Encounters(e.id, Advanced(e.traveling)))
    && SameIds(r.nodes, next.nodes)
    && (forall i :: 0 <= i < |r.nodes| && !e.id.Touches(r.nodes[i].id) ==> next.nodes[i] == r.nodes[i].(recent := []))
  }

  /** A round on one road. */
  lemma RoadRound(r: Room, j: nat, t: nat)
    requires RoadRoom(r, j) && Bystander(r, j, t)
    ensures ResolveRound(r).Ok? && RoundLater(r, ResolveRound(r).value, j, Sent(r, j))
    ensures SameEdge(r.edges[j], Sent(r, j))
  {
    assert r.maxRounds == MAX_ROUNDS;
    RoadDispatch(r, j);
    var b, e := Dispatch(r).value, Sent(r, j);
    RoadEdges(r, b, j, e);
    RoadLanding(b, j);
    hide WellFormed, BoardOk, Dispatch, RoundLanding, ResolveRound, AllEncounters, AdvancedEdges, Encounters, Sent, Mobile,
      RoundLater, OnlyRoad, Along;
    SentSame(r, b, j, e);
    RoadConclusion(r, j, t, b, RoundLanding(b).value, e);
  }

  lemma SentSame(r: Room, b: Board, j: nat, e: EdgeState)
    requires RoadMoved(Board(r.nodes, r.edges), b, j, e)
    ensures SameEdge(r.edges[j], e)
  {
    hide BoardOk;
    assert SameEdge(r.edges[j], b.edges[j]);
  }

  lemma RoadEdges(r: Room, b: Board, j: nat, e: EdgeState)
    requires OnlyRoad(r.edges, j) && RoadMoved(Board(r.nodes, r.edges), b, j, e)
    ensures OnlyRoad(b.edges, j)
    ensures AdvancedEdges(b.edges) == r.edges[j := AdvancedEdge(e)]
    ensures AllEncounters(AdvancedEdges(b.edges)) == Encounters(e.id, Advanced(e.traveling))
  {
    hide BoardOk, AllEncounters, AdvancedEdges;
    RoadAdvances(b.edges, j);
    OneRoad(AdvancedEdges(b.edges), j, A);
  }

  lemma RoadConclusion(r: Room, j: nat, t: nat, b: Board, l: Landing, e: EdgeState)
    requires r.phase == Planning && r.maxRounds == MAX_ROUNDS && r.round < MAX_ROUNDS && Bystander(r, j, t)
    requires Dispatch(r) == Ok(b) && RoundLanding(b) == Ok(l) && e.id == r.edges[j].id
    requires AdvancedEdges(b.edges) == r.edges[j := AdvancedEdge(e)]
    requires AllEncounters(AdvancedEdges(b.edges)) == Encounters(e.id, Advanced(e.traveling))
    requires SameIds(r.nodes, b.nodes) && SameIds(b.nodes, l.nodes)
    requires OffRoadSame(e.id, r.nodes, b.nodes) && OffRoadSame(e.id, b.nodes, l.nodes)
    ensures ResolveRound(r).Ok? && RoundLater(r, ResolveRound(r).value, j, e)
  {
    hide Dispatch, RoundLanding, AllEncounters, AdvancedEdges, Encounters;
    var next := ResolveRound(r).value;
    assert next.nodes[t].owner == Neutral && next.nodes[t].kind == r.nodes[t].kind;
    assert !AllOwnedBy(next.nodes, PlayerA) && !AllOwnedBy(next.nodes, PlayerB);
  }

  /** If nobody arrives, what leaves a node is what was reserved there. */
  lemma QuietRound(r: Room, j: nat, i: nat, side: Side)
    requires RoadRoom(r, j) && Arrivals(Sent(r, j).traveling) == [] && i < |r.nodes|
    ensures ResolveRound(r).Ok? && i < |ResolveRound(r).value.nodes|
    ensures Mobile(ResolveRound(r).value.nodes[i], side) == Mobile(r.nodes[i], side) - Committed(r.moves.Get(side), r.nodes[i].id)
  {
    RoadDispatch(r, j);
    hide WellFormed, BoardOk, Dispatch, RoundLanding, ResolveRound, AllEncounters, AdvancedEdges, Sent, Mobile;
    var b := Dispatch(r).value;
    RoadLanding(b, j);
    ConcludedNodes(r, b, RoundLanding(b).value);
    ClearedSame(b.nodes, i, side);
  }

  lemma ConcludedNodes(r: Room, b: Board, l: Landing)
    requires r.phase == Planning && Dispatch(r) == Ok(b) && RoundLanding(b) == Ok(l)
    ensures ResolveRound(r).Ok? && ResolveRound(r).value.nodes == HistoryCleared(l.nodes)
  {
    hide Dispatch, RoundLanding, AllEncounters, AdvancedEdges;
  }

  lemma ClearedSame(ns: seq<NodeState>, i: nat, side: Side)
    requires i < |ns|
    ensures Mobile(HistoryCleared(ns)[i], side) == Mobile(ns[i], side)
  {
  }

  /** What a round on one road drops. */
  lemma RoadLedger(r: Room, j: nat, side: Side)
    requires RoadRoom(r, j)
    ensures ResolveRound(r).Ok?
    ensures var e := Sent(r, j);
            Total(ResolveRound(r).value, side) == Total(r, side)
              - DroppedCount(AsArrivals(Arrivals(e.traveling), e.id), Blocked(Encounters(e.id, Advanced(e.traveling))), side)
  {
    RoadDispatch(r, j);
    RoundConservation(r, side);
    hide WellFormed, BoardOk, Dispatch, RoundLanding, ResolveRound, Total, AllEncounters, AdvancedEdges, EdgeArrivals;
    var b := Dispatch(r).value;
    RoadAdvances(b.edges, j);
    OneRoad(b.edges, j, side);
    OneRoad(AdvancedEdges(b.edges), j, side);
  }

  lemma {:induction false} NothingDropped(xs: seq<ArrivalInfo>, side: Side)
    ensures DroppedCount(xs, [], side) == 0
  {
    if xs != [] {
      NothingDropped(xs[1..], side);
    }
  }

  // ---- The opening ----

  function BothJoined(): seq<Step> {
    [Join("p"), Join("q")]
  }

  /** The initial map with both players' units on it. */
  function OpeningNodes(): seq<NodeState> {
    InitialNodes()[0 := Stationed(InitialNodes()[0], A, MAX_UNITS)][4 := Stationed(InitialNodes()[4], B, MAX_UNITS)]
  }

  /** A room on the code's map, planning its first rounds; node 4 still belongs to nobody. */
  predicate OnTheMap(r: Room) {
    && SessionOk(r) && r.phase == Planning && r.round < MAX_ROUNDS
    && SameIds(InitialNodes(), r.nodes) && SameEdges(InitialEdges(), r.edges)
    && r.nodes[3].owner == Neutral
  }

  lemma Places(r: Room)
    requires OnTheMap(r)
    ensures |r.nodes| == 6 && |r.edges| == 12
    ensures r.nodes[0].id == 1 && r.nodes[1].id == 2 && r.nodes[3].id == 4 && r.nodes[4].id == 5
    ensures r.edges[0].id == EdgeId(1, 2) && r.edges[0].distance == 1
    ensures r.edges[2].id == EdgeId(1, 5) && r.edges[2].distance == 2
    ensures r.edges[9].id == EdgeId(4, 5) && r.edges[9].distance == 1
  {
    hide SessionOk;
    assert SameEdge(InitialEdges()[0], r.edges[0]) && SameEdge(InitialEdges()[2], r.edges[2]);
    assert SameEdge(InitialEdges()[9], r.edges[9]);
  }

  function Joined(r: Room, player: string, i: nat): Room
    requires i < |r.nodes|
  {
    var seated := r.(players := r.players + [player], nodes := r.nodes[i := Stationed(r.nodes[i], NextSide(r), MAX_UNITS)]);
    if |r.players| == 0 then seated else seated.(phase := Planning, round := 1)
  }

  lemma JoinDone(w: World, player: string, i: nat)
    requires |w.room.players| < 2 && player !in w.room.players && w.room.events == []
    requires NodeIndex(w.room.nodes, StartNode(NextSide(w.room))) == Some(i)
    ensures Do(w, Join(player)).room == Joined(w.room, player, i)
    ensures Do(w, Join(player)).flags == w.flags && Do(w, Join(player)).completed == w.completed
  {
    hide NodeIndex, Stationed;
  }

  lemma OpeningRun(owner: ServerId)
    ensures var w := Run(Start(owner), BothJoined());
            && w.room == InitialRoom().(ownerServer := Some(owner), nodes := OpeningNodes(), players := ["p", "q"],
                                        phase := Planning, round := 1)
            && w.flags == map[] && w.completed == []
  {
    var w0 := Start(owner);
    StartPlaces();
    hide NodeIndex, Do, InitialNodes, InitialEdges, Stationed, Run;
    JoinDone(w0, "p", 0);
    var w1 := Do(w0, Join("p"));
    assert "p"[0] != "q"[0] && ["p"] + ["q"] == ["p", "q"] && [] + ["p"] == ["p"];
    JoinDone(w1, "q", 4);
    RunTwo(w0, Join("p"), Join("q"));
  }

  lemma StartPlaces()
    ensures |InitialNodes()| == 6 && NodeIndex(InitialNodes(), 1) == Some(0)
    ensures NodeIndex(InitialNodes()[0 := Stationed(InitialNodes()[0], A, MAX_UNITS)], 5) == Some(4)
    ensures Stationed(InitialNodes()[4], B, MAX_UNITS) == Stationed(InitialNodes()[0 := Stationed(InitialNodes()[0], A, MAX_UNITS)][4], B, MAX_UNITS)
  {
    NodePresent(InitialNodes(), 0);
    NodePresent(InitialNodes()[0 := Stationed(InitialNodes()[0], A, MAX_UNITS)], 4);
  }

  lemma RunTwo(w: World, a: Step, b: Step)
    ensures Run(w, [a, b]) == Do(Do(w, a), b)
  {
    hide Do;
    assert [a, b][1..] == [b] && [b][1..] == [];
    assert Run(Do(w, a), [b]) == Run(Do(Do(w, a), b), []);
  }

  lemma OpeningNodesAre()
    ensures SameIds(InitialNodes(), OpeningNodes()) && OpeningNodes()[3].owner == Neutral
    ensures Mobile(OpeningNodes()[0], A) == 3 && Mobile(OpeningNodes()[4], B) == 3
  {
  }

  lemma EdgesAreThemselves(es: seq<EdgeState>)
    ensures SameEdges(es, es)
  {
  }

  lemma OpeningOk(owner: ServerId)
    ensures var w := Run(Start(owner), BothJoined());
            && WorldOk(w) && OnTheMap(w.room) && Silent(w.room.edges)
            && Mobile(w.room.nodes[0], A) == 3 && Mobile(w.room.nodes[4], B) == 3
            && w.room.round == 1 && w.room.used == PerSide(0, 0) && w.room.moves == PerSide([], []) && w.room.pending == []
            && w.flags == map[] && w.completed == []
  {
    OpeningRun(owner);
    OpeningNodesAre();
    InitialShort();
    EdgesAreThemselves(InitialEdges());
    hide SessionOk, Run, Start, InitialNodes, InitialEdges, OpeningNodes, SameIds, SameEdges;
    Reachable(owner, BothJoined());
  }

  // ---- Steps of a run on the map ----

  lemma {:induction false} RunJoin(w: World, first: seq<Step>, second: seq<Step>)
    ensures Run(w, first + second) == Run(Run(w, first), second)
    decreases |first|
  {
    hide Do;
    if first == [] {
      assert [] + second == second;
    } else {
      assert (first + second)[1..] == first[1..] + second;
      RunJoin(Do(w, first[0]), first[1..], second);
    }
  }

  /** An order that nothing stands against is reserved in full. */
  lemma Ordered(w: World, s: ServerId, side: Side, cmd: MoveCommand, i: nat, j: nat)
    requires WorldOk(w) && w.room.phase == Planning && 0 < cmd.unitCount <= Remaining(w.room, side)
    requires i < |w.room.nodes| && w.room.nodes[i].id == cmd.from
    requires j < |w.room.edges| && w.room.edges[j].id == MakeEdgeId(cmd.from, cmd.to)
    requires Mobile(w.room.nodes[i], side) - Committed(w.room.moves.Get(side), cmd.from) >= cmd.unitCount
    ensures Do(w, Move(s, side, cmd)) == Reserved(w, s, side, cmd) && WorldOk(Reserved(w, s, side, cmd))
  {
    hide WorldOk, Do, Reserved;
    StepOk(w, Move(s, side, cmd));
    OrderedWorld(w);
    NodeAtIndex(w.room, i);
    EdgeAt(w.room.edges, j);
    OrderReserves(w, s, side, cmd, i, j);
  }

  function Reserved(w: World, s: ServerId, side: Side, cmd: MoveCommand): World {
    var room := w.room.(
      moves := w.room.moves.Set(side, w.room.moves.Get(side) + [PendingMove(cmd.from, cmd.to, cmd.unitCount)]),
      used := w.room.used.Set(side, w.room.used.Get(side) + cmd.unitCount));
    w.(room := room,
       flags := w.flags[s := FlagsOf(w.flags, s).Set(side, Remaining(room, side) <= 0)],
       published := w.published + [UnitsDeparted(side, cmd.from, cmd.unitCount, w.room.round)])
  }

  lemma OrderedWorld(w: World)
    requires WorldOk(w)
    ensures WellFormed(w.room) && DistinctEdges(w.room.edges) && w.room.events == []
  {
  }

  lemma OrderReserves(w: World, s: ServerId, side: Side, cmd: MoveCommand, i: nat, j: nat)
    requires w.room.phase == Planning && w.room.events == [] && 0 < cmd.unitCount <= Remaining(w.room, side)
    requires NodeIndex(w.room.nodes, cmd.from) == Some(i) && EdgeIndex(w.room.edges, MakeEdgeId(cmd.from, cmd.to)) == Some(j)
    requires Mobile(w.room.nodes[i], side) - Committed(w.room.moves.Get(side), cmd.from) >= cmd.unitCount
    ensures Do(w, Move(s, side, cmd)) == Reserved(w, s, side, cmd)
  {
    hide NodeIndex, EdgeIndex, Committed;
  }

  lemma NodeAtIndex(r: Room, i: nat)
    requires WellFormed(r) && i < |r.nodes|
    ensures NodeIndex(r.nodes, r.nodes[i].id) == Some(i)
  {
    NodePresent(r.nodes, i);
  }

  /** A timeout with nothing pending resolves the room as it is. */
  lemma TimedOut(w: World, s: ServerId)
    requires WorldOk(w) && w.room.phase == Planning && w.room.pending == []
    ensures ResolveRound(w.room).Ok?
    ensures var next := Do(w, PrimaryTimeout(s, w.room.round));
            && next.room == Flushed(ResolveRound(w.room).value)
            && next.flags == w.flags[s := NO_FLAGS] && next.completed == w.completed + [w.room.round]
            && WorldOk(next)
  {
    hide WorldOk, Do, ResolveRound, WellFormed;
    StepOk(w, PrimaryTimeout(s, w.room.round));
    OrderedWorld(w);
    ResolveRoundOk(w.room);
    TimeoutResolves(w, s);
  }

  lemma TimeoutResolves(w: World, s: ServerId)
    requires w.room.phase == Planning && w.room.pending == [] && ResolveRound(w.room).Ok?
    ensures var next := Do(w, PrimaryTimeout(s, w.room.round));
            && next.room == Flushed(ResolveRound(w.room).value)
            && next.flags == w.flags[s := NO_FLAGS] && next.completed == w.completed + [w.room.round]
  {
    hide ResolveRound;
    assert Sweep(w.room) == Ok(w.room);
  }

  /** A world on the map with all traffic on one road and nothing pending. */
  predicate Scene(w: World, j: nat) {
    WorldOk(w) && OnTheMap(w.room) && OnlyRoad(w.room.edges, j) && w.room.pending == []
  }

  lemma OrderStep(w: World, s: ServerId, side: Side, cmd: MoveCommand, i: nat, j: nat, road: nat)
    requires Scene(w, road) && 0 < cmd.unitCount <= Remaining(w.room, side)
    requires i < |w.room.nodes| && w.room.nodes[i].id == cmd.from
    requires j < |w.room.edges| && w.room.edges[j].id == MakeEdgeId(cmd.from, cmd.to)
    requires Mobile(w.room.nodes[i], side) - Committed(w.room.moves.Get(side), cmd.from) >= cmd.unitCount
    ensures Do(w, Move(s, side, cmd)) == Reserved(w, s, side, cmd) && Scene(Reserved(w, s, side, cmd), road)
  {
    hide SessionOk, RoundsOk, Do, SameIds, SameEdges, Total, StartsPresent;
    Ordered(w, s, side, cmd, i, j);
  }

  lemma SceneRoad(w: World, j: nat)
    requires Scene(w, j) && Along(w.room.edges[j].id, w.room.moves.a) && Along(w.room.edges[j].id, w.room.moves.b)
    ensures RoadRoom(w.room, j)
  {
  }

  /** A timeout of a scene in which nobody meets on the road. */
  lemma RoundStep(w: World, s: ServerId, j: nat)
    requires Scene(w, j) && w.room.round + 1 < MAX_ROUNDS
    requires Along(w.room.edges[j].id, w.room.moves.a) && Along(w.room.edges[j].id, w.room.moves.b)
    requires |w.room.nodes| > 3 && !w.room.edges[j].id.Touches(w.room.nodes[3].id) && w.room.nodes[3].kind != Headquarters
    requires Encounters(Sent(w.room, j).id, Advanced(Sent(w.room, j).traveling)) == []
    ensures ResolveRound(w.room).Ok? && RoundLater(w.room, ResolveRound(w.room).value, j, Sent(w.room, j))
    ensures var next := Do(w, PrimaryTimeout(s, w.room.round));
            && Scene(next, j) && next.room == Flushed(ResolveRound(w.room).value)
            && next.flags == w.flags[s := NO_FLAGS] && next.completed == w.completed + [w.room.round]
  {
    SceneRoad(w, j);
    hide ResolveRound, Do, WorldOk, Encounters, Advanced, Sent;
    TimedOut(w, s);
    RoadRound(w.room, j, 3);
    WorldSession(Do(w, PrimaryTimeout(s, w.room.round)));
    StillOnTheMap(w.room, ResolveRound(w.room).value, j, Sent(w.room, j));
  }

  lemma WorldSession(w: World)
    requires WorldOk(w)
    ensures SessionOk(w.room)
  {
  }

  lemma StillOnTheMap(r: Room, next: Room, j: nat, e: EdgeState)
    requires OnTheMap(r) && OnlyRoad(r.edges, j) && r.pending == [] && RoundLater(r, next, j, e) && e.id == r.edges[j].id
    requires SessionOk(Flushed(next)) && next.round < MAX_ROUNDS && SameEdge(r.edges[j], e)
    requires |r.nodes| > 3 && !e.id.Touches(r.nodes[3].id) && Encounters(e.id, Advanced(e.traveling)) == []
    ensures OnTheMap(Flushed(next)) && OnlyRoad(Flushed(next).edges, j) && Flushed(next).pending == []
  {
    hide SessionOk, Encounters, Advanced;
  }
}
