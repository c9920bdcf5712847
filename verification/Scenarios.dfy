/** Concrete runs on the map the code draws that break the naive claims. */
module Scenarios {
  import opened HexTypes
  import opened Nodes
  import opened Edges
  import opened Rooms
  import opened RoomWellFormed
  import opened RoomLedger
  import opened EncounterInvariant
  import opened SessionWorld
  import opened RoadRounds
  import FlagHistory

  // ---- A lost unit ----

  const ROAD: EdgeId := EdgeId(1, 5)
  const EAST: TravelingGroup := TravelingGroup(A, 1, 5)
  const WEST: TravelingGroup := TravelingGroup(B, 1, 1)
  const EAST_BY_ROAD: ArrivalInfo := ArrivalInfo(5, A, 1, ROAD)
  const GO_EAST: MoveCommand := MoveCommand(1, 5, 1)
  const GO_WEST: MoveCommand := MoveCommand(5, 1, 1)

  /** A sends a unit down the two-round road; a round later it sends another one, and B one to
      meet it. */
  function LossSteps(): seq<Step> {
    BothJoined() + [Move("x", A, GO_EAST), PrimaryTimeout("x", 1)] + [Move("x", A, GO_EAST), Move("x", B, GO_WEST)]
  }

  lemma LoneBucket(key: int, gs: seq<TravelingGroup>, side: Side)
    ensures Arrivals([Bucket(key, gs)]) == if key <= 1 then gs else []
    ensures Advanced([Bucket(key, gs)]) == if key <= 1 then [] else [Bucket(key - 1, gs)]
    ensures CountOn([Bucket(key, gs)], side) == CountIn(gs, side)
  {
    assert [Bucket(key, gs)][1..] == [];
  }

  lemma LoneStart(e: EdgeState, side: Side, m: PendingMove)
    ensures StartAll(e, side, [m]) == Started(e, side, m.count, m.to) && StartAll(e, side, []) == e
  {
    assert [m][1..] == [];
  }

  lemma LoneMove(m: PendingMove)
    ensures forall id :: Committed([m], id) == if m.from == id then m.count else 0
    ensures forall id :: Committed([], id) == 0
  {
    assert [m][1..] == [];
  }

  /** What the scenarios start from: both players joined, nothing under way. */
  predicate Fresh(w: World) {
    && WorldOk(w) && OnTheMap(w.room) && Silent(w.room.edges)
    && |w.room.nodes| == 6 && Mobile(w.room.nodes[0], A) == 3 && Mobile(w.room.nodes[4], B) == 3
    && w.room.round == 1 && w.room.used == PerSide(0, 0) && w.room.moves == PerSide([], []) && w.room.pending == []
    && Total(w.room, A) == 3
  }

  lemma OpeningFresh(owner: ServerId)
    ensures var w := Run(Start(owner), BothJoined()); Fresh(w) && w.flags == map[] && w.completed == []
  {
    OpeningOk(owner);
    OpeningRun(owner);
    OpeningTotal();
    hide WorldOk, OnTheMap, Silent, Run, Start, OpeningNodes, InitialEdges, InitialNodes, NodeMobile, EdgeTravel;
    Places(Run(Start(owner), BothJoined()).room);
  }

  lemma OpeningTotal()
    ensures BoardTotal(Board(OpeningNodes(), InitialEdges()), A) == 3
  {
    hide NodeMobile, EdgeTravel, InitialEdges;
    InitialShort();
    NobodyThere(InitialNodes(), InitialEdges(), A);
    var n := Stationed(InitialNodes()[0], A, MAX_UNITS);
    ReplaceNodeMobile(InitialNodes(), 0, n, A);
    var ns := InitialNodes()[0 := n];
    ReplaceNodeMobile(ns, 4, Stationed(InitialNodes()[4], B, MAX_UNITS), A);
  }

  /** A's first unit about to take the road. */
  predicate Leaving(w: World) {
    && Scene(w, 2) && |w.room.nodes| == 6 && |w.room.edges| == 12 && w.room.round == 1 && Total(w.room, A) == 3
    && Mobile(w.room.nodes[0], A) == 3 && Mobile(w.room.nodes[4], B) == 3
    && w.room.moves == PerSide([PendingMove(1, 5, 1)], []) && Sent(w.room, 2).traveling == [Bucket(2, [EAST])]
  }

  lemma FirstSent(w: World)
    requires Fresh(w)
    ensures Leaving(Do(w, Move("x", A, GO_EAST)))
  {
    Places(w.room);
    LoneStart(w.room.edges[2], A, PendingMove(1, 5, 1));
    hide WorldOk, OnTheMap, Do, NodeMobile, EdgeTravel;
    GoesEast(w);
  }

  /** One unit of A is on the road with this many rounds to go, the rest of both sides at home. */
  predicate OnTheRoad(w: World) {
    && Scene(w, 2) && |w.room.nodes| == 6 && |w.room.edges| == 12
    && Mobile(w.room.nodes[0], A) == 2 && Mobile(w.room.nodes[4], B) == 3
    && w.room.round == 2 && w.room.used == PerSide(0, 0) && w.room.moves == PerSide([], [])
    && w.room.edges[2].traveling == [Bucket(1, [EAST])] && Total(w.room, A) == 3
  }

  lemma FirstRound(w: World)
    requires Leaving(w)
    ensures OnTheRoad(Do(w, PrimaryTimeout("x", 1)))
  {
    hide WorldOk, OnTheMap, Do, ResolveRound, Sent, NodeMobile, EdgeTravel, SameIds, OnlyRoad;
    FirstRoundStep(w);
    FirstRoundUnits(w);
  }

  lemma FirstRoundStep(w: World)
    requires Leaving(w)
    ensures ResolveRound(w.room).Ok?
    ensures var next := Do(w, PrimaryTimeout("x", 1));
            && Scene(next, 2) && next.room == Flushed(ResolveRound(w.room).value)
            && RoundLater(w.room, ResolveRound(w.room).value, 2, Sent(w.room, 2))
            && AdvancedEdge(Sent(w.room, 2)).traveling == [Bucket(1, [EAST])]
  {
    Places(w.room);
    LoneBucket(2, [EAST], A);
    EastAlone(Sent(w.room, 2).id);
    hide WorldOk, OnTheMap, Do, ResolveRound, Sent, NodeMobile, EdgeTravel, RoundLater, Encounters;
    RoundStep(w, "x", 2);
  }

  lemma FirstRoundUnits(w: World)
    requires Leaving(w)
    ensures ResolveRound(w.room).Ok?
    ensures var next := ResolveRound(w.room).value;
            |next.nodes| == 6 && Mobile(next.nodes[0], A) == 2 && Mobile(next.nodes[4], B) == 3 && Total(next, A) == 3
  {
    Places(w.room);
    SceneRoad(w, 2);
    LoneBucket(2, [EAST], A);
    EastAlone(Sent(w.room, 2).id);
    LoneMove(PendingMove(1, 5, 1));
    RoadNodes(w.room, 2);
    hide WorldOk, OnTheMap, Do, ResolveRound, Sent, Total, RoadRoom, OnlyRoad, Encounters, Committed, AsArrivals, Mobile;
    QuietRound(w.room, 2, 0, A);
    QuietRound(w.room, 2, 4, B);
    RoadLedger(w.room, 2, A);
    NothingDropped(AsArrivals([], Sent(w.room, 2).id), A);
  }

  lemma RoadNodes(r: Room, j: nat)
    requires RoadRoom(r, j)
    ensures ResolveRound(r).Ok? && |ResolveRound(r).value.nodes| == |r.nodes|
  {
    hide Dispatch, RoundLanding, ResolveRound;
    ResolveKeepsIds(r);
  }

  lemma EastAlone(id: EdgeId)
    ensures Encounters(id, [Bucket(1, [EAST])]) == [] && Blocked([]) == []
  {
    assert [EAST][1..] == [] && [Bucket(1, [EAST])][1..] == [];
    assert FirstOf([EAST], B) == FirstOf([], B) == None;
    assert Encounters(id, [Bucket(1, [EAST])]) == Encounters(id, []);
  }

  /** The second unit, and the one that meets it, about to take the road. */
  predicate Meeting(w: World) {
    && WorldOk(w) && RoadRoom(w.room, 2) && w.room.pending == [] && w.room.round == 2 && Total(w.room, A) == 3
    && Sent(w.room, 2).id == ROAD && Sent(w.room, 2).traveling == [Bucket(1, [EAST]), Bucket(2, [EAST, WEST])]
  }

  lemma LoneList<T>(x: T)
    ensures [] + [x] == [x]
  {
  }

  /** Each side reserves a unit for the road, A first. */
  function BothOrders(w: World): World {
    Do(Do(w, Move("x", A, GO_EAST)), Move("x", B, GO_WEST))
  }

  predicate AtHome(w: World) {
    && Scene(w, 2) && |w.room.nodes| == 6 && w.room.used == PerSide(0, 0) && w.room.moves == PerSide([], [])
    && Mobile(w.room.nodes[0], A) >= 1 && Mobile(w.room.nodes[4], B) >= 1
  }

  lemma GoesEast(w: World)
    requires AtHome(w)
    ensures var next := Reserved(w, "x", A, GO_EAST);
            Do(w, Move("x", A, GO_EAST)) == next && Scene(next, 2) && next.room.moves.a == [PendingMove(1, 5, 1)]
  {
    Places(w.room);
    LoneMove(PendingMove(1, 5, 1));
    hide WorldOk, OnTheMap, Do, OnlyRoad;
    LoneList(PendingMove(1, 5, 1));
    OrderStep(w, "x", A, GO_EAST, 0, 2, 2);
  }

  lemma GoesWest(w: World)
    requires Scene(w, 2) && |w.room.nodes| == 6 && Mobile(w.room.nodes[4], B) >= 1
    requires w.room.used.b == 0 && w.room.moves == PerSide([PendingMove(1, 5, 1)], [])
    ensures var next := Reserved(w, "x", B, GO_WEST);
            && Do(w, Move("x", B, GO_WEST)) == next && Scene(next, 2) && RoadRoom(next.room, 2)
            && next.room.moves == PerSide([PendingMove(1, 5, 1)], [PendingMove(5, 1, 1)])
  {
    Places(w.room);
    LoneMove(PendingMove(5, 1, 1));
    hide WorldOk, OnTheMap, Do, RoadRoom, OnlyRoad;
    LoneList(PendingMove(5, 1, 1));
    OrderStep(w, "x", B, GO_WEST, 4, 2, 2);
    SceneRoad(Reserved(w, "x", B, GO_WEST), 2);
  }

  /** What the two orders change: nothing but the reservations. */
  lemma BothReserved(w: World)
    requires AtHome(w)
    ensures var next := BothOrders(w);
            && Scene(next, 2) && RoadRoom(next.room, 2) && next.room.round == w.room.round
            && next.room.nodes == w.room.nodes && next.room.edges == w.room.edges
            && next.room.moves == PerSide([PendingMove(1, 5, 1)], [PendingMove(5, 1, 1)])
  {
    hide Scene, Do, RoadRoom;
    GoesEast(w);
    GoesWest(Reserved(w, "x", A, GO_EAST));
  }

  lemma SecondSent(w: World)
    requires OnTheRoad(w)
    ensures Meeting(BothOrders(w))
  {
    Places(w.room);
    hide WorldOk, OnTheMap, BothOrders, NodeMobile, EdgeTravel, RoadRoom, OnlyRoad;
    BothReserved(w);
    SecondPut(w.room.edges[2]);
  }

  lemma SecondPut(e: EdgeState)
    requires e.traveling == [Bucket(1, [EAST])] && e.distance == 2 && e.id == ROAD
    ensures StartAll(StartAll(e, A, [PendingMove(1, 5, 1)]), B, [PendingMove(5, 1, 1)]) ==
              e.(traveling := [Bucket(1, [EAST]), Bucket(2, [EAST, WEST])])
  {
    LoneStart(e, A, PendingMove(1, 5, 1));
    var early := [Bucket(1, [EAST])];
    var middle := [Bucket(1, [EAST]), Bucket(2, [EAST])];
    assert early[1..] == [] && middle[1..] == [Bucket(2, [EAST])] && [Bucket(2, [EAST])][1..] == [];
    assert Put(early, 2, [EAST]) == middle;
    assert [EAST] + [WEST] == [EAST, WEST];
    assert Put(middle, 2, [WEST]) == [Bucket(1, [EAST]), Bucket(2, [EAST, WEST])];
    LoneStart(e.(traveling := middle), B, PendingMove(5, 1, 1));
  }

  /** The unit that arrives is the same record as the one that is stopped. */
  lemma LossDropped()
    ensures var bs := [Bucket(1, [EAST]), Bucket(2, [EAST, WEST])];
            DroppedCount(AsArrivals(Arrivals(bs), ROAD), Blocked(Encounters(ROAD, Advanced(bs))), A) == 1
  {
    var met := [EAST, WEST];
    var bs := [Bucket(1, [EAST]), Bucket(2, met)];
    assert bs[1..] == [Bucket(2, met)] && [Bucket(2, met)][1..] == [];
    LoneBucket(2, met, A);
    LoneBucket(1, met, A);
    assert Arrivals(bs) == [EAST] + Arrivals(bs[1..]) == [EAST];
    assert Advanced(bs) == Advanced(bs[1..]) == [Bucket(1, met)] && [Bucket(1, met)][1..] == [];
    assert met[1..] == [WEST] && FirstOf(met, B) == Some(WEST);
    var x := EncounterInfo(ROAD, EAST, WEST, 1);
    assert Encounters(ROAD, [Bucket(1, met)]) == [x] && [x][1..] == [];
    assert AsArrivals([EAST, WEST], ROAD)[0] == EAST_BY_ROAD && AsArrivals([EAST], ROAD) == [EAST_BY_ROAD];
    assert EAST_BY_ROAD in Blocked([x]);
    assert [EAST_BY_ROAD][1..] == [];
  }

  /** Units are not always conserved: a unit A sent a round earlier arrives while another one
      leaves and is stopped; the two records are equal, so the first unit is dropped. */
  lemma UnitLost()
    ensures var w := Run(Start("x"), LossSteps());
            && w.room.round == 2 && Total(w.room, A) == 3
            && Total(Do(w, PrimaryTimeout("x", 2)).room, A) == 2
            && Do(w, PrimaryTimeout("x", 2)).completed == [1, 2]
  {
    hide Run, Start, Do, BothJoined, Fresh, Leaving, OnTheRoad, Meeting, Total;
    var w2 := Run(Start("x"), BothJoined());
    OpeningFresh("x");
    FirstSent(w2);
    var w3 := Do(w2, Move("x", A, GO_EAST));
    FirstRound(w3);
    var w4 := Do(w3, PrimaryTimeout("x", 1));
    SecondSent(w4);
    assert BothOrders(w4) == Do(Do(w4, Move("x", A, GO_EAST)), Move("x", B, GO_WEST));
    RunTwo(w2, Move("x", A, GO_EAST), PrimaryTimeout("x", 1));
    RunTwo(w4, Move("x", A, GO_EAST), Move("x", B, GO_WEST));
    RunJoin(Start("x"), BothJoined(), [Move("x", A, GO_EAST), PrimaryTimeout("x", 1)]);
    RunJoin(Start("x"), BothJoined() + [Move("x", A, GO_EAST), PrimaryTimeout("x", 1)],
            [Move("x", A, GO_EAST), Move("x", B, GO_WEST)]);
    LossRound(Do(Do(w4, Move("x", A, GO_EAST)), Move("x", B, GO_WEST)));
  }

  lemma LossRound(w: World)
    requires Meeting(w)
    ensures w.room.round == 2 && Total(w.room, A) == 3
    ensures Total(Do(w, PrimaryTimeout("x", 2)).room, A) == 2
    ensures Do(w, PrimaryTimeout("x", 2)).completed == [1, 2]
  {
    RoundTwo(w);
    hide WorldOk, RoadRoom, ResolveRound, Do, Sent, NodeMobile, EdgeTravel, Encounters, AsArrivals, Arrivals, Advanced,
      Blocked, DroppedCount;
    TimedOut(w, "x");
    LossDropped();
    RoadLedger(w.room, 2, A);
  }

  lemma RoundTwo(w: World)
    requires WorldOk(w) && w.room.phase == Planning && w.room.round == 2
    ensures w.completed == [1]
  {
    hide SessionOk;
    PlanningFacts(w.room);
  }

  // ---- A unit created without the session's guard ----

  /** Each side sends a unit down the road, and the round times out. */
  function MeetingSteps(): seq<Step> {
    BothJoined() + [Move("x", A, GO_EAST), Move("x", B, GO_WEST), PrimaryTimeout("x", 1)]
  }

  function Standoff(): Encounter {
    Encounter(ROAD, EAST, WEST, 1, PerSide(None, None), PerSide(None, None))
  }

  /** The two groups are about to take the road. */
  predicate Parting(w: World) {
    && WorldOk(w) && RoadRoom(w.room, 2) && Bystander(w.room, 2, 3) && w.room.pending == [] && w.room.round == 1
    && Sent(w.room, 2).id == ROAD && Sent(w.room, 2).traveling == [Bucket(2, [EAST, WEST])] && Total(w.room, A) == 3
  }

  lemma BothSent(w: World)
    requires Fresh(w)
    ensures Parting(BothOrders(w))
  {
    Places(w.room);
    hide WorldOk, OnTheMap, BothOrders, NodeMobile, EdgeTravel, RoadRoom;
    BothReserved(w);
    SceneBystander(BothOrders(w), 2);
    FirstPut(w.room.edges[2]);
  }

  /** Node 4 belongs to nobody and lies off the roads the scenarios use. */
  lemma SceneBystander(w: World, j: nat)
    requires Scene(w, j) && |w.room.nodes| == 6 && !w.room.edges[j].id.Touches(4)
    ensures Bystander(w.room, j, 3)
  {
    hide WorldOk, SameEdges;
  }

  lemma FirstPut(e: EdgeState)
    requires e.traveling == [] && e.distance == 2 && e.id == ROAD
    ensures StartAll(StartAll(e, A, [PendingMove(1, 5, 1)]), B, [PendingMove(5, 1, 1)]) ==
              e.(traveling := [Bucket(2, [EAST, WEST])])
  {
    LoneStart(e, A, PendingMove(1, 5, 1));
    var one := [Bucket(2, [EAST])];
    assert one[1..] == [] && [EAST] + [WEST] == [EAST, WEST];
    assert Put(one, 2, [WEST]) == [Bucket(2, [EAST, WEST])];
    LoneStart(e.(traveling := one), B, PendingMove(5, 1, 1));
  }

  lemma MeetOnce()
    ensures Advanced([Bucket(2, [EAST, WEST])]) == [Bucket(1, [EAST, WEST])] && Arrivals([Bucket(2, [EAST, WEST])]) == []
    ensures NewPending(Encounters(ROAD, [Bucket(1, [EAST, WEST])])) == [Standoff()]
    ensures Advanced([Bucket(1, [EAST, WEST])]) == [] && Encounters(ROAD, []) == []
  {
    LoneBucket(2, [EAST, WEST], A);
    LoneBucket(1, [EAST, WEST], A);
    assert [EAST, WEST][1..] == [WEST] && FirstOf([EAST, WEST], B) == Some(WEST);
    assert [Bucket(1, [EAST, WEST])][1..] == [] && Encounters(ROAD, []) == [];
    assert Encounters(ROAD, [Bucket(1, [EAST, WEST])]) == [EncounterInfo(ROAD, EAST, WEST, 1)];
  }

  /** The two groups stand against each other, and nobody has decided. */
  predicate FaceToFace(r: Room) {
    && RoadRoom(r, 2) && Bystander(r, 2, 3) && r.pending == [Standoff()] && r.moves == PerSide([], [])
    && r.edges[2].id == ROAD && r.edges[2].traveling == [Bucket(1, [EAST, WEST])] && Total(r, A) == 3
  }

  lemma MeetingRound(w: World)
    requires Parting(w)
    ensures FaceToFace(Do(w, PrimaryTimeout("x", 1)).room)
  {
    MeetOnce();
    hide WorldOk, Do, ResolveRound, Sent, NodeMobile, EdgeTravel, Encounters, Advanced, Arrivals, AsArrivals, Blocked, DroppedCount,
      WellFormed, NewPending;
    TimedOut(w, "x");
    RoadRound(w.room, 2, 3);
    var next := ResolveRound(w.room).value;
    RoadLedger(w.room, 2, A);
    assert AsArrivals([], ROAD) == [] && DroppedCount([], Blocked(Encounters(ROAD, [Bucket(1, [EAST, WEST])])), A) == 0 by {
      EmptyDrops(Blocked(Encounters(ROAD, [Bucket(1, [EAST, WEST])])));
    }
    WorldWellFormed(Do(w, PrimaryTimeout("x", 1)));
  }

  lemma EmptyDrops(blocked: seq<ArrivalInfo>)
    ensures AsArrivals([], ROAD) == [] && DroppedCount([], blocked, A) == 0
  {
  }

  lemma WorldWellFormed(w: World)
    requires WorldOk(w)
    ensures WellFormed(w.room)
  {
  }

  /** Resolving over the undecided encounter lets both groups pass and leaves it pending. */
  lemma UnguardedRound(r: Room)
    requires FaceToFace(r)
    ensures ResolveRound(r).Ok?
    ensures var next := ResolveRound(r).value;
            && next.phase == Planning && next.pending == [Standoff()] && Total(next, A) == 3
            && |next.edges| > 2 && EdgeIndex(next.edges, ROAD) == Some(2) && next.edges[2].traveling == []
  {
    MeetOnce();
    assert Sent(r, 2) == r.edges[2];
    RoadRound(r, 2, 3);
    RoadLedger(r, 2, A);
    NothingDropped(AsArrivals(Arrivals(r.edges[2].traveling), ROAD), A);
    hide ResolveRound, NodeMobile, EdgeTravel, Encounters, Advanced, Arrivals, AsArrivals, DroppedCount, NewPending;
    KeepsPending(r.pending);
    assert Blocked([]) == [];
    RoadFound(r);
  }

  lemma KeepsPending(ps: seq<Encounter>)
    ensures ps + NewPending([]) == ps
  {
  }

  lemma RoadFound(r: Room)
    requires FaceToFace(r) && ResolveRound(r).Ok?
    ensures EdgeIndex(ResolveRound(r).value.edges, ROAD) == Some(2)
  {
    hide ResolveRound;
    ResolveRoundOk(r);
    EdgeAt(r.edges, 2);
    SameEdgesIndex(r.edges, ResolveRound(r).value.edges, ROAD);
  }

  lemma LateRetreat(next: Room)
    requires next.phase == Planning && next.pending == [Standoff()]
    requires EdgeIndex(next.edges, ROAD) == Some(2) && next.edges[2].traveling == []
    ensures ResolveEncounter(next, ROAD, A, Retreat).Ok?
    ensures Total(ResolveEncounter(next, ROAD, A, Retreat).value, A) == Total(next, A) + 1
  {
    hide Total;
    assert PendingIndex(next.pending, ROAD) == Some(0);
    EncounterLedger(next, ROAD, A, Retreat, A);
  }

  /** Without the session's guard the room itself creates units: in a room a session reaches, resolve
      over the undecided encounter, then retreat from it. */
  lemma UnguardedRoomCreatesUnits()
    ensures var r := Run(Start("x"), MeetingSteps()).room;
            && SessionOk(r) && !IsReadyForResolution(r) && Total(r, A) == 3
            && ResolveRound(r).Ok?
            && var late := ResolveEncounter(ResolveRound(r).value, ROAD, A, Retreat);
               late.Ok? && Total(late.value, A) == 4
  {
    hide Run, Start, Do, BothJoined, Fresh, Parting, FaceToFace, Total, ResolveRound, ResolveEncounter, SessionOk, WorldOk;
    var w2 := Run(Start("x"), BothJoined());
    OpeningFresh("x");
    BothSent(w2);
    var w4 := Do(Do(w2, Move("x", A, GO_EAST)), Move("x", B, GO_WEST));
    MeetingRound(w4);
    RunThree(w2, Move("x", A, GO_EAST), Move("x", B, GO_WEST), PrimaryTimeout("x", 1));
    RunJoin(Start("x"), BothJoined(), [Move("x", A, GO_EAST), Move("x", B, GO_WEST), PrimaryTimeout("x", 1)]);
    var w := Do(w4, PrimaryTimeout("x", 1));
    Reachable("x", MeetingSteps());
    WorldSession(w);
    NotReady(w.room);
    UnguardedRound(w.room);
    LateRetreat(ResolveRound(w.room).value);
  }

  lemma NotReady(r: Room)
    requires FaceToFace(r)
    ensures !IsReadyForResolution(r) && Total(r, A) == 3
  {
    assert !r.pending[0].BothDecided();
  }

  // ---- A stale flag on a second server ----

  const SHORT: EdgeId := EdgeId(1, 2)
  const ALL_UNITS: TravelingGroup := TravelingGroup(A, 3, 2)

  /** Server "x" takes all of A's units in round 1, which server "y" resolves without "x" being told;
      in round 2 B gives its orders on "x". */
  function StaleSteps(): seq<Step> {
    BothJoined() + [Move("x", A, MoveCommand(1, 2, 3)), PrimaryTimeout("y", 1), Move("x", B, MoveCommand(5, 4, 3))]
  }

  /** A's three units about to take the short road. */
  predicate AllLeaving(w: World) {
    && Scene(w, 0) && |w.room.nodes| == 6 && w.room.round == 1 && Total(w.room, A) == 3
    && w.room.moves == PerSide([PendingMove(1, 2, 3)], []) && w.room.edges[0].id == SHORT
    && Sent(w.room, 0).id == SHORT && Sent(w.room, 0).traveling == [Bucket(1, [ALL_UNITS])]
    && Mobile(w.room.nodes[4], B) == 3 && w.flags == map["x" := PerSide(true, false)] && w.completed == []
  }

  lemma AllSent(w: World)
    requires Fresh(w) && w.flags == map[] && w.completed == []
    ensures AllLeaving(Do(w, Move("x", A, MoveCommand(1, 2, 3))))
  {
    Places(w.room);
    LoneMove(PendingMove(1, 2, 3));
    LoneStart(w.room.edges[0], A, PendingMove(1, 2, 3));
    hide WorldOk, OnTheMap, Do, NodeMobile, EdgeTravel;
    LoneList(PendingMove(1, 2, 3));
    OrderStep(w, "x", A, MoveCommand(1, 2, 3), 0, 0, 0);
  }

  lemma AllArrive()
    ensures Advanced([Bucket(1, [ALL_UNITS])]) == [] && Encounters(SHORT, []) == []
  {
    LoneBucket(1, [ALL_UNITS], A);
  }

  /** A has used nothing and has three units standing, but "x" holds A's flag up. */
  predicate Deceived(w: World, road: nat) {
    && Scene(w, road) && |w.room.nodes| == 6 && w.room.used == PerSide(0, 0) && w.room.moves == PerSide([], [])
    && NodeMobile(w.room.nodes, A) == 3 && Mobile(w.room.nodes[4], B) == 3
    && FlagsOf(w.flags, "x") == PerSide(true, false)
  }

  lemma StaleRound(w: World)
    requires AllLeaving(w)
    ensures Deceived(Do(w, PrimaryTimeout("y", 1)), 0)
    ensures Do(w, PrimaryTimeout("y", 1)).completed == [1] && Do(w, PrimaryTimeout("y", 1)).room.round == 2
  {
    hide WorldOk, OnTheMap, Do, ResolveRound, Sent, NodeMobile, EdgeTravel, NewPending, OnlyRoad, Deceived, RoundLater;
    StaleStep(w);
    StaleLedger(w);
    Places(w.room);
    StaleFacts(w, Do(w, PrimaryTimeout("y", 1)), ResolveRound(w.room).value, Sent(w.room, 0));
  }

  lemma StaleFacts(w: World, next: World, room: Room, e: EdgeState)
    requires |w.room.nodes| == 6 && w.room.nodes[4].id == 5 && Mobile(w.room.nodes[4], B) == 3 && w.room.round == 1
    requires e.id == SHORT && RoundLater(w.room, room, 0, e) && Scene(next, 0) && next.room == Flushed(room)
    requires w.flags == map["x" := PerSide(true, false)] && next.flags == w.flags["y" := NO_FLAGS]
    requires NodeMobile(room.nodes, A) == 3
    ensures Deceived(next, 0) && next.room.round == 2
  {
    hide Scene, NodeMobile, NewPending, Encounters, Advanced;
    assert "x"[0] != "y"[0];
  }

  lemma StaleStep(w: World)
    requires AllLeaving(w)
    ensures ResolveRound(w.room).Ok? && RoundLater(w.room, ResolveRound(w.room).value, 0, Sent(w.room, 0))
    ensures var next := Do(w, PrimaryTimeout("y", 1));
            && Scene(next, 0) && next.room == Flushed(ResolveRound(w.room).value)
            && next.flags == w.flags["y" := NO_FLAGS] && next.completed == [1]
  {
    Places(w.room);
    AllArrive();
    hide WorldOk, OnTheMap, Do, ResolveRound, Sent, NodeMobile, EdgeTravel, Encounters, RoundLater;
    RoundStep(w, "y", 0);
  }

  lemma StaleLedger(w: World)
    requires AllLeaving(w) && ResolveRound(w.room).Ok? && RoundLater(w.room, ResolveRound(w.room).value, 0, Sent(w.room, 0))
    ensures NodeMobile(ResolveRound(w.room).value.nodes, A) == 3
  {
    AllArrive();
    hide WorldOk, OnTheMap, Do, ResolveRound, Sent, NodeMobile, EdgeTravel, Encounters, Advanced, AsArrivals, DroppedCount, WellFormed;
    SceneRoad(w, 0);
    RoadLedger(w.room, 0, A);
    NothingDropped(AsArrivals(Arrivals(Sent(w.room, 0).traveling), SHORT), A);
    OneRoad(ResolveRound(w.room).value.edges, 0, A);
  }

  /** Once B has given its orders on "x", that server takes both sides to be done. */
  lemma DeceivedChecks(w: World, road: nat)
    requires Deceived(w, road)
    ensures var next := Do(w, Move("x", B, MoveCommand(5, 4, 3)));
            && next.room.phase == Planning && next.room.round == w.room.round && next.completed == w.completed
            && next.room.used.a == 0 && NodeMobile(next.room.nodes, A) == 3
            && Do(next, Check("x")).completed == w.completed + [w.room.round]
  {
    Places(w.room);
    LoneMove(PendingMove(5, 4, 3));
    hide WorldOk, OnTheMap, Do, NodeMobile, OnlyRoad;
    OrderStep(w, "x", B, MoveCommand(5, 4, 3), 4, 9, road);
    var next := Reserved(w, "x", B, MoveCommand(5, 4, 3));
    BothFlagged(next);
    CheckOk(next, "x");
  }

  lemma BothFlagged(w: World)
    requires w.room.phase == Planning && w.room.pending == [] && FlagsOf(w.flags, "x") == PerSide(true, true)
    ensures AllReady(w.room, FlagsOf(w.flags, "x"))
  {
  }

  /** With two servers an early resolution need not be justified: server "x" still holds A's flag
      of round 1 while "y" has resolved it, and takes A to be done in round 2, although A has used
      nothing there and has three units standing. */
  lemma StaleFlagResolvesEarly()
    ensures var w := Run(Start("x"), StaleSteps());
            && w.room.phase == Planning && w.room.round == 2
            && w.room.used.a == 0 && NodeMobile(w.room.nodes, A) == 3
            && FlagHistory.Stale(Start("x"), StaleSteps(), "x", A)
            && Do(w, Check("x")).completed == [1, 2]
  {
    hide Run, Start, Do, BothJoined, Fresh, AllLeaving, Deceived, NodeMobile, FlagHistory.Stale;
    var w2 := Run(Start("x"), BothJoined());
    OpeningFresh("x");
    AllSent(w2);
    var w3 := Do(w2, Move("x", A, MoveCommand(1, 2, 3)));
    StaleRound(w3);
    var w4 := Do(w3, PrimaryTimeout("y", 1));
    DeceivedChecks(w4, 0);
    RunThree(w2, Move("x", A, MoveCommand(1, 2, 3)), PrimaryTimeout("y", 1), Move("x", B, MoveCommand(5, 4, 3)));
    RunJoin(Start("x"), BothJoined(),
            [Move("x", A, MoveCommand(1, 2, 3)), PrimaryTimeout("y", 1), Move("x", B, MoveCommand(5, 4, 3))]);
    NoMemory();
    FlagHistory.PrematureIffStale("x", StaleSteps(), "x");
  }

  lemma NoMemory()
    ensures FlagHistory.Undisturbed(StaleSteps(), "x")
  {
    assert forall i :: 0 <= i < |StaleSteps()| ==> !StaleSteps()[i].Memory?;
  }

  lemma FreshDeceived(w: World, flags: map<ServerId, PerSide<bool>>)
    requires Fresh(w) && FlagsOf(flags, "x") == PerSide(true, false)
    ensures Deceived(w.(flags := flags), 0)
  {
    Places(w.room);
    FlagsIrrelevant(w, flags);
    NoTraffic(w.room.edges, A);
    hide WorldOk, OnTheMap, NodeMobile, EdgeTravel;
  }
}
