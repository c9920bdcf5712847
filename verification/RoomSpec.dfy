/** The game room as a value, and its transitions as functions on that value
    (HexWar.Domain/Entities/GameRoom.cs, GameRoom.Events.cs, GameResults.cs).
    Dictionaries are sequences in insertion order, looked up by key. */
module Rooms {
  import opened HexTypes
  import opened Nodes
  import opened Edges

  const MAX_UNITS := 3
  const MAX_ROUNDS := 20

  // ---- State ----

  datatype Outcome = Outcome(side: Side, destination: NodeId, unitCount: int, rounds: int)

  datatype Encounter = Encounter(
    edgeId: EdgeId,
    groupA: TravelingGroup,
    groupB: TravelingGroup,
    remaining: int,
    decisions: PerSide<Option<Decision>>,
    outcomes: PerSide<Option<Outcome>>)
  {
    predicate HasDecided(side: Side) {
      decisions.Get(side).Some?
    }

    predicate BothDecided() {
      decisions.a.Some? && decisions.b.Some?
    }

    /** The group the room takes to be the decider's. */
    function GroupOf(side: Side): TravelingGroup {
      if groupA.side == side then groupA else groupB
    }

    function Marked(side: Side, decision: Decision, outcome: Outcome): Encounter {
      this.(decisions := decisions.Set(side, Some(decision)), outcomes := outcomes.Set(side, Some(outcome)))
    }
  }

  datatype OwnershipChange = OwnershipChange(node: NodeId, previous: Ownership, current: Ownership, supplyLine: bool)

  datatype MoveRecord = MoveRecord(from: NodeId, to: NodeId, side: Side, count: int)

  datatype Reason = AllNodesCaptured | MaxRoundsReached | PlayerDisconnected

  datatype Event =
    | GameStarted(playerA: string, playerB: string)
    | UnitsDeparted(side: Side, from: NodeId, count: int, round: int)
    | UnitsRetreated(side: Side, edgeId: EdgeId, count: int, round: int)
    | UnitsAdvanced(side: Side, edgeId: EdgeId, count: int, round: int)
    | EncounterDecisionMade(side: Side, edgeId: EdgeId, decision: Decision, count: int, round: int)
    | EncounterResolved(edgeId: EdgeId, decisions: PerSide<Option<Decision>>, outcomes: PerSide<Option<Outcome>>, round: int)
    | RoundResolved(round: int, moves: seq<MoveRecord>, arrivals: seq<ArrivalInfo>, encounters: seq<EncounterInfo>,
                    changes: seq<OwnershipChange>, resolved: seq<Encounter>)
    | GameEnded(winner: Option<Side>, reason: Reason, round: int, scores: PerSide<int>)
    | RoundStarted(round: int)

  datatype Room = Room(
    phase: Phase,
    round: int,
    maxRounds: int,
    ownerServer: Option<string>,
    nodes: seq<NodeState>,
    edges: seq<EdgeState>,
    players: seq<string>,
    used: PerSide<int>,
    moves: PerSide<seq<PendingMove>>,
    pending: seq<Encounter>,
    events: seq<Event>)

  // ---- Lookups ----

  function NodeIndex(ns: seq<NodeState>, id: NodeId): (r: Option<nat>)
    ensures r.Some? ==> r.value < |ns| && ns[r.value].id == id
    ensures r.Some? ==> forall j :: 0 <= j < r.value ==> ns[j].id != id
    ensures r.None? ==> forall j :: 0 <= j < |ns| ==> ns[j].id != id
  {
    if ns == [] then None
    else if ns[0].id == id then Some(0)
    else
      var rest := NodeIndex(ns[1..], id);
      if rest.Some? then Some(rest.value + 1) else None
  }

  function EdgeIndex(es: seq<EdgeState>, id: EdgeId): (r: Option<nat>)
    ensures r.Some? ==> r.value < |es| && es[r.value].id == id
    ensures r.Some? ==> forall j :: 0 <= j < r.value ==> es[j].id != id
    ensures r.None? ==> forall j :: 0 <= j < |es| ==> es[j].id != id
  {
    if es == [] then None
    else if es[0].id == id then Some(0)
    else
      var rest := EdgeIndex(es[1..], id);
      if rest.Some? then Some(rest.value + 1) else None
  }

  function PendingIndex(ps: seq<Encounter>, id: EdgeId): (r: Option<nat>)
    ensures r.Some? ==> r.value < |ps| && ps[r.value].edgeId == id
    ensures r.Some? ==> forall j :: 0 <= j < r.value ==> ps[j].edgeId != id
    ensures r.None? ==> forall j :: 0 <= j < |ps| ==> ps[j].edgeId != id
  {
    if ps == [] then None
    else if ps[0].edgeId == id then Some(0)
    else
      var rest := PendingIndex(ps[1..], id);
      if rest.Some? then Some(rest.value + 1) else None
  }

  // ---- Map and players ----

  function NewRoom(): Room {
    Room(WaitingForPlayers, 0, MAX_ROUNDS, None, [], [], [], PerSide(0, 0), PerSide([], []), [], [])
  }

  function NewNode(id: NodeId, kind: NodeKind): NodeState {
    NodeState(id, kind, Neutral, PerSide(Units(0, 0), Units(0, 0)), [])
  }

  function NewEdge(from: NodeId, to: NodeId, distance: int): EdgeState {
    EdgeState(MakeEdgeId(from, to), from, to, distance, [])
  }

  /** A dictionary assignment: an edge of the same name is replaced where it stands. */
  function PutEdge(es: seq<EdgeState>, e: EdgeState): seq<EdgeState> {
    var i := EdgeIndex(es, e.id);
    if i.Some? then es[i.value := e] else es + [e]
  }

  function InitialNodes(): seq<NodeState> {
    [NewNode(1, OutPost), NewNode(2, Chokepoint), NewNode(3, SupplyLine),
     NewNode(4, Chokepoint), NewNode(5, OutPost), NewNode(6, Headquarters)]
  }

  function InitialEdges(): seq<EdgeState> {
    [NewEdge(1, 2, 1), NewEdge(1, 4, 2), NewEdge(1, 5, 2), NewEdge(1, 6, 1),
     NewEdge(2, 3, 2), NewEdge(2, 6, 1),
     NewEdge(3, 4, 1), NewEdge(3, 5, 1), NewEdge(3, 6, 1),
     NewEdge(4, 5, 1), NewEdge(4, 6, 1), NewEdge(5, 6, 1)]
  }

  /** A room as the session registry hands it out: map drawn, nobody joined. */
  function InitialRoom(): Room {
    NewRoom().(nodes := InitialNodes(), edges := InitialEdges())
  }

  function NextSide(r: Room): Side {
    if |r.players| == 0 then A else B
  }

  function StartNode(side: Side): NodeId {
    if side == A then 1 else 5
  }

  function AddPlayer(r: Room, player: string): Result<Room, Error> {
    if |r.players| >= 2 then Err(RoomFull)
    else if player in r.players then Err(AlreadyInRoom)
    else
      var side := NextSide(r);
      var i := NodeIndex(r.nodes, StartNode(side));
      if i.None? then Err(KeyNotFound)
      else
        var joined := r.(players := r.players + [player],
                         nodes := r.nodes[i.value := Stationed(r.nodes[i.value], side, MAX_UNITS)]);
        if |joined.players| < 2 then Ok(joined)
        else Ok(joined.(phase := Planning, round := 1,
                        events := r.events + [GameStarted(joined.players[0], joined.players[1])]))
  }

  // ---- Planning: reservations ----

  function Committed(ms: seq<PendingMove>, from: NodeId): int {
    if ms == [] then 0 else (if ms[0].from == from then ms[0].count else 0) + Committed(ms[1..], from)
  }

  function Remaining(r: Room, side: Side): int {
    MAX_UNITS - r.used.Get(side)
  }

  function MoveUnits(r: Room, side: Side, cmd: MoveCommand): Result<Room, Error> {
    var actual := Min(cmd.unitCount, Remaining(r, side));
    if r.phase != Planning then Err(WrongPhase)
    else if r.used.Get(side) >= MAX_UNITS then Err(AllUnitsMoved)
    else if actual <= 0 then Err(NothingToCommit)
    else if EdgeIndex(r.edges, MakeEdgeId(cmd.from, cmd.to)).None? then Err(NoPath)
    else if NodeIndex(r.nodes, cmd.from).None? then Err(KeyNotFound)
    else if Mobile(r.nodes[NodeIndex(r.nodes, cmd.from).value], side) - Committed(r.moves.Get(side), cmd.from) < actual
    then Err(NotEnoughUnits)
    else Ok(r.(moves := r.moves.Set(side, r.moves.Get(side) + [PendingMove(cmd.from, cmd.to, actual)]),
               used := r.used.Set(side, r.used.Get(side) + actual),
               events := r.events + [UnitsDeparted(side, cmd.from, actual, r.round)]))
  }

  // ---- Planning: encounter decisions ----

  function Undecided(ps: seq<Encounter>, side: Side): seq<Encounter> {
    if ps == [] then []
    else if ps[0].HasDecided(side) then Undecided(ps[1..], side)
    else [ps[0]] + Undecided(ps[1..], side)
  }

  function Retreated(e: EdgeState, side: Side, count: int, destination: NodeId): EdgeState {
    Started(RemovedEdge(e, side), side, count, destination)
  }

  /** The deciding side's outcome and the edge afterwards. */
  function Decide(e: EdgeState, p: Encounter, side: Side, decision: Decision): Result<(EdgeState, Outcome), Error> {
    var g := p.GroupOf(side);
    if decision == Decision.Advance then Ok((e, Outcome(side, g.destination, g.unitCount, p.remaining)))
    else if e.id.Opposite(g.destination).None? then Err(NotOnEdge)
    else
      var back := e.id.Opposite(g.destination).value;
      Ok((Retreated(e, side, g.unitCount, back), Outcome(side, back, g.unitCount, e.distance)))
  }

  function DecisionEvents(p: Encounter, side: Side, decision: Decision, round: int): seq<Event> {
    var count := p.GroupOf(side).unitCount;
    [if decision == Retreat then UnitsRetreated(side, p.edgeId, count, round)
     else UnitsAdvanced(side, p.edgeId, count, round),
     EncounterDecisionMade(side, p.edgeId, decision, count, round)]
  }

  /** The list after the encounter at `k` became `p`: gone once both sides have decided. */
  function Settled(ps: seq<Encounter>, k: nat, p: Encounter): seq<Encounter>
    requires k < |ps|
  {
    if p.BothDecided() then ps[..k] + ps[k + 1..] else ps[k := p]
  }

  function ResolveEncounter(r: Room, edgeId: EdgeId, side: Side, decision: Decision): Result<Room, Error> {
    var k := PendingIndex(r.pending, edgeId);
    if r.phase != Planning then Err(WrongPhase)
    else if k.None? then Err(NoPendingEncounter)
    else if r.pending[k.value].HasDecided(side) then Err(AlreadyDecided)
    else if EdgeIndex(r.edges, edgeId).None? then Err(KeyNotFound)
    else
      var p := r.pending[k.value];
      var i := EdgeIndex(r.edges, edgeId).value;
      match Decide(r.edges[i], p, side, decision)
      case Err(error) => Err(error)
      case Ok((edge, outcome)) =>
        var marked := p.Marked(side, decision, outcome);
        Ok(r.(edges := r.edges[i := edge],
              pending := Settled(r.pending, k.value, marked),
              events := r.events + DecisionEvents(p, side, decision, r.round)
                        + (if marked.BothDecided()
                           then [EncounterResolved(edgeId, marked.decisions, marked.outcomes, r.round)]
                           else [])))
  }

  predicate IsReadyForResolution(r: Room) {
    r.phase == Planning && forall k :: 0 <= k < |r.pending| ==> r.pending[k].BothDecided()
  }

  // ---- Resolution ----

  datatype Board = Board(nodes: seq<NodeState>, edges: seq<EdgeState>)

  function ExecMove(b: Board, side: Side, m: PendingMove): Result<Board, Error> {
    var i := NodeIndex(b.nodes, m.from);
    var j := EdgeIndex(b.edges, MakeEdgeId(m.from, m.to));
    if i.None? then Err(KeyNotFound)
    else
      var actual := Min(m.count, Mobile(b.nodes[i.value], side));
      if actual <= 0 then Err(NoMobileUnits)
      else if j.None? then Err(KeyNotFound)
      else Ok(Board(b.nodes[i.value := Departed(b.nodes[i.value], side, actual)],
                    b.edges[j.value := Started(b.edges[j.value], side, m.count, m.to)]))
  }

  function ExecMoves(b: Board, side: Side, ms: seq<PendingMove>): Result<Board, Error>
    decreases |ms|
  {
    if ms == [] then Ok(b)
    else match ExecMove(b, side, ms[0])
      case Err(error) => Err(error)
      case Ok(next) => ExecMoves(next, side, ms[1..])
  }

  function Dispatch(r: Room): Result<Board, Error> {
    match ExecMoves(Board(r.nodes, r.edges), A, r.moves.a)
    case Err(error) => Err(error)
    case Ok(b) => ExecMoves(b, B, r.moves.b)
  }

  function MoveRecords(side: Side, ms: seq<PendingMove>): seq<MoveRecord> {
    seq(|ms|, k requires 0 <= k < |ms| => MoveRecord(ms[k].from, ms[k].to, side, ms[k].count))
  }

  function AdvancedEdges(es: seq<EdgeState>): seq<EdgeState> {
    seq(|es|, k requires 0 <= k < |es| => AdvancedEdge(es[k]))
  }

  function AsArrivals(gs: seq<TravelingGroup>, via: EdgeId): seq<ArrivalInfo> {
    seq(|gs|, k requires 0 <= k < |gs| => ArrivalInfo(gs[k].destination, gs[k].side, gs[k].unitCount, via))
  }

  function EdgeArrivals(es: seq<EdgeState>): seq<ArrivalInfo> {
    if es == [] then [] else AsArrivals(Arrivals(es[0].traveling), es[0].id) + EdgeArrivals(es[1..])
  }

  function AllEncounters(es: seq<EdgeState>): seq<EncounterInfo> {
    if es == [] then [] else Encounters(es[0].id, es[0].traveling) + AllEncounters(es[1..])
  }

  function Blocked(encs: seq<EncounterInfo>): seq<ArrivalInfo> {
    if encs == [] then []
    else AsArrivals([encs[0].groupA, encs[0].groupB], encs[0].edgeId) + Blocked(encs[1..])
  }

  function NewPending(encs: seq<EncounterInfo>): seq<Encounter> {
    seq(|encs|, k requires 0 <= k < |encs| =>
      Encounter(encs[k].edgeId, encs[k].groupA, encs[k].groupB, encs[k].remaining, PerSide(None, None), PerSide(None, None)))
  }

  datatype Landing = Landing(nodes: seq<NodeState>, landed: seq<ArrivalInfo>, changes: seq<OwnershipChange>)

  function ChangeOf(before: NodeState, after: NodeState): seq<OwnershipChange> {
    if before.owner == after.owner then []
    else [OwnershipChange(after.id, before.owner, after.owner, after.kind == SupplyLine)]
  }

  function LandOne(l: Landing, a: ArrivalInfo, blocked: seq<ArrivalInfo>): Result<Landing, Error> {
    if a in blocked then Ok(l)
    else
      var i := NodeIndex(l.nodes, a.destination);
      if i.None? then Err(KeyNotFound)
      else if a.count <= 0 then Err(NonPositiveCount)
      else
        var node := Arrived(l.nodes[i.value], a.side, a.count);
        Ok(Landing(l.nodes[i.value := node], l.landed + [a], l.changes + ChangeOf(l.nodes[i.value], node)))
  }

  function Land(l: Landing, arrivals: seq<ArrivalInfo>, blocked: seq<ArrivalInfo>): Result<Landing, Error>
    decreases |arrivals|
  {
    if arrivals == [] then Ok(l)
    else match LandOne(l, arrivals[0], blocked)
      case Err(error) => Err(error)
      case Ok(next) => Land(next, arrivals[1..], blocked)
  }

  function BothDecidedOnes(ps: seq<Encounter>): seq<Encounter> {
    if ps == [] then []
    else if ps[0].BothDecided() then [ps[0]] + BothDecidedOnes(ps[1..])
    else BothDecidedOnes(ps[1..])
  }

  function HistoryCleared(ns: seq<NodeState>): seq<NodeState> {
    seq(|ns|, k requires 0 <= k < |ns| => ns[k].(recent := []))
  }

  function CountOwned(ns: seq<NodeState>, owner: Ownership): nat {
    if ns == [] then 0 else (if ns[0].owner == owner then 1 else 0) + CountOwned(ns[1..], owner)
  }

  predicate AllOwnedBy(ns: seq<NodeState>, owner: Ownership) {
    forall i :: 0 <= i < |ns| && ns[i].kind != Headquarters ==> ns[i].owner == owner
  }

  predicate CheckGameOver(ns: seq<NodeState>) {
    AllOwnedBy(ns, PlayerA) || AllOwnedBy(ns, PlayerB)
  }

  function Winner(ns: seq<NodeState>): Option<Side> {
    var a, b := CountOwned(ns, PlayerA), CountOwned(ns, PlayerB);
    if a > b then Some(A) else if b > a then Some(B) else None
  }

  function Scores(ns: seq<NodeState>): PerSide<int> {
    PerSide(CountOwned(ns, PlayerA), CountOwned(ns, PlayerB))
  }

  /** The arrivals and encounters of a round, once the reserved moves are under way. */
  function RoundBlocked(b: Board): seq<ArrivalInfo> {
    Blocked(AllEncounters(AdvancedEdges(b.edges)))
  }

  function RoundLanding(b: Board): Result<Landing, Error> {
    Land(Landing(b.nodes, [], []), EdgeArrivals(b.edges), RoundBlocked(b))
  }

  /** Clean-up, next round number and the end-of-game test. */
  function Conclude(r: Room, edges: seq<EdgeState>, l: Landing, encs: seq<EncounterInfo>): Room {
    var nodes := HistoryCleared(l.nodes);
    var pending := r.pending + NewPending(encs);
    var resolved := RoundResolved(r.round, MoveRecords(A, r.moves.a) + MoveRecords(B, r.moves.b),
                                  l.landed, encs, l.changes, BothDecidedOnes(pending));
    var over := CheckGameOver(nodes) || r.round + 1 > r.maxRounds;
    var last := if over
                then GameEnded(Winner(nodes), if r.round + 1 > r.maxRounds then MaxRoundsReached else AllNodesCaptured,
                               r.round, Scores(nodes))
                else RoundStarted(r.round + 1);
    r.(phase := if over then GameOver else Planning,
       round := r.round + 1,
       nodes := nodes,
       edges := edges,
       used := PerSide(0, 0),
       moves := PerSide([], []),
       pending := pending,
       events := [resolved, last])
  }

  function ResolveRound(r: Room): Result<Room, Error> {
    if r.phase != Planning then Err(WrongPhase)
    else match Dispatch(r)
      case Err(error) => Err(error)
      case Ok(b) =>
        match RoundLanding(b)
        case Err(error) => Err(error)
        case Ok(l) => Ok(Conclude(r, AdvancedEdges(b.edges), l, AllEncounters(AdvancedEdges(b.edges))))
  }

  function ForceGameOver(r: Room, winner: Option<Side>, reason: Reason): Room {
    r.(phase := GameOver, events := r.events + [GameEnded(winner, reason, r.round, Scores(r.nodes))])
  }

  function AssignOwner(r: Room, server: string): Room {
    r.(ownerServer := Some(server))
  }

  function Flushed(r: Room): Room {
    r.(events := [])
  }
}
