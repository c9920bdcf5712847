/** Game sessions on any number of servers driving one stored room. Every action runs under
    the room lock, so a run is a sequence of whole actions in lock order
    (HexWar.Application/Sessions/GameSession.cs). */
module SessionWorld {
  import opened HexTypes
  import opened Nodes
  import opened Edges
  import opened Rooms
  import opened RoomWellFormed
  import opened RoomLedger
  import opened EncounterInvariant

  type ServerId = string

  /** The stored room; each server's move-completed flags, which live in its own memory; the
      rounds completed and the events published so far. */
  datatype World = World(
    room: Room,
    flags: map<ServerId, PerSide<bool>>,
    completed: seq<int>,
    published: seq<Event>)

  /** The actions on the room; a notice to a server that a round was resolved, or the game started,
      on another one; and whatever else may change what servers remember: an action that failed
      before its save, a restart. */
  datatype Step =
    | Join(player: string)
    | Move(server: ServerId, side: Side, cmd: MoveCommand)
    | Decision(side: Side, edgeId: EdgeId, choice: HexTypes.Decision)
    | Check(server: ServerId)
    | PrimaryTimeout(server: ServerId, forRound: int)
    | BackupTimeout(server: ServerId, forRound: int)
    | Abandon(winner: Side)
    | RemoteRound(server: ServerId)
    | Memory(flags: map<ServerId, PerSide<bool>>)

  const NO_FLAGS: PerSide<bool> := PerSide(false, false)

  function FlagsOf(flags: map<ServerId, PerSide<bool>>, server: ServerId): PerSide<bool> {
    if server in flags then flags[server] else NO_FLAGS
  }

  // ---- The actions ----

  /** The move handler: it repeats the room's own checks and clamps before calling it. */
  function MoveOrder(r: Room, side: Side, cmd: MoveCommand): Result<Room, Error> {
    if r.phase != Planning then Err(WrongPhase)
    else if Remaining(r, side) <= 0 then Err(AllUnitsMoved)
    else MoveUnits(r, side, cmd.(unitCount := Min(cmd.unitCount, Remaining(r, side))))
  }

  predicate MoveCompleted(r: Room, flag: bool, side: Side) {
    flag || Remaining(r, side) <= 0 || NodeMobile(r.nodes, side) == 0
  }

  predicate AllReady(r: Room, flags: PerSide<bool>) {
    && IsReadyForResolution(r)
    && MoveCompleted(r, flags.a, A) && Undecided(r.pending, A) == []
    && MoveCompleted(r, flags.b, B) && Undecided(r.pending, B) == []
  }

  function Publish(w: World, r: Room): World {
    w.(room := Flushed(r), published := w.published + r.events)
  }

  /** Resolve `r`, publish, reset this server's flags. */
  function Resolve(w: World, server: ServerId, r: Room): World {
    match ResolveRound(r)
    case Err(_) => w
    case Ok(next) =>
      Publish(w, next).(flags := w.flags[server := NO_FLAGS], completed := w.completed + [r.round])
  }

  /** Both timeouts: the round is checked again under the lock, then swept, then resolved. */
  function Timeout(w: World, server: ServerId, forRound: int, r: Room): World {
    if r.phase != Planning || r.round != forRound then w
    else match Sweep(r)
      case Err(_) => w
      case Ok(swept) => Resolve(w, server, swept)
  }

  function Do(w: World, step: Step): World {
    match step
    case Join(player) =>
      (match AddPlayer(w.room, player)
       case Err(_) => w
       case Ok(r) => Publish(w, r))
    case Move(server, side, cmd) =>
      (match MoveOrder(w.room, side, cmd)
       case Err(_) => w
       case Ok(r) =>
         Publish(w, r).(flags := w.flags[server := FlagsOf(w.flags, server).Set(side, Remaining(r, side) <= 0)]))
    case Decision(side, edgeId, choice) =>
      (match ResolveEncounter(w.room, edgeId, side, choice)
       case Err(_) => w
       case Ok(r) => Publish(w, r))
    case Check(server) =>
      if AllReady(w.room, FlagsOf(w.flags, server)) then Resolve(w, server, w.room) else w
    case PrimaryTimeout(server, forRound) =>
      Timeout(w, server, forRound, w.room)
    case BackupTimeout(server, forRound) =>
      Timeout(w, server, forRound, AssignOwner(w.room, server))
    case Abandon(winner) =>
      if w.room.phase == GameOver then w else Publish(w, ForceGameOver(w.room, Some(winner), PlayerDisconnected))
    case RemoteRound(server) =>
      w.(flags := w.flags[server := NO_FLAGS])
    case Memory(flags) =>
      w.(flags := flags)
  }

  function Run(w: World, steps: seq<Step>): World
    decreases |steps|
  {
    if steps == [] then w else Run(Do(w, steps[0]), steps[1..])
  }

  lemma {:induction false} RunSnoc(w: World, steps: seq<Step>, last: Step)
    ensures Run(w, steps + [last]) == Do(Run(w, steps), last)
    decreases |steps|
  {
    hide Do;
    if steps == [] {
      assert [] + [last] == [last] && [last][1..] == [];
    } else {
      assert (steps + [last])[1..] == steps[1..] + [last];
      RunSnoc(Do(w, steps[0]), steps[1..], last);
    }
  }

  /** As the registry creates it: map drawn, owner set, nobody joined. */
  function Start(owner: ServerId): World {
    World(AssignOwner(InitialRoom(), owner), map[], [], [])
  }

  // ---- The run invariant ----

  /** Completed rounds are 1, 2, 3, … and the room is at the next one. */
  predicate RoundsOk(w: World) {
    && (forall i :: 0 <= i < |w.completed| ==> w.completed[i] == i + 1)
    && (|w.room.players| < 2 ==> w.completed == [])
    && (|w.room.players| == 2 ==> w.room.round == |w.completed| + 1)
    && |w.completed| <= MAX_ROUNDS
    && (|w.completed| == MAX_ROUNDS ==> w.room.phase == GameOver)
  }

  /** The units a side brought into the game. */
  function Brought(r: Room, side: Side): int {
    if |r.players| >= (if side == A then 1 else 2) then MAX_UNITS else 0
  }

  predicate StartsPresent(ns: seq<NodeState>) {
    HasNode(ns, StartNode(A)) && HasNode(ns, StartNode(B))
  }

  predicate WorldOk(w: World) {
    && SessionOk(w.room)
    && StartsPresent(w.room.nodes)
    && w.room.events == []
    && RoundsOk(w)
    && Total(w.room, A) <= Brought(w.room, A)
    && Total(w.room, B) <= Brought(w.room, B)
  }

  lemma StartOk(owner: ServerId)
    ensures WorldOk(Start(owner))
  {
    hide NodeMobile, EdgeTravel, WellFormed, ShortEdges;
    InitialRoomWellFormed();
    InitialShort();
    NobodyThere(InitialNodes(), InitialEdges(), A);
    NobodyThere(InitialNodes(), InitialEdges(), B);
    OwnerIrrelevant(InitialRoom(), owner);
    InitialStarts();
    EmptyWorldOk(InitialRoom(), owner);
  }

  lemma InitialStarts()
    ensures StartsPresent(InitialNodes())
  {
    NodePresent(InitialNodes(), 0);
    NodePresent(InitialNodes(), 4);
  }

  lemma StartsCarry(ns: seq<NodeState>, ms: seq<NodeState>)
    requires StartsPresent(ns) && SameIds(ns, ms)
    ensures StartsPresent(ms)
  {
    SameIdsIndex(ns, ms, StartNode(A));
    SameIdsIndex(ns, ms, StartNode(B));
  }

  lemma EmptyWorldOk(r: Room, owner: ServerId)
    requires WellFormed(AssignOwner(r, owner)) && ShortEdges(r.edges) && r.pending == [] && r.events == [] && r.players == []
    requires Total(r, A) == 0 && Total(r, B) == 0 && StartsPresent(r.nodes)
    ensures WorldOk(World(AssignOwner(r, owner), map[], [], []))
  {
    hide WellFormed;
  }

  lemma InitialShort()
    ensures ShortEdges(InitialEdges())
    ensures forall i :: 0 <= i < |InitialEdges()| ==> InitialEdges()[i].traveling == []
  {
  }

  lemma {:induction false} NobodyThere(ns: seq<NodeState>, es: seq<EdgeState>, side: Side)
    requires forall i :: 0 <= i < |ns| ==> Mobile(ns[i], side) == 0
    requires forall i :: 0 <= i < |es| ==> es[i].traveling == []
    ensures NodeMobile(ns, side) == 0 && EdgeTravel(es, side) == 0
    decreases |ns| + |es|
  {
    if ns != [] {
      NobodyThere(ns[1..], es, side);
    } else if es != [] {
      NobodyThere(ns, es[1..], side);
    }
  }

  /** Who owns the room, and what it has announced, matters to no invariant. */
  lemma OwnerIrrelevant(r: Room, owner: string)
    ensures WellFormed(AssignOwner(r, owner)) == WellFormed(r)
    ensures SessionOk(AssignOwner(r, owner)) == SessionOk(r)
  {
    assert SideOk(AssignOwner(r, owner), A) == SideOk(r, A) && SideOk(AssignOwner(r, owner), B) == SideOk(r, B);
    assert EncountersLive(AssignOwner(r, owner)) == EncountersLive(r);
  }

  lemma FlushIrrelevant(r: Room)
    ensures WellFormed(Flushed(r)) == WellFormed(r)
    ensures SessionOk(Flushed(r)) == SessionOk(r)
    ensures Total(Flushed(r), A) == Total(r, A) && Total(Flushed(r), B) == Total(r, B)
  {
    assert SideOk(Flushed(r), A) == SideOk(r, A) && SideOk(Flushed(r), B) == SideOk(r, B);
    assert EncountersLive(Flushed(r)) == EncountersLive(r);
  }

  lemma SameEncounters(r: Room, next: Room)
    requires SessionOk(r) && WellFormed(next) && next.edges == r.edges && next.pending == r.pending
    ensures SessionOk(next)
  {
    hide WellFormed;
    assert forall k :: 0 <= k < |r.pending| ==> Live(r.edges, r.pending[k]);
  }

  // ---- Every action keeps it ----

  lemma JoinKeepsStarts(r: Room, player: string)
    requires StartsPresent(r.nodes) && AddPlayer(r, player).Ok?
    ensures StartsPresent(AddPlayer(r, player).value.nodes)
  {
    hide NodeIndex, Stationed;
    var i := NodeIndex(r.nodes, StartNode(NextSide(r))).value;
    StationedId(r.nodes[i], NextSide(r));
    StartsCarry(r.nodes, AddPlayer(r, player).value.nodes);
  }

  lemma StationedId(n: NodeState, side: Side)
    ensures Stationed(n, side, MAX_UNITS).id == n.id && Stationed(n, side, MAX_UNITS).kind == n.kind
  {
  }

  lemma JoinOk(w: World, player: string)
    requires WorldOk(w)
    ensures WorldOk(Do(w, Join(player)))
  {
    hide SessionOk, AddPlayer, Total, RoundsOk, StartsPresent;
    var r := w.room;
    if AddPlayer(r, player).Ok? {
      var next := AddPlayer(r, player).value;
      JoinedRoomOk(r, player);
      JoinKeepsStarts(r, player);
      JoinKeepsRounds(w, player);
      AddPlayerLedger(r, player, A);
      AddPlayerLedger(r, player, B);
      JoinBrings(r, player);
      FlushIrrelevant(next);
    }
  }

  lemma JoinedRoomOk(r: Room, player: string)
    requires SessionOk(r) && AddPlayer(r, player).Ok?
    ensures SessionOk(AddPlayer(r, player).value)
  {
    AddPlayerKeepsWellFormed(r, player);
    JoinFrame(r, player);
    hide WellFormed, AddPlayer, EncountersLive, EdgeIndex;
    SameEncounters(r, AddPlayer(r, player).value);
  }

  lemma JoinFrame(r: Room, player: string)
    requires AddPlayer(r, player).Ok?
    ensures AddPlayer(r, player).value.edges == r.edges && AddPlayer(r, player).value.pending == r.pending
  {
  }

  lemma JoinKeepsRounds(w: World, player: string)
    requires RoundsOk(w) && AddPlayer(w.room, player).Ok?
    ensures RoundsOk(Do(w, Join(player)))
  {
  }

  lemma JoinBrings(r: Room, player: string)
    requires AddPlayer(r, player).Ok?
    ensures Brought(AddPlayer(r, player).value, A) == Brought(r, A) + if NextSide(r) == A then MAX_UNITS else 0
    ensures Brought(AddPlayer(r, player).value, B) == Brought(r, B) + if NextSide(r) == B then MAX_UNITS else 0
  {
  }

  lemma MoveUnitsFrame(r: Room, side: Side, cmd: MoveCommand)
    requires MoveUnits(r, side, cmd).Ok?
    ensures MoveUnits(r, side, cmd).value.(used := r.used, moves := r.moves, events := r.events) == r
  {
  }

  lemma MoveOk(w: World, server: ServerId, side: Side, cmd: MoveCommand)
    requires WorldOk(w)
    ensures WorldOk(Do(w, Move(server, side, cmd)))
  {
    hide WellFormed, EncountersLive, MoveUnits;
    var r := w.room;
    if MoveOrder(r, side, cmd).Ok? {
      var clamped := cmd.(unitCount := Min(cmd.unitCount, Remaining(r, side)));
      var next := MoveOrder(r, side, cmd).value;
      MoveUnitsFrame(r, side, clamped);
      assert next.(used := r.used, moves := r.moves, events := r.events) == r;
      MoveUnitsKeepsWellFormed(r, side, clamped);
      SameEncounters(r, next);
      FlushIrrelevant(next);
      assert Total(Flushed(next), A) == Total(r, A) && Total(Flushed(next), B) == Total(r, B);
    }
  }

  lemma DecisionFrame(r: Room, edgeId: EdgeId, side: Side, choice: HexTypes.Decision)
    requires ResolveEncounter(r, edgeId, side, choice).Ok?
    ensures OnlyEncountersChanged(r, ResolveEncounter(r, edgeId, side, choice).value)
  {
  }

  lemma DecisionOk(w: World, side: Side, edgeId: EdgeId, choice: HexTypes.Decision)
    requires WorldOk(w)
    ensures WorldOk(Do(w, Decision(side, edgeId, choice)))
  {
    hide SessionOk, ResolveEncounter;
    var r := w.room;
    if ResolveEncounter(r, edgeId, side, choice).Ok? {
      var next := ResolveEncounter(r, edgeId, side, choice).value;
      DecisionKeepsSessionOk(r, edgeId, side, choice);
      DecisionFrame(r, edgeId, side, choice);
      assert next.(edges := r.edges, pending := r.pending, events := r.events) == r;
      FlushIrrelevant(next);
    }
  }

  lemma ResolveFrame(r: Room)
    requires WellFormed(r) && r.phase == Planning
    ensures ResolveRound(r).Ok?
    ensures var next := ResolveRound(r).value;
            && next.round == r.round + 1 && next.players == r.players
            && (next.phase == Planning || next.phase == GameOver)
            && (r.round + 1 > MAX_ROUNDS ==> next.phase == GameOver)
            && next.used == PerSide(0, 0)
            && |next.events| == 2
            && next.events[0].RoundResolved? && next.events[0].resolved == BothDecidedOnes(next.pending)
            && (next.events[1].RoundStarted? || next.events[1].GameEnded?)
  {
    ResolveRoundOk(r);
  }

  /** Resolving a room with nothing pending completes exactly the room's round. */
  lemma ResolveOk(w: World, server: ServerId, r: Room)
    requires WorldOk(w) && SessionOk(r) && r.phase == Planning && r.pending == []
    requires r.nodes == w.room.nodes && r.round == w.room.round && r.players == w.room.players && w.room.phase == Planning
    requires Total(r, A) <= Total(w.room, A) && Total(r, B) <= Total(w.room, B)
    ensures WorldOk(Resolve(w, server, r))
    ensures Resolve(w, server, r).completed == w.completed + [r.round]
    ensures FlagsOf(Resolve(w, server, r).flags, server) == NO_FLAGS
    ensures Resolve(w, server, r).room.ownerServer == r.ownerServer
  {
    PlanningFacts(w.room);
    PlanningFacts(r);
    hide ResolveRound, SessionOk, Total;
    ResolutionKeepsSessionOk(r);
    ResolveFrame(r);
    ResolveKeepsIds(r);
    OwnerKept(r);
    var next := ResolveRound(r).value;
    FlushIrrelevant(next);
    assert Total(next, A) <= Total(r, A) && Total(next, B) <= Total(r, B);
    StartsCarry(r.nodes, next.nodes);
    CompletedWorldOk(w, Flushed(next), w.flags[server := NO_FLAGS], w.published + next.events);
  }

  lemma CompletedWorldOk(w: World, next: Room, flags: map<ServerId, PerSide<bool>>, published: seq<Event>)
    requires RoundsOk(w) && w.room.phase == Planning && |w.room.players| == 2 && w.room.round <= MAX_ROUNDS
    requires SessionOk(next) && StartsPresent(next.nodes)
    requires next.events == [] && next.players == w.room.players && next.round == w.room.round + 1
    requires next.round > MAX_ROUNDS ==> next.phase == GameOver
    requires Total(next, A) <= MAX_UNITS && Total(next, B) <= MAX_UNITS
    ensures WorldOk(World(next, flags, w.completed + [w.room.round], published))
  {
    hide SessionOk, Total;
  }

  lemma ResolveKeepsIds(r: Room)
    requires WellFormed(r) && r.phase == Planning
    ensures ResolveRound(r).Ok? && SameIds(r.nodes, ResolveRound(r).value.nodes)
  {
    ResolveRoundOk(r);
    DispatchOk(r);
    RoundLandingOk(Dispatch(r).value);
  }

  lemma OwnerKept(r: Room)
    ensures ResolveRound(r).Ok? ==> ResolveRound(r).value.ownerServer == r.ownerServer
  {
  }

  lemma PlanningFacts(r: Room)
    requires SessionOk(r)
    ensures WellFormed(r)
    ensures r.phase != Resolution && |r.players| <= 2
    ensures r.phase == WaitingForPlayers ==> |r.players| < 2
    ensures r.phase == Planning ==> |r.players| == 2 && 1 <= r.round <= MAX_ROUNDS
    ensures forall side: Side :: 0 <= r.used.Get(side) <= MAX_UNITS
  {
    assert SideOk(r, A) && SideOk(r, B);
  }

  lemma TimeoutOk(w: World, server: ServerId, forRound: int, r: Room)
    requires WorldOk(w) && (r == w.room || r == AssignOwner(w.room, server))
    ensures WorldOk(Timeout(w, server, forRound, r))
    ensures Timeout(w, server, forRound, r).completed ==
              w.completed + if w.room.phase == Planning && w.room.round == forRound then [forRound] else []
    ensures w.room.phase == Planning && w.room.round == forRound ==>
              FlagsOf(Timeout(w, server, forRound, r).flags, server) == NO_FLAGS
              && Timeout(w, server, forRound, r).room.ownerServer == r.ownerServer
  {
    hide SessionOk, Sweep, Resolve;
    OwnerIrrelevant(w.room, server);
    if r.phase == Planning && r.round == forRound {
      SweepOk(r);
      var swept := Sweep(r).value;
      assert swept.(edges := r.edges, pending := r.pending, events := r.events) == r;
      ResolveOk(w, server, swept);
    }
  }

  lemma CheckOk(w: World, server: ServerId)
    requires WorldOk(w)
    ensures WorldOk(Do(w, Check(server)))
    ensures Do(w, Check(server)).completed ==
              w.completed + if AllReady(w.room, FlagsOf(w.flags, server)) then [w.room.round] else []
    ensures AllReady(w.room, FlagsOf(w.flags, server)) ==> FlagsOf(Do(w, Check(server)).flags, server) == NO_FLAGS
  {
    hide WorldOk, Resolve, AllReady, AddPlayer, MoveOrder, ResolveEncounter, Timeout;
    if AllReady(w.room, FlagsOf(w.flags, server)) {
      CheckResolves(w, server);
    }
  }

  lemma CheckResolves(w: World, server: ServerId)
    requires WorldOk(w) && AllReady(w.room, FlagsOf(w.flags, server))
    ensures WorldOk(Resolve(w, server, w.room))
    ensures Resolve(w, server, w.room).completed == w.completed + [w.room.round]
    ensures FlagsOf(Resolve(w, server, w.room).flags, server) == NO_FLAGS
  {
    hide SessionOk, Resolve, RoundsOk, Total;
    ReadyRoom(w.room);
    ResolveOk(w, server, w.room);
  }

  lemma ReadyRoom(r: Room)
    requires SessionOk(r) && IsReadyForResolution(r)
    ensures r.phase == Planning && r.pending == []
  {
    ReadyMeansNonePending(r);
  }

  lemma AbandonOk(w: World, winner: Side)
    requires WorldOk(w)
    ensures WorldOk(Do(w, Abandon(winner)))
  {
    hide WellFormed, EncountersLive;
    var next := ForceGameOver(w.room, Some(winner), PlayerDisconnected);
    ForceGameOverKeepsWellFormed(w.room, Some(winner), PlayerDisconnected);
    SameEncounters(w.room, next);
    FlushIrrelevant(next);
  }

  lemma StepOk(w: World, step: Step)
    requires WorldOk(w)
    ensures WorldOk(Do(w, step))
  {
    hide WorldOk;
    match step
    case Join(player) => JoinOk(w, player);
    case Move(server, side, cmd) => MoveOk(w, server, side, cmd);
    case Decision(side, edgeId, choice) => DecisionOk(w, side, edgeId, choice);
    case Check(server) => CheckOk(w, server);
    case PrimaryTimeout(server, forRound) => TimeoutOk(w, server, forRound, w.room);
    case BackupTimeout(server, forRound) => TimeoutOk(w, server, forRound, AssignOwner(w.room, server));
    case Abandon(winner) => AbandonOk(w, winner);
    case RemoteRound(server) => FlagsIrrelevant(w, w.flags[server := NO_FLAGS]);
    case Memory(flags) => FlagsIrrelevant(w, flags);
  }

  /** What servers remember matters to no invariant. */
  lemma FlagsIrrelevant(w: World, flags: map<ServerId, PerSide<bool>>)
    ensures WorldOk(w.(flags := flags)) == WorldOk(w)
  {
  }

  lemma {:induction false} RunOk(w: World, steps: seq<Step>)
    requires WorldOk(w)
    ensures WorldOk(Run(w, steps))
    decreases |steps|
  {
    hide WorldOk, Do;
    if steps != [] {
      StepOk(w, steps[0]);
      RunOk(Do(w, steps[0]), steps[1..]);
    }
  }

  // ---- The theorems, over every run of any number of servers ----

  /** What holds of every room a run can reach. */
  lemma Reachable(owner: ServerId, steps: seq<Step>)
    ensures WorldOk(Run(Start(owner), steps))
  {
    hide WorldOk;
    StartOk(owner);
    RunOk(Start(owner), steps);
  }

  /** No unit is ever created: in every reachable room a side never has more mobile units, on
      nodes and edges together, than it brought into the game. */
  lemma NoUnitCreated(owner: ServerId, steps: seq<Step>, side: Side)
    ensures Total(Run(Start(owner), steps).room, side) <= Brought(Run(Start(owner), steps).room, side) <= MAX_UNITS
  {
    hide Run, Start, SessionOk, RoundsOk, Total;
    Reachable(owner, steps);
  }

  /** On every reachable map a supply line has a garrison of one for its owner and none otherwise,
      other nodes have none, headquarters belong to nobody, and no unit count is negative. */
  lemma ReachableGarrisons(owner: ServerId, steps: seq<Step>, i: nat, side: Side)
    requires i < |Run(Start(owner), steps).room.nodes|
    ensures var n := Run(Start(owner), steps).room.nodes[i];
            && n.units.Get(side).garrison == (if n.kind == SupplyLine && n.owner == OwnerOf(side) then 1 else 0)
            && n.units.Get(side).mobile >= 0
            && (n.kind == Headquarters ==> n.owner == Neutral)
  {
    hide Run, Start, EncountersLive, RoundsOk;
    Reachable(owner, steps);
    assert NodeOk(Run(Start(owner), steps).room.nodes[i]);
  }

  /** In every reachable room each edge has at most one pending encounter, no pending encounter is
      decided by both, and the group of a side that has not decided is still on that edge with the
      rounds to go that the encounter names; so the room is ready exactly when it plans with
      nothing pending. */
  lemma ReachableEncounters(owner: ServerId, steps: seq<Step>)
    ensures var r := Run(Start(owner), steps).room;
            && (forall j, k :: 0 <= j < k < |r.pending| ==> r.pending[j].edgeId != r.pending[k].edgeId)
            && (forall k :: 0 <= k < |r.pending| ==> !r.pending[k].BothDecided())
            && (forall k, side: Side :: 0 <= k < |r.pending| && !r.pending[k].HasDecided(side) ==>
                  r.pending[k].GroupOf(side) in GroupsAt(r.edges, r.pending[k].edgeId, r.pending[k].remaining))
            && (IsReadyForResolution(r) <==> r.phase == Planning && r.pending == [])
  {
    hide Run, Start, WellFormed, RoundsOk, Total;
    Reachable(owner, steps);
    var r := Run(Start(owner), steps).room;
    ReadyMeansNonePending(r);
    assert forall k :: 0 <= k < |r.pending| ==> Live(r.edges, r.pending[k]);
  }

  /** From every reachable planning room the auto-retreat sweep raises nothing and ends with no
      encounter pending, and the round then resolves. */
  lemma ReachableSweep(owner: ServerId, steps: seq<Step>)
    requires Run(Start(owner), steps).room.phase == Planning
    ensures var swept := Sweep(Run(Start(owner), steps).room);
            swept.Ok? && swept.value.pending == [] && ResolveRound(swept.value).Ok?
  {
    hide Run, Start, Sweep, ResolveRound, SessionOk, RoundsOk, Total;
    Reachable(owner, steps);
    var r := Run(Start(owner), steps).room;
    SweepOk(r);
    var swept := Sweep(r).value;
    assert swept.(edges := r.edges, pending := r.pending, events := r.events) == r;
    PlanningFacts(swept);
    ResolveFrame(swept);
  }

  /** Rounds complete exactly once, in order, without a gap, and there are at most twenty. */
  lemma ExactlyOnceRounds(owner: ServerId, steps: seq<Step>)
    ensures var w := Run(Start(owner), steps);
            && (forall i :: 0 <= i < |w.completed| ==> w.completed[i] == i + 1)
            && |w.completed| <= 20
            && (w.room.phase == Planning ==> w.room.round == |w.completed| + 1 <= 20)
            && (|w.completed| == 20 ==> w.room.phase == GameOver)
            && w.room.phase != Resolution
  {
    hide Run, Start, SessionOk, Total;
    Reachable(owner, steps);
    PlanningFacts(Run(Start(owner), steps).room);
  }

  /** A timer armed for a round completes that round or nothing, on whichever server it fires;
      it completes it whenever the room still plans that round, and a backup then owns the room. */
  lemma TimerResolvesOnlyItsRound(owner: ServerId, steps: seq<Step>, server: ServerId, forRound: int)
    ensures var w := Run(Start(owner), steps);
            var done := if w.room.phase == Planning && w.room.round == forRound then [forRound] else [];
            && Do(w, PrimaryTimeout(server, forRound)).completed == w.completed + done
            && Do(w, BackupTimeout(server, forRound)).completed == w.completed + done
            && (done == [] ==> Do(w, PrimaryTimeout(server, forRound)) == w == Do(w, BackupTimeout(server, forRound)))
            && (done != [] ==> Do(w, BackupTimeout(server, forRound)).room.ownerServer == Some(server))
  {
    var w := Run(Start(owner), steps);
    hide Run, Start, WorldOk, Sweep, Resolve;
    Reachable(owner, steps);
    TimeoutOk(w, server, forRound, w.room);
    TimeoutOk(w, server, forRound, AssignOwner(w.room, server));
  }

  /** What a step announces when it completes a round: the round, with no encounter reported as
      resolved, and its successor. */
  predicate AnnouncesRound(w: World, after: World) {
    && |after.published| == |w.published| + 2
    && after.published[..|w.published|] == w.published
    && after.published[|w.published|].RoundResolved?
    && after.published[|w.published|].resolved == []
    && (after.published[|w.published| + 1].RoundStarted? || after.published[|w.published| + 1].GameEnded?)
  }

  lemma ResolvePublishes(w: World, server: ServerId, r: Room)
    requires SessionOk(r) && r.phase == Planning && r.pending == []
    ensures AnnouncesRound(w, Resolve(w, server, r))
  {
    hide SessionOk, ResolveRound;
    ResolutionKeepsSessionOk(r);
    PlanningFacts(r);
    ResolveFrame(r);
  }

  lemma TimeoutPublishes(w: World, server: ServerId, r: Room)
    requires WorldOk(w) && SessionOk(r) && r.phase == Planning
    ensures AnnouncesRound(w, Timeout(w, server, r.round, r))
  {
    hide SessionOk, Sweep, Resolve, AnnouncesRound;
    SweepOk(r);
    var swept := Sweep(r).value;
    assert swept.(edges := r.edges, pending := r.pending, events := r.events) == r;
    ResolvePublishes(w, server, swept);
  }

  /** Whatever step completes a round, an early check or a timeout on any server, it starts with no
      encounter pending and announces none as resolved: it publishes the round and its successor,
      never the decisions a sweep took, because a resolution clears the events before it. */
  lemma ResolutionPublishes(w: World, step: Step)
    requires WorldOk(w) && Do(w, step).completed != w.completed
    ensures AnnouncesRound(w, Do(w, step))
  {
    hide SessionOk, Sweep, Resolve, AnnouncesRound, AllReady, AddPlayer, MoveOrder, ResolveEncounter, Timeout;
    match step
    case Check(server) =>
      AllReadyPlans(w.room, FlagsOf(w.flags, server));
      ReadyRoom(w.room);
      ResolvePublishes(w, server, w.room);
    case PrimaryTimeout(server, forRound) =>
      TimeoutNeedsRound(w, server, forRound, w.room);
      TimeoutPublishes(w, server, w.room);
    case BackupTimeout(server, forRound) =>
      OwnerIrrelevant(w.room, server);
      TimeoutNeedsRound(w, server, forRound, AssignOwner(w.room, server));
      TimeoutPublishes(w, server, AssignOwner(w.room, server));
    case _ =>
  }

  lemma AllReadyPlans(r: Room, flags: PerSide<bool>)
    requires AllReady(r, flags)
    ensures IsReadyForResolution(r)
  {
  }

  lemma TimeoutNeedsRound(w: World, server: ServerId, forRound: int, r: Room)
    ensures Timeout(w, server, forRound, r) != w ==> r.phase == Planning && r.round == forRound
  {
  }

  // ---- The end of the game ----

  /** Once both players have joined, a finished game stays finished and nothing more completes. */
  lemma {:induction false} GameOverAbsorbs(w: World, steps: seq<Step>)
    requires |w.room.players| == 2 && w.room.phase == GameOver
    ensures Run(w, steps).room == w.room
    ensures Run(w, steps).completed == w.completed && Run(w, steps).published == w.published
    decreases |steps|
  {
    if steps != [] {
      GameOverStep(w, steps[0]);
      GameOverAbsorbs(Do(w, steps[0]), steps[1..]);
    }
  }

  lemma GameOverStep(w: World, step: Step)
    requires |w.room.players| == 2 && w.room.phase == GameOver
    ensures Do(w, step) == w.(flags := Do(w, step).flags)
  {
  }

  /** A fresh name can still join a room with a player missing, whatever its phase. */
  lemma JoinEffect(w: World, player: string)
    requires WorldOk(w) && |w.room.players| < 2 && player !in w.room.players
    ensures var next := Do(w, Join(player)).room;
            && next.players == w.room.players + [player]
            && next.phase == if |w.room.players| == 1 then Planning else w.room.phase
  {
    assert NodeIndex(w.room.nodes, StartNode(NextSide(w.room))).Some?;
    hide NodeIndex, WellFormed, EncountersLive, Total, Stationed;
  }

  lemma RunOne(w: World, a: Step)
    ensures Run(w, [a]) == Do(w, a)
  {
    hide Do;
    assert [a][1..] == [] && Run(Do(w, a), []) == Do(w, a);
  }

  /** A finished game stays as it is through every run exactly when both players have joined. */
  lemma GameOverFinalIff(w: World)
    requires WorldOk(w) && w.room.phase == GameOver
    ensures (forall steps :: Run(w, steps).room == w.room) <==> |w.room.players| == 2
  {
    hide WorldOk, Do, Run;
    if |w.room.players| == 2 {
      forall steps ensures Run(w, steps).room == w.room {
        GameOverAbsorbs(w, steps);
      }
    } else {
      AtMostTwo(w);
      var player := if "p" in w.room.players then "q" else "p";
      assert "p"[0] != "q"[0];
      JoinEffect(w, player);
      RunOne(w, Join(player));
    }
  }

  lemma AtMostTwo(w: World)
    requires WorldOk(w)
    ensures |w.room.players| <= 2
  {
    PlanningFacts(w.room);
  }

  /** The first player leaves before anybody else comes, and the server, for which the missing
      player counts as connected, ends the game for B; the next player to join revives it. */
  lemma GameOverRevives(owner: ServerId)
    ensures Run(Start(owner), [Join("p"), Abandon(B)]).room.phase == GameOver
    ensures Run(Start(owner), [Join("p"), Abandon(B), Join("q")]).room.phase == Planning
  {
    hide WorldOk, Run, Start, Do;
    StartOk(owner);
    NobodyYet(owner);
    SecondJoinRevives(Start(owner));
    RunThree(Start(owner), Join("p"), Abandon(B), Join("q"));
  }

  lemma NobodyYet(owner: ServerId)
    ensures Start(owner).room.players == []
  {
  }

  lemma SecondJoinRevives(w: World)
    requires WorldOk(w) && w.room.players == []
    ensures Do(Do(w, Join("p")), Abandon(B)).room.phase == GameOver
    ensures Do(Do(Do(w, Join("p")), Abandon(B)), Join("q")).room.phase == Planning
  {
    hide WorldOk, Do;
    assert "p"[0] != "q"[0];
    JoinEffect(w, "p");
    StepOk(w, Join("p"));
    AbandonEffect(Do(w, Join("p")), B);
    StepOk(Do(w, Join("p")), Abandon(B));
    JoinEffect(Do(Do(w, Join("p")), Abandon(B)), "q");
  }

  lemma AbandonEffect(w: World, winner: Side)
    ensures Do(w, Abandon(winner)).room.phase == GameOver && Do(w, Abandon(winner)).room.players == w.room.players
  {
  }

  lemma RunThree(w: World, a: Step, b: Step, c: Step)
    ensures Run(w, [a, b]) == Do(Do(w, a), b)
    ensures Run(w, [a, b, c]) == Do(Do(Do(w, a), b), c)
  {
    assert [a, b][1..] == [b] && [b][1..] == [];
    assert [a, b, c][1..] == [b, c] && [b, c][1..] == [c] && [c][1..] == [];
    assert Run(Do(w, a), [b]) == Run(Do(Do(w, a), b), []);
    assert Run(Do(w, a), [b, c]) == Run(Do(Do(w, a), b), [c]) == Run(Do(Do(Do(w, a), b), c), []);
  }

  // ---- The winner ----

  lemma {:induction false} AllOwnedCount(ns: seq<NodeState>, side: Side)
    requires AllOwnedBy(ns, OwnerOf(side))
    requires forall i :: 0 <= i < |ns| ==> Canonical(ns[i])
    ensures CountOwned(ns, OwnerOf(side.Other())) == 0
    ensures (exists i :: 0 <= i < |ns| && ns[i].kind != Headquarters) ==> CountOwned(ns, OwnerOf(side)) > 0
  {
    if ns != [] {
      assert AllOwnedBy(ns[1..], OwnerOf(side));
      AllOwnedCount(ns[1..], side);
      if ns[0].kind == Headquarters && exists i :: 0 <= i < |ns| && ns[i].kind != Headquarters {
        var i :| 0 <= i < |ns| && ns[i].kind != Headquarters;
        assert ns[1..][i - 1] == ns[i];
      }
    }
  }

  /** The side that holds every node outside headquarters when a round resolves has won. */
  lemma ConquerorWins(r: Room, side: Side)
    requires WellFormed(r) && r.phase == Planning && ResolveRound(r).Ok?
    requires AllOwnedBy(ResolveRound(r).value.nodes, OwnerOf(side))
    requires exists i :: 0 <= i < |r.nodes| && r.nodes[i].kind != Headquarters
    ensures var next := ResolveRound(r).value;
            && next.phase == GameOver
            && Winner(next.nodes) == Some(side)
            && |next.events| == 2 && next.events[1].GameEnded? && next.events[1].winner == Some(side)
  {
    ConquestEnds(r);
    LandedNodes(r);
    var next := ResolveRound(r).value;
    var i :| 0 <= i < |r.nodes| && r.nodes[i].kind != Headquarters;
    assert next.nodes[i].kind == r.nodes[i].kind;
    hide ResolveRound, AllOwnedBy, WellFormed;
    AllOwnedCount(next.nodes, side);
  }

  lemma LandedNodes(r: Room)
    requires WellFormed(r) && r.phase == Planning && ResolveRound(r).Ok?
    ensures var next := ResolveRound(r).value;
            && |next.nodes| == |r.nodes|
            && forall i :: 0 <= i < |next.nodes| ==> Canonical(next.nodes[i]) && next.nodes[i].kind == r.nodes[i].kind
  {
    ResolveRoundOk(r);
    DispatchOk(r);
    RoundLandingOk(Dispatch(r).value);
    var next := ResolveRound(r).value;
    forall i | 0 <= i < |next.nodes| ensures Canonical(next.nodes[i]) && next.nodes[i].kind == r.nodes[i].kind {
      assert NodeOk(next.nodes[i]);
    }
  }

  lemma ConquestEnds(r: Room)
    requires ResolveRound(r).Ok?
    ensures var next := ResolveRound(r).value;
            CheckGameOver(next.nodes) ==>
              && next.phase == GameOver && |next.events| == 2
              && next.events[1].GameEnded? && next.events[1].winner == Winner(next.nodes)
  {
    hide CheckGameOver, Winner, Scores, Dispatch, RoundLanding, HistoryCleared;
  }
}
