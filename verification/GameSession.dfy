/** One server's session object over a room kept in memory: planning flags, event buffer and the
    actions that drive the room (HexWar.Application/Sessions/GameSession.cs,
    PlayerSessionState.cs). Every action is tied to the step of the world it takes. */
module Sessions {
  import opened HexTypes
  import opened Nodes
  import opened Edges
  import opened Rooms
  import opened RoomWellFormed
  import opened RoomLedger
  import opened EncounterInvariant
  import opened RoomObjects
  import opened RingBuffers
  import opened SessionWorld
  import opened Announcements

  const WINDOW: nat := 200

  datatype BufferedEvent = BufferedEvent(sequenceNumber: int, event: Event)

  // ---- The reconnect window ----

  /** Published events carry the numbers 1, 2, 3, … */
  function Numbered(events: seq<Event>): seq<BufferedEvent> {
    seq(|events|, i requires 0 <= i < |events| => BufferedEvent(i + 1, events[i]))
  }

  lemma NumberedAppend(events: seq<Event>, e: Event)
    ensures Numbered(events + [e]) == Numbered(events) + [BufferedEvent(|events| + 1, e)]
  {
  }

  predicate After(e: BufferedEvent, seen: int) {
    e.sequenceNumber > seen
  }

  predicate Ascending(es: seq<BufferedEvent>) {
    forall i, j :: 0 <= i < j < |es| ==> es[i].sequenceNumber < es[j].sequenceNumber
  }

  /** A run of consecutive numbers filtered by "after `seen`" is its tail. */
  lemma {:induction false} FilterAfter(es: seq<BufferedEvent>, first: int, seen: int)
    requires forall i :: 0 <= i < |es| ==> es[i].sequenceNumber == first + i
    ensures Filter(es, e => After(e, seen)) == es[Min(|es|, Max(0, seen + 1 - first))..]
    decreases |es|
  {
    if es != [] {
      FilterAfter(es[1..], first + 1, seen);
    }
  }

  /** Where the answer to a client that has seen `seen` events starts. */
  function WindowStart(published: nat, seen: int): nat {
    Max(Max(0, published - WINDOW), Min(published, seen))
  }

  /** What a client that has seen `seen` events is sent: exactly the events after that one when
      the gap is at most 200, and exactly the last 200 events otherwise. */
  lemma WindowAfter(events: seq<Event>, seen: int)
    ensures var sent := Filter(Last(Numbered(events), WINDOW), e => After(e, seen));
            && sent == Numbered(events)[WindowStart(|events|, seen)..]
            && Ascending(sent)
            && (forall k :: 0 <= k < |sent| ==> sent[k].sequenceNumber == WindowStart(|events|, seen) + k + 1)
            && (0 <= seen <= |events| ==> (sent == Numbered(events)[seen..] <==> |events| - seen <= 200))
            && (0 <= seen <= |events| && |events| - seen > 200 ==> sent == Numbered(events)[|events| - 200..])
  {
    hide Filter, Last;
    SentIsTail(events, seen);
    var all := Numbered(events);
    var start := WindowStart(|events|, seen);
    if 0 <= seen <= |events| && seen != start {
      assert |all[seen..]| != |all[start..]|;
    }
  }

  lemma SentIsTail(events: seq<Event>, seen: int)
    ensures Filter(Last(Numbered(events), WINDOW), e => After(e, seen)) == Numbered(events)[WindowStart(|events|, seen)..]
  {
    var all := Numbered(events);
    var first := Max(0, |events| - WINDOW);
    LastIsTail(all, WINDOW);
    NumberedTail(events, first);
    StartIs(|events|, seen, first);
    hide Filter, Last, Numbered, WindowStart, Min, Max;
    FilterAfter(all[first..], first + 1, seen);
    DropTwice(all, first, Min(|all| - first, Max(0, seen - first)));
  }

  lemma StartIs(n: nat, seen: int, first: nat)
    requires first == Max(0, n - WINDOW)
    ensures first <= n && 0 <= Min(n - first, Max(0, seen - first)) <= n - first
    ensures WindowStart(n, seen) == first + Min(n - first, Max(0, seen - first))
    ensures seen + 1 - (first + 1) == seen - first
  {
  }

  lemma NumberedTail(events: seq<Event>, first: nat)
    requires first <= |events|
    ensures |Numbered(events)| == |events| && |Numbered(events)[first..]| == |events| - first
    ensures forall i :: 0 <= i < |events| - first ==> Numbered(events)[first..][i].sequenceNumber == first + 1 + i
  {
  }

  lemma DropTwice<T>(s: seq<T>, i: nat, k: nat)
    requires i + k <= |s|
    ensures s[i..][k..] == s[i + k..]
  {
  }

  lemma LastIsTail<T>(s: seq<T>, n: nat)
    ensures Last(s, n) == s[Max(0, |s| - n)..]
  {
  }

  // ---- The objects ----

  class PlayerSessionState {
    const side: Side
    var isConnected: bool
    var moveCommandCompleted: bool
    var encounterDecisionsCompleted: bool

    constructor (side: Side)
      ensures this.side == side && isConnected && !moveCommandCompleted && !encounterDecisionsCompleted
    {
      this.side := side;
      isConnected, moveCommandCompleted, encounterDecisionsCompleted := true, false, false;
    }

    method ResetForNewRound()
      modifies this`moveCommandCompleted, this`encounterDecisionsCompleted
      ensures !moveCommandCompleted && !encounterDecisionsCompleted
    {
      moveCommandCompleted, encounterDecisionsCompleted := false, false;
    }
  }

  datatype Reply<T> = NotConnected | Failed(error: Error) | Done(value: T)

  class GameSession {
    const serverId: ServerId
    const gameRoom: GameRoom
    const stateA: PlayerSessionState
    const stateB: PlayerSessionState
    const eventBuffer: CircularBuffer<BufferedEvent>
    var eventSequence: int
    var currentPhase: Phase
    var currentRound: int
    var maxRounds: int
    var players: seq<string>
    var ownerServerId: Option<string>
    ghost var published: seq<Event>
    ghost var completed: seq<int>

    constructor (serverId: ServerId, gameRoom: GameRoom)
      requires gameRoom.Valid()
      ensures Valid() && this.serverId == serverId && this.gameRoom == gameRoom
      ensures View() == World(gameRoom.View(), map[serverId := NO_FLAGS], [], [])
    {
      this.serverId, this.gameRoom := serverId, gameRoom;
      stateA := new PlayerSessionState(A);
      stateB := new PlayerSessionState(B);
      eventBuffer := new CircularBuffer(WINDOW);
      eventSequence := 0;
      currentPhase, currentRound, maxRounds, players, ownerServerId := WaitingForPlayers, 0, 0, [], None;
      published, completed := [], [];
    }

    function State(side: Side): PlayerSessionState {
      if side == A then stateA else stateB
    }

    /** This server's part of the world. */
    ghost function View(): World
      reads this, stateA, stateB, gameRoom, Objects(gameRoom.nodes), gameRoom.edges, gameRoom.pendingEncounters
    {
      World(gameRoom.View(), Flags(), completed, published)
    }

    ghost function Flags(): map<ServerId, PerSide<bool>>
      reads stateA, stateB
    {
      map[serverId := PerSide(stateA.moveCommandCompleted, stateB.moveCommandCompleted)]
    }

    lemma FlagKeys()
      ensures Flags().Keys == {serverId}
    {
    }

    ghost predicate Buffered()
      reads `eventSequence, `published, eventBuffer, eventBuffer.buffer
    {
      && eventBuffer.Valid()
      && eventBuffer.buffer.Length == WINDOW
      && eventSequence == |published|
      && eventBuffer.Contents() == Last(Numbered(published), WINDOW)
    }

    ghost predicate Valid()
      reads this, gameRoom, Objects(gameRoom.nodes), gameRoom.edges, eventBuffer, eventBuffer.buffer
    {
      stateA != stateB && gameRoom.Valid() && Buffered()
    }

    /** The session's copies of the room's metadata. */
    ghost predicate Synced()
      reads `currentPhase, `currentRound, `maxRounds, `players, `ownerServerId
      reads gameRoom`phase, gameRoom`currentRound, gameRoom`players, gameRoom`ownerServer
    {
      && currentPhase == gameRoom.phase && currentRound == gameRoom.currentRound && maxRounds == gameRoom.maxRounds
      && players == gameRoom.players && ownerServerId == gameRoom.ownerServer
    }

    method SyncMetadata()
      modifies this`currentPhase, this`currentRound, this`maxRounds, this`players, this`ownerServerId
      ensures Synced()
    {
      currentPhase, currentRound, maxRounds := gameRoom.phase, gameRoom.currentRound, gameRoom.maxRounds;
      players, ownerServerId := gameRoom.players, gameRoom.ownerServer;
    }

    // ---- Publishing ----

    method PublishAndBroadcastEvents()
      requires Valid()
      modifies this`eventSequence, this`published, gameRoom`domainEvents, eventBuffer, eventBuffer.buffer
      ensures Valid()
      ensures gameRoom.View() == Flushed(old(gameRoom.View()))
      ensures published == old(published) + old(gameRoom.View()).events
    {
      hide GameRoom.View, NodesValid, EdgesValid, PendingValid, NodeViews, EdgeViews, PendingViews, Objects, Buffered;
      var events := gameRoom.FlushDomainEvents();
      assert old(published) + [] == old(published);
      for k := 0 to |events|
        invariant gameRoom.Valid()
        invariant Buffered()
        invariant gameRoom.View() == Flushed(old(gameRoom.View()))
        invariant published == old(published) + events[..k]
      {
        Announce(events[k]);
      }
    }

    method Announce(event: Event)
      requires Buffered()
      modifies this`eventSequence, this`published, eventBuffer, eventBuffer.buffer
      ensures Buffered() && published == old(published) + [event]
    {
      NumberedAppend(published, event);
      LastPrefix(Numbered(published), [BufferedEvent(|published| + 1, event)], WINDOW);
      eventSequence := eventSequence + 1;
      eventBuffer.Add(BufferedEvent(eventSequence, event));
      published := published + [event];
    }

    // ---- Resolving ----

    method ResetForNewRound()
      requires stateA != stateB
      modifies stateA, stateB
      ensures Flags() == map[serverId := NO_FLAGS]
      ensures stateA.isConnected == old(stateA.isConnected) && stateB.isConnected == old(stateB.isConnected)
    {
      stateA.ResetForNewRound();
      stateB.ResetForNewRound();
    }

    /** Resolves the round of a room known to resolve, publishes it and starts the flags afresh. */
    method ResolveRound()
      requires Valid() && Rooms.ResolveRound(gameRoom.View()).Ok?
      modifies this, gameRoom, gameRoom.parts, gameRoom.edges, stateA, stateB, eventBuffer, eventBuffer.buffer
      ensures Valid() && Synced()
      ensures gameRoom.View() == Flushed(Rooms.ResolveRound(old(gameRoom.View())).value)
      ensures published == old(published) + Rooms.ResolveRound(old(gameRoom.View())).value.events
      ensures completed == old(completed) + [old(gameRoom.View()).round]
      ensures Flags() == map[serverId := NO_FLAGS]
    {
      hide NodesValid, EdgesValid, PendingValid, NodeViews, EdgeViews, PendingViews, Objects, Buffered,
        GameRoom.View, Rooms.ResolveRound, Synced, Flushed;
      gameRoom.ViewFields();
      var round := gameRoom.currentRound;
      var failed := gameRoom.ResolveRound();
      SyncMetadata();
      PublishAndBroadcastEvents();
      ResetForNewRound();
      completed := completed + [round];
    }

    predicate IsMoveCommandCompleted(side: Side)
      reads State(side), gameRoom, set n | n in gameRoom.nodes :: n.Group(side)
    {
      State(side).moveCommandCompleted || gameRoom.GetRemainingUnits(side) <= 0 || MobileSum(gameRoom.nodes, side) == 0
    }

    predicate AllSidesReady()
      reads stateA, stateB, gameRoom, gameRoom.pendingEncounters, set n | n in gameRoom.nodes :: n.Group(A), set n | n in gameRoom.nodes :: n.Group(B)
    {
      && gameRoom.IsReadyForResolution()
      && IsMoveCommandCompleted(A) && gameRoom.GetUndecidedEncounters(A) == []
      && IsMoveCommandCompleted(B) && gameRoom.GetUndecidedEncounters(B) == []
    }

    lemma ReadyAgrees()
      requires gameRoom.Valid()
      ensures AllSidesReady() == AllReady(gameRoom.View(), FlagsOf(Flags(), serverId))
    {
      hide NodesValid, EdgesValid, PendingValid, NodeViews, EdgeViews, PendingViews, Objects, GameRoom.View,
        Rooms.IsReadyForResolution, GameRoom.IsReadyForResolution, GameRoom.GetRemainingUnits, Undecided;
      gameRoom.QueriesAgree(A);
      gameRoom.QueriesAgree(B);
      PendingCount(gameRoom.GetUndecidedEncounters(A));
      PendingCount(gameRoom.GetUndecidedEncounters(B));
    }

    method IsEverySideReady() returns (ready: bool)
      requires Valid()
      ensures ready == AllReady(View().room, FlagsOf(View().flags, serverId))
    {
      hide NodesValid, EdgesValid, PendingValid, NodeViews, EdgeViews, PendingViews, Objects, Buffered,
        GameRoom.View, AllSidesReady, AllReady, Flags, FlagsOf;
      ReadyAgrees();
      ready := AllSidesReady();
    }

    method CheckAndResolveIfReady()
      requires Valid() && WorldOk(View())
      modifies this, gameRoom, gameRoom.parts, gameRoom.edges, stateA, stateB, eventBuffer, eventBuffer.buffer
      ensures Valid() && Synced()
      ensures View() == Do(old(View()), Check(serverId))
    {
      hide NodesValid, EdgesValid, PendingValid, NodeViews, EdgeViews, PendingViews, Objects, Buffered,
        GameRoom.View, AllSidesReady, AllReady, WorldOk, Resolve, Do, Flags, FlagsOf, Flushed, Synced, Rooms.ResolveRound;
      ghost var w := View();
      FlagKeys();
      CheckIs(w, serverId);
      ReadyWillResolve(w, serverId);
      var allReady := IsEverySideReady();
      SyncMetadata();
      if allReady {
        ResolveRound();
        ResolveIs(w, View(), serverId, w.room);
      }
    }

    // ---- Reconnecting ----

    /** Exactly the published events after `lastSeen` that the window still holds, in order. */
    method GetEventsAfter(lastSeen: int) returns (events: seq<BufferedEvent>)
      requires Buffered()
      ensures events == Numbered(published)[WindowStart(|published|, lastSeen)..]
      ensures 0 <= lastSeen <= |published| ==>
                events == Numbered(published)[if |published| - lastSeen <= 200 then lastSeen else |published| - 200..]
      ensures Ascending(events)
    {
      WindowAfter(published, lastSeen);
      var keep := (e: BufferedEvent) => After(e, lastSeen);
      FilterSame(eventBuffer.Contents(), keep, e => After(e, lastSeen));
      events := eventBuffer.Where(keep);
    }

    // ---- Commands ----

    /** The room reserves the order, and the session notes whether the side has used all its units. */
    method TakeOrder(side: Side, command: MoveCommand) returns (r: Result<int, Error>)
      requires Valid()
      modifies gameRoom`pendingMoves, gameRoom`unitUsedThisRound, gameRoom`domainEvents, State(side)`moveCommandCompleted
      ensures Valid()
      ensures r.Err? ==> MoveOrder(old(gameRoom.View()), side, command) == Err(r.error) && View() == old(View())
      ensures r.Ok? ==> MoveOrder(old(gameRoom.View()), side, command) == Ok(gameRoom.View())
      ensures r.Ok? ==> State(side).moveCommandCompleted == (Remaining(gameRoom.View(), side) <= 0)
      ensures r.Ok? ==> Reserves(old(gameRoom.View()), gameRoom.View(), side, command, r.value)
    {
      hide NodesValid, EdgesValid, PendingValid, NodeViews, EdgeViews, PendingViews, Objects, Buffered,
        GameRoom.View, Rooms.MoveUnits, Reserves;
      ghost var before := gameRoom.View();
      gameRoom.ViewFields();
      if gameRoom.phase != Planning {
        return Err(WrongPhase);
      }
      var remaining := gameRoom.GetRemainingUnits(side);
      if remaining <= 0 {
        return Err(AllUnitsMoved);
      }
      var moved := gameRoom.MoveUnits(side, command.(unitCount := Min(command.unitCount, remaining)));
      if moved.Err? {
        return Err(moved.error);
      }
      gameRoom.ViewFields();
      State(side).moveCommandCompleted := gameRoom.GetRemainingUnits(side) <= 0;
      OrderReserves(before, side, command);
      r := Ok(moved.value);
    }

    /** The locked part of a move: nothing changes if it is refused. */
    method MoveUnits(side: Side, command: MoveCommand) returns (r: Result<int, Error>)
      requires Valid()
      modifies this, gameRoom`pendingMoves, gameRoom`unitUsedThisRound, gameRoom`domainEvents, stateA, stateB,
        eventBuffer, eventBuffer.buffer
      ensures Valid() && Synced()
      ensures r.Err? ==> MoveOrder(old(gameRoom.View()), side, command) == Err(r.error) && View() == old(View())
      ensures r.Ok? ==> MoveOrder(old(gameRoom.View()), side, command).Ok?
      ensures r.Ok? ==> View() == Do(old(View()), Move(serverId, side, command))
      ensures r.Ok? ==> Reserves(old(gameRoom.View()), gameRoom.View(), side, command, r.value)
    {
      hide NodesValid, EdgesValid, PendingValid, NodeViews, EdgeViews, PendingViews, Objects, Buffered,
        GameRoom.View, Do, Flushed, MoveOrder, Synced, Reserves;
      ghost var w := View();
      SyncMetadata();
      r := TakeOrder(side, command);
      if r.Ok? {
        FlushReserves(w.room, gameRoom.View(), side, command, r.value);
        PublishAndBroadcastEvents();
        MoveIs(w, View(), serverId, side, command);
      }
    }

    /** A move, and the check whether the round can be resolved early. */
    method HandleMoveUnits(side: Side, command: MoveCommand) returns (r: Reply<int>)
      requires Valid() && WorldOk(View())
      modifies this, gameRoom, gameRoom.parts, gameRoom.edges, stateA, stateB, eventBuffer, eventBuffer.buffer
      ensures Valid() && WorldOk(View())
      ensures r.NotConnected? == !old(State(side).isConnected)
      ensures r.Failed? ==> MoveOrder(old(gameRoom.View()), side, command) == Err(r.error)
      ensures !r.Done? ==> View() == old(View())
      ensures r.Done? ==> MoveOrder(old(gameRoom.View()), side, command).Ok?
      ensures r.Done? ==> View() == Do(Do(old(View()), Move(serverId, side, command)), Check(serverId))
      ensures r.Done? ==> Reserves(old(gameRoom.View()), Do(old(View()), Move(serverId, side, command)).room, side, command, r.value)
    {
      hide NodesValid, EdgesValid, PendingValid, NodeViews, EdgeViews, PendingViews, Objects, Buffered,
        GameRoom.View, Do, WorldOk, MoveOrder, Synced, Reserves;
      if !State(side).isConnected {
        return NotConnected;
      }
      ghost var w := View();
      var moved := MoveUnits(side, command);
      if moved.Err? {
        return Failed(moved.error);
      }
      StepOk(w, Move(serverId, side, command));
      StepOk(View(), Check(serverId));
      CheckAndResolveIfReady();
      r := Done(moved.value);
    }

    /** The room takes the decision and the session notes whether the side has more to take. */
    method TakeDecision(side: Side, edgeId: EdgeId, choice: HexTypes.Decision) returns (r: Option<Error>)
      requires Valid()
      modifies gameRoom`pendingEncounters, gameRoom`domainEvents, gameRoom.edges, gameRoom.pendingEncounters,
        stateA`encounterDecisionsCompleted, stateB`encounterDecisionsCompleted
      ensures Valid()
      ensures r.Some? ==> Rooms.ResolveEncounter(old(gameRoom.View()), edgeId, side, choice) == Err(r.value)
                          && gameRoom.View() == old(gameRoom.View())
      ensures r.None? ==> Rooms.ResolveEncounter(old(gameRoom.View()), edgeId, side, choice) == Ok(gameRoom.View())
      ensures r.None? ==> State(side).encounterDecisionsCompleted == (gameRoom.GetUndecidedEncounters(side) == [])
    {
      hide NodesValid, EdgesValid, PendingValid, NodeViews, EdgeViews, PendingViews, Objects, Buffered,
        GameRoom.View, Rooms.ResolveEncounter, GameRoom.GetUndecidedEncounters;
      r := gameRoom.ResolveEncounter(edgeId, side, choice);
      if r.None? {
        State(side).encounterDecisionsCompleted := gameRoom.GetUndecidedEncounters(side) == [];
      }
    }

    /** The locked part of an encounter decision. */
    method DecideEncounter(side: Side, edgeId: EdgeId, choice: HexTypes.Decision) returns (r: Option<Error>)
      requires Valid()
      modifies this, gameRoom`pendingEncounters, gameRoom`domainEvents, gameRoom.edges, gameRoom.pendingEncounters,
        stateA, stateB, eventBuffer, eventBuffer.buffer
      ensures Valid() && Synced()
      ensures r.Some? ==> Rooms.ResolveEncounter(old(gameRoom.View()), edgeId, side, choice) == Err(r.value) && View() == old(View())
      ensures r.None? ==> Rooms.ResolveEncounter(old(gameRoom.View()), edgeId, side, choice).Ok?
      ensures r.None? ==> View() == Do(old(View()), SessionWorld.Decision(side, edgeId, choice))
    {
      hide NodesValid, EdgesValid, PendingValid, NodeViews, EdgeViews, PendingViews, Objects, Buffered,
        GameRoom.View, Do, Flushed, Rooms.ResolveEncounter, GameRoom.GetUndecidedEncounters, Synced;
      ghost var w := View();
      SyncMetadata();
      r := TakeDecision(side, edgeId, choice);
      if r.None? {
        PublishAndBroadcastEvents();
        DecisionIs(w, View(), side, edgeId, choice);
      }
    }

    /** A decision, and the check whether the round can be resolved early. Where it is taken, the player
        is told whether the other side had decided before and the encounter is over. */
    method HandleEncounterDecision(side: Side, edgeId: EdgeId, choice: HexTypes.Decision) returns (r: Reply<bool>)
      requires Valid() && WorldOk(View())
      modifies this, gameRoom, gameRoom.parts, gameRoom.edges, gameRoom.pendingEncounters, stateA, stateB, eventBuffer, eventBuffer.buffer
      ensures Valid() && WorldOk(View())
      ensures r.NotConnected? == !old(State(side).isConnected)
      ensures r.Failed? ==> Rooms.ResolveEncounter(old(gameRoom.View()), edgeId, side, choice) == Err(r.error)
      ensures !r.Done? ==> View() == old(View())
      ensures r.Done? ==> Rooms.ResolveEncounter(old(gameRoom.View()), edgeId, side, choice).Ok?
      ensures r.Done? ==> View() == Do(Do(old(View()), SessionWorld.Decision(side, edgeId, choice)), Check(serverId))
      ensures r.Done? ==> Settles(old(gameRoom.View()), edgeId, side, r.value)
    {
      hide NodesValid, EdgesValid, PendingValid, NodeViews, EdgeViews, PendingViews, Objects, Buffered,
        GameRoom.View, Do, WorldOk, Rooms.ResolveEncounter, Synced, Settles, PendingIndex;
      if !State(side).isConnected {
        return NotConnected;
      }
      ghost var w := View();
      var failed := DecideEncounter(side, edgeId, choice);
      if failed.Some? {
        return Failed(failed.value);
      }
      var open := gameRoom.HasPendingEncounterOn(edgeId);
      DecisionSettles(w, edgeId, side, choice);
      StepOk(w, SessionWorld.Decision(side, edgeId, choice));
      StepOk(View(), Check(serverId));
      CheckAndResolveIfReady();
      r := Done(!open);
    }

    // ---- Timeouts ----

    /** One side's auto-retreat, over the list taken before the first one. */
    method RetreatUndecided(side: Side)
      requires gameRoom.Valid() && SessionOk(gameRoom.View()) && gameRoom.phase == Planning
      modifies gameRoom`pendingEncounters, gameRoom`domainEvents, gameRoom.edges, gameRoom.pendingEncounters
      ensures gameRoom.Valid()
      ensures forall i :: 0 <= i < |gameRoom.pendingEncounters| ==> gameRoom.pendingEncounters[i] in old(gameRoom.pendingEncounters)
      ensures SweepSide(old(gameRoom.View()), side, Undecided(old(gameRoom.View()).pending, side)) == Ok(gameRoom.View())
    {
      hide NodesValid, EdgesValid, PendingValid, NodeViews, EdgeViews, PendingViews, Objects,
        GameRoom.View, Rooms.ResolveEncounter, SessionOk, Undecided, GameRoom.GetUndecidedEncounters;
      ghost var r := gameRoom.View();
      ghost var encs := Undecided(r.pending, side);
      gameRoom.QueriesAgree(side);
      gameRoom.ViewFields();
      SweepSideOk(r, side, encs);
      var undecided := gameRoom.GetUndecidedEncounters(side);
      var ids := EdgeIdsOf(undecided);
      IdsOfViews(undecided);
      assert encs[0..] == encs;
      for k := 0 to |ids|
        invariant gameRoom.Valid() && gameRoom.edges == old(gameRoom.edges)
        invariant forall i :: 0 <= i < |gameRoom.pendingEncounters| ==> gameRoom.pendingEncounters[i] in old(gameRoom.pendingEncounters)
        invariant SweepSide(gameRoom.View(), side, encs[k..]) == SweepSide(r, side, encs)
      {
        assert encs[k..][0] == encs[k] && encs[k..][1..] == encs[k + 1..];
        var failed := gameRoom.ResolveEncounter(ids[k], side, Retreat);
      }
    }

    /** Both timeouts past their round check: sweep, then resolve. */
    method SweepAndResolve()
      requires Valid() && WorldOk(View()) && gameRoom.phase == Planning
      modifies this, gameRoom, gameRoom.parts, gameRoom.edges, gameRoom.pendingEncounters, stateA, stateB,
        eventBuffer, eventBuffer.buffer
      ensures Valid() && Synced()
      ensures Sweep(old(gameRoom.View())).Ok? && Rooms.ResolveRound(Sweep(old(gameRoom.View())).value).Ok?
      ensures View() == Resolve(old(View()), serverId, Sweep(old(gameRoom.View())).value)
    {
      hide NodesValid, EdgesValid, PendingValid, NodeViews, EdgeViews, PendingViews, Objects, Buffered,
        GameRoom.View, WorldOk, Resolve, Flags, Flushed, SessionOk, SweepSide, Undecided, Synced;
      ghost var w := View();
      gameRoom.ViewFields();
      FlagKeys();
      SweptResolves(w);
      RetreatUndecided(A);
      gameRoom.ViewFields();
      RetreatUndecided(B);
      ghost var swept := gameRoom.View();
      ResolveRound();
      ResolveIs(w, View(), serverId, swept);
    }

    method OnPlanningTimeout(forRound: int)
      requires Valid() && WorldOk(View())
      modifies this, gameRoom, gameRoom.parts, gameRoom.edges, gameRoom.pendingEncounters, stateA, stateB,
        eventBuffer, eventBuffer.buffer
      ensures Valid() && WorldOk(View()) && Synced()
      ensures View() == Do(old(View()), PrimaryTimeout(serverId, forRound))
    {
      hide NodesValid, EdgesValid, PendingValid, NodeViews, EdgeViews, PendingViews, Objects, Buffered,
        GameRoom.View, WorldOk, Resolve, Sweep, Do, Synced;
      ghost var w := View();
      gameRoom.ViewFields();
      TimeoutIs(w, serverId, forRound);
      StepOk(w, PrimaryTimeout(serverId, forRound));
      SyncMetadata();
      if gameRoom.phase == Planning && gameRoom.currentRound == forRound {
        SweepAndResolve();
      }
    }

    /** The backup's timeout takes the room over before it does the same. */
    method OnBackupPlanningTimeout(forRound: int)
      requires Valid() && WorldOk(View())
      modifies this, gameRoom, gameRoom.parts, gameRoom.edges, gameRoom.pendingEncounters, stateA, stateB,
        eventBuffer, eventBuffer.buffer
      ensures Valid() && WorldOk(View()) && Synced()
      ensures View() == Do(old(View()), BackupTimeout(serverId, forRound))
    {
      hide NodesValid, EdgesValid, PendingValid, NodeViews, EdgeViews, PendingViews, Objects, Buffered,
        GameRoom.View, WorldOk, Resolve, Sweep, Do, Synced;
      ghost var w := View();
      gameRoom.ViewFields();
      TimeoutIs(w, serverId, forRound);
      StepOk(w, BackupTimeout(serverId, forRound));
      SyncMetadata();
      if gameRoom.phase == Planning && gameRoom.currentRound == forRound {
        gameRoom.AssignOwner(serverId);
        gameRoom.ViewFields();
        OwnedOk(w, serverId);
        SweepAndResolve();
      }
    }

    // ---- Joining and abandoning ----

    /** A start node on the maps the session drives is an outpost. */
    lemma StartsOrdinary()
      requires gameRoom.Valid() && WorldOk(View())
      ensures forall n :: n in gameRoom.nodes && (n.id == StartNode(A) || n.id == StartNode(B)) ==> n.kind == OutPost
    {
      hide NodesValid, EdgesValid, PendingValid, NodeViews, EdgeViews, PendingViews, Objects;
      NodeCount(gameRoom.nodes);
      forall i | 0 <= i < |gameRoom.nodes|
        ensures gameRoom.nodes[i].id == StartNode(A) || gameRoom.nodes[i].id == StartNode(B) ==> gameRoom.nodes[i].kind == OutPost
      {
        NodeAt(gameRoom.nodes, i);
        assert NodeOk(gameRoom.View().nodes[i]);
      }
    }

    /** The room takes the player, or is as it was. */
    method SeatPlayer(player: string) returns (r: Result<Side, Error>)
      requires Valid() && WorldOk(View())
      modifies gameRoom, gameRoom.parts
      ensures Valid() && gameRoom.parts == old(gameRoom.parts)
      ensures r.Ok? ==> Rooms.AddPlayer(old(gameRoom.View()), player) == Ok(gameRoom.View())
                        && r.value == NextSide(old(gameRoom.View()))
      ensures r.Err? ==> Rooms.AddPlayer(old(gameRoom.View()), player) == Err(r.error) && gameRoom.View() == old(gameRoom.View())
      ensures r.Err? ==> r.error == RoomFull || r.error == AlreadyInRoom
    {
      hide NodesValid, EdgesValid, PendingValid, NodeViews, EdgeViews, PendingViews, Objects, Buffered,
        GameRoom.View, WorldOk, Rooms.AddPlayer, Flags;
      JoinErrors(View(), player);
      StartsOrdinary();
      r := gameRoom.AddPlayer(player);
    }

    method AddPlayer(player: string) returns (r: Result<Side, Error>)
      requires Valid() && WorldOk(View())
      modifies this, gameRoom, gameRoom.parts, eventBuffer, eventBuffer.buffer
      ensures Valid() && WorldOk(View())
      ensures View() == Do(old(View()), Join(player))
      ensures r.Err? ==> r.error == RoomFull || r.error == AlreadyInRoom
      ensures r.Ok? <==> Rooms.AddPlayer(old(gameRoom.View()), player).Ok?
      ensures r.Ok? ==> r.value == NextSide(old(gameRoom.View()))
    {
      hide NodesValid, EdgesValid, PendingValid, NodeViews, EdgeViews, PendingViews, Objects, Buffered,
        GameRoom.View, WorldOk, Do, Flushed, Rooms.AddPlayer, Flags, Synced;
      ghost var w := View();
      StepOk(w, Join(player));
      JoinIs(w, player);
      SyncMetadata();
      r := SeatPlayer(player);
      if r.Ok? {
        PublishAndBroadcastEvents();
        SyncMetadata();
      }
    }

    /** Called when a disconnected player did not return: A wins if connected, else B. With nobody
        connected the search for a winner fails and nothing happens. */
    method ForceGameOver() returns (ok: bool)
      requires Valid() && WorldOk(View())
      modifies this, gameRoom`phase, gameRoom`domainEvents, eventBuffer, eventBuffer.buffer
      ensures Valid() && WorldOk(View())
      ensures ok == (old(gameRoom.phase) == GameOver || stateA.isConnected || stateB.isConnected)
      ensures View() == if ok then Do(old(View()), Abandon(if stateA.isConnected then A else B)) else old(View())
    {
      hide NodesValid, EdgesValid, PendingValid, NodeViews, EdgeViews, PendingViews, Objects, Buffered,
        GameRoom.View, WorldOk, Do, Flushed, Rooms.ForceGameOver, Synced;
      var winner := if stateA.isConnected then A else B;
      gameRoom.ViewFields();
      StepOk(View(), Abandon(winner));
      AbandonIs(View(), winner);
      SyncMetadata();
      if gameRoom.phase == GameOver {
        return true;
      }
      if !stateA.isConnected && !stateB.isConnected {
        return false;
      }
      gameRoom.ForceGameOver(Some(winner), PlayerDisconnected);
      PublishAndBroadcastEvents();
      SyncMetadata();
      ok := true;
    }
  }

  /** How the registry opens a room: draw the map, own it, wrap it in a session. The new
      session's world is the start of every run. */
  method OpenSession(serverId: ServerId) returns (session: GameSession)
    ensures fresh(session) && session.Valid() && WorldOk(session.View())
    ensures session.serverId == serverId && session.View() == Start(serverId).(flags := map[serverId := NO_FLAGS])
  {
    hide NodesValid, EdgesValid, PendingValid, NodeViews, EdgeViews, PendingViews, Objects, WorldOk, InitialNodes, InitialEdges;
    var gameRoom := new GameRoom();
    gameRoom.InitializeMap();
    gameRoom.AssignOwner(serverId);
    session := new GameSession(serverId, gameRoom);
    StartOk(serverId);
    FlagsIrrelevant(Start(serverId), map[serverId := NO_FLAGS]);
  }

  function EdgeIdsOf(ps: seq<PendingEncounter>): seq<EdgeId> {
    seq(|ps|, i requires 0 <= i < |ps| => ps[i].edgeId)
  }

  lemma IdsOfViews(ps: seq<PendingEncounter>)
    ensures |EdgeIdsOf(ps)| == |PendingViews(ps)|
    ensures forall i :: 0 <= i < |ps| ==> EdgeIdsOf(ps)[i] == PendingViews(ps)[i].edgeId
  {
  }

  lemma {:induction false} FilterSame(es: seq<BufferedEvent>, f: BufferedEvent -> bool, g: BufferedEvent -> bool)
    requires forall e :: f(e) == g(e)
    ensures Filter(es, f) == Filter(es, g)
  {
    if es != [] {
      FilterSame(es[1..], f, g);
    }
  }

  /** The parts of a resolution make up the world's step. */
  lemma ResolveIs(w: World, now: World, server: ServerId, r: Room)
    requires Rooms.ResolveRound(r).Ok? && w.flags.Keys == {server}
    requires now.room == Flushed(Rooms.ResolveRound(r).value)
    requires now.published == w.published + Rooms.ResolveRound(r).value.events
    requires now.completed == w.completed + [r.round] && now.flags == map[server := NO_FLAGS]
    ensures now == Resolve(w, server, r)
  {
    hide Rooms.ResolveRound;
    assert w.flags[server := NO_FLAGS] == map[server := NO_FLAGS];
  }

  /** An encounter on the edge is over exactly if the other side had chosen. */
  ghost predicate Settles(r: Room, id: EdgeId, side: Side, over: bool) {
    exists k: nat :: PendingOn(r, k, id) && (over <==> ChoiceOf(r.pending[k], side.Other()).Some?)
  }

  lemma DecisionSettles(w: World, id: EdgeId, side: Side, choice: HexTypes.Decision)
    requires WorldOk(w) && Rooms.ResolveEncounter(w.room, id, side, choice).Ok?
    ensures Settles(w.room, id, side, PendingIndex(Do(w, SessionWorld.Decision(side, id, choice)).room.pending, id).None?)
  {
    hide WellFormed, Rooms.ResolveEncounter, Entered, DecisionTold, PendingIndex, Live, Total, RoundsOk, StartsPresent;
    var r := w.room;
    var next := Rooms.ResolveEncounter(r, id, side, choice).value;
    var k, i, q := DecisionTells(r, id, side, choice);
    EnteredChoices(r.pending[k], q, r.edges[i].distance, side, choice);
    if ChoiceOf(r.pending[k], side.Other()).Some? {
      assert forall j :: 0 <= j < |next.pending| ==> next.pending[j] == r.pending[if j < k then j else j + 1];
      assert PendingIndex(next.pending, id).None?;
    } else {
      assert next.pending[k].edgeId == id;
      assert PendingIndex(next.pending, id).Some?;
    }
  }

  /** The session's own tests and its clamp come to what the room's come to. */
  lemma OrderIsMove(r: Room, side: Side, cmd: MoveCommand)
    ensures MoveOrder(r, side, cmd) == Rooms.MoveUnits(r, side, cmd)
  {
    hide EdgeIndex, NodeIndex, Committed;
    assert Min(Min(cmd.unitCount, Remaining(r, side)), Remaining(r, side)) == Min(cmd.unitCount, Remaining(r, side));
  }

  lemma OrderReserves(r: Room, side: Side, cmd: MoveCommand)
    requires MoveOrder(r, side, cmd).Ok?
    ensures Reserves(r, MoveOrder(r, side, cmd).value, side, cmd, Min(cmd.unitCount, Remaining(r, side)))
  {
    hide Rooms.MoveUnits;
    OrderIsMove(r, side, cmd);
    MoveTells(r, side, cmd);
  }

  lemma FlushReserves(r: Room, next: Room, side: Side, cmd: MoveCommand, n: int)
    requires Reserves(r, next, side, cmd, n)
    ensures Reserves(r, Flushed(next), side, cmd, n)
  {
  }

  lemma MoveIs(w: World, now: World, server: ServerId, side: Side, cmd: MoveCommand)
    requires MoveOrder(w.room, side, cmd).Ok? && w.flags.Keys == {server} == now.flags.Keys
    requires now.room == Flushed(MoveOrder(w.room, side, cmd).value)
    requires now.published == w.published + MoveOrder(w.room, side, cmd).value.events && now.completed == w.completed
    requires now.flags[server] == w.flags[server].Set(side, Remaining(MoveOrder(w.room, side, cmd).value, side) <= 0)
    ensures now == Do(w, Move(server, side, cmd))
  {
    hide MoveOrder;
    assert now.flags == w.flags[server := now.flags[server]];
  }

  lemma DecisionIs(w: World, now: World, side: Side, edgeId: EdgeId, choice: HexTypes.Decision)
    requires Rooms.ResolveEncounter(w.room, edgeId, side, choice).Ok?
    requires now.room == Flushed(Rooms.ResolveEncounter(w.room, edgeId, side, choice).value)
    requires now.published == w.published + Rooms.ResolveEncounter(w.room, edgeId, side, choice).value.events
    requires now.completed == w.completed && now.flags == w.flags
    ensures now == Do(w, SessionWorld.Decision(side, edgeId, choice))
  {
    hide Rooms.ResolveEncounter;
  }

  lemma SweptResolves(w: World)
    requires WorldOk(w) && w.room.phase == Planning
    ensures SessionOk(w.room) && Sweep(w.room).Ok? && Rooms.ResolveRound(Sweep(w.room).value).Ok?
    ensures Sweep(w.room).value.round == w.room.round
    ensures var mid := SweepSide(w.room, A, Undecided(w.room.pending, A));
            mid.Ok? && SessionOk(mid.value) && mid.value.phase == Planning
  {
    hide Sweep, SessionOk;
    SweepOk(w.room);
    SweepSideOk(w.room, A, Undecided(w.room.pending, A));
    SweptRoom(w.room, Sweep(w.room).value);
    SweptRoom(w.room, SweepSide(w.room, A, Undecided(w.room.pending, A)).value);
  }

  lemma SweptRoom(r: Room, next: Room)
    requires r.phase == Planning && SessionOk(next) && OnlyEncountersChanged(r, next)
    ensures next.phase == Planning && next.round == r.round && Rooms.ResolveRound(next).Ok?
  {
    assert next.(edges := r.edges, pending := r.pending, events := r.events) == r;
    ResolveRoundOk(next);
  }

  lemma TimeoutIs(w: World, server: ServerId, forRound: int)
    ensures Do(w, PrimaryTimeout(server, forRound)) ==
              if w.room.phase != Planning || w.room.round != forRound || Sweep(w.room).Err? then w
              else Resolve(w, server, Sweep(w.room).value)
    ensures var owned := AssignOwner(w.room, server);
            Do(w, BackupTimeout(server, forRound)) ==
              if w.room.phase != Planning || w.room.round != forRound || Sweep(owned).Err? then w
              else Resolve(w, server, Sweep(owned).value)
  {
    hide Sweep, Resolve;
  }

  /** Taking a room over keeps the world, and what the world is does not enter a resolution. */
  lemma OwnedOk(w: World, server: ServerId)
    requires WorldOk(w)
    ensures WorldOk(w.(room := AssignOwner(w.room, server)))
    ensures forall r :: Rooms.ResolveRound(r).Ok? ==> Resolve(w.(room := AssignOwner(w.room, server)), server, r) == Resolve(w, server, r)
  {
    OwnerIrrelevant(w.room, server);
  }

  lemma JoinIs(w: World, player: string)
    ensures Do(w, Join(player)) ==
              match Rooms.AddPlayer(w.room, player)
              case Err(_) => w
              case Ok(r) => Publish(w, r)
  {
    hide Rooms.AddPlayer;
  }

  /** On the maps the session drives the start nodes are there. */
  lemma JoinErrors(w: World, player: string)
    requires WorldOk(w)
    ensures var r := Rooms.AddPlayer(w.room, player); r.Err? ==> r.error == RoomFull || r.error == AlreadyInRoom
  {
  }

  lemma AbandonIs(w: World, winner: Side)
    ensures Do(w, Abandon(winner)) ==
              if w.room.phase == GameOver then w else Publish(w, Rooms.ForceGameOver(w.room, Some(winner), PlayerDisconnected))
  {
    hide Rooms.ForceGameOver;
  }

  lemma CheckIs(w: World, server: ServerId)
    ensures Do(w, Check(server)) == if AllReady(w.room, FlagsOf(w.flags, server)) then Resolve(w, server, w.room) else w
  {
    hide AllReady, Resolve;
  }

  /** A reachable room that is ready resolves. */
  lemma ReadyWillResolve(w: World, server: ServerId)
    requires WorldOk(w)
    ensures AllReady(w.room, FlagsOf(w.flags, server)) ==> Rooms.ResolveRound(w.room).Ok?
    ensures w.room.phase == Planning ==> Rooms.ResolveRound(w.room).Ok?
  {
    if w.room.phase == Planning {
      ResolveRoundOk(w.room);
    }
  }
}
