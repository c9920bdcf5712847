/** What players are told, field by field: who may do what, what an operation records and which
    events it raises, and how a game ends (HexWar.Domain/Entities/GameRoom.cs, GameRoom.Events.cs).
    Everything is said of nodes, counts and owners themselves. */
module Announcements {
  import opened HexTypes
  import opened Nodes
  import opened Edges
  import opened Rooms
  import opened RoomWellFormed

  // ---- The end of the game ----

  /** The places that belong to an owner. */
  ghost function Held(ns: seq<NodeState>, owner: Ownership): set<nat> {
    set i: nat | i < |ns| && ns[i].owner == owner
  }

  lemma {:induction false} CountIsHeld(ns: seq<NodeState>, owner: Ownership)
    ensures CountOwned(ns, owner) == |Held(ns, owner)|
    decreases |ns|
  {
    if ns != [] {
      CountIsHeld(ns[1..], owner);
      HeldTail(ns, owner);
    }
  }

  lemma HeldTail(ns: seq<NodeState>, owner: Ownership)
    requires ns != []
    ensures |Held(ns, owner)| == |Held(ns[1..], owner)| + if ns[0].owner == owner then 1 else 0
  {
    var rest := Held(ns[1..], owner);
    var moved := set i: nat | i in rest :: i + 1;
    var first := if ns[0].owner == owner then {0} else {};
    SameSize(rest, moved);
    HeldMoved(ns, owner, moved);
    assert 0 !in moved;
    assert |first + moved| == |first| + |moved|;
  }

  lemma HeldMoved(ns: seq<NodeState>, owner: Ownership, moved: set<nat>)
    requires ns != [] && moved == set i: nat | i in Held(ns[1..], owner) :: i + 1
    ensures Held(ns, owner) == (if ns[0].owner == owner then {0} else {}) + moved
  {
    forall i: nat ensures i in moved <==> i > 0 && i < |ns| && ns[i].owner == owner {
      if i > 0 && i < |ns| && ns[i].owner == owner {
        assert i - 1 in Held(ns[1..], owner);
      }
    }
  }

  lemma {:induction false} SameSize(s: set<nat>, moved: set<nat>)
    requires moved == set i: nat | i in s :: i + 1
    ensures |moved| == |s|
    decreases s
  {
    if s != {} {
      var x :| x in s;
      var rest := s - {x};
      SameSize(rest, set i: nat | i in rest :: i + 1);
      var others := set i: nat | i in rest :: i + 1;
      forall y: nat ensures y in moved <==> y in others + {x + 1} {
        if y in moved {
          var i :| i in s && y == i + 1;
          assert i == x || i in rest;
        }
        if y in others {
          var i :| i in rest && y == i + 1;
          assert i in s;
        }
      }
      assert moved == others + {x + 1} && x + 1 !in others;
    }
  }

  /** Who has won where the nodes stand like this: the player with more of them, nobody on a tie. */
  ghost predicate WonBy(winner: Option<Side>, ns: seq<NodeState>) {
    && (winner == Some(A) <==> |Held(ns, PlayerA)| > |Held(ns, PlayerB)|)
    && (winner == Some(B) <==> |Held(ns, PlayerB)| > |Held(ns, PlayerA)|)
    && (winner == None <==> |Held(ns, PlayerA)| == |Held(ns, PlayerB)|)
  }

  lemma WinnerHoldsMore(ns: seq<NodeState>)
    ensures WonBy(Winner(ns), ns)
    ensures Scores(ns).a == |Held(ns, PlayerA)| && Scores(ns).b == |Held(ns, PlayerB)|
  {
    hide CountOwned;
    CountIsHeld(ns, PlayerA);
    CountIsHeld(ns, PlayerB);
  }

  /** A round ends the game exactly when it was the twentieth or one player owns every node outside
      headquarters. */
  lemma EndsIff(r: Room)
    requires WellFormed(r) && r.phase == Planning
    ensures ResolveRound(r).Ok?
    ensures var next := ResolveRound(r).value;
            next.phase == GameOver <==>
              || r.round == 20
              || (forall i :: 0 <= i < |next.nodes| && next.nodes[i].kind != Headquarters ==> next.nodes[i].owner == PlayerA)
              || (forall i :: 0 <= i < |next.nodes| && next.nodes[i].kind != Headquarters ==> next.nodes[i].owner == PlayerB)
  {
    assert PhaseOk(r);
    hide ResolveRound, WellFormed, CheckGameOver;
    ResolveRoundOk(r);
    PhaseAfter(r);
    OverMeans(ResolveRound(r).value.nodes);
  }

  lemma OverMeans(ns: seq<NodeState>)
    ensures CheckGameOver(ns) <==>
              || (forall i :: 0 <= i < |ns| && ns[i].kind != Headquarters ==> ns[i].owner == PlayerA)
              || (forall i :: 0 <= i < |ns| && ns[i].kind != Headquarters ==> ns[i].owner == PlayerB)
  {
  }

  lemma PhaseAfter(r: Room)
    requires ResolveRound(r).Ok?
    ensures var next := ResolveRound(r).value;
            next.phase == if CheckGameOver(next.nodes) || r.round + 1 > r.maxRounds then GameOver else Planning
  {
    hide Dispatch, RoundLanding, HistoryCleared, Winner, Scores, CheckGameOver, AllEncounters, AdvancedEdges;
  }

  /** What the players are told when a round has ended the game: the winner is whoever owns more
      nodes, the scores are the numbers of nodes, each on its own side, and twenty rounds outweigh a
      conquest as the reason. Otherwise the next round is announced. */
  lemma EndTells(r: Room)
    requires WellFormed(r) && r.phase == Planning
    ensures ResolveRound(r).Ok?
    ensures var next := ResolveRound(r).value;
            var last := next.events[1];
            && |next.events| == 2
            && (next.phase == GameOver ==>
                  && last.GameEnded? && WonBy(last.winner, next.nodes)
                  && last.scores.a == |Held(next.nodes, PlayerA)| && last.scores.b == |Held(next.nodes, PlayerB)|
                  && last.reason == (if r.round == 20 then MaxRoundsReached else AllNodesCaptured)
                  && last.round == r.round)
            && (next.phase == Planning ==> last == RoundStarted(r.round + 1))
  {
    assert PhaseOk(r);
    hide ResolveRound, WellFormed, Winner, Scores, WonBy;
    ResolveRoundOk(r);
    LastEvent(r);
    WinnerHoldsMore(ResolveRound(r).value.nodes);
  }

  lemma LastEvent(r: Room)
    requires ResolveRound(r).Ok?
    ensures var next := ResolveRound(r).value;
            && |next.events| == 2
            && next.events[1] == if next.phase == GameOver
                                 then GameEnded(Winner(next.nodes), if r.round + 1 > r.maxRounds then MaxRoundsReached else AllNodesCaptured,
                                                r.round, Scores(next.nodes))
                                 else RoundStarted(r.round + 1)
  {
    hide Dispatch, RoundLanding, HistoryCleared, Winner, Scores, CheckGameOver, AllEncounters, AdvancedEdges;
  }

  /** A game ended from outside names the winner and the reason given, and the nodes as they stand. */
  lemma ForcedEndTells(r: Room, winner: Option<Side>, reason: Reason)
    ensures var next := ForceGameOver(r, winner, reason);
            && next.phase == GameOver && |next.events| == |r.events| + 1 && next.events[..|r.events|] == r.events
            && var last := next.events[|r.events|];
               last.GameEnded? && last.winner == winner && last.reason == reason && last.round == r.round
               && last.scores.a == |Held(r.nodes, PlayerA)| && last.scores.b == |Held(r.nodes, PlayerB)|
  {
    WinnerHoldsMore(r.nodes);
  }

  // ---- Joining ----

  /** Who may join. */
  lemma JoinVerdict(r: Room, player: string)
    requires WellFormed(r) && HasNode(r.nodes, 1) && HasNode(r.nodes, 5)
    ensures AddPlayer(r, player) == Err(RoomFull) <==> |r.players| == 2
    ensures AddPlayer(r, player) == Err(AlreadyInRoom) <==> |r.players| < 2 && player in r.players
    ensures AddPlayer(r, player).Ok? <==> |r.players| < 2 && player !in r.players
  {
    hide NodeIndex;
  }

  /** Three units for a side on a node that side then owns. */
  predicate Seated(before: NodeState, after: NodeState, side: Side) {
    && after.owner == (if side == A then PlayerA else PlayerB)
    && after.units.a.mobile == before.units.a.mobile + (if side == A then 3 else 0)
    && after.units.b.mobile == before.units.b.mobile + (if side == B then 3 else 0)
    && after.units.a.garrison == before.units.a.garrison && after.units.b.garrison == before.units.b.garrison
    && after.id == before.id && after.kind == before.kind && after.recent == before.recent
  }

  /** The first player becomes A, with three units on node 1; the second becomes B, with three on
      node 5, and the game starts, naming A before B. */
  lemma JoinTells(r: Room, player: string)
    requires AddPlayer(r, player).Ok?
    ensures var next := AddPlayer(r, player).value;
            var side := if |r.players| == 0 then A else B;
            && next.players == r.players + [player] && |next.nodes| == |r.nodes|
            && (exists i :: 0 <= i < |r.nodes| && r.nodes[i].id == (if side == A then 1 else 5)
                            && Seated(r.nodes[i], next.nodes[i], side)
                            && forall j :: 0 <= j < |r.nodes| && j != i ==> next.nodes[j] == r.nodes[j])
            && (side == A ==> next.phase == r.phase && next.round == r.round && next.events == r.events)
            && (side == B ==> next.phase == Planning && next.round == 1
                              && next.events == r.events + [GameStarted(r.players[0], player)])
  {
    var i := NodeIndex(r.nodes, StartNode(NextSide(r))).value;
    assert Seated(r.nodes[i], AddPlayer(r, player).value.nodes[i], NextSide(r));
  }

  // ---- Orders ----

  function UsedBy(r: Room, side: Side): int {
    if side == A then r.used.a else r.used.b
  }

  function MovesOf(r: Room, side: Side): seq<PendingMove> {
    if side == A then r.moves.a else r.moves.b
  }

  function StandingOn(n: NodeState, side: Side): int {
    if side == A then n.units.a.mobile else n.units.b.mobile
  }

  predicate Joins(e: EdgeState, from: NodeId, to: NodeId) {
    (e.id.lo == from && e.id.hi == to) || (e.id.lo == to && e.id.hi == from)
  }

  predicate Road(r: Room, from: NodeId, to: NodeId) {
    exists i :: 0 <= i < |r.edges| && Joins(r.edges[i], from, to)
  }

  lemma RoadIndex(r: Room, from: NodeId, to: NodeId)
    requires WellFormed(r)
    ensures EdgeIndex(r.edges, MakeEdgeId(from, to)).Some? <==> Road(r, from, to)
    ensures Road(r, from, to) ==> NodeIndex(r.nodes, from).Some?
  {
    forall i | 0 <= i < |r.edges| ensures Joins(r.edges[i], from, to) <==> r.edges[i].id == MakeEdgeId(from, to) {
      assert EdgeOk(r.edges[i]);
    }
    var found := EdgeIndex(r.edges, MakeEdgeId(from, to));
    if found.Some? {
      assert Joins(r.edges[found.value], from, to);
      assert HasNode(r.nodes, r.edges[found.value].id.lo) && HasNode(r.nodes, r.edges[found.value].id.hi);
    }
  }

  /** Which order is refused, and why: the first of these that applies. */
  lemma MoveVerdict(r: Room, side: Side, cmd: MoveCommand)
    requires WellFormed(r)
    ensures var verdict := MoveUnits(r, side, cmd);
            var actual := if cmd.unitCount <= 3 - UsedBy(r, side) then cmd.unitCount else 3 - UsedBy(r, side);
            if r.phase != Planning then verdict == Err(WrongPhase)
            else if UsedBy(r, side) == 3 then verdict == Err(AllUnitsMoved)
            else if cmd.unitCount <= 0 then verdict == Err(NothingToCommit)
            else if !Road(r, cmd.from, cmd.to) then verdict == Err(NoPath)
            else exists i :: 0 <= i < |r.nodes| && r.nodes[i].id == cmd.from &&
                   if StandingOn(r.nodes[i], side) - Committed(MovesOf(r, side), cmd.from) < actual
                   then verdict == Err(NotEnoughUnits) else verdict.Ok?
  {
    assert SideOk(r, A) && SideOk(r, B);
    assert 0 <= UsedBy(r, side) <= 3;
    hide WellFormed, SideOk, NodeIndex, EdgeIndex, Committed, Road, Mobile, MoveUnits;
    RoadIndex(r, cmd.from, cmd.to);
    if r.phase == Planning && UsedBy(r, side) < 3 && cmd.unitCount > 0 && Road(r, cmd.from, cmd.to) {
      var i := NodeIndex(r.nodes, cmd.from).value;
      EnoughUnits(r, side, cmd, i);
      assert r.nodes[i].id == cmd.from;
    } else {
      EarlyRefusal(r, side, cmd);
    }
  }

  lemma EarlyRefusal(r: Room, side: Side, cmd: MoveCommand)
    requires 0 <= UsedBy(r, side) <= 3
    requires r.phase != Planning || UsedBy(r, side) == 3 || cmd.unitCount <= 0 || EdgeIndex(r.edges, MakeEdgeId(cmd.from, cmd.to)).None?
    ensures MoveUnits(r, side, cmd) ==
              if r.phase != Planning then Err(WrongPhase) else if UsedBy(r, side) == 3 then Err(AllUnitsMoved)
              else if cmd.unitCount <= 0 then Err(NothingToCommit) else Err(NoPath)
  {
    hide NodeIndex, EdgeIndex, Committed, Mobile;
  }

  lemma EnoughUnits(r: Room, side: Side, cmd: MoveCommand, i: nat)
    requires r.phase == Planning && 0 <= UsedBy(r, side) < 3 && cmd.unitCount > 0
    requires NodeIndex(r.nodes, cmd.from) == Some(i) && EdgeIndex(r.edges, MakeEdgeId(cmd.from, cmd.to)).Some?
    ensures var actual := if cmd.unitCount <= 3 - UsedBy(r, side) then cmd.unitCount else 3 - UsedBy(r, side);
            if StandingOn(r.nodes[i], side) - Committed(MovesOf(r, side), cmd.from) < actual
            then MoveUnits(r, side, cmd) == Err(NotEnoughUnits) else MoveUnits(r, side, cmd).Ok?
  {
    hide NodeIndex, EdgeIndex, Committed;
  }

  /** An order for `cmd` that reserves `n` units: the count asked for, cut to what the side has left of
      its three, at least one, behind the side's earlier orders. */
  predicate Reserves(r: Room, next: Room, side: Side, cmd: MoveCommand, n: int) {
    && n == (if cmd.unitCount <= 3 - UsedBy(r, side) then cmd.unitCount else 3 - UsedBy(r, side)) && n > 0
    && MovesOf(next, side) == MovesOf(r, side) + [PendingMove(cmd.from, cmd.to, n)]
    && UsedBy(next, side) == UsedBy(r, side) + n
    && MovesOf(next, side.Other()) == MovesOf(r, side.Other()) && UsedBy(next, side.Other()) == UsedBy(r, side.Other())
  }

  /** What an accepted order does: it reserves, says so with the count reserved, and changes nothing
      else. */
  lemma MoveTells(r: Room, side: Side, cmd: MoveCommand)
    requires MoveUnits(r, side, cmd).Ok?
    ensures var next := MoveUnits(r, side, cmd).value;
            var actual := if cmd.unitCount <= 3 - UsedBy(r, side) then cmd.unitCount else 3 - UsedBy(r, side);
            && Reserves(r, next, side, cmd, actual)
            && next.events == r.events + [UnitsDeparted(side, cmd.from, actual, r.round)]
            && next.(moves := r.moves, used := r.used, events := r.events) == r
  {
  }

  // ---- Decisions ----

  function OwnGroup(p: Encounter, side: Side): TravelingGroup {
    if side == A then p.groupA else p.groupB
  }

  function ChoiceOf(p: Encounter, side: Side): Option<Decision> {
    if side == A then p.decisions.a else p.decisions.b
  }

  function OutcomeOf(p: Encounter, side: Side): Option<Outcome> {
    if side == A then p.outcomes.a else p.outcomes.b
  }

  /** The encounter pending on an edge. */
  predicate PendingOn(r: Room, k: nat, id: EdgeId) {
    k < |r.pending| && r.pending[k].edgeId == id && forall j :: 0 <= j < k ==> r.pending[j].edgeId != id
  }

  /** Which decision is refused, and why: the first of these that applies. */
  lemma DecisionVerdict(r: Room, id: EdgeId, side: Side, choice: Decision)
    requires WellFormed(r)
    ensures var verdict := ResolveEncounter(r, id, side, choice);
            if r.phase != Planning then verdict == Err(WrongPhase)
            else if forall k :: 0 <= k < |r.pending| ==> r.pending[k].edgeId != id then verdict == Err(NoPendingEncounter)
            else exists k: nat :: PendingOn(r, k, id) &&
                   if ChoiceOf(r.pending[k], side).Some? then verdict == Err(AlreadyDecided) else verdict.Ok?
  {
    ResolveEncounterOk(r, id, side, choice);
    hide WellFormed, Decide, PendingIndex, EdgeIndex;
    var k := PendingIndex(r.pending, id);
    if k.Some? {
      assert PendingOn(r, k.value, id);
      assert r.pending[k.value].HasDecided(side) <==> ChoiceOf(r.pending[k.value], side).Some?;
    }
  }

  /** Where the group ends up: on with the rounds it had left, or back with the whole edge ahead. */
  predicate OutcomeIs(outcome: Outcome, p: Encounter, distance: int, side: Side, choice: Decision) {
    var own := OwnGroup(p, side);
    && outcome.side == side && outcome.unitCount == own.unitCount
    && (choice == Advance ==> outcome.destination == own.destination && outcome.rounds == p.remaining)
    && (choice == Retreat ==>
          outcome.destination == (if own.destination == p.edgeId.lo then p.edgeId.hi else p.edgeId.lo)
          && outcome.rounds == distance)
  }

  /** The encounter once the side's choice is entered: nothing else of it changes. */
  predicate Entered(p: Encounter, q: Encounter, distance: int, side: Side, choice: Decision) {
    && ChoiceOf(q, side) == Some(choice) && ChoiceOf(q, side.Other()) == ChoiceOf(p, side.Other())
    && OutcomeOf(q, side).Some? && OutcomeIs(OutcomeOf(q, side).value, p, distance, side, choice)
    && OutcomeOf(q, side.Other()) == OutcomeOf(p, side.Other())
    && q.edgeId == p.edgeId && q.groupA == p.groupA && q.groupB == p.groupB && q.remaining == p.remaining
  }

  /** What was told last: the turn or the advance, the choice, and, where the other side had chosen
      before, both choices with both outcomes. */
  predicate DecisionTold(r: Room, p: Encounter, q: Encounter, side: Side, choice: Decision, told: seq<Event>) {
    var count := OwnGroup(p, side).unitCount;
    && |told| == (if ChoiceOf(p, side.Other()).Some? then 3 else 2)
    && told[0] == (if choice == Retreat then UnitsRetreated(side, p.edgeId, count, r.round)
                   else UnitsAdvanced(side, p.edgeId, count, r.round))
    && told[1] == EncounterDecisionMade(side, p.edgeId, choice, count, r.round)
    && (|told| == 3 ==> told[2].EncounterResolved? && told[2].edgeId == p.edgeId && told[2].round == r.round
                        && told[2].decisions.a == q.decisions.a && told[2].decisions.b == q.decisions.b
                        && told[2].outcomes.a == q.outcomes.a && told[2].outcomes.b == q.outcomes.b)
  }

  /** What a decision does to the list: the encounter stays where it is with the choice entered, or,
      if that was the second choice, it is gone. */
  predicate ListAfter(r: Room, next: Room, k: nat, q: Encounter, side: Side)
    requires k < |r.pending|
  {
    next.pending == if ChoiceOf(r.pending[k], side.Other()).Some? then r.pending[..k] + r.pending[k + 1..] else r.pending[k := q]
  }

  /** What an accepted decision records and tells, and that it touches no other encounter. */
  lemma DecisionTells(r: Room, id: EdgeId, side: Side, choice: Decision) returns (k: nat, i: nat, q: Encounter)
    requires WellFormed(r) && ResolveEncounter(r, id, side, choice).Ok?
    ensures PendingOn(r, k, id) && i < |r.edges| && r.edges[i].id == id
    ensures Entered(r.pending[k], q, r.edges[i].distance, side, choice)
    ensures var next := ResolveEncounter(r, id, side, choice).value;
            && ListAfter(r, next, k, q, side)
            && |r.events| <= |next.events| && next.events[..|r.events|] == r.events
            && DecisionTold(r, r.pending[k], q, side, choice, next.events[|r.events|..])
            && next.(edges := r.edges, pending := r.pending, events := r.events) == r
            && |next.edges| == |r.edges| && forall j :: 0 <= j < |r.edges| && j != i ==> next.edges[j] == r.edges[j]
  {
    k, i := PendingIndex(r.pending, id).value, EdgeIndex(r.edges, id).value;
    var p := r.pending[k];
    assert PendingOk(r.edges, p);
    hide WellFormed, PendingIndex, EdgeIndex, Decide, DecisionTold, DecisionEvents, Entered, OutcomeIs, ResolveEncounter, ListAfter;
    DecisionParts(r, id, side, choice, k, i);
    var (edge, outcome) := Decide(r.edges[i], p, side, choice).value;
    q := p.Marked(side, choice, outcome);
    DecideTells(r.edges[i], p, side, choice);
    MarkedTells(p, r.edges[i].distance, side, choice, outcome);
    var told := DecisionEvents(p, side, choice, r.round)
                + (if q.BothDecided() then [EncounterResolved(id, q.decisions, q.outcomes, r.round)] else []);
    SettledTells(r, ResolveEncounter(r, id, side, choice).value, k, q, side);
    EnteredChoices(p, q, r.edges[i].distance, side, choice);
    EventsTell(r, p, q, side, choice, told);
  }

  /** A decision as its caller finds it recorded and told. */
  ghost predicate Taken(r: Room, next: Room, id: EdgeId, side: Side, choice: Decision) {
    exists k: nat, i: nat, q: Encounter ::
      && PendingOn(r, k, id) && i < |r.edges| && r.edges[i].id == id
      && Entered(r.pending[k], q, r.edges[i].distance, side, choice) && ListAfter(r, next, k, q, side)
      && |r.events| <= |next.events| && next.events[..|r.events|] == r.events
      && DecisionTold(r, r.pending[k], q, side, choice, next.events[|r.events|..])
  }

  lemma DecisionTaken(r: Room, id: EdgeId, side: Side, choice: Decision)
    ensures var after := ResolveEncounter(r, id, side, choice);
            after.Ok? && WellFormed(r) ==> Taken(r, after.value, id, side, choice)
  {
    hide WellFormed, ResolveEncounter, PendingOn, Entered, ListAfter, DecisionTold;
    if ResolveEncounter(r, id, side, choice).Ok? && WellFormed(r) {
      var k, i, q := DecisionTells(r, id, side, choice);
    }
  }

  /** A successful decision, put together. */
  lemma DecisionParts(r: Room, id: EdgeId, side: Side, choice: Decision, k: nat, i: nat)
    requires ResolveEncounter(r, id, side, choice).Ok? && PendingIndex(r.pending, id) == Some(k) && EdgeIndex(r.edges, id) == Some(i)
    ensures Decide(r.edges[i], r.pending[k], side, choice).Ok?
    ensures var (edge, outcome) := Decide(r.edges[i], r.pending[k], side, choice).value;
            var p, q := r.pending[k], r.pending[k].Marked(side, choice, outcome);
            && !p.HasDecided(side)
            && ResolveEncounter(r, id, side, choice).value ==
                 r.(edges := r.edges[i := edge], pending := Settled(r.pending, k, q),
                    events := r.events + (DecisionEvents(p, side, choice, r.round)
                              + (if q.BothDecided() then [EncounterResolved(id, q.decisions, q.outcomes, r.round)] else [])))
  {
    hide PendingIndex, EdgeIndex, Decide, Settled, DecisionEvents, Encounter.Marked;
    var (edge, outcome) := Decide(r.edges[i], r.pending[k], side, choice).value;
    var p, q := r.pending[k], r.pending[k].Marked(side, choice, outcome);
    Associates(r.events, DecisionEvents(p, side, choice, r.round),
               if q.BothDecided() then [EncounterResolved(id, q.decisions, q.outcomes, r.round)] else []);
  }

  lemma SettledTells(r: Room, next: Room, k: nat, q: Encounter, side: Side)
    requires k < |r.pending| && next.pending == Settled(r.pending, k, q)
    requires ChoiceOf(q, side).Some? && ChoiceOf(q, side.Other()) == ChoiceOf(r.pending[k], side.Other())
    ensures ListAfter(r, next, k, q, side)
  {
  }

  lemma EnteredChoices(p: Encounter, q: Encounter, distance: int, side: Side, choice: Decision)
    requires Entered(p, q, distance, side, choice)
    ensures ChoiceOf(q, side) == Some(choice) && ChoiceOf(q, side.Other()) == ChoiceOf(p, side.Other()) && q.edgeId == p.edgeId
  {
  }

  lemma DecideTells(e: EdgeState, p: Encounter, side: Side, choice: Decision)
    requires Decide(e, p, side, choice).Ok? && e.id == p.edgeId && p.groupA.side == A && p.groupB.side == B
    ensures OutcomeIs(Decide(e, p, side, choice).value.1, p, e.distance, side, choice)
  {
    hide Retreated;
  }

  lemma MarkedTells(p: Encounter, distance: int, side: Side, choice: Decision, outcome: Outcome)
    requires OutcomeIs(outcome, p, distance, side, choice)
    ensures Entered(p, p.Marked(side, choice, outcome), distance, side, choice)
  {
    hide OutcomeIs;
  }

  lemma EventsTell(r: Room, p: Encounter, q: Encounter, side: Side, choice: Decision, told: seq<Event>)
    requires p.groupA.side == A && p.groupB.side == B && q.edgeId == p.edgeId && ChoiceOf(q, side).Some?
    requires ChoiceOf(q, side.Other()) == ChoiceOf(p, side.Other())
    requires told == DecisionEvents(p, side, choice, r.round)
                     + (if q.BothDecided() then [EncounterResolved(p.edgeId, q.decisions, q.outcomes, r.round)] else [])
    ensures DecisionTold(r, p, q, side, choice, told)
  {
  }

  // ---- A round ----

  function Unblocked(xs: seq<ArrivalInfo>, blocked: seq<ArrivalInfo>): seq<ArrivalInfo> {
    if xs == [] then []
    else (if xs[0] in blocked then [] else [xs[0]]) + Unblocked(xs[1..], blocked)
  }

  /** The changes of one node's owner, each from the owner before it to another one. */
  predicate Chains(changes: seq<OwnershipChange>, n: NodeState, from: Ownership, to: Ownership) {
    if changes == [] then from == to
    else if changes[0].node != n.id then Chains(changes[1..], n, from, to)
    else
      && changes[0].previous == from && changes[0].current != from
      && (changes[0].supplyLine <==> n.kind == SupplyLine)
      && Chains(changes[1..], n, changes[0].current, to)
  }

  lemma {:induction false} ChainsAppend(changes: seq<OwnershipChange>, c: OwnershipChange, n: NodeState, from: Ownership, to: Ownership)
    requires Chains(changes, n, from, to)
    ensures c.node != n.id ==> Chains(changes + [c], n, from, to)
    ensures c.node == n.id && c.previous == to && c.current != to && (c.supplyLine <==> n.kind == SupplyLine) ==>
              Chains(changes + [c], n, from, c.current)
  {
    if changes == [] {
      assert [] + [c] == [c] && [c][1..] == [];
    } else {
      assert (changes + [c])[1..] == changes[1..] + [c];
      ChainsAppend(changes[1..], c, n, if changes[0].node == n.id then changes[0].current else from, to);
    }
  }

  /** Landing so far, told for one of the nodes it started from. */
  predicate ToldFor(start: seq<NodeState>, l: Landing, i: nat)
    requires i < |start|
  {
    |l.nodes| == |start| && l.nodes[i].id == start[i].id && l.nodes[i].kind == start[i].kind
    && Chains(l.changes, start[i], start[i].owner, l.nodes[i].owner)
  }

  lemma LandOneTells(start: seq<NodeState>, l: Landing, a: ArrivalInfo, blocked: seq<ArrivalInfo>, i: nat)
    requires i < |start| && DistinctNodes(start) && SameIds(start, l.nodes) && ToldFor(start, l, i)
    requires LandOne(l, a, blocked).Ok?
    ensures ToldFor(start, LandOne(l, a, blocked).value, i) && SameIds(start, LandOne(l, a, blocked).value.nodes)
  {
    hide Chains;
    if a !in blocked {
      var j := NodeIndex(l.nodes, a.destination).value;
      var node := Arrived(l.nodes[j], a.side, a.count);
      assert node.id == l.nodes[j].id == start[j].id && node.kind == l.nodes[j].kind;
      if node.owner != l.nodes[j].owner {
        var c := OwnershipChange(node.id, l.nodes[j].owner, node.owner, node.kind == SupplyLine);
        ChainsAppend(l.changes, c, start[i], start[i].owner, l.nodes[i].owner);
        assert i != j ==> start[i].id != start[j].id;
      } else {
        assert l.changes + [] == l.changes;
      }
    }
  }

  lemma {:induction false} LandTells(start: seq<NodeState>, l: Landing, xs: seq<ArrivalInfo>, blocked: seq<ArrivalInfo>, i: nat)
    requires i < |start| && DistinctNodes(start) && SameIds(start, l.nodes) && ToldFor(start, l, i)
    requires Land(l, xs, blocked).Ok?
    ensures ToldFor(start, Land(l, xs, blocked).value, i)
    decreases |xs|
  {
    hide LandOne, ToldFor, SameIds, DistinctNodes;
    if xs != [] {
      LandOneTells(start, l, xs[0], blocked, i);
      LandTells(start, LandOne(l, xs[0], blocked).value, xs[1..], blocked, i);
    }
  }

  lemma UnblockedStep(xs: seq<ArrivalInfo>, blocked: seq<ArrivalInfo>)
    requires xs != []
    ensures Unblocked(xs, blocked) == (if xs[0] in blocked then [] else [xs[0]]) + Unblocked(xs[1..], blocked)
  {
  }

  lemma {:induction false} LandRecords(l: Landing, xs: seq<ArrivalInfo>, blocked: seq<ArrivalInfo>)
    requires Land(l, xs, blocked).Ok?
    ensures Land(l, xs, blocked).value.landed == l.landed + Unblocked(xs, blocked)
    decreases |xs|
  {
    hide LandOne;
    if xs != [] {
      hide Unblocked;
      UnblockedStep(xs, blocked);
      LandOneRecords(l, xs[0], blocked);
      LandRecords(LandOne(l, xs[0], blocked).value, xs[1..], blocked);
      Associates(l.landed, if xs[0] in blocked then [] else [xs[0]], Unblocked(xs[1..], blocked));
    } else {
      assert l.landed + [] == l.landed;
    }
  }

  lemma Associates<T>(a: seq<T>, b: seq<T>, c: seq<T>)
    ensures a + b + c == a + (b + c)
  {
  }

  lemma LandOneRecords(l: Landing, a: ArrivalInfo, blocked: seq<ArrivalInfo>)
    requires LandOne(l, a, blocked).Ok?
    ensures LandOne(l, a, blocked).value.landed == l.landed + if a in blocked then [] else [a]
  {
  }

  /** What the round event says of the reserved moves: A's before B's, each as it was reserved. */
  lemma RoundTellsMoves(r: Room)
    requires ResolveRound(r).Ok?
    ensures var first := ResolveRound(r).value.events[0];
            && first.RoundResolved? && first.round == r.round && |first.moves| == |r.moves.a| + |r.moves.b|
            && (forall k :: 0 <= k < |r.moves.a| ==>
                  first.moves[k] == MoveRecord(r.moves.a[k].from, r.moves.a[k].to, A, r.moves.a[k].count))
            && (forall k :: 0 <= k < |r.moves.b| ==>
                  first.moves[|r.moves.a| + k] == MoveRecord(r.moves.b[k].from, r.moves.b[k].to, B, r.moves.b[k].count))
  {
    hide Dispatch, RoundLanding, AllEncounters, AdvancedEdges;
  }

  /** What it says of arrivals and owners: every arrival that was not stopped, in order; and for each
      node the changes of its owner, one after the other, from the owner it had once the moves had left
      to the owner it ends the round with. */
  lemma RoundTellsLanding(r: Room, i: nat)
    requires WellFormed(r) && r.phase == Planning && i < |r.nodes|
    ensures ResolveRound(r).Ok? && Dispatch(r).Ok? && i < |Dispatch(r).value.nodes| && i < |ResolveRound(r).value.nodes|
    ensures var b := Dispatch(r).value;
            var next := ResolveRound(r).value;
            && next.events[0].RoundResolved?
            && next.events[0].arrivals == Unblocked(EdgeArrivals(b.edges), RoundBlocked(b))
            && Chains(next.events[0].changes, b.nodes[i], b.nodes[i].owner, next.nodes[i].owner)
  {
    ResolveRoundOk(r);
    DispatchOk(r);
    var b := Dispatch(r).value;
    RoundLandingOk(b);
    hide WellFormed, Dispatch, Chains, EdgeArrivals, RoundBlocked, Land;
    NoChanges(b.nodes[i]);
    LandTells(b.nodes, Landing(b.nodes, [], []), EdgeArrivals(b.edges), RoundBlocked(b), i);
    LandRecords(Landing(b.nodes, [], []), EdgeArrivals(b.edges), RoundBlocked(b));
    assert [] + Unblocked(EdgeArrivals(b.edges), RoundBlocked(b)) == Unblocked(EdgeArrivals(b.edges), RoundBlocked(b));
  }

  lemma NoChanges(n: NodeState)
    ensures Chains([], n, n.owner, n.owner)
  {
  }

  // ---- The map ----

  /** The map the code draws: six places; every two are joined except 1 and 3, 2 and 4, 2 and 5; a
      road takes one round, except between 1 and 4, 1 and 5, 2 and 3, where it takes two. */
  lemma InitialMapIs()
    ensures |InitialNodes()| == 6 && forall k :: 0 <= k < 6 ==> InitialNodes()[k].id == k + 1 && InitialNodes()[k].owner == Neutral
    ensures InitialNodes()[0].kind == OutPost && InitialNodes()[4].kind == OutPost
    ensures InitialNodes()[1].kind == Chokepoint && InitialNodes()[3].kind == Chokepoint
    ensures InitialNodes()[2].kind == SupplyLine && InitialNodes()[5].kind == Headquarters
    ensures forall k :: 0 <= k < 6 ==> InitialNodes()[k].units == PerSide(Units(0, 0), Units(0, 0))
    ensures |InitialEdges()| == 12 && DistinctEdges(InitialEdges())
    ensures forall i :: 0 <= i < 12 ==> DrawnRight(InitialEdges()[i])
  {
    hide DrawnRight;
    InitialEdgesOk();
    forall i | 0 <= i < 12 ensures DrawnRight(InitialEdges()[i]) {
      InitialEdgeAt(i);
    }
  }

  predicate DrawnRight(e: EdgeState) {
    && 1 <= e.id.lo < e.id.hi <= 6 && e.traveling == []
    && (e.id.lo, e.id.hi) !in [(1, 3), (2, 4), (2, 5)]
    && e.distance == if (e.id.lo, e.id.hi) in [(1, 4), (1, 5), (2, 3)] then 2 else 1
  }

  lemma InitialEdgeAt(i: nat)
    requires i < |InitialEdges()|
    ensures DrawnRight(InitialEdges()[i])
  {
  }
}
