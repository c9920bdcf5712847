/** Where a side's mobile units are, and what each domain operation does to their number. */
module RoomLedger {
  import opened HexTypes
  import opened Nodes
  import opened Edges
  import opened Rooms
  import opened RoomWellFormed

  // ---- The ledger ----

  function NodeMobile(ns: seq<NodeState>, side: Side): int {
    if ns == [] then 0 else Mobile(ns[0], side) + NodeMobile(ns[1..], side)
  }

  function EdgeTravel(es: seq<EdgeState>, side: Side): int {
    if es == [] then 0 else CountOn(es[0].traveling, side) + EdgeTravel(es[1..], side)
  }

  function BoardTotal(b: Board, side: Side): int {
    NodeMobile(b.nodes, side) + EdgeTravel(b.edges, side)
  }

  /** A side's mobile units: standing on nodes or travelling on edges. */
  function Total(r: Room, side: Side): int {
    BoardTotal(Board(r.nodes, r.edges), side)
  }

  function ArrivalCount(xs: seq<ArrivalInfo>, side: Side): int {
    if xs == [] then 0 else (if xs[0].side == side then xs[0].count else 0) + ArrivalCount(xs[1..], side)
  }

  function DroppedCount(xs: seq<ArrivalInfo>, blocked: seq<ArrivalInfo>, side: Side): int {
    if xs == [] then 0
    else (if xs[0].side == side && xs[0] in blocked then xs[0].count else 0) + DroppedCount(xs[1..], blocked, side)
  }

  // ---- Replacing one entry ----

  lemma {:induction false} ReplaceNodeMobile(ns: seq<NodeState>, i: nat, n: NodeState, side: Side)
    requires i < |ns|
    ensures NodeMobile(ns[i := n], side) == NodeMobile(ns, side) - Mobile(ns[i], side) + Mobile(n, side)
  {
    if i == 0 {
      assert ns[i := n][1..] == ns[1..];
    } else {
      assert ns[i := n][1..] == ns[1..][i - 1 := n];
      ReplaceNodeMobile(ns[1..], i - 1, n, side);
    }
  }

  lemma {:induction false} ReplaceEdgeTravel(es: seq<EdgeState>, j: nat, e: EdgeState, side: Side)
    requires j < |es|
    ensures EdgeTravel(es[j := e], side) ==
              EdgeTravel(es, side) - CountOn(es[j].traveling, side) + CountOn(e.traveling, side)
  {
    if j == 0 {
      assert es[j := e][1..] == es[1..];
    } else {
      assert es[j := e][1..] == es[1..][j - 1 := e];
      ReplaceEdgeTravel(es[1..], j - 1, e, side);
    }
  }

  lemma StartedCount(e: EdgeState, mover: Side, count: int, to: NodeId, side: Side)
    ensures CountOn(Started(e, mover, count, to).traveling, side) ==
              CountOn(e.traveling, side) + if mover == side then count else 0
  {
    var g := TravelingGroup(mover, count, to);
    CountPut(e.traveling, e.distance, [g], side);
    assert [g][1..] == [];
  }

  // ---- Departures, advance, landing ----

  /** Dispatching reserved moves changes no side's total. */
  lemma {:induction false} ExecMovesLedger(b: Board, mover: Side, ms: seq<PendingMove>, side: Side)
    requires BoardOk(b) && ReservedOk(b, mover, ms)
    ensures ExecMoves(b, mover, ms).Ok?
    ensures BoardTotal(ExecMoves(b, mover, ms).value, side) == BoardTotal(b, side)
    decreases |ms|
  {
    if ms != [] {
      var m := ms[0];
      ExecMoveExact(b, mover, ms);
      ExecMoveOk(b, mover, ms);
      var i := NodeIndex(b.nodes, m.from).value;
      var j := EdgeIndex(b.edges, MakeEdgeId(m.from, m.to)).value;
      var c := ExecMove(b, mover, m).value;
      DepartedOk(b.nodes[i], mover, m.count);
      ReplaceNodeMobile(b.nodes, i, c.nodes[i], side);
      StartedCount(b.edges[j], mover, m.count, m.to, side);
      ReplaceEdgeTravel(b.edges, j, c.edges[j], side);
      ExecMoveReserved(b, c, mover, ms);
      ExecMovesLedger(c, mover, ms[1..], side);
    }
  }

  lemma DispatchLedger(r: Room, side: Side)
    requires WellFormed(r)
    ensures Dispatch(r).Ok? && BoardTotal(Dispatch(r).value, side) == Total(r, side)
  {
    var b := Board(r.nodes, r.edges);
    assert SideOk(r, A) && SideOk(r, B);
    ExecMovesOk(b, A, r.moves.a);
    ExecMovesLedger(b, A, r.moves.a, side);
    var c := ExecMoves(b, A, r.moves.a).value;
    ReservedCarries(b, c, B, r.moves.b);
    ExecMovesLedger(c, B, r.moves.b, side);
  }

  lemma {:induction false} AsArrivalsCount(gs: seq<TravelingGroup>, via: EdgeId, side: Side)
    ensures ArrivalCount(AsArrivals(gs, via), side) == CountIn(gs, side)
  {
    if gs != [] {
      assert AsArrivals(gs, via)[1..] == AsArrivals(gs[1..], via);
      AsArrivalsCount(gs[1..], via, side);
    }
  }

  lemma {:induction false} ArrivalAppend(xs: seq<ArrivalInfo>, ys: seq<ArrivalInfo>, side: Side)
    ensures ArrivalCount(xs + ys, side) == ArrivalCount(xs, side) + ArrivalCount(ys, side)
  {
    if xs == [] {
      assert xs + ys == ys;
    } else {
      assert (xs + ys)[1..] == xs[1..] + ys;
      ArrivalAppend(xs[1..], ys, side);
    }
  }

  /** Advancing every edge splits its travellers into those still under way and the arrivals. */
  lemma {:induction false} AdvanceLedger(es: seq<EdgeState>, side: Side)
    ensures EdgeTravel(es, side) == EdgeTravel(AdvancedEdges(es), side) + ArrivalCount(EdgeArrivals(es), side)
  {
    if es != [] {
      AdvanceLedger(es[1..], side);
      assert AdvancedEdges(es)[1..] == AdvancedEdges(es[1..]);
      CountAdvance(es[0].traveling, side);
      AsArrivalsCount(Arrivals(es[0].traveling), es[0].id, side);
      ArrivalAppend(AsArrivals(Arrivals(es[0].traveling), es[0].id), EdgeArrivals(es[1..]), side);
    }
  }

  /** Landing adds every arrival to its node, except the ones equal to a blocked record. */
  lemma {:induction false} LandLedger(l: Landing, arrivals: seq<ArrivalInfo>, blocked: seq<ArrivalInfo>, side: Side)
    requires Land(l, arrivals, blocked).Ok?
    ensures NodeMobile(Land(l, arrivals, blocked).value.nodes, side) ==
              NodeMobile(l.nodes, side) + ArrivalCount(arrivals, side) - DroppedCount(arrivals, blocked, side)
    decreases |arrivals|
  {
    if arrivals != [] {
      var a := arrivals[0];
      var next := LandOne(l, a, blocked).value;
      if a !in blocked {
        var i := NodeIndex(l.nodes, a.destination).value;
        ReplaceNodeMobile(l.nodes, i, next.nodes[i], side);
      }
      LandLedger(next, arrivals[1..], blocked, side);
    }
  }

  lemma {:induction false} ClearedMobile(ns: seq<NodeState>, side: Side)
    ensures NodeMobile(HistoryCleared(ns), side) == NodeMobile(ns, side)
  {
    if ns != [] {
      assert HistoryCleared(ns)[1..] == HistoryCleared(ns[1..]);
      ClearedMobile(ns[1..], side);
    }
  }

  // ---- The round ledger ----

  /** What a resolution of `r` silently loses for a side. */
  function Lost(r: Room, side: Side): int
    requires Dispatch(r).Ok?
  {
    DroppedCount(EdgeArrivals(Dispatch(r).value.edges), RoundBlocked(Dispatch(r).value), side)
  }

  /** The exact ledger of a round: what was there before is there after, plus exactly the
      arrivals whose record equals a blocked one. */
  lemma RoundConservation(r: Room, side: Side)
    requires WellFormed(r) && r.phase == Planning
    ensures ResolveRound(r).Ok? && Dispatch(r).Ok?
    ensures Total(r, side) == Total(ResolveRound(r).value, side) + Lost(r, side)
  {
    ResolveRoundOk(r);
    DispatchOk(r);
    DispatchLedger(r, side);
    var b := Dispatch(r).value;
    RoundLandingOk(b);
    AdvanceLedger(b.edges, side);
    LandLedger(Landing(b.nodes, [], []), EdgeArrivals(b.edges), RoundBlocked(b), side);
    ClearedMobile(RoundLanding(b).value.nodes, side);
  }

  predicate SomeDropped(xs: seq<ArrivalInfo>, blocked: seq<ArrivalInfo>, side: Side) {
    exists a :: a in xs && a.side == side && a in blocked
  }

  lemma {:induction false} DroppedPositive(xs: seq<ArrivalInfo>, blocked: seq<ArrivalInfo>, side: Side)
    requires forall a :: a in xs ==> a.count > 0
    ensures DroppedCount(xs, blocked, side) >= 0
    ensures DroppedCount(xs, blocked, side) > 0 <==> SomeDropped(xs, blocked, side)
  {
    if xs != [] {
      assert xs == [xs[0]] + xs[1..];
      DroppedPositive(xs[1..], blocked, side);
      if xs[0].side == side && xs[0] in blocked {
        assert xs[0] in xs;
      } else if SomeDropped(xs, blocked, side) {
        var a :| a in xs && a.side == side && a in blocked;
        assert a in xs[1..];
      }
    }
  }

  /** A resolution never adds a unit, and it conserves a side's units exactly when no arrival
      of that side equals a blocked record. */
  lemma ConservedIffNothingMatches(r: Room, side: Side)
    requires WellFormed(r) && r.phase == Planning
    ensures ResolveRound(r).Ok? && Dispatch(r).Ok?
    ensures Total(ResolveRound(r).value, side) <= Total(r, side)
    ensures Total(ResolveRound(r).value, side) == Total(r, side) <==>
              !SomeDropped(EdgeArrivals(Dispatch(r).value.edges), RoundBlocked(Dispatch(r).value), side)
  {
    RoundConservation(r, side);
    DispatchOk(r);
    var b := Dispatch(r).value;
    EdgeArrivalsOk(b.nodes, b.edges);
    assert forall a :: a in EdgeArrivals(b.edges) ==> ArrivalOk(b.nodes, a);
    DroppedPositive(EdgeArrivals(b.edges), RoundBlocked(b), side);
  }

  // ---- The other operations ----

  lemma MoveUnitsLedger(r: Room, side: Side, cmd: MoveCommand, other: Side)
    requires MoveUnits(r, side, cmd).Ok?
    ensures Total(MoveUnits(r, side, cmd).value, other) == Total(r, other)
  {
  }

  lemma AddPlayerLedger(r: Room, player: string, side: Side)
    requires AddPlayer(r, player).Ok?
    ensures Total(AddPlayer(r, player).value, side) == Total(r, side) + if side == NextSide(r) then MAX_UNITS else 0
  {
    var joiner := NextSide(r);
    var i := NodeIndex(r.nodes, StartNode(joiner)).value;
    ReplaceNodeMobile(r.nodes, i, Stationed(r.nodes[i], joiner, MAX_UNITS), side);
  }

  /** A retreat replaces everything the decider has on the edge by the one deciding group, an
      advance changes nothing, and the other side is never touched. */
  lemma EncounterLedger(r: Room, id: EdgeId, decider: Side, decision: Decision, side: Side)
    requires ResolveEncounter(r, id, decider, decision).Ok?
    ensures var p := r.pending[PendingIndex(r.pending, id).value];
            var e := r.edges[EdgeIndex(r.edges, id).value];
            Total(ResolveEncounter(r, id, decider, decision).value, side) - Total(r, side) ==
              if decision == Retreat && side == decider
              then p.GroupOf(decider).unitCount - CountOn(e.traveling, decider)
              else 0
  {
    var p := r.pending[PendingIndex(r.pending, id).value];
    var i := EdgeIndex(r.edges, id).value;
    var e := r.edges[i];
    var edge := Decide(e, p, decider, decision).value.0;
    ReplaceEdgeTravel(r.edges, i, edge, side);
    if decision == Retreat {
      var g := p.GroupOf(decider);
      CountRemoved(e.traveling, decider, side);
      StartedCount(RemovedEdge(e, decider), decider, g.unitCount, e.id.Opposite(g.destination).value, side);
    }
  }
}
