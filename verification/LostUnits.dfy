/** Which planning rooms lose a unit when their round is resolved, read off the room itself: its
    travelling groups and its reserved moves (HexWar.Domain/Entities/GameRoom.Events.cs). */
module LostUnits {
  import opened HexTypes
  import opened Nodes
  import opened Edges
  import opened Rooms
  import opened RoomWellFormed
  import opened RoomLedger

  // ---- Windows ----

  /** The groups a side's reservations will start on an edge, in order. */
  function Entering(ms: seq<PendingMove>, side: Side, id: EdgeId): seq<TravelingGroup> {
    if ms == [] then []
    else (if MakeEdgeId(ms[0].from, ms[0].to) == id then [TravelingGroup(side, ms[0].count, ms[0].to)] else [])
         + Entering(ms[1..], side, id)
  }

  /** Who stands this many rounds from the end of an edge once the reserved moves are under way. */
  function Window(r: Room, i: nat, key: int): seq<TravelingGroup>
    requires i < |r.edges|
  {
    var e := r.edges[i];
    Lookup(e.traveling, key)
    + (if key == e.distance then Entering(r.moves.a, A, e.id) + Entering(r.moves.b, B, e.id) else [])
  }

  /** The edge has gained these groups behind everybody at its full distance. */
  predicate Gains(e: EdgeState, f: EdgeState, key: int, gs: seq<TravelingGroup>) {
    SameEdge(e, f) && Lookup(f.traveling, key) == Lookup(e.traveling, key) + if key == e.distance then gs else []
  }

  lemma GainsTwice(e: EdgeState, f: EdgeState, g: EdgeState, key: int, xs: seq<TravelingGroup>, ys: seq<TravelingGroup>)
    requires Gains(e, f, key, xs) && Gains(f, g, key, ys)
    ensures Gains(e, g, key, xs + ys)
  {
  }

  /** What the first move brings to an edge. */
  function FirstEntering(ms: seq<PendingMove>, side: Side, id: EdgeId): seq<TravelingGroup>
    requires ms != []
  {
    if MakeEdgeId(ms[0].from, ms[0].to) == id then [TravelingGroup(side, ms[0].count, ms[0].to)] else []
  }

  lemma {:induction false} ExecMovesWindow(b: Board, mover: Side, ms: seq<PendingMove>, i: nat, key: int)
    requires BoardOk(b) && ReservedOk(b, mover, ms) && i < |b.edges|
    ensures ExecMoves(b, mover, ms).Ok? && |ExecMoves(b, mover, ms).value.edges| == |b.edges|
    ensures Gains(b.edges[i], ExecMoves(b, mover, ms).value.edges[i], key, Entering(ms, mover, b.edges[i].id))
    decreases |ms|
  {
    if ms == [] {
      assert Lookup(b.edges[i].traveling, key) + [] == Lookup(b.edges[i].traveling, key);
    } else {
      hide BoardOk, ReservedOk, ExecMove, Gains;
      var c := ExecMoveWindow(b, mover, ms, i, key);
      ExecMovesWindow(c, mover, ms[1..], i, key);
      var d := ExecMoves(c, mover, ms[1..]).value;
      GainsTwice(b.edges[i], c.edges[i], d.edges[i], key, FirstEntering(ms, mover, b.edges[i].id),
                 Entering(ms[1..], mover, b.edges[i].id));
    }
  }

  lemma ExecMoveWindow(b: Board, mover: Side, ms: seq<PendingMove>, i: nat, key: int) returns (c: Board)
    requires BoardOk(b) && ReservedOk(b, mover, ms) && ms != [] && i < |b.edges|
    ensures ExecMove(b, mover, ms[0]) == Ok(c) && BoardOk(c) && ReservedOk(c, mover, ms[1..])
    ensures |c.edges| == |b.edges| && c.edges[i].id == b.edges[i].id
    ensures Gains(b.edges[i], c.edges[i], key, FirstEntering(ms, mover, b.edges[i].id))
  {
    ExecMoveExact(b, mover, ms);
    c := ExecMove(b, mover, ms[0]).value;
    ExecMoveOk(b, mover, ms);
    ExecMoveReserved(b, c, mover, ms);
    hide Dispatched, ReservedOk;
    var j := EdgeIndex(b.edges, MakeEdgeId(ms[0].from, ms[0].to)).value;
    assert EdgeOk(b.edges[j]);
    PutLookup(b.edges[j].traveling, b.edges[j].distance, [TravelingGroup(mover, ms[0].count, ms[0].to)], key);
    assert DistinctEdges(b.edges);
  }

  lemma BothMoves(b: Board, r: Room, i: nat, key: int)
    requires WellFormed(r) && b == Board(r.nodes, r.edges) && i < |r.edges|
    ensures Dispatch(r).Ok? && |Dispatch(r).value.edges| == |r.edges|
    ensures Gains(r.edges[i], Dispatch(r).value.edges[i], key,
                  Entering(r.moves.a, A, r.edges[i].id) + Entering(r.moves.b, B, r.edges[i].id))
  {
    assert SideOk(r, A) && SideOk(r, B);
    hide BoardOk, ReservedOk, ExecMoves, Gains, Entering;
    ExecMovesOk(b, A, r.moves.a);
    ExecMovesWindow(b, A, r.moves.a, i, key);
    var c := ExecMoves(b, A, r.moves.a).value;
    assert SameEdge(b.edges[i], c.edges[i]);
    ReservedCarries(b, c, B, r.moves.b);
    ExecMovesWindow(c, B, r.moves.b, i, key);
    GainsTwice(b.edges[i], c.edges[i], ExecMoves(c, B, r.moves.b).value.edges[i], key,
               Entering(r.moves.a, A, r.edges[i].id), Entering(r.moves.b, B, r.edges[i].id));
  }

  lemma DispatchWindow(r: Room, i: nat, key: int)
    requires WellFormed(r) && i < |r.edges|
    ensures Dispatch(r).Ok? && |Dispatch(r).value.edges| == |r.edges|
    ensures Lookup(Dispatch(r).value.edges[i].traveling, key) == Window(r, i, key)
  {
    BothMoves(Board(r.nodes, r.edges), r, i, key);
  }

  // ---- Arrivals and blocked groups, edge by edge ----

  function GroupIn(a: ArrivalInfo): TravelingGroup {
    TravelingGroup(a.side, a.count, a.destination)
  }

  lemma AsArrivalsMember(gs: seq<TravelingGroup>, via: EdgeId, a: ArrivalInfo)
    ensures a in AsArrivals(gs, via) <==> a.via == via && GroupIn(a) in gs
  {
    var xs := AsArrivals(gs, via);
    if a in xs {
      var k :| 0 <= k < |xs| && xs[k] == a;
      assert gs[k] == GroupIn(a);
    }
    if a.via == via && GroupIn(a) in gs {
      var k :| 0 <= k < |gs| && gs[k] == GroupIn(a);
      assert xs[k] == a;
    }
  }

  lemma {:induction false} ArrivalsMember(es: seq<EdgeState>, a: ArrivalInfo)
    ensures a in EdgeArrivals(es) <==>
              exists i :: 0 <= i < |es| && es[i].id == a.via && GroupIn(a) in Arrivals(es[i].traveling)
  {
    if es != [] {
      ArrivalsMember(es[1..], a);
      AsArrivalsMember(Arrivals(es[0].traveling), es[0].id, a);
      assert forall i :: 0 <= i < |es[1..]| ==> es[1..][i] == es[i + 1];
      if i :| 0 <= i < |es| && es[i].id == a.via && GroupIn(a) in Arrivals(es[i].traveling) {
        assert i == 0 || es[1..][i - 1] == es[i];
      }
    }
  }

  /** What is blocked: both groups of every encounter. */
  lemma {:induction false} BlockedMember(encs: seq<EncounterInfo>, a: ArrivalInfo)
    ensures a in Blocked(encs) <==>
              exists k :: 0 <= k < |encs| && encs[k].edgeId == a.via && GroupIn(a) in [encs[k].groupA, encs[k].groupB]
  {
    if encs != [] {
      BlockedMember(encs[1..], a);
      AsArrivalsMember([encs[0].groupA, encs[0].groupB], encs[0].edgeId, a);
      assert forall k :: 0 <= k < |encs[1..]| ==> encs[1..][k] == encs[k + 1];
      if k :| 0 <= k < |encs| && encs[k].edgeId == a.via && GroupIn(a) in [encs[k].groupA, encs[k].groupB] {
        assert k == 0 || encs[1..][k - 1] == encs[k];
      }
    }
  }

  lemma {:induction false} AllEncountersMember(es: seq<EdgeState>, x: EncounterInfo)
    ensures x in AllEncounters(es) <==> exists i :: 0 <= i < |es| && x in Encounters(es[i].id, es[i].traveling)
  {
    if es != [] {
      AllEncountersMember(es[1..], x);
      assert forall i :: 0 <= i < |es[1..]| ==> es[1..][i] == es[i + 1];
      if i :| 0 <= i < |es| && x in Encounters(es[i].id, es[i].traveling) {
        assert i == 0 || es[1..][i - 1] == es[i];
      }
    }
  }

  lemma {:induction false} EncountersMember(id: EdgeId, bs: seq<Bucket>, x: EncounterInfo)
    requires Sorted(bs)
    ensures x in Encounters(id, bs) <==>
              var gs := Lookup(bs, x.remaining);
              x.edgeId == id && Meets(gs) && x.groupA == FirstOf(gs, A).value && x.groupB == FirstOf(gs, B).value
  {
    if bs != [] {
      SortedTail(bs);
      EncountersMember(id, bs[1..], x);
      if x.remaining == bs[0].remaining {
        LookupAbsent(bs[1..], x.remaining);
      }
    }
  }

  // ---- The condition ----

  /** Both sides stand together `key` rounds from the end of the edge, and the first group of the
      side there is the same as one that is about to arrive. */
  predicate Doubled(r: Room, i: nat, key: int, side: Side)
    requires i < |r.edges|
  {
    Meets(Window(r, i, key)) && FirstOf(Window(r, i, key), side).value in Window(r, i, 1)
  }

  ghost predicate LosesUnit(r: Room, side: Side) {
    exists i: nat, key: nat :: i < |r.edges| && key >= 2 && Doubled(r, i, key, side)
  }

  /** The board once the moves are under way, in windows. */
  predicate Windowed(r: Room, b: Board) {
    && |b.edges| == |r.edges| && DistinctEdges(b.edges)
    && (forall i :: 0 <= i < |b.edges| ==> EdgeOk(b.edges[i]) && WindowedEdge(r, b, i))
  }

  predicate WindowedEdge(r: Room, b: Board, i: nat)
    requires i < |r.edges| == |b.edges|
  {
    Arrivals(b.edges[i].traveling) == Window(r, i, 1) && Sorted(Advanced(b.edges[i].traveling))
  }

  lemma WindowsOnBoard(r: Room)
    requires WellFormed(r)
    ensures Dispatch(r).Ok? && Windowed(r, Dispatch(r).value)
  {
    DispatchOk(r);
    var b := Dispatch(r).value;
    hide WellFormed, Dispatch, EdgeOk, Window;
    forall i | 0 <= i < |b.edges| ensures WindowedEdge(r, b, i) {
      EdgeWindows(r, b, i, 1);
    }
  }

  lemma EdgeWindows(r: Room, b: Board, i: nat, key: int)
    requires WellFormed(r) && Dispatch(r) == Ok(b) && i < |b.edges| == |r.edges| && EdgeOk(b.edges[i]) && key >= 1
    ensures Arrivals(b.edges[i].traveling) == Window(r, i, 1) && WellKeyed(Advanced(b.edges[i].traveling), b.edges[i].distance)
    ensures Lookup(Advanced(b.edges[i].traveling), key) == Window(r, i, key + 1)
  {
    hide WellFormed, Dispatch, Window;
    var bs := b.edges[i].traveling;
    ArrivalsLookup(bs);
    AdvancedLookup(bs, key);
    AdvancedKeys(bs, 1, b.edges[i].distance);
    DispatchWindow(r, i, 1);
    DispatchWindow(r, i, key + 1);
  }

  /** From a dropped record to the edge it was dropped on. */
  lemma DroppedIsDoubled(r: Room, b: Board, a: ArrivalInfo)
    requires WellFormed(r) && Dispatch(r) == Ok(b) && Windowed(r, b)
    requires a in EdgeArrivals(b.edges) && a in Blocked(AllEncounters(AdvancedEdges(b.edges)))
    ensures LosesUnit(r, a.side)
  {
    hide WellFormed, Dispatch, Window, EdgeArrivals, Blocked, AllEncounters, Encounters, EdgeOk;
    ArrivalsMember(b.edges, a);
    var i :| 0 <= i < |b.edges| && b.edges[i].id == a.via && GroupIn(a) in Arrivals(b.edges[i].traveling);
    var adv := AdvancedEdges(b.edges);
    var encs := AllEncounters(adv);
    BlockedMember(encs, a);
    var k :| 0 <= k < |encs| && encs[k].edgeId == a.via && GroupIn(a) in [encs[k].groupA, encs[k].groupB];
    AllEncountersMember(adv, encs[k]);
    var j :| 0 <= j < |adv| && encs[k] in Encounters(adv[j].id, adv[j].traveling);
    assert WindowedEdge(r, b, j) && WindowedEdge(r, b, i);
    EncountersMember(adv[j].id, adv[j].traveling, encs[k]);
    assert adv[j].id == b.edges[j].id && i == j;
    MetInWindow(r, b, i, encs[k], a);
  }

  lemma MetInWindow(r: Room, b: Board, i: nat, x: EncounterInfo, a: ArrivalInfo)
    requires WellFormed(r) && Dispatch(r) == Ok(b) && i < |b.edges| == |r.edges| && EdgeOk(b.edges[i])
    requires GroupIn(a) in Arrivals(b.edges[i].traveling) && GroupIn(a) in [x.groupA, x.groupB]
    requires var gs := Lookup(Advanced(b.edges[i].traveling), x.remaining);
             Meets(gs) && x.groupA == FirstOf(gs, A).value && x.groupB == FirstOf(gs, B).value
    ensures LosesUnit(r, a.side)
  {
    hide WellFormed, Dispatch, Window;
    var gs := Lookup(Advanced(b.edges[i].traveling), x.remaining);
    FirstOfMember(gs, A);
    FirstOfMember(gs, B);
    EdgeWindows(r, b, i, 1);
    if x.remaining < 1 {
      LookupAbsent(Advanced(b.edges[i].traveling), x.remaining);
    } else {
      EdgeWindows(r, b, i, x.remaining);
      assert Doubled(r, i, x.remaining + 1, a.side);
    }
  }

  /** And back: the group that arrives is the record that is blocked. */
  lemma DoubledIsDropped(r: Room, b: Board, i: nat, key: nat, side: Side)
    requires WellFormed(r) && Dispatch(r) == Ok(b) && Windowed(r, b) && i < |r.edges| && key >= 2 && Doubled(r, i, key, side)
    ensures SomeDropped(EdgeArrivals(b.edges), Blocked(AllEncounters(AdvancedEdges(b.edges))), side)
  {
    hide WellFormed, Dispatch, Window, EdgeArrivals, Blocked, AllEncounters, Encounters, EdgeOk;
    assert WindowedEdge(r, b, i);
    EdgeWindows(r, b, i, key - 1);
    var gs := Window(r, i, key);
    FirstOfMember(gs, A);
    FirstOfMember(gs, B);
    var g := FirstOf(gs, side).value;
    var a := ArrivalInfo(g.destination, g.side, g.unitCount, b.edges[i].id);
    ArrivalsMember(b.edges, a);
    var adv := AdvancedEdges(b.edges);
    var x := EncounterInfo(b.edges[i].id, FirstOf(gs, A).value, FirstOf(gs, B).value, key - 1);
    EncountersMember(adv[i].id, adv[i].traveling, x);
    AllEncountersMember(adv, x);
    var encs := AllEncounters(adv);
    var k :| 0 <= k < |encs| && encs[k] == x;
    BlockedMember(encs, a);
  }

  /** A resolution loses units of a side exactly when, on some edge and two or more rounds from its
      end, both sides will stand together and the side's first group there equals, in size and
      destination, a group of its own that arrives. On the code's map, whose edges take at most two
      rounds, those who stand there are the ones who now have two rounds to go or whose move is
      reserved, and those who arrive are one round away. */
  lemma LosesUnitIff(r: Room, side: Side)
    requires WellFormed(r) && r.phase == Planning
    ensures ResolveRound(r).Ok?
    ensures Total(ResolveRound(r).value, side) < Total(r, side) <==> LosesUnit(r, side)
  {
    WindowsOnBoard(r);
    ConservedIffNothingMatches(r, side);
    var b := Dispatch(r).value;
    hide WellFormed, Dispatch, ResolveRound, Total, Windowed, EdgeArrivals, Blocked, AllEncounters, AdvancedEdges, LosesUnit;
    if SomeDropped(EdgeArrivals(b.edges), RoundBlocked(b), side) {
      var a :| a in EdgeArrivals(b.edges) && a.side == side && a in RoundBlocked(b);
      DroppedIsDoubled(r, b, a);
    }
    if LosesUnit(r, side) {
      LosesWitness(r, b, side);
    }
  }

  lemma LosesWitness(r: Room, b: Board, side: Side)
    requires WellFormed(r) && Dispatch(r) == Ok(b) && Windowed(r, b) && LosesUnit(r, side)
    ensures SomeDropped(EdgeArrivals(b.edges), RoundBlocked(b), side)
  {
    hide WellFormed, Dispatch, Windowed, Doubled, EdgeArrivals, Blocked, AllEncounters, AdvancedEdges, SomeDropped;
    var i: nat, key: nat :| i < |r.edges| && key >= 2 && Doubled(r, i, key, side);
    DoubledIsDropped(r, b, i, key, side);
  }
}
