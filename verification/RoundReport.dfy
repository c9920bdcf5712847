/** What a resolved round leaves at every single place and reports, on fields: the units of each side
    on each node, the groups in each window of each edge, and the encounters found, in order
    (HexWar.Domain/Entities/GameRoom.Events.cs, Edge.cs). */
module RoundReport {
  import opened HexTypes
  import opened Nodes
  import opened Edges
  import opened Rooms
  import opened RoomWellFormed
  import opened LostUnits
  import opened Announcements

  // ---- Nodes ----

  /** The units that orders take from a node. */
  function Leaving(ms: seq<PendingMove>, id: NodeId): int {
    if ms == [] then 0 else (if ms[0].from == id then ms[0].count else 0) + Leaving(ms[1..], id)
  }

  /** The units of a side that arrivals bring to a node. */
  function Coming(xs: seq<ArrivalInfo>, id: NodeId, side: Side): int {
    if xs == [] then 0
    else (if xs[0].destination == id && xs[0].side == side then xs[0].count else 0) + Coming(xs[1..], id, side)
  }

  lemma {:induction false} LeavingIsCommitted(ms: seq<PendingMove>, id: NodeId)
    ensures Leaving(ms, id) == Committed(ms, id)
  {
    if ms != [] {
      LeavingIsCommitted(ms[1..], id);
    }
  }

  /** Once the reserved moves have left. */
  lemma NodesAfterMoves(r: Room, i: nat, side: Side)
    requires WellFormed(r) && i < |r.nodes|
    ensures Dispatch(r).Ok? && |Dispatch(r).value.nodes| == |r.nodes| && Dispatch(r).value.nodes[i].id == r.nodes[i].id
    ensures StandingOn(Dispatch(r).value.nodes[i], side) == StandingOn(r.nodes[i], side) - Leaving(MovesOf(r, side), r.nodes[i].id)
  {
    LeavingIsCommitted(MovesOf(r, side), r.nodes[i].id);
    assert SideOk(r, A) && SideOk(r, B);
    var b := Board(r.nodes, r.edges);
    ExecMovesOk(b, A, r.moves.a);
    var c := ExecMoves(b, A, r.moves.a).value;
    ReservedCarries(b, c, B, r.moves.b);
    ExecMovesOk(c, B, r.moves.b);
    hide BoardOk, ExecMoves, ReservedOk, Committed, SameEdges;
  }

  lemma LandOneAt(l: Landing, a: ArrivalInfo, blocked: seq<ArrivalInfo>, i: nat, side: Side)
    requires LandOne(l, a, blocked).Ok? && DistinctNodes(l.nodes) && i < |l.nodes|
    ensures var m := LandOne(l, a, blocked).value;
            && SameIds(l.nodes, m.nodes)
            && StandingOn(m.nodes[i], side) ==
                 StandingOn(l.nodes[i], side)
                 + if a !in blocked && a.destination == l.nodes[i].id && a.side == side then a.count else 0
  {
    if a !in blocked {
      var j := NodeIndex(l.nodes, a.destination).value;
      assert i != j ==> l.nodes[i].id != l.nodes[j].id;
    }
  }

  lemma {:induction false} LandAt(l: Landing, xs: seq<ArrivalInfo>, blocked: seq<ArrivalInfo>, i: nat, side: Side)
    requires Land(l, xs, blocked).Ok? && DistinctNodes(l.nodes) && i < |l.nodes|
    ensures var m := Land(l, xs, blocked).value;
            && SameIds(l.nodes, m.nodes)
            && StandingOn(m.nodes[i], side) == StandingOn(l.nodes[i], side) + Coming(Unblocked(xs, blocked), l.nodes[i].id, side)
    decreases |xs|
  {
    hide LandOne, StandingOn;
    if xs != [] {
      LandOneAt(l, xs[0], blocked, i, side);
      var m := LandOne(l, xs[0], blocked).value;
      SameIdsDistinct(l.nodes, m.nodes);
      LandAt(m, xs[1..], blocked, i, side);
      UnblockedStep(xs, blocked);
      ComingStep(xs[0], Unblocked(xs[1..], blocked), l.nodes[i].id, side);
      assert [] + Unblocked(xs[1..], blocked) == Unblocked(xs[1..], blocked);
    }
  }

  lemma SameIdsDistinct(ns: seq<NodeState>, ms: seq<NodeState>)
    requires DistinctNodes(ns) && SameIds(ns, ms)
    ensures DistinctNodes(ms)
  {
  }

  lemma ComingStep(x: ArrivalInfo, xs: seq<ArrivalInfo>, id: NodeId, side: Side)
    ensures Coming([x] + xs, id, side) == (if x.destination == id && x.side == side then x.count else 0) + Coming(xs, id, side)
  {
    assert ([x] + xs)[1..] == xs;
  }

  /** Node by node and side by side, a round takes what was ordered away and adds what the round event
      reports as arrived there. */
  lemma NodeLedger(r: Room, i: nat, side: Side)
    requires WellFormed(r) && r.phase == Planning && i < |r.nodes|
    ensures ResolveRound(r).Ok?
    ensures var next := ResolveRound(r).value;
            && |next.nodes| == |r.nodes| && next.events[0].RoundResolved?
            && next.nodes[i].id == r.nodes[i].id && next.nodes[i].kind == r.nodes[i].kind && next.nodes[i].recent == []
            && StandingOn(next.nodes[i], side) ==
                 StandingOn(r.nodes[i], side) - Leaving(MovesOf(r, side), r.nodes[i].id)
                 + Coming(next.events[0].arrivals, r.nodes[i].id, side)
  {
    RoundTellsLanding(r, i);
    DispatchOk(r);
    NodesAfterMoves(r, i, side);
    var b := Dispatch(r).value;
    RoundLandingOk(b);
    hide WellFormed, Dispatch, Land, Chains, EdgeArrivals, RoundBlocked, Coming, Leaving, Unblocked, AllEncounters;
    LandAt(Landing(b.nodes, [], []), EdgeArrivals(b.edges), RoundBlocked(b), i, side);
  }

  // ---- Edges ----

  /** Window by window, everybody is one round nearer, behind whom the orders of the round have started. */
  lemma EdgeLedger(r: Room, i: nat, key: int)
    requires WellFormed(r) && r.phase == Planning && i < |r.edges| && key >= 1
    ensures ResolveRound(r).Ok? && |ResolveRound(r).value.edges| == |r.edges|
    ensures var next := ResolveRound(r).value;
            && next.edges[i].(traveling := r.edges[i].traveling) == r.edges[i]
            && Lookup(next.edges[i].traveling, key) ==
                 Lookup(r.edges[i].traveling, key + 1)
                 + if key + 1 == r.edges[i].distance
                   then Entering(r.moves.a, A, r.edges[i].id) + Entering(r.moves.b, B, r.edges[i].id) else []
  {
    ResolveRoundOk(r);
    DispatchOk(r);
    var b := Dispatch(r).value;
    assert SameEdge(r.edges[i], b.edges[i]) && EdgeOk(b.edges[i]);
    EdgeWindows(r, b, i, key);
    hide WellFormed, Dispatch, RoundLanding, Lookup, Entering, AllEncounters;
  }

  // ---- Encounters ----

  /** The first group of a side in a list. */
  predicate FirstIn(gs: seq<TravelingGroup>, side: Side, g: TravelingGroup) {
    exists i :: 0 <= i < |gs| && gs[i] == g && g.side == side && forall j :: 0 <= j < i ==> gs[j].side != side
  }

  lemma {:induction false} FirstOfIs(gs: seq<TravelingGroup>, side: Side, g: TravelingGroup)
    ensures FirstOf(gs, side) == Some(g) <==> FirstIn(gs, side, g)
  {
    if gs != [] {
      FirstOfIs(gs[1..], side, g);
      if gs[0].side != side {
        assert forall j :: 0 <= j < |gs[1..]| ==> gs[1..][j] == gs[j + 1];
        if i :| 0 <= i < |gs[1..]| && gs[1..][i] == g && g.side == side && forall j :: 0 <= j < i ==> gs[1..][j].side != side {
          assert gs[i + 1] == g;
          forall j | 0 <= j < i + 1 ensures gs[j].side != side {
            assert j == 0 || gs[1..][j - 1] == gs[j];
          }
        }
        if i :| 0 <= i < |gs| && gs[i] == g && g.side == side && forall j :: 0 <= j < i ==> gs[j].side != side {
          assert gs[1..][i - 1] == g;
        }
      } else if FirstIn(gs, side, g) {
        var i :| 0 <= i < |gs| && gs[i] == g && g.side == side && forall j :: 0 <= j < i ==> gs[j].side != side;
        assert i == 0;
      } else {
        assert !(gs[0] == g);
      }
    }
  }

  /** The encounter found where both sides stand as far from the end of an edge. */
  predicate MetOn(e: EdgeState, x: EncounterInfo) {
    && x.edgeId == e.id
    && FirstIn(Lookup(e.traveling, x.remaining), A, x.groupA) && FirstIn(Lookup(e.traveling, x.remaining), B, x.groupB)
  }

  /** Where an encounter comes before another in the list: on an earlier edge, or nearer the end of the
      same one. */
  predicate Earlier(es: seq<EdgeState>, x: EncounterInfo, y: EncounterInfo) {
    exists i, j :: 0 <= i < |es| && 0 <= j < |es| && es[i].id == x.edgeId && es[j].id == y.edgeId
                   && (i < j || (i == j && x.remaining < y.remaining))
  }

  lemma {:induction false} AllInOrder(es: seq<EdgeState>, p: nat, q: nat)
    requires (forall i :: 0 <= i < |es| ==> Sorted(es[i].traveling)) && p < q < |AllEncounters(es)|
    ensures Earlier(es, AllEncounters(es)[p], AllEncounters(es)[q])
    decreases |es|
  {
    var here, rest := Encounters(es[0].id, es[0].traveling), AllEncounters(es[1..]);
    var x, y := AllEncounters(es)[p], AllEncounters(es)[q];
    if q < |here| {
      InKeyOrder(es[0].id, es[0].traveling, p, q);
      assert x == here[p] && y == here[q] && es[0].id == x.edgeId;
    } else {
      assert y == rest[q - |here|];
      if p < |here| {
        assert x == here[p];
        EncounterEdge(es[0].id, es[0].traveling, p);
        AllEncountersMember(es[1..], y);
        var j :| 0 <= j < |es[1..]| && y in Encounters(es[1..][j].id, es[1..][j].traveling);
        EncountersMember(es[1..][j].id, es[1..][j].traveling, y);
        assert es[j + 1].id == y.edgeId && es[0].id == x.edgeId;
      } else {
        assert x == rest[p - |here|];
        AllInOrder(es[1..], p - |here|, q - |here|);
        var i, j :| 0 <= i < |es[1..]| && 0 <= j < |es[1..]| && es[1..][i].id == x.edgeId && es[1..][j].id == y.edgeId
                    && (i < j || (i == j && x.remaining < y.remaining));
        assert es[i + 1].id == x.edgeId && es[j + 1].id == y.edgeId;
      }
    }
  }

  lemma {:induction false} EncounterEdge(id: EdgeId, bs: seq<Bucket>, p: nat)
    requires p < |Encounters(id, bs)|
    ensures Encounters(id, bs)[p].edgeId == id && exists k :: 0 <= k < |bs| && bs[k].remaining == Encounters(id, bs)[p].remaining
    decreases |bs|
  {
    var step := if Meets(bs[0].groups) then 1 else 0;
    if p >= step {
      EncounterEdge(id, bs[1..], p - step);
      var k :| 0 <= k < |bs[1..]| && bs[1..][k].remaining == Encounters(id, bs[1..])[p - step].remaining;
      assert bs[k + 1].remaining == Encounters(id, bs)[p].remaining;
    } else {
      assert bs[0].remaining == Encounters(id, bs)[p].remaining;
    }
  }

  lemma {:induction false} InKeyOrder(id: EdgeId, bs: seq<Bucket>, p: nat, q: nat)
    requires Sorted(bs) && p < q < |Encounters(id, bs)|
    ensures Encounters(id, bs)[p].edgeId == id == Encounters(id, bs)[q].edgeId
    ensures Encounters(id, bs)[p].remaining < Encounters(id, bs)[q].remaining
    decreases |bs|
  {
    SortedTail(bs);
    EncounterEdge(id, bs, p);
    EncounterEdge(id, bs, q);
    var step := if Meets(bs[0].groups) then 1 else 0;
    if p >= step {
      InKeyOrder(id, bs[1..], p - step, q - step);
    } else {
      EncounterEdge(id, bs[1..], q - step);
      var k :| 0 <= k < |bs[1..]| && bs[1..][k].remaining == Encounters(id, bs[1..])[q - step].remaining;
    }
  }

  lemma EncountersReported(r: Room)
    requires WellFormed(r) && r.phase == Planning
    ensures ResolveRound(r).Ok?
    ensures var next := ResolveRound(r).value;
            && next.events[0].RoundResolved? && next.events[0].encounters == AllEncounters(next.edges)
            && next.pending == r.pending + NewPending(AllEncounters(next.edges))
            && next.events[0].resolved == BothDecidedOnes(next.pending)
            && forall i :: 0 <= i < |next.edges| ==> Sorted(next.edges[i].traveling)
  {
    ResolveRoundOk(r);
    var next := ResolveRound(r).value;
    assert forall i :: 0 <= i < |next.edges| ==> EdgeOk(next.edges[i]);
    hide WellFormed, Dispatch, RoundLanding, AllEncounters, NewPending, BothDecidedOnes, BucketsOk;
  }

  /** Which encounters the round event reports: those, and only those, where both sides stand as far
      from the end of an edge when everybody has moved on, each with the first group of either side. */
  lemma RoundTellsEncounters(r: Room, x: EncounterInfo)
    requires WellFormed(r) && r.phase == Planning
    ensures ResolveRound(r).Ok? && ResolveRound(r).value.events[0].RoundResolved?
    ensures var next := ResolveRound(r).value;
            x in next.events[0].encounters <==> exists i :: 0 <= i < |next.edges| && MetOn(next.edges[i], x)
  {
    EncountersReported(r);
    hide WellFormed, ResolveRound, AllEncounters, NewPending, BothDecidedOnes, Sorted;
    var es := ResolveRound(r).value.edges;
    AllEncountersMember(es, x);
    forall i | 0 <= i < |es| ensures x in Encounters(es[i].id, es[i].traveling) <==> MetOn(es[i], x) {
      EncountersMember(es[i].id, es[i].traveling, x);
      FirstOfIs(Lookup(es[i].traveling, x.remaining), A, x.groupA);
      FirstOfIs(Lookup(es[i].traveling, x.remaining), B, x.groupB);
    }
  }

  /** In which order, and what is pending then: the encounters that were, and each one found, with
      nothing decided. Reported as resolved are those that both sides have decided. */
  lemma RoundTellsPending(r: Room, p: nat, q: nat, e: Encounter)
    requires WellFormed(r) && r.phase == Planning
    ensures ResolveRound(r).Ok? && ResolveRound(r).value.events[0].RoundResolved?
    ensures var next := ResolveRound(r).value;
            var found := next.events[0].encounters;
            && (p < q < |found| ==> Earlier(next.edges, found[p], found[q]))
            && |next.pending| == |r.pending| + |found| && next.pending[..|r.pending|] == r.pending
            && (p < |found| ==> Awaits(next.pending[|r.pending| + p], found[p]))
            && (e in next.events[0].resolved <==> e in next.pending && ChoiceOf(e, A).Some? && ChoiceOf(e, B).Some?)
  {
    EncountersReported(r);
    hide WellFormed, ResolveRound, AllEncounters, BothDecidedOnes, Sorted, Earlier;
    var next := ResolveRound(r).value;
    if p < q < |AllEncounters(next.edges)| {
      AllInOrder(next.edges, p, q);
    }
    ResolvedMember(next.pending, e);
  }

  /** Pending with nothing decided. */
  predicate Awaits(p: Encounter, x: EncounterInfo) {
    && p.edgeId == x.edgeId && p.groupA == x.groupA && p.groupB == x.groupB && p.remaining == x.remaining
    && ChoiceOf(p, A) == None == ChoiceOf(p, B) && OutcomeOf(p, A) == None == OutcomeOf(p, B)
  }

  lemma {:induction false} ResolvedMember(ps: seq<Encounter>, e: Encounter)
    ensures e in BothDecidedOnes(ps) <==> e in ps && ChoiceOf(e, A).Some? && ChoiceOf(e, B).Some?
  {
    if ps != [] {
      ResolvedMember(ps[1..], e);
      assert e in ps <==> e == ps[0] || e in ps[1..];
    }
  }

  // ---- Landing and map making, case by case ----

  /** Whether one arrival lands, and why not. */
  lemma LandVerdict(l: Landing, a: ArrivalInfo, blocked: seq<ArrivalInfo>)
    ensures var verdict := LandOne(l, a, blocked);
            if a in blocked then verdict == Ok(l)
            else if forall i :: 0 <= i < |l.nodes| ==> l.nodes[i].id != a.destination then verdict == Err(KeyNotFound)
            else if a.count <= 0 then verdict == Err(NonPositiveCount)
            else verdict.Ok?
  {
  }

  /** A second edge between the same two nodes takes the place of the first; any other joins the end. */
  lemma PutEdgeIs(es: seq<EdgeState>, e: EdgeState, i: nat)
    requires DistinctEdges(es) && i < |es|
    ensures var after := PutEdge(es, e);
            && DistinctEdges(after) && (exists j :: 0 <= j < |after| && after[j] == e)
            && |after| == (if exists j :: 0 <= j < |es| && es[j].id == e.id then |es| else |es| + 1)
            && after[i] == if es[i].id == e.id then e else es[i]
  {
    var at := EdgeIndex(es, e.id);
    var after := PutEdge(es, e);
    assert at.Some? ==> after[at.value] == e && es[at.value].id == e.id;
    assert at.None? ==> after[|es|] == e;
  }

  /** A room before anybody has joined. */
  lemma NewRoomIs()
    ensures var r := InitialRoom();
            && r.phase == WaitingForPlayers && r.round == 0 && r.maxRounds == 20 && r.ownerServer == None
            && r.players == [] && r.pending == [] && r.events == [] && r.nodes == InitialNodes() && r.edges == InitialEdges()
            && UsedBy(r, A) == 0 == UsedBy(r, B) && MovesOf(r, A) == [] == MovesOf(r, B)
  {
    hide InitialNodes, InitialEdges;
  }
}
