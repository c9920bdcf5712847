/** The structural invariant of a room: it holds of the initial room and every domain
    operation keeps it, whether or not a session guards the calls. It makes every
    exception of a resolution unreachable. */
module RoomWellFormed {
  import opened HexTypes
  import opened Nodes
  import opened Edges
  import opened Rooms

  // ---- The invariant ----

  predicate NodeOk(n: NodeState) {
    && Canonical(n)
    && (n.id == StartNode(A) || n.id == StartNode(B) ==> n.kind == OutPost)
  }

  predicate DistinctNodes(ns: seq<NodeState>) {
    forall i, j :: 0 <= i < j < |ns| ==> ns[i].id != ns[j].id
  }

  predicate NodesOk(ns: seq<NodeState>) {
    DistinctNodes(ns) && forall i :: 0 <= i < |ns| ==> NodeOk(ns[i])
  }

  predicate GroupOk(id: EdgeId, g: TravelingGroup) {
    g.unitCount > 0 && id.Touches(g.destination)
  }

  predicate GroupsOk(id: EdgeId, gs: seq<TravelingGroup>) {
    forall g :: g in gs ==> GroupOk(id, g)
  }

  predicate BucketsOk(id: EdgeId, bs: seq<Bucket>) {
    forall i :: 0 <= i < |bs| ==> GroupsOk(id, bs[i].groups)
  }

  predicate EdgeOk(e: EdgeState) {
    && e.id == MakeEdgeId(e.from, e.to)
    && e.from != e.to
    && e.distance >= 1
    && WellKeyed(e.traveling, e.distance)
    && BucketsOk(e.id, e.traveling)
  }

  predicate HasNode(ns: seq<NodeState>, id: NodeId) {
    NodeIndex(ns, id).Some?
  }

  predicate DistinctEdges(es: seq<EdgeState>) {
    forall i, j :: 0 <= i < j < |es| ==> es[i].id != es[j].id
  }

  predicate EdgesOk(es: seq<EdgeState>) {
    DistinctEdges(es) && forall i :: 0 <= i < |es| ==> EdgeOk(es[i])
  }

  predicate Linked(ns: seq<NodeState>, es: seq<EdgeState>) {
    forall i :: 0 <= i < |es| ==> HasNode(ns, es[i].id.lo) && HasNode(ns, es[i].id.hi)
  }

  predicate BoardOk(b: Board) {
    NodesOk(b.nodes) && EdgesOk(b.edges) && Linked(b.nodes, b.edges)
  }

  function TotalReserved(ms: seq<PendingMove>): int {
    if ms == [] then 0 else ms[0].count + TotalReserved(ms[1..])
  }

  /** Reservations are positive, run along edges, and no node is overdrawn. */
  predicate ReservedOk(b: Board, side: Side, ms: seq<PendingMove>) {
    && (forall k :: 0 <= k < |ms| ==> MoveOk(b, ms[k]))
    && Covered(b.nodes, side, ms)
  }

  predicate MoveOk(b: Board, m: PendingMove) {
    m.count > 0 && HasNode(b.nodes, m.from) && EdgeIndex(b.edges, MakeEdgeId(m.from, m.to)).Some?
  }

  predicate Covered(ns: seq<NodeState>, side: Side, ms: seq<PendingMove>) {
    forall i :: 0 <= i < |ns| ==> Committed(ms, ns[i].id) <= Mobile(ns[i], side)
  }

  predicate PendingOk(es: seq<EdgeState>, p: Encounter) {
    && EdgeIndex(es, p.edgeId).Some?
    && p.groupA.side == A && GroupOk(p.edgeId, p.groupA)
    && p.groupB.side == B && GroupOk(p.edgeId, p.groupB)
  }

  predicate PhaseOk(r: Room) {
    && |r.players| <= 2
    && r.maxRounds == MAX_ROUNDS
    && (r.phase == WaitingForPlayers ==> |r.players| < 2)
    && (r.phase == Planning ==> |r.players| == 2 && 1 <= r.round <= r.maxRounds)
    && r.phase != Resolution
  }

  predicate SideOk(r: Room, side: Side) {
    && ReservedOk(Board(r.nodes, r.edges), side, r.moves.Get(side))
    && r.used.Get(side) == TotalReserved(r.moves.Get(side))
    && 0 <= r.used.Get(side) <= MAX_UNITS
  }

  predicate WellFormed(r: Room) {
    && BoardOk(Board(r.nodes, r.edges))
    && SideOk(r, A)
    && SideOk(r, B)
    && (forall k :: 0 <= k < |r.pending| ==> PendingOk(r.edges, r.pending[k]))
    && PhaseOk(r)
  }

  // ---- Groups stay well formed ----

  lemma {:induction false} PutGroups(id: EdgeId, bs: seq<Bucket>, key: int, g: TravelingGroup)
    requires BucketsOk(id, bs) && GroupOk(id, g)
    ensures BucketsOk(id, Put(bs, key, [g]))
  {
    if bs != [] {
      assert BucketsOk(id, bs[1..]);
      PutGroups(id, bs[1..], key, g);
      assert GroupsOk(id, bs[0].groups + [g]);
    }
  }

  lemma {:induction false} AdvancedGroups(id: EdgeId, bs: seq<Bucket>)
    requires BucketsOk(id, bs)
    ensures BucketsOk(id, Advanced(bs))
    ensures GroupsOk(id, Arrivals(bs))
  {
    if bs != [] {
      assert BucketsOk(id, bs[1..]);
      AdvancedGroups(id, bs[1..]);
    }
  }

  lemma {:induction false} WithoutMembers(gs: seq<TravelingGroup>, side: Side, g: TravelingGroup)
    ensures g in Without(gs, side) <==> g in gs && g.side != side
    ensures g in OfSide(gs, side) <==> g in gs && g.side == side
  {
    if gs != [] {
      WithoutMembers(gs[1..], side, g);
      assert gs == [gs[0]] + gs[1..];
    }
  }

  lemma RemovedGroups(id: EdgeId, bs: seq<Bucket>, side: Side)
    requires BucketsOk(id, bs)
    ensures BucketsOk(id, Removed(bs, side))
  {
    RemovedKeys(bs, side);
    forall i | 0 <= i < |bs| ensures GroupsOk(id, Removed(bs, side)[i].groups) {
      forall g | g in Removed(bs, side)[i].groups ensures GroupOk(id, g) {
        WithoutMembers(bs[i].groups, side, g);
      }
    }
  }

  lemma StartedOk(e: EdgeState, side: Side, count: int, to: NodeId)
    requires EdgeOk(e) && count > 0 && e.id.Touches(to)
    ensures EdgeOk(Started(e, side, count, to))
  {
    PutKeys(e.traveling, e.distance, [TravelingGroup(side, count, to)], 1, e.distance);
    PutGroups(e.id, e.traveling, e.distance, TravelingGroup(side, count, to));
  }

  lemma RemovedOk(e: EdgeState, side: Side)
    requires EdgeOk(e)
    ensures EdgeOk(RemovedEdge(e, side))
  {
    RemovedKeys(e.traveling, side);
    RemovedGroups(e.id, e.traveling, side);
  }

  lemma AdvancedOk(e: EdgeState)
    requires EdgeOk(e)
    ensures EdgeOk(AdvancedEdge(e))
    ensures KeysWithin(AdvancedEdge(e).traveling, 1, e.distance - 1)
    ensures GroupsOk(e.id, Arrivals(e.traveling))
  {
    AdvancedKeys(e.traveling, 1, e.distance);
    AdvancedGroups(e.id, e.traveling);
  }

  // ---- Replacing one node or one edge ----

  predicate SameIds(ns: seq<NodeState>, ms: seq<NodeState>) {
    |ns| == |ms| && forall i :: 0 <= i < |ns| ==> ns[i].id == ms[i].id && ns[i].kind == ms[i].kind
  }

  predicate SameEdge(e: EdgeState, f: EdgeState) {
    e.id == f.id && e.from == f.from && e.to == f.to && e.distance == f.distance
  }

  predicate SameEdges(es: seq<EdgeState>, fs: seq<EdgeState>) {
    |es| == |fs| && forall i :: 0 <= i < |es| ==> SameEdge(es[i], fs[i])
  }

  lemma {:induction false} SameIdsIndex(ns: seq<NodeState>, ms: seq<NodeState>, id: NodeId)
    requires SameIds(ns, ms)
    ensures NodeIndex(ns, id) == NodeIndex(ms, id)
  {
    if ns != [] {
      SameIdsIndex(ns[1..], ms[1..], id);
    }
  }

  lemma {:induction false} SameEdgesIndex(es: seq<EdgeState>, fs: seq<EdgeState>, id: EdgeId)
    requires SameEdges(es, fs)
    ensures EdgeIndex(es, id) == EdgeIndex(fs, id)
  {
    if es != [] {
      assert SameEdge(es[0], fs[0]);
      SameEdgesIndex(es[1..], fs[1..], id);
    }
  }

  lemma LinkedCarries(ns: seq<NodeState>, es: seq<EdgeState>, ms: seq<NodeState>, fs: seq<EdgeState>)
    requires Linked(ns, es) && SameIds(ns, ms) && SameEdges(es, fs)
    ensures Linked(ms, fs)
  {
    forall i | 0 <= i < |fs| ensures HasNode(ms, fs[i].id.lo) && HasNode(ms, fs[i].id.hi) {
      assert SameEdge(es[i], fs[i]);
      SameIdsIndex(ns, ms, fs[i].id.lo);
      SameIdsIndex(ns, ms, fs[i].id.hi);
    }
  }

  lemma DistinctCarries(ns: seq<NodeState>, es: seq<EdgeState>, ms: seq<NodeState>, fs: seq<EdgeState>)
    requires DistinctNodes(ns) && DistinctEdges(es) && SameIds(ns, ms) && SameEdges(es, fs)
    ensures DistinctNodes(ms) && DistinctEdges(fs)
  {
    assert forall i :: 0 <= i < |fs| ==> SameEdge(es[i], fs[i]);
  }

  /** The board is still sound after its nodes and edges changed content but not names. */
  lemma BoardCarries(b: Board, c: Board)
    requires BoardOk(b) && SameIds(b.nodes, c.nodes) && SameEdges(b.edges, c.edges)
    requires forall i :: 0 <= i < |c.nodes| ==> NodeOk(c.nodes[i])
    requires forall i :: 0 <= i < |c.edges| ==> EdgeOk(c.edges[i])
    ensures BoardOk(c)
  {
    DistinctCarries(b.nodes, b.edges, c.nodes, c.edges);
    LinkedCarries(b.nodes, b.edges, c.nodes, c.edges);
  }

  lemma ReplaceNode(b: Board, i: nat, n: NodeState)
    requires BoardOk(b) && i < |b.nodes| && NodeOk(n) && n.id == b.nodes[i].id && n.kind == b.nodes[i].kind
    ensures BoardOk(Board(b.nodes[i := n], b.edges)) && SameIds(b.nodes, b.nodes[i := n])
  {
    BoardCarries(b, Board(b.nodes[i := n], b.edges));
  }

  lemma ReplaceEdge(b: Board, j: nat, e: EdgeState)
    requires BoardOk(b) && j < |b.edges| && EdgeOk(e) && SameEdge(b.edges[j], e)
    ensures BoardOk(Board(b.nodes, b.edges[j := e])) && SameEdges(b.edges, b.edges[j := e])
  {
    BoardCarries(b, Board(b.nodes, b.edges[j := e]));
  }

  lemma MovesCarry(b: Board, c: Board, ms: seq<PendingMove>)
    requires forall k :: 0 <= k < |ms| ==> MoveOk(b, ms[k])
    requires SameIds(b.nodes, c.nodes) && SameEdges(b.edges, c.edges)
    ensures forall k :: 0 <= k < |ms| ==> MoveOk(c, ms[k])
  {
    forall k | 0 <= k < |ms| ensures MoveOk(c, ms[k]) {
      assert MoveOk(b, ms[k]);
      SameIdsIndex(b.nodes, c.nodes, ms[k].from);
      SameEdgesIndex(b.edges, c.edges, MakeEdgeId(ms[k].from, ms[k].to));
    }
  }

  lemma ReservedCarries(b: Board, c: Board, side: Side, ms: seq<PendingMove>)
    requires ReservedOk(b, side, ms) && SameIds(b.nodes, c.nodes) && SameEdges(b.edges, c.edges)
    requires forall i :: 0 <= i < |b.nodes| ==> Mobile(b.nodes[i], side) <= Mobile(c.nodes[i], side)
    ensures ReservedOk(c, side, ms)
  {
    MovesCarry(b, c, ms);
    forall i | 0 <= i < |c.nodes| ensures Committed(ms, c.nodes[i].id) <= Mobile(c.nodes[i], side) {
      assert Committed(ms, b.nodes[i].id) <= Mobile(b.nodes[i], side);
    }
  }

  // ---- Departures ----

  /** What running reserved moves leaves behind: nothing throws, nothing is clamped, and every
      node has given up exactly what was committed at it. */
  predicate Dispatched(b: Board, c: Board, side: Side, ms: seq<PendingMove>) {
    && BoardOk(c) && SameIds(b.nodes, c.nodes) && SameEdges(b.edges, c.edges)
    && (forall i :: 0 <= i < |b.nodes| ==> Mobile(c.nodes[i], side) == Mobile(b.nodes[i], side) - Committed(ms, b.nodes[i].id))
    && (forall i :: 0 <= i < |b.nodes| ==> Mobile(c.nodes[i], side.Other()) == Mobile(b.nodes[i], side.Other()))
  }

  lemma {:induction false} CommittedBounds(ms: seq<PendingMove>, k: nat)
    requires k < |ms| && forall i :: 0 <= i < |ms| ==> ms[i].count > 0
    ensures forall id :: Committed(ms, id) >= 0
    ensures Committed(ms, ms[k].from) >= ms[k].count
  {
    if k == 0 {
      CommittedNonNegative(ms[1..]);
    } else {
      CommittedBounds(ms[1..], k - 1);
    }
  }

  lemma CommittedHead(ms: seq<PendingMove>, id: NodeId)
    requires ms != []
    ensures Committed(ms, id) == Committed([ms[0]], id) + Committed(ms[1..], id)
  {
    assert [ms[0]][1..] == [];
    assert Committed([ms[0]], id) == (if ms[0].from == id then ms[0].count else 0) + Committed([ms[0]][1..], id);
  }

  lemma {:induction false} CommittedNonNegative(ms: seq<PendingMove>)
    requires forall i :: 0 <= i < |ms| ==> ms[i].count > 0
    ensures forall id :: Committed(ms, id) >= 0
  {
    if ms != [] {
      CommittedNonNegative(ms[1..]);
    }
  }

  lemma DepartedOk(n: NodeState, side: Side, count: int)
    requires NodeOk(n) && 0 <= count <= Mobile(n, side)
    ensures NodeOk(Departed(n, side, count))
    ensures Mobile(Departed(n, side, count), side) == Mobile(n, side) - count
    ensures Mobile(Departed(n, side, count), side.Other()) == Mobile(n, side.Other())
    ensures Departed(n, side, count).id == n.id && Departed(n, side, count).kind == n.kind
  {
    var a := if side == A then Mobile(n, A) - count else Mobile(n, A);
    var b := if side == B then Mobile(n, B) - count else Mobile(n, B);
    RecountKeepsCanonical(n, a, b);
  }

  /** A covered reservation departs in full: the code's clamp and its exceptions stay idle. */
  lemma ExecMoveExact(b: Board, side: Side, ms: seq<PendingMove>)
    requires ReservedOk(b, side, ms) && ms != []
    ensures var i, j := NodeIndex(b.nodes, ms[0].from), EdgeIndex(b.edges, MakeEdgeId(ms[0].from, ms[0].to));
            && i.Some? && j.Some?
            && 0 < ms[0].count <= Mobile(b.nodes[i.value], side)
            && ExecMove(b, side, ms[0]) ==
                 Ok(Board(b.nodes[i.value := Departed(b.nodes[i.value], side, ms[0].count)],
                          b.edges[j.value := Started(b.edges[j.value], side, ms[0].count, ms[0].to)]))
  {
    assert MoveOk(b, ms[0]);
    assert forall i :: 0 <= i < |ms| ==> MoveOk(b, ms[i]);
    CommittedBounds(ms, 0);
    var i := NodeIndex(b.nodes, ms[0].from).value;
    assert Committed(ms, b.nodes[i].id) <= Mobile(b.nodes[i], side);
  }

  lemma ExecMoveOk(b: Board, side: Side, ms: seq<PendingMove>)
    requires BoardOk(b) && ReservedOk(b, side, ms) && ms != []
    ensures ExecMove(b, side, ms[0]).Ok?
    ensures Dispatched(b, ExecMove(b, side, ms[0]).value, side, [ms[0]])
  {
    var m := ms[0];
    ExecMoveExact(b, side, ms);
    var i := NodeIndex(b.nodes, m.from).value;
    var j := EdgeIndex(b.edges, MakeEdgeId(m.from, m.to)).value;
    var node := Departed(b.nodes[i], side, m.count);
    DepartedOk(b.nodes[i], side, m.count);
    StartedOk(b.edges[j], side, m.count, m.to);
    ReplaceNode(b, i, node);
    ReplaceEdge(Board(b.nodes[i := node], b.edges), j, Started(b.edges[j], side, m.count, m.to));
    assert [m][1..] == [];
  }

  lemma ExecMoveReserved(b: Board, c: Board, side: Side, ms: seq<PendingMove>)
    requires ms != [] && ReservedOk(b, side, ms) && Dispatched(b, c, side, [ms[0]])
    ensures ReservedOk(c, side, ms[1..])
  {
    forall k | 0 <= k < |ms[1..]| ensures MoveOk(b, ms[1..][k]) {
      assert ms[1..][k] == ms[k + 1];
    }
    MovesCarry(b, c, ms[1..]);
    forall i | 0 <= i < |c.nodes| ensures Committed(ms[1..], c.nodes[i].id) <= Mobile(c.nodes[i], side) {
      CommittedHead(ms, b.nodes[i].id);
      assert Committed(ms, b.nodes[i].id) <= Mobile(b.nodes[i], side);
    }
  }

  lemma DispatchedTrans(b: Board, c: Board, d: Board, side: Side, ms: seq<PendingMove>)
    requires ms != [] && Dispatched(b, c, side, [ms[0]]) && Dispatched(c, d, side, ms[1..])
    ensures Dispatched(b, d, side, ms)
  {
    SameTrans(b, c, d);
    forall i | 0 <= i < |b.nodes|
      ensures Mobile(d.nodes[i], side) == Mobile(b.nodes[i], side) - Committed(ms, b.nodes[i].id)
    {
      CommittedHead(ms, b.nodes[i].id);
      assert Mobile(d.nodes[i], side) == Mobile(c.nodes[i], side) - Committed(ms[1..], c.nodes[i].id);
    }
  }

  lemma {:induction false} ExecMovesOk(b: Board, side: Side, ms: seq<PendingMove>)
    requires BoardOk(b) && ReservedOk(b, side, ms)
    ensures ExecMoves(b, side, ms).Ok?
    ensures Dispatched(b, ExecMoves(b, side, ms).value, side, ms)
    decreases |ms|
  {
    if ms != [] {
      ExecMoveOk(b, side, ms);
      var c := ExecMove(b, side, ms[0]).value;
      ExecMoveReserved(b, c, side, ms);
      ExecMovesOk(c, side, ms[1..]);
      DispatchedTrans(b, c, ExecMoves(c, side, ms[1..]).value, side, ms);
    }
  }

  lemma DispatchOk(r: Room)
    requires WellFormed(r)
    ensures Dispatch(r).Ok? && BoardOk(Dispatch(r).value)
    ensures SameIds(r.nodes, Dispatch(r).value.nodes) && SameEdges(r.edges, Dispatch(r).value.edges)
  {
    var b := Board(r.nodes, r.edges);
    assert SideOk(r, A) && SideOk(r, B);
    ExecMovesOk(b, A, r.moves.a);
    var c := ExecMoves(b, A, r.moves.a).value;
    ReservedCarries(b, c, B, r.moves.b);
    ExecMovesOk(c, B, r.moves.b);
    SameTrans(b, c, Dispatch(r).value);
  }

  lemma SameTrans(b: Board, c: Board, d: Board)
    requires SameIds(b.nodes, c.nodes) && SameEdges(b.edges, c.edges)
    requires SameIds(c.nodes, d.nodes) && SameEdges(c.edges, d.edges)
    ensures SameIds(b.nodes, d.nodes) && SameEdges(b.edges, d.edges)
  {
    assert forall i :: 0 <= i < |b.edges| ==> SameEdge(b.edges[i], c.edges[i]) && SameEdge(c.edges[i], d.edges[i]);
  }

  // ---- Arrivals ----

  predicate ArrivalOk(ns: seq<NodeState>, a: ArrivalInfo) {
    a.count > 0 && HasNode(ns, a.destination)
  }

  lemma {:induction false} EdgeArrivalsOk(ns: seq<NodeState>, es: seq<EdgeState>)
    requires forall i :: 0 <= i < |es| ==> EdgeOk(es[i])
    requires Linked(ns, es)
    ensures forall a :: a in EdgeArrivals(es) ==> ArrivalOk(ns, a)
  {
    if es != [] {
      EdgeArrivalsOk(ns, es[1..]);
      AdvancedOk(es[0]);
      var first := AsArrivals(Arrivals(es[0].traveling), es[0].id);
      forall a | a in first ensures ArrivalOk(ns, a) {
        var k :| 0 <= k < |first| && first[k] == a;
        assert Arrivals(es[0].traveling)[k] in Arrivals(es[0].traveling);
      }
    }
  }

  lemma {:induction false} LandOk(l: Landing, arrivals: seq<ArrivalInfo>, blocked: seq<ArrivalInfo>)
    requires NodesOk(l.nodes) && forall a :: a in arrivals ==> ArrivalOk(l.nodes, a)
    ensures Land(l, arrivals, blocked).Ok?
    ensures NodesOk(Land(l, arrivals, blocked).value.nodes)
    ensures SameIds(l.nodes, Land(l, arrivals, blocked).value.nodes)
    decreases |arrivals|
  {
    if arrivals != [] {
      var a := arrivals[0];
      assert a in arrivals;
      var next := LandOne(l, a, blocked).value;
      if a !in blocked {
        var i := NodeIndex(l.nodes, a.destination).value;
        RecountKeepsCanonical(l.nodes[i], Mobile(next.nodes[i], A), Mobile(next.nodes[i], B));
        assert NodeOk(next.nodes[i]);
      }
      forall x | x in arrivals[1..] ensures ArrivalOk(next.nodes, x) {
        assert x in arrivals;
        SameIdsIndex(l.nodes, next.nodes, x.destination);
      }
      LandOk(next, arrivals[1..], blocked);
    }
  }

  // ---- Encounters ----

  lemma {:induction false} EncountersOk(id: EdgeId, bs: seq<Bucket>)
    requires BucketsOk(id, bs)
    ensures forall x :: x in Encounters(id, bs) ==>
              x.edgeId == id
              && x.groupA.side == A && GroupOk(id, x.groupA)
              && x.groupB.side == B && GroupOk(id, x.groupB)
  {
    if bs != [] {
      assert BucketsOk(id, bs[1..]);
      EncountersOk(id, bs[1..]);
      FirstOfMember(bs[0].groups, A);
      FirstOfMember(bs[0].groups, B);
    }
  }

  lemma {:induction false} AllEncountersOk(all: seq<EdgeState>, es: seq<EdgeState>)
    requires forall i :: 0 <= i < |es| ==> EdgeOk(es[i]) && EdgeIndex(all, es[i].id).Some?
    ensures forall x :: x in AllEncounters(es) ==>
              EdgeIndex(all, x.edgeId).Some?
              && x.groupA.side == A && GroupOk(x.edgeId, x.groupA)
              && x.groupB.side == B && GroupOk(x.edgeId, x.groupB)
  {
    if es != [] {
      AllEncountersOk(all, es[1..]);
      EncountersOk(es[0].id, es[0].traveling);
    }
  }

  lemma EdgePresent(es: seq<EdgeState>, i: nat)
    requires i < |es|
    ensures EdgeIndex(es, es[i].id).Some?
  {
  }

  // ---- Every operation keeps the invariant ----

  lemma NodePresent(ns: seq<NodeState>, i: nat)
    requires i < |ns|
    ensures HasNode(ns, ns[i].id)
  {
  }

  lemma InitialEdgesOk()
    ensures EdgesOk(InitialEdges())
    ensures forall i :: 0 <= i < |InitialEdges()| ==> 1 <= InitialEdges()[i].id.lo <= 6 && 1 <= InitialEdges()[i].id.hi <= 6
  {
    hide EdgeOk;
    var es := InitialEdges();
    forall i | 0 <= i < |es| ensures EdgeOk(es[i]) && 1 <= es[i].id.lo <= 6 && 1 <= es[i].id.hi <= 6 {
      InitialEdgeOk(i);
    }
    forall i, j | 0 <= i < j < |es| ensures es[i].id != es[j].id {
      InitialEdgeOk(i);
      InitialEdgeOk(j);
      assert INITIAL_CODES[i] < INITIAL_CODES[j];
    }
  }

  lemma InitialEdgeOk(i: nat)
    requires i < |InitialEdges()|
    ensures EdgeOk(InitialEdges()[i])
    ensures 1 <= InitialEdges()[i].id.lo <= 6 && 1 <= InitialEdges()[i].id.hi <= 6
    ensures EdgeCode(InitialEdges()[i].id) == INITIAL_CODES[i]
  {
  }

  /** The initial edges are listed in increasing order of their two-digit name. */
  function EdgeCode(id: EdgeId): int {
    10 * id.lo + id.hi
  }

  const INITIAL_CODES: seq<int> := [12, 14, 15, 16, 23, 26, 34, 35, 36, 45, 46, 56]

  lemma InitialLinked()
    ensures Linked(InitialNodes(), InitialEdges())
  {
    var ns, es := InitialNodes(), InitialEdges();
    InitialEdgesOk();
    assert forall k :: 0 <= k < |ns| ==> ns[k].id == k + 1;
    forall i | 0 <= i < |es| ensures HasNode(ns, es[i].id.lo) && HasNode(ns, es[i].id.hi) {
      NodePresent(ns, es[i].id.lo - 1);
      NodePresent(ns, es[i].id.hi - 1);
    }
  }

  lemma InitialRoomWellFormed()
    ensures WellFormed(InitialRoom())
  {
    InitialEdgesOk();
    InitialLinked();
    assert NodesOk(InitialNodes());
    NothingReserved(Board(InitialNodes(), InitialEdges()), A);
    NothingReserved(Board(InitialNodes(), InitialEdges()), B);
    assert SideOk(InitialRoom(), A) && SideOk(InitialRoom(), B);
  }

  lemma AddPlayerKeepsWellFormed(r: Room, player: string)
    requires WellFormed(r) && AddPlayer(r, player).Ok?
    ensures WellFormed(AddPlayer(r, player).value)
    ensures SameEdges(r.edges, AddPlayer(r, player).value.edges)
  {
    var next := AddPlayer(r, player).value;
    var side := NextSide(r);
    var i := NodeIndex(r.nodes, StartNode(side)).value;
    assert NodeOk(r.nodes[i]);
    assert NodeOk(Stationed(r.nodes[i], side, MAX_UNITS));
    ReplaceNode(Board(r.nodes, r.edges), i, Stationed(r.nodes[i], side, MAX_UNITS));
    assert SideOk(r, A) && SideOk(r, B);
    ReservedCarries(Board(r.nodes, r.edges), Board(next.nodes, next.edges), A, r.moves.a);
    ReservedCarries(Board(r.nodes, r.edges), Board(next.nodes, next.edges), B, r.moves.b);
  }

  lemma {:induction false} CommittedAppend(ms: seq<PendingMove>, m: PendingMove, id: NodeId)
    ensures Committed(ms + [m], id) == Committed(ms, id) + if m.from == id then m.count else 0
    ensures TotalReserved(ms + [m]) == TotalReserved(ms) + m.count
  {
    if ms == [] {
      assert ms + [m] == [m] && [m][1..] == [];
    } else {
      assert (ms + [m])[1..] == ms[1..] + [m];
      CommittedAppend(ms[1..], m, id);
    }
  }

  lemma MoveUnitsKeepsWellFormed(r: Room, side: Side, cmd: MoveCommand)
    requires WellFormed(r) && MoveUnits(r, side, cmd).Ok?
    ensures WellFormed(MoveUnits(r, side, cmd).value)
  {
    assert SideOk(r, A) && SideOk(r, B);
    AppendReservation(Board(r.nodes, r.edges), side, r.moves.Get(side),
                      PendingMove(cmd.from, cmd.to, Min(cmd.unitCount, Remaining(r, side))));
    var next := MoveUnits(r, side, cmd).value;
    assert SideOk(next, side) && SideOk(next, side.Other());
  }

  lemma AppendReservation(b: Board, side: Side, ms: seq<PendingMove>, m: PendingMove)
    requires DistinctNodes(b.nodes) && ReservedOk(b, side, ms) && MoveOk(b, m)
    requires Mobile(b.nodes[NodeIndex(b.nodes, m.from).value], side) - Committed(ms, m.from) >= m.count
    ensures ReservedOk(b, side, ms + [m])
    ensures TotalReserved(ms + [m]) == TotalReserved(ms) + m.count
  {
    CommittedAppend(ms, m, 0);
    forall i | 0 <= i < |b.nodes| ensures Committed(ms + [m], b.nodes[i].id) <= Mobile(b.nodes[i], side) {
      CommittedAppend(ms, m, b.nodes[i].id);
      assert Committed(ms, b.nodes[i].id) <= Mobile(b.nodes[i], side);
    }
  }

  lemma DecideOk(e: EdgeState, p: Encounter, side: Side, decision: Decision)
    requires EdgeOk(e) && e.id == p.edgeId && GroupOk(p.edgeId, p.groupA) && GroupOk(p.edgeId, p.groupB)
    ensures Decide(e, p, side, decision).Ok?
    ensures EdgeOk(Decide(e, p, side, decision).value.0)
    ensures SameEdge(e, Decide(e, p, side, decision).value.0)
  {
    RemovedOk(e, side);
    var g := p.GroupOf(side);
    StartedOk(RemovedEdge(e, side), side, g.unitCount, e.id.Opposite(g.destination).value);
  }

  lemma PendingCarries(es: seq<EdgeState>, fs: seq<EdgeState>, ps: seq<Encounter>)
    requires SameEdges(es, fs) && forall k :: 0 <= k < |ps| ==> PendingOk(es, ps[k])
    ensures forall k :: 0 <= k < |ps| ==> PendingOk(fs, ps[k])
  {
    forall k | 0 <= k < |ps| ensures PendingOk(fs, ps[k]) {
      assert PendingOk(es, ps[k]);
      SameEdgesIndex(es, fs, ps[k].edgeId);
    }
  }

  lemma DecisionBoardOk(r: Room, i: nat, e: EdgeState)
    requires WellFormed(r) && i < |r.edges| && EdgeOk(e) && SameEdge(r.edges[i], e)
    ensures WellFormed(r.(edges := r.edges[i := e]))
    ensures SameEdges(r.edges, r.edges[i := e])
  {
    var b := Board(r.nodes, r.edges);
    var c := Board(r.nodes, r.edges[i := e]);
    ReplaceEdge(b, i, e);
    assert SideOk(r, A) && SideOk(r, B);
    ReservedCarries(b, c, A, r.moves.a);
    ReservedCarries(b, c, B, r.moves.b);
    PendingCarries(r.edges, c.edges, r.pending);
  }

  lemma SettledOk(r: Room, k: nat, p: Encounter, events: seq<Event>)
    requires WellFormed(r) && k < |r.pending| && PendingOk(r.edges, p)
    ensures WellFormed(r.(pending := Settled(r.pending, k, p), events := events))
  {
    var next := r.(pending := Settled(r.pending, k, p), events := events);
    assert SideOk(r, A) && SideOk(r, B);
    assert SideOk(next, A) && SideOk(next, B);
  }

  /** Once the phase and the decision are in order, a decision never raises. */
  lemma ResolveEncounterOk(r: Room, id: EdgeId, side: Side, decision: Decision)
    requires WellFormed(r)
    ensures ResolveEncounter(r, id, side, decision).Ok? <==>
              r.phase == Planning && PendingIndex(r.pending, id).Some?
              && !r.pending[PendingIndex(r.pending, id).value].HasDecided(side)
    ensures ResolveEncounter(r, id, side, decision).Ok? ==>
              WellFormed(ResolveEncounter(r, id, side, decision).value)
              && SameEdges(r.edges, ResolveEncounter(r, id, side, decision).value.edges)
  {
    if r.phase == Planning && PendingIndex(r.pending, id).Some? {
      var k := PendingIndex(r.pending, id).value;
      var p := r.pending[k];
      if !p.HasDecided(side) {
        assert PendingOk(r.edges, p);
        var i := EdgeIndex(r.edges, id).value;
        DecideOk(r.edges[i], p, side, decision);
        var (edge, outcome) := Decide(r.edges[i], p, side, decision).value;
        DecisionBoardOk(r, i, edge);
        var mid := r.(edges := r.edges[i := edge]);
        SameEdgesIndex(r.edges, mid.edges, id);
        SettledOk(mid, k, p.Marked(side, decision, outcome), ResolveEncounter(r, id, side, decision).value.events);
      }
    }
  }

  lemma {:induction false} NothingReserved(b: Board, side: Side)
    requires NodesOk(b.nodes)
    ensures ReservedOk(b, side, [])
  {
    forall i | 0 <= i < |b.nodes| ensures 0 <= Mobile(b.nodes[i], side) {
      assert Canonical(b.nodes[i]);
    }
  }

  /** In Planning a resolution of a well-formed room never raises, keeps the room well formed,
      ends in Planning or GameOver and moves the round number up by one. */
  lemma ResolveRoundOk(r: Room)
    requires WellFormed(r)
    ensures ResolveRound(r).Ok? <==> r.phase == Planning
    ensures r.phase == Planning ==>
              var next := ResolveRound(r).value;
              && WellFormed(next)
              && next.round == r.round + 1
              && (next.phase == Planning || next.phase == GameOver)
              && SameEdges(r.edges, next.edges)
  {
    if r.phase == Planning {
      DispatchOk(r);
      var b := Dispatch(r).value;
      RoundLandingOk(b);
      ResolveEdgesOk(b);
      var next := ResolveRound(r).value;
      BoardCarries(b, Board(next.nodes, next.edges));
      SameTrans(Board(r.nodes, r.edges), b, Board(next.nodes, next.edges));
      PendingCarries(r.edges, next.edges, r.pending);
      NewPendingOk(next.edges);
      FreshRoundOk(r, next);
    }
  }

  lemma FreshRoundOk(r: Room, next: Room)
    requires PhaseOk(r) && r.phase == Planning
    requires BoardOk(Board(next.nodes, next.edges))
    requires next.pending == r.pending + NewPending(AllEncounters(next.edges))
    requires forall k :: 0 <= k < |r.pending| ==> PendingOk(next.edges, r.pending[k])
    requires forall k :: 0 <= k < |AllEncounters(next.edges)| ==> PendingOk(next.edges, NewPending(AllEncounters(next.edges))[k])
    requires next.used == PerSide(0, 0) && next.moves == PerSide([], [])
    requires next.players == r.players && next.maxRounds == r.maxRounds && next.round == r.round + 1
    requires next.phase == if CheckGameOver(next.nodes) || r.round + 1 > r.maxRounds then GameOver else Planning
    ensures WellFormed(next)
  {
    NothingReserved(Board(next.nodes, next.edges), A);
    NothingReserved(Board(next.nodes, next.edges), B);
    assert SideOk(next, A) && SideOk(next, B);
  }

  lemma RoundLandingOk(b: Board)
    requires BoardOk(b)
    ensures RoundLanding(b).Ok?
    ensures var ns := HistoryCleared(RoundLanding(b).value.nodes);
            SameIds(b.nodes, ns) && forall i :: 0 <= i < |ns| ==> NodeOk(ns[i])
  {
    EdgeArrivalsOk(b.nodes, b.edges);
    LandOk(Landing(b.nodes, [], []), EdgeArrivals(b.edges), RoundBlocked(b));
    var ns := RoundLanding(b).value.nodes;
    assert forall i :: 0 <= i < |ns| ==> NodeOk(ns[i]);
  }

  lemma ResolveEdgesOk(b: Board)
    requires BoardOk(b)
    ensures SameEdges(b.edges, AdvancedEdges(b.edges))
    ensures forall i :: 0 <= i < |b.edges| ==> EdgeOk(AdvancedEdges(b.edges)[i])
  {
    forall i | 0 <= i < |b.edges| ensures EdgeOk(AdvancedEdges(b.edges)[i]) {
      AdvancedOk(b.edges[i]);
    }
  }

  lemma NewPendingOk(es: seq<EdgeState>)
    requires forall i :: 0 <= i < |es| ==> EdgeOk(es[i])
    ensures forall k :: 0 <= k < |AllEncounters(es)| ==> PendingOk(es, NewPending(AllEncounters(es))[k])
  {
    forall i | 0 <= i < |es| ensures EdgeIndex(es, es[i].id).Some? {
      EdgePresent(es, i);
    }
    AllEncountersOk(es, es);
    var encs := AllEncounters(es);
    forall k | 0 <= k < |encs| ensures PendingOk(es, NewPending(encs)[k]) {
      assert encs[k] in encs;
    }
  }

  lemma ForceGameOverKeepsWellFormed(r: Room, winner: Option<Side>, reason: Reason)
    requires WellFormed(r)
    ensures WellFormed(ForceGameOver(r, winner, reason))
  {
    assert SideOk(r, A) && SideOk(r, B);
  }
}
