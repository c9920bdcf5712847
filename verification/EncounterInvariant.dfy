/** What the session's guard buys: on a map whose edges take at most two rounds, an encounter
    is decided before the round it waits in is resolved, so its groups are still where it
    found them. */
module EncounterInvariant {
  import opened HexTypes
  import opened Nodes
  import opened Edges
  import opened Rooms
  import opened RoomWellFormed
  import opened RoomLedger

  // ---- The invariant ----

  predicate ShortEdges(es: seq<EdgeState>) {
    forall i :: 0 <= i < |es| ==> es[i].distance <= 2
  }

  predicate DistinctPending(ps: seq<Encounter>) {
    forall i, j :: 0 <= i < j < |ps| ==> ps[i].edgeId != ps[j].edgeId
  }

  /** The groups on an edge with this many rounds to go, none if there is no such edge. */
  function GroupsAt(es: seq<EdgeState>, id: EdgeId, key: int): seq<TravelingGroup> {
    var i := EdgeIndex(es, id);
    if i.None? then [] else Lookup(es[i.value].traveling, key)
  }

  predicate Waits(es: seq<EdgeState>, p: Encounter, side: Side) {
    p.HasDecided(side) || p.GroupOf(side) in GroupsAt(es, p.edgeId, p.remaining)
  }

  predicate Live(es: seq<EdgeState>, p: Encounter) {
    !p.BothDecided() && Waits(es, p, A) && Waits(es, p, B)
  }

  /** At most one encounter an edge, none fully decided, every undecided group still in place. */
  predicate EncountersLive(r: Room) {
    DistinctPending(r.pending) && forall k :: 0 <= k < |r.pending| ==> Live(r.edges, r.pending[k])
  }

  predicate SessionOk(r: Room) {
    WellFormed(r) && ShortEdges(r.edges) && EncountersLive(r)
  }

  /** The room reports readiness exactly when it is planning and no encounter is pending, and a
      round resolved then reports no encounter as resolved. */
  lemma ReadyMeansNonePending(r: Room)
    requires EncountersLive(r)
    ensures IsReadyForResolution(r) <==> r.phase == Planning && r.pending == []
    ensures IsReadyForResolution(r) <==> r.phase == Planning && Undecided(r.pending, A) == [] && Undecided(r.pending, B) == []
  {
    NoneUndecided(r.pending, A);
    NoneUndecided(r.pending, B);
    if r.pending != [] {
      assert Live(r.edges, r.pending[0]);
    }
  }

  lemma {:induction false} NoneUndecided(ps: seq<Encounter>, side: Side)
    ensures Undecided(ps, side) == [] <==> forall k :: 0 <= k < |ps| ==> ps[k].HasDecided(side)
  {
    if ps != [] {
      NoneUndecided(ps[1..], side);
      if Undecided(ps, side) == [] {
        assert forall k :: 1 <= k < |ps| ==> ps[k] == ps[1..][k - 1];
      }
    }
  }

  // ---- A decision ----

  /** What a retreat leaves on the edge, side by side: the decider restarts as one group, the
      other side stands exactly as it stood. */
  lemma RetreatLookup(e: EdgeState, decider: Side, count: int, to: NodeId, k: int)
    requires WellKeyed(e.traveling, e.distance)
    ensures OfSide(Lookup(Retreated(e, decider, count, to).traveling, k), decider) ==
              if k == e.distance then [TravelingGroup(decider, count, to)] else []
    ensures OfSide(Lookup(Retreated(e, decider, count, to).traveling, k), decider.Other()) ==
              OfSide(Lookup(e.traveling, k), decider.Other())
  {
    var g := TravelingGroup(decider, count, to);
    var gs := Lookup(e.traveling, k);
    RemovedKeys(e.traveling, decider);
    PutLookup(Removed(e.traveling, decider), e.distance, [g], k);
    RemovedLookup(e.traveling, decider, k);
    OfSideWithout(gs, decider);
    OfSideAppend(Without(gs, decider), if k == e.distance then [g] else [], decider);
    OfSideAppend(Without(gs, decider), if k == e.distance then [g] else [], decider.Other());
    assert [g][1..] == [];
  }

  lemma {:induction false} OfSideWithout(gs: seq<TravelingGroup>, removed: Side)
    ensures OfSide(Without(gs, removed), removed) == []
    ensures OfSide(Without(gs, removed), removed.Other()) == OfSide(gs, removed.Other())
  {
    if gs != [] {
      OfSideWithout(gs[1..], removed);
      if gs[0].side != removed {
        assert Without(gs, removed)[1..] == Without(gs[1..], removed);
        assert Without(gs, removed)[0] == gs[0];
      } else {
        assert Without(gs, removed) == Without(gs[1..], removed);
      }
    }
  }

  /** The encounter `k` of the list, found by its edge. */
  lemma PendingAt(ps: seq<Encounter>, k: nat)
    requires DistinctPending(ps) && k < |ps|
    ensures PendingIndex(ps, ps[k].edgeId) == Some(k)
  {
    assert PendingIndex(ps, ps[k].edgeId).Some?;
  }

  lemma WaitsElsewhere(r: Room, i: nat, e: EdgeState, p: Encounter, side: Side)
    requires i < |r.edges| && SameEdge(r.edges[i], e) && DistinctEdges(r.edges)
    requires p.edgeId != e.id && Waits(r.edges, p, side)
    ensures Waits(r.edges[i := e], p, side)
  {
    SameEdgesIndex(r.edges, r.edges[i := e], p.edgeId);
  }

  lemma WaitsHere(r: Room, p: Encounter, decider: Side, decision: Decision)
    requires WellFormed(r) && EdgeIndex(r.edges, p.edgeId).Some?
    requires p.groupA.side == A && p.groupB.side == B
    requires Waits(r.edges, p, decider.Other())
    requires var i := EdgeIndex(r.edges, p.edgeId).value; Decide(r.edges[i], p, decider, decision).Ok?
    ensures var i := EdgeIndex(r.edges, p.edgeId).value;
            Waits(r.edges[i := Decide(r.edges[i], p, decider, decision).value.0], p, decider.Other())
  {
    var i := EdgeIndex(r.edges, p.edgeId).value;
    var e := r.edges[i];
    var edge := Decide(e, p, decider, decision).value.0;
    SameEdgesIndex(r.edges, r.edges[i := edge], p.edgeId);
    var other := decider.Other();
    if decision == Retreat && !p.HasDecided(other) {
      var g := p.GroupOf(decider);
      assert EdgeOk(e);
      RetreatLookup(e, decider, g.unitCount, e.id.Opposite(g.destination).value, p.remaining);
      WithoutMembers(Lookup(e.traveling, p.remaining), other, p.GroupOf(other));
      WithoutMembers(Lookup(edge.traveling, p.remaining), other, p.GroupOf(other));
    }
  }

  lemma SettledLive(es: seq<EdgeState>, ps: seq<Encounter>, k: nat, p: Encounter)
    requires DistinctPending(ps) && k < |ps| && p.edgeId == ps[k].edgeId
    requires forall j :: 0 <= j < |ps| && j != k ==> Live(es, ps[j])
    requires !p.BothDecided() ==> Live(es, p)
    ensures DistinctPending(Settled(ps, k, p))
    ensures forall j :: 0 <= j < |Settled(ps, k, p)| ==> Live(es, Settled(ps, k, p)[j])
  {
    var next := Settled(ps, k, p);
    if p.BothDecided() {
      assert forall j :: 0 <= j < |next| ==> next[j] == ps[if j < k then j else j + 1];
    } else {
      assert forall j :: 0 <= j < |next| ==> next[j] == if j == k then p else ps[j];
    }
  }

  /** A decision keeps the session invariant and never adds a unit. */
  lemma DecisionKeepsSessionOk(r: Room, id: EdgeId, decider: Side, decision: Decision)
    requires SessionOk(r) && ResolveEncounter(r, id, decider, decision).Ok?
    ensures SessionOk(ResolveEncounter(r, id, decider, decision).value)
    ensures forall side :: Total(ResolveEncounter(r, id, decider, decision).value, side) <= Total(r, side)
  {
    ResolveEncounterOk(r, id, decider, decision);
    var next := ResolveEncounter(r, id, decider, decision).value;
    var k := PendingIndex(r.pending, id).value;
    var p := r.pending[k];
    assert PendingOk(r.edges, p) && Live(r.edges, p);
    var i := EdgeIndex(r.edges, id).value;
    var (edge, outcome) := Decide(r.edges[i], p, decider, decision).value;
    assert SameEdge(r.edges[i], next.edges[i]);
    forall j | 0 <= j < |r.pending| && j != k ensures Live(next.edges, r.pending[j]) {
      assert Live(r.edges, r.pending[j]);
      WaitsElsewhere(r, i, edge, r.pending[j], A);
      WaitsElsewhere(r, i, edge, r.pending[j], B);
    }
    WaitsHere(r, p, decider, decision);
    SettledLive(next.edges, r.pending, k, p.Marked(decider, decision, outcome));
    assert ShortEdges(next.edges) by {
      assert forall j :: 0 <= j < |next.edges| ==> SameEdge(r.edges[j], next.edges[j]);
    }
    forall side ensures Total(next, side) <= Total(r, side) {
      EncounterLedger(r, id, decider, decision, side);
      assert EdgeOk(r.edges[i]);
      MemberCounts(r.edges[i], p.remaining, p.GroupOf(decider));
    }
  }

  lemma {:induction false} CountPositive(id: EdgeId, gs: seq<TravelingGroup>, side: Side)
    requires GroupsOk(id, gs)
    ensures CountIn(gs, side) >= 0
    ensures forall g :: g in gs && g.side == side ==> CountIn(gs, side) >= g.unitCount
  {
    if gs != [] {
      assert gs == [gs[0]] + gs[1..];
      assert GroupOk(id, gs[0]);
      CountPositive(id, gs[1..], side);
    }
  }

  lemma {:induction false} BucketCounts(id: EdgeId, bs: seq<Bucket>, k: int, g: TravelingGroup)
    requires BucketsOk(id, bs)
    ensures CountOn(bs, g.side) >= 0
    ensures g in Lookup(bs, k) ==> CountOn(bs, g.side) >= g.unitCount
  {
    if bs != [] {
      assert BucketsOk(id, bs[1..]);
      CountPositive(id, bs[0].groups, g.side);
      BucketCounts(id, bs[1..], k, g);
    }
  }

  /** A group on an edge is part of its side's head count there. */
  lemma MemberCounts(e: EdgeState, k: int, g: TravelingGroup)
    requires EdgeOk(e)
    ensures g in Lookup(e.traveling, k) ==> CountOn(e.traveling, g.side) >= g.unitCount
  {
    BucketCounts(e.id, e.traveling, k, g);
  }

  // ---- A guarded resolution ----

  lemma {:induction false} SortedWidth(bs: seq<Bucket>, lo: int, hi: int)
    requires Sorted(bs) && KeysWithin(bs, lo, hi) && lo <= hi + 1
    ensures |bs| <= hi - lo + 1
  {
    if bs != [] {
      SortedTail(bs);
      SortedWidth(bs[1..], bs[0].remaining + 1, hi);
    }
  }

  /** After an advance a two-round edge has one window left, so it yields at most one
      encounter, and that one's groups are in the window. */
  lemma ShortEdgeEncounters(e: EdgeState)
    requires EdgeOk(e) && KeysWithin(e.traveling, 1, 1)
    ensures |Encounters(e.id, e.traveling)| <= 1
    ensures forall n :: 0 <= n < |Encounters(e.id, e.traveling)| ==>
              var x := Encounters(e.id, e.traveling)[n];
              x.edgeId == e.id && x.groupA in Lookup(e.traveling, x.remaining) && x.groupB in Lookup(e.traveling, x.remaining)
  {
    var bs := e.traveling;
    SortedWidth(bs, 1, 1);
    if |bs| == 1 {
      assert bs[1..] == [] && Encounters(e.id, bs[1..]) == [];
      FirstOfMember(bs[0].groups, A);
      FirstOfMember(bs[0].groups, B);
    }
  }

  predicate EncounterStands(all: seq<EdgeState>, x: EncounterInfo) {
    x.groupA in GroupsAt(all, x.edgeId, x.remaining) && x.groupB in GroupsAt(all, x.edgeId, x.remaining)
  }

  /** The encounters of some edges: each stands on one of them, and no edge has two. */
  predicate StandApart(all: seq<EdgeState>, es: seq<EdgeState>, encs: seq<EncounterInfo>) {
    && (forall k :: 0 <= k < |encs| ==> EncounterStands(all, encs[k]) && EdgeIndex(es, encs[k].edgeId).Some?)
    && (forall i, j :: 0 <= i < j < |encs| ==> encs[i].edgeId != encs[j].edgeId)
  }

  lemma {:induction false} ShortEncounters(all: seq<EdgeState>, es: seq<EdgeState>)
    requires DistinctEdges(es)
    requires forall i :: 0 <= i < |es| ==> EdgeOk(es[i]) && KeysWithin(es[i].traveling, 1, 1)
    requires forall i :: 0 <= i < |es| ==> forall k :: Lookup(es[i].traveling, k) == GroupsAt(all, es[i].id, k)
    ensures StandApart(all, es, AllEncounters(es))
  {
    if es != [] {
      ShortEncounters(all, es[1..]);
      ShortEdgeEncounters(es[0]);
      ConsApart(all, es, Encounters(es[0].id, es[0].traveling), AllEncounters(es[1..]));
    }
  }

  lemma ConsApart(all: seq<EdgeState>, es: seq<EdgeState>, first: seq<EncounterInfo>, rest: seq<EncounterInfo>)
    requires es != [] && DistinctEdges(es) && |first| <= 1 && StandApart(all, es[1..], rest)
    requires forall k :: 0 <= k < |first| ==> first[k].edgeId == es[0].id && EncounterStands(all, first[k])
    ensures StandApart(all, es, first + rest)
  {
    var encs := first + rest;
    forall k | 0 <= k < |encs| ensures EncounterStands(all, encs[k]) && EdgeIndex(es, encs[k].edgeId).Some? {
      if k >= |first| {
        assert encs[k] == rest[k - |first|];
      }
    }
    forall i, j | 0 <= i < j < |encs| ensures encs[i].edgeId != encs[j].edgeId {
      assert encs[j] == rest[j - |first|];
      var n := EdgeIndex(es[1..], encs[j].edgeId).value;
      assert es[1..][n] == es[n + 1];
    }
  }

  lemma EdgeAt(es: seq<EdgeState>, i: nat)
    requires DistinctEdges(es) && i < |es|
    ensures EdgeIndex(es, es[i].id) == Some(i)
  {
    EdgePresent(es, i);
  }

  /** A resolution with no encounter pending keeps the session invariant, reports no encounter
      as resolved, and never adds a unit. */
  lemma ResolutionKeepsSessionOk(r: Room)
    requires SessionOk(r) && r.phase == Planning && r.pending == []
    ensures ResolveRound(r).Ok? && SessionOk(ResolveRound(r).value)
    ensures BothDecidedOnes(ResolveRound(r).value.pending) == []
    ensures forall side :: Total(ResolveRound(r).value, side) <= Total(r, side)
  {
    ResolutionShape(r);
    var next := ResolveRound(r).value;
    NewEncountersLive(next.edges);
    assert [] + NewPending(AllEncounters(next.edges)) == NewPending(AllEncounters(next.edges));
    NoneBothDecided(next.pending);
    forall side ensures Total(next, side) <= Total(r, side) {
      ConservedIffNothingMatches(r, side);
    }
  }

  /** The edges and encounters a resolution leaves behind on a map of short edges. */
  lemma ResolutionShape(r: Room)
    requires WellFormed(r) && ShortEdges(r.edges) && r.phase == Planning
    ensures ResolveRound(r).Ok? && WellFormed(ResolveRound(r).value)
    ensures var next := ResolveRound(r).value;
            && DistinctEdges(next.edges) && ShortEdges(next.edges)
            && (forall i :: 0 <= i < |next.edges| ==> EdgeOk(next.edges[i]) && KeysWithin(next.edges[i].traveling, 1, 1))
            && next.pending == r.pending + NewPending(AllEncounters(next.edges))
  {
    ResolveRoundOk(r);
    DispatchOk(r);
    var b := Dispatch(r).value;
    assert forall i :: 0 <= i < |b.edges| ==> SameEdge(r.edges[i], b.edges[i]) && b.edges[i].distance <= 2;
    AdvanceShortEdges(b.edges);
    RoundLandingOk(b);
  }

  lemma AdvanceShortEdges(es: seq<EdgeState>)
    requires EdgesOk(es) && ShortEdges(es)
    ensures DistinctEdges(AdvancedEdges(es)) && ShortEdges(AdvancedEdges(es))
    ensures forall i :: 0 <= i < |es| ==>
              EdgeOk(AdvancedEdges(es)[i]) && KeysWithin(AdvancedEdges(es)[i].traveling, 1, 1)
  {
    forall i | 0 <= i < |es|
      ensures EdgeOk(AdvancedEdges(es)[i]) && KeysWithin(AdvancedEdges(es)[i].traveling, 1, 1)
    {
      AdvancedOk(es[i]);
    }
  }

  lemma NewEncountersLive(es: seq<EdgeState>)
    requires DistinctEdges(es)
    requires forall i :: 0 <= i < |es| ==> EdgeOk(es[i]) && KeysWithin(es[i].traveling, 1, 1)
    ensures DistinctPending(NewPending(AllEncounters(es)))
    ensures forall k :: 0 <= k < |AllEncounters(es)| ==> Live(es, NewPending(AllEncounters(es))[k])
  {
    forall i, k | 0 <= i < |es| ensures Lookup(es[i].traveling, k) == GroupsAt(es, es[i].id, k) {
      EdgeAt(es, i);
    }
    ShortEncounters(es, es);
    NewPendingOk(es);
    var encs := AllEncounters(es);
    forall k | 0 <= k < |encs| ensures Live(es, NewPending(encs)[k]) {
      assert encs[k] in encs;
      assert PendingOk(es, NewPending(encs)[k]);
    }
  }

  lemma {:induction false} NoneBothDecided(ps: seq<Encounter>)
    requires forall k :: 0 <= k < |ps| ==> !ps[k].BothDecided()
    ensures BothDecidedOnes(ps) == []
  {
    if ps != [] {
      NoneBothDecided(ps[1..]);
    }
  }

  // ---- The timeout sweep ----

  /** One side's pass of the auto-retreat loop, over the snapshot it took. */
  function SweepSide(r: Room, side: Side, encs: seq<Encounter>): Result<Room, Error>
    decreases |encs|
  {
    if encs == [] then Ok(r)
    else match ResolveEncounter(r, encs[0].edgeId, side, Retreat)
      case Err(error) => Err(error)
      case Ok(next) => SweepSide(next, side, encs[1..])
  }

  function Sweep(r: Room): Result<Room, Error> {
    match SweepSide(r, A, Undecided(r.pending, A))
    case Err(error) => Err(error)
    case Ok(next) => SweepSide(next, B, Undecided(next.pending, B))
  }

  /** Where the first encounter is that a side has not decided. */
  function FirstUndecided(ps: seq<Encounter>, side: Side): (k: nat)
    requires Undecided(ps, side) != []
    ensures k < |ps| && ps[k] == Undecided(ps, side)[0] && !ps[k].HasDecided(side)
  {
    if !ps[0].HasDecided(side) then 0 else 1 + FirstUndecided(ps[1..], side)
  }

  lemma {:induction false} SettledUndecided(ps: seq<Encounter>, side: Side, p: Encounter)
    requires Undecided(ps, side) != [] && p.HasDecided(side)
    ensures Undecided(Settled(ps, FirstUndecided(ps, side), p), side) == Undecided(ps, side)[1..]
  {
    var k := FirstUndecided(ps, side);
    if k == 0 {
      assert Settled(ps, k, p) == (if p.BothDecided() then ps[1..] else [p] + ps[1..]);
    } else {
      SettledUndecided(ps[1..], side, p);
      assert Settled(ps, k, p) == [ps[0]] + Settled(ps[1..], k - 1, p);
    }
  }

  predicate AllDecided(ps: seq<Encounter>, side: Side) {
    forall k :: 0 <= k < |ps| ==> ps[k].HasDecided(side)
  }

  /** What the sweep leaves alone. */
  predicate OnlyEncountersChanged(r: Room, next: Room) {
    next.(edges := r.edges, pending := r.pending, events := r.events) == r
  }

  /** One step of a pass: it succeeds, and what is left undecided is the rest of the snapshot. */
  lemma SweepStep(r: Room, side: Side)
    requires SessionOk(r) && r.phase == Planning && Undecided(r.pending, side) != []
    ensures var e := Undecided(r.pending, side)[0];
            var next := ResolveEncounter(r, e.edgeId, side, Retreat);
            && next.Ok? && SessionOk(next.value) && OnlyEncountersChanged(r, next.value)
            && Undecided(next.value.pending, side) == Undecided(r.pending, side)[1..]
            && (AllDecided(r.pending, side.Other()) ==> AllDecided(next.value.pending, side.Other()))
            && (forall s :: Total(next.value, s) <= Total(r, s))
  {
    var k := FirstUndecided(r.pending, side);
    var p := r.pending[k];
    PendingAt(r.pending, k);
    ResolveEncounterOk(r, p.edgeId, side, Retreat);
    DecisionKeepsSessionOk(r, p.edgeId, side, Retreat);
    var next := ResolveEncounter(r, p.edgeId, side, Retreat).value;
    var i := EdgeIndex(r.edges, p.edgeId).value;
    var (edge, outcome) := Decide(r.edges[i], p, side, Retreat).value;
    var marked := p.Marked(side, Retreat, outcome);
    SettledUndecided(r.pending, side, marked);
  }

  lemma {:induction false} SweepSideOk(r: Room, side: Side, encs: seq<Encounter>)
    requires SessionOk(r) && r.phase == Planning && encs == Undecided(r.pending, side)
    ensures SweepSide(r, side, encs).Ok?
    ensures var next := SweepSide(r, side, encs).value;
            && SessionOk(next) && OnlyEncountersChanged(r, next) && AllDecided(next.pending, side)
            && (AllDecided(r.pending, side.Other()) ==> AllDecided(next.pending, side.Other()))
            && (forall s :: Total(next, s) <= Total(r, s))
    decreases |encs|
  {
    if encs == [] {
      NoneUndecided(r.pending, side);
    } else {
      SweepStep(r, side);
      SweepSideOk(ResolveEncounter(r, encs[0].edgeId, side, Retreat).value, side, encs[1..]);
    }
  }

  /** The sweep raises nothing and leaves no encounter pending, whatever was decided before. */
  lemma SweepOk(r: Room)
    requires SessionOk(r) && r.phase == Planning
    ensures Sweep(r).Ok?
    ensures Sweep(r).value.pending == [] && SessionOk(Sweep(r).value)
    ensures OnlyEncountersChanged(r, Sweep(r).value)
    ensures forall s :: Total(Sweep(r).value, s) <= Total(r, s)
  {
    SweepSideOk(r, A, Undecided(r.pending, A));
    var mid := SweepSide(r, A, Undecided(r.pending, A)).value;
    SweepSideOk(mid, B, Undecided(mid.pending, B));
    var next := Sweep(r).value;
    NoneUndecided(next.pending, A);
    NoneUndecided(next.pending, B);
    ReadyMeansNonePending(next);
  }

  /** A side's groups on an edge with this many rounds to go. */
  function Standing(r: Room, i: nat, side: Side, key: int): seq<TravelingGroup>
    requires i < |r.edges|
  {
    OfSide(Lookup(r.edges[i].traveling, key), side)
  }

  /** Where a side stands on an edge once it was swept: a side that still owed a decision there
      turns round as one group, any other side stands as before. */
  function SweptStanding(r: Room, encs: seq<Encounter>, i: nat, side: Side, key: int): seq<TravelingGroup>
    requires i < |r.edges|
  {
    var e := r.edges[i];
    var k := PendingIndex(encs, e.id);
    if k.None? then Standing(r, i, side, key)
    else
      var g := encs[k.value].GroupOf(side);
      if key == e.distance && e.id.Opposite(g.destination).Some?
      then [TravelingGroup(side, g.unitCount, e.id.Opposite(g.destination).value)]
      else []
  }

  lemma SweepStepStanding(r: Room, side: Side, i: nat, s: Side, key: int)
    requires SessionOk(r) && r.phase == Planning && Undecided(r.pending, side) != [] && i < |r.edges|
    ensures var p := Undecided(r.pending, side)[0];
            var next := ResolveEncounter(r, p.edgeId, side, Retreat);
            && next.Ok? && |next.value.edges| == |r.edges| && SameEdge(r.edges[i], next.value.edges[i])
            && Standing(next.value, i, s, key) ==
                 if s == side then SweptStanding(r, [p], i, s, key) else Standing(r, i, s, key)
  {
    SweepStep(r, side);
    var k := FirstUndecided(r.pending, side);
    var p := r.pending[k];
    PendingAt(r.pending, k);
    assert PendingOk(r.edges, p);
    var j := EdgeIndex(r.edges, p.edgeId).value;
    EdgeAt(r.edges, i);
    var e, g := r.edges[j], p.GroupOf(side);
    assert EdgeOk(e);
    if i == j {
      RetreatLookup(e, side, g.unitCount, e.id.Opposite(g.destination).value, key);
      assert s == side || s == side.Other();
    }
    assert [p][1..] == [] && PendingIndex([p][1..], r.edges[i].id).None?;
  }

  lemma {:induction false} SweepSideStanding(r: Room, side: Side, encs: seq<Encounter>, i: nat, s: Side, key: int)
    requires SessionOk(r) && r.phase == Planning && encs == Undecided(r.pending, side) && i < |r.edges|
    requires DistinctPending(encs)
    ensures SweepSide(r, side, encs).Ok?
    ensures |SweepSide(r, side, encs).value.edges| == |r.edges|
    ensures Standing(SweepSide(r, side, encs).value, i, s, key) ==
              if s == side then SweptStanding(r, encs, i, s, key) else Standing(r, i, s, key)
    decreases |encs|
  {
    if encs != [] {
      SweepStep(r, side);
      SweepStepStanding(r, side, i, s, key);
      var next := ResolveEncounter(r, encs[0].edgeId, side, Retreat).value;
      SweepSideStanding(next, side, encs[1..], i, s, key);
      if s == side {
        SweptTwice(r, next, encs, i, s, key);
      }
    }
  }

  lemma SweptTwice(r: Room, next: Room, encs: seq<Encounter>, i: nat, side: Side, key: int)
    requires encs != [] && DistinctPending(encs) && i < |r.edges| && i < |next.edges| && SameEdge(r.edges[i], next.edges[i])
    requires Standing(next, i, side, key) == SweptStanding(r, [encs[0]], i, side, key)
    ensures SweptStanding(next, encs[1..], i, side, key) == SweptStanding(r, encs, i, side, key)
  {
    assert [encs[0]][1..] == [];
    if encs[0].edgeId == r.edges[i].id {
      assert forall n :: 0 <= n < |encs[1..]| ==> encs[1..][n].edgeId == encs[n + 1].edgeId;
      assert PendingIndex(encs[1..], r.edges[i].id).None?;
      assert PendingIndex(encs, r.edges[i].id) == Some(0);
    } else {
      assert PendingIndex([encs[0]], r.edges[i].id).None?;
    }
  }

  lemma {:induction false} UndecidedDistinct(ps: seq<Encounter>, side: Side)
    requires DistinctPending(ps)
    ensures DistinctPending(Undecided(ps, side))
    ensures forall p :: p in Undecided(ps, side) <==> p in ps && !p.HasDecided(side)
  {
    if ps != [] {
      UndecidedDistinct(ps[1..], side);
      assert ps == [ps[0]] + ps[1..];
      var rest := Undecided(ps[1..], side);
      forall k | 0 <= k < |rest| ensures rest[k].edgeId != ps[0].edgeId {
        assert rest[k] in ps[1..];
        var n :| 0 <= n < |ps[1..]| && ps[1..][n] == rest[k];
        assert ps[n + 1] == rest[k];
      }
    }
  }

  lemma {:induction false} SweepSideKeepsOwed(r: Room, side: Side, encs: seq<Encounter>, id: EdgeId)
    requires SessionOk(r) && r.phase == Planning && encs == Undecided(r.pending, side)
    ensures SweepSide(r, side, encs).Ok?
    ensures Owed(SweepSide(r, side, encs).value.pending, side.Other(), id) == Owed(r.pending, side.Other(), id)
    decreases |encs|
  {
    if encs != [] {
      SweepStep(r, side);
      var k := FirstUndecided(r.pending, side);
      var p := r.pending[k];
      PendingAt(r.pending, k);
      var next := ResolveEncounter(r, p.edgeId, side, Retreat).value;
      var i := EdgeIndex(r.edges, p.edgeId).value;
      var outcome := Decide(r.edges[i], p, side, Retreat).value.1;
      SettledOwed(r.pending, k, p.Marked(side, Retreat, outcome), side.Other(), id);
      SweepSideKeepsOwed(next, side, encs[1..], id);
    }
  }

  /** The group a side still owes a decision for on an edge. */
  function Owed(ps: seq<Encounter>, side: Side, id: EdgeId): Option<TravelingGroup> {
    var encs := Undecided(ps, side);
    var k := PendingIndex(encs, id);
    if k.None? then None else Some(encs[k.value].GroupOf(side))
  }

  lemma {:induction false} SettledOwed(ps: seq<Encounter>, k: nat, p: Encounter, side: Side, id: EdgeId)
    requires k < |ps| && p.edgeId == ps[k].edgeId && p.HasDecided(side) == ps[k].HasDecided(side)
    requires p.GroupOf(side) == ps[k].GroupOf(side) && (p.BothDecided() ==> p.HasDecided(side))
    ensures Owed(Settled(ps, k, p), side, id) == Owed(ps, side, id)
  {
    if k == 0 {
      assert ps[..0] == [] && [] + ps[1..] == ps[1..] && ps[0 := p][1..] == ps[1..];
      OwedHead(ps, side, id);
      OwedHead(ps[0 := p], side, id);
    } else {
      SettledOwed(ps[1..], k - 1, p, side, id);
      assert Settled(ps, k, p) == [ps[0]] + Settled(ps[1..], k - 1, p);
      assert Settled(ps, k, p)[1..] == Settled(ps[1..], k - 1, p);
      OwedHead(ps, side, id);
      OwedHead(Settled(ps, k, p), side, id);
    }
  }

  lemma OwedHead(ps: seq<Encounter>, side: Side, id: EdgeId)
    requires ps != []
    ensures Owed(ps, side, id) ==
              if !ps[0].HasDecided(side) && ps[0].edgeId == id then Some(ps[0].GroupOf(side)) else Owed(ps[1..], side, id)
  {
    if ps[0].HasDecided(side) {
      assert Undecided(ps, side) == Undecided(ps[1..], side);
    } else {
      assert Undecided(ps, side)[1..] == Undecided(ps[1..], side);
    }
  }

  /** The whole sweep, edge by edge and side by side: a side that owed a decision on an edge
      turns round there as that one group; everything else, earlier decisions included, stands
      exactly as it stood. */
  lemma SweepEffect(r: Room, i: nat, side: Side, key: int)
    requires SessionOk(r) && r.phase == Planning && i < |r.edges|
    ensures Sweep(r).Ok? && |Sweep(r).value.edges| == |r.edges|
    ensures var e := r.edges[i];
            var owed := Owed(r.pending, side, e.id);
            Standing(Sweep(r).value, i, side, key) ==
              if owed.None? then Standing(r, i, side, key)
              else if key == e.distance && e.id.Opposite(owed.value.destination).Some?
              then [TravelingGroup(side, owed.value.unitCount, e.id.Opposite(owed.value.destination).value)]
              else []
  {
    var encsA := Undecided(r.pending, A);
    UndecidedDistinct(r.pending, A);
    SweepSideOk(r, A, encsA);
    SweepSideStanding(r, A, encsA, i, side, key);
    SweepSideKeepsOwed(r, A, encsA, r.edges[i].id);
    var mid := SweepSide(r, A, encsA).value;
    SweepSideSame(r, A, encsA, i);
    UndecidedDistinct(mid.pending, B);
    SweepSideOk(mid, B, Undecided(mid.pending, B));
    SweepSideStanding(mid, B, Undecided(mid.pending, B), i, side, key);
  }

  lemma {:induction false} SweepSideSame(r: Room, side: Side, encs: seq<Encounter>, i: nat)
    requires SessionOk(r) && r.phase == Planning && encs == Undecided(r.pending, side) && i < |r.edges|
    ensures SweepSide(r, side, encs).Ok?
    ensures |SweepSide(r, side, encs).value.edges| == |r.edges|
    ensures SameEdge(r.edges[i], SweepSide(r, side, encs).value.edges[i])
    decreases |encs|
  {
    if encs != [] {
      SweepStep(r, side);
      SweepStepStanding(r, side, i, side, 0);
      SweepSideSame(ResolveEncounter(r, encs[0].edgeId, side, Retreat).value, side, encs[1..], i);
    }
  }
}
