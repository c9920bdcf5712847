/** Planning is simultaneous: how the two sides' orders interleave makes no difference. */
module Planning {
  import opened HexTypes
  import opened Rooms

  datatype Order = Order(side: Side, cmd: MoveCommand)

  /** A rejected order leaves the room as it was. */
  function Obey(r: Room, o: Order): Room {
    var next := MoveUnits(r, o.side, o.cmd);
    if next.Ok? then next.value else r
  }

  function ObeyAll(r: Room, os: seq<Order>): Room
    decreases |os|
  {
    if os == [] then r else ObeyAll(Obey(r, os[0]), os[1..])
  }

  function OrdersOf(os: seq<Order>, side: Side): seq<Order> {
    if os == [] then []
    else if os[0].side == side then [os[0]] + OrdersOf(os[1..], side)
    else OrdersOf(os[1..], side)
  }

  datatype Verdict = Accepted(count: int) | Rejected(error: Error)

  function VerdictOf(r: Room, o: Order): Verdict {
    var next := MoveUnits(r, o.side, o.cmd);
    if next.Ok? then Accepted(next.value.used.Get(o.side) - r.used.Get(o.side)) else Rejected(next.error)
  }

  /** What one side is told about its own orders, in order. */
  function Verdicts(r: Room, os: seq<Order>, side: Side): seq<Verdict>
    decreases |os|
  {
    if os == [] then []
    else if os[0].side == side then [VerdictOf(r, os[0])] + Verdicts(Obey(r, os[0]), os[1..], side)
    else Verdicts(Obey(r, os[0]), os[1..], side)
  }

  function DeparturesOf(events: seq<Event>, side: Side): seq<Event> {
    if events == [] then []
    else if events[0].UnitsDeparted? && events[0].side == side then [events[0]] + DeparturesOf(events[1..], side)
    else DeparturesOf(events[1..], side)
  }

  /** Two rooms that `side` cannot tell apart while planning. */
  predicate LooksAlike(p: Room, q: Room, side: Side) {
    && p.(used := q.used, moves := q.moves, events := q.events) == q
    && p.used.Get(side) == q.used.Get(side)
    && p.moves.Get(side) == q.moves.Get(side)
  }

  lemma ObeyAlike(p: Room, q: Room, o: Order, side: Side)
    requires LooksAlike(p, q, side)
    ensures o.side == side ==>
              LooksAlike(Obey(p, o), Obey(q, o), side) && VerdictOf(p, o) == VerdictOf(q, o)
              && Announcement(p, o) == Announcement(q, o)
    ensures o.side != side ==> LooksAlike(Obey(p, o), q, side)
  {
  }

  lemma OrdersOfHead(os: seq<Order>, side: Side)
    requires os != []
    ensures os[0].side == side ==>
              OrdersOf(os, side) != [] && OrdersOf(os, side)[0] == os[0] && OrdersOf(os, side)[1..] == OrdersOf(os[1..], side)
    ensures os[0].side != side ==> OrdersOf(os, side) == OrdersOf(os[1..], side)
  {
  }

  /** Each side's orders run as if the other side gave none. */
  lemma {:induction false} RunsAlone(p: Room, q: Room, os: seq<Order>, side: Side)
    requires LooksAlike(p, q, side)
    ensures LooksAlike(ObeyAll(p, os), ObeyAll(q, OrdersOf(os, side)), side)
    ensures Verdicts(p, os, side) == Verdicts(q, OrdersOf(os, side), side)
    decreases |os|
  {
    if os != [] {
      var o := os[0];
      ObeyAlike(p, q, o, side);
      OrdersOfHead(os, side);
      RunsAlone(Obey(p, o), if o.side == side then Obey(q, o) else q, os[1..], side);
    }
  }

  function Announcement(r: Room, o: Order): seq<Event> {
    var v := VerdictOf(r, o);
    if v.Accepted? then [UnitsDeparted(o.side, o.cmd.from, v.count, r.round)] else []
  }

  /** The events an order list raises. */
  function Raised(r: Room, os: seq<Order>): seq<Event>
    decreases |os|
  {
    if os == [] then [] else Announcement(r, os[0]) + Raised(Obey(r, os[0]), os[1..])
  }

  lemma {:induction false} RaisedAreAppended(r: Room, os: seq<Order>)
    ensures ObeyAll(r, os).events == r.events + Raised(r, os)
    decreases |os|
  {
    if os != [] {
      var next := Obey(r, os[0]);
      assert next.events == r.events + Announcement(r, os[0]);
      RaisedAreAppended(next, os[1..]);
    }
  }

  lemma AnnouncementOf(r: Room, o: Order, side: Side)
    ensures DeparturesOf(Announcement(r, o), side) == if o.side == side then Announcement(r, o) else []
  {
    if Announcement(r, o) != [] {
      assert Announcement(r, o)[1..] == [];
    }
  }

  lemma {:induction false} RaisedAlone(p: Room, q: Room, os: seq<Order>, side: Side)
    requires LooksAlike(p, q, side)
    ensures DeparturesOf(Raised(p, os), side) == Raised(q, OrdersOf(os, side))
    decreases |os|
  {
    if os != [] {
      var o := os[0];
      var next := Obey(p, o);
      DeparturesAppend(Announcement(p, o), Raised(next, os[1..]), side);
      AnnouncementOf(p, o, side);
      ObeyAlike(p, q, o, side);
      RaisedAlone(next, if o.side == side then Obey(q, o) else q, os[1..], side);
      OrdersOfHead(os, side);
    }
  }

  lemma {:induction false} DeparturesAppend(xs: seq<Event>, ys: seq<Event>, side: Side)
    ensures DeparturesOf(xs + ys, side) == DeparturesOf(xs, side) + DeparturesOf(ys, side)
  {
    if xs == [] {
      assert xs + ys == ys;
    } else {
      assert (xs + ys)[1..] == xs[1..] + ys;
      DeparturesAppend(xs[1..], ys, side);
    }
  }

  lemma {:induction false} RaisedSplit(r: Room, os: seq<Order>)
    ensures multiset(Raised(r, os)) == multiset(DeparturesOf(Raised(r, os), A)) + multiset(DeparturesOf(Raised(r, os), B))
    decreases |os|
  {
    if os != [] {
      RaisedSplit(Obey(r, os[0]), os[1..]);
      AnnouncementOf(r, os[0], A);
      AnnouncementOf(r, os[0], B);
      SplitAppend(Announcement(r, os[0]), Raised(Obey(r, os[0]), os[1..]));
    }
  }

  lemma SplitAppend(xs: seq<Event>, ys: seq<Event>)
    requires multiset(xs) == multiset(DeparturesOf(xs, A)) + multiset(DeparturesOf(xs, B))
    requires multiset(ys) == multiset(DeparturesOf(ys, A)) + multiset(DeparturesOf(ys, B))
    ensures multiset(xs + ys) == multiset(DeparturesOf(xs + ys, A)) + multiset(DeparturesOf(xs + ys, B))
  {
    DeparturesAppend(xs, ys, A);
    DeparturesAppend(xs, ys, B);
  }

  /** Two interleavings with the same orders of each side, in the same order, accept and reject
      the same orders, announce the same departures, reach the same room but for the order of its
      events, and resolve to the same room. */
  lemma SimultaneousPlanning(r: Room, xs: seq<Order>, ys: seq<Order>)
    requires OrdersOf(xs, A) == OrdersOf(ys, A) && OrdersOf(xs, B) == OrdersOf(ys, B)
    ensures ObeyAll(r, xs).(events := []) == ObeyAll(r, ys).(events := [])
    ensures multiset(ObeyAll(r, xs).events) == multiset(ObeyAll(r, ys).events)
    ensures forall side :: Verdicts(r, xs, side) == Verdicts(r, ys, side)
    ensures ResolveRound(ObeyAll(r, xs)) == ResolveRound(ObeyAll(r, ys))
  {
    forall side
      ensures LooksAlike(ObeyAll(r, xs), ObeyAll(r, OrdersOf(xs, side)), side)
      ensures LooksAlike(ObeyAll(r, ys), ObeyAll(r, OrdersOf(xs, side)), side)
      ensures Verdicts(r, xs, side) == Verdicts(r, ys, side)
      ensures DeparturesOf(Raised(r, xs), side) == DeparturesOf(Raised(r, ys), side)
    {
      assert side == A || side == B;
      RunsAlone(r, r, xs, side);
      RunsAlone(r, r, ys, side);
      RaisedAlone(r, r, xs, side);
      RaisedAlone(r, r, ys, side);
    }
    SameButEvents(ObeyAll(r, xs), ObeyAll(r, ys), ObeyAll(r, OrdersOf(xs, A)), ObeyAll(r, OrdersOf(xs, B)));
    RaisedAreAppended(r, xs);
    RaisedAreAppended(r, ys);
    RaisedSplit(r, xs);
    RaisedSplit(r, ys);
    ResolutionIgnoresEvents(ObeyAll(r, xs), ObeyAll(r, ys));
  }

  lemma SameButEvents(p: Room, q: Room, a: Room, b: Room)
    requires LooksAlike(p, a, A) && LooksAlike(q, a, A) && LooksAlike(p, b, B) && LooksAlike(q, b, B)
    ensures p.(events := []) == q.(events := [])
  {
    assert p.used == PerSide(a.used.a, b.used.b) && p.moves == PerSide(a.moves.a, b.moves.b);
    assert p.(used := a.used, moves := a.moves, events := a.events) == q.(used := a.used, moves := a.moves, events := a.events);
  }

  lemma ResolutionIgnoresEvents(p: Room, q: Room)
    requires p.(events := []) == q.(events := [])
    ensures ResolveRound(p) == ResolveRound(q)
  {
    assert p.(events := []).phase == q.phase && p.(events := []).nodes == q.nodes && p.(events := []).edges == q.edges
           && p.(events := []).moves == q.moves && p.(events := []).pending == q.pending
           && p.(events := []).round == q.round && p.(events := []).maxRounds == q.maxRounds
           && p.(events := []).players == q.players && p.(events := []).ownerServer == q.ownerServer;
  }
}
