/** A map node: mobile units and garrison of both sides, and who owns it
    (HexWar.Domain/Entities/Node.cs and ValueObjects/UnitGroup.cs). */
module Nodes {
  import opened HexTypes

  datatype Units = Units(mobile: int, garrison: int)

  datatype DepartureAnnouncement = DepartureAnnouncement(from: NodeId, unitCount: int)

  datatype NodeState = NodeState(
    id: NodeId,
    kind: NodeKind,
    owner: Ownership,
    units: PerSide<Units>,
    recent: seq<DepartureAnnouncement>)

  // ---- The abstract object: an owner function of two head counts ----

  /** Who holds a place where `a` and `b` units stand. */
  function Majority(a: int, b: int): Ownership {
    if a == 0 && b == 0 then Neutral
    else if a > b then PlayerA
    else if a < b then PlayerB
    else Contested
  }

  /** The one garrison unit a supply line grants its owner. */
  function Garrison(kind: NodeKind, owner: Ownership, side: Side): int {
    if kind == SupplyLine && owner == OwnerOf(side) then 1 else 0
  }

  /** The owner after a recount: the previous owner's garrison still votes. */
  function Settle(kind: NodeKind, previous: Ownership, a: int, b: int): Ownership {
    if kind == Headquarters then Neutral
    else Majority(a + Garrison(kind, previous, A), b + Garrison(kind, previous, B))
  }

  /** What holds of every node the game can reach. */
  predicate Canonical(n: NodeState) {
    && n.units.a.mobile >= 0
    && n.units.b.mobile >= 0
    && n.units.a.garrison == Garrison(n.kind, n.owner, A)
    && n.units.b.garrison == Garrison(n.kind, n.owner, B)
    && (n.kind == Headquarters ==> n.owner == Neutral)
  }

  function Mobile(n: NodeState, side: Side): int {
    n.units.Get(side).mobile
  }

  /** The node once the head counts have become `a` and `b` and ownership was recounted. */
  function Recounted(n: NodeState, a: int, b: int): NodeState {
    var owner := Settle(n.kind, n.owner, a, b);
    n.(owner := owner,
       units := PerSide(Units(a, Garrison(n.kind, owner, A)), Units(b, Garrison(n.kind, owner, B))))
  }

  /** The recount as it stands, whatever garrisons and owner it finds: only a supply line that changes
      hands has its garrisons set. */
  function Recount(n: NodeState): NodeState {
    if n.kind == Headquarters then n.(owner := Neutral)
    else
      var owner := Majority(n.units.a.mobile + n.units.a.garrison, n.units.b.mobile + n.units.b.garrison);
      if n.kind != SupplyLine || owner == n.owner then n.(owner := owner)
      else n.(owner := owner,
              units := PerSide(n.units.a.(garrison := Garrison(SupplyLine, owner, A)),
                               n.units.b.(garrison := Garrison(SupplyLine, owner, B))))
  }

  /** Where the garrisons are those of the owner, the recount is the owner function of the two head
      counts and the previous owner, and the garrisons are right again. */
  lemma RecountSettles(n: NodeState)
    requires n.units.a.garrison == Garrison(n.kind, n.owner, A) && n.units.b.garrison == Garrison(n.kind, n.owner, B)
    ensures Recount(n) == Recounted(n, n.units.a.mobile, n.units.b.mobile)
  {
  }

  function WithMobile(n: NodeState, side: Side, count: int): NodeState {
    if side == A then Recounted(n, count, Mobile(n, B)) else Recounted(n, Mobile(n, A), count)
  }

  function Arrived(n: NodeState, side: Side, count: int): NodeState {
    WithMobile(n, side, Mobile(n, side) + count)
  }

  function Departed(n: NodeState, side: Side, count: int): NodeState {
    WithMobile(n, side, Mobile(n, side) - count).(recent := n.recent + [DepartureAnnouncement(n.id, count)])
  }

  /** Units placed on a node that its side then owns outright, without a recount. */
  function Stationed(n: NodeState, side: Side, count: int): NodeState {
    n.(owner := OwnerOf(side),
       units := n.units.Set(side, Units(Mobile(n, side) + count, n.units.Get(side).garrison)))
  }

  // ---- Facts about ownership ----

  datatype Arrival = Arrival(side: Side, count: int)

  function ArriveAll(n: NodeState, batch: seq<Arrival>): NodeState
    decreases |batch|
  {
    if batch == [] then n else ArriveAll(Arrived(n, batch[0].side, batch[0].count), batch[1..])
  }

  function Incoming(batch: seq<Arrival>, side: Side): int
  {
    if batch == [] then 0
    else (if batch[0].side == side then batch[0].count else 0) + Incoming(batch[1..], side)
  }

  /** On an ordinary node a batch of arrivals ends with the mobile majority as owner,
      whatever the order in which the arrivals are applied. */
  lemma {:induction false} OrdinaryBatchIsMajority(n: NodeState, batch: seq<Arrival>)
    requires n.kind == OutPost || n.kind == Chokepoint
    requires |batch| > 0
    ensures Mobile(ArriveAll(n, batch), A) == Mobile(n, A) + Incoming(batch, A)
    ensures Mobile(ArriveAll(n, batch), B) == Mobile(n, B) + Incoming(batch, B)
    ensures ArriveAll(n, batch).owner ==
              Majority(Mobile(n, A) + Incoming(batch, A), Mobile(n, B) + Incoming(batch, B))
    decreases |batch|
  {
    var next := Arrived(n, batch[0].side, batch[0].count);
    if |batch| == 1 {
      assert batch[1..] == [];
      assert Incoming(batch[1..], A) == 0 == Incoming(batch[1..], B);
      assert ArriveAll(next, batch[1..]) == next;
    } else {
      OrdinaryBatchIsMajority(next, batch[1..]);
    }
  }

  /** On a supply line the owner after a recount is the mobile majority exactly when the
      previous owner's garrison did not tip a tie or a one-unit deficit. */
  lemma SupplyLineMajority(n: NodeState, a: int, b: int)
    requires n.kind == SupplyLine && a >= 0 && b >= 0
    ensures Recounted(n, a, b).owner == Majority(a, b) <==>
              !(n.owner == PlayerA && (b == a || b == a + 1)) &&
              !(n.owner == PlayerB && (a == b || a == b + 1))
  {
  }

  /** What an arrival adds to A's lead over B. */
  function Lead(x: Arrival): int {
    if x.side == A then x.count else -x.count
  }

  /** What the owner's garrison adds to A's lead. */
  function Vote(owner: Ownership): int {
    if owner == PlayerA then 1 else if owner == PlayerB then -1 else 0
  }

  function Sign(x: int): int {
    if x > 0 then 1 else if x < 0 then -1 else 0
  }

  lemma ArriveTwice(n: NodeState, x: Arrival, y: Arrival)
    ensures ArriveAll(n, [x, y]) == Arrived(Arrived(n, x.side, x.count), y.side, y.count)
  {
    assert [x, y][1..] == [y] && [y][1..] == [];
    assert ArriveAll(Arrived(n, x.side, x.count), [y]) == ArriveAll(Arrived(Arrived(n, x.side, x.count), y.side, y.count), []);
  }

  /** The owner of a supply line after an arrival is who leads once the previous owner's garrison
      has voted. */
  lemma ArrivalVotes(n: NodeState, x: Arrival)
    requires Canonical(n) && n.kind == SupplyLine && x.count > 0
    ensures var next := Arrived(n, x.side, x.count);
            && Canonical(next) && next.kind == SupplyLine
            && Mobile(next, A) - Mobile(next, B) == Mobile(n, A) - Mobile(n, B) + Lead(x)
            && Vote(next.owner) == Sign(Mobile(n, A) - Mobile(n, B) + Lead(x) + Vote(n.owner))
            && next.owner != Neutral
            && Mobile(next, x.side) == Mobile(n, x.side) + x.count && Mobile(next, x.side.Other()) == Mobile(n, x.side.Other())
  {
  }

  /** On every reachable supply line, two arrivals leave the same node in either order exactly when
      the two are at least two units apart in the end, or, nearer than that, the garrisons left by the
      first arrival tip the end the same way: on a final tie each must be left to the same owner,
      against a one-unit lead both or neither to the trailing side. */
  lemma SupplyLineOrderMatters(n: NodeState, x: Arrival, y: Arrival)
    requires Canonical(n) && n.kind == SupplyLine && x.count > 0 && y.count > 0
    ensures var lead := Mobile(n, A) - Mobile(n, B);
            var first, second := lead + Vote(n.owner) + Lead(x), lead + Vote(n.owner) + Lead(y);
            var last := lead + Lead(x) + Lead(y);
            ArriveAll(n, [x, y]) == ArriveAll(n, [y, x]) <==>
              && (last == 0 ==> Sign(first) == Sign(second))
              && (last == 1 ==> (first < 0 <==> second < 0))
              && (last == -1 ==> (first > 0 <==> second > 0))
  {
    hide ArriveAll, Arrived, Canonical;
    ArriveTwice(n, x, y);
    ArriveTwice(n, y, x);
    ArrivalVotes(n, x);
    ArrivalVotes(n, y);
    var xy, yx := Arrived(n, x.side, x.count), Arrived(n, y.side, y.count);
    ArrivalVotes(xy, y);
    ArrivalVotes(yx, x);
    ArrivalFrame(n, x);
    ArrivalFrame(n, y);
    ArrivalFrame(xy, y);
    ArrivalFrame(yx, x);
    SameUnlessOwner(Arrived(xy, y.side, y.count), Arrived(yx, x.side, x.count));
  }

  lemma ArrivalFrame(n: NodeState, x: Arrival)
    ensures var next := Arrived(n, x.side, x.count); next.id == n.id && next.kind == n.kind && next.recent == n.recent
  {
  }

  /** Reachable nodes with the same units differ in nothing but the owner, and a vote tells owners
      apart where somebody is. */
  lemma SameUnlessOwner(n: NodeState, m: NodeState)
    requires Canonical(n) && Canonical(m) && n.id == m.id && n.kind == m.kind && n.recent == m.recent
    requires Mobile(n, A) == Mobile(m, A) && Mobile(n, B) == Mobile(m, B)
    ensures n.owner == m.owner ==> n == m
    ensures n.owner != Neutral && m.owner != Neutral && Vote(n.owner) == Vote(m.owner) ==> n.owner == m.owner
  {
  }

  /** For instance, on a line A owns with its garrison alone. */
  lemma SupplyLineOrderExample(n: NodeState)
    requires n.kind == SupplyLine && n.owner == PlayerA && Mobile(n, A) == 0 && Mobile(n, B) == 0
    ensures ArriveAll(n, [Arrival(A, 1), Arrival(B, 1)]).owner == PlayerA
    ensures ArriveAll(n, [Arrival(B, 1), Arrival(A, 1)]).owner == Contested
  {
    ArriveTwice(n, Arrival(A, 1), Arrival(B, 1));
    ArriveTwice(n, Arrival(B, 1), Arrival(A, 1));
  }

  /** Every recount of a reachable node is reachable again. */
  lemma RecountKeepsCanonical(n: NodeState, a: int, b: int)
    requires Canonical(n) && a >= 0 && b >= 0
    ensures Canonical(Recounted(n, a, b))
    ensures Mobile(Recounted(n, a, b), A) == a && Mobile(Recounted(n, a, b), B) == b
  {
  }

  // ---- Told on the fields ----

  /** An owner that fits the units of both sides. */
  predicate Fits(kind: NodeKind, owner: Ownership, a: int, b: int) {
    if kind == Headquarters then owner == Neutral
    else
      && (owner == Neutral <==> a == 0 == b)
      && (owner == PlayerA <==> a > b)
      && (owner == PlayerB <==> b > a)
      && (owner == Contested <==> a == b != 0)
  }

  /** One garrison unit for the owner of a supply line, and none for anybody else. */
  predicate Garrisoned(n: NodeState) {
    && n.units.a.garrison == (if n.kind == SupplyLine && n.owner == PlayerA then 1 else 0)
    && n.units.b.garrison == (if n.kind == SupplyLine && n.owner == PlayerB then 1 else 0)
  }

  /** A recount goes by everybody who stands there, garrisons included: a place with nobody is
      neutral, one held by equal numbers contested. It changes the owner, and the garrisons of a
      supply line that changes hands. */
  lemma RecountIs(n: NodeState)
    ensures var m := Recount(n);
            && Fits(n.kind, m.owner, n.units.a.mobile + n.units.a.garrison, n.units.b.mobile + n.units.b.garrison)
            && m.(owner := n.owner, units := n.units) == n
            && m.units.a.mobile == n.units.a.mobile && m.units.b.mobile == n.units.b.mobile
            && (if n.kind == SupplyLine && m.owner != n.owner then Garrisoned(m) else m.units == n.units)
  {
  }

  /** The mobile units of both sides changed by that much, the owner who fits once the garrisons found
      there are counted in, and the garrisons that owner gets. */
  predicate Resettled(n: NodeState, m: NodeState, a: int, b: int) {
    && m.id == n.id && m.kind == n.kind
    && m.units.a.mobile == n.units.a.mobile + a && m.units.b.mobile == n.units.b.mobile + b
    && Fits(n.kind, m.owner, m.units.a.mobile + n.units.a.garrison, m.units.b.mobile + n.units.b.garrison)
    && Garrisoned(m)
  }

  lemma ArrivalIs(n: NodeState, side: Side, count: int)
    requires Canonical(n)
    ensures Garrisoned(n)
    ensures Resettled(n, Arrived(n, side, count), if side == A then count else 0, if side == B then count else 0)
    ensures Arrived(n, side, count).recent == n.recent
  {
  }

  /** A departure is put on record with the count that left. */
  lemma DepartureIs(n: NodeState, side: Side, count: int)
    requires Canonical(n)
    ensures Resettled(n, Departed(n, side, count), if side == A then -count else 0, if side == B then -count else 0)
    ensures var m := Departed(n, side, count);
            && |m.recent| == |n.recent| + 1 && m.recent[..|n.recent|] == n.recent
            && m.recent[|n.recent|].from == n.id && m.recent[|n.recent|].unitCount == count
  {
  }

  // ---- The objects ----

  class UnitGroup {
    const side: Side
    var mobileCount: int
    var garrisonCount: int

    constructor (side: Side)
      ensures this.side == side && mobileCount == 0 && garrisonCount == 0
    {
      this.side := side;
      mobileCount, garrisonCount := 0, 0;
    }

    method AddMobile(count: int) returns (ok: bool)
      modifies this`mobileCount
      ensures ok == (count >= 0)
      ensures mobileCount == old(mobileCount) + if ok then count else 0
    {
      if count < 0 {
        return false;
      }
      mobileCount := mobileCount + count;
      ok := true;
    }

    method RemoveMobile(count: int) returns (ok: bool)
      modifies this`mobileCount
      ensures ok == (count <= old(mobileCount))
      ensures mobileCount == old(mobileCount) - if ok then count else 0
    {
      if count > mobileCount {
        return false;
      }
      mobileCount := mobileCount - count;
      ok := true;
    }

    method SetGarrison(count: int)
      modifies this`garrisonCount
      ensures garrisonCount == Max(0, count)
    {
      garrisonCount := Max(0, count);
    }
  }

  class Node {
    const id: NodeId
    const kind: NodeKind
    const unitsA: UnitGroup
    const unitsB: UnitGroup
    var ownership: Ownership
    var recentDepartures: seq<DepartureAnnouncement>

    function Group(side: Side): UnitGroup {
      if side == A then unitsA else unitsB
    }

    ghost function View(): NodeState
      reads this, unitsA, unitsB
    {
      NodeState(id, kind, ownership,
                PerSide(Units(unitsA.mobileCount, unitsA.garrisonCount), Units(unitsB.mobileCount, unitsB.garrisonCount)),
                recentDepartures)
    }

    ghost predicate Valid()
      reads this, unitsA, unitsB
    {
      && unitsA != unitsB
      && Canonical(View())
    }

    constructor (id: NodeId, kind: NodeKind)
      ensures Valid() && fresh(unitsA) && fresh(unitsB)
      ensures View() == NodeState(id, kind, Neutral, PerSide(Units(0, 0), Units(0, 0)), [])
    {
      this.id, this.kind := id, kind;
      unitsA := new UnitGroup(A);
      unitsB := new UnitGroup(B);
      ownership := Neutral;
      recentDepartures := [];
    }

    method ArriveMobileUnits(side: Side, count: int) returns (ok: bool)
      requires Valid()
      modifies this, unitsA, unitsB
      ensures Valid() && ok == (count > 0)
      ensures View() == if ok then Arrived(old(View()), side, count) else old(View())
    {
      if count <= 0 {
        return false;
      }
      ok := Group(side).AddMobile(count);
      RecountSettles(View());
      UpdateOwnership();
      ActivateSupplyLineIfNeeded();
    }

    method DepartMobileUnits(side: Side, requested: int) returns (r: Result<int, Error>)
      requires Valid()
      modifies this, unitsA, unitsB
      ensures Valid()
      ensures r == if Min(requested, Mobile(old(View()), side)) <= 0 then Err(NoMobileUnits)
                   else Ok(Min(requested, Mobile(old(View()), side)))
      ensures View() == if r.Ok? then Departed(old(View()), side, r.value) else old(View())
    {
      var available := Group(side).mobileCount;
      var actual := Min(requested, available);
      if actual <= 0 {
        return Err(NoMobileUnits);
      }
      var ok := Group(side).RemoveMobile(actual);
      recentDepartures := recentDepartures + [DepartureAnnouncement(id, actual)];
      RecountSettles(View());
      UpdateOwnership();
      r := Ok(actual);
    }

    /** The recount, on whatever it finds. */
    method UpdateOwnership()
      requires unitsA != unitsB
      modifies this`ownership, unitsA`garrisonCount, unitsB`garrisonCount
      ensures View() == Recount(old(View()))
    {
      if kind == Headquarters {
        ownership := Neutral;
        return;
      }
      var countA := unitsA.mobileCount + unitsA.garrisonCount;
      var countB := unitsB.mobileCount + unitsB.garrisonCount;
      var previousOwnership := ownership;
      if countA == 0 && countB == 0 {
        ownership := Neutral;
      } else if countA > countB {
        ownership := PlayerA;
      } else if countA < countB {
        ownership := PlayerB;
      } else {
        ownership := Contested;
      }
      if previousOwnership != ownership {
        DeactivateSupplyLine();
        ActivateSupplyLineIfNeeded();
      }
    }

    method ActivateSupplyLineIfNeeded()
      requires unitsA != unitsB
      modifies unitsA`garrisonCount, unitsB`garrisonCount
      ensures unitsA.garrisonCount == if Garrison(kind, ownership, A) == 1 then 1 else old(unitsA.garrisonCount)
      ensures unitsB.garrisonCount == if Garrison(kind, ownership, B) == 1 then 1 else old(unitsB.garrisonCount)
    {
      if kind != SupplyLine {
        return;
      }
      if ownership == PlayerA {
        unitsA.SetGarrison(1);
      } else if ownership == PlayerB {
        unitsB.SetGarrison(1);
      }
    }

    method DeactivateSupplyLine()
      requires unitsA != unitsB
      modifies unitsA`garrisonCount, unitsB`garrisonCount
      ensures unitsA.garrisonCount == if kind == SupplyLine && ownership != PlayerA then 0 else old(unitsA.garrisonCount)
      ensures unitsB.garrisonCount == if kind == SupplyLine && ownership != PlayerB then 0 else old(unitsB.garrisonCount)
    {
      if kind != SupplyLine {
        return;
      }
      if ownership != PlayerA {
        unitsA.SetGarrison(0);
      }
      if ownership != PlayerB {
        unitsB.SetGarrison(0);
      }
    }

    method Station(side: Side, count: nat)
      requires Valid()
      modifies this`ownership, unitsA`mobileCount, unitsB`mobileCount
      ensures View() == Stationed(old(View()), side, count)
      ensures kind == OutPost || kind == Chokepoint ==> Valid()
    {
      var ok := Group(side).AddMobile(count);
      ownership := OwnerOf(side);
    }

    method ClearDepartureHistory()
      requires Valid()
      modifies this`recentDepartures
      ensures Valid() && View() == old(View()).(recent := [])
    {
      recentDepartures := [];
    }
  }
}
