/** A map edge: groups on the way, keyed by rounds remaining
    (HexWar.Domain/Entities/Edge.cs). */
module Edges {
  import opened HexTypes

  /** One entry of the sorted list: every group with this many rounds to go. */
  datatype Bucket = Bucket(remaining: int, groups: seq<TravelingGroup>)

  datatype EdgeState = EdgeState(id: EdgeId, from: NodeId, to: NodeId, distance: int, traveling: seq<Bucket>)

  // ---- The sorted list ----

  predicate Sorted(bs: seq<Bucket>) {
    forall i, j :: 0 <= i < j < |bs| ==> bs[i].remaining < bs[j].remaining
  }

  predicate KeysWithin(bs: seq<Bucket>, lo: int, hi: int) {
    forall i :: 0 <= i < |bs| ==> lo <= bs[i].remaining <= hi
  }

  /** The groups stored under a key, none if the key is absent. */
  function Lookup(bs: seq<Bucket>, key: int): seq<TravelingGroup> {
    if bs == [] then []
    else if bs[0].remaining == key then bs[0].groups
    else Lookup(bs[1..], key)
  }

  /** Append groups under a key, creating the entry at its sorted place if need be. */
  function Put(bs: seq<Bucket>, key: int, gs: seq<TravelingGroup>): seq<Bucket> {
    if bs == [] then [Bucket(key, gs)]
    else if bs[0].remaining == key then [Bucket(key, bs[0].groups + gs)] + bs[1..]
    else if key < bs[0].remaining then [Bucket(key, gs)] + bs
    else [bs[0]] + Put(bs[1..], key, gs)
  }

  function Arrivals(bs: seq<Bucket>): seq<TravelingGroup> {
    if bs == [] then []
    else if bs[0].remaining <= 1 then bs[0].groups + Arrivals(bs[1..])
    else Arrivals(bs[1..])
  }

  function Advanced(bs: seq<Bucket>): seq<Bucket> {
    if bs == [] then []
    else if bs[0].remaining <= 1 then Advanced(bs[1..])
    else [Bucket(bs[0].remaining - 1, bs[0].groups)] + Advanced(bs[1..])
  }

  function Without(gs: seq<TravelingGroup>, side: Side): seq<TravelingGroup> {
    if gs == [] then []
    else if gs[0].side == side then Without(gs[1..], side)
    else [gs[0]] + Without(gs[1..], side)
  }

  function OfSide(gs: seq<TravelingGroup>, side: Side): seq<TravelingGroup> {
    if gs == [] then []
    else if gs[0].side == side then [gs[0]] + OfSide(gs[1..], side)
    else OfSide(gs[1..], side)
  }

  function Removed(bs: seq<Bucket>, side: Side): seq<Bucket> {
    if bs == [] then []
    else [Bucket(bs[0].remaining, Without(bs[0].groups, side))] + Removed(bs[1..], side)
  }

  function FirstOf(gs: seq<TravelingGroup>, side: Side): Option<TravelingGroup> {
    if gs == [] then None
    else if gs[0].side == side then Some(gs[0])
    else FirstOf(gs[1..], side)
  }

  predicate Meets(gs: seq<TravelingGroup>) {
    FirstOf(gs, A).Some? && FirstOf(gs, B).Some?
  }

  function Encounters(id: EdgeId, bs: seq<Bucket>): seq<EncounterInfo> {
    if bs == [] then []
    else if Meets(bs[0].groups) then
      [EncounterInfo(id, FirstOf(bs[0].groups, A).value, FirstOf(bs[0].groups, B).value, bs[0].remaining)]
      + Encounters(id, bs[1..])
    else Encounters(id, bs[1..])
  }

  // ---- Whole-edge transitions ----

  function Started(e: EdgeState, side: Side, count: int, destination: NodeId): EdgeState {
    e.(traveling := Put(e.traveling, e.distance, [TravelingGroup(side, count, destination)]))
  }

  function AdvancedEdge(e: EdgeState): EdgeState {
    e.(traveling := Advanced(e.traveling))
  }

  function RemovedEdge(e: EdgeState, side: Side): EdgeState {
    e.(traveling := Removed(e.traveling, side))
  }

  // ---- Facts about the sorted list ----

  lemma {:induction false} SortedTail(bs: seq<Bucket>)
    requires Sorted(bs) && |bs| > 0
    ensures Sorted(bs[1..])
    ensures forall i :: 0 <= i < |bs[1..]| ==> bs[0].remaining < bs[1..][i].remaining
  {
  }

  lemma {:induction false} LookupAbsent(bs: seq<Bucket>, key: int)
    requires forall i :: 0 <= i < |bs| ==> bs[i].remaining != key
    ensures Lookup(bs, key) == []
  {
    if bs != [] {
      LookupAbsent(bs[1..], key);
    }
  }

  lemma {:induction false} LookupAt(bs: seq<Bucket>, i: int)
    requires Sorted(bs) && 0 <= i < |bs|
    ensures Lookup(bs, bs[i].remaining) == bs[i].groups
  {
    if i > 0 {
      SortedTail(bs);
      assert bs[1..][i - 1] == bs[i];
      LookupAt(bs[1..], i - 1);
    }
  }

  lemma {:induction false} PutKeys(bs: seq<Bucket>, key: int, gs: seq<TravelingGroup>, lo: int, hi: int)
    requires Sorted(bs) && KeysWithin(bs, lo, hi) && lo <= key <= hi
    ensures Sorted(Put(bs, key, gs)) && KeysWithin(Put(bs, key, gs), lo, hi)
  {
    if bs != [] && bs[0].remaining < key {
      SortedTail(bs);
      PutKeys(bs[1..], key, gs, bs[0].remaining + 1, hi);
    }
  }

  lemma {:induction false} PutLookup(bs: seq<Bucket>, key: int, gs: seq<TravelingGroup>, k: int)
    requires Sorted(bs)
    ensures Lookup(Put(bs, key, gs), k) == Lookup(bs, k) + (if k == key then gs else [])
  {
    if bs != [] {
      SortedTail(bs);
      if bs[0].remaining < key {
        PutLookup(bs[1..], key, gs, k);
        assert Put(bs, key, gs)[1..] == Put(bs[1..], key, gs);
      } else if key < bs[0].remaining {
        assert Put(bs, key, gs)[1..] == bs;
        if k == key {
          LookupAbsent(bs, k);
        }
      } else {
        assert Put(bs, key, gs)[1..] == bs[1..];
      }
    } else {
      assert [Bucket(key, gs)][1..] == [];
    }
  }

  lemma {:induction false} AdvancedKeys(bs: seq<Bucket>, lo: int, hi: int)
    requires Sorted(bs) && KeysWithin(bs, lo, hi)
    ensures Sorted(Advanced(bs)) && KeysWithin(Advanced(bs), Max(1, lo - 1), hi - 1)
  {
    if bs != [] {
      SortedTail(bs);
      AdvancedKeys(bs[1..], Max(lo, bs[0].remaining + 1), hi);
    }
  }

  lemma {:induction false} AdvancedLookup(bs: seq<Bucket>, k: int)
    requires Sorted(bs) && k >= 1
    ensures Lookup(Advanced(bs), k) == Lookup(bs, k + 1)
  {
    if bs != [] {
      SortedTail(bs);
      AdvancedLookup(bs[1..], k);
      if bs[0].remaining > 1 {
        assert Advanced(bs)[1..] == Advanced(bs[1..]);
        assert Advanced(bs)[0] == Bucket(bs[0].remaining - 1, bs[0].groups);
      } else {
        assert Advanced(bs) == Advanced(bs[1..]);
      }
    }
  }

  lemma {:induction false} ArrivalsLookup(bs: seq<Bucket>)
    requires Sorted(bs) && forall i :: 0 <= i < |bs| ==> bs[i].remaining >= 1
    ensures Arrivals(bs) == Lookup(bs, 1)
  {
    if bs != [] {
      SortedTail(bs);
      ArrivalsLookup(bs[1..]);
      if bs[0].remaining == 1 {
        LookupAbsent(bs[1..], 1);
      }
    }
  }

  lemma {:induction false} RemovedKeys(bs: seq<Bucket>, side: Side)
    ensures |Removed(bs, side)| == |bs|
    ensures forall i :: 0 <= i < |bs| ==>
              Removed(bs, side)[i] == Bucket(bs[i].remaining, Without(bs[i].groups, side))
  {
    if bs != [] {
      RemovedKeys(bs[1..], side);
    }
  }

  lemma {:induction false} RemovedLookup(bs: seq<Bucket>, side: Side, k: int)
    ensures Lookup(Removed(bs, side), k) == Without(Lookup(bs, k), side)
  {
    if bs != [] {
      assert Removed(bs, side)[1..] == Removed(bs[1..], side);
      RemovedLookup(bs[1..], side, k);
    }
  }

  lemma {:induction false} WithoutAppend(xs: seq<TravelingGroup>, ys: seq<TravelingGroup>, side: Side)
    ensures Without(xs + ys, side) == Without(xs, side) + Without(ys, side)
  {
    if xs == [] {
      assert xs + ys == ys;
    } else {
      assert (xs + ys)[1..] == xs[1..] + ys && (xs + ys)[0] == xs[0];
      WithoutAppend(xs[1..], ys, side);
    }
  }

  lemma {:induction false} OfSideAppend(xs: seq<TravelingGroup>, ys: seq<TravelingGroup>, side: Side)
    ensures OfSide(xs + ys, side) == OfSide(xs, side) + OfSide(ys, side)
  {
    if xs == [] {
      assert xs + ys == ys;
    } else {
      assert (xs + ys)[1..] == xs[1..] + ys && (xs + ys)[0] == xs[0];
      OfSideAppend(xs[1..], ys, side);
    }
  }

  /** `FirstOf` finds a group of the side when there is one, and a group of that side only. */
  lemma {:induction false} FirstOfMember(gs: seq<TravelingGroup>, side: Side)
    ensures FirstOf(gs, side).Some? ==> FirstOf(gs, side).value in gs && FirstOf(gs, side).value.side == side
    ensures FirstOf(gs, side).None? ==> forall g :: g in gs ==> g.side != side
  {
    if gs != [] {
      FirstOfMember(gs[1..], side);
      assert forall g :: g in gs <==> g == gs[0] || g in gs[1..];
    }
  }

  // ---- The abstract object: a shift register of `distance` windows ----

  /** `line[k]` holds the groups with `k + 1` rounds to go. */
  function Line(bs: seq<Bucket>, d: nat): seq<seq<TravelingGroup>> {
    seq(d, k requires 0 <= k < d => Lookup(bs, k + 1))
  }

  predicate WellKeyed(bs: seq<Bucket>, d: int) {
    Sorted(bs) && KeysWithin(bs, 1, d)
  }

  datatype EdgeOp = Enter(group: TravelingGroup) | Tick | Drop(side: Side)

  function Apply(bs: seq<Bucket>, d: int, op: EdgeOp): seq<Bucket> {
    match op
    case Enter(g) => Put(bs, d, [g])
    case Tick => Advanced(bs)
    case Drop(side) => Removed(bs, side)
  }

  function DropAll(line: seq<seq<TravelingGroup>>, side: Side): seq<seq<TravelingGroup>> {
    seq(|line|, k requires 0 <= k < |line| => Without(line[k], side))
  }

  function Shift(line: seq<seq<TravelingGroup>>, op: EdgeOp): (r: seq<seq<TravelingGroup>>)
    requires |line| > 0
    ensures |r| == |line|
  {
    match op
    case Enter(g) => line[|line| - 1 := line[|line| - 1] + [g]]
    case Tick => line[1..] + [[]]
    case Drop(side) => DropAll(line, side)
  }

  lemma ApplyKeys(bs: seq<Bucket>, d: nat, op: EdgeOp)
    requires d >= 1 && WellKeyed(bs, d)
    ensures WellKeyed(Apply(bs, d, op), d)
  {
    match op
    case Enter(g) => PutKeys(bs, d, [g], 1, d);
    case Tick => AdvancedKeys(bs, 1, d);
    case Drop(side) => RemovedKeys(bs, side);
  }

  /** A window with `k` rounds to go after an operation, from the window it was before. */
  function Touched(window: seq<TravelingGroup>, d: int, op: EdgeOp, k: int): seq<TravelingGroup> {
    match op
    case Enter(g) => window + (if k == d then [g] else [])
    case Tick => window
    case Drop(side) => Without(window, side)
  }

  lemma ApplyLookup(bs: seq<Bucket>, d: nat, op: EdgeOp, k: nat)
    requires d >= 1 && WellKeyed(bs, d) && k >= 1
    ensures Lookup(Apply(bs, d, op), k) == Touched(Lookup(bs, if op == Tick then k + 1 else k), d, op, k)
  {
    match op
    case Enter(g) => PutLookup(bs, d, [g], k);
    case Tick => AdvancedLookup(bs, k);
    case Drop(side) => RemovedLookup(bs, side, k);
  }

  /** Every operation of an edge is the matching shift-register operation, and what an
      advance hands out is the register's first window, in order. */
  lemma EdgeRefinesShiftRegister(bs: seq<Bucket>, d: nat, op: EdgeOp)
    requires d >= 1 && WellKeyed(bs, d)
    ensures WellKeyed(Apply(bs, d, op), d)
    ensures Line(Apply(bs, d, op), d) == Shift(Line(bs, d), op)
    ensures Arrivals(bs) == Line(bs, d)[0]
  {
    hide Apply, Shift, Lookup;
    ArrivalsLookup(bs);
    ApplyKeys(bs, d, op);
    forall k | 0 <= k < d ensures Line(Apply(bs, d, op), d)[k] == Shift(Line(bs, d), op)[k] {
      LineStep(bs, d, op, k);
    }
  }

  lemma LineStep(bs: seq<Bucket>, d: nat, op: EdgeOp, k: nat)
    requires k < d && WellKeyed(bs, d)
    ensures Lookup(Apply(bs, d, op), k + 1) == Shift(Line(bs, d), op)[k]
  {
    hide Apply, Shift, Touched;
    ApplyLookup(bs, d, op, k + 1);
    ShiftAt(Line(bs, d), op, k);
    if k + 1 == d {
      LookupAbsent(bs, d + 1);
    }
  }

  lemma ShiftAt(line: seq<seq<TravelingGroup>>, op: EdgeOp, k: nat)
    requires k < |line|
    ensures Shift(line, op)[k] ==
              Touched(if op != Tick then line[k] else if k + 1 < |line| then line[k + 1] else [], |line|, op, k + 1)
  {
  }

  function RunOps(bs: seq<Bucket>, d: int, ops: seq<EdgeOp>): seq<Bucket>
    decreases |ops|
  {
    if ops == [] then bs else RunOps(Apply(bs, d, ops[0]), d, ops[1..])
  }

  function Ticks(ops: seq<EdgeOp>): nat
    decreases |ops|
  {
    if ops == [] then 0 else (if ops[0] == Tick then 1 else 0) + Ticks(ops[1..])
  }

  /** What is left of the groups `gs` after the removals in `ops`. */
  function Surviving(gs: seq<TravelingGroup>, ops: seq<EdgeOp>): seq<TravelingGroup>
    decreases |ops|
  {
    if ops == [] then gs
    else Surviving(if ops[0].Drop? then Without(gs, ops[0].side) else gs, ops[1..])
  }

  /** The groups that join the window that has `k` rounds to go, out of `ops`: those started
      after exactly `ticksLeft` further advances are still to come. */
  function Joining(d: int, k: int, ops: seq<EdgeOp>): seq<TravelingGroup>
    decreases |ops|
  {
    if ops == [] then []
    else if ops[0] == Tick then Joining(d, k - 1, ops[1..])
    else (if ops[0].Enter? && k == d then Surviving([ops[0].group], ops[1..]) else []) + Joining(d, k, ops[1..])
  }

  lemma {:induction false} SurvivingAppend(xs: seq<TravelingGroup>, ys: seq<TravelingGroup>, ops: seq<EdgeOp>)
    ensures Surviving(xs + ys, ops) == Surviving(xs, ops) + Surviving(ys, ops)
    decreases |ops|
  {
    if ops != [] {
      if ops[0].Drop? {
        WithoutAppend(xs, ys, ops[0].side);
        SurvivingAppend(Without(xs, ops[0].side), Without(ys, ops[0].side), ops[1..]);
      } else {
        SurvivingAppend(xs, ys, ops[1..]);
      }
    }
  }

  lemma {:induction false} SurvivingEmpty(ops: seq<EdgeOp>)
    ensures Surviving([], ops) == []
    decreases |ops|
  {
    if ops != [] {
      SurvivingEmpty(ops[1..]);
    }
  }

  lemma {:induction false} JoiningTooLate(d: int, k: int, ops: seq<EdgeOp>)
    requires k < d
    ensures Joining(d, k, ops) == []
    decreases |ops|
  {
    if ops != [] {
      JoiningTooLate(d, if ops[0] == Tick then k - 1 else k, ops[1..]);
    }
  }

  /** The window that has `k` rounds to go after a run consists, in order, of the survivors of
      the window that had `k + Ticks` rounds to go before it, then of the survivors of the groups
      started exactly `d - k` advances before the end. */
  lemma {:induction false} WindowAfterRun(bs: seq<Bucket>, d: nat, ops: seq<EdgeOp>, k: nat)
    requires d >= 1 && WellKeyed(bs, d) && 1 <= k <= d
    ensures WellKeyed(RunOps(bs, d, ops), d)
    ensures Lookup(RunOps(bs, d, ops), k) ==
              Surviving(Lookup(bs, k + Ticks(ops)), ops) + Joining(d, k + Ticks(ops), ops)
    decreases |ops|
  {
    hide Lookup, WellKeyed, Apply;
    if ops != [] {
      var op, rest := ops[0], ops[1..];
      ApplyKeys(bs, d, op);
      ApplyLookup(bs, d, op, k + Ticks(rest));
      WindowAfterRun(Apply(bs, d, op), d, rest, k);
      WindowStep(Lookup(bs, k + Ticks(ops)), d, ops, k + Ticks(rest));
    }
  }

  /** One operation moved across the survivors and the newcomers of a window. */
  lemma WindowStep(window: seq<TravelingGroup>, d: int, ops: seq<EdgeOp>, key: int)
    requires ops != []
    ensures Surviving(window, ops) + Joining(d, key + (if ops[0] == Tick then 1 else 0), ops) ==
            Surviving(Touched(window, d, ops[0], key), ops[1..]) + Joining(d, key, ops[1..])
  {
    if ops[0].Enter? {
      var added := if key == d then [ops[0].group] else [];
      SurvivingAppend(window, added, ops[1..]);
      SurvivingEmpty(ops[1..]);
      assert Joining(d, key, ops) == Surviving(added, ops[1..]) + Joining(d, key, ops[1..]);
    }
  }

  /** A group started on an edge of distance `d` and not removed is handed out by exactly the
      d-th advance after it: before that advance it has one round to go, having had `d - t`
      after `t` of them. */
  lemma {:induction false} LeavesOnDthAdvance(bs: seq<Bucket>, d: nat, g: TravelingGroup, ops: seq<EdgeOp>)
    requires d >= 1 && WellKeyed(bs, d)
    requires Drop(g.side) !in ops && Ticks(ops) < d
    ensures var after := RunOps(Put(bs, d, [g]), d, ops);
            && g in Lookup(after, d - Ticks(ops))
            && (Ticks(ops) == d - 1 ==> g in Arrivals(after))
  {
    var started := Put(bs, d, [g]);
    ApplyKeys(bs, d, Enter(g));
    PutLookup(bs, d, [g], d);
    var k := d - Ticks(ops);
    WindowAfterRun(started, d, ops, k);
    SurvivingAppend(Lookup(bs, d), [g], ops);
    UndroppedSurvives(g, ops);
    if k == 1 {
      ArrivalsLookup(RunOps(started, d, ops));
    }
  }

  lemma {:induction false} UndroppedSurvives(g: TravelingGroup, ops: seq<EdgeOp>)
    requires Drop(g.side) !in ops
    ensures Surviving([g], ops) == [g]
    decreases |ops|
  {
    if ops != [] {
      assert ops[0] in ops && forall op :: op in ops[1..] ==> op in ops;
      if ops[0].Drop? {
        assert [g][1..] == [];
        assert Without([g], ops[0].side) == [g];
      }
      UndroppedSurvives(g, ops[1..]);
    }
  }

  // ---- Head counts ----

  function CountIn(gs: seq<TravelingGroup>, side: Side): int {
    if gs == [] then 0 else (if gs[0].side == side then gs[0].unitCount else 0) + CountIn(gs[1..], side)
  }

  function CountOn(bs: seq<Bucket>, side: Side): int {
    if bs == [] then 0 else CountIn(bs[0].groups, side) + CountOn(bs[1..], side)
  }

  lemma {:induction false} CountAppend(xs: seq<TravelingGroup>, ys: seq<TravelingGroup>, side: Side)
    ensures CountIn(xs + ys, side) == CountIn(xs, side) + CountIn(ys, side)
  {
    if xs == [] {
      assert xs + ys == ys;
    } else {
      assert (xs + ys)[1..] == xs[1..] + ys;
      CountAppend(xs[1..], ys, side);
    }
  }

  lemma {:induction false} CountPut(bs: seq<Bucket>, key: int, gs: seq<TravelingGroup>, side: Side)
    ensures CountOn(Put(bs, key, gs), side) == CountOn(bs, side) + CountIn(gs, side)
  {
    if bs == [] {
      assert [Bucket(key, gs)][1..] == [];
    } else if bs[0].remaining == key {
      assert Put(bs, key, gs)[1..] == bs[1..];
      CountAppend(bs[0].groups, gs, side);
    } else if key < bs[0].remaining {
      assert Put(bs, key, gs)[1..] == bs;
    } else {
      assert Put(bs, key, gs)[1..] == Put(bs[1..], key, gs);
      CountPut(bs[1..], key, gs, side);
    }
  }

  /** An advance loses and duplicates nothing: every unit is handed out or still travelling. */
  lemma {:induction false} CountAdvance(bs: seq<Bucket>, side: Side)
    ensures CountOn(bs, side) == CountOn(Advanced(bs), side) + CountIn(Arrivals(bs), side)
  {
    if bs != [] {
      CountAdvance(bs[1..], side);
      if bs[0].remaining <= 1 {
        assert Advanced(bs) == Advanced(bs[1..]);
        CountAppend(bs[0].groups, Arrivals(bs[1..]), side);
      } else {
        assert Advanced(bs)[1..] == Advanced(bs[1..]);
        assert Arrivals(bs) == Arrivals(bs[1..]);
      }
    }
  }

  lemma {:induction false} CountWithout(gs: seq<TravelingGroup>, removed: Side, side: Side)
    ensures CountIn(Without(gs, removed), side) == if side == removed then 0 else CountIn(gs, side)
  {
    if gs != [] {
      CountWithout(gs[1..], removed, side);
      CountAppend(if gs[0].side == removed then [] else [gs[0]], Without(gs[1..], removed), side);
    }
  }

  lemma {:induction false} CountRemoved(bs: seq<Bucket>, removed: Side, side: Side)
    ensures CountOn(Removed(bs, removed), side) == if side == removed then 0 else CountOn(bs, side)
  {
    if bs != [] {
      CountRemoved(bs[1..], removed, side);
      CountWithout(bs[0].groups, removed, side);
      assert Removed(bs, removed)[1..] == Removed(bs[1..], removed);
    }
  }

  // ---- The object ----

  class Edge {
    const id: EdgeId
    const from: NodeId
    const to: NodeId
    const distance: int
    var traveling: seq<Bucket>

    ghost function View(): EdgeState
      reads this
    {
      EdgeState(id, from, to, distance, traveling)
    }

    ghost predicate Valid()
      reads this
    {
      Sorted(traveling)
    }

    constructor (from: NodeId, to: NodeId, distance: int)
      ensures Valid()
      ensures View() == EdgeState(MakeEdgeId(from, to), from, to, distance, [])
    {
      id := MakeEdgeId(from, to);
      this.from, this.to, this.distance := from, to, distance;
      traveling := [];
    }

    /** The position of a key in the sorted list, or the place it would be inserted at. */
    method Locate(key: int) returns (i: nat)
      requires Valid()
      ensures i <= |traveling|
      ensures forall j :: 0 <= j < i ==> traveling[j].remaining < key
      ensures forall j :: i <= j < |traveling| ==> key <= traveling[j].remaining
    {
      i := 0;
      while i < |traveling| && traveling[i].remaining < key
        invariant i <= |traveling|
        invariant forall j :: 0 <= j < i ==> traveling[j].remaining < key
      {
        i := i + 1;
      }
    }

    method StartTravel(side: Side, unitCount: int, destination: NodeId)
      requires Valid()
      modifies this
      ensures Valid()
      ensures View() == Started(old(View()), side, unitCount, destination)
    {
      var remainingRounds := distance;
      var group := TravelingGroup(side, unitCount, destination);
      PutKeys(traveling, remainingRounds, [group], LeastKey(traveling, remainingRounds), GreatestKey(traveling, remainingRounds));
      var i := Locate(remainingRounds);
      PutSplit(traveling, remainingRounds, [group], i);
      if i == |traveling| || traveling[i].remaining != remainingRounds {
        traveling := traveling[..i] + [Bucket(remainingRounds, [])] + traveling[i..];
        assert [] + [group] == [group];
      }
      traveling := traveling[i := Bucket(remainingRounds, traveling[i].groups + [group])];
      assert traveling == Put(old(traveling), remainingRounds, [group]);
    }

    method AdvanceRound() returns (arrived: seq<TravelingGroup>)
      requires Valid()
      modifies this
      ensures Valid()
      ensures View() == AdvancedEdge(old(View()))
      ensures arrived == Arrivals(old(traveling))
    {
      arrived := [];
      var newTraveling: seq<Bucket> := [];
      var i := 0;
      while i < |traveling|
        invariant i <= |traveling|
        invariant arrived + Arrivals(traveling[i..]) == Arrivals(traveling)
        invariant newTraveling + Advanced(traveling[i..]) == Advanced(traveling)
      {
        var kvp := traveling[i];
        var newRemaining := kvp.remaining - 1;
        assert traveling[i..][1..] == traveling[i + 1..];
        if newRemaining <= 0 {
          arrived := arrived + kvp.groups;
        } else {
          newTraveling := newTraveling + [Bucket(newRemaining, kvp.groups)];
        }
        i := i + 1;
      }
      assert newTraveling == Advanced(traveling);
      AdvancedKeys(traveling, LeastKey(traveling, 0), GreatestKey(traveling, 0));
      traveling := newTraveling;
    }

    method HasEncounter(roundRemaining: int) returns (met: bool, groups: seq<TravelingGroup>)
      requires Valid()
      ensures met == Meets(Lookup(traveling, roundRemaining))
      ensures met ==> groups == Lookup(traveling, roundRemaining)
    {
      var i := Locate(roundRemaining);
      if i < |traveling| && traveling[i].remaining == roundRemaining {
        LookupAt(traveling, i);
        groups := traveling[i].groups;
        if |groups| > 1 {
          var sides: set<Side> := {};
          for j := 0 to |groups|
            invariant forall s :: s in sides <==> exists k :: 0 <= k < j && groups[k].side == s
          {
            sides := sides + {groups[j].side};
          }
          FirstOfMember(groups, A);
          FirstOfMember(groups, B);
          met := |sides| > 1;
          if A in sides && B in sides {
            assert sides == {A, B};
          } else if A in sides {
            assert sides == {A};
          } else {
            assert sides == {B} || sides == {};
          }
        } else {
          FirstOfMember(groups, A);
          FirstOfMember(groups, B);
          met := false;
        }
      } else {
        LookupAbsent(traveling, roundRemaining);
        met, groups := false, [];
      }
    }

    method FindAllEncounters() returns (encounters: seq<EncounterInfo>)
      requires Valid()
      ensures encounters == Encounters(id, traveling)
    {
      encounters := [];
      var i := 0;
      while i < |traveling|
        invariant i <= |traveling|
        invariant encounters + Encounters(id, traveling[i..]) == Encounters(id, traveling)
      {
        LookupAt(traveling, i);
        assert traveling[i..][1..] == traveling[i + 1..];
        var met, groups := HasEncounter(traveling[i].remaining);
        if met {
          var groupA, groupB := FirstOf(groups, A), FirstOf(groups, B);
          if groupA.Some? && groupB.Some? {
            encounters := encounters + [EncounterInfo(id, groupA.value, groupB.value, traveling[i].remaining)];
          }
        }
        i := i + 1;
      }
    }

    method RemoveTravelingGroup(side: Side)
      requires Valid()
      modifies this
      ensures Valid()
      ensures View() == RemovedEdge(old(View()), side)
    {
      ghost var before := traveling;
      RemovedKeys(before, side);
      var i := 0;
      while i < |traveling|
        invariant i <= |traveling| == |before|
        invariant forall j :: 0 <= j < i ==> traveling[j] == Removed(before, side)[j]
        invariant forall j :: i <= j < |before| ==> traveling[j] == before[j]
      {
        var kept := RemoveSide(traveling[i].groups, side);
        traveling := traveling[i := Bucket(traveling[i].remaining, kept)];
        i := i + 1;
      }
      assert traveling == Removed(before, side);
    }

    static method RemoveSide(groups: seq<TravelingGroup>, side: Side) returns (kept: seq<TravelingGroup>)
      ensures kept == Without(groups, side)
    {
      kept := [];
      for j := 0 to |groups|
        invariant kept + Without(groups[j..], side) == Without(groups, side)
      {
        assert groups[j..][1..] == groups[j + 1..];
        if groups[j].side != side {
          kept := kept + [groups[j]];
        }
      }
    }
  }

  ghost function LeastKey(bs: seq<Bucket>, key: int): (r: int)
    ensures r <= key && forall i :: 0 <= i < |bs| ==> r <= bs[i].remaining
  {
    if bs == [] then key else Min(bs[0].remaining, LeastKey(bs[1..], key))
  }

  ghost function GreatestKey(bs: seq<Bucket>, key: int): (r: int)
    ensures r >= key && forall i :: 0 <= i < |bs| ==> r >= bs[i].remaining
  {
    if bs == [] then key else Max(bs[0].remaining, GreatestKey(bs[1..], key))
  }

  /** Inserting at the located position is `Put`. */
  lemma {:induction false} PutSplit(bs: seq<Bucket>, key: int, gs: seq<TravelingGroup>, i: nat)
    requires Sorted(bs) && i <= |bs|
    requires forall j :: 0 <= j < i ==> bs[j].remaining < key
    requires forall j :: i <= j < |bs| ==> key <= bs[j].remaining
    ensures Put(bs, key, gs) ==
              if i < |bs| && bs[i].remaining == key
              then bs[i := Bucket(key, bs[i].groups + gs)]
              else bs[..i] + [Bucket(key, gs)] + bs[i..]
  {
    if i > 0 {
      SortedTail(bs);
      PutSplit(bs[1..], key, gs, i - 1);
      if i < |bs| && bs[i].remaining == key {
        assert bs[1..][i - 1] == bs[i];
        assert [bs[0]] + bs[1..][i - 1 := Bucket(key, bs[i].groups + gs)] == bs[i := Bucket(key, bs[i].groups + gs)];
      } else {
        assert [bs[0]] + (bs[1..][..i - 1] + [Bucket(key, gs)] + bs[1..][i - 1..]) == bs[..i] + [Bucket(key, gs)] + bs[i..];
      }
    }
  }
}
