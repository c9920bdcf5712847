/** Encounter choices over runs: which step a recorded choice comes from, how long it stands, and
    whose choices the players are told once an encounter is resolved
    (HexWar.Domain/Entities/GameRoom.Events.cs, HexWar.Application/Sessions/GameSession.cs). */
module ChoiceHistory {
  import opened HexTypes
  import opened Nodes
  import opened Edges
  import opened Rooms
  import opened RoomWellFormed
  import opened RoomLedger
  import opened EncounterInvariant
  import opened SessionWorld
  import opened Announcements
  import opened FlagHistory

  // ---- What single steps do ----

  /** The encounter pending on an edge. */
  function Entry(ps: seq<Encounter>, id: EdgeId): Option<Encounter> {
    var k := PendingIndex(ps, id);
    if k.None? then None else Some(ps[k.value])
  }

  /** The choice a side has made in it. */
  function Recorded(r: Room, id: EdgeId, side: Side): Option<HexTypes.Decision> {
    var p := Entry(r.pending, id);
    if p.None? then None else ChoiceOf(p.value, side)
  }

  /** An accepted decision. */
  predicate Gives(w: World, step: Step, id: EdgeId, side: Side, choice: HexTypes.Decision) {
    step == SessionWorld.Decision(side, id, choice) && ResolveEncounter(w.room, id, side, choice).Ok?
  }

  /** On an accepted decision: the choice stands as made, unless it was the second, which ends the
      encounter; no other side's and no other edge's changes. */
  lemma DecisionRecords(r: Room, id: EdgeId, side: Side, choice: HexTypes.Decision, other: EdgeId)
    requires WellFormed(r) && EncountersLive(r) && ResolveEncounter(r, id, side, choice).Ok?
    ensures var next := ResolveEncounter(r, id, side, choice).value;
            && Recorded(r, id, side) == None
            && (Recorded(r, id, side.Other()) == None ==>
                  Recorded(next, id, side) == Some(choice) && Recorded(next, id, side.Other()) == None)
            && (Recorded(r, id, side.Other()).Some? ==> forall s :: Recorded(next, id, s) == None)
            && (other != id ==> forall s :: Recorded(next, other, s) == Recorded(r, other, s))
  {
    assert DistinctPending(r.pending);
    hide WellFormed, ResolveEncounter, EncountersLive, DistinctPending, Entered, DecisionTold, Entry;
    var next := ResolveEncounter(r, id, side, choice).value;
    var k, i, q := DecisionTells(r, id, side, choice);
    EnteredChoices(r.pending[k], q, r.edges[i].distance, side, choice);
    FirstIs(r.pending, id, k);
    UndecidedBefore(r, id, side, choice, k);
    hide PendingOn;
    if ChoiceOf(r.pending[k], side.Other()).Some? {
      WithoutOne(r.pending, k, other);
      WithoutOne(r.pending, k, id);
    } else {
      WithChanged(r.pending, k, q, other);
      WithChanged(r.pending, k, q, id);
    }
  }

  lemma FirstIs(ps: seq<Encounter>, id: EdgeId, k: nat)
    requires k < |ps| && ps[k].edgeId == id && forall j :: 0 <= j < k ==> ps[j].edgeId != id
    ensures Entry(ps, id) == Some(ps[k])
  {
  }

  lemma UndecidedBefore(r: Room, id: EdgeId, side: Side, choice: HexTypes.Decision, k: nat)
    requires WellFormed(r) && PendingOn(r, k, id) && ResolveEncounter(r, id, side, choice).Ok?
    ensures ChoiceOf(r.pending[k], side) == None
  {
    hide WellFormed, ResolveEncounter;
    DecisionVerdict(r, id, side, choice);
  }

  lemma WithoutOne(ps: seq<Encounter>, k: nat, id: EdgeId)
    requires DistinctPending(ps) && k < |ps|
    ensures Entry(ps[..k] + ps[k + 1..], id) == if ps[k].edgeId == id then None else Entry(ps, id)
  {
    hide PendingIndex;
    var rest := ps[..k] + ps[k + 1..];
    var at := PendingIndex(ps, id);
    if at.Some? && at.value != k {
      var j := if at.value < k then at.value else at.value - 1;
      assert rest[j] == ps[at.value];
      assert forall l :: 0 <= l < |rest| ==> rest[l] == ps[if l < k then l else l + 1];
      assert forall l :: 0 <= l < j ==> rest[l].edgeId != id;
      FirstIs(rest, id, j);
    } else {
      assert forall l :: 0 <= l < |rest| ==> rest[l] == ps[if l < k then l else l + 1];
      assert forall l :: 0 <= l < |rest| ==> rest[l].edgeId != id;
    }
  }

  lemma WithChanged(ps: seq<Encounter>, k: nat, q: Encounter, id: EdgeId)
    requires DistinctPending(ps) && k < |ps| && q.edgeId == ps[k].edgeId
    ensures Entry(ps[k := q], id) == if q.edgeId == id then Some(q) else Entry(ps, id)
  {
    hide PendingIndex;
    if q.edgeId == id {
      FirstIs(ps[k := q], id, k);
    } else {
      var at := PendingIndex(ps, id);
      if at.Some? {
        FirstIs(ps[k := q], id, at.value);
      }
    }
  }

  /** Encounters that a round has just found carry no choice. */
  lemma FreshChoices(encs: seq<EncounterInfo>, r: Room, id: EdgeId, side: Side)
    requires r.pending == NewPending(encs)
    ensures Recorded(r, id, side) == None
  {
  }

  lemma ResolvedChoices(r: Room, id: EdgeId, side: Side)
    requires SessionOk(r) && r.phase == Planning && r.pending == []
    ensures ResolveRound(r).Ok? && Recorded(ResolveRound(r).value, id, side) == None
    ensures Quiet(ResolveRound(r).value.events)
  {
    RoundShape(r);
    hide SessionOk, ResolveRound, Recorded;
    var next := ResolveRound(r).value;
    assert [] + NewPending(AllEncounters(next.edges)) == NewPending(AllEncounters(next.edges));
    FreshChoices(AllEncounters(next.edges), next, id, side);
  }

  lemma RoundShape(r: Room)
    requires SessionOk(r) && r.phase == Planning
    ensures ResolveRound(r).Ok?
    ensures var next := ResolveRound(r).value;
            && next.pending == r.pending + NewPending(AllEncounters(next.edges))
            && |next.events| == 2 && next.events[0].RoundResolved? && (next.events[1].RoundStarted? || next.events[1].GameEnded?)
  {
    hide WellFormed, ResolveRound, EncountersLive, NewPending;
    ResolveFrame(r);
    ResolutionShape(r);
  }

  /** No encounter is told as resolved. */
  predicate Quiet(events: seq<Event>) {
    forall p :: 0 <= p < |events| ==> !events[p].EncounterResolved?
  }

  /** A step adds these events to the published ones. */
  predicate Adds(w: World, next: World, events: seq<Event>) {
    next.published == w.published + events
  }

  /** A step that is no accepted decision records no choice and tells no encounter as resolved. */
  ghost predicate RecordsNone(w: World, next: World, id: EdgeId, side: Side) {
    && (Recorded(next.room, id, side) == Recorded(w.room, id, side) || Recorded(next.room, id, side) == None)
    && exists events :: Adds(w, next, events) && Quiet(events)
  }

  lemma NothingNew(w: World, id: EdgeId, side: Side)
    ensures RecordsNone(w, w, id, side)
  {
    assert Adds(w, w, []) && Quiet([]);
  }

  lemma ResolveRecords(w: World, server: ServerId, r: Room, id: EdgeId, side: Side)
    requires SessionOk(r) && r.phase == Planning && r.pending == []
    ensures RecordsNone(w, Resolve(w, server, r), id, side)
  {
    hide SessionOk, ResolveRound, Quiet;
    ResolvedChoices(r, id, side);
    assert Adds(w, Resolve(w, server, r), ResolveRound(r).value.events);
  }

  lemma TimeoutRecords(w: World, server: ServerId, forRound: int, r: Room, id: EdgeId, side: Side)
    requires SessionOk(r)
    ensures RecordsNone(w, Timeout(w, server, forRound, r), id, side)
  {
    hide SessionOk, Sweep, Resolve, RecordsNone;
    NothingNew(w, id, side);
    if r.phase == Planning {
      SweepOk(r);
      var swept := Sweep(r).value;
      assert swept.(edges := r.edges, pending := r.pending, events := r.events) == r;
      ResolveRecords(w, server, swept, id, side);
    }
  }

  lemma JoinRecords(w: World, player: string, id: EdgeId, side: Side)
    requires WorldOk(w)
    ensures RecordsNone(w, Do(w, Join(player)), id, side)
  {
    hide SessionOk, AddPlayer, Total, RoundsOk, StartsPresent, Recorded, PendingIndex;
    NothingNew(w, id, side);
    if AddPlayer(w.room, player).Ok? {
      JoinFrame(w.room, player);
      JoinTells(w.room, player);
      var next := AddPlayer(w.room, player).value;
      SameChoices(w.room, Flushed(next), id, side);
      assert Adds(w, Do(w, Join(player)), next.events) && Quiet(next.events);
    }
  }

  lemma SameChoices(r: Room, next: Room, id: EdgeId, side: Side)
    requires next.pending == r.pending
    ensures Recorded(next, id, side) == Recorded(r, id, side)
  {
  }

  lemma MoveRecords(w: World, server: ServerId, mover: Side, cmd: MoveCommand, id: EdgeId, side: Side)
    requires WorldOk(w)
    ensures RecordsNone(w, Do(w, Move(server, mover, cmd)), id, side)
  {
    hide SessionOk, MoveUnits, Total, RoundsOk, StartsPresent, Recorded;
    NothingNew(w, id, side);
    if MoveOrder(w.room, mover, cmd).Ok? {
      var clamped := cmd.(unitCount := Min(cmd.unitCount, Remaining(w.room, mover)));
      MoveTells(w.room, mover, clamped);
      var next := MoveUnits(w.room, mover, clamped).value;
      assert next.(moves := w.room.moves, used := w.room.used, events := w.room.events) == w.room;
      SameChoices(w.room, Flushed(next), id, side);
      assert Adds(w, Do(w, Move(server, mover, cmd)), next.events) && Quiet(next.events);
    }
  }

  lemma AbandonRecords(w: World, winner: Side, id: EdgeId, side: Side)
    requires WorldOk(w)
    ensures RecordsNone(w, Do(w, Abandon(winner)), id, side)
  {
    hide SessionOk, Total, RoundsOk, StartsPresent, Recorded, Scores;
    NothingNew(w, id, side);
    var next := ForceGameOver(w.room, Some(winner), PlayerDisconnected);
    SameChoices(w.room, Flushed(next), id, side);
    assert w.room.phase != GameOver ==> Adds(w, Do(w, Abandon(winner)), next.events) && Quiet(next.events);
  }

  /** An abandoned game is told as won by the player named, for the other's disconnection, unless it was
      over already. */
  lemma AbandonTells(w: World, winner: Side)
    ensures var next := Do(w, Abandon(winner));
            if w.room.phase == GameOver then next == w
            else
              && next.room.phase == GameOver && Adds(w, next, next.published[|w.published|..])
              && var told := next.published[|w.published|..];
                 |told| == |w.room.events| + 1 && told[..|w.room.events|] == w.room.events
                 && var last := told[|w.room.events|];
                    last.GameEnded? && last.winner == Some(winner) && last.reason == PlayerDisconnected && last.round == w.room.round
  {
    ForcedEndTells(w.room, Some(winner), PlayerDisconnected);
  }

  lemma NoticeRecords(w: World, next: World, id: EdgeId, side: Side)
    requires next.room == w.room && next.published == w.published
    ensures RecordsNone(w, next, id, side)
  {
    assert Adds(w, next, []) && Quiet([]);
  }

  lemma OtherSteps(w: World, step: Step, id: EdgeId, side: Side)
    requires WorldOk(w) && !step.Decision?
    ensures RecordsNone(w, Do(w, step), id, side)
  {
    hide SessionOk, Sweep, Resolve, RecordsNone, AllReady, AddPlayer, MoveOrder, Timeout, ForceGameOver;
    match step
    case Join(player) => JoinRecords(w, player, id, side);
    case Move(server, mover, cmd) => MoveRecords(w, server, mover, cmd, id, side);
    case Check(server) =>
      NothingNew(w, id, side);
      if AllReady(w.room, FlagsOf(w.flags, server)) {
        AllReadyPlans(w.room, FlagsOf(w.flags, server));
        ReadyRoom(w.room);
        ResolveRecords(w, server, w.room, id, side);
      }
    case PrimaryTimeout(server, forRound) => TimeoutRecords(w, server, forRound, w.room, id, side);
    case BackupTimeout(server, forRound) =>
      OwnerIrrelevant(w.room, server);
      TimeoutRecords(w, server, forRound, AssignOwner(w.room, server), id, side);
    case Abandon(winner) => AbandonRecords(w, winner, id, side);
    case RemoteRound(server) => NoticeRecords(w, Do(w, step), id, side);
    case Memory(flags) => NoticeRecords(w, Do(w, step), id, side);
  }

  /** A choice on record after a step was given by that step or was on record before it. */
  lemma ChoiceStep(w: World, step: Step, id: EdgeId, side: Side, choice: HexTypes.Decision)
    requires WorldOk(w) && Recorded(Do(w, step).room, id, side) == Some(choice)
    ensures Gives(w, step, id, side, choice) || Recorded(w.room, id, side) == Some(choice)
  {
    hide SessionOk, Recorded, ResolveEncounter, Total, RoundsOk, StartsPresent;
    if step.Decision? {
      var after := ResolveEncounter(w.room, step.edgeId, step.side, step.choice);
      if after.Ok? {
        SessionParts(w.room);
        DecisionRecords(w.room, step.edgeId, step.side, step.choice, id);
        SameChoices(after.value, Flushed(after.value), id, side);
        assert side == step.side || side == step.side.Other();
      }
    } else {
      hide Do;
      OtherSteps(w, step, id, side);
    }
  }

  lemma SessionParts(r: Room)
    requires SessionOk(r)
    ensures WellFormed(r) && EncountersLive(r)
  {
  }

  // ---- Over runs ----

  /** Step `i` gave the choice, and it has been on record ever since. */
  ghost predicate Given(w0: World, steps: seq<Step>, i: nat, id: EdgeId, side: Side, choice: HexTypes.Decision) {
    && i < |steps|
    && Gives(At(w0, steps, i), steps[i], id, side, choice)
    && forall j :: i < j <= |steps| ==> Recorded(At(w0, steps, j).room, id, side) == Some(choice)
  }

  /** A choice on record is one that the side's own accepted decision gave, on record ever since. */
  lemma {:induction false} ChoiceGiven(owner: ServerId, steps: seq<Step>, id: EdgeId, side: Side, choice: HexTypes.Decision)
    ensures Recorded(Run(Start(owner), steps).room, id, side) == Some(choice) <==>
              exists i: nat :: Given(Start(owner), steps, i, id, side, choice)
    decreases |steps|
  {
    hide WorldOk, Do, Gives, Recorded, Start, InitialRoom;
    var w0 := Start(owner);
    if steps == [] {
      NoChoiceYet(owner, id, side);
    } else {
      var front, last := steps[..|steps| - 1], steps[|steps| - 1];
      assert steps == front + [last];
      Reachable(owner, front);
      hide Run;
      AtSnoc(w0, front, last);
      assert steps[..|steps|] == steps;
      if Recorded(Run(w0, steps).room, id, side) == Some(choice) {
        ChoiceStep(Run(w0, front), last, id, side, choice);
        if Gives(Run(w0, front), last, id, side, choice) {
          assert Given(w0, steps, |front|, id, side, choice);
        } else {
          ChoiceGiven(owner, front, id, side, choice);
          var i: nat :| Given(w0, front, i, id, side, choice);
          assert Given(w0, steps, i, id, side, choice);
        }
      }
      if i: nat :| Given(w0, steps, i, id, side, choice) {
        assert Recorded(At(w0, steps, |steps|).room, id, side) == Some(choice);
      }
    }
  }

  lemma NoChoiceYet(owner: ServerId, id: EdgeId, side: Side)
    ensures Recorded(Start(owner).room, id, side) == None && Start(owner).published == []
    ensures Run(Start(owner), []) == Start(owner)
  {
    hide InitialNodes, InitialEdges;
  }

  /** The event says both choices, each on its own side. */
  predicate Says(e: Event, id: EdgeId, side: Side, choice: HexTypes.Decision, earlier: HexTypes.Decision) {
    && e.EncounterResolved? && e.edgeId == id
    && e.decisions.a == Some(if side == A then choice else earlier)
    && e.decisions.b == Some(if side == A then earlier else choice)
  }

  /** An accepted decision tells the encounter as resolved exactly if the other side's choice is on
      record, and then with both choices. */
  lemma DecisionPublishes(w: World, id: EdgeId, side: Side, choice: HexTypes.Decision) returns (k: nat, told: seq<Event>)
    requires WorldOk(w) && ResolveEncounter(w.room, id, side, choice).Ok?
    ensures PendingOn(w.room, k, id)
    ensures var earlier := Recorded(w.room, id, side.Other());
            var count := OwnGroup(w.room.pending[k], side).unitCount;
            && Adds(w, Do(w, SessionWorld.Decision(side, id, choice)), told)
            && |told| == (if earlier.Some? then 3 else 2)
            && told[0] == (if choice == Retreat then UnitsRetreated(side, id, count, w.room.round)
                           else UnitsAdvanced(side, id, count, w.room.round))
            && told[1] == EncounterDecisionMade(side, id, choice, count, w.room.round)
            && (earlier.Some? ==> Says(told[2], id, side, choice, earlier.value))
  {
    var r := w.room;
    hide WellFormed, ResolveEncounter, PendingIndex, OutcomeIs, Total, RoundsOk, StartsPresent, ListAfter, EncountersLive;
    var i, q;
    k, i, q := DecisionTells(r, id, side, choice);
    FirstIs(r.pending, id, k);
    var next := ResolveEncounter(r, id, side, choice).value;
    assert next.events[0..] == next.events;
    told := next.events;
  }

  /** The steps `i` and `j` gave the two choices that the event tells, the first of them on record
      until the second was given. */
  ghost predicate BothGiven(w0: World, steps: seq<Step>, i: nat, j: nat, e: Event) {
    && i < j < |steps| && steps[i].Decision? && steps[j].Decision?
    && steps[i].side == steps[j].side.Other()
    && Says(e, steps[j].edgeId, steps[j].side, steps[j].choice, steps[i].choice)
    && Gives(At(w0, steps, j), steps[j], steps[j].edgeId, steps[j].side, steps[j].choice)
    && Given(w0, steps[..j], i, steps[j].edgeId, steps[i].side, steps[i].choice)
  }

  lemma BothGivenSnoc(w0: World, front: seq<Step>, last: Step, i: nat, j: nat, e: Event)
    requires BothGiven(w0, front, i, j, e)
    ensures BothGiven(w0, front + [last], i, j, e)
  {
    hide Given, Gives, Run, Says;
    AtSnoc(w0, front, last);
    assert (front + [last])[..j] == front[..j];
  }

  /** Whenever players are told that an encounter is resolved, the two choices they are told are those
      that two accepted decisions gave, one of each side. */
  lemma {:induction false} ToldAsGiven(owner: ServerId, steps: seq<Step>, p: nat)
    requires p < |Run(Start(owner), steps).published| && Run(Start(owner), steps).published[p].EncounterResolved?
    ensures exists i: nat, j: nat :: BothGiven(Start(owner), steps, i, j, Run(Start(owner), steps).published[p])
    decreases |steps|
  {
    hide WorldOk, Do, Gives, Recorded, Start, Given, Says;
    var w0 := Start(owner);
    if steps == [] {
      NoChoiceYet(owner, EdgeId(0, 0), A);
    } else {
      var front, last := steps[..|steps| - 1], steps[|steps| - 1];
      assert steps == front + [last];
      Reachable(owner, front);
      AtSnoc(w0, front, last);
      hide Run, BothGiven;
      var w := Run(w0, front);
      var e := Run(w0, steps).published[p];
      PublishedGrows(w, last, p);
      if p < |w.published| {
        ToldAsGiven(owner, front, p);
        var i: nat, j: nat :| BothGiven(w0, front, i, j, e);
        BothGivenSnoc(w0, front, last, i, j, e);
      } else {
        var earlier := ToldByDecision(w, last, p);
        ChoiceGiven(owner, front, last.edgeId, last.side.Other(), earlier);
        var i: nat :| Given(w0, front, i, last.edgeId, last.side.Other(), earlier);
        LastGiven(w0, front, last, i, e, earlier);
      }
    }
  }

  lemma LastGiven(w0: World, front: seq<Step>, last: Step, i: nat, e: Event, earlier: HexTypes.Decision)
    requires last.Decision? && Gives(Run(w0, front), last, last.edgeId, last.side, last.choice)
    requires Given(w0, front, i, last.edgeId, last.side.Other(), earlier)
    requires Says(e, last.edgeId, last.side, last.choice, earlier)
    ensures BothGiven(w0, front + [last], i, |front|, e)
  {
    hide Run, Recorded, Do, ResolveEncounter, Says;
    AtSnoc(w0, front, last);
    assert (front + [last])[..|front|] == front && (front + [last])[i] == front[i];
  }

  lemma PublishedGrows(w: World, step: Step, p: nat)
    requires WorldOk(w) && p < |Do(w, step).published|
    ensures p < |w.published| ==> w.published[p] == Do(w, step).published[p]
  {
    hide WorldOk, Recorded;
    if step.Decision? {
      hide ResolveEncounter;
    } else {
      hide Do;
      OtherSteps(w, step, EdgeId(0, 0), A);
    }
  }

  lemma Accepted(w: World, step: Step)
    requires step.Decision?
    ensures Do(w, step) != w ==> ResolveEncounter(w.room, step.edgeId, step.side, step.choice).Ok?
  {
    hide ResolveEncounter;
  }

  /** A step that tells an encounter as resolved is an accepted decision with the other side's choice
      on record. */
  lemma ToldByDecision(w: World, step: Step, p: nat) returns (earlier: HexTypes.Decision)
    requires WorldOk(w) && |w.published| <= p < |Do(w, step).published| && Do(w, step).published[p].EncounterResolved?
    ensures step.Decision? && Gives(w, step, step.edgeId, step.side, step.choice)
    ensures Recorded(w.room, step.edgeId, step.side.Other()) == Some(earlier)
    ensures Says(Do(w, step).published[p], step.edgeId, step.side, step.choice, earlier)
  {
    hide WorldOk, Recorded, Says, PendingOn, OwnGroup;
    if step.Decision? {
      hide ResolveEncounter;
      Accepted(w, step);
      hide Do;
      var k, told := DecisionPublishes(w, step.edgeId, step.side, step.choice);
      assert Do(w, step).published[p] == told[p - |w.published|];
      earlier := Recorded(w.room, step.edgeId, step.side.Other()).value;
    } else {
      hide Do;
      OtherSteps(w, step, EdgeId(0, 0), A);
      assert false;
    }
  }
}
