/** The move-completed flags that every server keeps in its own memory, over runs of any number of
    servers: which step a flag comes from, when it is stale, and when an early resolution that
    relies on it is justified (HexWar.Application/Sessions/GameSession.cs). */
module FlagHistory {
  import opened HexTypes
  import opened Nodes
  import opened Edges
  import opened Rooms
  import opened RoomWellFormed
  import opened RoomLedger
  import opened EncounterInvariant
  import opened SessionWorld

  // ---- What single steps do ----

  /** Server `s` accepts a move of `side`. */
  predicate Accepts(w: World, step: Step, s: ServerId, side: Side) {
    step.Move? && step.server == s && step.side == side && MoveOrder(w.room, side, step.cmd).Ok?
  }

  predicate Completes(w: World, step: Step) {
    Do(w, step).completed != w.completed
  }

  /** The server a step runs on, for the steps that can complete a round. */
  predicate RunsOn(step: Step, s: ServerId) {
    match step
    case Check(server) => server == s
    case PrimaryTimeout(server, _) => server == s
    case BackupTimeout(server, _) => server == s
    case _ => false
  }

  /** The step decides what `s` remembers of `side`: a move accepted on `s`, a round completed on
      `s`, a notice to `s`, or a change from outside. */
  predicate Writes(w: World, step: Step, s: ServerId, side: Side) {
    || Accepts(w, step, s, side)
    || (Completes(w, step) && RunsOn(step, s))
    || step == RemoteRound(s)
    || step.Memory?
  }

  /** It leaves the flag up. */
  predicate Raises(w: World, step: Step, s: ServerId, side: Side) {
    || (Accepts(w, step, s, side) && Remaining(Do(w, step).room, side) <= 0)
    || (step.Memory? && FlagsOf(step.flags, s).Get(side))
  }

  function Flag(w: World, s: ServerId, side: Side): bool {
    FlagsOf(w.flags, s).Get(side)
  }

  /** What a step does to a flag, exactly. */
  lemma FlagStep(w: World, step: Step, s: ServerId, side: Side)
    requires WorldOk(w)
    ensures Flag(Do(w, step), s, side) == if Writes(w, step, s, side) then Raises(w, step, s, side) else Flag(w, s, side)
  {
    hide WorldOk, Do, Resolve, Timeout, AllReady, MoveOrder, AddPlayer, ResolveEncounter, Sweep;
    match step
    case Join(player) => JoinFlags(w, player);
    case Move(server, mover, cmd) => MoveFlags(w, server, mover, cmd);
    case Decision(mover, edgeId, choice) => DecisionFlags(w, mover, edgeId, choice);
    case Check(server) => CheckFlags(w, server);
    case PrimaryTimeout(server, forRound) => PrimaryFlags(w, server, forRound);
    case BackupTimeout(server, forRound) => BackupFlags(w, server, forRound);
    case Abandon(winner) => AbandonFlags(w, winner);
    case RemoteRound(server) => NoticeFlags(w, server);
    case Memory(flags) => NoticeFlags(w, s);
  }

  lemma JoinFlags(w: World, player: string)
    ensures Do(w, Join(player)).flags == w.flags && Do(w, Join(player)).completed == w.completed
  {
  }

  lemma MoveFlags(w: World, server: ServerId, side: Side, cmd: MoveCommand)
    ensures var next := Do(w, Move(server, side, cmd));
            && next.completed == w.completed
            && (MoveOrder(w.room, side, cmd).Err? ==> next == w)
            && (MoveOrder(w.room, side, cmd).Ok? ==>
                  && next.room == Flushed(MoveOrder(w.room, side, cmd).value)
                  && next.flags == w.flags[server := FlagsOf(w.flags, server).Set(side, Remaining(next.room, side) <= 0)])
  {
    hide MoveOrder;
  }

  lemma DecisionFlags(w: World, side: Side, edgeId: EdgeId, choice: HexTypes.Decision)
    ensures var next := Do(w, SessionWorld.Decision(side, edgeId, choice)); next.flags == w.flags && next.completed == w.completed
  {
    hide ResolveEncounter;
  }

  lemma AbandonFlags(w: World, winner: Side)
    ensures Do(w, Abandon(winner)).flags == w.flags && Do(w, Abandon(winner)).completed == w.completed
  {
  }

  lemma NoticeFlags(w: World, server: ServerId)
    ensures Do(w, RemoteRound(server)) == w.(flags := w.flags[server := NO_FLAGS])
    ensures forall flags :: Do(w, Memory(flags)) == w.(flags := flags)
  {
  }

  /** A step that can complete a round completes the room's, or leaves the world alone. */
  predicate CompletesOrNothing(w: World, next: World, s: ServerId) {
    || next == w
    || (next.completed == w.completed + [w.room.round] && next.flags == w.flags[s := NO_FLAGS])
  }

  lemma ResolveFlags(w: World, server: ServerId, r: Room)
    requires r.round == w.room.round
    ensures CompletesOrNothing(w, Resolve(w, server, r), server)
  {
    hide ResolveRound;
  }

  lemma CheckFlags(w: World, server: ServerId)
    ensures CompletesOrNothing(w, Do(w, Check(server)), server)
  {
    hide AllReady, Resolve;
    ResolveFlags(w, server, w.room);
  }

  lemma TimeoutFlags(w: World, server: ServerId, forRound: int, r: Room)
    requires SessionOk(r) && r.round == w.room.round
    ensures CompletesOrNothing(w, Timeout(w, server, forRound, r), server)
  {
    hide SessionOk, Sweep, Resolve;
    if r.phase == Planning {
      SweepOk(r);
      var swept := Sweep(r).value;
      assert swept.(edges := r.edges, pending := r.pending, events := r.events) == r;
      ResolveFlags(w, server, swept);
    }
  }

  lemma PrimaryFlags(w: World, server: ServerId, forRound: int)
    requires WorldOk(w)
    ensures CompletesOrNothing(w, Do(w, PrimaryTimeout(server, forRound)), server)
  {
    hide Timeout, SessionOk;
    TimeoutFlags(w, server, forRound, w.room);
  }

  lemma BackupFlags(w: World, server: ServerId, forRound: int)
    requires WorldOk(w)
    ensures CompletesOrNothing(w, Do(w, BackupTimeout(server, forRound)), server)
  {
    hide Timeout, SessionOk;
    OwnerIrrelevant(w.room, server);
    TimeoutFlags(w, server, forRound, AssignOwner(w.room, server));
  }

  // ---- Where a flag comes from ----

  function At(w0: World, steps: seq<Step>, i: nat): World
    requires i <= |steps|
  {
    Run(w0, steps[..i])
  }

  /** Step `i` raised the flag and nothing has written it since. */
  ghost predicate Origin(w0: World, steps: seq<Step>, i: nat, s: ServerId, side: Side) {
    && i < |steps|
    && Raises(At(w0, steps, i), steps[i], s, side)
    && forall k :: i < k < |steps| ==> !Writes(At(w0, steps, k), steps[k], s, side)
  }

  lemma AtSnoc(w0: World, front: seq<Step>, last: Step)
    ensures forall i :: 0 <= i <= |front| ==> At(w0, front + [last], i) == At(w0, front, i)
    ensures At(w0, front, |front|) == Run(w0, front)
    ensures Run(w0, front + [last]) == Do(Run(w0, front), last)
  {
    hide Run, Do;
    forall i | 0 <= i <= |front| ensures At(w0, front + [last], i) == At(w0, front, i) {
      assert (front + [last])[..i] == front[..i];
    }
    assert front[..|front|] == front;
    RunSnoc(w0, front, last);
  }

  lemma OriginSnoc(w0: World, front: seq<Step>, last: Step, s: ServerId, side: Side)
    ensures forall i: nat :: i < |front| ==>
              (Origin(w0, front + [last], i, s, side) <==>
               Origin(w0, front, i, s, side) && !Writes(Run(w0, front), last, s, side))
    ensures Origin(w0, front + [last], |front|, s, side) <==> Raises(Run(w0, front), last, s, side)
  {
    hide Run, Do, Raises, Writes;
    AtSnoc(w0, front, last);
    var steps := front + [last];
    forall i: nat | i < |front|
      ensures Origin(w0, steps, i, s, side) <==> Origin(w0, front, i, s, side) && !Writes(Run(w0, front), last, s, side)
    {
      assert steps[i] == front[i] && steps[|front|] == last;
      assert forall k :: i < k < |front| ==> steps[k] == front[k] && At(w0, steps, k) == At(w0, front, k);
      if Origin(w0, front, i, s, side) && !Writes(Run(w0, front), last, s, side) {
        forall k | i < k < |steps| ensures !Writes(At(w0, steps, k), steps[k], s, side) {
          assert k < |front| || k == |front|;
        }
      }
    }
  }

  /** A flag is up exactly when some step raised it and nothing has written it since. */
  lemma {:induction false} FlagOrigin(w0: World, steps: seq<Step>, s: ServerId, side: Side)
    requires WorldOk(w0) && !Flag(w0, s, side)
    ensures Flag(Run(w0, steps), s, side) <==> exists i: nat :: Origin(w0, steps, i, s, side)
    decreases |steps|
  {
    hide WorldOk, Do, Flag, Writes, Raises;
    if steps != [] {
      var front, last := steps[..|steps| - 1], steps[|steps| - 1];
      assert steps == front + [last];
      FlagOrigin(w0, front, s, side);
      RunOk(w0, front);
      FlagStep(Run(w0, front), last, s, side);
      RunSnoc(w0, front, last);
      hide Run, Origin;
      OriginSnoc(w0, front, last, s, side);
      RaisingWrites(Run(w0, front), last, s, side);
      OriginInside(w0, steps, s, side);
      OriginInside(w0, front, s, side);
    }
  }

  lemma RaisingWrites(w: World, step: Step, s: ServerId, side: Side)
    ensures Raises(w, step, s, side) ==> Writes(w, step, s, side)
  {
  }

  lemma OriginInside(w0: World, steps: seq<Step>, s: ServerId, side: Side)
    ensures forall i: nat :: Origin(w0, steps, i, s, side) ==> i < |steps|
  {
  }

  // ---- When a flag is stale ----

  /** Step `j` completes a round, and not on `s`. */
  predicate Elsewhere(w0: World, steps: seq<Step>, j: nat, s: ServerId) {
    j < |steps| && Completes(At(w0, steps, j), steps[j]) && !RunsOn(steps[j], s)
  }

  /** The flag that is up was raised in a round that is over. */
  ghost predicate Stale(w0: World, steps: seq<Step>, s: ServerId, side: Side) {
    exists i: nat :: Origin(w0, steps, i, s, side) && |At(w0, steps, i).completed| < |Run(w0, steps).completed|
  }

  /** A step completes one round or none. */
  lemma CompletesOne(w: World, step: Step)
    requires WorldOk(w)
    ensures |Do(w, step).completed| == |w.completed| + if Completes(w, step) then 1 else 0
    ensures Completes(w, step) ==> step.Check? || step.PrimaryTimeout? || step.BackupTimeout?
  {
    hide WorldOk, Do, Resolve, Timeout, AllReady, MoveOrder, AddPlayer, ResolveEncounter, Sweep;
    match step
    case Join(player) => JoinFlags(w, player);
    case Move(server, mover, cmd) => MoveFlags(w, server, mover, cmd);
    case Decision(mover, edgeId, choice) => DecisionFlags(w, mover, edgeId, choice);
    case Check(server) => CheckFlags(w, server);
    case PrimaryTimeout(server, forRound) => PrimaryFlags(w, server, forRound);
    case BackupTimeout(server, forRound) => BackupFlags(w, server, forRound);
    case Abandon(winner) => AbandonFlags(w, winner);
    case RemoteRound(server) => NoticeFlags(w, server);
    case Memory(flags) => NoticeFlags(w, "");
  }

  ghost predicate CompletedAfter(w0: World, steps: seq<Step>, i: nat) {
    exists j: nat :: i <= j < |steps| && Completes(At(w0, steps, j), steps[j])
  }

  lemma CompletedAfterSnoc(w0: World, front: seq<Step>, last: Step, i: nat)
    requires i <= |front|
    ensures CompletedAfter(w0, front + [last], i) <==> CompletedAfter(w0, front, i) || Completes(Run(w0, front), last)
  {
    hide Run, Completes;
    AtSnoc(w0, front, last);
    var steps := front + [last];
    assert forall j :: 0 <= j < |front| ==> steps[j] == front[j] && At(w0, steps, j) == At(w0, front, j);
    assert steps[|front|] == last && At(w0, steps, |front|) == Run(w0, front);
    if CompletedAfter(w0, front, i) {
      var j: nat :| i <= j < |front| && Completes(At(w0, front, j), front[j]);
      assert Completes(At(w0, steps, j), steps[j]);
    } else if CompletedAfter(w0, steps, i) {
      var j: nat :| i <= j < |steps| && Completes(At(w0, steps, j), steps[j]);
      assert j == |front|;
    }
  }

  /** The number of completed rounds has grown since step `i` exactly when a step since completed one. */
  lemma {:induction false} RoundsSince(w0: World, steps: seq<Step>, i: nat)
    requires WorldOk(w0) && i <= |steps|
    ensures |At(w0, steps, i).completed| <= |Run(w0, steps).completed|
    ensures |At(w0, steps, i).completed| < |Run(w0, steps).completed| <==> CompletedAfter(w0, steps, i)
    decreases |steps|
  {
    hide WorldOk, Do, Completes;
    if i == |steps| {
      assert steps[..i] == steps;
    } else {
      var front, last := steps[..|steps| - 1], steps[|steps| - 1];
      assert steps == front + [last];
      RunOk(w0, front);
      CompletesOne(Run(w0, front), last);
      RoundsSince(w0, front, i);
      hide Run, CompletedAfter;
      AtSnoc(w0, front, last);
      CompletedAfterSnoc(w0, front, last, i);
    }
  }

  /** A server's flag is stale exactly when it was raised on that server, a round was completed
      elsewhere since, and neither a move accepted nor a round completed on that server, nor a notice
      to it, has come in between. */
  lemma StaleIff(w0: World, steps: seq<Step>, s: ServerId, side: Side)
    requires WorldOk(w0)
    ensures Stale(w0, steps, s, side) <==>
              exists i: nat, j: nat :: i < j && Origin(w0, steps, i, s, side) && Elsewhere(w0, steps, j, s)
  {
    hide WorldOk, Run, Raises, Do, At;
    if Stale(w0, steps, s, side) {
      var i: nat :| Origin(w0, steps, i, s, side) && |At(w0, steps, i).completed| < |Run(w0, steps).completed|;
      RoundsSince(w0, steps, i);
      var j: nat :| i <= j < |steps| && Completes(At(w0, steps, j), steps[j]);
      RaisingCompletesNone(w0, steps, i, s, side);
      assert Elsewhere(w0, steps, j, s);
    }
    if i: nat, j: nat :| i < j && Origin(w0, steps, i, s, side) && Elsewhere(w0, steps, j, s) {
      RoundsSince(w0, steps, i);
      assert CompletedAfter(w0, steps, i);
    }
  }

  lemma RaisingCompletesNone(w0: World, steps: seq<Step>, i: nat, s: ServerId, side: Side)
    requires WorldOk(w0) && Origin(w0, steps, i, s, side)
    ensures !Completes(At(w0, steps, i), steps[i])
  {
    hide WorldOk, Do, Completes;
    RunOk(w0, steps[..i]);
    CompletesOne(At(w0, steps, i), steps[i]);
  }

  // ---- When a flag is wrong ----

  /** Within a round a side's units left only go down. */
  lemma RemainingFalls(w: World, step: Step, side: Side)
    requires WorldOk(w) && !Completes(w, step)
    ensures Remaining(Do(w, step).room, side) <= Remaining(w.room, side)
  {
    hide WorldOk, Resolve, Timeout, AllReady, MoveOrder, AddPlayer, ResolveEncounter, Sweep;
    match step
    case Join(player) => JoinUsed(w.room, player);
    case Move(server, mover, cmd) => MoveUsed(w.room, mover, cmd, side);
    case Decision(mover, edgeId, choice) => DecisionUsed(w.room, mover, edgeId, choice);
    case Check(server) => CheckFlags(w, server);
    case PrimaryTimeout(server, forRound) => PrimaryFlags(w, server, forRound);
    case BackupTimeout(server, forRound) => BackupFlags(w, server, forRound);
    case Abandon(winner) =>
    case RemoteRound(server) =>
    case Memory(flags) =>
  }

  lemma JoinUsed(r: Room, player: string)
    ensures AddPlayer(r, player).Ok? ==> AddPlayer(r, player).value.used == r.used
  {
  }

  lemma MoveUsed(r: Room, mover: Side, cmd: MoveCommand, side: Side)
    ensures MoveOrder(r, mover, cmd).Ok? ==> Remaining(MoveOrder(r, mover, cmd).value, side) <= Remaining(r, side)
  {
  }

  lemma DecisionUsed(r: Room, side: Side, edgeId: EdgeId, choice: HexTypes.Decision)
    ensures ResolveEncounter(r, edgeId, side, choice).Ok? ==> ResolveEncounter(r, edgeId, side, choice).value.used == r.used
  {
    if ResolveEncounter(r, edgeId, side, choice).Ok? {
      var next := ResolveEncounter(r, edgeId, side, choice).value;
      DecisionFrame(r, edgeId, side, choice);
      assert next.(edges := r.edges, pending := r.pending, events := r.events) == r;
    }
  }

  lemma {:induction false} RemainingSince(w0: World, steps: seq<Step>, i: nat, side: Side)
    requires WorldOk(w0) && i <= |steps| && !CompletedAfter(w0, steps, i)
    ensures Remaining(Run(w0, steps).room, side) <= Remaining(At(w0, steps, i).room, side)
    decreases |steps|
  {
    hide WorldOk, Do, Completes;
    if i == |steps| {
      assert steps[..i] == steps;
    } else {
      var front, last := steps[..|steps| - 1], steps[|steps| - 1];
      assert steps == front + [last];
      RunOk(w0, front);
      hide Run, CompletedAfter;
      AtSnoc(w0, front, last);
      CompletedAfterSnoc(w0, front, last, i);
      RemainingSince(w0, front, i, side);
      RemainingFalls(Run(w0, front), last, side);
    }
  }

  /** No step takes a flag from outside: what `s` remembers changes by its own actions, by notices
      and by restarts only. */
  predicate Undisturbed(steps: seq<Step>, s: ServerId) {
    forall i :: 0 <= i < |steps| && steps[i].Memory? ==> FlagsOf(steps[i].flags, s) == NO_FLAGS
  }

  /** The flag claims that the side has used all its units, and it has not. */
  predicate Wrong(w: World, s: ServerId, side: Side) {
    Flag(w, s, side) && Remaining(w.room, side) > 0
  }

  /** A flag is wrong exactly when it is stale and the side has units left in the round it was not
      raised in. */
  lemma WrongIffStale(w0: World, steps: seq<Step>, s: ServerId, side: Side)
    requires WorldOk(w0) && !Flag(w0, s, side) && Undisturbed(steps, s)
    ensures Wrong(Run(w0, steps), s, side) <==> Stale(w0, steps, s, side) && Remaining(Run(w0, steps).room, side) > 0
  {
    hide WorldOk, Run, Do, Raises, Writes, Flag;
    FlagOrigin(w0, steps, s, side);
    if Wrong(Run(w0, steps), s, side) {
      var i: nat :| Origin(w0, steps, i, s, side);
      RoundsSince(w0, steps, i);
      if !CompletedAfter(w0, steps, i) {
        RaisedSpent(w0, steps, i, s, side);
        RemainingSince(w0, steps, i + 1, side);
      }
    }
  }

  lemma RaisedSpent(w0: World, steps: seq<Step>, i: nat, s: ServerId, side: Side)
    requires Origin(w0, steps, i, s, side) && Undisturbed(steps, s)
    ensures Remaining(At(w0, steps, i + 1).room, side) <= 0
  {
    hide Run, Do;
    assert steps[..i + 1] == steps[..i] + [steps[i]];
    RunSnoc(w0, steps[..i], steps[i]);
  }

  // ---- Early resolution ----

  /** The side has used all its units, or has none standing on a node. */
  predicate DoneMoving(r: Room, side: Side) {
    Remaining(r, side) <= 0 || NodeMobile(r.nodes, side) == 0
  }

  /** An early check on `s` resolves although a side still has units to move: exactly when the room
      plans with nothing pending, every side is done or has a stale flag on `s`, and one is not done. */
  lemma PrematureIffStale(owner: ServerId, steps: seq<Step>, s: ServerId)
    requires Undisturbed(steps, s)
    ensures var w := Run(Start(owner), steps);
            Completes(w, Check(s)) && !(DoneMoving(w.room, A) && DoneMoving(w.room, B)) <==>
              && w.room.phase == Planning && w.room.pending == []
              && (DoneMoving(w.room, A) || Stale(Start(owner), steps, s, A))
              && (DoneMoving(w.room, B) || Stale(Start(owner), steps, s, B))
              && !(DoneMoving(w.room, A) && DoneMoving(w.room, B))
  {
    var w := Run(Start(owner), steps);
    NoFlagAtStart(owner, s);
    hide Run, Start, Completes, Stale, NodeMobile;
    StartOk(owner);
    Reachable(owner, steps);
    ReadyNow(w, s);
    forall side: Side
      ensures (Flag(w, s, side) || DoneMoving(w.room, side)) == (DoneMoving(w.room, side) || Stale(Start(owner), steps, s, side))
    {
      WrongIffStale(Start(owner), steps, s, side);
    }
  }

  lemma NoFlagAtStart(owner: ServerId, s: ServerId)
    ensures !Flag(Start(owner), s, A) && !Flag(Start(owner), s, B)
  {
  }

  /** When an early check on `s` completes a round. */
  lemma ReadyNow(w: World, s: ServerId)
    requires WorldOk(w)
    ensures Completes(w, Check(s)) <==>
              && w.room.phase == Planning && w.room.pending == []
              && (Flag(w, s, A) || DoneMoving(w.room, A)) && (Flag(w, s, B) || DoneMoving(w.room, B))
  {
    CheckOk(w, s);
    hide WellFormed, Do, NodeMobile, RoundsOk;
    ReadyMeansNonePending(w.room);
  }

  /** `s` hears of every round completed elsewhere before its next check. */
  ghost predicate Informed(w0: World, steps: seq<Step>, s: ServerId) {
    forall j: nat :: Elsewhere(w0, steps, j, s) ==> exists k :: j < k < |steps| && steps[k] == RemoteRound(s)
  }

  lemma InformedNeverStale(w0: World, steps: seq<Step>, s: ServerId, side: Side)
    requires WorldOk(w0) && Informed(w0, steps, s)
    ensures !Stale(w0, steps, s, side)
  {
    hide WorldOk, Run, Raises, Do, Elsewhere, Stale;
    StaleIff(w0, steps, s, side);
  }

  /** However many servers act: if `s` is told of every round completed elsewhere before it checks,
      its early resolution is justified: no encounter is undecided and each side has used all its
      units or has none standing on a node. */
  lemma EarlyResolutionJustified(owner: ServerId, steps: seq<Step>, s: ServerId)
    requires Informed(Start(owner), steps, s) && Undisturbed(steps, s)
    requires Do(Run(Start(owner), steps), Check(s)).completed != Run(Start(owner), steps).completed
    ensures var r := Run(Start(owner), steps).room;
            && r.phase == Planning && r.pending == []
            && (forall side: Side :: r.used.Get(side) == MAX_UNITS || NodeMobile(r.nodes, side) == 0)
  {
    var w := Run(Start(owner), steps);
    hide Run, Start, Do, Stale, NodeMobile, Informed;
    StartOk(owner);
    Reachable(owner, steps);
    InformedNeverStale(Start(owner), steps, s, A);
    InformedNeverStale(Start(owner), steps, s, B);
    PrematureIffStale(owner, steps, s);
    ReadyNow(w, s);
    PlanningFacts(w.room);
    assert Completes(w, Check(s));
  }

  // ---- One server ----

  predicate ByOneServer(steps: seq<Step>, server: ServerId) {
    forall i :: 0 <= i < |steps| ==>
      match steps[i]
      case Move(s, _, _) => s == server
      case Check(s) => s == server
      case PrimaryTimeout(s, _) => s == server
      case BackupTimeout(s, _) => s == server
      case _ => !steps[i].Memory?
  }

  /** A set completion flag means the side has used all its units. */
  predicate FlagsTrue(w: World, server: ServerId) {
    !Wrong(w, server, A) && !Wrong(w, server, B)
  }

  lemma {:induction false} FlagsStayTrue(w: World, steps: seq<Step>, server: ServerId)
    requires WorldOk(w) && FlagsTrue(w, server) && ByOneServer(steps, server)
    ensures FlagsTrue(Run(w, steps), server)
    decreases |steps|
  {
    hide WorldOk, Do, FlagsTrue;
    if steps != [] {
      var step := steps[0];
      StepOk(w, step);
      StepFlags(w, step, server);
      assert ByOneServer(steps[1..], server) by {
        assert forall i :: 0 <= i < |steps[1..]| ==> steps[1..][i] == steps[i + 1];
      }
      FlagsStayTrue(Do(w, step), steps[1..], server);
    }
  }

  lemma StepFlags(w: World, step: Step, server: ServerId)
    requires WorldOk(w) && FlagsTrue(w, server) && ByOneServer([step], server)
    ensures FlagsTrue(Do(w, step), server)
  {
    hide WorldOk, Do;
    assert [step][0] == step;
    FlagStep(w, step, server, A);
    FlagStep(w, step, server, B);
    CompletesOne(w, step);
    if !Completes(w, step) {
      RemainingFalls(w, step, A);
      RemainingFalls(w, step, B);
    }
  }

  /** On one server every early resolution is justified. */
  lemma OneServerJustified(owner: ServerId, steps: seq<Step>, s: ServerId)
    requires ByOneServer(steps, s)
    requires Do(Run(Start(owner), steps), Check(s)).completed != Run(Start(owner), steps).completed
    ensures var r := Run(Start(owner), steps).room;
            && r.phase == Planning && r.pending == []
            && (forall side: Side :: r.used.Get(side) == MAX_UNITS || NodeMobile(r.nodes, side) == 0)
  {
    hide Run, Start, Do, NodeMobile;
    StartOk(owner);
    forall j: nat ensures !Elsewhere(Start(owner), steps, j, s) {
      OneServerAlone(Start(owner), steps, j, s);
    }
    EarlyResolutionJustified(owner, steps, s);
  }

  lemma OneServerAlone(w0: World, steps: seq<Step>, j: nat, s: ServerId)
    requires WorldOk(w0) && ByOneServer(steps, s)
    ensures !Elsewhere(w0, steps, j, s)
  {
    hide WorldOk, Do, Completes;
    if j < |steps| {
      RunOk(w0, steps[..j]);
      CompletesOne(At(w0, steps, j), steps[j]);
    }
  }
}
