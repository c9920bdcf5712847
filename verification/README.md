# HexWar: the game room, the sessions that drive it, and the matchmaking wire format

Two players reserve moves at the same time on a small map; a round is then resolved in one batch.
Any number of servers hold sessions over one stored room, which they load, change and save under a
lease-based lock. Browsers are matched by a queue and talk to the matchmaking service in gRPC-Web
frames of Protocol Buffers messages. This project states what that code does as functions on values,
proves properties of the functions, and ties the objects, arrays and loops of the code to them.

## The files

| file | what it holds |
|---|---|
| `Types.dfy`, `Node.dfy`, `Edge.dfy` | sides, identifiers and records; a node's owner function and its object; an edge's sorted list of travelling groups as a shift register, and its object |
| `RoomSpec.dfy` | the room as a value and every transition on it, with the code's error for every refused call |
| `RoomWellFormed.dfy`, `RoomLedger.dfy` | the structural invariant and totality; where every unit is before and after each operation |
| `EncounterInvariant.dfy` | pending encounters under the session's guard; the auto-retreat sweep |
| `Planning.dfy` | reservations of the two sides commute |
| `LostUnits.dfy` | which planning rooms lose a unit |
| `Announcements.dfy`, `RoundReport.dfy` | on fields and in numbers: who may do what, what every operation records and tells, how a game ends; what a round leaves at every node and on every edge and reports |
| `SessionWorld.dfy`, `Flags.dfy` | runs of any number of servers and the theorems about all of them; where the servers' completion flags come from |
| `Choices.dfy` | which steps the choices on record, and those the players are told, come from |
| `RoadRounds.dfy`, `Scenarios.dfy` | rounds with all traffic on one road; concrete runs that break the naive claims |
| `GameRoom.dfy`, `CircularBuffer.dfy`, `GameSession.dfy` | the room, ring buffer and session as objects updated in place, each method equal to the function on values |
| `Lock.dfy`, `LockedRuns.dfy` | the lock's state machine and its objects; the step from servers around a lock to a run |
| `Matchmaking.dfy` | the in-memory queue: one attempt, the object, all interleavings |
| `WireFormat.dfy`, `WireRoundTrip.dfy` | the wire form of the messages and the decoder as functions; round trips |
| `WireBytes.dfy` | the wire form written out in numbers, and what any tag, length or varint is read as |
| `WireWriter.dfy`, `WireReader.dfy` | the writer with its in-place length patches and the reader with its moving end, as objects |
| `Frames.dfy`, `Base64.dfy` | the resumable frame parser and the text form, section 4 of RFC 4648 |

`dafny verify dfyconfig.toml` checks all of it.

## How the layers meet

A method of `RoomObjects.GameRoom` works on node, edge and encounter objects; its contract says that
the room those objects show afterwards is the room the function of the same name in `Rooms` computes
from the one they showed before. A handler of `Sessions.GameSession` says the same of a step of
`SessionWorld`. The invariants and ledgers are proved of the functions, once, and so hold of the
objects.

A run takes actions to be atomic. `LockedRuns` says what that assumes. Servers store the room alone,
under the lock; completion flags live in each server's memory, change when an action acts, before it is
saved, and change without the lock when a notice comes. Two theorems lead back to runs:

- `LockedRuns.ServersAreARun`: with every save inside its lease, the stored room and its history are
  those of a run in which each action sees whatever flags it saw. So everything stated of all runs holds
  of them: `SessionWorld.Reachable`, `NoUnitCreated`, `ReachableGarrisons`, `ReachableEncounters`,
  `ReachableSweep`, `ExactlyOnceRounds`, `TimerResolvesOnlyItsRound`, `ResolutionPublishes` and
  `GameOverFinalIff`. What does not carry over are the theorems that ask for undisturbed flags,
  `FlagHistory.WrongIffStale`, `PrematureIffStale` and `EarlyResolutionJustified`:
  `LockedRuns.UnsavedFlagResolvesEarly` shows why.
- `LockedRuns.PromptServersAreARun`: if, besides, every action acts inside its lease and is saved before
  the lease ends, the room and all flags together are those of a plain run, and those theorems hold too.

A function and the method that computes it could be wrong in the same way. So the answers players and
programs get are stated a second time without them, on fields, sets of places and numbers:
`Announcements`, `RoundReport` and `ChoiceHistory` for the game, `Nodes.RecountIs` for a node,
`WireBytes` for messages, `Frames.WrittenOut` for frames and `Base64.EncodedCharacter` and
`Base64.CodeIs` for the text form.

## What turned out not to hold

These are properties of the code as it is. For each the exact condition is proved, in both directions
where it is one, and every run shown starts from a room as the code creates it.

- Travelling units are not always conserved. An arrival equal, as a record, to a blocked group is
  dropped. `RoomLedger.ConservedIffNothingMatches` and, on the planning room, `LostUnits.LosesUnitIff`
  say exactly when; `Scenarios.UnitLost` is a session that loses a unit in its second round.
- A retreat removes every group of the decider on the edge and restarts only the deciding one
  (`RoomLedger.EncounterLedger`).
- The room alone can create a unit (`Scenarios.UnguardedRoomCreatesUnits`), exactly when a retreating
  side has fewer units on the edge than its deciding group (`RoomLedger.EncounterLedger`); under the
  session's guard it never does (`SessionWorld.NoUnitCreated`).
- The decisions a sweep takes are never published, because a resolution clears the events before it
  (`SessionWorld.ResolutionPublishes`).
- On a supply line the owner is not always the majority (`Nodes.SupplyLineMajority`), and the order of
  arrivals can matter (`Nodes.SupplyLineOrderMatters`).
- `GameOver` is final exactly once both players have joined (`SessionWorld.GameOverFinalIff`);
  `SessionWorld.GameOverRevives` brings a finished room back.
- A completion flag can be stale, and a round then resolves early (`Scenarios.StaleFlagResolvesEarly`).
  `FlagHistory.StaleIff` says when a flag is stale and `FlagHistory.PrematureIffStale` when a round
  resolves early without cause; never on a server that hears of other servers' rounds in time
  (`FlagHistory.EarlyResolutionJustified`).
- A section that overruns its lease can lose an update (`LockProtocol.OverrunLosesUpdate`): none is lost
  exactly when no other save stands between a section's load and its save (`LockProtocol.CleanFolds`,
  `LockProtocol.FoldIffClean`).
- The matchmaking queue is not first come, first served: `Matchmaking.MatchedByPosition` says who is
  matched and `Matchmaking.FirstTwoMatchedIff` when it is the two who have waited longest.
- A base64 text without its padding loses a byte exactly when it leaves one letter over
  (`Base64.UnpaddedText`).
- Ending an abandoned game fails exactly when the game goes on and both players are gone, since nobody
  connected is found to have won (`Sessions.GameSession.ForceGameOver`).

`GAME_LOGIC.md` gives other numbers (50 units, 30 % loss, 40 rounds) than the code, and a rule for
losses that the code does not have; the code is followed.

## Conventions

- Dictionaries are sequences in insertion order, looked up by key, or sequences of objects where the
  code stores objects.
- Exceptions are the `Err` or `Some` case of a result, one constructor a throw site.
- Counts and rounds of the game are unbounded integers: an invariant keeps them between 0 and 20. The
  wire code's 32-bit arithmetic is written out: bit operations are arithmetic on values in range.
- `completed` and `published` of a world, the version of a section under the lock, and `layers` and
  `open` of the writer are history or proof state the code does not have.

## Model

| member | source | states |
|---|---|---|
| `HexTypes.EdgeIdIsUndirected` | src/HexWar.Domain/ValueObjects/EdgeId.cs:16-40 | two edge names are equal exactly when they join the same two nodes; the opposite node exists exactly for the two ends and undoes itself |
| `Nodes.OrdinaryBatchIsMajority` | src/HexWar.Domain/Entities/Node.cs:68-75 | after any batch of arrivals, in any order, an ordinary node belongs to the mobile majority |
| `Nodes.SupplyLineMajority` | src/HexWar.Domain/Entities/Node.cs:118-155 | on a supply line the owner is the mobile majority if and only if the previous owner's garrison did not break a tie or make up a one-unit deficit |
| `Nodes.SupplyLineOrderMatters` | src/HexWar.Domain/Entities/Node.cs:68-75 | for every supply line with the right garrisons and every two arrivals: the two orders leave the same node if and only if an explicit condition on the counts and the previous owner holds; only ends at most one unit apart can depend on the order |
| `Nodes.RecountKeepsCanonical` | src/HexWar.Domain/Entities/Node.cs:96-155 | a recount of a node with the right garrisons leaves it with the right garrisons and exactly the counts asked for |
| `Nodes.UnitGroup.AddMobile` | src/HexWar.Domain/ValueObjects/UnitGroup.cs:36-40 | refused exactly for negative counts, otherwise the mobile count grows by it |
| `Nodes.UnitGroup.RemoveMobile` | src/HexWar.Domain/ValueObjects/UnitGroup.cs:42-48 | refused exactly when more is asked for than there is |
| `Nodes.UnitGroup.SetGarrison` | src/HexWar.Domain/ValueObjects/UnitGroup.cs:50-53 | never negative |
| `Nodes.Node.ArriveMobileUnits` | src/HexWar.Domain/Entities/Node.cs:68-75 | refused for non-positive counts, otherwise one step of the owner function of (mobile A, mobile B, previous owner) |
| `Nodes.Node.DepartMobileUnits` | src/HexWar.Domain/Entities/Node.cs:78-93 | takes the requested count clamped to what stands there, refuses if that is nothing, then the same owner function |
| `Nodes.Node.UpdateOwnership` | src/HexWar.Domain/Entities/Node.cs:118-155 | the recount in place, on any owner, counts and garrisons: the majority of all units owns, a headquarters nobody, and only a supply line that changes hands has its garrisons set |
| `Nodes.RecountSettles` | src/HexWar.Domain/Entities/Node.cs:118-155 | where the garrisons are the owner's, the recount is the owner function of (mobile A, mobile B, previous owner) and the garrisons are right again |
| `Nodes.RecountIs` | src/HexWar.Domain/Entities/Node.cs:118-155 | on fields, for any node: neutral if and only if nobody stands there, a player's if and only if that side has more units, garrisons included, contested if and only if equal numbers do; which garrisons change |
| `Nodes.ArrivalIs` | src/HexWar.Domain/Entities/Node.cs:68-75 | on fields: the counts of both sides after an arrival, the owner that fits them with the garrisons found there, and the garrisons that owner gets |
| `Nodes.DepartureIs` | src/HexWar.Domain/Entities/Node.cs:78-93 | the same of a departure, which is put on record with the count that left |
| `Nodes.Node.ActivateSupplyLineIfNeeded` | src/HexWar.Domain/Entities/Node.cs:96-105 | only an owned supply line gets its one garrison unit |
| `Nodes.Node.DeactivateSupplyLine` | src/HexWar.Domain/Entities/Node.cs:108-116 | a supply line's garrison goes for every side that does not own it |
| `Nodes.Node.Station` | src/HexWar.Domain/Entities/GameRoom.cs:178-179 | starting units are placed and the node is owned outright, without a recount |
| `Nodes.Node.ClearDepartureHistory` | src/HexWar.Domain/Entities/Node.cs:158-161 | only the history changes |
| `Edges.EdgeRefinesShiftRegister` | src/HexWar.Domain/Entities/Edge.cs:52-97 | start, advance and removal on the sorted list are the matching operations of a shift register with one window a round; an advance hands out its first window in order; keys stay sorted within 1..distance |
| `Edges.WindowAfterRun` | src/HexWar.Domain/Entities/Edge.cs:52-97 | after any run of starts, advances and removals each window holds exactly, in order, the survivors of the window it was and of the groups started that many advances ago |
| `Edges.LeavesOnDthAdvance` | src/HexWar.Domain/Entities/Edge.cs:52-97 | for every distance d a group started and not removed is handed out by the d-th advance and has d - t rounds to go after t of them |
| `Edges.CountAdvance` | src/HexWar.Domain/Entities/Edge.cs:68-97 | an advance neither loses nor duplicates a unit |
| `Edges.CountPut` | src/HexWar.Domain/Entities/Edge.cs:52-65 | a start adds exactly its own units |
| `Edges.CountRemoved` | src/HexWar.Domain/Entities/Edge.cs:158-172 | a removal takes all of one side's units and none of the other's |
| `Edges.PutSplit` | src/HexWar.Domain/Entities/Edge.cs:58-64 | inserting at the located position of the sorted list is appending under the key |
| `Edges.Edge.StartTravel` | src/HexWar.Domain/Entities/Edge.cs:52-65 | the list after the insertion is the one the model starts a group on; order is kept |
| `Edges.Edge.AdvanceRound` | src/HexWar.Domain/Entities/Edge.cs:68-97 | the rebuilt list and the groups handed out, in order |
| `Edges.Edge.HasEncounter` | src/HexWar.Domain/Entities/Edge.cs:112-126 | true exactly when both sides have a group with that many rounds to go |
| `Edges.Edge.FindAllEncounters` | src/HexWar.Domain/Entities/Edge.cs:129-156 | one encounter, with the first group of each side, for every key at which both sides meet, in key order |
| `Edges.Edge.RemoveTravelingGroup` | src/HexWar.Domain/Entities/Edge.cs:158-172 | every group of the side goes, whatever its key |
| `RoomWellFormed.ExecMoveExact` | src/HexWar.Domain/Entities/GameRoom.Events.cs:75-91 | a reserved move never clamps and never throws: its count stands on the source node |
| `RoomWellFormed.DispatchOk` | src/HexWar.Domain/Entities/GameRoom.Events.cs:75-91 | all reserved moves of both sides execute in any well-formed room and keep the map well formed |
| `RoomWellFormed.LandOk` | src/HexWar.Domain/Entities/GameRoom.Events.cs:122-147 | no arrival throws; landing keeps node names, kinds and garrisons right |
| `RoomWellFormed.InitialRoomWellFormed` | src/HexWar.Domain/Entities/GameRoom.cs:108-135 | the initial map satisfies the structural invariant |
| `RoomWellFormed.AddPlayerKeepsWellFormed` | src/HexWar.Domain/Entities/GameRoom.cs:159-192 | joining keeps the invariant |
| `RoomWellFormed.MoveUnitsKeepsWellFormed` | src/HexWar.Domain/Entities/GameRoom.Events.cs:237-272 | reservations stay positive, within three a side, along edges, and no node is overdrawn |
| `RoomWellFormed.ResolveEncounterOk` | src/HexWar.Domain/Entities/GameRoom.Events.cs:275-339 | a decision succeeds if and only if the room is planning, the encounter is pending and the side has not decided; it keeps the invariant |
| `RoomWellFormed.ResolveRoundOk` | src/HexWar.Domain/Entities/GameRoom.Events.cs:58-234 | a well-formed room resolves if and only if it is planning, and stays well formed in Planning or GameOver |
| `RoomWellFormed.ForceGameOverKeepsWellFormed` | src/HexWar.Domain/Entities/GameRoom.cs:342-351 | ending a game keeps the invariant |
| `RoomLedger.RoundConservation` | src/HexWar.Domain/Entities/GameRoom.Events.cs:58-147 | exact round ledger: a side's units on nodes and edges before equal those after plus the counts of exactly the arrivals equal to a blocked record |
| `RoomLedger.ConservedIffNothingMatches` | src/HexWar.Domain/Entities/GameRoom.Events.cs:122-147 | a resolution never adds units, and conserves a side's if and only if none of its arrivals equals a blocked record |
| `RoomLedger.ExecMovesLedger` | src/HexWar.Domain/Entities/GameRoom.Events.cs:75-91 | executing reservations moves units and changes no total |
| `RoomLedger.AdvanceLedger` | src/HexWar.Domain/Entities/GameRoom.cs:207-223 | advancing all edges splits the travellers into arrivals and those still under way |
| `RoomLedger.LandLedger` | src/HexWar.Domain/Entities/GameRoom.Events.cs:122-147 | landing adds every arrival to the nodes except the ones equal to a blocked record |
| `RoomLedger.MoveUnitsLedger` | src/HexWar.Domain/Entities/GameRoom.Events.cs:237-272 | a reservation moves no unit |
| `RoomLedger.AddPlayerLedger` | src/HexWar.Domain/Entities/GameRoom.cs:176-179 | joining brings exactly three units to the joining side |
| `RoomLedger.EncounterLedger` | src/HexWar.Domain/Entities/GameRoom.Events.cs:275-339 | a retreat changes the decider's total by its deciding group's count minus everything it had on the edge; an advance and the other side change nothing |
| `EncounterInvariant.ReadyMeansNonePending` | src/HexWar.Domain/Entities/GameRoom.cs:305-317 | under the encounter invariant readiness means Planning with nothing pending |
| `EncounterInvariant.RetreatLookup` | src/HexWar.Domain/Entities/GameRoom.Events.cs:293-306 | after a retreat the decider stands on the edge as one group at full distance, the other side exactly as before |
| `EncounterInvariant.DecisionKeepsSessionOk` | src/HexWar.Domain/Entities/GameRoom.Events.cs:275-339 | a decision keeps: one encounter an edge, none decided by both, every undecided group still in place |
| `EncounterInvariant.ResolutionKeepsSessionOk` | src/HexWar.Domain/Entities/GameRoom.Events.cs:58-234 | a resolution that starts with nothing pending keeps the encounter invariant, reports no encounter resolved and never adds a unit |
| `EncounterInvariant.ResolutionShape` | src/HexWar.Domain/Entities/GameRoom.Events.cs:96-165 | what is pending after a resolution is what was pending plus exactly the encounters found on the advanced edges, all of them one round from their end |
| `EncounterInvariant.SweepStep` | src/HexWar.Application/Sessions/GameSession.cs:601-608 | each retreat of the sweep succeeds and leaves the rest of the snapshot undecided |
| `EncounterInvariant.SweepOk` | src/HexWar.Application/Sessions/GameSession.cs:600-610 | the auto-retreat loop over both sides raises nothing, ends with nothing pending and adds no unit |
| `EncounterInvariant.SweepEffect` | src/HexWar.Application/Sessions/GameSession.cs:600-610 | closed form of the whole sweep, edge by edge and side by side: a side that had not decided stands as its one retreating group, one that had decided stands as it stood |
| `Planning.RunsAlone` | src/HexWar.Domain/Entities/GameRoom.Events.cs:237-272 | in any interleaving a side's reservations are accepted or refused as if it planned alone |
| `Planning.SimultaneousPlanning` | src/HexWar.Domain/Entities/GameRoom.Events.cs:237-272 | two interleavings with the same order per side give every command the same verdict, reach the same room up to event order, and resolve to the same room |
| `Planning.ResolutionIgnoresEvents` | src/HexWar.Domain/Entities/GameRoom.Events.cs:58-234 | what was announced before does not influence a resolution |
| `SessionWorld.StartOk` | src/HexWar.Application/Sessions/SessionRegistry.cs:43-45 | the world a registry creates satisfies the run invariant |
| `SessionWorld.StepOk` | src/HexWar.Application/Sessions/GameSession.cs:123-190 | every step of every server keeps the run invariant |
| `SessionWorld.Reachable` | src/HexWar.Application/Sessions/GameSession.cs:123-190 | the invariant holds after every run of joins, moves, decisions, checks, timeouts, takeovers, abandonments and remote rounds |
| `SessionWorld.NoUnitCreated` | src/HexWar.Application/Sessions/GameSession.cs:259-330 | in every run a side never has more mobile units on nodes and edges than it brought in, at most three |
| `SessionWorld.ReachableGarrisons` | src/HexWar.Domain/Entities/Node.cs:96-155 | in every run a supply line has garrison one for its owner and none otherwise, others none, headquarters neutral, no count negative |
| `SessionWorld.ReachableEncounters` | src/HexWar.Domain/Entities/GameRoom.Events.cs:96-165 | in every run: one pending encounter an edge, none decided by both, an undecided side's group still on that edge at that key; ready means nothing pending |
| `SessionWorld.ReachableSweep` | src/HexWar.Application/Sessions/GameSession.cs:592-613 | from every reachable planning room the sweep raises nothing, ends with nothing pending, and the round then resolves |
| `SessionWorld.ExactlyOnceRounds` | src/HexWar.Application/Sessions/GameSession.cs:592-643 | over any number of servers completed rounds are 1, 2, 3, … without repeat or gap, at most twenty, the twentieth ends the game, and no room rests in phase Resolution |
| `SessionWorld.TimerResolvesOnlyItsRound` | src/HexWar.Application/Sessions/GameSession.cs:592-643 | a timer armed for a round completes that round or changes nothing; a backup that completes it owns the room |
| `SessionWorld.ResolutionPublishes` | src/HexWar.Application/Sessions/GameSession.cs:516-526 | whichever step completes a round, an early check or either timeout on any server, publishes exactly the round and its successor, reports no resolved encounter, and never the decisions a sweep took |
| `SessionWorld.GameOverAbsorbs` | src/HexWar.Domain/Entities/GameRoom.Events.cs:206-225 | with both players joined a finished game never changes again |
| `SessionWorld.GameOverFinalIff` | src/HexWar.Domain/Entities/GameRoom.cs:159-192 | a finished room stays as it is through every run if and only if both players have joined; otherwise a join with a fresh name changes it |
| `SessionWorld.GameOverRevives` | src/HexWar.Domain/Entities/GameRoom.cs:159-192 | the run that brings an ended room back to Planning: the first player leaves, B, which counts as connected, is made the winner, and a second player joins |
| `FlagHistory.FlagStep` | src/HexWar.Application/Sessions/GameSession.cs:280-280 | what each step of any server does to a completion flag: a move accepted there sets it to whether the units are used up, a round completed there or a notice lowers it, nothing else touches it |
| `FlagHistory.FlagOrigin` | src/HexWar.Application/Sessions/GameSession.cs:280-280 | in every run a flag is up if and only if some step raised it and none has written it since |
| `FlagHistory.StaleIff` | src/HexWar.Application/Sessions/GameSession.cs:741-781 | in every run of any servers: the flag that is up was raised in a round now over if and only if, since the move that raised it on that server, a round was completed elsewhere and there was neither a move of that side accepted nor a round completed nor a notice there |
| `FlagHistory.WrongIffStale` | src/HexWar.Application/Sessions/GameSession.cs:871-880 | a flag claims wrongly that a side has no units left if and only if it is stale and the side has units left |
| `FlagHistory.PrematureIffStale` | src/HexWar.Application/Sessions/GameSession.cs:497-514 | a check resolves a round although a side still has units to move if and only if the room plans with nothing pending, every side is done or has a stale flag on that server, and one is not done |
| `FlagHistory.FlagsStayTrue` | src/HexWar.Application/Sessions/GameSession.cs:280-280 | on one server a set completion flag means the side has no unit left to commit |
| `FlagHistory.EarlyResolutionJustified` | src/HexWar.Application/Sessions/GameSession.cs:497-514 | on any number of servers: if a server hears of every round completed elsewhere before it checks, its check resolves only when nothing is pending and each side has used all three units or has none standing on a node |
| `FlagHistory.OneServerJustified` | src/HexWar.Application/Sessions/GameSession.cs:497-514 | the same on one server, with no condition |
| `SessionWorld.ConquerorWins` | src/HexWar.Domain/Entities/GameRoom.Events.cs:206-225 | the side owning every node outside headquarters at a resolution wins the game there |
| `LostUnits.DispatchWindow` | src/HexWar.Domain/Entities/GameRoom.Events.cs:75-91 | who stands on an edge at every number of rounds to go once the reserved moves are under way: the travelling groups, then A's and B's reserved ones in order at full distance |
| `LostUnits.LosesUnitIff` | src/HexWar.Domain/Entities/GameRoom.Events.cs:93-147 | read off the planning room alone: a resolution loses units of a side if and only if on some edge, two or more rounds from its end, both sides will stand together and the side's first group there equals one of its groups that arrives |
| `Scenarios.UnitLost` | src/HexWar.Domain/Entities/GameRoom.Events.cs:122-147 | a run of a session on the initial map in which a round loses a unit: an arrival looks like a blocked group |
| `Scenarios.UnguardedRoomCreatesUnits` | src/HexWar.Domain/Entities/GameRoom.Events.cs:58-339 | in a room a session reaches on the initial map, resolving over the undecided encounter and then retreating creates a unit; only the session's guard prevents it |
| `Scenarios.StaleFlagResolvesEarly` | src/HexWar.Application/Sessions/GameSession.cs:497-514 | a run of two servers on the initial map that makes a flag stale, and then resolves a round early although a side has used nothing and has three units standing |
| `RoomObjects.PendingEncounter.MarkDecided` | src/HexWar.Domain/Entities/GameResults.cs:77-89 | exactly the decision and the outcome given are entered for the one side; nothing of the other's changes |
| `RoomObjects.GameRoom.constructor` | src/HexWar.Domain/Entities/GameRoom.cs:99-103 | an empty room waiting for players |
| `RoomObjects.GameRoom.CreateNode` | src/HexWar.Domain/Entities/GameRoom.cs:137-146 | refused exactly for a name in use; the room is otherwise the old one with one neutral node more |
| `RoomObjects.GameRoom.CreateEdge` | src/HexWar.Domain/Entities/GameRoom.cs:148-156 | stored under its name, replacing an edge of that name; fails, with the edge stored, exactly when an end node is missing |
| `RoomObjects.GameRoom.InitializeMap` | src/HexWar.Domain/Entities/GameRoom.cs:108-135 | the six nodes and twelve edges of the initial map, in order |
| `RoomObjects.GameRoom.AddPlayer` | src/HexWar.Domain/Entities/GameRoom.cs:159-192 | the joining side and the room equal the model's, or the model's error with the room untouched unless the start node is missing |
| `RoomObjects.GameRoom.MoveUnits` | src/HexWar.Domain/Entities/GameRoom.Events.cs:237-272 | the room equals the model's reservation, or the model's error and nothing changed; the count reserved |
| `RoomObjects.GameRoom.ResolveEncounter` | src/HexWar.Domain/Entities/GameRoom.Events.cs:275-339 | the room of node, edge and encounter objects after the call equals the model's, or the model's error and nothing changed; and on fields: the choice entered, the outcome, the events raised and the list afterwards |
| `RoomObjects.GameRoom.CarryOut` | src/HexWar.Domain/Entities/GameRoom.Events.cs:288-318 | what a decision does to the edge object and its outcome |
| `RoomObjects.GameRoom.Settle` | src/HexWar.Domain/Entities/GameRoom.Events.cs:320-338 | the encounter is marked in place and leaves the list exactly when both have decided |
| `RoomObjects.GameRoom.ExecuteMove` | src/HexWar.Domain/Entities/GameRoom.Events.cs:80-89 | one departure and one start on the objects equal one step on the board |
| `RoomObjects.GameRoom.DispatchMoves` | src/HexWar.Domain/Entities/GameRoom.Events.cs:75-91 | the loops over both sides equal the model's dispatch, errors included |
| `RoomObjects.GameRoom.ProcessAllEdgeAdvances` | src/HexWar.Domain/Entities/GameRoom.cs:207-223 | every edge object advanced once; the arrivals in edge order |
| `RoomObjects.GameRoom.FindAllEncounters` | src/HexWar.Domain/Entities/GameRoom.cs:225-230 | the encounters of all edges in order |
| `RoomObjects.GameRoom.GetBlockedUnits` | src/HexWar.Domain/Entities/GameRoom.cs:232-243 | both groups of every encounter as arrival records |
| `RoomObjects.GameRoom.LandArrival` | src/HexWar.Domain/Entities/GameRoom.Events.cs:125-146 | dropped exactly when the record equals a blocked one; otherwise landed, recorded, and an ownership change reported exactly when there was one |
| `RoomObjects.GameRoom.LandArrivals` | src/HexWar.Domain/Entities/GameRoom.Events.cs:125-147 | the loop equals the model's landing, errors included |
| `RoomObjects.GameRoom.AdvanceAndLand` | src/HexWar.Domain/Entities/GameRoom.Events.cs:93-147 | advance, encounters, registration and landing together equal the model's |
| `RoomObjects.GameRoom.Conclude` | src/HexWar.Domain/Entities/GameRoom.Events.cs:149-231 | clean-up, the round event, the next round or the end of the game equal the model's |
| `RoomObjects.GameRoom.ResolveRound` | src/HexWar.Domain/Entities/GameRoom.Events.cs:58-234 | the heap of node, edge and encounter objects after the whole method equals the model's resolved room; a failure is the model's failure |
| `RoomObjects.GameRoom.CheckGameOver` | src/HexWar.Domain/Entities/GameRoom.cs:249-256 | true exactly when one player owns every node outside headquarters |
| `RoomObjects.GameRoom.GetWinner` | src/HexWar.Domain/Entities/GameRoom.cs:258-266 | the side that owns more nodes, counted as sets of places, nobody on a tie; the scores are the sizes of the two sets, each on its own side |
| `RoomObjects.GameRoom.QueriesAgree` | src/HexWar.Domain/Entities/GameRoom.cs:305-322 | readiness, undecided encounters, remaining units and mobile sums of the objects are those of the room as a value |
| `RoomObjects.GameRoom.ForceGameOver` | src/HexWar.Domain/Entities/GameRoom.cs:342-351 | the room ends with the given winner and the node counts as scores |
| `RoomObjects.GameRoom.FlushDomainEvents` | src/HexWar.Domain/Entities/GameRoom.cs:332-337 | hands out all pending events once and clears them |
| `Announcements.EndsIff` | src/HexWar.Domain/Entities/GameRoom.Events.cs:206-231 | a round ends the game if and only if it was the twentieth or one player owns every node outside headquarters |
| `Announcements.EndTells` | src/HexWar.Domain/Entities/GameRoom.Events.cs:206-231 | whenever a round ends the game, the winner told is A if and only if more places belong to A, B if and only if more belong to B, nobody if and only if as many; the scores are the two numbers of places; twenty rounds outweigh a conquest as the reason; otherwise the next round is told |
| `Announcements.WinnerHoldsMore` | src/HexWar.Domain/Entities/GameRoom.cs:258-266 | winner and scores, over the sets of places each side owns |
| `Announcements.ForcedEndTells` | src/HexWar.Domain/Entities/GameRoom.cs:342-351 | a game ended from outside tells the winner and the reason given, and the numbers of places as they stand |
| `Announcements.JoinVerdict` | src/HexWar.Domain/Entities/GameRoom.cs:159-169 | who is refused for a full room, who for being in it already, who may join |
| `Announcements.JoinTells` | src/HexWar.Domain/Entities/GameRoom.cs:171-191 | the first to join becomes A with three units on node 1, which A then owns, the second B on node 5; then, and only then, the game starts and is told with A's name before B's |
| `Announcements.MoveVerdict` | src/HexWar.Domain/Entities/GameRoom.Events.cs:237-262 | which order is refused and why, the first reason that applies, on fields |
| `Announcements.MoveTells` | src/HexWar.Domain/Entities/GameRoom.Events.cs:264-271 | an accepted order reserves the count asked for cut to what the side has left of three, behind its earlier ones, tells that count, and changes nothing else |
| `Announcements.DecisionVerdict` | src/HexWar.Domain/Entities/GameRoom.Events.cs:277-289 | which decision is refused and why, on fields |
| `Announcements.DecisionTells` | src/HexWar.Domain/Entities/GameRoom.Events.cs:288-338 | every accepted decision, on fields: the decider's entry is the decision taken and the other side's is untouched; the outcome is the own destination and the encounter's rounds on an advance, the opposite end and the edge's distance on a retreat; a retreat or advance is told as what it was, then the decision, then, if it was the second, the encounter with both choices and outcomes; no other encounter or edge changes |
| `Announcements.RoundTellsMoves` | src/HexWar.Domain/Entities/GameRoom.Events.cs:75-91 | the round event lists the orders of A and then of B, each as it was reserved |
| `Announcements.RoundTellsLanding` | src/HexWar.Domain/Entities/GameRoom.Events.cs:122-147 | it lists exactly the arrivals that were not blocked, in order, and for each node a chain of changes from the owner it had to the owner it has |
| `Announcements.InitialMapIs` | src/HexWar.Domain/Entities/GameRoom.cs:108-135 | kinds, names and units of the six nodes; which two are joined and by how long a road, in numbers |
| `ChoiceHistory.DecisionRecords` | src/HexWar.Domain/Entities/GameRoom.Events.cs:320-338 | an accepted decision puts the choice on record for its side, unless it ends the encounter, and touches no other record |
| `ChoiceHistory.ChoiceGiven` | src/HexWar.Domain/Entities/GameRoom.Events.cs:320-326 | over all runs: a choice is on record if and only if an accepted decision of that side gave it and it has stood ever since |
| `ChoiceHistory.DecisionPublishes` | src/HexWar.Application/Sessions/GameSession.cs:313-325 | what an accepted decision publishes; the encounter is told as resolved exactly if the other side's choice is on record, with both choices, each on its own side |
| `ChoiceHistory.ToldAsGiven` | src/HexWar.Domain/Entities/GameRoom.Events.cs:328-338 | over all runs: whenever an encounter is told as resolved, its two choices are those that two accepted decisions, one of each side, gave, the first of them on record until the second came |
| `ChoiceHistory.AbandonTells` | src/HexWar.Application/Sessions/GameSession.cs:670-689 | an abandoned game is told as won by the player named for a disconnection, unless it was over |
| `RoundReport.NodeLedger` | src/HexWar.Domain/Entities/GameRoom.Events.cs:75-147 | for every node and side: the units after a round are those before, less what was ordered away, plus the arrivals the round event reports there |
| `RoundReport.EdgeLedger` | src/HexWar.Domain/Entities/GameRoom.cs:207-223 | for every edge and every number of rounds to go: who stands there after a round is who stood one round farther, with the orders of the round behind them, A's first |
| `RoundReport.RoundTellsEncounters` | src/HexWar.Domain/Entities/Edge.cs:129-156 | the round event reports an encounter if and only if both sides stand as far from the end of an edge after everybody has moved on, with the first group of either |
| `RoundReport.RoundTellsPending` | src/HexWar.Domain/Entities/GameRoom.Events.cs:100-165 | encounters come edge by edge and nearest first; what is pending afterwards is what was, and each one found with nothing decided; reported as resolved are exactly those both sides have decided |
| `RoundReport.LandVerdict` | src/HexWar.Domain/Entities/GameRoom.Events.cs:125-132 | whether an arrival is dropped, lands or fails, and why |
| `RoundReport.PutEdgeIs` | src/HexWar.Domain/Entities/GameRoom.cs:148-151 | a second edge between two nodes takes the first one's place, any other joins the end |
| `RoundReport.NewRoomIs` | src/HexWar.Domain/Entities/GameRoom.cs:99-103 | every field of a room before anybody has joined |
| `RingBuffers.AddAllIsLast` | src/HexWar.Application/Sessions/CircularBuffer.cs:29-39 | after any number of additions the buffer is exactly the last capacity items, in order |
| `RingBuffers.Pushed` | src/HexWar.Application/Sessions/CircularBuffer.cs:29-39 | writing the head slot drops the oldest item exactly when the array is full |
| `RingBuffers.CircularBuffer.Add` | src/HexWar.Application/Sessions/CircularBuffer.cs:29-39 | the contents become the last capacity items of the old contents and the new item |
| `RingBuffers.CircularBuffer.SlotOf` | src/HexWar.Application/Sessions/CircularBuffer.cs:49-55 | the i-th oldest item is in the slot the loop computes |
| `RingBuffers.CircularBuffer.Where` | src/HexWar.Application/Sessions/CircularBuffer.cs:42-59 | exactly the matching items, oldest first |
| `RingBuffers.CircularBuffer.Items` | src/HexWar.Application/Sessions/CircularBuffer.cs:63-73 | all items, oldest first |
| `RingBuffers.CircularBuffer.Dispose` | src/HexWar.Application/Sessions/CircularBuffer.cs:79-87 | empty and every slot blank |
| `Sessions.WindowAfter` | src/HexWar.Application/Sessions/GameSession.cs:712-718 | what a reconnecting client is sent is ascending, and is exactly the events after the one it saw if and only if the gap is at most 200; otherwise exactly the last 200 |
| `Sessions.GameSession.GetEventsAfter` | src/HexWar.Application/Sessions/GameSession.cs:712-718 | the tail of the published events that the window still holds |
| `Sessions.PlayerSessionState.ResetForNewRound` | src/HexWar.Application/Sessions/PlayerSessionState.cs:26-31 | both flags down |
| `Sessions.GameSession.SyncMetadata` | src/HexWar.Application/Sessions/GameSession.cs:196-203 | the session's copies of phase, round, maximum, players and owner agree with the room |
| `Sessions.GameSession.PublishAndBroadcastEvents` | src/HexWar.Application/Sessions/GameSession.cs:692-709 | the room's events are numbered consecutively, buffered and taken off the room |
| `Sessions.GameSession.ReadyAgrees` | src/HexWar.Application/Sessions/GameSession.cs:501-506 | the session's readiness test on its objects is the model's |
| `Sessions.GameSession.ResolveRound` | src/HexWar.Application/Sessions/GameSession.cs:516-542 | room, events, completed rounds and flags after a resolution |
| `Sessions.GameSession.CheckAndResolveIfReady` | src/HexWar.Application/Sessions/GameSession.cs:497-514 | the session and room objects take exactly the check step of the world |
| `Sessions.GameSession.HandleMoveUnits` | src/HexWar.Application/Sessions/GameSession.cs:259-299 | not connected, refused with the model's error and nothing changed, or the move step followed by the check step; a player whose order is taken is told the count it reserves: what was asked for, cut to what the side has left, at least one |
| `Sessions.OrderIsMove` | src/HexWar.Application/Sessions/GameSession.cs:266-285 | the session's own tests and clamp never change what the room says to an order |
| `Sessions.GameSession.HandleEncounterDecision` | src/HexWar.Application/Sessions/GameSession.cs:301-330 | the same for a decision; a player whose decision is taken is told that the encounter is over exactly if the other side had chosen before |
| `Sessions.GameSession.RetreatUndecided` | src/HexWar.Application/Sessions/GameSession.cs:601-608 | the loop over one side's undecided encounters succeeds and equals one pass of the sweep |
| `Sessions.GameSession.OnPlanningTimeout` | src/HexWar.Application/Sessions/GameSession.cs:592-613 | the objects take exactly the primary timeout step and the invariant holds after it |
| `Sessions.GameSession.OnBackupPlanningTimeout` | src/HexWar.Application/Sessions/GameSession.cs:615-643 | the objects take exactly the takeover step and the invariant holds after it |
| `Sessions.GameSession.AddPlayer` | src/HexWar.Application/Sessions/GameSession.cs:208-217 | the objects take exactly the join step; it is refused only for a full room or a name already in it |
| `Sessions.GameSession.ForceGameOver` | src/HexWar.Application/Sessions/GameSession.cs:670-689 | the connected player wins, A before B; it fails exactly when the game goes on and nobody is connected |
| `Sessions.OpenSession` | src/HexWar.Application/Sessions/SessionRegistry.cs:43-53 | a new session's world is the start of every run and satisfies the invariant |
| `LockProtocol.NoLostUpdate` | src/HexWar.Application/Sessions/GameSession.cs:129-160 | if every save is inside its lease, every save is clean and the store is the fold of the saved actions, at most one a lock, in lock order, under any interleaving, failure, crash or expiry |
| `LockProtocol.CleanFolds` | src/HexWar.Application/Sessions/GameSession.cs:129-160 | whatever is stored and whatever actions do: if no other save stands between a section's load and its save, the store is the fold of the saved actions |
| `LockProtocol.FoldIffClean` | src/HexWar.Application/Sessions/GameSession.cs:129-160 | and only then: with the action that remembers every action, the store is the fold of the saved ones if and only if every save is clean |
| `LockProtocol.OnlyOwnerOrExpiry` | src/HexWar.Infrastructure/Messaging/RedisDistributedLock.cs:23-28 | a held key is only ever deleted by its own holder's release or by its expiry; a late release deletes nobody else's |
| `LockProtocol.LeaseLasts` | src/HexWar.Infrastructure/Messaging/RedisDistributedLock.cs:54-61 | a lock taken is held for exactly its lease |
| `LockProtocol.HappenOk` | src/HexWar.Application/Sessions/GameSession.cs:129-160 | the invariant behind it: ids unique, nobody has saved since the holder loaded, saves in lock order; a save in its lease is clean |
| `LockProtocol.OverrunLosesUpdate` | src/HexWar.Infrastructure/Messaging/RedisDistributedLock.cs:54-64 | a run in which a section overruns its lease and an update is lost |
| `LockProtocol.LockKey.SetIfAbsent` | src/HexWar.Infrastructure/Messaging/RedisDistributedLock.cs:54-61 | the key is taken exactly when it was free |
| `LockProtocol.LockKey.DeleteIfHeldBy` | src/HexWar.Infrastructure/Messaging/RedisDistributedLock.cs:23-28 | the key goes exactly when it holds the caller's id |
| `LockProtocol.LockHandle.Dispose` | src/HexWar.Infrastructure/Messaging/RedisDistributedLock.cs:106-133 | releases once, and only its own lock |
| `LockProtocol.PatienceKept` | src/HexWar.Infrastructure/Messaging/RedisDistributedLock.cs:50-76 | however long attempts take: none starts after the deadline, the last one ends no earlier, and the next begins 50 ms after a failed one, or at the deadline where that comes first |
| `LockProtocol.RetryUntil` | src/HexWar.Infrastructure/Messaging/RedisDistributedLock.cs:50-76 | succeeds at the first of its attempts that finds the key free and gives up only if none does |
| `LockedRuns.ServersAreARun` | src/HexWar.Application/Sessions/GameSession.cs:123-190 | the lock protects the stored room alone and flags change outside it: if every save is inside its lease, the stored room, rounds and events are those of one run of whole actions in lock order, each seeing the flags it saw, so every theorem over all runs holds of them |
| `LockedRuns.PromptServersAreARun` | src/HexWar.Application/Sessions/GameSession.cs:275-282 | if moreover every action is carried out in its lease and saved before the lease ends, room and flags together are those of the run of the actions and notices as they came, so the theorems about flags hold too |
| `LockedRuns.UnsavedFlagResolvesEarly` | src/HexWar.Application/Sessions/GameSession.cs:275-282 | on one server, an order that fails after it raised its flag reserves nothing and lets a round resolve early |
| `Matchmaking.MatchIffTwoLive` | src/HexWar.Matchmaking/Services/MatchmakingQueue.cs:196-222 | an attempt matches if and only if two live players wait, matches two live ones, and leaves at most one player when it finds none |
| `Matchmaking.LivePlayersKept` | src/HexWar.Matchmaking/Services/MatchmakingQueue.cs:196-222 | every live player is afterwards waiting or in the match, as often as before |
| `Matchmaking.MatchedByPosition` | src/HexWar.Matchmaking/Services/MatchmakingQueue.cs:196-222 | which two players an attempt matches and what it leaves, for every queue and every set of cancellations: by position, the parity of the queue and whether its last player is live |
| `Matchmaking.FirstTwoMatchedIff` | src/HexWar.Matchmaking/Services/MatchmakingQueue.cs:204-216 | the two live players who have waited longest are matched if and only if nobody else is live, or the first pair dequeued together has no live player before it, or there is no such pair and the queue is even |
| `Matchmaking.NobodyLostOrMatchedTwice` | src/HexWar.Matchmaking/Services/MatchmakingQueue.cs:71-75 | over all interleavings of enqueues, cancellations and attempts no live player is lost, nobody is matched twice, and the queue is at most one longer than the attempts due |
| `Matchmaking.AttemptTerminates` | src/HexWar.Matchmaking/Services/MatchmakingQueue.cs:196-222 | every operation of an attempt uses up a measure only an enqueue can renew |
| `Matchmaking.UninterruptedAttempt` | src/HexWar.Matchmaking/Services/MatchmakingQueue.cs:196-222 | the operation-by-operation attempt, undisturbed, computes the attempt function |
| `Matchmaking.MatchmakingQueue.Enqueue` | src/HexWar.Matchmaking/Services/MatchmakingQueue.cs:71-75 | queue and match after enqueueing are the attempt function's |
| `Matchmaking.MatchmakingQueue.TryMatchInMemory` | src/HexWar.Matchmaking/Services/MatchmakingQueue.cs:196-222 | the recursive method over the queue in place computes the attempt function |
| `WireFormat.SignedRoundTrip` | src/HexWar.Client/wwwroot/js/generated/matchmaking_bundle.js:4807-4813 | every 32-bit number written as a varint reads back, whatever follows it, and negative ones take ten bytes |
| `WireFormat.UnsignedRoundTrip` | src/HexWar.Client/wwwroot/js/generated/matchmaking_bundle.js:4814-4816 | every unsigned 32-bit number reads back |
| `WireFormat.VarintReads` | src/HexWar.Client/wwwroot/js/generated/matchmaking_bundle.js:6094-6098 | the groups of a varint sum to the number and end where it ends |
| `WireFormat.SignBytesRead` | src/HexWar.Client/wwwroot/js/generated/matchmaking_bundle.js:6099-6107 | the sign-extended bytes of a negative number hold it modulo the groups read |
| `WireRoundTrip.ResultRoundTrip` | src/HexWar.Client/wwwroot/js/generated/matchmaking_bundle.js:7599-7676 | a match result reads back |
| `WireRoundTrip.ResultReads` | src/HexWar.Client/wwwroot/js/generated/matchmaking_bundle.js:5270-5279 | a message standing anywhere in the bytes reads back up to exactly its end |
| `WireRoundTrip.UpdateRoundTrip` | src/HexWar.Client/wwwroot/js/generated/matchmaking_bundle.js:7458-7534 | every update, nested result and negative numbers included, reads back as itself |
| `WireRoundTrip.RoomReads` | src/HexWar.Client/wwwroot/js/generated/matchmaking_bundle.js:7800-7891 | a room standing anywhere in the bytes reads back up to exactly its end |
| `WireRoundTrip.RoomsRoundTrip` | src/HexWar.Client/wwwroot/js/generated/matchmaking_bundle.js:8025-8059 | every list of rooms reads back, in order |
| `WireRoundTrip.DelimitedRead` | src/HexWar.Client/wwwroot/js/generated/matchmaking_bundle.js:5131-5142 | a delimited field gives its tag, then its body as a string or as a submessage that ends where it ends |
| `WireRoundTrip.Int32Read` | src/HexWar.Client/wwwroot/js/generated/matchmaking_bundle.js:5297-5300 | a number field gives its tag, then its number |
| `WireBytes.VarintIs` | src/HexWar.Client/wwwroot/js/generated/matchmaking_bundle.js:6094-6098 | a varint is the number in base 128, lowest digit first, in no more bytes than needed, with the top bit on all but the last |
| `WireBytes.NegativeIs` | src/HexWar.Client/wwwroot/js/generated/matchmaking_bundle.js:6099-6107 | a negative number is written as the 64-bit number congruent to it |
| `WireBytes.ResultWire` | src/HexWar.Client/wwwroot/js/generated/matchmaking_bundle.js:7646-7676 | the wire form of a match result in numbers: tags 10, 18, 26 and 34, lengths and bytes, empty strings left out |
| `WireBytes.UpdateWire` | src/HexWar.Client/wwwroot/js/generated/matchmaking_bundle.js:7503-7534 | the wire form of an update in numbers: tags 8, 18, 24 and 32, zeros left out |
| `WireBytes.RoomWire` | src/HexWar.Client/wwwroot/js/generated/matchmaking_bundle.js:7854-7891 | the wire form of a room in numbers: tags 10, 18, 24, 32 and 42 |
| `WireBytes.RoomsWire` | src/HexWar.Client/wwwroot/js/generated/matchmaking_bundle.js:8049-8059 | the wire form of a list of rooms in numbers: tag 10 and a length each |
| `WireBytes.ShortestUpdate` | src/HexWar.Client/wwwroot/js/generated/matchmaking_bundle.js:7498-7534 | the update with status 1 is [8, 1], both ways |
| `WireBytes.NumberRead` | src/HexWar.Client/wwwroot/js/generated/matchmaking_bundle.js:4807-4816 | what a varint of up to ten bytes is read as: the 32-bit number congruent to its first five digits; refused exactly if it ends beyond the message |
| `WireBytes.NumberTooLong` | src/HexWar.Client/wwwroot/js/generated/matchmaking_bundle.js:4807-4813 | more than ten bytes are refused as no varint |
| `WireBytes.NumberCutOff` | src/HexWar.Client/wwwroot/js/generated/matchmaking_bundle.js:4807-4813 | a varint cut off by the end of the bytes is refused as reaching too far |
| `WireBytes.TagRead` | src/HexWar.Client/wwwroot/js/generated/matchmaking_bundle.js:5131-5142 | a tag byte is field number times eight plus wire type; types 6 and 7 and field number 0 are refused |
| `WireBytes.WireTypesTaken` | src/HexWar.Client/wwwroot/js/generated/matchmaking_bundle.js:5297-5300 | numbers are read from wire type 0 only, strings and messages from 2 only, and the error for a length that does not fit differs between the two |
| `WireBytes.SkipAmounts` | src/HexWar.Client/wwwroot/js/generated/matchmaking_bundle.js:5187-5207 | how much of an unknown field is passed over: a varint for type 0, eight bytes for 1, length and bytes for 2, a group for 3, four bytes for 5; 4 is refused |
| `WireBytes.GroupEnds` | src/HexWar.Client/wwwroot/js/generated/matchmaking_bundle.js:5176-5186 | a group ends at the first tag of type 4, which must carry its number |
| `WireBytes.UpdateTags` | src/HexWar.Client/wwwroot/js/generated/matchmaking_bundle.js:7458-7497 | a tag of type 4 ends the message there; an unknown field is passed over and changes nothing |
| `WireBytes.ResultTags` | src/HexWar.Client/wwwroot/js/generated/matchmaking_bundle.js:7599-7640 | the same of a match result |
| `WireBytes.RoomTags` | src/HexWar.Client/wwwroot/js/generated/matchmaking_bundle.js:7800-7848 | the same of a room |
| `WireBytes.RoomsTags` | src/HexWar.Client/wwwroot/js/generated/matchmaking_bundle.js:8025-8043 | the same of a list of rooms |
| `WireBytes.NestedMessage` | src/HexWar.Client/wwwroot/js/generated/matchmaking_bundle.js:5270-5279 | a nested message is refused exactly if it does not end where its length says |
| `WireWriter.LinkedPush` | src/HexWar.Client/wwwroot/js/generated/matchmaking_bundle.js:6285-6287 | pushing a block is writing text, whatever fields are open |
| `WireWriter.LinkedBegin` | src/HexWar.Client/wwwroot/js/generated/matchmaking_bundle.js:6292-6298 | a header block with its bookmark opens a layer of text |
| `WireWriter.LinkedEnd` | src/HexWar.Client/wwwroot/js/generated/matchmaking_bundle.js:6299-6305 | replacing a bookmark by a length closes the layer, blocks behind it untouched |
| `WireWriter.Block.PushVarint` | src/HexWar.Client/wwwroot/js/generated/matchmaking_bundle.js:6301-6304 | the loop pushes exactly the varint |
| `WireWriter.BinaryEncoder.WriteUnsignedVarint32` | src/HexWar.Client/wwwroot/js/generated/matchmaking_bundle.js:6094-6098 | exactly the varint is appended |
| `WireWriter.BinaryEncoder.WriteSignedVarint32` | src/HexWar.Client/wwwroot/js/generated/matchmaking_bundle.js:6099-6107 | exactly the signed varint is appended |
| `WireWriter.BinaryWriter.PushBlock` | src/HexWar.Client/wwwroot/js/generated/matchmaking_bundle.js:6285-6287 | empty blocks are skipped, others counted |
| `WireWriter.BinaryWriter.WriteInt32` | src/HexWar.Client/wwwroot/js/generated/matchmaking_bundle.js:6461-6463 | the text grows by the byte eight times the field number and the number |
| `WireWriter.BinaryWriter.WriteBytes` | src/HexWar.Client/wwwroot/js/generated/matchmaking_bundle.js:6547-6557 | the text grows by tag, length and bytes |
| `WireWriter.BinaryWriter.BeginDelimited` | src/HexWar.Client/wwwroot/js/generated/matchmaking_bundle.js:6292-6298 | the text grows by the tag and a new layer opens behind the marked block |
| `WireWriter.BinaryWriter.EndDelimited` | src/HexWar.Client/wwwroot/js/generated/matchmaking_bundle.js:6299-6305 | the length patched in, in the marked block, is that of everything written since, and the layers merge around it |
| `WireWriter.BinaryWriter.GetResultBuffer` | src/HexWar.Client/wwwroot/js/generated/matchmaking_bundle.js:6325-6337 | one array of the total length holding all blocks in order |
| `WireWriter.SerializeResult` | src/HexWar.Client/wwwroot/js/generated/matchmaking_bundle.js:7646-7676 | writes the message's wire form behind whatever was written before |
| `WireWriter.WriteResultMessage` | src/HexWar.Client/wwwroot/js/generated/matchmaking_bundle.js:6558-6563 | writes a nested message behind its back-patched length |
| `WireWriter.SerializeUpdate` | src/HexWar.Client/wwwroot/js/generated/matchmaking_bundle.js:7503-7534 | writes the message's wire form |
| `WireWriter.SerializeRoom` | src/HexWar.Client/wwwroot/js/generated/matchmaking_bundle.js:7854-7891 | writes the message's wire form |
| `WireWriter.SerializeRooms` | src/HexWar.Client/wwwroot/js/generated/matchmaking_bundle.js:8049-8059 | writes one delimited field a room, in order |
| `WireWriter.SerializeBinary` | src/HexWar.Client/wwwroot/js/generated/matchmaking_bundle.js:7498-7502 | the bytes are the wire form written out in numbers, which reads back as the message |
| `WireWriter.SerializeRoomsBinary` | src/HexWar.Client/wwwroot/js/generated/matchmaking_bundle.js:8044-8048 | the bytes are the wire form written out in numbers, which reads back as the rooms in order |
| `WireReader.BinaryDecoder.ReadSignedVarint32` | src/HexWar.Client/wwwroot/js/generated/matchmaking_bundle.js:4807-4813 | the unrolled reads, shifts and continuation checks give the groups' sum as a 32-bit number, or the error |
| `WireReader.BinaryDecoder.ReadUnsignedVarint32` | src/HexWar.Client/wwwroot/js/generated/matchmaking_bundle.js:4814-4816 | the same modulo 2^32 |
| `WireReader.BinaryDecoder.SkipVarint` | src/HexWar.Client/wwwroot/js/generated/matchmaking_bundle.js:4947-4956 | passes at most ten bytes |
| `WireReader.BinaryDecoder.ReadString` | src/HexWar.Client/wwwroot/js/generated/matchmaking_bundle.js:4960-4970 | the bytes, if they end within the message |
| `WireReader.BinaryReader.NextField` | src/HexWar.Client/wwwroot/js/generated/matchmaking_bundle.js:5131-5142 | tag, end of message, or the error for a bad wire type or field number |
| `WireReader.BinaryReader.SkipField` | src/HexWar.Client/wwwroot/js/generated/matchmaking_bundle.js:5187-5207 | where a field of any wire type ends |
| `WireReader.BinaryReader.SkipGroup` | src/HexWar.Client/wwwroot/js/generated/matchmaking_bundle.js:5176-5186 | where a group of any nesting ends |
| `WireReader.BinaryReader.EnterMessage` | src/HexWar.Client/wwwroot/js/generated/matchmaking_bundle.js:5270-5274 | the end is drawn in to the submessage's |
| `WireReader.BinaryReader.LeaveMessage` | src/HexWar.Client/wwwroot/js/generated/matchmaking_bundle.js:5275-5278 | refused exactly when the submessage was not used up |
| `WireReader.DeserializeResult` | src/HexWar.Client/wwwroot/js/generated/matchmaking_bundle.js:7599-7640 | the loop computes the decoding function on any bytes |
| `WireReader.DeserializeUpdate` | src/HexWar.Client/wwwroot/js/generated/matchmaking_bundle.js:7458-7497 | the loop computes the decoding function on any bytes |
| `WireReader.DeserializeBinary` | src/HexWar.Client/wwwroot/js/generated/matchmaking_bundle.js:7453-7457 | computes the decoding function, and reads every message back from its bytes as written out in numbers |
| `WireReader.DeserializeRoomsBinary` | src/HexWar.Client/wwwroot/js/generated/matchmaking_bundle.js:8020-8024 | computes the decoding function and undoes the serialiser |
| `WireReader.DeserializeRoom` | src/HexWar.Client/wwwroot/js/generated/matchmaking_bundle.js:7800-7848 | the loop computes the decoding function on any bytes |
| `WireReader.DeserializeRooms` | src/HexWar.Client/wwwroot/js/generated/matchmaking_bundle.js:8025-8043 | the loop computes the decoding function on any bytes |
| `Frames.ChunkingIrrelevant` | src/HexWar.Client/wwwroot/js/generated/matchmaking_bundle.js:189-235 | for any bytes and any cut into calls: the same frames in the same order, the same state after, and failure exactly when the whole fails |
| `Frames.FramesRoundTrip` | src/HexWar.Client/wwwroot/js/generated/matchmaking_bundle.js:189-235 | any sequence of valid frames cut into any chunks comes out as it went in |
| `Frames.FrameRead` | src/HexWar.Client/wwwroot/js/generated/matchmaking_bundle.js:190-210 | a frame at the head of the stream is completed, empty ones included, and the parser is at a header again |
| `Frames.HeaderAccepts` | src/HexWar.Client/wwwroot/js/generated/matchmaking_bundle.js:190-195 | at a header a byte is taken if and only if it is 0 or 128, and is then the kind |
| `Frames.WrittenOut` | src/HexWar.Client/wwwroot/js/generated/matchmaking_bundle.js:189-235 | a fresh parser given 0 or 128, four length bytes, highest first and the first below 128, and as many bytes as they say returns exactly that frame, trailer frames like data frames |
| `Frames.LengthRefused` | src/HexWar.Client/wwwroot/js/generated/matchmaking_bundle.js:196-200 | a length is refused, at its fourth byte, if and only if its first byte is 128 or more |
| `Frames.StaysBroken` | src/HexWar.Client/wwwroot/js/generated/matchmaking_bundle.js:212-216 | a broken parser refuses whatever comes |
| `Frames.FrameParser.HeaderByte` | src/HexWar.Client/wwwroot/js/generated/matchmaking_bundle.js:190-195 | a byte is taken exactly if it is 0 or 128, and becomes the kind of the frame; anything else breaks the stream |
| `Frames.FrameParser.LengthByte` | src/HexWar.Client/wwwroot/js/generated/matchmaking_bundle.js:196-200 | four bytes, highest first, in 32-bit arithmetic; an empty frame completes at once |
| `Frames.FrameParser.PayloadByte` | src/HexWar.Client/wwwroot/js/generated/matchmaking_bundle.js:201-210 | stored in the array; the last one completes the frame |
| `Frames.FrameParser.Parse` | src/HexWar.Client/wwwroot/js/generated/matchmaking_bundle.js:211-234 | one call over the resumable state computes one call of the model; a failing one keeps to itself exactly the frames completed before the byte it fails at |
| `Frames.FrameRequest` | src/HexWar.Client/wwwroot/js/generated/matchmaking_bundle.js:1284-1291 | kind, length cut to 32 bits and message, for messages of any length; the parser gives the message back where the length fits its own |
| `Base64.EncodeDecodes` | src/HexWar.Client/wwwroot/js/generated/matchmaking_bundle.js:1046-1062 | the text of any bytes decodes to those bytes |
| `Base64.EncodedSize` | src/HexWar.Client/wwwroot/js/generated/matchmaking_bundle.js:1037-1040 | the decoder makes exactly the room the bytes need |
| `Base64.EncodedCharacter` | src/HexWar.Client/wwwroot/js/generated/matchmaking_bundle.js:1292-1317 | every character of the text form is the entry of the 64-character alphabet, written out, at the six bits it stands for, or the padding sign where it stands for none |
| `Base64.CodeIs` | src/HexWar.Client/wwwroot/js/generated/matchmaking_bundle.js:1063-1075 | a character stands for v if and only if it is entry v of that alphabet, or - for 62 or _ for 63; = and . are padding, nothing else is anything |
| `Base64.NextCharacter` | src/HexWar.Client/wwwroot/js/generated/matchmaking_bundle.js:1047-1054 | the next code is that of the first character that is no white space; any other is refused by name |
| `Base64.QuadBytesAre` | src/HexWar.Client/wwwroot/js/generated/matchmaking_bundle.js:1056-1061 | four codes decode to the three bytes of the number they write in base 64 |
| `Base64.PaddedQuadBytesAre` | src/HexWar.Client/wwwroot/js/generated/matchmaking_bundle.js:1056-1061 | and what padding signs do in each of the four places |
| `Base64.PaddedRoom` | src/HexWar.Client/wwwroot/js/generated/matchmaking_bundle.js:1037-1040 | the room for whole quads: three bytes each, less one for each padding sign of either kind at the end |
| `Base64.UnpaddedText` | src/HexWar.Client/wwwroot/js/generated/matchmaking_bundle.js:1037-1062 | a text of letters without padding decodes to all its bytes if and only if it does not leave one letter over, whose byte finds no room |
| `Base64.TextRoundTrip` | src/HexWar.Client/wwwroot/js/generated/matchmaking_bundle.js:1037-1062 | encoding to text and decoding gives any bytes back |
| `Base64.EncodeCut` | src/HexWar.Client/wwwroot/js/generated/matchmaking_bundle.js:1292-1317 | a text cut between quads is two encodings |
| `Base64.TextPiecesJoin` | src/HexWar.Client/wwwroot/js/generated/matchmaking_bundle.js:1119-1124 | a response in any number of pieces cut at multiples of four characters, each decoded into its own room, gives the same bytes |
| `Base64.TextStreamRoundTrip` | src/HexWar.Client/wwwroot/js/generated/matchmaking_bundle.js:1119-1124 | frames sent as text and received in any such pieces, decoded piece by piece and fed to the parser, come out whole and in order |
| `Base64.TextFrameRoundTrip` | src/HexWar.Client/wwwroot/js/generated/matchmaking_bundle.js:1284-1317 | a message framed, sent as text, decoded and parsed in any chunks is the message |
| `Base64.EncodeText` | src/HexWar.Client/wwwroot/js/generated/matchmaking_bundle.js:1292-1317 | the loop and the padded tail compute the text, which decodes to the bytes; `Base64.EncodedCharacter` says which characters it has |
| `Base64.TakeCode` | src/HexWar.Client/wwwroot/js/generated/matchmaking_bundle.js:1047-1054 | the next character of the alphabet, white space passed over, others refused |
| `Base64.DecodeText` | src/HexWar.Client/wwwroot/js/generated/matchmaking_bundle.js:1037-1062 | the loop stores the decoded bytes, as far as there is room |

## Left out

- RoomObjects.GameRoom.ExecuteMove: after an error the objects are not described; no room of a run gets there.
- RoomObjects.GameRoom.DispatchMoves: nor after an error in one of its moves.
- RoomObjects.GameRoom.LandArrivals: nor after an error in one of its arrivals.
- RoomObjects.GameRoom.AdvanceAndLand: nor after an error in the landing.
- RoomObjects.GameRoom.ResolveRound: after an error inside the resolution the half-resolved room is not described; `RoomWellFormed.ResolveRoundOk` shows that no room of a run gets there.
- RoomObjects.GameRoom.AddPlayer: requires the start nodes, where present, to be outposts, as on every map the code draws; on a supply line or headquarters the direct assignment of the owner would leave a garrison unset.
- RoomObjects.GameRoom.InitializeMap: requires a room without nodes and edges, as in its only call; a second call would fail on the first node.
- RoomObjects.GameRoom.CreateEdge: the neighbour lists of nodes, which nothing in the game reads, are not kept.
- EncounterInvariant.ResolutionKeepsSessionOk: needs edges of distance at most two, as on the initial map; longer edges admit two encounters on one edge.
- LockProtocol.NoLostUpdate: assumes that a lock id is never issued twice and that the lock server expires a key exactly at its time; the assumption that saves fall inside their lease is shown to be needed.
- LockedRuns.ServersAreARun: events that an action publishes before it fails to save are not part of the history, which lists those of saved actions.
- Sessions.GameSession: one server with the in-memory repository, whose room object is the one the session works on; every handler is atomic, as under the session's semaphore.
- Sessions.GameSession.HandleMoveUnits: requires the run invariant, which `Sessions.OpenSession` establishes and every handler keeps; the same holds of the other handlers. The copies in a reply of what the player sent are left out.
- Sessions.GameSession.ForceGameOver: only the reason it is called with, a disconnected player.
- WireRoundTrip.UpdateRoundTrip: strings are byte sequences, so the UTF-8 polyfill is not modelled; encodings of 2^32 bytes or more, which the writer refuses, are excluded.
- WireRoundTrip.ResultRoundTrip: strings are byte sequences here too.
- WireRoundTrip.RoomsRoundTrip: strings are byte sequences here too.
- WireReader.BinaryDecoder.ReadString: gives the bytes of the string; their decoding as UTF-8 is not modelled.
- Frames.FramesRoundTrip: payloads of 2^31 bytes or more overflow the parser's length and are excluded; the parser's refusal of them is modelled.
- Frames.FrameParser.Parse: after a length beyond 31 bits the code's state is not the broken one but a payload without room; what later calls do then is not described.
- WireReader.BinaryReader.NextField: the assertion that the previous field was read re-reads its tag and restores the cursor; as it never fails after a read or a skip it is not modelled.
- Matchmaking.NobodyLostOrMatchedTwice: `DequeueAsync` empties and refills the queue in steps that others can interleave with, so players can get lost there; it and the Redis path are not part of the model.
- Wall-clock deadlines and timers: a timeout is a step that names the round it was armed for; deadlines in events are dropped.
- Redis, WebSocket, gRPC calls, logging and the serialisation of stored rooms: input and output; store and load are identities.
- Node snapshots in the round event, `EncounterDecisionReady`, `IsPlanningComplete` and the view builders: copies for display or fields nothing else reads.
- Event sequence numbers across servers: the code does not order them.
- The connection manager, client user interface, load tests and benchmarks.
