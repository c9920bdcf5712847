/** Value types shared by the whole game model: sides, owners, identifiers and the
    small records that move between a node, an edge and the room. */
module HexTypes {

  datatype Option<+T> = None | Some(value: T)

  datatype Result<+T, +E> = Ok(value: T) | Err(error: E)

  /** The exceptions the domain raises, one constructor per throw site. */
  datatype Error =
    | WrongPhase
    | AllUnitsMoved
    | NothingToCommit
    | NoPath
    | NotEnoughUnits
    | NoPendingEncounter
    | AlreadyDecided
    | NotOnEdge
    | NoMobileUnits
    | NonPositiveCount
    | KeyNotFound
    | DuplicateNode
    | RoomFull
    | AlreadyInRoom

  datatype Side = A | B {
    function Other(): Side {
      if this == A then B else A
    }
  }

  /** A dictionary that always holds exactly one entry for each side. */
  datatype PerSide<T> = PerSide(a: T, b: T) {
    function Get(s: Side): T {
      if s == A then a else b
    }

    function Set(s: Side, v: T): PerSide<T> {
      if s == A then PerSide(v, b) else PerSide(a, v)
    }
  }

  datatype Ownership = Neutral | PlayerA | PlayerB | Contested

  function OwnerOf(s: Side): Ownership {
    if s == A then PlayerA else PlayerB
  }

  datatype NodeKind = OutPost | Chokepoint | SupplyLine | Headquarters

  datatype Phase = WaitingForPlayers | Planning | Resolution | GameOver

  datatype Decision = Advance | Retreat

  type NodeId = int

  /** An undirected edge name; `MakeEdgeId` is the only way the code builds one. */
  datatype EdgeId = EdgeId(lo: NodeId, hi: NodeId) {
    predicate Touches(n: NodeId) {
      n == lo || n == hi
    }

    function Opposite(n: NodeId): Option<NodeId> {
      if n == lo then Some(hi) else if n == hi then Some(lo) else None
    }
  }

  function MakeEdgeId(from: NodeId, to: NodeId): EdgeId {
    if from < to then EdgeId(from, to) else EdgeId(to, from)
  }

  /** Naming an edge forgets the direction and nothing else, and the opposite node is
      defined exactly for the two endpoints, undoing itself. */
  lemma EdgeIdIsUndirected(x: NodeId, y: NodeId, u: NodeId, v: NodeId)
    ensures MakeEdgeId(x, y) == MakeEdgeId(u, v) <==> (x == u && y == v) || (x == v && y == u)
    ensures MakeEdgeId(x, y).Opposite(x) == Some(y)
    ensures MakeEdgeId(x, y).Opposite(u).Some? <==> u == x || u == y
    ensures MakeEdgeId(x, y).Opposite(u).Some? ==>
              MakeEdgeId(x, y).Opposite(MakeEdgeId(x, y).Opposite(u).value) == Some(u)
  {
  }

  datatype TravelingGroup = TravelingGroup(side: Side, unitCount: int, destination: NodeId)

  datatype ArrivalInfo = ArrivalInfo(destination: NodeId, side: Side, count: int, via: EdgeId)

  datatype EncounterInfo =
    EncounterInfo(edgeId: EdgeId, groupA: TravelingGroup, groupB: TravelingGroup, remaining: int)

  datatype PendingMove = PendingMove(from: NodeId, to: NodeId, count: int)

  datatype MoveCommand = MoveCommand(from: NodeId, to: NodeId, unitCount: int)

  function Min(x: int, y: int): int {
    if x <= y then x else y
  }

  function Max(x: int, y: int): int {
    if x <= y then y else x
  }
}
