/** The wire form of the matchmaking messages as values: what the generated serialisers put on
    the wire and what the generated deserialisers make of any bytes
    (HexWar.Client/wwwroot/js/generated/matchmaking_bundle.js). Strings are byte sequences. */
module WireFormat {
  import opened HexTypes

  type byte = b: int | 0 <= b < 256
  type Bytes = seq<byte>

  const TWO_31: int := 0x8000_0000
  const TWO_32: int := 0x1_0000_0000

  const VARINT := 0
  const FIXED64 := 1
  const DELIMITED := 2
  const START_GROUP := 3
  const END_GROUP := 4
  const FIXED32 := 5

  datatype WireError =
    | ReadTooFar
    | InvalidVarint
    | InvalidWireType
    | InvalidFieldNumber
    | WrongWireType
    | LengthMismatch
    | UnmatchedGroup

  /** A value read, and where the cursor stands after it. */
  datatype Got<+T> = Got(value: T, cursor: nat)

  // ---- Varints ----

  /** Seven bits a byte, low bits first, the top bit set on all but the last. */
  function Varint(n: nat): Bytes {
    if n < 128 then [n] else [n % 128 + 128] + Varint(n / 128)
  }

  /** `k` bytes of a two's complement number, each saying that more follows. */
  function SignBytes(a: int, k: nat): Bytes
    decreases k
  {
    if k == 0 then [] else [a % 128 + 128] + SignBytes(a / 128, k - 1)
  }

  /** Negative numbers always take ten bytes. */
  function SignedVarint(a: int): Bytes {
    if a >= 0 then Varint(a) else SignBytes(a, 9) + [1]
  }

  predicate IsInt32(a: int) {
    -TWO_31 <= a < TWO_31
  }

  function ToInt32(x: int): int {
    if x % TWO_32 >= TWO_31 then x % TWO_32 - TWO_32 else x % TWO_32
  }

  /** Reading a byte array past its end gives an undefined value, which the decoder's bit
      operations take for zero. */
  function ByteAt(bytes: Bytes, i: nat): byte {
    if i < |bytes| then bytes[i] else 0
  }

  /** The number in the first `k` groups of the varint at `c`. */
  function GroupSum(bytes: Bytes, c: nat, k: nat): nat
    decreases k
  {
    var b := ByteAt(bytes, c);
    b % 128 + if b >= 128 && k > 1 then 128 * GroupSum(bytes, c + 1, k - 1) else 0
  }

  /** Where the varint at `c` ends, if within `k` bytes. */
  function VarintEnd(bytes: Bytes, c: nat, k: nat): (r: Option<nat>)
    ensures r.Some? ==> c < r.value
    decreases k
  {
    if k == 0 then None
    else if ByteAt(bytes, c) < 128 then Some(c + 1)
    else VarintEnd(bytes, c + 1, k - 1)
  }

  function ReadSigned(bytes: Bytes, c: nat, end: nat): (r: Result<Got<int>, WireError>)
    ensures r.Ok? ==> c < r.value.cursor <= end
  {
    var stop := VarintEnd(bytes, c, 10);
    if stop.None? then Err(InvalidVarint)
    else if stop.value > end then Err(ReadTooFar)
    else Ok(Got(ToInt32(GroupSum(bytes, c, 5)), stop.value))
  }

  function ReadUnsigned(bytes: Bytes, c: nat, end: nat): (r: Result<Got<nat>, WireError>)
    ensures r.Ok? ==> c < r.value.cursor <= end
  {
    match ReadSigned(bytes, c, end)
    case Err(error) => Err(error)
    case Ok(got) => Ok(Got(got.value % TWO_32, got.cursor))
  }

  // ---- Varint round trips ----

  /** `s` stands in `bytes` at `c`. */
  predicate At(bytes: Bytes, c: nat, s: Bytes) {
    c + |s| <= |bytes| && bytes[c..c + |s|] == s
  }

  lemma AtSplit(bytes: Bytes, c: nat, s: Bytes, t: Bytes)
    requires At(bytes, c, s + t)
    ensures At(bytes, c, s) && At(bytes, c + |s|, t)
  {
    assert bytes[c..c + |s|] == (s + t)[..|s|];
    assert bytes[c + |s|..c + |s| + |t|] == (s + t)[|s|..];
  }

  lemma AtHead(bytes: Bytes, c: nat, s: Bytes)
    requires At(bytes, c, s) && s != []
    ensures ByteAt(bytes, c) == s[0] && At(bytes, c + 1, s[1..])
  {
    assert s == [s[0]] + s[1..];
    AtSplit(bytes, c, [s[0]], s[1..]);
    assert bytes[c] == bytes[c..c + 1][0];
  }

  function Pow128(k: nat): (r: nat)
    ensures r > 0
  {
    if k == 0 then 1 else 128 * Pow128(k - 1)
  }

  lemma {:induction false} VarintReads(n: nat, bytes: Bytes, c: nat, k: nat, reach: nat)
    requires At(bytes, c, Varint(n)) && 1 <= k <= reach && n < Pow128(k)
    ensures GroupSum(bytes, c, k) == n
    ensures VarintEnd(bytes, c, reach) == Some(c + |Varint(n)|)
    decreases k
  {
    AtHead(bytes, c, Varint(n));
    if n >= 128 {
      assert Varint(n)[1..] == Varint(n / 128);
      VarintReads(n / 128, bytes, c + 1, k - 1, reach - 1);
    }
  }

  lemma ModSplit(a: int, p: nat)
    requires p > 0
    ensures a % (128 * p) == a % 128 + 128 * ((a / 128) % p)
  {
    var q, r := a / 128, a % 128;
    var u, v := q / p, q % p;
    assert a == 128 * q + r && q == p * u + v;
    assert a == (128 * p) * u + (128 * v + r) by {
      assert 128 * (p * u) == (128 * p) * u;
    }
    RemainderIs(a, 128 * p, u, 128 * v + r);
  }

  lemma RemainderIs(a: int, d: int, q: int, r: int)
    requires d > 0 && a == d * q + r && 0 <= r < d
    ensures a % d == r
  {
    var x := a / d - q;
    assert d * x == r - a % d by {
      assert a == d * (a / d) + a % d;
      assert d * (a / d) - d * q == d * x;
    }
    assert -d < d * x < d;
    ProductBetween(d, x);
  }

  lemma ProductBetween(d: int, x: int)
    requires d > 0 && -d < d * x < d
    ensures x == 0
  {
  }

  lemma {:induction false} SignBytesRead(a: int, bytes: Bytes, c: nat, m: nat, k: nat, reach: nat)
    requires At(bytes, c, SignBytes(a, m) + [1]) && k <= m < reach
    ensures k > 0 ==> GroupSum(bytes, c, k) == a % Pow128(k)
    ensures VarintEnd(bytes, c, reach) == Some(c + m + 1)
    decreases m
  {
    AtHead(bytes, c, SignBytes(a, m) + [1]);
    if m > 0 {
      assert (SignBytes(a, m) + [1])[1..] == SignBytes(a / 128, m - 1) + [1];
      SignBytesRead(a / 128, bytes, c + 1, m - 1, if k == 0 then 0 else k - 1, reach - 1);
      if k > 0 {
        ModSplit(a, Pow128(k - 1));
      }
    }
  }

  lemma {:induction false} SignBytesLength(a: int, k: nat)
    ensures |SignBytes(a, k)| == k
    decreases k
  {
    if k > 0 {
      SignBytesLength(a / 128, k - 1);
    }
  }

  lemma PowFive()
    ensures Pow128(5) == 0x8_0000_0000
  {
    assert Pow128(1) == 128 && Pow128(2) == 16384 && Pow128(3) == 2097152 && Pow128(4) == 268435456;
  }

  /** The first five groups hold enough of a 32-bit number to tell it. */
  lemma ToInt32OfGroups(a: int)
    requires IsInt32(a)
    ensures ToInt32(a) == a && ToInt32(a % 0x8_0000_0000) == a
    ensures a >= 0 ==> a < 0x8_0000_0000
  {
    if a < 0 {
      assert a % 0x8_0000_0000 == a + 0x8_0000_0000;
      assert (a + 0x8_0000_0000) % TWO_32 == a + TWO_32;
    }
  }

  lemma ToInt32Unsigned(n: nat)
    requires n < TWO_32
    ensures ToInt32(n) % TWO_32 == n
  {
    assert n % TWO_32 == n;
    if n >= TWO_31 {
      assert (n - TWO_32) % TWO_32 == n;
    }
  }

  /** Every 32-bit number survives the wire, negative ones as ten bytes; the decoder stops right
      behind what the encoder wrote, whatever follows. */
  lemma SignedRoundTrip(a: int, bytes: Bytes, c: nat, end: nat)
    requires IsInt32(a) && At(bytes, c, SignedVarint(a)) && c + |SignedVarint(a)| <= end
    ensures ReadSigned(bytes, c, end) == Ok(Got(a, c + |SignedVarint(a)|))
    ensures a < 0 ==> |SignedVarint(a)| == 10
  {
    hide GroupSum, VarintEnd, Varint, SignBytes, Pow128, ToInt32, ByteAt;
    PowFive();
    ToInt32OfGroups(a);
    if a >= 0 {
      VarintReads(a, bytes, c, 5, 10);
    } else {
      SignBytesRead(a, bytes, c, 9, 5, 10);
      SignBytesLength(a, 9);
    }
  }

  lemma UnsignedRoundTrip(n: nat, bytes: Bytes, c: nat, end: nat)
    requires n < TWO_32 && At(bytes, c, Varint(n)) && c + |Varint(n)| <= end
    ensures ReadUnsigned(bytes, c, end) == Ok(Got(n, c + |Varint(n)|))
  {
    hide GroupSum, VarintEnd, Varint, Pow128, ToInt32, ByteAt;
    PowFive();
    ToInt32Unsigned(n);
    VarintReads(n, bytes, c, 5, 10);
  }

  // ---- Messages ----

  datatype MatchFoundResult = MatchFoundResult(roomId: Bytes, playerSide: Bytes, wsEndpoint: Bytes, opponentId: Bytes)

  datatype MatchmakingUpdate =
    MatchmakingUpdate(status: int, matchResult: Option<MatchFoundResult>, queuePosition: int, estimatedWait: int)

  datatype RoomInfo = RoomInfo(roomId: Bytes, phase: Bytes, currentRound: int, playerCount: int, createdAt: Bytes)

  const NO_RESULT: MatchFoundResult := MatchFoundResult([], [], [], [])
  const NO_UPDATE: MatchmakingUpdate := MatchmakingUpdate(0, None, 0, 0)
  const NO_ROOM: RoomInfo := RoomInfo([], [], 0, 0, [])

  // ---- Encoding ----

  function Header(field: nat, wire: nat): Bytes {
    Varint(8 * field + wire)
  }

  function Delimited(field: nat, body: Bytes): Bytes {
    Header(field, DELIMITED) + Varint(|body|) + body
  }

  /** Empty strings and zeros are left out. */
  function StringField(field: nat, s: Bytes): Bytes {
    if |s| > 0 then Delimited(field, s) else []
  }

  function Int32Field(field: nat, v: int): Bytes {
    if v != 0 then Header(field, VARINT) + SignedVarint(v) else []
  }

  function EncodeResult(m: MatchFoundResult): Bytes {
    StringField(1, m.roomId) + StringField(2, m.playerSide) + StringField(3, m.wsEndpoint) + StringField(4, m.opponentId)
  }

  function ResultField(m: Option<MatchFoundResult>): Bytes {
    if m.Some? then Delimited(2, EncodeResult(m.value)) else []
  }

  function EncodeUpdate(u: MatchmakingUpdate): Bytes {
    Int32Field(1, u.status) + ResultField(u.matchResult) + Int32Field(3, u.queuePosition) + Int32Field(4, u.estimatedWait)
  }

  function EncodeRoom(m: RoomInfo): Bytes {
    StringField(1, m.roomId) + StringField(2, m.phase) + Int32Field(3, m.currentRound) + Int32Field(4, m.playerCount) +
    StringField(5, m.createdAt)
  }

  /** A list of active rooms is one delimited field a room. */
  function EncodeRooms(rooms: seq<RoomInfo>): Bytes {
    if rooms == [] then [] else Delimited(1, EncodeRoom(rooms[0])) + EncodeRooms(rooms[1..])
  }

  // ---- Decoding ----

  datatype Tag = Tag(field: nat, wire: nat, cursor: nat)

  /** The next tag, none at the end of the (sub)message. */
  function NextField(bytes: Bytes, c: nat, end: nat): (r: Result<Option<Tag>, WireError>)
    ensures r.Ok? && r.value.Some? ==> c < r.value.value.cursor <= end
  {
    if c == end then Ok(None)
    else match ReadUnsigned(bytes, c, end)
      case Err(error) => Err(error)
      case Ok(got) =>
        if got.value % 8 > 5 then Err(InvalidWireType)
        else if got.value / 8 < 1 then Err(InvalidFieldNumber)
        else Ok(Some(Tag(got.value / 8, got.value % 8, got.cursor)))
  }

  function ReadInt32(bytes: Bytes, tag: Tag, end: nat): (r: Result<Got<int>, WireError>)
    ensures r.Ok? ==> tag.cursor < r.value.cursor <= end
  {
    if tag.wire != VARINT then Err(WrongWireType) else ReadSigned(bytes, tag.cursor, end)
  }

  function ReadString(bytes: Bytes, tag: Tag, end: nat): (r: Result<Got<Bytes>, WireError>)
    requires end <= |bytes|
    ensures r.Ok? ==> tag.cursor < r.value.cursor <= end
  {
    if tag.wire != DELIMITED then Err(WrongWireType)
    else match ReadUnsigned(bytes, tag.cursor, end)
      case Err(error) => Err(error)
      case Ok(got) =>
        if got.cursor + got.value > end then Err(ReadTooFar)
        else Ok(Got(bytes[got.cursor..got.cursor + got.value], got.cursor + got.value))
  }

  function Moved(c: int, end: nat): (r: Result<nat, WireError>)
    requires c >= 0
    ensures r.Ok? ==> r.value == c <= end
  {
    if c > end then Err(ReadTooFar) else Ok(c)
  }

  /** Passing over the value of a field nobody knows. */
  function Skip(bytes: Bytes, tag: Tag, end: nat): (r: Result<nat, WireError>)
    requires tag.cursor <= end
    ensures r.Ok? ==> tag.cursor <= r.value <= end
    decreases end - tag.cursor, 1
  {
    if tag.wire == VARINT then
      var stop := VarintEnd(bytes, tag.cursor, 10);
      if stop.None? then Err(InvalidVarint) else Moved(stop.value, end)
    else if tag.wire == FIXED64 then Moved(tag.cursor + 8, end)
    else if tag.wire == DELIMITED then
      match ReadUnsigned(bytes, tag.cursor, end)
      case Err(error) => Err(error)
      case Ok(got) => Moved(got.cursor + got.value, end)
    else if tag.wire == FIXED32 then Moved(tag.cursor + 4, end)
    else if tag.wire == START_GROUP then SkipGroup(bytes, tag.cursor, end, tag.field)
    else Err(InvalidWireType)
  }

  function SkipGroup(bytes: Bytes, c: nat, end: nat, field: nat): (r: Result<nat, WireError>)
    requires c <= end
    ensures r.Ok? ==> c <= r.value <= end
    decreases end - c, 0
  {
    match NextField(bytes, c, end)
    case Err(error) => Err(error)
    case Ok(None) => Err(UnmatchedGroup)
    case Ok(Some(tag)) =>
      if tag.wire == END_GROUP then
        if tag.field == field then Ok(tag.cursor) else Err(UnmatchedGroup)
      else match Skip(bytes, tag, end)
        case Err(error) => Err(error)
        case Ok(next) => SkipGroup(bytes, next, end, field)
  }

  function Skipped<T>(bytes: Bytes, tag: Tag, end: nat, msg: T): (r: Result<Got<T>, WireError>)
    requires tag.cursor <= end
    ensures r.Ok? ==> tag.cursor <= r.value.cursor <= end
  {
    match Skip(bytes, tag, end)
    case Err(error) => Err(error)
    case Ok(next) => Ok(Got(msg, next))
  }

  function ResultFieldRead(bytes: Bytes, tag: Tag, end: nat, msg: MatchFoundResult): (r: Result<Got<MatchFoundResult>, WireError>)
    requires tag.cursor <= end <= |bytes|
    ensures r.Ok? ==> tag.cursor <= r.value.cursor <= end
  {
    if 1 <= tag.field <= 4 then
      match ReadString(bytes, tag, end)
      case Err(error) => Err(error)
      case Ok(got) => Ok(Got(WithResultString(msg, tag.field, got.value), got.cursor))
    else Skipped(bytes, tag, end, msg)
  }

  function WithResultString(msg: MatchFoundResult, field: nat, s: Bytes): MatchFoundResult {
    if field == 1 then msg.(roomId := s)
    else if field == 2 then msg.(playerSide := s)
    else if field == 3 then msg.(wsEndpoint := s)
    else msg.(opponentId := s)
  }

  function DecodeResult(bytes: Bytes, c: nat, end: nat, msg: MatchFoundResult): (r: Result<Got<MatchFoundResult>, WireError>)
    requires c <= end <= |bytes|
    ensures r.Ok? ==> c <= r.value.cursor <= end
    decreases end - c
  {
    match NextField(bytes, c, end)
    case Err(error) => Err(error)
    case Ok(None) => Ok(Got(msg, c))
    case Ok(Some(tag)) =>
      if tag.wire == END_GROUP then Ok(Got(msg, tag.cursor))
      else match ResultFieldRead(bytes, tag, end, msg)
        case Err(error) => Err(error)
        case Ok(got) => DecodeResult(bytes, got.cursor, end, got.value)
  }

  /** Where a submessage starts and where it must end. */
  function SubMessage(bytes: Bytes, tag: Tag, end: nat): (r: Result<Got<nat>, WireError>)
    ensures r.Ok? ==> tag.cursor < r.value.cursor <= r.value.value <= end
  {
    if tag.wire != DELIMITED then Err(WrongWireType)
    else match ReadUnsigned(bytes, tag.cursor, end)
      case Err(error) => Err(error)
      case Ok(got) => if got.cursor + got.value > end then Err(LengthMismatch) else Ok(Got(got.cursor + got.value, got.cursor))
  }

  function ResultMessageRead(bytes: Bytes, tag: Tag, end: nat): (r: Result<Got<MatchFoundResult>, WireError>)
    requires tag.cursor <= end <= |bytes|
    ensures r.Ok? ==> tag.cursor < r.value.cursor <= end
  {
    match SubMessage(bytes, tag, end)
    case Err(error) => Err(error)
    case Ok(sub) =>
      match DecodeResult(bytes, sub.cursor, sub.value, NO_RESULT)
      case Err(error) => Err(error)
      case Ok(got) => if got.cursor != sub.value then Err(LengthMismatch) else Ok(got)
  }

  function UpdateFieldRead(bytes: Bytes, tag: Tag, end: nat, msg: MatchmakingUpdate): (r: Result<Got<MatchmakingUpdate>, WireError>)
    requires tag.cursor <= end <= |bytes|
    ensures r.Ok? ==> tag.cursor <= r.value.cursor <= end
  {
    if tag.field == 1 || tag.field == 3 || tag.field == 4 then
      match ReadInt32(bytes, tag, end)
      case Err(error) => Err(error)
      case Ok(got) => Ok(Got(WithUpdateNumber(msg, tag.field, got.value), got.cursor))
    else if tag.field == 2 then
      match ResultMessageRead(bytes, tag, end)
      case Err(error) => Err(error)
      case Ok(got) => Ok(Got(msg.(matchResult := Some(got.value)), got.cursor))
    else Skipped(bytes, tag, end, msg)
  }

  function WithUpdateNumber(msg: MatchmakingUpdate, field: nat, v: int): MatchmakingUpdate {
    if field == 1 then msg.(status := v) else if field == 3 then msg.(queuePosition := v) else msg.(estimatedWait := v)
  }

  function DecodeUpdate(bytes: Bytes, c: nat, end: nat, msg: MatchmakingUpdate): (r: Result<Got<MatchmakingUpdate>, WireError>)
    requires c <= end <= |bytes|
    ensures r.Ok? ==> c <= r.value.cursor <= end
    decreases end - c
  {
    match NextField(bytes, c, end)
    case Err(error) => Err(error)
    case Ok(None) => Ok(Got(msg, c))
    case Ok(Some(tag)) =>
      if tag.wire == END_GROUP then Ok(Got(msg, tag.cursor))
      else match UpdateFieldRead(bytes, tag, end, msg)
        case Err(error) => Err(error)
        case Ok(got) => DecodeUpdate(bytes, got.cursor, end, got.value)
  }

  function RoomFieldRead(bytes: Bytes, tag: Tag, end: nat, msg: RoomInfo): (r: Result<Got<RoomInfo>, WireError>)
    requires tag.cursor <= end <= |bytes|
    ensures r.Ok? ==> tag.cursor <= r.value.cursor <= end
  {
    if tag.field == 1 || tag.field == 2 || tag.field == 5 then
      match ReadString(bytes, tag, end)
      case Err(error) => Err(error)
      case Ok(got) => Ok(Got(WithRoomString(msg, tag.field, got.value), got.cursor))
    else if tag.field == 3 || tag.field == 4 then
      match ReadInt32(bytes, tag, end)
      case Err(error) => Err(error)
      case Ok(got) => Ok(Got(WithRoomNumber(msg, tag.field, got.value), got.cursor))
    else Skipped(bytes, tag, end, msg)
  }

  function WithRoomString(msg: RoomInfo, field: nat, s: Bytes): RoomInfo {
    if field == 1 then msg.(roomId := s) else if field == 2 then msg.(phase := s) else msg.(createdAt := s)
  }

  function WithRoomNumber(msg: RoomInfo, field: nat, v: int): RoomInfo {
    if field == 3 then msg.(currentRound := v) else msg.(playerCount := v)
  }

  function DecodeRoom(bytes: Bytes, c: nat, end: nat, msg: RoomInfo): (r: Result<Got<RoomInfo>, WireError>)
    requires c <= end <= |bytes|
    ensures r.Ok? ==> c <= r.value.cursor <= end
    decreases end - c
  {
    match NextField(bytes, c, end)
    case Err(error) => Err(error)
    case Ok(None) => Ok(Got(msg, c))
    case Ok(Some(tag)) =>
      if tag.wire == END_GROUP then Ok(Got(msg, tag.cursor))
      else match RoomFieldRead(bytes, tag, end, msg)
        case Err(error) => Err(error)
        case Ok(got) => DecodeRoom(bytes, got.cursor, end, got.value)
  }

  function RoomMessageRead(bytes: Bytes, tag: Tag, end: nat): (r: Result<Got<RoomInfo>, WireError>)
    requires tag.cursor <= end <= |bytes|
    ensures r.Ok? ==> tag.cursor < r.value.cursor <= end
  {
    match SubMessage(bytes, tag, end)
    case Err(error) => Err(error)
    case Ok(sub) =>
      match DecodeRoom(bytes, sub.cursor, sub.value, NO_ROOM)
      case Err(error) => Err(error)
      case Ok(got) => if got.cursor != sub.value then Err(LengthMismatch) else Ok(got)
  }

  function RoomsFieldRead(bytes: Bytes, tag: Tag, end: nat, rooms: seq<RoomInfo>): (r: Result<Got<seq<RoomInfo>>, WireError>)
    requires tag.cursor <= end <= |bytes|
    ensures r.Ok? ==> tag.cursor <= r.value.cursor <= end
  {
    if tag.field == 1 then
      match RoomMessageRead(bytes, tag, end)
      case Err(error) => Err(error)
      case Ok(got) => Ok(Got(rooms + [got.value], got.cursor))
    else Skipped(bytes, tag, end, rooms)
  }

  function DecodeRooms(bytes: Bytes, c: nat, end: nat, rooms: seq<RoomInfo>): (r: Result<Got<seq<RoomInfo>>, WireError>)
    requires c <= end <= |bytes|
    ensures r.Ok? ==> c <= r.value.cursor <= end
    decreases end - c
  {
    match NextField(bytes, c, end)
    case Err(error) => Err(error)
    case Ok(None) => Ok(Got(rooms, c))
    case Ok(Some(tag)) =>
      if tag.wire == END_GROUP then Ok(Got(rooms, tag.cursor))
      else match RoomsFieldRead(bytes, tag, end, rooms)
        case Err(error) => Err(error)
        case Ok(got) => DecodeRooms(bytes, got.cursor, end, got.value)
  }

  /** `deserializeBinary`, over a whole byte array. */
  function UpdateFrom(bytes: Bytes): Result<MatchmakingUpdate, WireError> {
    match DecodeUpdate(bytes, 0, |bytes|, NO_UPDATE)
    case Err(error) => Err(error)
    case Ok(got) => Ok(got.value)
  }

  function RoomsFrom(bytes: Bytes): Result<seq<RoomInfo>, WireError> {
    match DecodeRooms(bytes, 0, |bytes|, [])
    case Err(error) => Err(error)
    case Ok(got) => Ok(got.value)
  }

  function ResultFrom(bytes: Bytes): Result<MatchFoundResult, WireError> {
    match DecodeResult(bytes, 0, |bytes|, NO_RESULT)
    case Err(error) => Err(error)
    case Ok(got) => Ok(got.value)
  }
}
