/** The bytes of the matchmaking messages written out in numbers, after the protocol buffer encoding:
    what stands on the wire for every message, and what a reader takes any tag byte, length and
    varint for (HexWar.Client/wwwroot/js/generated/matchmaking_bundle.js). */
module WireBytes {
  import opened HexTypes
  import opened WireFormat
  import opened WireRoundTrip

  // ---- Numbers ----

  /** A number written in base 128, lowest digit first, whatever the top bits of its bytes. */
  function Base128(s: Bytes): nat {
    if s == [] then 0 else s[0] % 128 + 128 * Base128(s[1..])
  }

  /** A varint is the number in base 128, in no more bytes than it needs, with the top bit on all
      bytes but the last. */
  lemma {:induction false} VarintIs(n: nat)
    ensures var s := Varint(n);
            && s != [] && Base128(s) == n && s[|s| - 1] < 128 && (|s| > 1 ==> s[|s| - 1] > 0)
            && forall i :: 0 <= i < |s| - 1 ==> s[i] >= 128
  {
    if n >= 128 {
      VarintIs(n / 128);
      assert Varint(n)[1..] == Varint(n / 128);
    } else {
      assert Varint(n)[1..] == [];
    }
  }

  /** A negative number is written as the 64-bit number congruent to it. */
  lemma NegativeIs(a: int)
    requires -0x8000_0000 <= a < 0
    ensures SignedVarint(a) == Varint(a + 0x1_0000_0000_0000_0000)
  {
    SignBytesAre(a, 9);
    PowNine();
    TopHalf(a);
    hide Varint, SignBytes, Pow128;
  }

  lemma TopHalf(a: int)
    requires -0x8000_0000 <= a < 0
    ensures a % 0x8000_0000_0000_0000 == a + 0x8000_0000_0000_0000
  {
  }

  lemma PowNine()
    ensures Pow128(9) == 0x8000_0000_0000_0000
  {
    PowFive();
    assert Pow128(6) == 0x400_0000_0000 && Pow128(7) == 0x2_0000_0000_0000 && Pow128(8) == 0x100_0000_0000_0000;
  }

  lemma {:induction false} SignBytesAre(a: int, k: nat)
    ensures SignBytes(a, k) + [1] == Varint(a % Pow128(k) + Pow128(k))
    decreases k
  {
    if k > 0 {
      var p := Pow128(k - 1);
      ModSplit(a, p);
      SignBytesAre(a / 128, k - 1);
      var n := a % Pow128(k) + Pow128(k);
      assert n == a % 128 + 128 * (a / 128 % p + p);
      assert n >= 128 && n % 128 == a % 128 && n / 128 == a / 128 % p + p;
      assert [a % 128 + 128] + SignBytes(a / 128, k - 1) + [1] == [a % 128 + 128] + (SignBytes(a / 128, k - 1) + [1]);
    }
  }

  // ---- Messages ----

  /** A number under its tag byte; zero is left out. */
  function Number(tag: byte, v: int): Bytes
    requires v >= -0x8000_0000
  {
    if v == 0 then [] else [tag] + Varint(if v < 0 then v + 0x1_0000_0000_0000_0000 else v)
  }

  /** Length and bytes under a tag byte. */
  function Counted(tag: byte, body: Bytes): Bytes {
    [tag] + Varint(|body|) + body
  }

  function Text(tag: byte, s: Bytes): Bytes {
    if s == [] then [] else Counted(tag, s)
  }

  function ResultBytes(m: MatchFoundResult): Bytes {
    Text(10, m.roomId) + Text(18, m.playerSide) + Text(26, m.wsEndpoint) + Text(34, m.opponentId)
  }

  function UpdateBytes(u: MatchmakingUpdate): Bytes
    requires UpdateInts(u)
  {
    Number(8, u.status) + (if u.matchResult.Some? then Counted(18, ResultBytes(u.matchResult.value)) else [])
    + Number(24, u.queuePosition) + Number(32, u.estimatedWait)
  }

  function RoomBytes(m: RoomInfo): Bytes
    requires RoomInts(m)
  {
    Text(10, m.roomId) + Text(18, m.phase) + Number(24, m.currentRound) + Number(32, m.playerCount) + Text(42, m.createdAt)
  }

  function RoomsBytes(rooms: seq<RoomInfo>): Bytes
    requires forall i :: 0 <= i < |rooms| ==> RoomInts(rooms[i])
  {
    if rooms == [] then [] else Counted(10, RoomBytes(rooms[0])) + RoomsBytes(rooms[1..])
  }

  lemma FieldBytes(field: nat, v: int, s: Bytes)
    requires 1 <= field <= 5 && IsInt32(v)
    ensures Int32Field(field, v) == Number(8 * field, v)
    ensures StringField(field, s) == Text(8 * field + 2, s) && Delimited(field, s) == Counted(8 * field + 2, s)
  {
    if v < 0 {
      NegativeIs(v);
    }
    hide SignBytes;
  }

  lemma ResultWire(m: MatchFoundResult)
    ensures EncodeResult(m) == ResultBytes(m)
  {
    FieldBytes(1, 0, m.roomId);
    FieldBytes(2, 0, m.playerSide);
    FieldBytes(3, 0, m.wsEndpoint);
    FieldBytes(4, 0, m.opponentId);
    hide StringField, Text;
  }

  /** What a message is on the wire. */
  lemma UpdateWire(u: MatchmakingUpdate)
    requires UpdateInts(u)
    ensures EncodeUpdate(u) == UpdateBytes(u)
  {
    FieldBytes(1, u.status, []);
    FieldBytes(3, u.queuePosition, []);
    FieldBytes(4, u.estimatedWait, []);
    hide StringField, Text, Int32Field, Number, Delimited, Counted, EncodeResult, ResultBytes;
    if u.matchResult.Some? {
      ResultWire(u.matchResult.value);
      FieldBytes(2, 0, EncodeResult(u.matchResult.value));
    }
  }

  lemma RoomWire(m: RoomInfo)
    requires RoomInts(m)
    ensures EncodeRoom(m) == RoomBytes(m)
  {
    hide StringField, Text, Int32Field, Number, Delimited, Counted;
    FieldBytes(1, 0, m.roomId);
    FieldBytes(2, 0, m.phase);
    FieldBytes(3, m.currentRound, []);
    FieldBytes(4, m.playerCount, []);
    FieldBytes(5, 0, m.createdAt);
    var text := StringField(1, m.roomId) + StringField(2, m.phase);
    assert text == Text(10, m.roomId) + Text(18, m.phase);
    assert text + Int32Field(3, m.currentRound) == text + Number(24, m.currentRound);
  }

  lemma {:induction false} RoomsWire(rooms: seq<RoomInfo>)
    requires forall i :: 0 <= i < |rooms| ==> RoomInts(rooms[i])
    ensures EncodeRooms(rooms) == RoomsBytes(rooms)
  {
    hide Delimited, Counted, EncodeRoom, RoomBytes;
    if rooms != [] {
      RoomWire(rooms[0]);
      FieldBytes(1, 0, EncodeRoom(rooms[0]));
      RoomsWire(rooms[1..]);
    }
  }

  /** A message that says only that the player waits, both ways. */
  lemma ShortestUpdate()
    ensures EncodeUpdate(MatchmakingUpdate(1, None, 0, 0)) == [8, 1]
    ensures UpdateFrom([8, 1]) == Ok(MatchmakingUpdate(1, None, 0, 0))
    ensures Varint(300) == [172, 2] && SignedVarint(-1) == [255, 255, 255, 255, 255, 255, 255, 255, 255, 1]
  {
    var u := MatchmakingUpdate(1, None, 0, 0);
    UpdateWire(u);
    assert Varint(1) == [1] && Varint(2) == [2];
    assert UpdateBytes(u) == [8, 1];
    UpdateRoundTrip(u);
    OnesAre();
    hide EncodeUpdate, UpdateFrom, UpdateBytes;
  }

  lemma OnesAre()
    ensures SignedVarint(-1) == [255, 255, 255, 255, 255, 255, 255, 255, 255, 1]
  {
    Ones(9);
  }

  lemma {:induction false} Ones(k: nat)
    ensures SignBytes(-1, k) == seq(k, _ => 255)
  {
    if k > 0 {
      Ones(k - 1);
      assert -1 / 128 == -1 && -1 % 128 == 127;
    }
  }

  // ---- Reading ----

  /** The varint at `c` goes on for `k` bytes and ends with the next; bytes past the end count as zero. */
  predicate Ends(bytes: Bytes, c: nat, k: nat) {
    GoesOn(bytes, c, k) && ByteAt(bytes, c + k) < 128
  }

  predicate GoesOn(bytes: Bytes, c: nat, k: nat) {
    forall i :: c <= i < c + k ==> ByteAt(bytes, i) >= 128
  }

  /** The low seven bits of a byte, if the varint has gone on to it. */
  function Digit(bytes: Bytes, c: nat, k: nat, i: nat): nat {
    if i <= k then ByteAt(bytes, c + i) % 128 else 0
  }

  /** The number in the first five of its bytes. */
  function FiveDigits(bytes: Bytes, c: nat, k: nat): nat {
    Digit(bytes, c, k, 0) + 128 * Digit(bytes, c, k, 1) + 16384 * Digit(bytes, c, k, 2)
    + 2097152 * Digit(bytes, c, k, 3) + 268435456 * Digit(bytes, c, k, 4)
  }

  /** What a varint is read as: it must end within ten bytes, and before the end of the message; only
      its first five bytes count, and of their number the 32-bit number congruent to it. */
  lemma NumberRead(bytes: Bytes, c: nat, end: nat, k: nat)
    requires k < 10 && Ends(bytes, c, k)
    ensures var r := ReadSigned(bytes, c, end);
            if c + k + 1 > end then r == Err(ReadTooFar)
            else r.Ok? && r.value.cursor == c + k + 1 && -0x8000_0000 <= r.value.value < 0x8000_0000
                 && (r.value.value - FiveDigits(bytes, c, k)) % 0x1_0000_0000 == 0
    ensures var r := ReadUnsigned(bytes, c, end);
            if c + k + 1 > end then r == Err(ReadTooFar)
            else r.Ok? && r.value.cursor == c + k + 1 && r.value.value == FiveDigits(bytes, c, k) % 0x1_0000_0000
  {
    EndsAfter(bytes, c, k, 10);
    FiveGroups(bytes, c, k);
    Congruent(FiveDigits(bytes, c, k));
    hide VarintEnd, GroupSum, FiveDigits, ToInt32;
  }

  lemma Congruent(x: nat)
    ensures -0x8000_0000 <= ToInt32(x) < 0x8000_0000 && (ToInt32(x) - x) % 0x1_0000_0000 == 0
    ensures ToInt32(x) % 0x1_0000_0000 == x % 0x1_0000_0000
  {
    var q, m := x / 0x1_0000_0000, x % 0x1_0000_0000;
    assert x == 0x1_0000_0000 * q + m;
    assert m - x == 0x1_0000_0000 * -q && m - 0x1_0000_0000 - x == 0x1_0000_0000 * (-q - 1);
  }

  /** More than ten bytes are no varint. */
  lemma NumberTooLong(bytes: Bytes, c: nat, end: nat)
    requires GoesOn(bytes, c, 10)
    ensures ReadSigned(bytes, c, end) == Err(InvalidVarint) && ReadUnsigned(bytes, c, end) == Err(InvalidVarint)
  {
    NeverEnds(bytes, c, 10);
    hide VarintEnd;
  }

  lemma {:induction false} EndsAfter(bytes: Bytes, c: nat, k: nat, reach: nat)
    requires k < reach && Ends(bytes, c, k)
    ensures VarintEnd(bytes, c, reach) == Some(c + k + 1)
    decreases k
  {
    hide ByteAt;
    if k > 0 {
      assert ByteAt(bytes, c) >= 128;
      EndsAfter(bytes, c + 1, k - 1, reach - 1);
    }
  }

  lemma {:induction false} NeverEnds(bytes: Bytes, c: nat, reach: nat)
    requires GoesOn(bytes, c, reach)
    ensures VarintEnd(bytes, c, reach) == None
    decreases reach
  {
    hide ByteAt;
    if reach > 0 {
      assert ByteAt(bytes, c) >= 128;
      NeverEnds(bytes, c + 1, reach - 1);
    }
  }

  lemma FiveGroups(bytes: Bytes, c: nat, k: nat)
    requires Ends(bytes, c, k)
    ensures GroupSum(bytes, c, 5) == FiveDigits(bytes, c, k)
  {
    hide ByteAt;
    GroupDigits(bytes, c, k, 4);
    GroupDigits(bytes, c, k, 3);
    GroupDigits(bytes, c, k, 2);
    GroupDigits(bytes, c, k, 1);
    GroupDigits(bytes, c, k, 0);
    hide GroupSum;
  }

  /** From the `i`-th byte on, as far as the varint goes. */
  lemma GroupDigits(bytes: Bytes, c: nat, k: nat, i: nat)
    requires Ends(bytes, c, k) && i < 5
    ensures i <= k ==> GroupSum(bytes, c + i, 5 - i) ==
                         Digit(bytes, c, k, i) + if i < k && i < 4 then 128 * GroupSum(bytes, c + i + 1, 4 - i) else 0
  {
    hide ByteAt;
    assert i < k ==> ByteAt(bytes, c + i) >= 128;
  }

  /** A tag byte: wire type in the low three bits, at most 5, field number above them, at least 1. */
  lemma TagRead(bytes: Bytes, c: nat, end: nat)
    requires c < end && c < |bytes| && bytes[c] < 128
    ensures NextField(bytes, c, end) ==
              if bytes[c] % 8 > 5 then Err(InvalidWireType)
              else if bytes[c] < 8 then Err(InvalidFieldNumber)
              else Ok(Some(Tag(bytes[c] / 8, bytes[c] % 8, c + 1)))
  {
    assert Ends(bytes, c, 0);
    NumberRead(bytes, c, end, 0);
    assert FiveDigits(bytes, c, 0) == bytes[c];
    hide ReadUnsigned, FiveDigits, Ends, ByteAt;
  }

  /** Numbers are read from wire type 0 only, strings and messages from wire type 2 only. */
  lemma WireTypesTaken(bytes: Bytes, tag: Tag, end: nat)
    requires end <= |bytes|
    ensures ReadInt32(bytes, tag, end) == if tag.wire == 0 then ReadSigned(bytes, tag.cursor, end) else Err(WrongWireType)
    ensures tag.wire != 2 ==> ReadString(bytes, tag, end) == Err(WrongWireType) && SubMessage(bytes, tag, end) == Err(WrongWireType)
    ensures tag.wire == 2 && ReadUnsigned(bytes, tag.cursor, end).Err? ==>
              var error := ReadUnsigned(bytes, tag.cursor, end).error;
              ReadString(bytes, tag, end) == Err(error) && SubMessage(bytes, tag, end) == Err(error)
    ensures tag.wire == 2 && ReadUnsigned(bytes, tag.cursor, end).Ok? ==>
              var Got(length, from) := ReadUnsigned(bytes, tag.cursor, end).value;
              && ReadString(bytes, tag, end) ==
                   (if from + length <= end then Ok(Got(bytes[from..from + length], from + length)) else Err(ReadTooFar))
              && SubMessage(bytes, tag, end) ==
                   (if from + length <= end then Ok(Got(from + length, from)) else Err(LengthMismatch))
  {
    hide ReadSigned, ReadUnsigned;
  }

  /** The end of what is passed over must lie within the message. */
  function Within(c: nat, end: nat): Result<nat, WireError> {
    if c <= end then Ok(c) else Err(ReadTooFar)
  }

  /** What is passed over of a field nobody knows: a varint; eight bytes; a length and as many bytes; a
      group up to its end; four bytes. An end of group by itself is refused. */
  lemma SkipAmounts(bytes: Bytes, tag: Tag, end: nat, k: nat)
    requires tag.cursor <= end
    ensures tag.wire == 0 && k < 10 && Ends(bytes, tag.cursor, k) ==> Skip(bytes, tag, end) == Within(tag.cursor + k + 1, end)
    ensures tag.wire == 1 ==> Skip(bytes, tag, end) == Within(tag.cursor + 8, end)
    ensures tag.wire == 2 && ReadUnsigned(bytes, tag.cursor, end).Ok? ==>
              var Got(length, from) := ReadUnsigned(bytes, tag.cursor, end).value; Skip(bytes, tag, end) == Within(from + length, end)
    ensures tag.wire == 3 ==> Skip(bytes, tag, end) == SkipGroup(bytes, tag.cursor, end, tag.field)
    ensures tag.wire == 5 ==> Skip(bytes, tag, end) == Within(tag.cursor + 4, end)
    ensures tag.wire == 4 || tag.wire > 5 ==> Skip(bytes, tag, end) == Err(InvalidWireType)
  {
    hide VarintEnd, ReadUnsigned, SkipGroup, Ends;
    if k < 10 && Ends(bytes, tag.cursor, k) {
      EndsAfter(bytes, tag.cursor, k, 10);
    }
  }

  lemma SkipTooLong(bytes: Bytes, tag: Tag, end: nat)
    requires tag.cursor <= end && tag.wire == 0 && GoesOn(bytes, tag.cursor, 10)
    ensures Skip(bytes, tag, end) == Err(InvalidVarint)
  {
    hide VarintEnd;
    NeverEnds(bytes, tag.cursor, 10);
  }

  /** A group ends at the first tag of wire type 4, which must carry its number; before that its fields
      are passed over one by one. */
  lemma GroupEnds(bytes: Bytes, c: nat, end: nat, field: nat)
    requires c <= end
    ensures c == end ==> SkipGroup(bytes, c, end, field) == Err(UnmatchedGroup)
    ensures c < end && c < |bytes| && 8 <= bytes[c] < 128 && bytes[c] % 8 == 4 ==>
              SkipGroup(bytes, c, end, field) == if bytes[c] / 8 == field then Ok(c + 1) else Err(UnmatchedGroup)
    ensures c < end && c < |bytes| && 8 <= bytes[c] < 128 && bytes[c] % 8 in [0, 1, 2, 3, 5] ==>
              var passed := Skip(bytes, Tag(bytes[c] / 8, bytes[c] % 8, c + 1), end);
              SkipGroup(bytes, c, end, field) == if passed.Ok? then SkipGroup(bytes, passed.value, end, field) else passed
  {
    hide Skip;
    if c < end && c < |bytes| && bytes[c] < 128 {
      hide NextField;
      TagRead(bytes, c, end);
    }
  }

  /** A number cut off by the end of the array is cut off by the end of the message. */
  lemma NumberCutOff(bytes: Bytes, c: nat, end: nat)
    requires c <= end <= |bytes| < c + 10 && forall i :: c <= i < |bytes| ==> bytes[i] >= 128
    ensures ReadSigned(bytes, c, end) == Err(ReadTooFar) && ReadUnsigned(bytes, c, end) == Err(ReadTooFar)
  {
    assert Ends(bytes, c, |bytes| - c);
    NumberRead(bytes, c, end, |bytes| - c);
  }

  /** A byte that is a tag. */
  predicate TagAt(bytes: Bytes, c: nat, end: nat) {
    c < end <= |bytes| && 8 <= bytes[c] < 128 && bytes[c] % 8 <= 5
  }

  /** What passing over the field at `c` comes to. */
  function PassedAt(bytes: Bytes, c: nat, end: nat): (r: Result<nat, WireError>)
    requires TagAt(bytes, c, end)
    ensures r.Ok? ==> c < r.value <= end
  {
    Skip(bytes, Tag(bytes[c] / 8, bytes[c] % 8, c + 1), end)
  }

  /** In every message a tag of wire type 4 ends it there, and a field whose number it does not know is
      passed over and leaves what was read so far as it was. */
  lemma UpdateTags(bytes: Bytes, c: nat, end: nat, msg: MatchmakingUpdate)
    requires TagAt(bytes, c, end)
    ensures bytes[c] % 8 == 4 ==> DecodeUpdate(bytes, c, end, msg) == Ok(Got(msg, c + 1))
    ensures bytes[c] >= 40 && bytes[c] % 8 != 4 ==>
              var passed := PassedAt(bytes, c, end);
              DecodeUpdate(bytes, c, end, msg) == if passed.Ok? then DecodeUpdate(bytes, passed.value, end, msg) else Err(passed.error)
  {
    hide NextField, Skip, ReadInt32, ResultMessageRead;
    TagRead(bytes, c, end);
  }

  lemma ResultTags(bytes: Bytes, c: nat, end: nat, msg: MatchFoundResult)
    requires TagAt(bytes, c, end)
    ensures bytes[c] % 8 == 4 ==> DecodeResult(bytes, c, end, msg) == Ok(Got(msg, c + 1))
    ensures bytes[c] >= 40 && bytes[c] % 8 != 4 ==>
              var passed := PassedAt(bytes, c, end);
              DecodeResult(bytes, c, end, msg) == if passed.Ok? then DecodeResult(bytes, passed.value, end, msg) else Err(passed.error)
  {
    hide NextField, Skip, ReadString;
    TagRead(bytes, c, end);
  }

  lemma RoomTags(bytes: Bytes, c: nat, end: nat, msg: RoomInfo)
    requires TagAt(bytes, c, end)
    ensures bytes[c] % 8 == 4 ==> DecodeRoom(bytes, c, end, msg) == Ok(Got(msg, c + 1))
    ensures bytes[c] >= 48 && bytes[c] % 8 != 4 ==>
              var passed := PassedAt(bytes, c, end);
              DecodeRoom(bytes, c, end, msg) == if passed.Ok? then DecodeRoom(bytes, passed.value, end, msg) else Err(passed.error)
  {
    hide NextField, Skip, ReadInt32, ReadString;
    TagRead(bytes, c, end);
  }

  lemma RoomsTags(bytes: Bytes, c: nat, end: nat, rooms: seq<RoomInfo>)
    requires TagAt(bytes, c, end)
    ensures bytes[c] % 8 == 4 ==> DecodeRooms(bytes, c, end, rooms) == Ok(Got(rooms, c + 1))
    ensures bytes[c] >= 16 && bytes[c] % 8 != 4 ==>
              var passed := PassedAt(bytes, c, end);
              DecodeRooms(bytes, c, end, rooms) == if passed.Ok? then DecodeRooms(bytes, passed.value, end, rooms) else Err(passed.error)
  {
    hide NextField, Skip, RoomMessageRead;
    TagRead(bytes, c, end);
  }

  function UsedUp<T>(got: Got<T>, stop: nat): Result<Got<T>, WireError> {
    if got.cursor == stop then Ok(got) else Err(LengthMismatch)
  }

  /** A nested message must end exactly where its length says. */
  lemma NestedMessage(bytes: Bytes, tag: Tag, end: nat)
    requires tag.cursor <= end <= |bytes| && SubMessage(bytes, tag, end).Ok?
    ensures var Got(stop, from) := SubMessage(bytes, tag, end).value;
            var result, room := DecodeResult(bytes, from, stop, NO_RESULT), DecodeRoom(bytes, from, stop, NO_ROOM);
            && (result.Ok? ==> ResultMessageRead(bytes, tag, end) == UsedUp(result.value, stop))
            && (room.Ok? ==> RoomMessageRead(bytes, tag, end) == UsedUp(room.value, stop))
  {
    hide SubMessage, DecodeResult, DecodeRoom;
  }
}
