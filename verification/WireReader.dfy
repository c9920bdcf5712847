/** The binary reader: a cursor over a byte array, moved by loops and narrowed to a submessage by
    moving its end (BinaryDecoder, BinaryReader and the generated deserialisers in
    HexWar.Client/wwwroot/js/generated/matchmaking_bundle.js). */
module WireReader {
  import opened HexTypes
  import opened WireFormat
  import opened WireRoundTrip
  import opened WireBytes

  /** One more group of a varint read. */
  lemma GroupStep(bytes: Bytes, c: nat, k: nat, reach: nat)
    requires k >= 1 && reach >= 1
    ensures ByteAt(bytes, c) >= 128 && k > 1 ==> GroupSum(bytes, c, k) == ByteAt(bytes, c) % 128 + 128 * GroupSum(bytes, c + 1, k - 1)
    ensures ByteAt(bytes, c) < 128 || k == 1 ==> GroupSum(bytes, c, k) == ByteAt(bytes, c) % 128
    ensures VarintEnd(bytes, c, reach) == if ByteAt(bytes, c) < 128 then Some(c + 1) else VarintEnd(bytes, c + 1, reach - 1)
  {
  }

  /** The fifth byte shifted by 28 keeps its low four bits only. */
  lemma FifthByte(e: int, d: int)
    requires 0 <= d < 256
    ensures ToInt32(e + d * 0x1000_0000) == ToInt32(e + (d % 128) * 0x1000_0000)
  {
    var low := e + (d % 128) * 0x1000_0000;
    if d >= 128 {
      assert d == d % 128 + 128;
      assert e + d * 0x1000_0000 == low + 8 * TWO_32;
      assert (low + 8 * TWO_32) % TWO_32 == low % TWO_32;
    }
  }

  class BinaryDecoder {
    const bytes: Bytes
    var cursor: nat
    var end: nat

    ghost predicate Valid()
      reads this
    {
      cursor <= end <= |bytes|
    }

    constructor (bytes: Bytes)
      ensures Valid() && this.bytes == bytes && cursor == 0 && end == |bytes|
    {
      this.bytes, cursor, end := bytes, 0, |bytes|;
    }

    /** The cursor is moved before it is checked. */
    method SetCursorAndCheck(c: nat) returns (ok: bool)
      modifies this`cursor
      ensures cursor == c && ok == (c <= end)
    {
      cursor := c;
      ok := c <= end;
    }

    method Advance(count: nat) returns (r: Result<nat, WireError>)
      modifies this`cursor
      ensures r == WireFormat.Moved(old(cursor) + count, end)
      ensures r.Ok? ==> cursor == r.value
    {
      var ok := SetCursorAndCheck(cursor + count);
      r := if ok then Ok(cursor) else Err(ReadTooFar);
    }

    method ReadSignedVarint32() returns (r: Result<int, WireError>)
      modifies this`cursor
      ensures r.Err? ==> ReadSigned(bytes, old(cursor), end) == Err(r.error)
      ensures r.Ok? ==> ReadSigned(bytes, old(cursor), end) == Ok(Got(r.value, cursor))
    {
      hide GroupSum, VarintEnd, ToInt32, ByteAt;
      ghost var start := cursor;
      var c := cursor;
      var d: int := ByteAt(bytes, c);
      c := c + 1;
      var e: int := d % 128;
      GroupStep(bytes, start, 5, 10);
      if d >= 128 {
        d := ByteAt(bytes, c);
        c := c + 1;
        e := e + (d % 128) * 0x80;
        GroupStep(bytes, start + 1, 4, 9);
        if d >= 128 {
          d := ByteAt(bytes, c);
          c := c + 1;
          e := e + (d % 128) * 0x4000;
          GroupStep(bytes, start + 2, 3, 8);
          if d >= 128 {
            d := ByteAt(bytes, c);
            c := c + 1;
            e := e + (d % 128) * 0x20_0000;
            GroupStep(bytes, start + 3, 2, 7);
            if d >= 128 {
              d := ByteAt(bytes, c);
              c := c + 1;
              FifthByte(e, d);
              GroupStep(bytes, start + 4, 1, 6);
              assert GroupSum(bytes, start, 5) == e + (d % 128) * 0x1000_0000;
              e := e + d * 0x1000_0000;
              if d >= 128 {
                var ended;
                c, ended := PassContinuation(c);
                if !ended {
                  return Err(InvalidVarint);
                }
              }
            }
          }
        }
      }
      var ok := SetCursorAndCheck(c);
      r := if ok then Ok(ToInt32(e)) else Err(ReadTooFar);
    }

    /** Up to five more bytes after the fifth; the sign bytes of a negative number. */
    method PassContinuation(from: nat) returns (c: nat, ended: bool)
      ensures ended == VarintEnd(bytes, from, 5).Some?
      ensures ended ==> VarintEnd(bytes, from, 5) == Some(c)
    {
      hide ByteAt;
      c := from;
      GroupStep(bytes, c, 1, 5);
      ended := ByteAt(bytes, c) < 128;
      c := c + 1;
      if !ended {
        GroupStep(bytes, c, 1, 4);
        ended := ByteAt(bytes, c) < 128;
        c := c + 1;
        if !ended {
          GroupStep(bytes, c, 1, 3);
          ended := ByteAt(bytes, c) < 128;
          c := c + 1;
          if !ended {
            GroupStep(bytes, c, 1, 2);
            ended := ByteAt(bytes, c) < 128;
            c := c + 1;
            if !ended {
              GroupStep(bytes, c, 1, 1);
              ended := ByteAt(bytes, c) < 128;
              c := c + 1;
            }
          }
        }
      }
    }

    method ReadUnsignedVarint32() returns (r: Result<nat, WireError>)
      modifies this`cursor
      ensures r.Err? ==> ReadUnsigned(bytes, old(cursor), end) == Err(r.error)
      ensures r.Ok? ==> ReadUnsigned(bytes, old(cursor), end) == Ok(Got(r.value, cursor))
    {
      hide ReadSigned;
      var signed := ReadSignedVarint32();
      r := if signed.Err? then Err(signed.error) else Ok(signed.value % TWO_32);
    }

    /** Ten bytes at most, the value thrown away. */
    method SkipVarint() returns (r: Result<nat, WireError>)
      modifies this`cursor
      ensures r == if VarintEnd(bytes, old(cursor), 10).None? then Err(InvalidVarint)
                   else WireFormat.Moved(VarintEnd(bytes, old(cursor), 10).value, end)
      ensures r.Ok? ==> cursor == r.value
    {
      var c, stop := cursor, cursor + 10;
      while c < stop
        invariant old(cursor) <= c <= stop && cursor == old(cursor)
        invariant VarintEnd(bytes, old(cursor), 10) == VarintEnd(bytes, c, stop - c)
      {
        var f := ByteAt(bytes, c);
        c := c + 1;
        if f < 128 {
          var ok := SetCursorAndCheck(c);
          return if ok then Ok(c) else Err(ReadTooFar);
        }
      }
      r := Err(InvalidVarint);
    }

    method ReadString(length: nat) returns (r: Result<Bytes, WireError>)
      requires Valid()
      modifies this`cursor
      ensures r == if old(cursor) + length > end then Err(ReadTooFar) else Ok(bytes[old(cursor)..old(cursor) + length])
      ensures r.Ok? ==> cursor == old(cursor) + length
    {
      if cursor + length > end {
        return Err(ReadTooFar);
      }
      r := Ok(bytes[cursor..cursor + length]);
      cursor := cursor + length;
    }
  }

  // ---- The reader ----

  class BinaryReader {
    const decoder: BinaryDecoder
    var nextField: nat
    var nextWireType: nat

    /** The tag last read, the cursor behind it. */
    ghost function Current(): Tag
      reads this, decoder
    {
      Tag(nextField, nextWireType, decoder.cursor)
    }

    constructor (bytes: Bytes)
      ensures fresh(decoder) && decoder.Valid() && decoder.bytes == bytes && decoder.cursor == 0 && decoder.end == |bytes|
    {
      decoder := new BinaryDecoder(bytes);
      nextField, nextWireType := 0, 0;
    }

    method NextField() returns (r: Result<bool, WireError>)
      requires decoder.Valid()
      modifies this, decoder`cursor
      ensures var next := WireFormat.NextField(decoder.bytes, old(decoder.cursor), decoder.end);
              && (r.Err? ==> next == Err(r.error))
              && (r == Ok(false) ==> next == Ok(None) && decoder.cursor == old(decoder.cursor))
              && (r == Ok(true) ==> next == Ok(Some(Current())))
      ensures r.Ok? ==> decoder.Valid()
    {
      hide ReadUnsigned;
      if decoder.cursor == decoder.end {
        return Ok(false);
      }
      var tag := decoder.ReadUnsignedVarint32();
      if tag.Err? {
        return Err(tag.error);
      }
      var field, wire := tag.value / 8, tag.value % 8;
      if wire > 5 {
        return Err(InvalidWireType);
      }
      if field < 1 {
        return Err(InvalidFieldNumber);
      }
      nextField, nextWireType := field, wire;
      r := Ok(true);
    }

    method ReadInt32() returns (r: Result<int, WireError>)
      requires decoder.Valid()
      modifies decoder`cursor
      ensures r.Err? ==> WireFormat.ReadInt32(decoder.bytes, old(Current()), decoder.end) == Err(r.error)
      ensures r.Ok? ==> WireFormat.ReadInt32(decoder.bytes, old(Current()), decoder.end) == Ok(Got(r.value, decoder.cursor))
      ensures r.Ok? ==> decoder.Valid()
    {
      hide ReadSigned;
      if nextWireType != VARINT {
        return Err(WrongWireType);
      }
      r := decoder.ReadSignedVarint32();
    }

    method ReadString() returns (r: Result<Bytes, WireError>)
      requires decoder.Valid()
      modifies decoder`cursor
      ensures r.Err? ==> WireFormat.ReadString(decoder.bytes, old(Current()), decoder.end) == Err(r.error)
      ensures r.Ok? ==> WireFormat.ReadString(decoder.bytes, old(Current()), decoder.end) == Ok(Got(r.value, decoder.cursor))
      ensures r.Ok? ==> decoder.Valid()
    {
      hide ReadUnsigned;
      if nextWireType != DELIMITED {
        return Err(WrongWireType);
      }
      var length := decoder.ReadUnsignedVarint32();
      if length.Err? {
        return Err(length.error);
      }
      r := decoder.ReadString(length.value);
    }

    method SkipField() returns (r: Result<nat, WireError>)
      requires decoder.Valid()
      modifies this, decoder`cursor
      ensures r == Skip(decoder.bytes, old(Current()), decoder.end)
      ensures r.Ok? ==> decoder.cursor == r.value && decoder.Valid() && old(decoder.cursor) <= decoder.cursor
      decreases decoder.end - decoder.cursor, 1
    {
      hide ReadUnsigned, VarintEnd;
      if nextWireType == VARINT {
        r := decoder.SkipVarint();
      } else if nextWireType == FIXED64 {
        r := decoder.Advance(8);
      } else if nextWireType == DELIMITED {
        var length := decoder.ReadUnsignedVarint32();
        if length.Err? {
          return Err(length.error);
        }
        r := decoder.Advance(length.value);
      } else if nextWireType == FIXED32 {
        r := decoder.Advance(4);
      } else if nextWireType == START_GROUP {
        r := SkipGroup();
      } else {
        r := Err(InvalidWireType);
      }
    }

    method SkipGroup() returns (r: Result<nat, WireError>)
      requires decoder.Valid()
      modifies this, decoder`cursor
      ensures r == WireFormat.SkipGroup(decoder.bytes, old(decoder.cursor), decoder.end, old(nextField))
      ensures r.Ok? ==> decoder.cursor == r.value && decoder.Valid() && old(decoder.cursor) <= decoder.cursor
      decreases decoder.end - decoder.cursor, 0
    {
      hide Skip, WireFormat.NextField;
      var field := nextField;
      while true
        invariant decoder.Valid() && old(decoder.cursor) <= decoder.cursor && decoder.end == old(decoder.end)
        invariant WireFormat.SkipGroup(decoder.bytes, decoder.cursor, decoder.end, field) ==
                  WireFormat.SkipGroup(decoder.bytes, old(decoder.cursor), decoder.end, field)
        decreases decoder.end - decoder.cursor
      {
        var found := NextField();
        if found.Err? {
          return Err(found.error);
        }
        if !found.value {
          return Err(UnmatchedGroup);
        }
        if nextWireType == END_GROUP {
          return if nextField == field then Ok(decoder.cursor) else Err(UnmatchedGroup);
        }
        var skipped := SkipField();
        if skipped.Err? {
          return Err(skipped.error);
        }
      }
    }

    /** The length of a submessage: the end is drawn in to where it stops, the old one returned. */
    method EnterMessage() returns (r: Result<nat, WireError>)
      requires decoder.Valid()
      modifies decoder
      ensures r.Err? ==> SubMessage(decoder.bytes, old(Current()), old(decoder.end)) == Err(r.error)
      ensures r.Ok? ==> SubMessage(decoder.bytes, old(Current()), old(decoder.end)) == Ok(Got(decoder.end, decoder.cursor))
      ensures r.Ok? ==> r.value == old(decoder.end) && decoder.Valid()
    {
      hide ReadUnsigned;
      if nextWireType != DELIMITED {
        return Err(WrongWireType);
      }
      var outer := decoder.end;
      var length := decoder.ReadUnsignedVarint32();
      if length.Err? {
        return Err(length.error);
      }
      var stop := decoder.cursor + length.value;
      if stop > outer {
        return Err(LengthMismatch);
      }
      decoder.end := stop;
      r := Ok(outer);
    }

    /** Back to the enclosing message, which the submessage must have used up exactly. */
    method LeaveMessage(outer: nat) returns (ok: bool)
      requires decoder.Valid() && decoder.end <= outer <= |decoder.bytes|
      modifies decoder`end
      ensures ok == (decoder.cursor == old(decoder.end))
      ensures ok ==> decoder.end == outer && decoder.Valid()
    {
      if decoder.cursor != decoder.end {
        return false;
      }
      decoder.end := outer;
      ok := true;
    }
  }

  // ---- The generated deserialisers ----

  method DeserializeResult(reader: BinaryReader) returns (r: Result<MatchFoundResult, WireError>)
    requires reader.decoder.Valid()
    modifies reader, reader.decoder`cursor
    ensures var all := DecodeResult(reader.decoder.bytes, old(reader.decoder.cursor), reader.decoder.end, NO_RESULT);
            && (r.Err? ==> all == Err(r.error))
            && (r.Ok? ==> all == Ok(Got(r.value, reader.decoder.cursor)))
    ensures r.Ok? ==> reader.decoder.Valid()
  {
    hide NextField, ReadString, Skip;
    var d := reader.decoder;
    var msg := NO_RESULT;
    while true
      invariant d.Valid() && d.end == old(d.end)
      invariant DecodeResult(d.bytes, d.cursor, d.end, msg) == DecodeResult(d.bytes, old(d.cursor), d.end, NO_RESULT)
      decreases d.end - d.cursor
    {
      var more := reader.NextField();
      if more.Err? {
        return Err(more.error);
      }
      if !more.value || reader.nextWireType == END_GROUP {
        return Ok(msg);
      }
      if 1 <= reader.nextField <= 4 {
        var value := reader.ReadString();
        if value.Err? {
          return Err(value.error);
        }
        msg := WithResultString(msg, reader.nextField, value.value);
      } else {
        var skipped := reader.SkipField();
        if skipped.Err? {
          return Err(skipped.error);
        }
      }
    }
  }

  method ReadResultMessage(reader: BinaryReader) returns (r: Result<MatchFoundResult, WireError>)
    requires reader.decoder.Valid()
    modifies reader, reader.decoder
    ensures var all := ResultMessageRead(reader.decoder.bytes, old(reader.Current()), old(reader.decoder.end));
            && (r.Err? ==> all == Err(r.error))
            && (r.Ok? ==> all == Ok(Got(r.value, reader.decoder.cursor)))
    ensures r.Ok? ==> reader.decoder.Valid() && reader.decoder.end == old(reader.decoder.end)
  {
    hide SubMessage, DecodeResult;
    var outer := reader.EnterMessage();
    if outer.Err? {
      return Err(outer.error);
    }
    r := DeserializeResult(reader);
    if r.Ok? {
      var ok := reader.LeaveMessage(outer.value);
      if !ok {
        r := Err(LengthMismatch);
      }
    }
  }

  method DeserializeUpdate(reader: BinaryReader) returns (r: Result<MatchmakingUpdate, WireError>)
    requires reader.decoder.Valid()
    modifies reader, reader.decoder
    ensures var all := DecodeUpdate(reader.decoder.bytes, old(reader.decoder.cursor), old(reader.decoder.end), NO_UPDATE);
            && (r.Err? ==> all == Err(r.error))
            && (r.Ok? ==> all == Ok(Got(r.value, reader.decoder.cursor)))
  {
    hide NextField, ReadInt32, ResultMessageRead, Skip;
    var d := reader.decoder;
    var msg := NO_UPDATE;
    while true
      invariant d.Valid() && d.end == old(d.end)
      invariant DecodeUpdate(d.bytes, d.cursor, d.end, msg) == DecodeUpdate(d.bytes, old(d.cursor), d.end, NO_UPDATE)
      decreases d.end - d.cursor
    {
      var more := reader.NextField();
      if more.Err? {
        return Err(more.error);
      }
      if !more.value || reader.nextWireType == END_GROUP {
        return Ok(msg);
      }
      if reader.nextField == 1 || reader.nextField == 3 || reader.nextField == 4 {
        var value := reader.ReadInt32();
        if value.Err? {
          return Err(value.error);
        }
        msg := WithUpdateNumber(msg, reader.nextField, value.value);
      } else if reader.nextField == 2 {
        var value := ReadResultMessage(reader);
        if value.Err? {
          return Err(value.error);
        }
        msg := msg.(matchResult := Some(value.value));
      } else {
        var skipped := reader.SkipField();
        if skipped.Err? {
          return Err(skipped.error);
        }
      }
    }
  }

  /** `deserializeBinary`: it undoes the serialiser. */
  method DeserializeBinary(bytes: Bytes) returns (r: Result<MatchmakingUpdate, WireError>)
    ensures r == UpdateFrom(bytes)
    ensures forall u :: UpdateInts(u) && bytes == UpdateBytes(u) && |bytes| < TWO_32 ==> r == Ok(u)
  {
    hide DecodeUpdate, EncodeUpdate, UpdateBytes, UpdateInts;
    forall u | UpdateInts(u) && bytes == UpdateBytes(u) && |bytes| < TWO_32
      ensures UpdateFrom(bytes) == Ok(u)
    {
      UpdateWire(u);
      UpdateRoundTrip(u);
    }
    var reader := new BinaryReader(bytes);
    r := DeserializeUpdate(reader);
  }

  method DeserializeRoom(reader: BinaryReader) returns (r: Result<RoomInfo, WireError>)
    requires reader.decoder.Valid()
    modifies reader, reader.decoder`cursor
    ensures var all := DecodeRoom(reader.decoder.bytes, old(reader.decoder.cursor), reader.decoder.end, NO_ROOM);
            && (r.Err? ==> all == Err(r.error))
            && (r.Ok? ==> all == Ok(Got(r.value, reader.decoder.cursor)))
    ensures r.Ok? ==> reader.decoder.Valid()
  {
    hide NextField, ReadString, ReadInt32, Skip;
    var d := reader.decoder;
    var msg := NO_ROOM;
    while true
      invariant d.Valid() && d.end == old(d.end)
      invariant DecodeRoom(d.bytes, d.cursor, d.end, msg) == DecodeRoom(d.bytes, old(d.cursor), d.end, NO_ROOM)
      decreases d.end - d.cursor
    {
      var more := reader.NextField();
      if more.Err? {
        return Err(more.error);
      }
      if !more.value || reader.nextWireType == END_GROUP {
        return Ok(msg);
      }
      var field := reader.nextField;
      if field == 1 || field == 2 || field == 5 {
        var value := reader.ReadString();
        if value.Err? {
          return Err(value.error);
        }
        msg := WithRoomString(msg, field, value.value);
      } else if field == 3 || field == 4 {
        var value := reader.ReadInt32();
        if value.Err? {
          return Err(value.error);
        }
        msg := WithRoomNumber(msg, field, value.value);
      } else {
        var skipped := reader.SkipField();
        if skipped.Err? {
          return Err(skipped.error);
        }
      }
    }
  }

  method ReadRoomMessage(reader: BinaryReader) returns (r: Result<RoomInfo, WireError>)
    requires reader.decoder.Valid()
    modifies reader, reader.decoder
    ensures var all := RoomMessageRead(reader.decoder.bytes, old(reader.Current()), old(reader.decoder.end));
            && (r.Err? ==> all == Err(r.error))
            && (r.Ok? ==> all == Ok(Got(r.value, reader.decoder.cursor)))
    ensures r.Ok? ==> reader.decoder.Valid() && reader.decoder.end == old(reader.decoder.end)
  {
    hide SubMessage, DecodeRoom;
    var outer := reader.EnterMessage();
    if outer.Err? {
      return Err(outer.error);
    }
    r := DeserializeRoom(reader);
    if r.Ok? {
      var ok := reader.LeaveMessage(outer.value);
      if !ok {
        r := Err(LengthMismatch);
      }
    }
  }

  method DeserializeRooms(reader: BinaryReader) returns (r: Result<seq<RoomInfo>, WireError>)
    requires reader.decoder.Valid()
    modifies reader, reader.decoder
    ensures var all := DecodeRooms(reader.decoder.bytes, old(reader.decoder.cursor), old(reader.decoder.end), []);
            && (r.Err? ==> all == Err(r.error))
            && (r.Ok? ==> all == Ok(Got(r.value, reader.decoder.cursor)))
  {
    hide NextField, RoomMessageRead, Skip;
    var d := reader.decoder;
    var rooms: seq<RoomInfo> := [];
    while true
      invariant d.Valid() && d.end == old(d.end)
      invariant DecodeRooms(d.bytes, d.cursor, d.end, rooms) == DecodeRooms(d.bytes, old(d.cursor), d.end, [])
      decreases d.end - d.cursor
    {
      var more := reader.NextField();
      if more.Err? {
        return Err(more.error);
      }
      if !more.value || reader.nextWireType == END_GROUP {
        return Ok(rooms);
      }
      if reader.nextField == 1 {
        var value := ReadRoomMessage(reader);
        if value.Err? {
          return Err(value.error);
        }
        rooms := rooms + [value.value];
      } else {
        var skipped := reader.SkipField();
        if skipped.Err? {
          return Err(skipped.error);
        }
      }
    }
  }

  /** `deserializeBinary` of the list of active rooms: it undoes the serialiser. */
  method DeserializeRoomsBinary(bytes: Bytes) returns (r: Result<seq<RoomInfo>, WireError>)
    ensures r == RoomsFrom(bytes)
    ensures forall rooms :: bytes == EncodeRooms(rooms) && |bytes| < TWO_32 && AllRoomInts(rooms) ==> r == Ok(rooms)
  {
    hide DecodeRooms, EncodeRooms, AllRoomInts;
    forall rooms | bytes == EncodeRooms(rooms) && |bytes| < TWO_32 && AllRoomInts(rooms)
      ensures RoomsFrom(bytes) == Ok(rooms)
    {
      RoomIntsOf(rooms);
      RoomsRoundTrip(rooms);
    }
    var reader := new BinaryReader(bytes);
    r := DeserializeRooms(reader);
  }

  predicate AllRoomInts(rooms: seq<RoomInfo>) {
    forall i :: 0 <= i < |rooms| ==> RoomInts(rooms[i])
  }

  lemma RoomIntsOf(rooms: seq<RoomInfo>)
    requires AllRoomInts(rooms)
    ensures forall i :: 0 <= i < |rooms| ==> RoomInts(rooms[i])
  {
  }
}
