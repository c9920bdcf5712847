/** What is written can be read back: every matchmaking message, and whatever stands behind it. */
module WireRoundTrip {
  import opened HexTypes
  import opened WireFormat

  // ---- Single fields ----

  lemma HeaderRead(bytes: Bytes, c: nat, end: nat, field: nat, wire: nat)
    requires At(bytes, c, Header(field, wire)) && c + |Header(field, wire)| <= end
    requires 1 <= field <= 5 && wire <= 2
    ensures NextField(bytes, c, end) == Ok(Some(Tag(field, wire, c + |Header(field, wire)|)))
  {
    UnsignedRoundTrip(8 * field + wire, bytes, c, end);
    assert (8 * field + wire) % 8 == wire && (8 * field + wire) / 8 == field;
    assert |Header(field, wire)| > 0;
    hide ReadUnsigned;
  }

  lemma DelimitedRead(bytes: Bytes, c: nat, end: nat, field: nat, body: Bytes)
    requires At(bytes, c, Delimited(field, body)) && c + |Delimited(field, body)| <= end <= |bytes|
    requires 1 <= field <= 5 && |body| < TWO_32
    ensures var tag := Tag(field, DELIMITED, c + |Header(field, DELIMITED)|);
            var after := c + |Delimited(field, body)|;
            && tag.cursor <= end
            && NextField(bytes, c, end) == Ok(Some(tag))
            && ReadString(bytes, tag, end) == Ok(Got(body, after))
            && SubMessage(bytes, tag, end) == Ok(Got(after, after - |body|))
            && At(bytes, after - |body|, body)
  {
    hide Header, Varint, ReadUnsigned, NextField;
    var head, size := Header(field, DELIMITED), Varint(|body|);
    assert Delimited(field, body) == head + (size + body);
    AtSplit(bytes, c, head, size + body);
    AtSplit(bytes, c + |head|, size, body);
    HeaderRead(bytes, c, end, field, DELIMITED);
    UnsignedRoundTrip(|body|, bytes, c + |head|, end);
  }

  lemma Int32Read(bytes: Bytes, c: nat, end: nat, field: nat, v: int)
    requires v != 0 && At(bytes, c, Int32Field(field, v)) && c + |Int32Field(field, v)| <= end
    requires 1 <= field <= 5 && IsInt32(v)
    ensures var tag := Tag(field, VARINT, c + |Header(field, VARINT)|);
            && tag.cursor <= end
            && NextField(bytes, c, end) == Ok(Some(tag))
            && ReadInt32(bytes, tag, end) == Ok(Got(v, c + |Int32Field(field, v)|))
  {
    hide Header, SignedVarint, ReadSigned, NextField;
    AtSplit(bytes, c, Header(field, VARINT), SignedVarint(v));
    HeaderRead(bytes, c, end, field, VARINT);
    SignedRoundTrip(v, bytes, c + |Header(field, VARINT)|, end);
  }

  // ---- MatchFoundResult ----

  /** A string field moves into the message and the reader goes on behind it. */
  lemma ResultStep(bytes: Bytes, c: nat, end: nat, field: nat, s: Bytes, msg: MatchFoundResult)
    requires At(bytes, c, StringField(field, s)) && c + |StringField(field, s)| <= end <= |bytes|
    requires 1 <= field <= 4 && |s| < TWO_32 && (s == [] ==> WithResultString(msg, field, s) == msg)
    ensures DecodeResult(bytes, c, end, msg) ==
            DecodeResult(bytes, c + |StringField(field, s)|, end, WithResultString(msg, field, s))
  {
    hide NextField, ReadString, SubMessage, Delimited, At, DecodeResult, Header, WithResultString;
    if s == [] {
      assert c + |StringField(field, s)| == c;
    } else {
      assert StringField(field, s) == Delimited(field, s);
      DelimitedRead(bytes, c, end, field, s);
      DecodeResultOne(bytes, c, end, msg, Tag(field, DELIMITED, c + |Header(field, DELIMITED)|));
    }
  }

  lemma DecodeResultOne(bytes: Bytes, c: nat, end: nat, msg: MatchFoundResult, tag: Tag)
    requires c <= end <= |bytes| && tag.cursor <= end
    requires NextField(bytes, c, end) == Ok(Some(tag)) && tag.wire != END_GROUP
    requires ResultFieldRead(bytes, tag, end, msg).Ok?
    ensures var got := ResultFieldRead(bytes, tag, end, msg).value;
            DecodeResult(bytes, c, end, msg) == DecodeResult(bytes, got.cursor, end, got.value)
  {
    hide NextField, ResultFieldRead;
  }

  lemma ResultSizes(m: MatchFoundResult)
    ensures |m.roomId| <= |EncodeResult(m)| && |m.playerSide| <= |EncodeResult(m)|
    ensures |m.wsEndpoint| <= |EncodeResult(m)| && |m.opponentId| <= |EncodeResult(m)|
  {
    hide Header, Varint;
  }

  lemma FourAt(bytes: Bytes, c: nat, f1: Bytes, f2: Bytes, f3: Bytes, f4: Bytes)
    requires At(bytes, c, f1 + f2 + f3 + f4)
    ensures At(bytes, c, f1) && At(bytes, c + |f1|, f2) && At(bytes, c + |f1| + |f2|, f3)
    ensures At(bytes, c + |f1| + |f2| + |f3|, f4)
    ensures |f1 + f2 + f3 + f4| == |f1| + |f2| + |f3| + |f4|
    ensures c + |f1| + |f2| + |f3| + |f4| <= |bytes|
  {
    AtSplit(bytes, c, f1 + f2 + f3, f4);
    AtSplit(bytes, c, f1 + f2, f3);
    AtSplit(bytes, c, f1, f2);
  }

  /** A message stands where it was written: reading it up to its end gives it back. */
  lemma ResultReads(bytes: Bytes, c: nat, m: MatchFoundResult)
    requires At(bytes, c, EncodeResult(m)) && |EncodeResult(m)| < TWO_32
    ensures c + |EncodeResult(m)| <= |bytes|
    ensures DecodeResult(bytes, c, c + |EncodeResult(m)|, NO_RESULT) == Ok(Got(m, c + |EncodeResult(m)|))
  {
    hide StringField, DecodeResult, At;
    ResultSizes(m);
    var f1, f2, f3, f4 := StringField(1, m.roomId), StringField(2, m.playerSide), StringField(3, m.wsEndpoint), StringField(4, m.opponentId);
    FourAt(bytes, c, f1, f2, f3, f4);
    ResultChain(bytes, c, c + |f1| + |f2| + |f3| + |f4|, m);
  }

  lemma ResultChain(bytes: Bytes, c: nat, end: nat, m: MatchFoundResult)
    requires var f1, f2, f3 := StringField(1, m.roomId), StringField(2, m.playerSide), StringField(3, m.wsEndpoint);
             && At(bytes, c, f1) && At(bytes, c + |f1|, f2) && At(bytes, c + |f1| + |f2|, f3)
             && At(bytes, c + |f1| + |f2| + |f3|, StringField(4, m.opponentId))
             && end == c + |f1| + |f2| + |f3| + |StringField(4, m.opponentId)| <= |bytes|
    requires |m.roomId| < TWO_32 && |m.playerSide| < TWO_32 && |m.wsEndpoint| < TWO_32 && |m.opponentId| < TWO_32
    ensures DecodeResult(bytes, c, end, NO_RESULT) == Ok(Got(m, end))
  {
    hide StringField, DecodeResult, At;
    var c1 := c + |StringField(1, m.roomId)|;
    var c2 := c1 + |StringField(2, m.playerSide)|;
    var c3 := c2 + |StringField(3, m.wsEndpoint)|;
    ResultStep(bytes, c, end, 1, m.roomId, NO_RESULT);
    ResultStep(bytes, c1, end, 2, m.playerSide, MatchFoundResult(m.roomId, [], [], []));
    ResultStep(bytes, c2, end, 3, m.wsEndpoint, MatchFoundResult(m.roomId, m.playerSide, [], []));
    ResultStep(bytes, c3, end, 4, m.opponentId, MatchFoundResult(m.roomId, m.playerSide, m.wsEndpoint, []));
    ResultEnds(bytes, end, m);
  }

  lemma ResultEnds(bytes: Bytes, end: nat, m: MatchFoundResult)
    requires end <= |bytes|
    ensures DecodeResult(bytes, end, end, m) == Ok(Got(m, end))
  {
  }

  lemma ResultRoundTrip(m: MatchFoundResult)
    requires |EncodeResult(m)| < TWO_32
    ensures ResultFrom(EncodeResult(m)) == Ok(m)
  {
    hide EncodeResult, DecodeResult;
    WholeAt(EncodeResult(m));
    ResultReads(EncodeResult(m), 0, m);
  }

  lemma WholeAt(bytes: Bytes)
    ensures At(bytes, 0, bytes)
  {
    assert bytes[0..0 + |bytes|] == bytes;
  }

  // ---- MatchmakingUpdate ----

  lemma DecodeUpdateOne(bytes: Bytes, c: nat, end: nat, msg: MatchmakingUpdate, tag: Tag)
    requires c <= end <= |bytes| && tag.cursor <= end
    requires NextField(bytes, c, end) == Ok(Some(tag)) && tag.wire != END_GROUP
    requires UpdateFieldRead(bytes, tag, end, msg).Ok?
    ensures var got := UpdateFieldRead(bytes, tag, end, msg).value;
            DecodeUpdate(bytes, c, end, msg) == DecodeUpdate(bytes, got.cursor, end, got.value)
  {
    hide NextField, UpdateFieldRead;
  }

  lemma UpdateNumberStep(bytes: Bytes, c: nat, end: nat, field: nat, v: int, msg: MatchmakingUpdate)
    requires At(bytes, c, Int32Field(field, v)) && c + |Int32Field(field, v)| <= end <= |bytes|
    requires (field == 1 || field == 3 || field == 4) && IsInt32(v) && (v == 0 ==> WithUpdateNumber(msg, field, v) == msg)
    ensures DecodeUpdate(bytes, c, end, msg) ==
            DecodeUpdate(bytes, c + |Int32Field(field, v)|, end, WithUpdateNumber(msg, field, v))
  {
    hide NextField, ReadInt32, At, DecodeUpdate, Header, WithUpdateNumber, SignedVarint;
    if v == 0 {
      assert c + |Int32Field(field, v)| == c;
    } else {
      Int32Read(bytes, c, end, field, v);
      DecodeUpdateOne(bytes, c, end, msg, Tag(field, VARINT, c + |Header(field, VARINT)|));
    }
  }

  lemma UpdateResultStep(bytes: Bytes, c: nat, end: nat, m: Option<MatchFoundResult>, msg: MatchmakingUpdate)
    requires At(bytes, c, ResultField(m)) && c + |ResultField(m)| <= end <= |bytes|
    requires (m.Some? ==> |EncodeResult(m.value)| < TWO_32) && (m.None? ==> msg.matchResult == None)
    ensures DecodeUpdate(bytes, c, end, msg) == DecodeUpdate(bytes, c + |ResultField(m)|, end, msg.(matchResult := m))
  {
    hide NextField, SubMessage, Delimited, At, DecodeUpdate, DecodeResult, Header, EncodeResult;
    if m.None? {
      assert c + |ResultField(m)| == c;
    } else {
      DelimitedRead(bytes, c, end, 2, EncodeResult(m.value));
      ResultReads(bytes, c + |ResultField(m)| - |EncodeResult(m.value)|, m.value);
      DecodeUpdateOne(bytes, c, end, msg, Tag(2, DELIMITED, c + |Header(2, DELIMITED)|));
    }
  }

  lemma UpdateEnds(bytes: Bytes, end: nat, u: MatchmakingUpdate)
    requires end <= |bytes|
    ensures DecodeUpdate(bytes, end, end, u) == Ok(Got(u, end))
  {
  }

  predicate UpdateInts(u: MatchmakingUpdate) {
    IsInt32(u.status) && IsInt32(u.queuePosition) && IsInt32(u.estimatedWait)
  }

  lemma UpdateChain(bytes: Bytes, c: nat, end: nat, u: MatchmakingUpdate)
    requires var f1, f2, f3 := Int32Field(1, u.status), ResultField(u.matchResult), Int32Field(3, u.queuePosition);
             && At(bytes, c, f1) && At(bytes, c + |f1|, f2) && At(bytes, c + |f1| + |f2|, f3)
             && At(bytes, c + |f1| + |f2| + |f3|, Int32Field(4, u.estimatedWait))
             && end == c + |f1| + |f2| + |f3| + |Int32Field(4, u.estimatedWait)| <= |bytes|
    requires UpdateInts(u)
    requires u.matchResult.Some? ==> |EncodeResult(u.matchResult.value)| < TWO_32
    ensures DecodeUpdate(bytes, c, end, NO_UPDATE) == Ok(Got(u, end))
  {
    hide Int32Field, ResultField, EncodeResult, DecodeUpdate, At, IsInt32;
    var c1 := c + |Int32Field(1, u.status)|;
    var c2 := c1 + |ResultField(u.matchResult)|;
    var c3 := c2 + |Int32Field(3, u.queuePosition)|;
    UpdateNumberStep(bytes, c, end, 1, u.status, NO_UPDATE);
    UpdateResultStep(bytes, c1, end, u.matchResult, MatchmakingUpdate(u.status, None, 0, 0));
    UpdateNumberStep(bytes, c2, end, 3, u.queuePosition, MatchmakingUpdate(u.status, u.matchResult, 0, 0));
    UpdateNumberStep(bytes, c3, end, 4, u.estimatedWait, MatchmakingUpdate(u.status, u.matchResult, u.queuePosition, 0));
    UpdateEnds(bytes, end, u);
  }

  lemma ResultFieldSize(m: Option<MatchFoundResult>)
    ensures m.Some? ==> |EncodeResult(m.value)| <= |ResultField(m)|
  {
    hide EncodeResult, Header, Varint;
  }

  /** Deserialising a serialised update, nested match result and negative numbers included, gives
      the same update. */
  lemma UpdateRoundTrip(u: MatchmakingUpdate)
    requires UpdateInts(u)
    requires |EncodeUpdate(u)| < TWO_32
    ensures UpdateFrom(EncodeUpdate(u)) == Ok(u)
  {
    hide Int32Field, ResultField, EncodeResult, DecodeUpdate, At, IsInt32;
    WholeAt(EncodeUpdate(u));
    var f1, f2, f3, f4 := Int32Field(1, u.status), ResultField(u.matchResult), Int32Field(3, u.queuePosition), Int32Field(4, u.estimatedWait);
    FourAt(EncodeUpdate(u), 0, f1, f2, f3, f4);
    ResultFieldSize(u.matchResult);
    UpdateChain(EncodeUpdate(u), 0, |EncodeUpdate(u)|, u);
  }

  // ---- RoomInfo and ListActiveRoomsResponse ----

  lemma DecodeRoomOne(bytes: Bytes, c: nat, end: nat, msg: RoomInfo, tag: Tag)
    requires c <= end <= |bytes| && tag.cursor <= end
    requires NextField(bytes, c, end) == Ok(Some(tag)) && tag.wire != END_GROUP
    requires RoomFieldRead(bytes, tag, end, msg).Ok?
    ensures var got := RoomFieldRead(bytes, tag, end, msg).value;
            DecodeRoom(bytes, c, end, msg) == DecodeRoom(bytes, got.cursor, end, got.value)
  {
    hide NextField, RoomFieldRead;
  }

  lemma RoomStringStep(bytes: Bytes, c: nat, end: nat, field: nat, s: Bytes, msg: RoomInfo)
    requires At(bytes, c, StringField(field, s)) && c + |StringField(field, s)| <= end <= |bytes|
    requires (field == 1 || field == 2 || field == 5) && |s| < TWO_32 && (s == [] ==> WithRoomString(msg, field, s) == msg)
    ensures DecodeRoom(bytes, c, end, msg) ==
            DecodeRoom(bytes, c + |StringField(field, s)|, end, WithRoomString(msg, field, s))
  {
    hide NextField, ReadString, SubMessage, Delimited, At, DecodeRoom, Header, WithRoomString;
    if s == [] {
      assert c + |StringField(field, s)| == c;
    } else {
      assert StringField(field, s) == Delimited(field, s);
      DelimitedRead(bytes, c, end, field, s);
      DecodeRoomOne(bytes, c, end, msg, Tag(field, DELIMITED, c + |Header(field, DELIMITED)|));
    }
  }

  lemma RoomNumberStep(bytes: Bytes, c: nat, end: nat, field: nat, v: int, msg: RoomInfo)
    requires At(bytes, c, Int32Field(field, v)) && c + |Int32Field(field, v)| <= end <= |bytes|
    requires (field == 3 || field == 4) && IsInt32(v) && (v == 0 ==> WithRoomNumber(msg, field, v) == msg)
    ensures DecodeRoom(bytes, c, end, msg) ==
            DecodeRoom(bytes, c + |Int32Field(field, v)|, end, WithRoomNumber(msg, field, v))
  {
    hide NextField, ReadInt32, At, DecodeRoom, Header, WithRoomNumber, SignedVarint;
    if v == 0 {
      assert c + |Int32Field(field, v)| == c;
    } else {
      Int32Read(bytes, c, end, field, v);
      DecodeRoomOne(bytes, c, end, msg, Tag(field, VARINT, c + |Header(field, VARINT)|));
    }
  }

  lemma RoomEnds(bytes: Bytes, end: nat, m: RoomInfo)
    requires end <= |bytes|
    ensures DecodeRoom(bytes, end, end, m) == Ok(Got(m, end))
  {
  }

  predicate RoomInts(m: RoomInfo) {
    IsInt32(m.currentRound) && IsInt32(m.playerCount)
  }

  lemma RoomSizes(m: RoomInfo)
    ensures |m.roomId| <= |EncodeRoom(m)| && |m.phase| <= |EncodeRoom(m)| && |m.createdAt| <= |EncodeRoom(m)|
  {
    hide Header, Varint, SignedVarint;
  }

  lemma RoomReads(bytes: Bytes, c: nat, m: RoomInfo)
    requires At(bytes, c, EncodeRoom(m)) && |EncodeRoom(m)| < TWO_32 && RoomInts(m)
    ensures c + |EncodeRoom(m)| <= |bytes|
    ensures DecodeRoom(bytes, c, c + |EncodeRoom(m)|, NO_ROOM) == Ok(Got(m, c + |EncodeRoom(m)|))
  {
    hide StringField, Int32Field, DecodeRoom, At, IsInt32;
    RoomSizes(m);
    var f1, f2, f3, f4 := StringField(1, m.roomId), StringField(2, m.phase), Int32Field(3, m.currentRound), Int32Field(4, m.playerCount);
    var f5 := StringField(5, m.createdAt);
    AtSplit(bytes, c, f1 + f2 + f3 + f4, f5);
    FourAt(bytes, c, f1, f2, f3, f4);
    AtFits(bytes, c + |f1 + f2 + f3 + f4|, f5);
    RoomChain(bytes, c, c + |EncodeRoom(m)|, m);
  }

  lemma AtFits(bytes: Bytes, c: nat, s: Bytes)
    requires At(bytes, c, s)
    ensures c + |s| <= |bytes|
  {
  }

  lemma RoomChain(bytes: Bytes, c: nat, end: nat, m: RoomInfo)
    requires var c1 := c + |StringField(1, m.roomId)|;
             var c2 := c1 + |StringField(2, m.phase)|;
             var c3 := c2 + |Int32Field(3, m.currentRound)|;
             var c4 := c3 + |Int32Field(4, m.playerCount)|;
             && At(bytes, c, StringField(1, m.roomId)) && At(bytes, c1, StringField(2, m.phase))
             && At(bytes, c2, Int32Field(3, m.currentRound)) && At(bytes, c3, Int32Field(4, m.playerCount))
             && At(bytes, c4, StringField(5, m.createdAt))
             && end == c4 + |StringField(5, m.createdAt)| <= |bytes|
    requires |m.roomId| < TWO_32 && |m.phase| < TWO_32 && |m.createdAt| < TWO_32 && RoomInts(m)
    ensures DecodeRoom(bytes, c, end, NO_ROOM) == Ok(Got(m, end))
  {
    hide StringField, Int32Field, DecodeRoom, At, IsInt32;
    var c1 := c + |StringField(1, m.roomId)|;
    var c2 := c1 + |StringField(2, m.phase)|;
    var c3 := c2 + |Int32Field(3, m.currentRound)|;
    var c4 := c3 + |Int32Field(4, m.playerCount)|;
    RoomStringStep(bytes, c, end, 1, m.roomId, NO_ROOM);
    RoomStringStep(bytes, c1, end, 2, m.phase, RoomInfo(m.roomId, [], 0, 0, []));
    RoomNumberStep(bytes, c2, end, 3, m.currentRound, RoomInfo(m.roomId, m.phase, 0, 0, []));
    RoomNumberStep(bytes, c3, end, 4, m.playerCount, RoomInfo(m.roomId, m.phase, m.currentRound, 0, []));
    RoomStringStep(bytes, c4, end, 5, m.createdAt, RoomInfo(m.roomId, m.phase, m.currentRound, m.playerCount, []));
    RoomEnds(bytes, end, m);
  }

  lemma DecodeRoomsOne(bytes: Bytes, c: nat, end: nat, rooms: seq<RoomInfo>, tag: Tag)
    requires c <= end <= |bytes| && tag.cursor <= end
    requires NextField(bytes, c, end) == Ok(Some(tag)) && tag.wire != END_GROUP
    requires RoomsFieldRead(bytes, tag, end, rooms).Ok?
    ensures var got := RoomsFieldRead(bytes, tag, end, rooms).value;
            DecodeRooms(bytes, c, end, rooms) == DecodeRooms(bytes, got.cursor, end, got.value)
  {
    hide NextField, RoomsFieldRead;
  }

  lemma RoomsStep(bytes: Bytes, c: nat, end: nat, m: RoomInfo, rooms: seq<RoomInfo>)
    requires At(bytes, c, Delimited(1, EncodeRoom(m))) && c + |Delimited(1, EncodeRoom(m))| <= end <= |bytes|
    requires |EncodeRoom(m)| < TWO_32 && RoomInts(m)
    ensures DecodeRooms(bytes, c, end, rooms) == DecodeRooms(bytes, c + |Delimited(1, EncodeRoom(m))|, end, rooms + [m])
  {
    hide NextField, SubMessage, Delimited, At, DecodeRoom, DecodeRooms, Header, EncodeRoom;
    DelimitedRead(bytes, c, end, 1, EncodeRoom(m));
    RoomReads(bytes, c + |Delimited(1, EncodeRoom(m))| - |EncodeRoom(m)|, m);
    DecodeRoomsOne(bytes, c, end, rooms, Tag(1, DELIMITED, c + |Header(1, DELIMITED)|));
  }

  lemma DelimitedSize(field: nat, body: Bytes)
    ensures |body| <= |Delimited(field, body)|
  {
    hide Header, Varint;
  }

  lemma {:induction false} RoomsRead(bytes: Bytes, c: nat, rooms: seq<RoomInfo>, before: seq<RoomInfo>)
    requires At(bytes, c, EncodeRooms(rooms)) && |bytes| < TWO_32 && c + |EncodeRooms(rooms)| == |bytes|
    requires forall i :: 0 <= i < |rooms| ==> RoomInts(rooms[i])
    ensures DecodeRooms(bytes, c, |bytes|, before) == Ok(Got(before + rooms, |bytes|))
    decreases |rooms|
  {
    hide DecodeRooms, Delimited, EncodeRoom, At, RoomInts;
    if rooms == [] {
      assert before + rooms == before;
      RoomsEnd(bytes, before);
    } else {
      var first, rest := Delimited(1, EncodeRoom(rooms[0])), EncodeRooms(rooms[1..]);
      AtSplit(bytes, c, first, rest);
      DelimitedSize(1, EncodeRoom(rooms[0]));
      RoomsStep(bytes, c, |bytes|, rooms[0], before);
      RoomsRead(bytes, c + |first|, rooms[1..], before + [rooms[0]]);
      assert before + [rooms[0]] + rooms[1..] == before + rooms;
    }
  }

  lemma RoomsEnd(bytes: Bytes, rooms: seq<RoomInfo>)
    ensures DecodeRooms(bytes, |bytes|, |bytes|, rooms) == Ok(Got(rooms, |bytes|))
  {
  }

  /** Deserialising a serialised list of active rooms gives the same rooms in the same order. */
  lemma RoomsRoundTrip(rooms: seq<RoomInfo>)
    requires |EncodeRooms(rooms)| < TWO_32
    requires forall i :: 0 <= i < |rooms| ==> RoomInts(rooms[i])
    ensures RoomsFrom(EncodeRooms(rooms)) == Ok(rooms)
  {
    hide EncodeRooms, DecodeRooms;
    WholeAt(EncodeRooms(rooms));
    RoomsRead(EncodeRooms(rooms), 0, rooms, []);
    assert [] + rooms == rooms;
  }
}
