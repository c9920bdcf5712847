/** gRPC-Web framing: the frame a request is put in and the resumable parser that takes responses
    apart again, byte by byte, over any number of calls
    (`pa` and `jc` in HexWar.Client/wwwroot/js/generated/matchmaking_bundle.js). */
module Frames {
  import opened HexTypes
  import opened WireFormat

  const DATA := 0
  const TRAILER := 128

  datatype Frame = Frame(kind: byte, payload: Bytes)

  datatype ParseError = InvalidFrameByte | AlreadyBroken | InvalidLength

  // ---- One parser state ----

  /** Waiting for a header byte, inside the four length bytes, inside the payload, or broken. */
  datatype Phase =
    | AtHeader
    | InLength(kind: byte, length: int, count: nat)
    | InPayload(kind: byte, length: int, payload: Bytes)
    | Broken

  datatype Parser = Parser(phase: Phase, frames: seq<Frame>)

  /** The length so far shifted up by a byte, in 32-bit arithmetic. */
  function Lengthened(length: int, b: byte): int {
    ToInt32(length * 256) + b
  }

  function Completed(p: Parser, kind: byte, payload: Bytes): Parser {
    Parser(AtHeader, p.frames + [Frame(kind, payload)])
  }

  function Step(p: Parser, b: byte): Result<Parser, ParseError> {
    match p.phase
    case Broken => Err(AlreadyBroken)
    case AtHeader => if b == DATA || b == TRAILER then Ok(p.(phase := InLength(b, 0, 0))) else Err(InvalidFrameByte)
    case InLength(kind, length, count) =>
      var longer := Lengthened(length, b);
      if count + 1 < 4 then Ok(p.(phase := InLength(kind, longer, count + 1)))
      else if longer < 0 then Err(InvalidLength)
      else if longer == 0 then Ok(Completed(p, kind, []))
      else Ok(p.(phase := InPayload(kind, longer, [])))
    case InPayload(kind, length, payload) =>
      if |payload| + 1 == length then Ok(Completed(p, kind, payload + [b]))
      else Ok(p.(phase := InPayload(kind, length, payload + [b])))
  }

  function Feed(p: Parser, bytes: Bytes): Result<Parser, ParseError>
    decreases |bytes|
  {
    if bytes == [] then Ok(p)
    else match Step(p, bytes[0])
      case Err(error) => Err(error)
      case Ok(next) => Feed(next, bytes[1..])
  }

  /** One call: the frames completed so far are handed out and forgotten. */
  function Call(p: Parser, chunk: Bytes): Result<(Parser, seq<Frame>), ParseError> {
    match Feed(p, chunk)
    case Err(error) => Err(error)
    case Ok(next) => Ok((next.(frames := []), next.frames))
  }

  /** Calls on one chunk after the other, all the frames they hand out. */
  function Calls(p: Parser, chunks: seq<Bytes>): Result<(Parser, seq<Frame>), ParseError>
    decreases |chunks|
  {
    if chunks == [] then Ok((p, []))
    else match Call(p, chunks[0])
      case Err(error) => Err(error)
      case Ok((next, first)) =>
        match Calls(next, chunks[1..])
        case Err(error) => Err(error)
        case Ok((last, rest)) => Ok((last, first + rest))
  }

  function Joined(chunks: seq<Bytes>): Bytes {
    if chunks == [] then [] else chunks[0] + Joined(chunks[1..])
  }

  function Fresh(): Parser {
    Parser(AtHeader, [])
  }

  // ---- Chunking ----

  lemma {:induction false} FeedAppend(p: Parser, xs: Bytes, ys: Bytes)
    ensures Feed(p, xs + ys) == match Feed(p, xs) case Err(error) => Err(error) case Ok(next) => Feed(next, ys)
    decreases |xs|
  {
    if xs == [] {
      assert xs + ys == ys;
    } else {
      assert (xs + ys)[0] == xs[0] && (xs + ys)[1..] == xs[1..] + ys;
      var next := Step(p, xs[0]);
      if next.Ok? {
        FeedAppend(next.value, xs[1..], ys);
      }
    }
  }

  function Behind(before: seq<Frame>, p: Parser): Parser {
    p.(frames := before + p.frames)
  }

  lemma StepBehind(before: seq<Frame>, p: Parser, b: byte)
    ensures Step(Behind(before, p), b) ==
              match Step(p, b) case Err(error) => Err(error) case Ok(next) => Ok(Behind(before, next))
  {
    assert forall f: Frame :: before + p.frames + [f] == before + (p.frames + [f]);
  }

  /** Frames already completed do not matter to what follows. */
  lemma {:induction false} FeedBehind(before: seq<Frame>, p: Parser, bytes: Bytes)
    ensures Feed(Behind(before, p), bytes) ==
              match Feed(p, bytes) case Err(error) => Err(error) case Ok(next) => Ok(Behind(before, next))
    decreases |bytes|
  {
    if bytes != [] {
      StepBehind(before, p, bytes[0]);
      if Step(p, bytes[0]).Ok? {
        FeedBehind(before, Step(p, bytes[0]).value, bytes[1..]);
      }
    }
  }

  /** However a byte stream is cut into calls, the same frames come out in the same order, the
      parser ends in the same state, and it fails if and only if it fails on the whole. */
  lemma {:induction false} ChunkingIrrelevant(p: Parser, chunks: seq<Bytes>)
    requires p.frames == []
    ensures Calls(p, chunks) == Call(p, Joined(chunks))
    decreases |chunks|
  {
    if chunks == [] {
      assert p.(frames := []) == p;
    } else {
      FeedAppend(p, chunks[0], Joined(chunks[1..]));
      if Feed(p, chunks[0]).Ok? {
        var next := Feed(p, chunks[0]).value;
        ChunkingIrrelevant(next.(frames := []), chunks[1..]);
        FeedBehind(next.frames, next.(frames := []), Joined(chunks[1..]));
        assert Behind(next.frames, next.(frames := [])) == next;
      }
    }
  }

  // ---- Framing ----

  /** A length as four bytes, highest first. */
  function Length4(n: nat): Bytes
    requires n < TWO_32
  {
    [n / 0x100_0000, n / 0x1_0000 % 256, n / 0x100 % 256, n % 256]
  }

  function Framed(f: Frame): Bytes
    requires |f.payload| < TWO_32
  {
    [f.kind] + Length4(|f.payload|) + f.payload
  }

  predicate FrameOk(f: Frame) {
    (f.kind == DATA || f.kind == TRAILER) && |f.payload| < TWO_31
  }

  lemma FeedOne(p: Parser, b: byte, rest: Bytes)
    requires Step(p, b).Ok?
    ensures Feed(p, [b] + rest) == Feed(Step(p, b).value, rest)
  {
    assert ([b] + rest)[1..] == rest;
  }

  lemma ShiftedIn(m: nat)
    requires m < TWO_31
    ensures Lengthened(m / 256, m % 256) == m
  {
    assert m / 256 * 256 + m % 256 == m;
    assert (m / 256 * 256) % TWO_32 == m / 256 * 256;
  }

  lemma LengthSteps(n: nat)
    requires n < TWO_31
    ensures var l := Length4(n);
            && Lengthened(0, l[0]) == n / 0x100_0000
            && Lengthened(n / 0x100_0000, l[1]) == n / 0x1_0000
            && Lengthened(n / 0x1_0000, l[2]) == n / 0x100
            && Lengthened(n / 0x100, l[3]) == n
  {
    hide Lengthened;
    ShiftedIn(n / 0x100_0000);
    ShiftedIn(n / 0x1_0000);
    ShiftedIn(n / 0x100);
    ShiftedIn(n);
    assert n / 0x1_0000 / 256 == n / 0x100_0000 && n / 0x100 / 256 == n / 0x1_0000 && n / 0x100_0000 / 256 == 0;
  }

  lemma Regrouped(kind: byte, l: Bytes, rest: Bytes)
    requires |l| == 4
    ensures [kind] + l + rest == [kind] + ([l[0]] + ([l[1]] + ([l[2]] + ([l[3]] + rest))))
  {
  }

  lemma HeaderRead(p: Parser, kind: byte, n: nat, rest: Bytes)
    requires p.phase == AtHeader && (kind == DATA || kind == TRAILER) && n < TWO_31
    ensures Feed(p, [kind] + Length4(n) + rest) ==
              Feed(if n == 0 then Completed(p, kind, []) else p.(phase := InPayload(kind, n, [])), rest)
  {
    var l := Length4(n);
    LengthSteps(n);
    Regrouped(kind, l, rest);
    hide Length4, Lengthened, Feed;
    var r3 := [l[3]] + rest;
    var r2 := [l[2]] + r3;
    var r1 := [l[1]] + r2;
    var r0 := [l[0]] + r1;
    FeedOne(p, kind, r0);
    LengthRead(p, kind, n, l, rest, r3, r2, r1, r0);
  }

  lemma LengthRead(p: Parser, kind: byte, n: nat, l: Bytes, rest: Bytes, r3: Bytes, r2: Bytes, r1: Bytes, r0: Bytes)
    requires n < TWO_31 && |l| == 4
    requires Lengthened(0, l[0]) == n / 0x100_0000 && Lengthened(n / 0x100_0000, l[1]) == n / 0x1_0000
    requires Lengthened(n / 0x1_0000, l[2]) == n / 0x100 && Lengthened(n / 0x100, l[3]) == n
    requires r3 == [l[3]] + rest && r2 == [l[2]] + r3 && r1 == [l[1]] + r2 && r0 == [l[0]] + r1
    ensures Feed(p.(phase := InLength(kind, 0, 0)), r0) ==
              Feed(if n == 0 then Completed(p, kind, []) else p.(phase := InPayload(kind, n, [])), rest)
  {
    hide Lengthened, Feed;
    FeedOne(p.(phase := InLength(kind, 0, 0)), l[0], r1);
    FeedOne(p.(phase := InLength(kind, n / 0x100_0000, 1)), l[1], r2);
    FeedOne(p.(phase := InLength(kind, n / 0x1_0000, 2)), l[2], r3);
    FeedOne(p.(phase := InLength(kind, n / 0x100, 3)), l[3], rest);
  }

  lemma {:induction false} PayloadRead(p: Parser, kind: byte, n: nat, got: Bytes, missing: Bytes, rest: Bytes)
    requires p.phase == InPayload(kind, n, got) && n == |got| + |missing| && missing != []
    ensures Feed(p, missing + rest) == Feed(Completed(p, kind, got + missing), rest)
    decreases |missing|
  {
    var b := missing[0];
    assert missing + rest == [b] + (missing[1..] + rest);
    FeedOne(p, b, missing[1..] + rest);
    assert got + missing == (got + [b]) + missing[1..];
    if |missing| == 1 {
      assert missing[1..] + rest == rest && missing == [b];
    } else {
      PayloadRead(Step(p, b).value, kind, n, got + [b], missing[1..], rest);
    }
  }

  /** A frame at the head of the stream is completed and the parser is at a header again. */
  lemma FrameRead(p: Parser, f: Frame, rest: Bytes)
    requires p.phase == AtHeader && FrameOk(f)
    ensures Feed(p, Framed(f) + rest) == Feed(Completed(p, f.kind, f.payload), rest)
  {
    hide Feed, Length4;
    var n := |f.payload|;
    assert Framed(f) + rest == [f.kind] + Length4(n) + (f.payload + rest);
    HeaderRead(p, f.kind, n, f.payload + rest);
    if n > 0 {
      PayloadRead(p.(phase := InPayload(f.kind, n, [])), f.kind, n, [], f.payload, rest);
      assert [] + f.payload == f.payload;
    } else {
      assert f.payload + rest == rest && f.payload == [];
    }
  }

  /** At a header, a byte is taken exactly if it is 0 or 128, and is then the frame's kind. */
  lemma HeaderAccepts(p: Parser, b: byte)
    requires p.phase == AtHeader
    ensures if b == 0 || b == 128 then Step(p, b) == Ok(Parser(InLength(b, 0, 0), p.frames)) else Step(p, b) == Err(InvalidFrameByte)
  {
  }

  /** A parser that has refused a byte refuses every later one for being broken. */
  lemma StaysBroken(p: Parser, input: Bytes)
    requires p.phase == Broken && input != []
    ensures Call(p, input) == Err(AlreadyBroken)
  {
  }

  /** Four bytes as a number, highest first. */
  function NumberOf(l: Bytes): nat
    requires |l| == 4
  {
    var x0: int, x1: int, x2: int, x3: int := l[0], l[1], l[2], l[3];
    x0 * 16777216 + x1 * 65536 + x2 * 256 + x3
  }

  lemma NumberBytes(l: Bytes)
    requires |l| == 4
    ensures NumberOf(l) < TWO_32 && l == Length4(NumberOf(l)) && (l[0] < 128 <==> NumberOf(l) < TWO_31)
  {
    var x0: int, x1: int, x2: int := l[0], l[1], l[2];
    var n := NumberOf(l);
    assert n / 0x100 == x0 * 65536 + x1 * 256 + x2 && n / 0x1_0000 == x0 * 256 + x1 && n / 0x100_0000 == x0;
  }

  /** A frame written out byte by byte, data and trailer alike, on a fresh parser: four length bytes,
      highest first, whose first is below 128, and as many bytes as they say. */
  lemma WrittenOut(kind: byte, l: Bytes, payload: Bytes)
    requires (kind == 0 || kind == 128) && |l| == 4 && l[0] < 128
    requires |payload| == NumberOf(l)
    ensures Call(Fresh(), [kind] + l + payload) == Ok((Fresh(), [Frame(kind, payload)]))
  {
    NumberBytes(l);
    hide Feed, Length4, NumberOf, Call;
    RequestRead(Frame(kind, payload));
  }

  /** A length whose first byte is 128 or more is refused once its fourth byte has come. */
  lemma LengthRefused(p: Parser, l: Bytes)
    requires p.phase.InLength? && p.phase.count == 0 && p.phase.length == 0 && |l| == 4
    ensures Feed(p, l) == Err(InvalidLength) <==> l[0] >= 128
    ensures Feed(p, l[..3]).Ok?
  {
    assert l == [l[0]] + [l[1]] + [l[2]] + [l[3]];
    FeedFour(p, l);
    Shifts(l);
  }

  lemma FeedFour(p: Parser, l: Bytes)
    requires p.phase.InLength? && p.phase.count == 0 && |l| == 4
    ensures var kind := p.phase.kind;
            var x := Lengthened(Lengthened(Lengthened(p.phase.length, l[0]), l[1]), l[2]);
            && Feed(p, l[..3]) == Ok(p.(phase := InLength(kind, x, 3)))
            && Feed(p, l) == Step(p.(phase := InLength(kind, x, 3)), l[3])
  {
    hide Lengthened;
    FeedByte(p, l, 0);
    FeedByte(p, l, 1);
    FeedByte(p, l, 2);
    FeedByte(p, l, 3);
    assert l[..0] == [] && l[..4] == l;
  }

  lemma Shifts(l: Bytes)
    requires |l| == 4
    ensures Lengthened(Lengthened(Lengthened(Lengthened(0, l[0]), l[1]), l[2]), l[3]) < 0 <==> l[0] >= 128
  {
    hide Lengthened;
    var x0: int, x1: int, x2: int := l[0], l[1], l[2];
    ShiftsIn(0, l[0]);
    ShiftsIn(x0, l[1]);
    ShiftsIn(x0 * 256 + x1, l[2]);
    ShiftsIn(x0 * 65536 + x1 * 256 + x2, l[3]);
  }

  /** A byte more: exact while the top byte is still zero, negative once it is 128 or more. */
  lemma ShiftsIn(x: nat, b: byte)
    requires x < 0x100_0000
    ensures x < 0x80_0000 ==> Lengthened(x, b) == x * 256 + b
    ensures Lengthened(x, b) < 0 <==> x >= 0x80_0000
  {
    assert (x * 256) % TWO_32 == x * 256;
  }

  predicate FramesOk(frames: seq<Frame>) {
    forall i :: 0 <= i < |frames| ==> FrameOk(frames[i])
  }

  function Stream(frames: seq<Frame>): Bytes
    requires FramesOk(frames)
  {
    if frames == [] then [] else Framed(frames[0]) + Stream(frames[1..])
  }

  lemma {:induction false} StreamRead(p: Parser, frames: seq<Frame>)
    requires p.phase == AtHeader && FramesOk(frames)
    ensures Feed(p, Stream(frames)) == Ok(Parser(AtHeader, p.frames + frames))
    decreases |frames|
  {
    if frames == [] {
      assert p.frames + [] == p.frames;
    } else {
      FrameRead(p, frames[0], Stream(frames[1..]));
      StreamRead(Completed(p, frames[0].kind, frames[0].payload), frames[1..]);
      assert frames[0] == Frame(frames[0].kind, frames[0].payload);
      assert p.frames + [frames[0]] + frames[1..] == p.frames + frames;
    }
  }

  /** Any sequence of valid frames, cut into any chunks, comes out as it went in. */
  lemma FramesRoundTrip(frames: seq<Frame>, chunks: seq<Bytes>)
    requires FramesOk(frames)
    requires Joined(chunks) == Stream(frames)
    ensures Calls(Fresh(), chunks) == Ok((Fresh(), frames))
  {
    hide Feed, Calls;
    ChunkingIrrelevant(Fresh(), chunks);
    StreamRead(Fresh(), frames);
    assert [] + frames == frames;
  }

  /** The parser gets as far as byte `k`, with these frames completed and not yet handed out. */
  predicate FailsAt(p: Parser, input: Bytes, k: nat, error: ParseError, frames: seq<Frame>) {
    && k < |input| && Feed(p, input[..k]).Ok?
    && Feed(p, input[..k]).value.frames == frames && Step(Feed(p, input[..k]).value, input[k]) == Err(error)
  }

  lemma FeedByte(p: Parser, input: Bytes, k: nat)
    requires k < |input| && Feed(p, input[..k]).Ok?
    ensures Feed(p, input[..k + 1]) == Step(Feed(p, input[..k]).value, input[k])
  {
    hide Step;
    assert input[..k + 1] == input[..k] + [input[k]];
    FeedAppend(p, input[..k], [input[k]]);
    assert [input[k]][1..] == [];
    var before := Feed(p, input[..k]).value;
    if Step(before, input[k]).Ok? {
      assert Feed(Step(before, input[k]).value, []) == Step(before, input[k]);
    }
  }

  // ---- The parser object ----

  datatype State = HeaderState | LengthState | PayloadState | BrokenState

  class FrameParser {
    var state: State
    var kind: byte
    var length: int
    var lengthBytes: nat
    var payload: array<int>
    var filled: nat
    var frames: seq<Frame>

    /** The parser as a value. */
    ghost function View(): Parser
      requires Valid()
      reads this, payload
    {
      Parser(match state
             case HeaderState => AtHeader
             case LengthState => InLength(kind, length, lengthBytes)
             case PayloadState => InPayload(kind, length, payload[..filled])
             case BrokenState => Broken,
             frames)
    }

    ghost predicate Valid()
      reads this, payload
    {
      && (state == LengthState ==> lengthBytes < 4)
      && (state == PayloadState ==>
            && payload.Length == length && filled < length
            && forall i :: 0 <= i < filled ==> 0 <= payload[i] < 256)
    }

    constructor ()
      ensures Valid() && View() == Fresh() && fresh(payload)
    {
      state, kind, length, lengthBytes, filled, frames := HeaderState, 0, 0, 0, 0, [];
      payload := new int[0];
    }

    method HeaderByte(b: byte) returns (r: Option<ParseError>)
      requires Valid() && state == HeaderState
      modifies this
      ensures Valid() && payload == old(payload)
      ensures r.Some? ==> Step(old(View()), b) == Err(r.value) && state == BrokenState && frames == old(frames)
      ensures r.None? ==> Step(old(View()), b) == Ok(View())
      ensures r.None? == (b == 0 || b == 128) && (r.None? ==> state == LengthState && kind == b)
    {
      if b != DATA && b != TRAILER {
        state := BrokenState;
        return Some(InvalidFrameByte);
      }
      kind := b;
      state, length, lengthBytes := LengthState, 0, 0;
      r := None;
    }

    method Complete(bytes: Bytes)
      modifies this`frames, this`state
      ensures state == HeaderState && frames == old(frames) + [Frame(kind, bytes)]
    {
      frames := frames + [Frame(kind, bytes)];
      state := HeaderState;
    }

    method LengthByte(b: byte) returns (r: Option<ParseError>)
      requires Valid() && state == LengthState
      modifies this
      ensures r.Some? ==> Step(old(View()), b) == Err(r.value) && frames == old(frames)
      ensures r.None? ==> Valid() && Step(old(View()), b) == Ok(View())
      ensures payload == old(payload) || fresh(payload)
    {
      hide Lengthened;
      lengthBytes := lengthBytes + 1;
      length := Lengthened(length, b);
      if lengthBytes == 4 {
        state, filled := PayloadState, 0;
        if length < 0 {
          return Some(InvalidLength);
        }
        payload := new int[length];
        if length == 0 {
          Complete([]);
        } else {
          assert payload[..0] == [];
        }
      }
      r := None;
    }

    method PayloadByte(b: byte)
      requires Valid() && state == PayloadState
      modifies this, payload
      ensures Valid() && payload == old(payload) && Step(old(View()), b) == Ok(View())
    {
      payload[filled] := b;
      filled := filled + 1;
      assert payload[..filled] == old(payload[..filled]) + [b];
      if filled == length {
        assert payload[..] == payload[..filled];
        var bytes := ByteSeq(payload);
        Complete(bytes);
      }
    }

    /** The bytes of a completed buffer. */
    static method ByteSeq(a: array<int>) returns (bytes: Bytes)
      requires forall i :: 0 <= i < a.Length ==> 0 <= a[i] < 256
      ensures bytes == a[..]
    {
      bytes := [];
      for i := 0 to a.Length
        invariant bytes == a[..i]
      {
        bytes := bytes + [a[i]];
      }
    }

    /** One call. One that fails at some byte hands out nothing, and keeps the frames completed before
        that byte to itself. */
    method Parse(input: Bytes) returns (r: Result<seq<Frame>, ParseError>)
      requires Valid()
      modifies this, payload
      ensures r.Err? ==> Call(old(View()), input) == Err(r.error)
      ensures r.Err? ==> exists k: nat :: FailsAt(old(View()), input, k, r.error, frames)
      ensures r.Ok? ==> Valid() && Call(old(View()), input) == Ok((View(), r.value))
      ensures payload == old(payload) || fresh(payload)
    {
      hide Step;
      assert input[0..] == input;
      for k := 0 to |input|
        invariant Valid() && (payload == old(payload) || fresh(payload))
        invariant Feed(View(), input[k..]) == Feed(old(View()), input)
        invariant Feed(old(View()), input[..k]) == Ok(View())
      {
        assert input[k..][0] == input[k] && input[k..][1..] == input[k + 1..];
        FeedByte(old(View()), input, k);
        var failed := ParseByte(input[k]);
        if failed.Some? {
          assert FailsAt(old(View()), input, k, failed.value, frames);
          return Err(failed.value);
        }
      }
      r := Ok(frames);
      frames := [];
    }

    method ParseByte(b: byte) returns (r: Option<ParseError>)
      requires Valid()
      modifies this, payload
      ensures r.Some? ==> Step(old(View()), b) == Err(r.value) && frames == old(frames)
      ensures r.None? ==> Valid() && Step(old(View()), b) == Ok(View())
      ensures payload == old(payload) || fresh(payload)
    {
      match state
      case BrokenState =>
        r := Some(AlreadyBroken);
      case HeaderState =>
        r := HeaderByte(b);
      case LengthState =>
        r := LengthByte(b);
      case PayloadState =>
        PayloadByte(b);
        r := None;
    }
  }

  /** A length in four bytes, highest first, cut to 32 bits. */
  method LengthBytes(length: nat) returns (l: array<int>)
    ensures fresh(l) && l.Length == 4 && l[..] == Length4(length % TWO_32)
  {
    ghost var n := length % TWO_32;
    CutLength(length);
    var rest := length;
    l := new int[4];
    for h := 4 downto 0
      invariant forall i :: h <= i < 4 ==> l[i] == Length4(n)[i]
      invariant rest == if h == 4 then length else if h == 3 then n / 0x100 else if h == 2 then n / 0x1_0000
                        else if h == 1 then n / 0x100_0000 else rest
    {
      l[h] := rest % 256;
      rest := rest % TWO_32 / 256;
    }
  }

  /** The frame a request is sent in: kind zero, the length in four bytes, the message. Where the
      length fits the parser's signed one, the parser gives the message back. */
  method FrameRequest(message: Bytes) returns (framed: array<int>)
    ensures fresh(framed) && framed[..] == [DATA] + Length4(|message| % TWO_32) + message
    ensures |message| < TWO_31 ==> Call(Fresh(), framed[..]) == Ok((Fresh(), [Frame(DATA, message)]))
  {
    hide Call, Feed, Length4;
    var l := LengthBytes(|message|);
    framed := new int[5 + |message|];
    framed[0] := 0;
    for h := 0 to 4
      invariant framed[0] == 0 && l[..] == Length4(|message| % TWO_32)
      invariant forall i :: 0 <= i < h ==> framed[1 + i] == l[i]
    {
      framed[1 + h] := l[h];
    }
    assert framed[1..5] == l[..];
    for i := 0 to |message|
      invariant framed[0] == 0 && framed[1..5] == l[..] == Length4(|message| % TWO_32)
      invariant forall j :: 0 <= j < i ==> framed[5 + j] == message[j]
    {
      framed[5 + i] := message[i];
    }
    assert framed[5..] == message;
    assert framed[..] == [framed[0]] + framed[1..5] + framed[5..];
    if |message| < TWO_31 {
      RequestBack(message);
    }
  }

  lemma RequestBack(message: Bytes)
    requires |message| < TWO_31
    ensures Call(Fresh(), [DATA] + Length4(|message| % TWO_32) + message) == Ok((Fresh(), [Frame(DATA, message)]))
  {
    hide Call;
    RequestRead(Frame(DATA, message));
  }

  lemma CutLength(length: nat)
    ensures var n := length % TWO_32;
            && length % 256 == n % 256 && 0 <= n / 0x100 < TWO_32 && n / 0x1_0000 < TWO_32 && n / 0x100_0000 < 256
            && n / 0x100 / 256 == n / 0x1_0000 && n / 0x1_0000 / 256 == n / 0x100_0000
            && Length4(n) == [n / 0x100_0000, n / 0x1_0000 % 256, n / 0x100 % 256, n % 256]
  {
  }

  lemma RequestRead(f: Frame)
    requires FrameOk(f)
    ensures Call(Fresh(), Framed(f)) == Ok((Fresh(), [f]))
  {
    hide Feed;
    assert [f][1..] == [] && Stream([f]) == Framed(f) + [];
    assert Framed(f) + [] == Framed(f);
    StreamRead(Fresh(), [f]);
    assert [] + [f] == [f];
  }
}
