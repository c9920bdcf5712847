/** The base64 text form of request and response bodies, section 4 of RFC 4648
    (`ac`, `bc`, `$b` and the text branch of `jc` in
    HexWar.Client/wwwroot/js/generated/matchmaking_bundle.js). */
module Base64 {
  import opened HexTypes
  import opened WireFormat
  import opened Frames

  const PAD := 64

  /** The letter of the standard table for a six-bit value. */
  function Letter(v: nat): char
    requires v < 64
  {
    if v < 26 then 'A' + v as char
    else if v < 52 then 'a' + (v - 26) as char
    else if v < 62 then '0' + (v - 52) as char
    else if v == 62 then '+' else '/'
  }

  /** The decoder's table takes the letters of every base64 variant. */
  function Code(c: char): Option<nat> {
    if 'A' <= c <= 'Z' then Some((c - 'A') as nat)
    else if 'a' <= c <= 'z' then Some((c - 'a') as nat + 26)
    else if '0' <= c <= '9' then Some((c - '0') as nat + 52)
    else if c == '+' || c == '-' then Some(62)
    else if c == '/' || c == '_' then Some(63)
    else if c == '=' || c == '.' then Some(PAD)
    else None
  }

  predicate IsSpace(c: char) {
    c == ' ' || '\t' <= c <= '\r' || c == '\U{00A0}' || c == '\U{1680}' || '\U{2000}' <= c <= '\U{200A}' ||
    c == '\U{2028}' || c == '\U{2029}' || c == '\U{202F}' || c == '\U{205F}' || c == '\U{3000}' || c == '\U{FEFF}'
  }

  lemma SpaceIs(c: char)
    ensures IsSpace(c) <==> 9 <= c as int <= 13 || 8192 <= c as int <= 8202
                            || c as int in [32, 160, 5760, 8232, 8233, 8239, 8287, 12288, 65279]
  {
  }

  // ---- Encoding ----

  /** A six-bit value's letter, or the padding sign. */
  function Sign(v: nat): char
    requires v <= PAD
  {
    if v == PAD then '=' else Letter(v)
  }

  lemma SignCode(v: nat)
    requires v <= PAD
    ensures Code(Sign(v)) == Some(v)
  {
  }

  /** The four values that one, two or three bytes are cut into. */
  function Cut(bytes: Bytes): (r: (nat, nat, nat, nat))
    requires bytes != []
    ensures r.0 < PAD && r.1 < PAD && r.2 <= PAD && r.3 <= PAD
  {
    var b := if |bytes| > 1 then bytes[1] else 0;
    var c := if |bytes| > 2 then bytes[2] else 0;
    (bytes[0] / 4,
     bytes[0] % 4 * 16 + b / 16,
     if |bytes| > 1 then b % 16 * 4 + c / 64 else PAD,
     if |bytes| > 2 then c % 64 else PAD)
  }

  function Signs(bytes: Bytes): string
    requires bytes != []
  {
    var q := Cut(bytes);
    [Sign(q.0), Sign(q.1), Sign(q.2), Sign(q.3)]
  }

  function Encode(bytes: Bytes): string {
    if bytes == [] then []
    else Signs(bytes) + if |bytes| > 3 then Encode(bytes[3..]) else []
  }

  // ---- Decoding ----

  datatype TextError = UnknownCharacter(c: char)

  /** The next code at or after `d`, passing over white space; none at the end. */
  function NextCode(text: string, d: nat): (r: Result<Got<Option<nat>>, TextError>)
    ensures r.Ok? ==> d <= r.value.cursor && (r.value.value.Some? ==> d < r.value.cursor <= |text| && r.value.value.value <= PAD)
    ensures r.Ok? && d <= |text| ==> r.value.cursor <= |text|
    decreases |text| - d
  {
    if d >= |text| then Ok(Got(None, d))
    else if Code(text[d]).Some? then Ok(Got(Code(text[d]), d + 1))
    else if IsSpace(text[d]) then NextCode(text, d + 1)
    else Err(UnknownCharacter(text[d]))
  }

  function Or(code: Option<nat>, default: nat): nat {
    if code.Some? then code.value else default
  }

  /** What the next four codes are; at the end the missing ones are "none", zero and padding. */
  datatype Quad = Quad(e: Option<nat>, g: nat, f: nat, h: nat, next: nat)

  function NextQuad(text: string, d: nat): (r: Result<Quad, TextError>)
    ensures r.Ok? && r.value.e.Some? ==> d < r.value.next
    ensures r.Ok? && d <= |text| ==> r.value.next <= |text|
    ensures r.Ok? && r.value.e.Some? ==> r.value.e.value <= PAD && r.value.g <= PAD && r.value.f <= PAD && r.value.h <= PAD
  {
    match NextCode(text, d)
    case Err(error) => Err(error)
    case Ok(e) =>
      match NextCode(text, e.cursor)
      case Err(error) => Err(error)
      case Ok(g) =>
        match NextCode(text, g.cursor)
        case Err(error) => Err(error)
        case Ok(f) =>
          match NextCode(text, f.cursor)
          case Err(error) => Err(error)
          case Ok(h) => Ok(Quad(e.value, Or(g.value, 0), Or(f.value, PAD), Or(h.value, PAD), h.cursor))
  }

  /** `x | 4`, which a padding sign in second place asks for. */
  function WithBitTwo(x: nat): nat {
    if x / 4 % 2 == 1 then x else x + 4
  }

  /** The bytes of four codes, as a byte array stores them. */
  function QuadBytes(e: nat, g: nat, f: nat, h: nat): Bytes
    requires e <= PAD && g <= PAD && f <= PAD && h <= PAD
  {
    [(if g == PAD then WithBitTwo(e * 4) else e * 4 + g / 16) % 256] +
    if f == PAD then []
    else [g * 16 % 256 + f / 4] + if h == PAD then [] else [f * 64 % 256 + h]
  }

  function Decoded(text: string, d: nat): Result<Bytes, TextError>
    decreases |text| - d
  {
    if d > |text| then Ok([])
    else match NextQuad(text, d)
      case Err(error) => Err(error)
      case Ok(q) =>
        if q.e.None? then Ok([])
        else match Decoded(text, q.next)
          case Err(error) => Err(error)
          case Ok(rest) => Ok(QuadBytes(q.e.value, q.g, q.f, q.h) + rest)
  }

  predicate IsPad(c: char) {
    c == '=' || c == '.'
  }

  /** How many bytes the decoder makes room for. */
  function Room(text: string): nat {
    var n := |text|;
    var c := n * 3 / 4;
    if n % 4 != 0 then c
    else if n >= 1 && IsPad(text[n - 1]) then
      if n >= 2 && IsPad(text[n - 2]) then (if c >= 2 then c - 2 else 0) else (if c >= 1 then c - 1 else 0)
    else c
  }

  /** What fits into that room; the rest is lost. */
  function FromText(text: string): Result<Bytes, TextError> {
    match Decoded(text, 0)
    case Err(error) => Err(error)
    case Ok(bytes) => Ok(if |bytes| <= Room(text) then bytes else bytes[..Room(text)])
  }

  // ---- Round trip ----

  /** Four characters of the alphabet at `d` are the four codes read there. */
  lemma QuadRead(text: string, d: nat)
    requires d + 4 <= |text| && forall i :: d <= i < d + 4 ==> Code(text[i]).Some?
    ensures NextQuad(text, d) ==
              Ok(Quad(Code(text[d]), Code(text[d + 1]).value, Code(text[d + 2]).value, Code(text[d + 3]).value, d + 4))
  {
    hide Code;
  }

  predicate InAlphabet(text: string) {
    forall i :: 0 <= i < |text| ==> Code(text[i]).Some?
  }

  /** The bytes of the quad at the head of `text[d..]`. */
  function HeadBytes(text: string, d: nat): Bytes
    requires d + 4 <= |text| && InAlphabet(text)
  {
    QuadBytes(Code(text[d]).value, Code(text[d + 1]).value, Code(text[d + 2]).value, Code(text[d + 3]).value)
  }

  lemma DecodedStep(text: string, d: nat)
    requires InAlphabet(text) && d + 4 <= |text| && Decoded(text, d + 4).Ok?
    ensures Decoded(text, d) == Ok(HeadBytes(text, d) + Decoded(text, d + 4).value)
  {
    QuadRead(text, d);
    hide NextQuad, QuadBytes, Code;
  }

  lemma DecodedEnd(text: string)
    ensures Decoded(text, |text|) == Ok([])
  {
  }

  /** On whole quads of the alphabet, decoding cannot fail, and cutting between quads cuts the bytes:
      a response decoded piece by piece gives the bytes of the whole. */
  lemma {:induction false} DecodedSplit(s: string, t: string, d: nat)
    requires InAlphabet(s) && InAlphabet(t) && |s| % 4 == 0 && |t| % 4 == 0 && d <= |s| && d % 4 == 0
    ensures Decoded(s, d).Ok? && Decoded(t, 0).Ok?
    ensures Decoded(s + t, d) == Ok(Decoded(s, d).value + Decoded(t, 0).value)
    decreases |s| - d
  {
    hide Decoded, QuadBytes, Code;
    if d == |s| {
      DecodedEnd(s);
      DecodedTail(s, t, 0);
      assert [] + Decoded(t, 0).value == Decoded(t, 0).value && |s| + 0 == d;
    } else {
      DecodedSplit(s, t, d + 4);
      DecodedStep(s, d);
      DecodedStep(s + t, d);
      assert HeadBytes(s + t, d) == HeadBytes(s, d);
      var rest := Decoded(s, d + 4).value;
      assert HeadBytes(s, d) + (rest + Decoded(t, 0).value) == HeadBytes(s, d) + rest + Decoded(t, 0).value;
    }
  }

  lemma {:induction false} DecodedTail(s: string, t: string, d: nat)
    requires InAlphabet(s) && InAlphabet(t) && |t| % 4 == 0 && d <= |t| && d % 4 == 0
    ensures Decoded(t, d).Ok? && Decoded(s + t, |s| + d) == Decoded(t, d)
    decreases |t| - d
  {
    hide Decoded, QuadBytes, Code;
    if d == |t| {
      DecodedEnd(t);
      DecodedEnd(s + t);
    } else {
      DecodedTail(s, t, d + 4);
      DecodedStep(t, d);
      DecodedStep(s + t, |s| + d);
      assert HeadBytes(s + t, |s| + d) == HeadBytes(t, d);
    }
  }

  /** Cutting bytes into six-bit values and putting the values together again. */
  lemma CutBytes(bytes: Bytes)
    requires bytes != []
    ensures var q := Cut(bytes);
            QuadBytes(q.0, q.1, q.2, q.3) == bytes[..if |bytes| < 3 then |bytes| else 3]
  {
    SixBits(bytes[0], if |bytes| > 1 then bytes[1] else 0, if |bytes| > 2 then bytes[2] else 0);
  }

  lemma SixBits(a: byte, b: byte, c: byte)
    ensures (a / 4 * 4 + (a % 4 * 16 + b / 16) / 16) % 256 == a
    ensures (a % 4 * 16 + b / 16) * 16 % 256 + (b % 16 * 4 + c / 64) / 4 == b
    ensures (b % 16 * 4 + c / 64) * 64 % 256 + c % 64 == c
    ensures a % 4 * 16 + b / 16 < 64 && b % 16 * 4 + c / 64 < 64
  {
    SixBitsHigh(a, b);
    SixBitsMiddle(a, b, c);
    SixBitsLow(b, c);
  }

  lemma SixBitsHigh(a: byte, b: byte)
    ensures (a / 4 * 4 + (a % 4 * 16 + b / 16) / 16) % 256 == a && a % 4 * 16 + b / 16 < 64
  {
  }

  lemma SixBitsMiddle(a: byte, b: byte, c: byte)
    ensures (a % 4 * 16 + b / 16) * 16 % 256 + (b % 16 * 4 + c / 64) / 4 == b && b % 16 * 4 + c / 64 < 64
  {
    assert (a % 4 * 16 + b / 16) * 16 == a % 4 * 256 + b / 16 * 16;
  }

  lemma SixBitsLow(b: byte, c: byte)
    ensures (b % 16 * 4 + c / 64) * 64 % 256 + c % 64 == c
  {
    assert (b % 16 * 4 + c / 64) * 64 == b % 16 * 256 + c / 64 * 64;
  }

  lemma SignsRead(bytes: Bytes)
    requires bytes != []
    ensures InAlphabet(Signs(bytes))
    ensures Decoded(Signs(bytes), 0) == Ok(bytes[..if |bytes| < 3 then |bytes| else 3])
  {
    var q := Cut(bytes);
    SignCode(q.0);
    SignCode(q.1);
    SignCode(q.2);
    SignCode(q.3);
    CutBytes(bytes);
    hide Cut, Code, Sign, QuadBytes, Decoded;
    DecodedEnd(Signs(bytes));
    DecodedStep(Signs(bytes), 0);
    assert HeadBytes(Signs(bytes), 0) + [] == HeadBytes(Signs(bytes), 0);
  }

  /** The text form of any bytes decodes to those bytes. */
  lemma {:induction false} EncodeDecodes(bytes: Bytes)
    ensures InAlphabet(Encode(bytes)) && |Encode(bytes)| % 4 == 0
    ensures Decoded(Encode(bytes), 0) == Ok(bytes)
    decreases |bytes|
  {
    hide Code, Decoded, Signs;
    if bytes == [] {
      DecodedEnd([]);
    } else {
      SignsRead(bytes);
      SignsLength(bytes);
      if |bytes| <= 3 {
        assert bytes[..|bytes|] == bytes && Signs(bytes) + [] == Signs(bytes);
      } else {
        EncodeDecodes(bytes[3..]);
        DecodedSplit(Signs(bytes), Encode(bytes[3..]), 0);
        assert bytes[..3] + bytes[3..] == bytes;
      }
    }
  }

  lemma SignsLength(bytes: Bytes)
    requires bytes != []
    ensures |Signs(bytes)| == 4
  {
  }

  /** The decoder makes exactly the room the bytes need. */
  lemma {:induction false} EncodedSize(bytes: Bytes)
    ensures |Encode(bytes)| == (|bytes| + 2) / 3 * 4
    ensures Room(Encode(bytes)) == |bytes|
    decreases |bytes|
  {
    hide Signs, Room;
    if |bytes| > 3 {
      SignsLength(bytes);
      EncodedSize(bytes[3..]);
      RoomOfTail(Signs(bytes), Encode(bytes[3..]));
    } else if bytes != [] {
      SignsLength(bytes);
      assert Encode(bytes) == Signs(bytes);
      LastRoom(bytes);
    } else {
      NoRoom();
    }
  }

  lemma NoRoom()
    ensures Room([]) == 0
  {
  }

  lemma LastRoom(bytes: Bytes)
    requires 1 <= |bytes| <= 3
    ensures Room(Signs(bytes)) == |bytes|
  {
    var q := Cut(bytes);
    assert IsPad(Sign(q.2)) <==> q.2 == PAD;
    assert IsPad(Sign(q.3)) <==> q.3 == PAD;
  }

  lemma RoomOfTail(head: string, tail: string)
    requires |head| == 4 && |tail| >= 4 && |tail| % 4 == 0
    ensures Room(head + tail) == 3 + Room(tail)
  {
  }

  // ---- The alphabet ----

  const ALPHABET := "ABCDEFGHIJKLMNOPQRSTUVWXYZ" + "abcdefghijklmnopqrstuvwxyz" + "0123456789" + "+/"

  lemma LetterIs(v: nat)
    requires v < 64
    ensures |ALPHABET| == 64 && Letter(v) == ALPHABET[v]
  {
    assert v < 26 ==> Letter(v) == "ABCDEFGHIJKLMNOPQRSTUVWXYZ"[v];
    assert 26 <= v < 52 ==> Letter(v) == "abcdefghijklmnopqrstuvwxyz"[v - 26];
    assert 52 <= v < 62 ==> Letter(v) == "0123456789"[v - 52];
  }

  /** What a character stands for: its place in the alphabet, or that of the two characters that have
      others in the URL-safe alphabet, or padding; nothing else stands for anything. */
  lemma CodeIs(c: char, v: nat)
    requires v < 64
    ensures Code(c) == Some(v) <==> c == ALPHABET[v] || (c == '-' && v == 62) || (c == '_' && v == 63)
    ensures Code(c) == Some(64) <==> c == '=' || c == '.'
    ensures Code(c).Some? ==> Code(c).value <= 64
  {
    LetterIs(v);
    hide ALPHABET;
  }

  /** Three bytes as one number; those past the end count as zero. */
  function Group(bytes: Bytes, k: nat): nat {
    var x: int, y: int, z: int := ByteAt(bytes, 3 * k), ByteAt(bytes, 3 * k + 1), ByteAt(bytes, 3 * k + 2);
    x * 65536 + y * 256 + z
  }

  /** The six bits that character `i` stands for. */
  function SixBitsOf(bytes: Bytes, i: nat): (v: nat)
    ensures v < 64
  {
    var g := Group(bytes, i / 4);
    (if i % 4 == 0 then g / 262144 else if i % 4 == 1 then g / 4096 else if i % 4 == 2 then g / 64 else g) % 64
  }

  /** Every character of the text form is the alphabet's for the bits it stands for, or the padding
      sign where it stands for none. */
  lemma {:induction false} EncodedCharacter(bytes: Bytes, i: nat)
    requires i < |Encode(bytes)|
    ensures Encode(bytes)[i] == if 6 * i < 8 * |bytes| then ALPHABET[SixBitsOf(bytes, i)] else '='
    decreases i
  {
    hide SixBitsOf, Signs, ALPHABET;
    SignsLength(bytes);
    if i < 4 {
      HeadCharacter(bytes, i);
    } else {
      EncodedCharacter(bytes[3..], i - 4);
      LaterBits(bytes, i);
    }
  }

  lemma LaterBits(bytes: Bytes, i: nat)
    requires i >= 4 && |bytes| >= 3
    ensures SixBitsOf(bytes, i) == SixBitsOf(bytes[3..], i - 4)
  {
  }

  lemma HeadCharacter(bytes: Bytes, i: nat)
    requires bytes != [] && i < 4
    ensures Signs(bytes)[i] == if 6 * i < 8 * |bytes| then ALPHABET[SixBitsOf(bytes, i)] else '='
  {
    hide ALPHABET;
    LetterIs(SixBitsOf(bytes, i));
    CutIs(bytes, i);
    hide Cut, SixBitsOf, Letter;
  }

  lemma CutIs(bytes: Bytes, i: nat)
    requires bytes != [] && i < 4
    ensures var q := Cut(bytes);
            (if i == 0 then q.0 else if i == 1 then q.1 else if i == 2 then q.2 else q.3)
            == if 6 * i < 8 * |bytes| then SixBitsOf(bytes, i) else 64
  {
    var x: int, y: int, z: int := bytes[0], ByteAt(bytes, 1), ByteAt(bytes, 2);
    GroupBits(x, y, z);
    var v := SixBitsOf(bytes, i);
    assert i / 4 == 0 && i % 4 == i && Group(bytes, 0) == x * 65536 + y * 256 + z;
    hide Group, ByteAt;
    assert i == 0 ==> v == x / 4;
    assert i == 1 ==> v == x % 4 * 16 + y / 16;
    assert i == 2 ==> v == y % 16 * 4 + z / 64;
    assert i == 3 ==> v == z % 64;
  }

  lemma GroupBits(x: byte, y: byte, z: byte)
    ensures var a: int, b: int, c: int := x, y, z;
            var g := a * 65536 + b * 256 + c;
            && g / 262144 % 64 == a / 4 && g / 4096 % 64 == a % 4 * 16 + b / 16
            && g / 64 % 64 == b % 16 * 4 + c / 64 && g % 64 == c % 64
  {
    var a: int, b: int, c: int := x, y, z;
    Quotient(a * 65536 + b * 256 + c, 262144, a / 4, a % 4 * 65536 + b * 256 + c);
    Quotient(a * 65536 + b * 256 + c, 4096, a * 16 + b / 16, b % 16 * 256 + c);
    Quotient(a * 65536 + b * 256 + c, 64, a * 1024 + b * 4 + c / 64, c % 64);
    Quotient(a * 16 + b / 16, 64, a / 4, a % 4 * 16 + b / 16);
    Quotient(a * 1024 + b * 4 + c / 64, 64, a * 16 + b / 16, b % 16 * 4 + c / 64);
  }

  lemma Quotient(g: int, d: int, q: int, r: int)
    requires d in [64, 256, 4096, 65536, 262144] && g == d * q + r && 0 <= r < d
    ensures g / d == q && g % d == r
  {
  }

  /** A 24-bit number as three bytes, highest first. */
  function ThreeBytes(n: nat): (r: Bytes)
    requires n < 16777216
    ensures |r| == 3
  {
    [n / 65536, n / 256 % 256, n % 256]
  }

  /** What four codes decode to: the number they write in base 64, as bytes. */
  lemma QuadBytesAre(e: nat, g: nat, f: nat, h: nat)
    requires e < 64 && g < 64 && f < 64 && h < 64
    ensures QuadBytes(e, g, f, h) == ThreeBytes(e * 262144 + g * 4096 + f * 64 + h)
  {
    QuadParts(e, g, f, h);
    hide ThreeBytes;
  }

  /** Padding signs among them: in fourth place it leaves two bytes, in third place one, whatever the
      fourth is; in second place it sets the bit above the lowest two; in first place it counts as zero. */
  lemma PaddedQuadBytesAre(e: nat, g: nat, f: nat, h: nat)
    requires e < 64 && g <= 64 && f <= 64 && h <= 64
    ensures g < 64 && f < 64 ==> QuadBytes(e, g, f, 64) == QuadBytes(e, g, f, 0)[..2]
    ensures g < 64 ==> QuadBytes(e, g, 64, h) == QuadBytes(e, g, 0, 0)[..1]
    ensures QuadBytes(e, 64, f, h) == [e / 2 * 8 + 4] + QuadBytes(0, 64, f, h)[1..]
    ensures f == 64 ==> |QuadBytes(0, 64, f, h)| == 1
    ensures f < 64 && h == 64 ==> QuadBytes(0, 64, f, h)[1..] == [f / 4]
    ensures f < 64 && h < 64 ==> QuadBytes(0, 64, f, h)[1..] == [f / 4, f * 64 % 256 + h]
    ensures QuadBytes(64, g, f, h) == QuadBytes(0, g, f, h)
  {
    SecondPad(e);
    SecondPad(0);
    FirstPad(g);
    hide WithBitTwo;
  }

  lemma SecondPad(e: nat)
    requires e < 64
    ensures WithBitTwo(e * 4) % 256 == e / 2 * 8 + 4 && WithBitTwo(64 * 4) % 256 == 4
  {
    assert e * 4 / 4 == e;
  }

  lemma FirstPad(g: nat)
    requires g <= 64
    ensures (64 * 4 + g / 16) % 256 == (0 * 4 + g / 16) % 256
  {
  }

  lemma QuadParts(e: nat, g: nat, f: nat, h: nat)
    requires e < 64 && g < 64 && f < 64 && h < 64
    ensures ThreeBytes(e * 262144 + g * 4096 + f * 64 + h) == [e * 4 + g / 16, g * 16 % 256 + f / 4, f * 64 % 256 + h]
  {
    var n := e * 262144 + g * 4096 + f * 64 + h;
    Quotient(n, 65536, e * 4 + g / 16, g % 16 * 4096 + f * 64 + h);
    Quotient(n, 256, e * 1024 + g * 16 + f / 4, f % 4 * 64 + h);
    Quotient(e * 1024 + g * 16 + f / 4, 256, e * 4 + g / 16, g % 16 * 16 + f / 4);
    Quotient(g * 16, 256, g / 16, g % 16 * 16);
    Quotient(f * 64, 256, f / 4, f % 4 * 64);
  }

  /** Encoding to text and decoding it gives any bytes back. */
  lemma TextRoundTrip(bytes: Bytes)
    ensures FromText(Encode(bytes)) == Ok(bytes)
  {
    hide Encode, Decoded, Room;
    EncodeDecodes(bytes);
    EncodedSize(bytes);
  }

  /** The next character that is no white space: its code, or the error that names it. */
  lemma {:induction false} NextCharacter(text: string, d: nat, k: nat)
    requires d <= k <= |text| && forall i :: d <= i < k ==> IsSpace(text[i])
    requires k < |text| ==> !IsSpace(text[k])
    ensures NextCode(text, d) ==
              if k == |text| then Ok(Got(None, k))
              else if Code(text[k]).Some? then Ok(Got(Code(text[k]), k + 1))
              else Err(UnknownCharacter(text[k]))
    decreases k - d
  {
    if d < k {
      assert Code(text[d]).None?;
      NextCharacter(text, d + 1, k);
    }
  }

  /** Letters only: no padding sign, no white space. */
  predicate Letters(text: string) {
    forall i :: 0 <= i < |text| ==> Code(text[i]).Some? && Code(text[i]).value < PAD
  }

  /** The bytes of one, two or three codes left over at the end. */
  function Leftover(n: nat): nat {
    if n == 0 then 0 else if n == 3 then 2 else 1
  }

  lemma {:induction false} LettersDecode(text: string, d: nat)
    requires Letters(text) && d <= |text| && d % 4 == 0
    ensures Decoded(text, d).Ok? && |Decoded(text, d).value| == (|text| - d) / 4 * 3 + Leftover((|text| - d) % 4)
    decreases |text| - d
  {
    hide Decoded, Code, QuadBytes, NextQuad;
    if d == |text| {
      DecodedEnd(text);
    } else if d + 4 <= |text| {
      LettersDecode(text, d + 4);
      DecodedStep(text, d);
      ThreeFromFour(Code(text[d]).value, Code(text[d + 1]).value, Code(text[d + 2]).value, Code(text[d + 3]).value);
    } else {
      LastCodes(text, d);
      DecodedQuad(text, d);
      DecodedEnd(text);
    }
  }

  lemma ThreeFromFour(e: nat, g: nat, f: nat, h: nat)
    requires e < PAD && g < PAD && f < PAD && h < PAD
    ensures |QuadBytes(e, g, f, h)| == 3
  {
  }

  lemma LastCodes(text: string, d: nat)
    requires Letters(text) && d < |text| < d + 4
    ensures var q := NextQuad(text, d);
            && q.Ok? && q.value.e == Code(text[d]) && q.value.next == |text|
            && q.value.g == (if d + 1 < |text| then Code(text[d + 1]).value else 0)
            && q.value.f == (if d + 2 < |text| then Code(text[d + 2]).value else 64) && q.value.h == 64
            && |QuadBytes(q.value.e.value, q.value.g, q.value.f, q.value.h)| == Leftover(|text| - d)
  {
    hide Code, IsSpace;
  }

  /** A text that lacks its padding decodes to all its bytes, except that one left-over letter, which
      makes a byte of its own, finds no room for it. */
  lemma UnpaddedText(text: string)
    requires Letters(text)
    ensures Decoded(text, 0).Ok? && FromText(text).Ok?
    ensures |text| % 4 != 1 ==> FromText(text) == Decoded(text, 0)
    ensures |text| % 4 == 1 ==> |Decoded(text, 0).value| == |FromText(text).value| + 1
  {
    LettersDecode(text, 0);
    LettersRoom(text);
    hide Decoded, Room, Letters, Leftover;
    assert Leftover(1) == 1;
  }

  /** Whole quads make room for three bytes each, less one for each of the last two characters, from
      the end, that is a padding sign of either kind. */
  lemma PaddedRoom(text: string)
    requires text != [] && |text| % 4 == 0
    ensures var n := |text|;
            Room(text) == n / 4 * 3 - if text[n - 1] !in "=." then 0 else if text[n - 2] !in "=." then 1 else 2
  {
  }

  lemma LettersRoom(text: string)
    requires Letters(text)
    ensures Room(text) == |text| / 4 * 3 + if |text| % 4 == 1 then 0 else Leftover(|text| % 4)
  {
    assert |text| * 3 / 4 == |text| / 4 * 3 + |text| % 4 * 3 / 4;
    assert |text| > 0 ==> !IsPad(text[|text| - 1]);
  }

  /** What is framed and sent as text is, once decoded and parsed in any chunks, the message. */
  lemma TextFrameRoundTrip(message: Bytes, chunks: seq<Bytes>)
    requires |message| < TWO_31
    requires FromText(Encode(Framed(Frame(DATA, message)))) == Ok(Joined(chunks))
    ensures Calls(Fresh(), chunks) == Ok((Fresh(), [Frame(DATA, message)]))
  {
    hide Encode, FromText, Calls;
    var f := Frame(DATA, message);
    TextRoundTrip(Framed(f));
    assert [f][1..] == [] && Stream([f]) == Framed(f) + [] == Framed(f);
    FramesRoundTrip([f], chunks);
  }

  lemma EncodeStep(bytes: Bytes)
    requires |bytes| >= 3
    ensures Encode(bytes) == Signs(bytes) + Encode(bytes[3..])
  {
    hide Signs, Cut;
    if |bytes| == 3 {
      assert bytes[3..] == [] && Encode([]) == [];
    }
  }

  /** Encoding goes three bytes at a time, so a text cut between quads is two encodings. */
  lemma {:induction false} EncodeCut(bytes: Bytes, k: nat)
    requires 3 * k <= |bytes|
    ensures Encode(bytes) == Encode(bytes[..3 * k]) + Encode(bytes[3 * k..])
    ensures |Encode(bytes[..3 * k])| == 4 * k
    decreases k
  {
    hide Encode, Signs;
    if k == 0 {
      assert bytes[..0] == [] && bytes[0..] == bytes;
      EncodeNothing();
      assert [] + Encode(bytes) == Encode(bytes);
    } else {
      var head := bytes[..3 * k];
      EncodeStep(bytes);
      EncodeStep(head);
      SameSigns(bytes, head);
      SignsLength(bytes);
      EncodeCut(bytes[3..], k - 1);
      assert head[3..] == bytes[3..][..3 * (k - 1)] && bytes[3..][3 * (k - 1)..] == bytes[3 * k..];
      assert Signs(bytes) + (Encode(head[3..]) + Encode(bytes[3 * k..])) == Signs(bytes) + Encode(head[3..]) + Encode(bytes[3 * k..]);
    }
  }

  lemma EncodeNothing()
    ensures Encode([]) == []
  {
  }

  lemma SameSigns(bytes: Bytes, head: Bytes)
    requires |bytes| >= 3 && |head| >= 3 && head[..3] == bytes[..3]
    ensures Signs(head) == Signs(bytes)
  {
    assert head[0] == head[..3][0] && head[1] == head[..3][1] && head[2] == head[..3][2];
    assert bytes[0] == bytes[..3][0] && bytes[1] == bytes[..3][1] && bytes[2] == bytes[..3][2];
  }

  lemma {:induction false} EncodeLength(bytes: Bytes)
    ensures |Encode(bytes)| == 4 * ((|bytes| + 2) / 3)
  {
    hide Encode, Signs;
    if |bytes| >= 3 {
      EncodeStep(bytes);
      SignsLength(bytes);
      EncodeLength(bytes[3..]);
    } else {
      EncodeTail(bytes);
    }
  }

  /** Text in pieces, and each piece decoded into a room of its own. */
  function Text(pieces: seq<string>): string {
    if pieces == [] then [] else pieces[0] + Text(pieces[1..])
  }

  function Chunks(pieces: seq<string>): Result<seq<Bytes>, TextError> {
    if pieces == [] then Ok([])
    else match FromText(pieces[0])
      case Err(error) => Err(error)
      case Ok(chunk) =>
        match Chunks(pieces[1..])
        case Err(error) => Err(error)
        case Ok(rest) => Ok([chunk] + rest)
  }

  /** A text response that arrives in any number of pieces, cut between quads, decodes piece by piece
      to the same bytes. */
  lemma {:induction false} TextPiecesJoin(bytes: Bytes, pieces: seq<string>)
    requires Text(pieces) == Encode(bytes) && forall i :: 0 <= i < |pieces| ==> |pieces[i]| % 4 == 0
    ensures Chunks(pieces).Ok? && Joined(Chunks(pieces).value) == bytes
    decreases |pieces|
  {
    hide Encode, FromText;
    EncodeLength(bytes);
    if pieces == [] {
      assert bytes == [];
    } else {
      var piece, rest := pieces[0], pieces[1..];
      var k := Min(3 * (|piece| / 4), |bytes|);
      PieceIsEncoding(bytes, piece, Text(rest), k);
      TextRoundTrip(bytes[..k]);
      TextPiecesJoin(bytes[k..], rest);
      var more := Chunks(rest).value;
      assert ([bytes[..k]] + more)[1..] == more && bytes == bytes[..k] + bytes[k..];
    }
  }

  lemma PieceIsEncoding(bytes: Bytes, piece: string, rest: string, k: nat)
    requires piece + rest == Encode(bytes) && |piece| % 4 == 0 && k == Min(3 * (|piece| / 4), |bytes|)
    ensures piece == Encode(bytes[..k]) && rest == Encode(bytes[k..])
  {
    hide Encode;
    EncodeLength(bytes);
    if 3 * (|piece| / 4) <= |bytes| {
      EncodeCut(bytes, |piece| / 4);
      assert (piece + rest)[..|piece|] == piece && (piece + rest)[|piece|..] == rest;
      assert (Encode(bytes[..k]) + Encode(bytes[k..]))[..|piece|] == Encode(bytes[..k]);
      assert (Encode(bytes[..k]) + Encode(bytes[k..]))[|piece|..] == Encode(bytes[k..]);
    } else {
      assert bytes[..k] == bytes && bytes[k..] == [];
      EncodeNothing();
      assert |piece| == |Encode(bytes)| && rest == [];
      assert piece + [] == piece;
    }
  }

  /** Frames sent as text and received in any pieces cut between quads, each piece decoded as it comes
      and fed to the frame parser, come out whole and in order. */
  lemma TextStreamRoundTrip(frames: seq<Frame>, pieces: seq<string>)
    requires FramesOk(frames) && Text(pieces) == Encode(Stream(frames))
    requires forall i :: 0 <= i < |pieces| ==> |pieces[i]| % 4 == 0
    ensures Chunks(pieces).Ok? && Calls(Fresh(), Chunks(pieces).value) == Ok((Fresh(), frames))
  {
    hide Encode, Calls, Chunks, Text, Stream;
    TextPiecesJoin(Stream(frames), pieces);
    FramesRoundTrip(frames, Chunks(pieces).value);
  }

  // ---- The loops ----

  lemma SignsOfThree(bytes: Bytes)
    requires |bytes| >= 3
    ensures Signs(bytes) == [Letter(bytes[0] / 4), Letter(bytes[0] % 4 * 16 + bytes[1] / 16),
                             Letter(bytes[1] % 16 * 4 + bytes[2] / 64), Letter(bytes[2] % 64)]
  {
    hide Letter;
  }

  lemma EncodeTail(bytes: Bytes)
    requires |bytes| <= 2
    ensures |bytes| == 0 ==> Encode(bytes) == []
    ensures |bytes| == 1 ==> Encode(bytes) == [Letter(bytes[0] / 4), Letter(bytes[0] % 4 * 16), '=', '=']
    ensures |bytes| == 2 ==> Encode(bytes) == [Letter(bytes[0] / 4), Letter(bytes[0] % 4 * 16 + bytes[1] / 16),
                                               Letter(bytes[1] % 16 * 4), '=']
  {
    hide Letter;
  }

  method EncodeText(bytes: Bytes) returns (text: string)
    ensures text == Encode(bytes)
    ensures FromText(text) == Ok(bytes)
  {
    hide Encode, Letter, Signs, FromText;
    text := [];
    var k := 0;
    assert bytes[0..] == bytes && [] + Encode(bytes) == Encode(bytes);
    while k < |bytes| - 2
      invariant 0 <= k <= |bytes|
      invariant text + Encode(bytes[k..]) == Encode(bytes)
    {
      var z, a, f := bytes[k], bytes[k + 1], bytes[k + 2];
      EncodeStep(bytes[k..]);
      SignsOfThree(bytes[k..]);
      assert bytes[k..][3..] == bytes[k + 3..];
      var quad := [Letter(z / 4), Letter(z % 4 * 16 + a / 16), Letter(a % 16 * 4 + f / 64), Letter(f % 64)];
      assert text + (quad + Encode(bytes[k + 3..])) == text + quad + Encode(bytes[k + 3..]);
      text := text + quad;
      k := k + 3;
    }
    var tail := EncodeRest(bytes[k..]);
    text := text + tail;
    TextRoundTrip(bytes);
  }

  /** The last one or two bytes, padded. */
  method EncodeRest(bytes: Bytes) returns (text: string)
    requires |bytes| <= 2
    ensures text == Encode(bytes)
  {
    hide Encode, Letter;
    EncodeTail(bytes);
    text := [];
    var h, third := 0, '=';
    if |bytes| == 2 {
      h := bytes[1];
      third := Letter(h % 16 * 4);
    }
    if |bytes| >= 1 {
      text := [Letter(bytes[0] / 4), Letter(bytes[0] % 4 * 16 + h / 16), third, '='];
    }
  }

  /** The decoder's inner function: the next code, or the default at the end. */
  method TakeCode(text: string, from: nat) returns (r: Result<Option<nat>, TextError>, d: nat)
    ensures r.Err? ==> NextCode(text, from) == Err(r.error)
    ensures r.Ok? ==> NextCode(text, from) == Ok(Got(r.value, d))
  {
    hide Code, IsSpace;
    d := from;
    while d < |text|
      invariant NextCode(text, from) == NextCode(text, d)
    {
      var code := Code(text[d]);
      if code.Some? {
        d := d + 1;
        return Ok(code), d;
      }
      if !IsSpace(text[d]) {
        return Err(UnknownCharacter(text[d])), d;
      }
      d := d + 1;
    }
    r := Ok(None);
  }

  /** A byte array cell past the end swallows what is stored in it. */
  method Store(room: array<int>, e: nat, b: byte)
    modifies room
    ensures forall i :: 0 <= i < room.Length && i != e ==> room[i] == old(room[i])
    ensures e < room.Length ==> room[e] == b
  {
    if e < room.Length {
      room[e] := b;
    }
  }

  method StoreAll(room: array<int>, from: nat, bytes: Bytes) returns (e: nat)
    modifies room
    ensures e == from + |bytes|
    ensures forall i :: 0 <= i < room.Length && i < from ==> room[i] == old(room[i])
    ensures forall i :: from <= i < room.Length && i < e ==> room[i] == bytes[i - from]
  {
    e := from;
    for j := 0 to |bytes|
      invariant e == from + j
      invariant forall i :: 0 <= i < room.Length && i < from ==> room[i] == old(room[i])
      invariant forall i :: from <= i < room.Length && i < e ==> room[i] == bytes[i - from]
    {
      Store(room, e, bytes[j]);
      e := e + 1;
    }
  }

  method TakeQuad(text: string, from: nat) returns (r: Result<Quad, TextError>)
    ensures r == NextQuad(text, from)
  {
    hide NextCode;
    var codeE, codeG, codeF, codeH;
    var next: nat;
    codeE, next := TakeCode(text, from);
    if codeE.Err? {
      return Err(codeE.error);
    }
    codeG, next := TakeCode(text, next);
    if codeG.Err? {
      return Err(codeG.error);
    }
    codeF, next := TakeCode(text, next);
    if codeF.Err? {
      return Err(codeF.error);
    }
    codeH, next := TakeCode(text, next);
    if codeH.Err? {
      return Err(codeH.error);
    }
    r := Ok(Quad(codeE.value, Or(codeG.value, 0), Or(codeF.value, PAD), Or(codeH.value, PAD), next));
  }

  lemma DecodedQuad(text: string, d: nat)
    requires d <= |text|
    ensures Decoded(text, d) ==
              match NextQuad(text, d)
              case Err(error) => Err(error)
              case Ok(q) => if q.e.None? then Ok([]) else After(QuadBytes(q.e.value, q.g, q.f, q.h), Decoded(text, q.next))
  {
    hide NextQuad, QuadBytes;
  }

  predicate Holds(room: array<int>, all: Bytes)
    reads room
  {
    forall i :: 0 <= i < room.Length && i < |all| ==> room[i] == all[i]
  }

  /** Every decoded byte stored while there is room; how many there were. */
  method DecodeInto(text: string, room: array<int>) returns (r: Result<nat, TextError>, ghost all: Bytes)
    modifies room
    ensures r.Err? ==> Decoded(text, 0) == Err(r.error)
    ensures r.Ok? ==> Decoded(text, 0) == Ok(all) && r.value == |all| && Holds(room, all)
  {
    hide NextQuad, QuadBytes, Decoded;
    var d, e := 0, 0;
    all := [];
    NothingYet(text);
    while true
      invariant d <= |text| && e == |all| && Holds(room, all)
      invariant Decoded(text, 0) == After(all, Decoded(text, d))
      decreases |text| - d
    {
      DecodedQuad(text, d);
      var quad := TakeQuad(text, d);
      if quad.Err? {
        return Err(quad.error), all;
      }
      var q := quad.value;
      if q.e.None? {
        assert all + [] == all;
        return Ok(e), all;
      }
      var bytes := QuadBytes(q.e.value, q.g, q.f, q.h);
      AfterTwice(all, bytes, Decoded(text, q.next));
      e := StoreAll(room, e, bytes);
      all := all + bytes;
      d := q.next;
    }
  }

  /** The array itself if it was filled, a copy of the filled part if not. */
  method Filled(room: array<int>, e: nat, ghost all: Bytes) returns (part: array<int>)
    requires e == |all| && Holds(room, all)
    ensures part == room || fresh(part)
    ensures part[..] == if |all| <= room.Length then all else all[..room.Length]
  {
    if e >= room.Length {
      return room;
    }
    part := new int[e];
    for i := 0 to e
      invariant forall j :: 0 <= j < i ==> part[j] == room[j]
    {
      part[i] := room[i];
    }
  }

  method DecodeText(text: string) returns (r: Result<array<int>, TextError>)
    ensures r.Err? ==> FromText(text) == Err(r.error)
    ensures r.Ok? ==> fresh(r.value) && FromText(text).Ok? && r.value[..] == FromText(text).value
  {
    hide Room, Decoded, Holds;
    var room := new int[Room(text)];
    var count, all := DecodeInto(text, room);
    if count.Err? {
      return Err(count.error);
    }
    var part := Filled(room, count.value, all);
    r := Ok(part);
  }

  function After(all: Bytes, rest: Result<Bytes, TextError>): Result<Bytes, TextError> {
    if rest.Err? then rest else Ok(all + rest.value)
  }

  lemma NothingYet(text: string)
    ensures Decoded(text, 0) == After([], Decoded(text, 0))
  {
    if Decoded(text, 0).Ok? {
      assert [] + Decoded(text, 0).value == Decoded(text, 0).value;
    }
  }

  lemma AfterTwice(all: Bytes, bytes: Bytes, rest: Result<Bytes, TextError>)
    ensures After(all, After(bytes, rest)) == After(all + bytes, rest)
  {
    if rest.Ok? {
      assert all + (bytes + rest.value) == all + bytes + rest.value;
    }
  }
}
