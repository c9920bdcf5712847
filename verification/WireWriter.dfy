/** The binary writer: byte arrays collected in blocks, a nested message's length patched into the
    block in front of it once the message is written
    (BinaryEncoder, BinaryWriter and the generated serialisers in
    HexWar.Client/wwwroot/js/generated/matchmaking_bundle.js). */
module WireWriter {
  import opened HexTypes
  import opened WireFormat
  import opened WireRoundTrip
  import opened WireBytes

  // ---- Blocks as values ----

  function Front<T>(s: seq<T>): seq<T>
    requires s != []
  {
    s[..|s| - 1]
  }

  function Last<T>(s: seq<T>): T
    requires s != []
  {
    s[|s| - 1]
  }

  function Concat(snap: seq<seq<int>>): seq<int> {
    if snap == [] then [] else snap[0] + Concat(snap[1..])
  }

  lemma {:induction false} ConcatAppend(xs: seq<seq<int>>, ys: seq<seq<int>>)
    ensures Concat(xs + ys) == Concat(xs) + Concat(ys)
  {
    if xs == [] {
      assert xs + ys == ys;
    } else {
      assert (xs + ys)[1..] == xs[1..] + ys;
      ConcatAppend(xs[1..], ys);
    }
  }

  lemma ConcatOne(b: seq<int>)
    ensures Concat([b]) == b
  {
    assert [b][1..] == [];
  }

  /** The text with `s` written at its end. */
  function Plus(layers: seq<seq<int>>, s: seq<int>): seq<seq<int>>
    requires layers != []
  {
    layers[|layers| - 1 := Last(layers) + s]
  }

  lemma PlusNothing(layers: seq<seq<int>>)
    requires layers != []
    ensures Plus(layers, []) == layers
  {
    assert Last(layers) + [] == Last(layers);
  }

  lemma PlusTwice(layers: seq<seq<int>>, s: seq<int>, t: seq<int>)
    requires layers != []
    ensures Plus(Plus(layers, s), t) == Plus(layers, s + t)
  {
    assert Last(layers) + s + t == Last(layers) + (s + t);
  }

  /** `open` are the blocks of the delimited fields under way, outermost first. Each ends in a
      bookmark: the length of the text up to it. `layers` is the text between the bookmarks. */
  ghost predicate Linked(snap: seq<seq<int>>, open: seq<nat>, layers: seq<seq<int>>, total: int)
    decreases |open|
  {
    if open == [] then |layers| == 1 && layers[0] == Concat(snap) && total == |layers[0]|
    else
      var i := Last(open);
      && |layers| == |open| + 1
      && i < |snap| && snap[i] != []
      && (|open| >= 2 ==> Last(Front(open)) < i)
      && Last(layers) == Concat(snap[i + 1..])
      && total == Last(snap[i]) + |Last(layers)|
      && Linked(snap[..i] + [Front(snap[i])], Front(open), Front(layers), Last(snap[i]))
  }

  lemma LinkedShape(snap: seq<seq<int>>, open: seq<nat>, layers: seq<seq<int>>, total: int)
    requires Linked(snap, open, layers, total)
    ensures |layers| == |open| + 1
    ensures open != [] ==> Last(open) < |snap| && snap[Last(open)] != []
  {
  }

  /** A block pushed is text written. */
  lemma LinkedPush(snap: seq<seq<int>>, open: seq<nat>, layers: seq<seq<int>>, total: int, b: seq<int>)
    requires Linked(snap, open, layers, total)
    ensures Linked(snap + [b], open, Plus(layers, b), total + |b|)
  {
    ConcatOne(b);
    if open == [] {
      ConcatAppend(snap, [b]);
    } else {
      var i := Last(open);
      ConcatAppend(snap[i + 1..], [b]);
      assert (snap + [b])[i + 1..] == snap[i + 1..] + [b];
      assert (snap + [b])[..i] == snap[..i];
      assert Front(Plus(layers, b)) == Front(layers);
    }
  }

  lemma {:induction false} LinkedPushAll(snap: seq<seq<int>>, open: seq<nat>, layers: seq<seq<int>>, total: int, rest: seq<seq<int>>)
    requires Linked(snap, open, layers, total)
    ensures Linked(snap + rest, open, Plus(layers, Concat(rest)), total + |Concat(rest)|)
    decreases |rest|
  {
    hide Linked;
    LinkedShape(snap, open, layers, total);
    if rest == [] {
      PlusNothing(layers);
      assert snap + rest == snap;
    } else {
      LinkedPush(snap, open, layers, total, rest[0]);
      LinkedPushAll(snap + [rest[0]], open, Plus(layers, rest[0]), total + |rest[0]|, rest[1..]);
      assert snap + [rest[0]] + rest[1..] == snap + rest;
      PlusTwice(layers, rest[0], Concat(rest[1..]));
    }
  }

  /** Text added to the last block, when no bookmark is in it. */
  lemma LinkedGrow(snap: seq<seq<int>>, open: seq<nat>, layers: seq<seq<int>>, total: int, v: seq<int>)
    requires Linked(snap, open, layers, total) && snap != []
    requires open != [] ==> Last(open) < |snap| - 1
    ensures Linked(Front(snap) + [Last(snap) + v], open, Plus(layers, v), total + |v|)
  {
    var grown := Front(snap) + [Last(snap) + v];
    if open == [] {
      GrownConcat(snap, v);
    } else {
      var i := Last(open);
      GrownConcat(snap[i + 1..], v);
      assert grown[i + 1..] == Front(snap[i + 1..]) + [Last(snap[i + 1..]) + v];
      assert grown[..i] == snap[..i] && grown[i] == snap[i];
      assert Front(Plus(layers, v)) == Front(layers);
    }
  }

  lemma GrownConcat(snap: seq<seq<int>>, v: seq<int>)
    requires snap != []
    ensures Concat(Front(snap) + [Last(snap) + v]) == Concat(snap) + v
  {
    ConcatAppend(Front(snap), [Last(snap) + v]);
    ConcatAppend(Front(snap), [Last(snap)]);
    ConcatOne(Last(snap) + v);
    ConcatOne(Last(snap));
    assert snap == Front(snap) + [Last(snap)];
  }

  /** A header block with the bookmark behind it opens a new layer. */
  lemma LinkedBegin(snap: seq<seq<int>>, open: seq<nat>, layers: seq<seq<int>>, total: int, header: seq<int>)
    requires Linked(snap, open, layers, total)
    ensures Linked(snap + [header + [total + |header|]], open + [|snap|], Plus(layers, header) + [[]], total + |header|)
  {
    LinkedPush(snap, open, layers, total, header);
    LinkedShape(snap, open, layers, total);
    var marked := header + [total + |header|];
    var next := snap + [marked];
    var marks, deeper := open + [|snap|], Plus(layers, header) + [[]];
    assert Last(marks) == |snap| && Front(marks) == open && next[|snap|] == marked;
    assert Last(marked) == total + |header| && Front(marked) == header;
    assert next[..|snap|] == snap && next[|snap| + 1..] == [];
    assert Last(deeper) == [] && Front(deeper) == Plus(layers, header);
    hide Concat;
    assert Concat([]) == [] by {
      EmptyConcat();
    }
  }

  lemma EmptyConcat()
    ensures Concat([]) == []
  {
  }

  /** The two top layers become one, the patch between them. */
  function Merged(layers: seq<seq<int>>, patch: seq<int>): seq<seq<int>>
    requires |layers| >= 2
  {
    Plus(Front(layers), patch + Last(layers))
  }

  /** Replacing the bookmark by the patch closes the layer. */
  lemma LinkedEnd(snap: seq<seq<int>>, open: seq<nat>, layers: seq<seq<int>>, total: int, patch: seq<int>)
    requires Linked(snap, open, layers, total) && open != []
    ensures |layers| >= 2
    ensures Last(open) < |snap| && snap[Last(open)] != []
    ensures Linked(snap[Last(open) := Front(snap[Last(open)]) + patch], Front(open), Merged(layers, patch), total + |patch|)
  {
    var i := Last(open);
    var below := snap[..i] + [Front(snap[i])];
    var mark := Last(snap[i]);
    LinkedGrow(below, Front(open), Front(layers), mark, patch);
    var patched := snap[..i] + [Front(snap[i]) + patch];
    assert Front(below) + [Last(below) + patch] == patched;
    LinkedShape(below, Front(open), Front(layers), mark);
    LinkedPushAll(patched, Front(open), Plus(Front(layers), patch), mark + |patch|, snap[i + 1..]);
    assert patched + snap[i + 1..] == snap[i := Front(snap[i]) + patch];
    PlusTwice(Front(layers), patch, Last(layers));
  }

  // ---- The objects ----

  /** A growable byte array; a bookmark is a number too large for a byte until it is patched. */
  class Block {
    var items: seq<int>

    constructor (items: seq<int>)
      ensures this.items == items
    {
      this.items := items;
    }

    method Push(item: int)
      modifies this
      ensures items == old(items) + [item]
    {
      items := items + [item];
    }

    method Pop() returns (item: int)
      requires items != []
      modifies this
      ensures item == Last(old(items)) && items == Front(old(items))
    {
      item := items[|items| - 1];
      items := items[..|items| - 1];
    }

    /** Seven bits at a time. */
    method PushVarint(number: nat)
      modifies this
      ensures items == old(items) + Varint(number)
    {
      var rest := number;
      assert items + Varint(number) == old(items) + Varint(number);
      while rest > 127
        invariant items + Varint(rest) == old(items) + Varint(number)
      {
        assert items + Varint(rest) == (items + [rest % 128 + 128]) + Varint(rest / 128);
        Push(rest % 128 + 128);
        rest := rest / 128;
      }
      Push(rest);
    }
  }

  class BinaryEncoder {
    var buffer: Block

    constructor ()
      ensures fresh(buffer) && buffer.items == []
    {
      buffer := new Block([]);
    }

    method WriteUnsignedVarint32(number: nat)
      requires number < TWO_32
      modifies buffer
      ensures buffer.items == old(buffer.items) + Varint(number)
    {
      buffer.PushVarint(number);
    }

    method WriteSignedVarint32(number: int)
      requires IsInt32(number)
      modifies buffer
      ensures buffer.items == old(buffer.items) + SignedVarint(number)
    {
      if 0 <= number {
        WriteUnsignedVarint32(number);
      } else {
        var rest := number;
        assert buffer.items + SignBytes(number, 9) == old(buffer.items) + SignBytes(number, 9);
        for b := 0 to 9
          invariant buffer.items + SignBytes(rest, 9 - b) == old(buffer.items) + SignBytes(number, 9)
        {
          assert buffer.items + SignBytes(rest, 9 - b) == (buffer.items + [rest % 128 + 128]) + SignBytes(rest / 128, 8 - b);
          buffer.Push(rest % 128 + 128);
          rest := rest / 128;
        }
        buffer.Push(1);
        assert old(buffer.items) + SignedVarint(number) == old(buffer.items) + SignBytes(number, 9) + [1];
      }
    }

    /** Hands the array over and starts a new one. */
    method End() returns (filled: Block)
      modifies this
      ensures filled == old(buffer) && fresh(buffer) && buffer.items == []
    {
      filled := buffer;
      buffer := new Block([]);
    }
  }

  ghost function Snapshot(bs: seq<Block>): seq<seq<int>>
    reads bs
  {
    seq(|bs|, i requires 0 <= i < |bs| reads bs => bs[i].items)
  }

  ghost predicate Distinct(bs: seq<Block>) {
    forall i, j :: 0 <= i < j < |bs| ==> bs[i] != bs[j]
  }

  lemma SnapshotAt(bs: seq<Block>, i: nat)
    requires i < |bs|
    ensures |Snapshot(bs)| == |bs| && Snapshot(bs)[i] == bs[i].items
  {
  }

  lemma SnapshotLength(bs: seq<Block>)
    ensures |Snapshot(bs)| == |bs|
  {
  }

  lemma SnapshotPush(bs: seq<Block>, b: Block)
    requires Distinct(bs) && b !in bs
    ensures Distinct(bs + [b]) && Snapshot(bs + [b]) == Snapshot(bs) + [b.items]
  {
  }

  class BinaryWriter {
    var blocks: seq<Block>
    var totalLength: int
    const encoder: BinaryEncoder
    ghost var open: seq<nat>
    ghost var layers: seq<seq<int>>
    ghost var Repr: set<object>

    ghost predicate Valid()
      reads this, Repr
    {
      && this in Repr && encoder in Repr && encoder.buffer in Repr
      && (forall i :: 0 <= i < |blocks| ==> blocks[i] in Repr)
      && encoder.buffer !in blocks
      && Distinct(blocks)
      && Linked(Snapshot(blocks), open, layers, totalLength)
    }

    /** Everything written so far, cut at the bookmarks. */
    ghost function Text(): (r: seq<seq<int>>)
      requires Valid()
      reads this, Repr
      ensures |r| == |open| + 1
    {
      LinkedShape(Snapshot(blocks), open, layers, totalLength);
      Plus(layers, encoder.buffer.items)
    }

    constructor ()
      ensures Valid() && fresh(Repr) && Text() == [[]] && open == []
    {
      blocks, totalLength := [], 0;
      encoder := new BinaryEncoder();
      open, layers := [], [[]];
      new;
      Repr := {this, encoder, encoder.buffer};
      PlusNothing(layers);
    }

    /** Hands the encoder's array to the list of blocks, unless it is empty. */
    method FlushEncoder()
      requires Valid()
      modifies Repr
      ensures Valid() && fresh(Repr - old(Repr)) && Text() == old(Text()) && open == old(open)
      ensures encoder.buffer.items == [] && old(blocks) <= blocks
    {
      hide Linked, Snapshot, Distinct;
      LinkedShape(Snapshot(blocks), open, layers, totalLength);
      ghost var snap := Snapshot(blocks);
      var filled := encoder.End();
      Repr := Repr + {encoder.buffer};
      PushBlock(filled, snap);
      LinkedShape(Snapshot(blocks), open, layers, totalLength);
      PlusNothing(layers);
    }

    /** `PushBlock` on a block that is in nobody's way. */
    method PushBlock(b: Block, ghost snap: seq<seq<int>>)
      requires this in Repr && encoder in Repr && encoder.buffer in Repr && b in Repr
      requires forall i :: 0 <= i < |blocks| ==> blocks[i] in Repr
      requires encoder.buffer !in blocks && encoder.buffer != b && b !in blocks && Distinct(blocks)
      requires snap == Snapshot(blocks) && Linked(snap, open, layers, totalLength) && layers != []
      modifies this`blocks, this`totalLength, this`layers
      ensures Valid() && layers == Plus(old(layers), b.items) && old(blocks) <= blocks
    {
      hide Linked, Snapshot, Distinct;
      if |b.items| != 0 {
        LinkedPush(snap, open, layers, totalLength, b.items);
        SnapshotPush(blocks, b);
        blocks := blocks + [b];
        totalLength := totalLength + |b.items|;
        layers := Plus(layers, b.items);
      } else {
        PlusNothing(layers);
      }
    }

    method WriteFieldHeader(field: nat, wire: nat)
      requires Valid() && 1 <= field && 8 * field + wire < TWO_32
      modifies Repr
      ensures Valid() && Repr == old(Repr) && Text() == Plus(old(Text()), Header(field, wire))
      ensures open == old(open) && blocks == old(blocks)
      ensures encoder.buffer == old(encoder.buffer) && encoder.buffer.items == old(encoder.buffer.items) + Header(field, wire)
    {
      hide Linked, Snapshot, Distinct;
      LinkedShape(Snapshot(blocks), open, layers, totalLength);
      encoder.WriteUnsignedVarint32(8 * field + wire);
      PlusTwice(layers, old(encoder.buffer.items), Header(field, wire));
    }

    method WriteInt32(field: nat, value: int)
      requires Valid() && 1 <= field <= 5 && IsInt32(value)
      modifies Repr
      ensures Valid() && Repr == old(Repr) && Text() == Plus(old(Text()), Header(field, VARINT) + SignedVarint(value))
      ensures Header(field, VARINT) == [8 * field]
      ensures open == old(open) && blocks == old(blocks)
    {
      hide Linked, Snapshot, Distinct;
      WriteFieldHeader(field, VARINT);
      LinkedShape(Snapshot(blocks), open, layers, totalLength);
      ghost var before := encoder.buffer.items;
      encoder.WriteSignedVarint32(value);
      PlusTwice(layers, before, SignedVarint(value));
      PlusTwice(old(Text()), Header(field, VARINT), SignedVarint(value));
    }

    /** A delimited field whose bytes are at hand. */
    method WriteBytes(field: nat, body: Bytes)
      requires Valid() && 1 <= field <= 5 && |body| < TWO_32
      modifies Repr
      ensures Valid() && fresh(Repr - old(Repr)) && Text() == Plus(old(Text()), Delimited(field, body))
      ensures open == old(open) && old(blocks) <= blocks
    {
      hide Linked, Snapshot, Distinct;
      WriteFieldHeader(field, DELIMITED);
      LinkedShape(Snapshot(blocks), open, layers, totalLength);
      ghost var before := encoder.buffer.items;
      encoder.WriteUnsignedVarint32(|body|);
      PlusTwice(layers, before, Varint(|body|));
      PlusTwice(old(Text()), Header(field, DELIMITED), Varint(|body|));
      AppendBytes(body);
      PlusTwice(old(Text()), Header(field, DELIMITED) + Varint(|body|), body);
    }

    method AppendBytes(body: Bytes)
      requires Valid()
      modifies Repr
      ensures Valid() && fresh(Repr - old(Repr)) && Text() == Plus(old(Text()), body)
      ensures open == old(open) && old(blocks) <= blocks
    {
      hide Linked, Snapshot, Distinct;
      FlushEncoder();
      LinkedShape(Snapshot(blocks), open, layers, totalLength);
      ghost var snap := Snapshot(blocks);
      PlusNothing(layers);
      var b := new Block(body);
      Repr := Repr + {b};
      PushBlock(b, snap);
      LinkedShape(Snapshot(blocks), open, layers, totalLength);
      PlusNothing(layers);
    }

    /** The header goes out with the length so far as a bookmark behind it. */
    method BeginDelimited(field: nat) returns (mark: Block)
      requires Valid() && 1 <= field <= 5
      modifies Repr
      ensures Valid() && fresh(Repr - old(Repr))
      ensures Text() == Plus(old(Text()), Header(field, DELIMITED)) + [[]]
      ensures open == old(open) + [Last(open)] && Last(open) < |blocks| && blocks[Last(open)] == mark
      ensures old(blocks) <= blocks
    {
      hide Linked, Snapshot, Distinct;
      WriteFieldHeader(field, DELIMITED);
      LinkedShape(Snapshot(blocks), open, layers, totalLength);
      HeaderLength(field);
      ghost var snap := Snapshot(blocks);
      mark := encoder.End();
      Repr := Repr + {encoder.buffer};
      MarkBlock(mark, snap);
      PlusNothing(layers);
    }

    /** The bookmark comes off and the length of what was written since goes in its place. */
    method EndDelimited(mark: Block)
      requires Valid() && open != [] && Last(open) < |blocks| && blocks[Last(open)] == mark
      requires |Last(Text())| < TWO_32
      modifies Repr
      ensures Valid() && Repr == old(Repr)
      ensures |old(Text())| >= 2 && Text() == Merged(old(Text()), Varint(|Last(old(Text()))|))
      ensures open == Front(old(open)) && blocks == old(blocks)
    {
      hide Linked, Snapshot, Distinct;
      ghost var i := Last(open);
      ghost var snap := Snapshot(blocks);
      LinkedShape(snap, open, layers, totalLength);
      SnapshotAt(blocks, i);
      BookmarkTells(snap, open, layers, totalLength);
      var bookmark := mark.Pop();
      var length := totalLength + |encoder.buffer.items| - bookmark;
      ghost var patch := Varint(length);
      LinkedEnd(snap, open, layers, totalLength, patch);
      mark.PushVarint(length);
      totalLength := totalLength + |Varint(length)|;
      open, layers := Front(open), Merged(layers, patch);
      SnapshotPatched(old(blocks), i);
      MergedText(old(layers), patch, encoder.buffer.items);
    }

    /** `PushBlock` and the bookmark. */
    method MarkBlock(mark: Block, ghost snap: seq<seq<int>>)
      requires this in Repr && encoder in Repr && encoder.buffer in Repr && mark in Repr && mark.items != []
      requires forall i :: 0 <= i < |blocks| ==> blocks[i] in Repr
      requires encoder.buffer !in blocks && encoder.buffer != mark && mark !in blocks && Distinct(blocks)
      requires snap == Snapshot(blocks) && Linked(snap, open, layers, totalLength) && layers != []
      modifies this`blocks, this`totalLength, this`layers, this`open, mark
      ensures Valid() && layers == Plus(old(layers), old(mark.items)) + [[]]
      ensures open == old(open) + [|old(blocks)|] && blocks == old(blocks) + [mark]
    {
      hide Linked, Distinct, Snapshot;
      LinkedBegin(snap, open, layers, totalLength, mark.items);
      SnapshotLength(blocks);
      blocks := blocks + [mark];
      totalLength := totalLength + |mark.items|;
      layers := Plus(layers, mark.items) + [[]];
      open := open + [|blocks| - 1];
      mark.Push(totalLength);
      SnapshotPush(old(blocks), mark);
    }

    /** All blocks copied one behind the other into a byte array of the total length. */
    method GetResultBuffer() returns (result: array<int>)
      requires Valid() && open == []
      modifies Repr
      ensures Valid() && fresh(Repr - old(Repr)) && open == [] && Text() == old(Text())
      ensures fresh(result) && result[..] == Text()[0]
    {
      hide Linked, Snapshot, Distinct, Concat;
      FlushEncoder();
      ghost var snap := Snapshot(blocks);
      WholeText(snap, layers, totalLength);
      LinkedShape(snap, open, layers, totalLength);
      PlusNothing(layers);
      SnapshotLength(blocks);
      result := new int[totalLength];
      var d := 0;
      assert snap[..0] == [] && Concat([]) == [] by { EmptyConcat(); }
      for e := 0 to |blocks|
        modifies result
        invariant Snapshot(blocks) == snap && Valid()
        invariant 0 <= d <= result.Length && result[..d] == Concat(snap[..e])
      {
        SnapshotAt(blocks, e);
        ConcatNext(snap, e);
        var f := blocks[e];
        Copy(result, d, f.items);
        d := d + |f.items|;
      }
      assert snap[..|blocks|] == snap;
    }

    static method Copy(target: array<int>, d: nat, items: seq<int>)
      requires d + |items| <= target.Length
      modifies target
      ensures target[..d + |items|] == old(target[..d]) + items
    {
      for j := 0 to |items|
        invariant target[..d] == old(target[..d])
        invariant forall k :: 0 <= k < j ==> target[d + k] == items[k]
      {
        target[d + j] := items[j];
      }
    }
  }

  /** The length between bookmark and end is that of the top layer. */
  lemma BookmarkTells(snap: seq<seq<int>>, open: seq<nat>, layers: seq<seq<int>>, total: int)
    requires Linked(snap, open, layers, total) && open != []
    ensures layers != [] && Last(open) < |snap| && snap[Last(open)] != []
    ensures total - Last(snap[Last(open)]) == |Last(layers)|
  {
  }

  twostate lemma SnapshotPatched(bs: seq<Block>, new i: nat)
    requires i < |bs| && Distinct(bs)
    requires forall j :: 0 <= j < |bs| && bs[j] != bs[i] ==> unchanged(bs[j])
    ensures |old(Snapshot(bs))| == |bs|
    ensures Snapshot(bs) == old(Snapshot(bs))[i := bs[i].items]
  {
  }

  lemma MergedText(layers: seq<seq<int>>, patch: seq<int>, more: seq<int>)
    requires |layers| >= 2
    ensures Plus(Merged(layers, patch), more) == Merged(Plus(layers, more), patch)
  {
    assert Front(Plus(layers, more)) == Front(layers);
    PlusTwice(Front(layers), patch + Last(layers), more);
    assert patch + Last(layers) + more == patch + (Last(layers) + more);
  }

  lemma HeaderLength(field: nat)
    ensures |Header(field, DELIMITED)| > 0
  {
  }

  lemma WholeText(snap: seq<seq<int>>, layers: seq<seq<int>>, total: int)
    requires Linked(snap, [], layers, total)
    ensures layers == [Concat(snap)] && total == |Concat(snap)|
  {
  }

  lemma ConcatNext(snap: seq<seq<int>>, e: nat)
    requires e < |snap|
    ensures Concat(snap[..e + 1]) == Concat(snap[..e]) + snap[e]
    ensures |Concat(snap[..e])| + |snap[e]| <= |Concat(snap)|
  {
    assert snap[..e + 1] == snap[..e] + [snap[e]];
    ConcatAppend(snap[..e], [snap[e]]);
    ConcatOne(snap[e]);
    ConcatAppend(snap[..e + 1], snap[e + 1..]);
    assert snap[..e + 1] + snap[e + 1..] == snap;
  }

  // ---- The generated serialisers ----

  lemma PlusChain(text: seq<seq<int>>, f1: Bytes, f2: Bytes, f3: Bytes, f4: Bytes)
    requires text != []
    ensures Plus(Plus(Plus(Plus(text, f1), f2), f3), f4) == Plus(text, f1 + f2 + f3 + f4)
  {
    PlusTwice(text, f1, f2);
    PlusTwice(text, f1 + f2, f3);
    PlusTwice(text, f1 + f2 + f3, f4);
  }

  lemma MergedDelimited(text: seq<seq<int>>, field: nat, body: Bytes)
    requires text != []
    ensures Merged(Plus(Plus(text, Header(field, DELIMITED)) + [[]], body), Varint(|body|)) == Plus(text, Delimited(field, body))
  {
    hide Header, Varint, Merged;
    var header, size := Header(field, DELIMITED), Varint(|body|);
    PlusOnTop(Plus(text, header), body);
    MergedTop(Plus(text, header), body, size);
    PlusTwice(text, header, size + body);
    assert header + (size + body) == header + size + body;
  }

  lemma PlusOnTop(text: seq<seq<int>>, body: seq<int>)
    ensures Plus(text + [[]], body) == text + [body]
  {
    assert [] + body == body;
  }

  lemma MergedTop(text: seq<seq<int>>, body: seq<int>, size: seq<int>)
    requires text != []
    ensures Merged(text + [body], size) == Plus(text, size + body)
  {
    assert Front(text + [body]) == text;
  }

  method WriteStringIfAny(writer: BinaryWriter, field: nat, s: Bytes)
    requires writer.Valid() && 1 <= field <= 5 && |s| < TWO_32
    modifies writer.Repr
    ensures writer.Valid() && fresh(writer.Repr - old(writer.Repr))
    ensures writer.Text() == Plus(old(writer.Text()), StringField(field, s))
    ensures writer.open == old(writer.open) && old(writer.blocks) <= writer.blocks
  {
    hide Linked, Snapshot, Distinct, BinaryWriter.Valid, BinaryWriter.Text;
    if |s| > 0 {
      writer.WriteBytes(field, s);
    } else {
      PlusNothing(writer.Text());
    }
  }

  method WriteInt32IfAny(writer: BinaryWriter, field: nat, v: int)
    requires writer.Valid() && 1 <= field <= 5 && IsInt32(v)
    modifies writer.Repr
    ensures writer.Valid() && fresh(writer.Repr - old(writer.Repr))
    ensures writer.Text() == Plus(old(writer.Text()), Int32Field(field, v))
    ensures writer.open == old(writer.open) && old(writer.blocks) <= writer.blocks
  {
    hide Linked, Snapshot, Distinct, BinaryWriter.Valid, BinaryWriter.Text;
    if v != 0 {
      writer.WriteInt32(field, v);
    } else {
      PlusNothing(writer.Text());
    }
  }

  method SerializeResult(message: MatchFoundResult, writer: BinaryWriter)
    requires writer.Valid() && |EncodeResult(message)| < TWO_32
    modifies writer.Repr
    ensures writer.Valid() && fresh(writer.Repr - old(writer.Repr))
    ensures writer.Text() == Plus(old(writer.Text()), EncodeResult(message))
    ensures writer.open == old(writer.open) && old(writer.blocks) <= writer.blocks
  {
    hide Linked, Snapshot, Distinct, BinaryWriter.Valid, BinaryWriter.Text, StringField;
    ResultSizes(message);
    WriteStringIfAny(writer, 1, message.roomId);
    WriteStringIfAny(writer, 2, message.playerSide);
    WriteStringIfAny(writer, 3, message.wsEndpoint);
    WriteStringIfAny(writer, 4, message.opponentId);
    PlusChain(old(writer.Text()), StringField(1, message.roomId), StringField(2, message.playerSide),
              StringField(3, message.wsEndpoint), StringField(4, message.opponentId));
  }

  /** A nested message: written first, its length patched in front of it afterwards. */
  method WriteResultMessage(message: MatchFoundResult, writer: BinaryWriter)
    requires writer.Valid() && |EncodeResult(message)| < TWO_32
    modifies writer.Repr
    ensures writer.Valid() && fresh(writer.Repr - old(writer.Repr))
    ensures writer.Text() == Plus(old(writer.Text()), Delimited(2, EncodeResult(message)))
    ensures writer.open == old(writer.open) && old(writer.blocks) <= writer.blocks
  {
    hide Linked, Snapshot, Distinct, BinaryWriter.Valid, BinaryWriter.Text, EncodeResult;
    var mark := writer.BeginDelimited(2);
    SerializeResult(message, writer);
    MergedDelimited(old(writer.Text()), 2, EncodeResult(message));
    writer.EndDelimited(mark);
  }

  method SerializeUpdate(message: MatchmakingUpdate, writer: BinaryWriter)
    requires writer.Valid() && |EncodeUpdate(message)| < TWO_32
    requires UpdateInts(message)
    modifies writer.Repr
    ensures writer.Valid() && fresh(writer.Repr - old(writer.Repr))
    ensures writer.Text() == Plus(old(writer.Text()), EncodeUpdate(message))
    ensures writer.open == old(writer.open)
  {
    hide Linked, Snapshot, Distinct, BinaryWriter.Valid, BinaryWriter.Text, Int32Field, EncodeResult, Delimited;
    UpdateSize(message);
    WriteInt32IfAny(writer, 1, message.status);
    if message.matchResult.Some? {
      WriteResultMessage(message.matchResult.value, writer);
    } else {
      PlusNothing(writer.Text());
    }
    WriteInt32IfAny(writer, 3, message.queuePosition);
    WriteInt32IfAny(writer, 4, message.estimatedWait);
    PlusChain(old(writer.Text()), Int32Field(1, message.status), ResultField(message.matchResult),
              Int32Field(3, message.queuePosition), Int32Field(4, message.estimatedWait));
  }

  method SerializeRoom(message: RoomInfo, writer: BinaryWriter)
    requires writer.Valid() && |EncodeRoom(message)| < TWO_32 && RoomInts(message)
    modifies writer.Repr
    ensures writer.Valid() && fresh(writer.Repr - old(writer.Repr))
    ensures writer.Text() == Plus(old(writer.Text()), EncodeRoom(message))
    ensures writer.open == old(writer.open) && old(writer.blocks) <= writer.blocks
  {
    hide Linked, Snapshot, Distinct, BinaryWriter.Valid, BinaryWriter.Text, StringField, Int32Field;
    RoomSizes(message);
    ghost var text := writer.Text();
    var f1, f2, f3, f4 := StringField(1, message.roomId), StringField(2, message.phase),
                          Int32Field(3, message.currentRound), Int32Field(4, message.playerCount);
    WriteStringIfAny(writer, 1, message.roomId);
    WriteStringIfAny(writer, 2, message.phase);
    WriteInt32IfAny(writer, 3, message.currentRound);
    WriteInt32IfAny(writer, 4, message.playerCount);
    WriteStringIfAny(writer, 5, message.createdAt);
    PlusChain(text, f1, f2, f3, f4);
    PlusTwice(text, f1 + f2 + f3 + f4, StringField(5, message.createdAt));
  }

  /** Repeated submessages, one delimited field each. */
  method SerializeRooms(rooms: seq<RoomInfo>, writer: BinaryWriter)
    requires writer.Valid() && |EncodeRooms(rooms)| < TWO_32
    requires forall i :: 0 <= i < |rooms| ==> RoomInts(rooms[i])
    modifies writer.Repr
    ensures writer.Valid() && fresh(writer.Repr - old(writer.Repr))
    ensures writer.Text() == Plus(old(writer.Text()), EncodeRooms(rooms))
    ensures writer.open == old(writer.open)
  {
    hide Linked, Snapshot, Distinct, BinaryWriter.Valid, BinaryWriter.Text, EncodeRoom, EncodeRooms, Delimited;
    ghost var text := writer.Text();
    RoomsStart(text, rooms);
    for d := 0 to |rooms|
      invariant writer.Valid() && fresh(writer.Repr - old(writer.Repr))
      invariant writer.Text() == Plus(text, EncodeRooms(rooms[..d])) && writer.open == old(writer.open)
    {
      RoomsNext(text, rooms, d);
      ghost var before := writer.Text();
      var e := writer.BeginDelimited(1);
      SerializeRoom(rooms[d], writer);
      MergedDelimited(before, 1, EncodeRoom(rooms[d]));
      writer.EndDelimited(e);
    }
    assert rooms[..|rooms|] == rooms;
  }

  lemma RoomsStart(text: seq<seq<int>>, rooms: seq<RoomInfo>)
    requires text != []
    ensures Plus(text, EncodeRooms(rooms[..0])) == text
  {
    PlusNothing(text);
  }

  lemma {:induction false} EncodeRoomsAppend(rooms: seq<RoomInfo>, room: RoomInfo)
    ensures EncodeRooms(rooms + [room]) == EncodeRooms(rooms) + Delimited(1, EncodeRoom(room))
  {
    hide Delimited, EncodeRoom;
    if rooms == [] {
      assert [] + [room] == [room] && [room][1..] == [];
    } else {
      assert (rooms + [room])[1..] == rooms[1..] + [room];
      EncodeRoomsAppend(rooms[1..], room);
    }
  }

  lemma {:induction false} EncodeRoomsSize(rooms: seq<RoomInfo>, d: nat)
    requires d < |rooms|
    ensures |EncodeRoom(rooms[d])| <= |EncodeRooms(rooms)|
  {
    hide Delimited, EncodeRoom;
    if d == 0 {
      DelimitedSize(1, EncodeRoom(rooms[0]));
    } else {
      EncodeRoomsSize(rooms[1..], d - 1);
    }
  }

  lemma RoomsNext(text: seq<seq<int>>, rooms: seq<RoomInfo>, d: nat)
    requires text != [] && d < |rooms|
    ensures |EncodeRoom(rooms[d])| <= |EncodeRooms(rooms)|
    ensures Plus(Plus(text, EncodeRooms(rooms[..d])), Delimited(1, EncodeRoom(rooms[d]))) == Plus(text, EncodeRooms(rooms[..d + 1]))
  {
    hide Delimited, EncodeRoom, EncodeRooms;
    EncodeRoomsSize(rooms, d);
    assert rooms[..d + 1] == rooms[..d] + [rooms[d]];
    EncodeRoomsAppend(rooms[..d], rooms[d]);
    PlusTwice(text, EncodeRooms(rooms[..d]), Delimited(1, EncodeRoom(rooms[d])));
  }

  lemma UpdateSize(u: MatchmakingUpdate)
    ensures u.matchResult.Some? ==> |EncodeResult(u.matchResult.value)| <= |EncodeUpdate(u)|
  {
    hide Int32Field, EncodeResult;
    ResultFieldSize(u.matchResult);
  }

  /** `serializeBinary` and back: the bytes a new writer produces are the message's wire form,
      which the reader turns into the same message. */
  method SerializeBinary(message: MatchmakingUpdate) returns (bytes: array<int>)
    requires |EncodeUpdate(message)| < TWO_32
    requires UpdateInts(message)
    ensures fresh(bytes) && bytes[..] == EncodeUpdate(message) && UpdateFrom(EncodeUpdate(message)) == Ok(message)
    ensures bytes[..] == UpdateBytes(message)
  {
    hide Linked, Snapshot, Distinct, BinaryWriter.Valid, BinaryWriter.Text, EncodeUpdate, UpdateBytes;
    var writer := new BinaryWriter();
    SerializeUpdate(message, writer);
    bytes := writer.GetResultBuffer();
    assert [] + EncodeUpdate(message) == EncodeUpdate(message);
    UpdateRoundTrip(message);
    UpdateWire(message);
  }

  /** The same of the list of active rooms. */
  method SerializeRoomsBinary(rooms: seq<RoomInfo>) returns (bytes: array<int>)
    requires |EncodeRooms(rooms)| < TWO_32
    requires forall i :: 0 <= i < |rooms| ==> RoomInts(rooms[i])
    ensures fresh(bytes) && bytes[..] == EncodeRooms(rooms) && RoomsFrom(EncodeRooms(rooms)) == Ok(rooms)
    ensures bytes[..] == RoomsBytes(rooms)
  {
    hide Linked, Snapshot, Distinct, BinaryWriter.Valid, BinaryWriter.Text, EncodeRooms, RoomsBytes;
    var writer := new BinaryWriter();
    SerializeRooms(rooms, writer);
    bytes := writer.GetResultBuffer();
    assert [] + EncodeRooms(rooms) == EncodeRooms(rooms);
    RoomsRoundTrip(rooms);
    RoomsWire(rooms);
  }
}
