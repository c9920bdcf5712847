/** The ring buffer behind the reconnect window
    (HexWar.Application/Sessions/CircularBuffer.cs). */
module RingBuffers {

  /** The last `n` items of a sequence, all of them if there are fewer. */
  function Last<T>(s: seq<T>, n: nat): seq<T> {
    if |s| <= n then s else s[|s| - n..]
  }

  function Filter<T>(s: seq<T>, keep: T -> bool): seq<T> {
    if s == [] then []
    else if keep(s[0]) then [s[0]] + Filter(s[1..], keep)
    else Filter(s[1..], keep)
  }

  /** What a buffer that held `s` holds after the items `xs` were added one by one. */
  function AddAll<T>(s: seq<T>, xs: seq<T>, n: nat): seq<T>
    decreases |xs|
  {
    if xs == [] then s else AddAll(Last(s + [xs[0]], n), xs[1..], n)
  }

  /** However many items are added, the buffer holds exactly the last `n` of all of them. */
  lemma {:induction false} AddAllIsLast<T>(s: seq<T>, xs: seq<T>, n: nat)
    requires |s| <= n
    ensures AddAll(s, xs, n) == Last(s + xs, n)
    decreases |xs|
  {
    if xs == [] {
      assert s + xs == s;
    } else {
      var next := Last(s + [xs[0]], n);
      AddAllIsLast(next, xs[1..], n);
      assert s + xs == (s + [xs[0]]) + xs[1..];
      LastPrefix(s + [xs[0]], xs[1..], n);
    }
  }

  lemma LastPrefix<T>(s: seq<T>, t: seq<T>, n: nat)
    ensures Last(Last(s, n) + t, n) == Last(s + t, n)
  {
  }

  lemma {:induction false} FilterAppend<T>(s: seq<T>, x: T, keep: T -> bool)
    ensures Filter(s + [x], keep) == Filter(s, keep) + if keep(x) then [x] else []
  {
    if s == [] {
      assert [] + [x] == [x] && [x][1..] == [];
    } else {
      assert (s + [x])[1..] == s[1..] + [x];
      FilterAppend(s[1..], x, keep);
    }
  }

  /** An index taken round the end of the array. */
  function Wrapped(x: nat, n: int): int
    requires n > 0
  {
    x % n
  }

  lemma WrapOnce(x: nat, n: nat)
    requires x < 2 * n
    ensures Wrapped(x, n) == if x < n then x else x - n
  {
    if x >= n {
      assert x == 1 * n + (x - n);
    }
  }

  /** The items held by an array whose next slot to write is `head`, oldest first. */
  function Held<T>(slots: seq<T>, head: int, count: int): (r: seq<T>)
    requires 0 <= head < |slots| && 0 <= count <= |slots|
    ensures |r| == count
  {
    if count < |slots| then slots[..count] else slots[head..] + slots[..head]
  }

  /** Writing the next slot drops the oldest item exactly when the array was full. */
  lemma Pushed<T>(slots: seq<T>, head: int, count: int, item: T)
    requires 0 <= head < |slots| && 0 <= count <= |slots|
    requires count < |slots| ==> head == count
    ensures var next := if head + 1 < |slots| then head + 1 else 0;
            Held(slots[head := item], next, if count < |slots| then count + 1 else count) ==
              Last(Held(slots, head, count) + [item], |slots|)
  {
  }

  class CircularBuffer<T(0)> {
    const buffer: array<T>
    var head: int
    var count: int

    ghost predicate Valid()
      reads this
    {
      && 0 <= head < buffer.Length
      && 0 <= count <= buffer.Length
      && (count < buffer.Length ==> head == count)
    }

    /** The items held, oldest first. */
    ghost function Contents(): (s: seq<T>)
      requires Valid()
      reads this, buffer
      ensures |s| == count
    {
      Held(buffer[..], head, count)
    }

    constructor (capacity: int)
      requires capacity > 0
      ensures Valid() && fresh(buffer) && buffer.Length == capacity && Contents() == []
    {
      buffer := new T[capacity];
      head, count := 0, 0;
    }

    method Add(item: T)
      requires Valid()
      modifies this, buffer
      ensures Valid() && Contents() == Last(old(Contents()) + [item], buffer.Length)
    {
      hide Wrapped, Last;
      WrapOnce(head + 1, buffer.Length);
      Pushed(buffer[..], head, count, item);
      buffer[head] := item;
      head := Wrapped(head + 1, buffer.Length);
      if count < buffer.Length {
        count := count + 1;
      }
      assert buffer[..] == old(buffer[..])[old(head) := item];
    }

    /** Where the oldest item is, and which slot holds the i-th. */
    lemma SlotOf(i: nat)
      requires Valid() && i < count
      ensures var start := if count < buffer.Length then 0 else head;
              0 <= Wrapped(start + i, buffer.Length) < buffer.Length && buffer[Wrapped(start + i, buffer.Length)] == Contents()[i]
    {
      hide Wrapped;
      WrapOnce((if count < buffer.Length then 0 else head) + i, buffer.Length);
    }

    method Where(keep: T -> bool) returns (list: seq<T>)
      requires Valid()
      ensures list == Filter(Contents(), keep)
    {
      hide Wrapped, Contents;
      list := [];
      var start := if count < buffer.Length then 0 else head;
      for i := 0 to count
        invariant list == Filter(Contents()[..i], keep)
      {
        SlotOf(i);
        var index := Wrapped(start + i, buffer.Length);
        FilterAppend(Contents()[..i], Contents()[i], keep);
        assert Contents()[..i] + [Contents()[i]] == Contents()[..i + 1];
        if keep(buffer[index]) {
          list := list + [buffer[index]];
        }
      }
      assert Contents()[..count] == Contents();
    }

    method Items() returns (list: seq<T>)
      requires Valid()
      ensures list == Contents()
    {
      hide Wrapped, Contents;
      list := [];
      var start := if count < buffer.Length then 0 else head;
      for i := 0 to count
        invariant list == Contents()[..i]
      {
        SlotOf(i);
        list := list + [buffer[Wrapped(start + i, buffer.Length)]];
      }
    }

    method Dispose(blank: T)
      requires Valid()
      modifies this, buffer
      ensures Valid() && Contents() == []
      ensures forall i :: 0 <= i < buffer.Length ==> buffer[i] == blank
    {
      forall i | 0 <= i < buffer.Length {
        buffer[i] := blank;
      }
      head, count := 0, 0;
    }
  }
}
