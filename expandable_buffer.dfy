/**
 * `render.util.ExpandableBuffer`: a byte buffer that doubles its capacity
 * whenever a put would not fit, keeping the bytes before the position.
 *
 * The underlying native buffer is an `array<byte>`; its limit is always its
 * capacity (the model has no flip, limit or compact). Multi-byte values are
 * written in little-endian order, the native order of the buffers the
 * renderer allocates.
 */
module ExpandableBuffers {
  import opened Base

  /** The `n` low-order bytes of `v`, least significant first. */
  function LittleEndian(v: nat, n: nat): (r: seq<byte>)
    ensures |r| == n
  {
    if n == 0 then [] else [(v % 256) as byte] + LittleEndian(v / 256, n - 1)
  }

  /** The inverse reading: bytes least significant first back to a number. */
  function FromLittleEndian(bs: seq<byte>): nat {
    if bs == [] then 0 else bs[0] as nat + 256 * FromLittleEndian(bs[1..])
  }

  lemma Pow2Bytes(n: nat)
    ensures Pow2(8 * (n + 1)) == 256 * Pow2(8 * n)
  {
    var m := 8 * n;
    assert Pow2(m + 8) == 2 * Pow2(m + 7);
    assert Pow2(m + 7) == 2 * Pow2(m + 6);
    assert Pow2(m + 6) == 2 * Pow2(m + 5);
    assert Pow2(m + 5) == 2 * Pow2(m + 4);
    assert Pow2(m + 4) == 2 * Pow2(m + 3);
    assert Pow2(m + 3) == 2 * Pow2(m + 2);
    assert Pow2(m + 2) == 2 * Pow2(m + 1);
    assert Pow2(m + 1) == 2 * Pow2(m);
  }

  /** Writing `n` bytes and reading them back gives the value, for values that fit. */
  lemma {:induction false} LittleEndianRoundTrip(v: nat, n: nat)
    requires v < Pow2(8 * n)
    ensures FromLittleEndian(LittleEndian(v, n)) == v
  {
    if n == 0 {
      assert v == 0;
    } else {
      var high := v / 256;
      Pow2Bytes(n - 1);
      assert high < Pow2(8 * (n - 1));
      LittleEndianRoundTrip(high, n - 1);
      LittleEndianStep(v, n);
    }
  }

  lemma LittleEndianStep(v: nat, n: nat)
    requires n > 0
    ensures FromLittleEndian(LittleEndian(v, n)) == v % 256 + 256 * FromLittleEndian(LittleEndian(v / 256, n - 1))
  {
    var bs := LittleEndian(v, n);
    assert bs[1..] == LittleEndian(v / 256, n - 1);
  }

  // Java's primitive encodings, two's complement for the signed integers.
  function CharBytes(c: uint16): seq<byte> { LittleEndian(c as nat, 2) }
  function ShortBytes(x: int16): seq<byte> { LittleEndian((x as int) % 0x1_0000, 2) }
  function IntBytes(x: int32): seq<byte> { LittleEndian((x as int) % 0x1_0000_0000, 4) }
  function LongBytes(x: int64): seq<byte> { LittleEndian((x as int) % 0x1_0000_0000_0000_0000, 8) }
  function FloatBytes(bits: uint32): seq<byte> { LittleEndian(bits as nat, 4) }
  function DoubleBytes(bits: uint64): seq<byte> { LittleEndian(bits as nat, 8) }

  /** An `int` comes back from its four bytes as its two's-complement residue. */
  lemma IntRoundTrip(x: int32)
    ensures FromLittleEndian(IntBytes(x)) == (x as int) % 0x1_0000_0000
  {
    assert Pow2(32) == 0x1_0000_0000 by {
      Pow2Bytes(3);
      Pow2Bytes(2);
      Pow2Bytes(1);
      Pow2Bytes(0);
    }
    LittleEndianRoundTrip((x as int) % 0x1_0000_0000, 4);
  }

  /**
   * `newCapacity` is what the doubling loop reaches from `capacity`: the
   * first capacity × 2^k, k ≥ 1, that leaves room for `n` bytes past `position`.
   */
  ghost predicate IsGrowth(capacity: nat, position: nat, n: int, newCapacity: nat) {
    exists k: nat :: 1 <= k && newCapacity == capacity * Pow2(k) && newCapacity - position >= n
                   && forall j: nat :: 1 <= j < k ==> capacity * Pow2(j) - position < n
  }

  /** The doubling loop of `ensureAdditionalCapacity`: the first `capacity * 2^k` that leaves room for `n`. */
  method Doubled(capacity: nat, position: nat, n: int) returns (newCapacity: nat)
    requires capacity > 0 && capacity - position < n
    ensures IsGrowth(capacity, position, n, newCapacity)
  {
    newCapacity := capacity * 2;
    ghost var k: nat := 1;
    while newCapacity - position < n
      invariant 1 <= k && newCapacity == capacity * Pow2(k)
      invariant forall j: nat :: 1 <= j < k ==> capacity * Pow2(j) - position < n
      decreases n - (newCapacity - position)
    {
      assert capacity * Pow2(k + 1) == 2 * (capacity * Pow2(k));
      newCapacity := newCapacity * 2;
      k := k + 1;
    }
  }

  /** A buffer of capacity 0 never grows: every doubling is still 0, so the loop never ends. */
  lemma ZeroCapacityNeverGrows(position: nat, n: int, newCapacity: nat)
    requires n > 0
    ensures !IsGrowth(0, position, n, newCapacity)
  {
  }

  /** Growth at least doubles and is the least doubling that fits. */
  lemma GrowthIsLeast(capacity: nat, position: nat, n: int, newCapacity: nat)
    requires capacity > 0 && IsGrowth(capacity, position, n, newCapacity)
    ensures newCapacity >= 2 * capacity
    ensures newCapacity - position >= n
    ensures newCapacity > 2 * capacity ==> newCapacity / 2 - position < n
  {
    var k: nat :| 1 <= k && newCapacity == capacity * Pow2(k) && newCapacity - position >= n
                  && forall j: nat :: 1 <= j < k ==> capacity * Pow2(j) - position < n;
    Pow2AtLeast(k);
    if k > 1 {
      assert capacity * Pow2(k) == 2 * (capacity * Pow2(k - 1));
      assert capacity * Pow2(k - 1) - position < n;
    } else {
      assert newCapacity == 2 * capacity;
    }
  }

  lemma {:induction false} Pow2AtLeast(k: nat)
    requires k >= 1
    ensures Pow2(k) >= 2
  {
    if k > 1 { Pow2AtLeast(k - 1); }
  }

  class ExpandableBuffer {
    var data: array<byte>
    var position: nat
    /** The bytes before the position, as a value. */
    ghost var content: seq<byte>
    ghost var Repr: set<object>

    ghost predicate Valid()
      reads this, Repr
    {
      Repr == {this, data} && position <= data.Length && data.Length > 0
      && |content| == position && forall i :: 0 <= i < position ==> content[i] == data[i]
    }

    function Capacity(): nat
      reads this
    {
      data.Length
    }

    function Remaining(): int
      reads this
    {
      data.Length - position
    }

    /** A relative put of `bytes`: written at the old position, position advanced, storage kept when they fit. */
    twostate predicate Appended(bytes: seq<byte>)
      reads this, data
    {
      position == old(position) + |bytes|
      && content == old(content) + bytes
      && (old(data.Length - position) >= |bytes| ==>
            data == old(data) && forall k :: position <= k < data.Length ==> data[k] == old(data[k]))
      && (old(data.Length - position) < |bytes| ==>
            IsGrowth(old(data.Length), old(position), |bytes|, data.Length))
    }

    /**
     * An absolute put of `bytes` at `index`: the growth check uses the
     * position, not the index; the index is then checked against the
     * (possibly grown) capacity.
     */
    twostate predicate WroteAt(index: int, bytes: seq<byte>, o: Outcome)
      reads this, data
      requires old(position <= data.Length)
    {
      position == old(position)
      && (old(data.Length - position) >= |bytes| ==> data == old(data))
      && (old(data.Length - position) < |bytes| ==>
            IsGrowth(old(data.Length), old(position), |bytes|, data.Length))
      && (o.Pass? <==> 0 <= index <= data.Length - |bytes|)
      && (o.Fail? ==> o.error == IndexOutOfBounds(index))
      && (o.Pass? ==> data[index..index + |bytes|] == bytes)
      && (forall k :: 0 <= k < old(position) && !(o.Pass? && index <= k < index + |bytes|) ==>
            k < data.Length && data[k] == old(data[k]))
      && (old(data.Length - position) >= |bytes| ==>
            forall k :: 0 <= k < data.Length && !(o.Pass? && index <= k < index + |bytes|) ==>
              data[k] == old(data[k]))
    }

    /** `new ExpandableBuffer(initialCapacity)`; a capacity of 0 could never grow. */
    constructor (initialCapacity: nat)
      requires initialCapacity > 0
      ensures Valid() && fresh(Repr)
      ensures Capacity() == initialCapacity && position == 0
    {
      data := new byte[initialCapacity];
      position := 0;
      content := [];
      Repr := {this, data};
    }

    /** `ensureAdditionalCapacity(n)`: after it, at least `n` bytes remain past the position. */
    method EnsureAdditionalCapacity(n: int)
      requires Valid()
      modifies Repr
      ensures Valid() && fresh(Repr - old(Repr))
      ensures position == old(position) && content == old(content)
      ensures old(Remaining()) >= n ==> data == old(data) && data[..] == old(data[..])
      ensures old(Remaining()) < n ==> fresh(data) && IsGrowth(old(Capacity()), position, n, Capacity())
      ensures Remaining() >= n
    {
      if data.Length - position < n {
        var capacity := Doubled(data.Length, position, n);
        var grown := new byte[capacity];
        forall i | 0 <= i < position {
          grown[i] := data[i];
        }
        data := grown;
        Repr := {this, data};
      }
    }

    /** Writes `bytes` at `index` into the current storage. */
    method WriteAt(index: nat, bytes: seq<byte>)
      requires Valid() && index + |bytes| <= data.Length
      modifies data
      ensures forall k :: 0 <= k < data.Length ==>
                data[k] == if index <= k < index + |bytes| then bytes[k - index] else old(data[k])
    {
      forall i | 0 <= i < |bytes| {
        data[index + i] := bytes[i];
      }
    }

    /** The common shape of every relative put. */
    method PutBytes(bytes: seq<byte>)
      requires Valid()
      modifies Repr
      ensures Valid() && fresh(Repr - old(Repr))
      ensures Appended(bytes)
    {
      EnsureAdditionalCapacity(|bytes|);
      WriteAt(position, bytes);
      position := position + |bytes|;
      content := content + bytes;
    }

    /** The common shape of every absolute put. */
    method PutBytesAt(index: int, bytes: seq<byte>) returns (o: Outcome)
      requires Valid()
      modifies Repr
      ensures Valid() && fresh(Repr - old(Repr))
      ensures WroteAt(index, bytes, o)
    {
      EnsureAdditionalCapacity(|bytes|);
      if index < 0 || index > data.Length - |bytes| {
        return Fail(IndexOutOfBounds(index));
      }
      WriteAt(index, bytes);
      content := data[..position];
      assert data[index..index + |bytes|] == bytes;
      o := Pass;
    }

    method Put(b: byte)
      requires Valid()
      modifies Repr
      ensures Valid() && fresh(Repr - old(Repr)) && Appended([b])
    {
      PutBytes([b]);
    }

    /** `put(byte[] src)`. */
    method PutArray(src: seq<byte>)
      requires Valid()
      modifies Repr
      ensures Valid() && fresh(Repr - old(Repr)) && Appended(src)
    {
      PutBytes(src);
    }

    /**
     * `put(byte[] src, int offset, int length)`: grows for
     * min(src.length - offset, length) bytes, then the range is checked.
     */
    method PutRange(src: seq<byte>, offset: int, length: int) returns (o: Outcome)
      requires Valid()
      modifies Repr
      ensures Valid() && fresh(Repr - old(Repr))
      ensures o.Pass? <==> 0 <= offset && 0 <= length && offset + length <= |src|
      ensures o.Pass? ==> Appended(src[offset..offset + length])
      ensures o.Fail? ==> o.error == IndexOutOfBounds(offset) && position == old(position) && content == old(content)
    {
      var need := if |src| - offset < length then |src| - offset else length;
      EnsureAdditionalCapacity(need);
      if offset < 0 || length < 0 || offset + length > |src| {
        return Fail(IndexOutOfBounds(offset));
      }
      var bytes := src[offset..offset + length];
      WriteAt(position, bytes);
      position := position + |bytes|;
      content := content + bytes;
      o := Pass;
    }

    method PutChar(value: uint16)
      requires Valid()
      modifies Repr
      ensures Valid() && fresh(Repr - old(Repr)) && Appended(CharBytes(value))
    {
      PutBytes(CharBytes(value));
    }

    method PutShort(value: int16)
      requires Valid()
      modifies Repr
      ensures Valid() && fresh(Repr - old(Repr)) && Appended(ShortBytes(value))
    {
      PutBytes(ShortBytes(value));
    }

    method PutInt(value: int32)
      requires Valid()
      modifies Repr
      ensures Valid() && fresh(Repr - old(Repr)) && Appended(IntBytes(value))
    {
      PutBytes(IntBytes(value));
    }

    method PutLong(value: int64)
      requires Valid()
      modifies Repr
      ensures Valid() && fresh(Repr - old(Repr)) && Appended(LongBytes(value))
    {
      PutBytes(LongBytes(value));
    }

    /** `putFloat`, given the float's bit pattern. */
    method PutFloat(bits: uint32)
      requires Valid()
      modifies Repr
      ensures Valid() && fresh(Repr - old(Repr)) && Appended(FloatBytes(bits))
    {
      PutBytes(FloatBytes(bits));
    }

    /** `putDouble`, given the double's bit pattern. */
    method PutDouble(bits: uint64)
      requires Valid()
      modifies Repr
      ensures Valid() && fresh(Repr - old(Repr)) && Appended(DoubleBytes(bits))
    {
      PutBytes(DoubleBytes(bits));
    }

    /** `put(int index, byte b)`. */
    method PutAt(index: int, b: byte) returns (o: Outcome)
      requires Valid()
      modifies Repr
      ensures Valid() && fresh(Repr - old(Repr)) && WroteAt(index, [b], o)
    {
      o := PutBytesAt(index, [b]);
    }

    method PutCharAt(index: int, value: uint16) returns (o: Outcome)
      requires Valid()
      modifies Repr
      ensures Valid() && fresh(Repr - old(Repr)) && WroteAt(index, CharBytes(value), o)
    {
      o := PutBytesAt(index, CharBytes(value));
    }

    method PutShortAt(index: int, value: int16) returns (o: Outcome)
      requires Valid()
      modifies Repr
      ensures Valid() && fresh(Repr - old(Repr)) && WroteAt(index, ShortBytes(value), o)
    {
      o := PutBytesAt(index, ShortBytes(value));
    }

    method PutIntAt(index: int, value: int32) returns (o: Outcome)
      requires Valid()
      modifies Repr
      ensures Valid() && fresh(Repr - old(Repr)) && WroteAt(index, IntBytes(value), o)
    {
      o := PutBytesAt(index, IntBytes(value));
    }

    method PutLongAt(index: int, value: int64) returns (o: Outcome)
      requires Valid()
      modifies Repr
      ensures Valid() && fresh(Repr - old(Repr)) && WroteAt(index, LongBytes(value), o)
    {
      o := PutBytesAt(index, LongBytes(value));
    }

    method PutFloatAt(index: int, bits: uint32) returns (o: Outcome)
      requires Valid()
      modifies Repr
      ensures Valid() && fresh(Repr - old(Repr)) && WroteAt(index, FloatBytes(bits), o)
    {
      o := PutBytesAt(index, FloatBytes(bits));
    }

    method PutDoubleAt(index: int, bits: uint64) returns (o: Outcome)
      requires Valid()
      modifies Repr
      ensures Valid() && fresh(Repr - old(Repr)) && WroteAt(index, DoubleBytes(bits), o)
    {
      o := PutBytesAt(index, DoubleBytes(bits));
    }

    /** `rewind()`: position back to 0, storage and contents kept. */
    method Rewind()
      requires Valid()
      modifies this
      ensures Valid() && Repr == old(Repr) && data == old(data) && position == 0
    {
      position := 0;
      content := [];
    }

    /** `clear()`: with the limit always at capacity, the same as `rewind()`. */
    method Clear()
      requires Valid()
      modifies this
      ensures Valid() && Repr == old(Repr) && data == old(data) && position == 0
    {
      position := 0;
      content := [];
    }

    /** `position(int)`: a position outside [0, limit] is an `IllegalArgumentException`. */
    method SetPosition(newPosition: int) returns (o: Outcome)
      requires Valid()
      modifies this
      ensures Valid() && Repr == old(Repr) && data == old(data)
      ensures o.Pass? <==> 0 <= newPosition <= Capacity()
      ensures o.Pass? ==> position == newPosition
      ensures o.Fail? ==> o.error == IllegalArgument(BadPosition(newPosition)) && position == old(position)
    {
      if newPosition < 0 || newPosition > data.Length {
        return Fail(IllegalArgument(BadPosition(newPosition)));
      }
      position := newPosition;
      content := data[..newPosition];
      o := Pass;
    }
  }
}
