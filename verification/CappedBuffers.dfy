/** The frame size limit and the growing buffer a message is serialized into. */
module CappedBuffers {
  import opened Prelude

  newtype byte = x: int | 0 <= x < 256

  const MAX_FRAME: nat := 8 * 1024 * 1024
  const NEWLINE: byte := 10

  function Max(a: nat, b: nat): nat {
    if a < b then b else a
  }

  function Min(a: nat, b: nat): nat {
    if a < b then a else b
  }

  // ---------------------------------------------------------------- growth, on sizes alone

  /** Size, allocation, and how many bytes reallocation has copied so far. */
  datatype Extent = Extent(length: nat, capacity: nat, copied: nat)

  predicate Fits(e: Extent, count: nat) {
    e.length + count <= MAX_FRAME
  }

  function Grow(e: Extent, count: nat): Extent {
    var required := e.length + count + 1;
    if required > e.capacity then
      Extent(e.length + count, Min(Max(Max(e.capacity, 64) * 2, required), MAX_FRAME + 1), e.copied + e.length)
    else
      e.(length := e.length + count)
  }

  function Total(counts: seq<nat>): nat {
    if counts == [] then 0 else Total(counts[..|counts| - 1]) + counts[|counts| - 1]
  }

  /** The buffer after successful writes of these sizes. */
  function Extended(counts: seq<nat>): Extent {
    if counts == [] then Extent(0, 0, 0) else Grow(Extended(counts[..|counts| - 1]), counts[|counts| - 1])
  }

  /** Allocation and copying caused by any successful sequence of writes: the cap holds, the
      delimiter always has room, and doubling keeps copying linear. */
  lemma {:induction false} GrowthBounds(counts: seq<nat>)
    requires Total(counts) <= MAX_FRAME
    ensures Extended(counts).length == Total(counts)
    ensures Extended(counts).capacity <= MAX_FRAME + 1
    ensures counts != [] ==> Extended(counts).length + 1 <= Extended(counts).capacity
    ensures Extended(counts).copied <= 2 * Extended(counts).capacity
    ensures Extended(counts).capacity < MAX_FRAME + 1 ==> Extended(counts).copied <= Extended(counts).capacity
  {
    if counts != [] {
      GrowthBounds(counts[..|counts| - 1]);
    }
  }

  // ---------------------------------------------------------------- contents

  function Flatten<T>(parts: seq<seq<T>>): seq<T> {
    if parts == [] then [] else Flatten(parts[..|parts| - 1]) + parts[|parts| - 1]
  }

  function Sizes(parts: seq<seq<byte>>): seq<nat> {
    seq(|parts|, i requires 0 <= i < |parts| => |parts[i]|)
  }

  lemma {:induction false} TotalIsFlatLength(parts: seq<seq<byte>>)
    ensures Total(Sizes(parts)) == |Flatten(parts)|
  {
    if parts != [] {
      var init := parts[..|parts| - 1];
      TotalIsFlatLength(init);
      assert Sizes(parts)[..|parts| - 1] == Sizes(init);
    }
  }

  lemma {:induction false} FlattenMonotone<T>(parts: seq<seq<T>>, k: nat)
    requires k <= |parts|
    ensures |Flatten(parts[..k])| <= |Flatten(parts)|
  {
    if k < |parts| {
      var init := parts[..|parts| - 1];
      assert init[..k] == parts[..k];
      FlattenMonotone(init, k);
    } else {
      assert parts[..k] == parts;
    }
  }

  /** A vector of bytes: `storage.Length` is its capacity. */
  class CappedBuffer {
    var storage: array<byte>
    var length: nat
    ghost var copied: nat

    ghost predicate Valid()
      reads this
    {
      length <= storage.Length && length <= MAX_FRAME && storage.Length <= MAX_FRAME + 1
    }

    ghost function Shape(): Extent
      reads this
    {
      Extent(length, storage.Length, copied)
    }

    ghost function Contents(): seq<byte>
      requires Valid()
      reads this, storage
    {
      storage[..length]
    }

    constructor ()
      ensures Valid() && fresh(storage)
      ensures Contents() == [] && Shape() == Extent(0, 0, 0)
    {
      storage := new byte[0];
      length := 0;
      copied := 0;
    }

    method Write(bytes: seq<byte>) returns (ok: bool)
      requires Valid()
      modifies this, storage
      ensures Valid() && (storage == old(storage) || fresh(storage))
      ensures ok <==> Fits(old(Shape()), |bytes|)
      ensures ok <==> old(|Contents()|) + |bytes| <= 8 * 1024 * 1024
      ensures ok ==> Contents() == old(Contents()) + bytes && Shape() == Grow(old(Shape()), |bytes|)
      ensures !ok ==> Contents() == old(Contents()) && Shape() == old(Shape())
    {
      if |bytes| > MAX_FRAME - length {
        return false;
      }
      var required := length + |bytes| + 1;
      if required > storage.Length {
        Reserve(Min(Max(Max(storage.Length, 64) * 2, required), MAX_FRAME + 1));
      }
      forall i | 0 <= i < |bytes| {
        storage[length + i] := bytes[i];
      }
      length := length + |bytes|;
      return true;
    }

    /** Reallocates to exactly `capacity`. */
    method Reserve(capacity: nat)
      requires Valid() && storage.Length < capacity <= MAX_FRAME + 1
      modifies this
      ensures Valid() && fresh(storage)
      ensures Contents() == old(Contents())
      ensures Shape() == Extent(old(length), capacity, old(copied) + old(length))
    {
      var larger := new byte[capacity];
      forall i | 0 <= i < length {
        larger[i] := storage[i];
      }
      storage := larger;
      copied := copied + length;
    }
  }

  datatype Encoding = Encoding(bytes: seq<byte>, capacity: nat)

  lemma OneMorePart(parts: seq<seq<byte>>, i: nat)
    requires i < |parts|
    ensures Flatten(parts[..i + 1]) == Flatten(parts[..i]) + parts[i]
    ensures Extended(Sizes(parts[..i + 1])) == Grow(Extended(Sizes(parts[..i])), |parts[i]|)
  {
    assert parts[..i + 1][..i] == parts[..i];
    assert Sizes(parts[..i + 1])[..i] == Sizes(parts[..i]);
  }

  /** Serializes one message inside a reservation of MAX_FRAME + 1 permits and reports how many of
      them go straight back. `parts` are the serializer's writes; it always makes at least one. */
  method Serialize(parts: seq<seq<byte>>) returns (frame: Option<Encoding>, unused: nat)
    requires parts != []
    ensures frame.Some? <==> |Flatten(parts)| <= MAX_FRAME
    ensures frame.Some? ==>
              && frame.value.bytes == Flatten(parts) + [NEWLINE]
              && frame.value.capacity == Extended(Sizes(parts)).capacity
              && |frame.value.bytes| <= frame.value.capacity
              && frame.value.capacity + unused == MAX_FRAME + 1
    ensures frame.None? ==> unused == MAX_FRAME + 1
  {
    var buffer := new CappedBuffer();
    var i := 0;
    assert parts[..0] == [];
    TotalIsFlatLength(parts);
    if |Flatten(parts)| <= MAX_FRAME {
      GrowthBounds(Sizes(parts));
    }
    hide Flatten, Extended, Total, Grow;
    while i < |parts|
      invariant 0 <= i <= |parts|
      invariant buffer.Valid() && fresh(buffer) && fresh(buffer.storage)
      invariant buffer.Contents() == Flatten(parts[..i])
      invariant buffer.Shape() == Extended(Sizes(parts[..i]))
    {
      var ok := buffer.Write(parts[i]);
      OneMorePart(parts, i);
      if !ok {
        FlattenMonotone(parts, i + 1);
        return None, MAX_FRAME + 1;
      }
      i := i + 1;
    }
    assert parts[..i] == parts;
    // The delimiter never reallocates.
    buffer.storage[buffer.length] := NEWLINE;
    var bytes := buffer.storage[..buffer.length + 1];
    return Some(Encoding(bytes, buffer.storage.Length)), MAX_FRAME + 1 - buffer.storage.Length;
  }
}
