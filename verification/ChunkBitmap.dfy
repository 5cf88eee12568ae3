/** The received-chunk bitmap, changed in place, with its count kept beside the bits. */
module ChunkBitmap {
  import opened Arithmetic
  import opened Bits
  import opened Bytes
  import opened Wrappers
  import Spec = BitmapSpec

  /** May `bytes` describe `n` chunks?  A look at the spare bits of the last byte. */
  method HasPadding(bytes: seq<byte>, n: nat) returns (found: bool)
    requires |bytes| == Spec.ByteLength(n)
    ensures found <==> !Spec.NoPadding(bytes, n)
  {
    hide Bit, Shr, Pow2;
    var spare := 8 * |bytes| - n;
    if spare == 0 { return false; }
    var last := bytes[|bytes| - 1];
    found := Shr(last, 8 - spare) != 0;
    Spec.HighBits(last, 8 - spare);
    if !found {
      forall i | n <= i < 8 * |bytes| ensures !Spec.Slot(bytes, i) {
        assert i / 8 == |bytes| - 1 && i % 8 >= 8 - spare;
      }
    } else {
      var k :| 8 - spare <= k < 8 && Bit(last, k);
      var i := 8 * (|bytes| - 1) + k;
      assert i / 8 == |bytes| - 1 && i % 8 == k;
      assert Spec.Slot(bytes, i);
    }
  }

  class ChunkBitmap {
    const chunkCount: nat
    const bits: array<byte>
    var count: nat
    ghost var chunks: seq<bool>

    /** The bytes encode the chunks, with zero padding, and the cached count is theirs. */
    ghost predicate Valid()
      reads this, bits
    {
      && chunkCount <= Spec.MAX_CHUNKS
      && |chunks| == chunkCount && bits.Length == Spec.ByteLength(chunkCount)
      && Spec.Encodes(bits[..], chunks)
      && count == Spec.Count(chunks)
    }

    constructor (chunkCount: nat)
      requires chunkCount <= Spec.MAX_CHUNKS
      ensures Valid() && fresh(bits) && this.chunkCount == chunkCount
      ensures chunks == seq(chunkCount, i => false)
    {
      this.chunkCount := chunkCount;
      bits := new byte[Spec.ByteLength(chunkCount)](_ => 0);
      count := 0;
      chunks := seq(chunkCount, i => false);
      new;
      Spec.ZeroEncodes(bits[..], chunkCount);
    }

    predicate IsComplete()
      requires Valid()
      reads this, bits
      ensures IsComplete() <==> forall i :: 0 <= i < chunkCount ==> chunks[i]
    {
      Spec.CountBounds(chunks);
      count == chunkCount
    }

    /** Out-of-range indices answer false. */
    predicate Has(index: int)
      requires Valid()
      reads this, bits
      ensures Has(index) == Spec.At(chunks, index)
    {
      assert 0 <= index < chunkCount ==> (Spec.Slot(bits[..], index) <==> chunks[index]);
      0 <= index < chunkCount && Bit(bits[index / 8], index % 8)
    }

    method Set(index: int) returns (changed: bool)
      requires Valid()
      modifies this, bits
      ensures Valid()
      ensures changed <==> 0 <= index < chunkCount && !old(chunks)[index]
      ensures chunks == if 0 <= index < chunkCount then old(chunks)[index := true] else old(chunks)
    {
      if index < 0 || index >= chunkCount { return false; }
      if Has(index) {
        assert chunks[index := true] == chunks;
        return false;
      }
      Spec.PutEncodes(bits[..], chunks, index, true);
      Spec.CountUpdate(chunks, index, true);
      assert bits[..][index / 8] == bits[index / 8];
      ghost var next := Spec.Put(bits[..], index, true);
      bits[index / 8] := Spec.Or(bits[index / 8], index % 8);
      assert bits[..] == next;
      count := count + 1;
      chunks := chunks[index := true];
      return true;
    }

    method Clear(index: int)
      requires Valid()
      modifies this, bits
      ensures Valid()
      ensures chunks == if 0 <= index < chunkCount then old(chunks)[index := false] else old(chunks)
    {
      if index < 0 || index >= chunkCount { return; }
      if !Has(index) {
        assert chunks[index := false] == chunks;
        return;
      }
      Spec.PutEncodes(bits[..], chunks, index, false);
      Spec.CountUpdate(chunks, index, false);
      assert bits[..][index / 8] == bits[index / 8];
      ghost var next := Spec.Put(bits[..], index, false);
      bits[index / 8] := Spec.AndNot(bits[index / 8], index % 8);
      assert bits[..] == next;
      count := count - 1;
      chunks := chunks[index := false];
    }

    method Fill()
      requires Valid()
      modifies this, bits
      ensures Valid() && chunks == Spec.Present(chunkCount)
    {
      hide Bit, Shr;
      for i := 0 to bits.Length
        invariant forall k :: 0 <= k < i ==> bits[k] == 255
      {
        bits[i] := 255;
      }
      var spare := 8 * bits.Length - chunkCount;
      ShrSmaller(255, 0);
      if spare > 0 && bits.Length > 0 {
        Spec.ShiftedOnes(spare, 0);
        bits[bits.Length - 1] := Shr(255, spare);
      }
      count := chunkCount;
      chunks := Spec.Present(chunkCount);
      Spec.CountBounds(chunks);
      FilledEncodes(bits[..], chunkCount);
    }

    method Reset()
      requires Valid()
      modifies this, bits
      ensures Valid() && chunks == seq(chunkCount, i => false)
    {
      for i := 0 to bits.Length
        invariant forall k :: 0 <= k < i ==> bits[k] == 0
      {
        bits[i] := 0;
      }
      count := 0;
      chunks := seq(chunkCount, i => false);
      Spec.ZeroEncodes(bits[..], chunkCount);
    }

    /** The first missing chunk at or after `from`, or -1 when there is none. */
    method NextMissing(from: int) returns (index: int)
      requires Valid()
      ensures index == -1 || (0 <= index < chunkCount && from <= index && !chunks[index])
      ensures forall i :: 0 <= i < chunkCount && from <= i && (index == -1 || i < index) ==> chunks[i]
    {
      hide Spec.Slot, Spec.Encodes, Spec.Count;
      var i := if from > 0 then from else 0;
      while i < chunkCount
        invariant 0 <= i && from <= i
        invariant forall k :: 0 <= k < chunkCount && from <= k < i ==> chunks[k]
      {
        if !Has(i) { return i; }
        i := i + 1;
      }
      return -1;
    }

    method ContiguousPrefix() returns (n: nat)
      requires Valid()
      ensures n == Spec.Prefix(chunks)
    {
      var missing := NextMissing(0);
      return if missing < 0 then chunkCount else missing;
    }

    /** The longest run from `index` that is all present, or all missing, up to `cap`. */
    method RunLength(index: int, present: bool, cap: int) returns (n: nat)
      requires Valid()
      ensures n == 0 || (n <= cap && index + n <= chunkCount)
      ensures forall k :: index <= k < index + n ==> Spec.At(chunks, k) == present
      ensures n >= cap || index + n >= chunkCount || Spec.At(chunks, index + n) != present
    {
      hide Spec.Slot, Spec.Encodes, Spec.Count, Spec.At;
      n := 0;
      while n < cap && index + n < chunkCount && Has(index + n) == present
        invariant n == 0 || (n <= cap && index + n <= chunkCount)
        invariant forall k :: index <= k < index + n ==> Spec.At(chunks, k) == present
      {
        n := n + 1;
      }
    }

    /** The first `limit` missing chunks at or after `from`, in order. */
    method MissingIndices(from: int, limit: int) returns (out: seq<nat>)
      requires Valid()
      ensures out <= Spec.Missing(chunks, from)
      ensures |out| == if limit <= 0 then 0 else Min(limit, |Spec.Missing(chunks, from)|)
    {
      hide Spec.Slot, Spec.Encodes, Spec.Count, Spec.MissingUpTo, Spec.ByteLength;
      out := [];
      var start := if from > 0 then from else 0;
      var i := start;
      Spec.MissingStep(chunks, start, start);
      while i < chunkCount && |out| < limit
        invariant start <= i
        invariant start < chunkCount ==> i <= chunkCount
        invariant |out| <= limit || out == []
        invariant out == Spec.MissingUpTo(chunks, start, Min(i, chunkCount))
      {
        Spec.MissingStep(chunks, start, i + 1);
        if !Has(i) { out := out + [i]; }
        i := i + 1;
      }
      Spec.MissingPrefix(chunks, start, Min(i, chunkCount), chunkCount);
    }

    method ToBytes() returns (bytes: seq<byte>)
      requires Valid()
      ensures Spec.Encodes(bytes, chunks)
    {
      return bits[..];
    }

    method Clone() returns (copy: ChunkBitmap)
      requires Valid()
      ensures fresh(copy) && fresh(copy.bits) && copy.Valid()
      ensures copy.chunkCount == chunkCount && copy.chunks == chunks && copy.count == count
    {
      hide Spec.Slot, Spec.Encodes, Spec.Count;
      ghost var bytes := bits[..];
      copy := new ChunkBitmap(chunkCount);
      copy.count := count;
      copy.chunks := chunks;
      forall i | 0 <= i < bits.Length { copy.bits[i] := bits[i]; }
      assert copy.bits[..] == bytes;
    }

    /** The wire form: the leading run's length, and a bitmap re-based at its end. */
    method EncodeResume() returns (prefix: nat, bytes: seq<byte>)
      requires Valid()
      ensures prefix == Spec.Prefix(chunks)
      ensures Spec.Encodes(bytes, chunks[prefix..])
    {
      hide Spec.Slot, Spec.Put, Spec.Prefix, Spec.Count;
      prefix := ContiguousPrefix();
      var remaining := chunkCount - prefix;
      var out := new byte[Spec.ByteLength(remaining)](_ => 0);
      ghost var flags := seq(remaining, i => false);
      Spec.ZeroEncodes(out[..], remaining);
      for i := 0 to remaining
        invariant |flags| == remaining && Spec.Encodes(out[..], flags)
        invariant forall k :: 0 <= k < remaining ==> (flags[k] <==> k < i && chunks[prefix + k])
      {
        if Has(prefix + i) {
          SetByte(out, flags, i);
          flags := flags[i := true];
        }
      }
      assert flags == chunks[prefix..];
      return prefix, out[..];
    }
  }

  lemma FilledEncodes(bytes: seq<byte>, n: nat)
    requires |bytes| == Spec.ByteLength(n)
    requires forall k :: 0 <= k < |bytes| - 1 ==> bytes[k] == 255
    requires bytes != [] ==> bytes[|bytes| - 1] == Shr(255, 8 * |bytes| - n)
    ensures Spec.Encodes(bytes, Spec.Present(n))
  {
    hide Bit, Shr;
    forall i | 0 <= i < 8 * |bytes| ensures Spec.Slot(bytes, i) <==> i < n {
      var spare := 8 * |bytes| - n;
      Spec.ShiftedOnes(spare, i % 8);
      Spec.OnesBits(8, i % 8);
      Spec.ByteWidth();
      assert i / 8 < |bytes| - 1 ==> bytes[i / 8] == 255;
    }
  }

  /** `out[i >> 3] |= 1 << (i & 7)`. */
  method SetByte(out: array<byte>, ghost flags: seq<bool>, i: nat)
    requires Spec.Encodes(out[..], flags) && i < |flags|
    modifies out
    ensures Spec.Encodes(out[..], flags[i := true])
  {
    Spec.PutEncodes(out[..], flags, i, true);
    assert out[..][i / 8] == out[i / 8];
    ghost var next := Spec.Put(out[..], i, true);
    out[i / 8] := Spec.Or(out[i / 8], i % 8);
    assert out[..] == next;
  }

  /** Rebuild from persisted bytes, recounting bit by bit. */
  method FromBytes(bytes: seq<byte>, n: int) returns (r: Result<ChunkBitmap, Spec.Failure>)
    ensures
      match r
      case Err(e) => Spec.FromBytes(bytes, n) == Err(e)
      case Ok(b) => fresh(b) && b.Valid() && b.chunkCount == n && Spec.FromBytes(bytes, n) == Ok(b.chunks)
  {
    hide Spec.Slot, Spec.Count, Spec.Ones, Spec.Encodes, Spec.Unpack;
    if n < 0 || n > Spec.MAX_CHUNKS { return Err(Spec.CountOutOfRange); }
    if |bytes| != Spec.ByteLength(n) { return Err(Spec.WrongLength); }
    var bad := HasPadding(bytes, n);
    if bad { return Err(Spec.PaddingSet); }
    var b := new ChunkBitmap(n);
    forall i | 0 <= i < |bytes| { b.bits[i] := bytes[i]; }
    assert b.bits[..] == bytes;
    b.count := CountBytes(bytes);
    b.chunks := Spec.Unpack(bytes, n);
    Spec.UnpackEncodes(bytes, n);
    Spec.PaddingAddsNothing(bytes, n, 8 * |bytes|);
    return Ok(b);
  }

  method CountBytes(bytes: seq<byte>) returns (count: nat)
    ensures count == Spec.Count(Spec.Unpack(bytes, 8 * |bytes|))
  {
    hide Spec.Slot;
    count := 0;
    for i := 0 to |bytes|
      invariant count == Spec.Count(Spec.Unpack(bytes, 8 * i))
    {
      ghost var before := count;
      var b: nat := bytes[i];
      while b != 0
        invariant count + Spec.Ones(b) == before + Spec.Ones(bytes[i])
      {
        count := count + b % 2;
        b := b / 2;
      }
      Spec.ByteAdds(bytes, i);
    }
  }

  /** The inverse of `EncodeResume`; every field may have come from a peer. */
  method DecodeResume(prefix: int, bytes: seq<byte>, n: int) returns (r: Result<ChunkBitmap, Spec.Failure>)
    ensures
      match r
      case Err(e) => Spec.DecodeResume(prefix, bytes, n) == Err(e)
      case Ok(b) => fresh(b) && b.Valid() && b.chunkCount == n && Spec.DecodeResume(prefix, bytes, n) == Ok(b.chunks)
  {
    hide Spec.Count, Spec.Encodes;
    if prefix < 0 || prefix > n { return Err(Spec.PrefixOutOfRange); }
    var remaining := n - prefix;
    if |bytes| != Spec.ByteLength(remaining) { return Err(Spec.WrongLength); }
    var bad := HasPadding(bytes, remaining);
    if bad { return Err(Spec.PaddingSet); }
    if n > Spec.MAX_CHUNKS { return Err(Spec.CountOutOfRange); }
    var map_ := new ChunkBitmap(n);
    for i := 0 to prefix
      invariant fresh(map_) && fresh(map_.bits) && map_.Valid() && map_.chunkCount == n
      invariant forall k :: 0 <= k < n ==> (map_.chunks[k] <==> k < i)
    {
      var _ := map_.Set(i);
    }
    for i := 0 to remaining
      invariant fresh(map_) && fresh(map_.bits) && map_.Valid() && map_.chunkCount == n
      invariant forall k :: 0 <= k < n ==>
        (map_.chunks[k] <==> k < prefix || (k < prefix + i && Spec.Slot(bytes, k - prefix)))
    {
      if Bit(bytes[i / 8], i % 8) {
        var _ := map_.Set(prefix + i);
      }
    }
    assert map_.chunks == Spec.Present(prefix) + Spec.Unpack(bytes, remaining);
    return Ok(map_);
  }
}
