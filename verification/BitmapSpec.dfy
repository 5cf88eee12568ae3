/** What a packed bitmap means: one flag per chunk, lowest bit of the first byte first. */
module BitmapSpec {
  import opened Bits
  import opened Bytes
  import opened Wrappers

  const MAX_CHUNKS: nat := 0x2_0000

  function ByteLength(n: nat): nat {
    (n + 7) / 8
  }

  predicate Slot(bytes: seq<byte>, i: nat)
    requires i < 8 * |bytes|
  {
    Bit(bytes[i / 8], i % 8)
  }

  /** `bytes` holds exactly the flags `c` and zero padding. */
  ghost predicate Encodes(bytes: seq<byte>, c: seq<bool>) {
    && |bytes| == ByteLength(|c|)
    && forall i :: 0 <= i < 8 * |bytes| ==> (Slot(bytes, i) <==> i < |c| && c[i])
  }

  function Unpack(bytes: seq<byte>, n: nat): (c: seq<bool>)
    requires n <= 8 * |bytes|
    ensures |c| == n
  {
    seq(n, i requires 0 <= i < n => Slot(bytes, i))
  }

  ghost predicate NoPadding(bytes: seq<byte>, n: nat) {
    forall i :: n <= i < 8 * |bytes| ==> !Slot(bytes, i)
  }

  /** How many chunks are present. */
  function Count(c: seq<bool>): nat
    decreases |c|
  {
    if c == [] then 0 else Count(c[..|c| - 1]) + if c[|c| - 1] then 1 else 0
  }

  /** Length of the leading run of present chunks. */
  function Prefix(c: seq<bool>): (n: nat)
    ensures n <= |c| && (forall i :: 0 <= i < n ==> c[i]) && (n < |c| ==> !c[n])
    decreases |c|
  {
    if c == [] || !c[0] then 0 else 1 + Prefix(c[1..])
  }

  /** The missing chunks from `from` up to but excluding `end`, in order. */
  function MissingUpTo(c: seq<bool>, from: nat, end: nat): (m: seq<nat>)
    requires end <= |c|
    ensures forall i :: 0 <= i < |m| ==> from <= m[i] < end && !c[m[i]]
    ensures forall i, j :: 0 <= i < j < |m| ==> m[i] < m[j]
    ensures forall k :: from <= k < end && !c[k] ==> k in m
    decreases end
  {
    if end <= from then []
    else MissingUpTo(c, from, end - 1) + if c[end - 1] then [] else [end - 1]
  }

  /** One index further: nothing yet at `from`, and one more if that chunk is missing. */
  lemma MissingStep(c: seq<bool>, from: nat, end: nat)
    requires from <= end
    ensures from == end ==> MissingUpTo(c, from, if end < |c| then end else |c|) == []
    ensures from < end <= |c| ==>
      MissingUpTo(c, from, end) == MissingUpTo(c, from, end - 1) + if c[end - 1] then [] else [end - 1]
  {
  }

  lemma {:induction false} MissingPrefix(c: seq<bool>, from: nat, a: nat, b: nat)
    requires a <= b <= |c|
    ensures MissingUpTo(c, from, a) <= MissingUpTo(c, from, b)
    decreases b
  {
    hide MissingUpTo;
    if a < b {
      MissingPrefix(c, from, a, b - 1);
      if b <= from {
        NoneBefore(c, from, a);
        NoneBefore(c, from, b);
      } else {
        MissingStep(c, from, b);
      }
    }
  }

  lemma NoneBefore(c: seq<bool>, from: nat, end: nat)
    requires end <= |c| && end <= from
    ensures MissingUpTo(c, from, end) == []
  {
  }

  /** Index `k` as callers see it: out of range is absent. */
  predicate At(c: seq<bool>, k: int) {
    0 <= k < |c| && c[k]
  }

  function Missing(c: seq<bool>, from: int): seq<nat> {
    MissingUpTo(c, if from > 0 then from else 0, |c|)
  }

  datatype Failure = CountOutOfRange | WrongLength | PaddingSet | PrefixOutOfRange

  /** Everything a persisted bitmap must satisfy, and what it then says. */
  ghost function FromBytes(bytes: seq<byte>, n: int): Result<seq<bool>, Failure> {
    if n < 0 || n > MAX_CHUNKS then Err(CountOutOfRange)
    else if |bytes| != ByteLength(n) then Err(WrongLength)
    else if !NoPadding(bytes, n) then Err(PaddingSet)
    else Ok(Unpack(bytes, n))
  }

  function Present(n: nat): (c: seq<bool>)
    ensures |c| == n && forall i :: 0 <= i < n ==> c[i]
  {
    seq(n, i => true)
  }

  ghost function DecodeResume(prefix: int, bytes: seq<byte>, n: int): Result<seq<bool>, Failure> {
    if prefix < 0 || prefix > n then Err(PrefixOutOfRange)
    else if |bytes| != ByteLength(n - prefix) then Err(WrongLength)
    else if !NoPadding(bytes, n - prefix) then Err(PaddingSet)
    else if n > MAX_CHUNKS then Err(CountOutOfRange)
    else Ok(Present(prefix) + Unpack(bytes, n - prefix))
  }

  // -- representation --------------------------------------------------------

  lemma ByteWidth()
    ensures Pow2(8) == 256
  {
    assert Pow2(4) == 16;
  }

  /** Flags determine bytes. */
  lemma EncodingUnique(a: seq<byte>, b: seq<byte>, c: seq<bool>)
    requires Encodes(a, c) && Encodes(b, c)
    ensures a == b
  {
    hide Bit, Pow2;
    ByteWidth();
    forall k | 0 <= k < |a| ensures a[k] == b[k] {
      forall j | 0 <= j < 8 ensures Bit(a[k], j) <==> Bit(b[k], j) {
        var i := 8 * k + j;
        assert i / 8 == k && i % 8 == j;
        assert Slot(a, i) <==> Slot(b, i);
      }
      SameBits(a[k], b[k], 8);
    }
  }

  /** Bytes without padding are the encoding of what they unpack to. */
  lemma UnpackEncodes(bytes: seq<byte>, n: nat)
    requires |bytes| == ByteLength(n)
    ensures NoPadding(bytes, n) <==> Encodes(bytes, Unpack(bytes, n))
  {
    hide Bit, Slot;
  }

  lemma EncodesUnpacks(bytes: seq<byte>, c: seq<bool>)
    requires Encodes(bytes, c)
    ensures |bytes| == ByteLength(|c|) && Unpack(bytes, |c|) == c && NoPadding(bytes, |c|)
  {
    hide Bit, Slot;
    assert forall i :: 0 <= i < |c| ==> Unpack(bytes, |c|)[i] == c[i];
  }

  // -- one flag at a time ----------------------------------------------------

  function Or(w: byte, k: nat): byte
    requires k < 8
  {
    ByteWidth();
    Width(w, k, 8);
    WithBit(w, k)
  }

  function AndNot(w: byte, k: nat): byte
    requires k < 8
  {
    ByteWidth();
    Width(w, k, 8);
    WithoutBit(w, k)
  }

  function Put(bytes: seq<byte>, i: nat, b: bool): (r: seq<byte>)
    requires i < 8 * |bytes|
    ensures |r| == |bytes|
  {
    bytes[i / 8 := if b then Or(bytes[i / 8], i % 8) else AndNot(bytes[i / 8], i % 8)]
  }

  lemma SlotAfter(bytes: seq<byte>, i: nat, b: bool, j: nat)
    requires i < 8 * |bytes| && j < 8 * |bytes|
    ensures Slot(Put(bytes, i, b), j) <==> if j == i then b else Slot(bytes, j)
  {
    hide Bit, WithBit, WithoutBit, Pow2;
    if i / 8 == j / 8 {
      SetOne(bytes[i / 8], j % 8, i % 8);
      ClearOne(bytes[i / 8], j % 8, i % 8);
    }
  }

  lemma PutEncodes(bytes: seq<byte>, c: seq<bool>, i: nat, b: bool)
    requires Encodes(bytes, c) && i < |c|
    ensures Encodes(Put(bytes, i, b), c[i := b])
  {
    hide Slot, Put;
    forall j | 0 <= j < 8 * |bytes| ensures Slot(Put(bytes, i, b), j) <==> j < |c| && c[i := b][j] {
      SlotAfter(bytes, i, b, j);
    }
  }

  lemma ZeroEncodes(bytes: seq<byte>, n: nat)
    requires |bytes| == ByteLength(n) && forall k :: 0 <= k < |bytes| ==> bytes[k] == 0
    ensures Encodes(bytes, seq(n, i => false)) && Count(seq(n, i => false)) == 0
  {
    hide Bit;
    forall i | 0 <= i < 8 * |bytes| ensures !Slot(bytes, i) {
      NoBits(i % 8);
    }
    CountBounds(seq(n, i => false));
  }

  /** `0xff >>> s` keeps the bits below `8 - s`. */
  lemma ShiftedOnes(s: nat, k: nat)
    requires s <= 8 && k < 8
    ensures Shr(255, s) < 256 && (Bit(Shr(255, s), k) <==> k + s < 8)
  {
    hide Bit, Shr;
    ByteWidth();
    ShrBit(255, s, k);
    ShrSmaller(255, s);
    OnesBits(8, k + s);
  }

  lemma {:induction false} OnesBits(n: nat, k: nat)
    ensures Bit(Pow2(n) - 1, k) <==> k < n
    decreases k
  {
    if n == 0 {
      NoBits(k);
    } else if k > 0 {
      assert (Pow2(n) - 1) / 2 == Pow2(n - 1) - 1;
      OnesBits(n - 1, k - 1);
    }
  }

  ghost predicate ClearFrom(w: byte, m: nat) {
    forall k :: m <= k < 8 ==> !Bit(w, k)
  }

  /** The padding check looks at the bits of the last byte from `m` up. */
  lemma HighBits(w: byte, m: nat)
    requires m <= 8
    ensures Shr(w, m) == 0 <==> ClearFrom(w, m)
  {
    hide Bit, Shr, Pow2;
    if Shr(w, m) == 0 {
      forall k | m <= k < 8 ensures !Bit(w, k) {
        ShrBit(w, m, k - m);
        NoBits(k - m);
      }
    }
    if ClearFrom(w, m) {
      NothingShiftedIn(w, m);
    }
  }

  lemma NothingShiftedIn(w: byte, m: nat)
    requires m <= 8 && ClearFrom(w, m)
    ensures Shr(w, m) == 0
  {
    hide Bit, Shr, Pow2;
    ByteWidth();
    ShrSmaller(w, m);
    forall k | 0 <= k < 8 ensures Bit(Shr(w, m), k) <==> Bit(0, k) {
      ShrBit(w, m, k);
      NoBits(k);
      if k + m >= 8 {
        BeyondWidth(w, 8, k + m);
      }
    }
    SameBits(Shr(w, m), 0, 8);
  }

  lemma {:induction false} CountUpdate(c: seq<bool>, i: nat, b: bool)
    requires i < |c|
    ensures Count(c[i := b]) == Count(c) + (if b then 1 else 0) - (if c[i] then 1 else 0)
    decreases |c|
  {
    var d := c[i := b];
    var n := |c| - 1;
    if i < n {
      CountUpdate(c[..n], i, b);
      assert d[..n] == c[..n][i := b];
    } else {
      assert d[..n] == c[..n];
    }
  }

  lemma {:induction false} CountBounds(c: seq<bool>)
    ensures Count(c) <= |c|
    ensures Count(c) == |c| <==> forall i :: 0 <= i < |c| ==> c[i]
    ensures (forall i :: 0 <= i < |c| ==> !c[i]) ==> Count(c) == 0
    decreases |c|
  {
    if c != [] {
      CountBounds(c[..|c| - 1]);
    }
  }

  // -- population count ------------------------------------------------------

  function Ones(w: nat): nat {
    if w == 0 then 0 else w % 2 + Ones(w / 2)
  }

  /** The bits of `w` below `n` that are set. */
  function OnesBelow(w: nat, n: nat): nat
    decreases n
  {
    if n == 0 then 0 else OnesBelow(w, n - 1) + if Bit(w, n - 1) then 1 else 0
  }

  lemma {:induction false} OnesBelowHalf(w: nat, n: nat)
    ensures OnesBelow(w, n + 1) == w % 2 + OnesBelow(w / 2, n)
    decreases n
  {
    if n == 0 {
      assert OnesBelow(w, 1) == OnesBelow(w, 0) + if Bit(w, 0) then 1 else 0;
    } else {
      OnesBelowHalf(w, n - 1);
    }
  }

  /** The shifting loop counts exactly the set bits. */
  lemma {:induction false} OnesAreBits(w: nat, n: nat)
    requires w < Pow2(n)
    ensures Ones(w) == OnesBelow(w, n)
    decreases n
  {
    if n > 0 {
      OnesAreBits(w / 2, n - 1);
      OnesBelowHalf(w, n - 1);
    } else {
      assert w == 0;
    }
  }

  /** One more bit. */
  lemma BitAdds(bytes: seq<byte>, i: nat)
    requires i < 8 * |bytes|
    ensures Count(Unpack(bytes, i + 1)) == Count(Unpack(bytes, i)) + if Slot(bytes, i) then 1 else 0
  {
    hide Slot;
    assert Unpack(bytes, i + 1)[..i] == Unpack(bytes, i);
  }

  lemma {:induction false} ByteCount(bytes: seq<byte>, k: nat, j: nat)
    requires k < |bytes| && j <= 8
    ensures Count(Unpack(bytes, 8 * k + j)) == Count(Unpack(bytes, 8 * k)) + OnesBelow(bytes[k], j)
    decreases j
  {
    hide Bit, Count, Unpack;
    if j > 0 {
      ByteCount(bytes, k, j - 1);
      BitAdds(bytes, 8 * k + j - 1);
    }
  }

  /** One more byte adds its ones. */
  lemma ByteAdds(bytes: seq<byte>, k: nat)
    requires k < |bytes|
    ensures Count(Unpack(bytes, 8 * (k + 1))) == Count(Unpack(bytes, 8 * k)) + Ones(bytes[k])
  {
    ByteWidth();
    ByteCount(bytes, k, 8);
    OnesAreBits(bytes[k], 8);
  }

  lemma {:induction false} PaddingAddsNothing(bytes: seq<byte>, n: nat, m: nat)
    requires n <= m <= 8 * |bytes| && NoPadding(bytes, n)
    ensures Count(Unpack(bytes, m)) == Count(Unpack(bytes, n))
    decreases m
  {
    if n < m {
      PaddingAddsNothing(bytes, n, m - 1);
      assert Unpack(bytes, m)[..m - 1] == Unpack(bytes, m - 1);
    }
  }

  // -- the two encodings, there and back -------------------------------------

  /** What was persisted is what is read back, at every chunk count. */
  lemma BytesRoundTrip(bytes: seq<byte>, c: seq<bool>)
    requires Encodes(bytes, c) && |c| <= MAX_CHUNKS
    ensures FromBytes(bytes, |c|) == Ok(c)
  {
    EncodesUnpacks(bytes, c);
  }

  /** Nothing else is accepted: bytes are read back as `c` only if they encode `c`. */
  lemma FromBytesAcceptsOnlyEncodings(bytes: seq<byte>, n: int, c: seq<bool>)
    ensures FromBytes(bytes, n) == Ok(c) <==> 0 <= n == |c| <= MAX_CHUNKS && Encodes(bytes, c)
  {
    hide Slot;
    if 0 <= n <= MAX_CHUNKS && |bytes| == ByteLength(n) {
      UnpackEncodes(bytes, n);
      if |c| == n && Encodes(bytes, c) {
        EncodesUnpacks(bytes, c);
      }
    }
  }

  /** Re-basing the suffix at any offset, byte-aligned or not, loses no bit. */
  lemma ResumeRoundTrip(bytes: seq<byte>, c: seq<bool>)
    requires |c| <= MAX_CHUNKS && Encodes(bytes, c[Prefix(c)..])
    ensures DecodeResume(Prefix(c), bytes, |c|) == Ok(c)
  {
    hide Slot, Encodes, Unpack, NoPadding, Prefix, Present, ByteLength;
    var p := Prefix(c);
    EncodesUnpacks(bytes, c[p..]);
    assert |c[p..]| == |c| - p;
    SplitAtPrefix(c);
  }

  lemma SplitAtPrefix(c: seq<bool>)
    ensures Present(Prefix(c)) + c[Prefix(c)..] == c
  {
    hide Prefix, Present;
  }
}
