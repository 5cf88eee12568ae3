/** The FILE_CHUNK message: a writer that appends, a reader with a cursor, and what survives the trip. */
module FileChunkCodec {
  import opened Bytes
  import opened Wrappers

  const MAX_SAFE: nat := 0x1F_FFFF_FFFF_FFFF
  const MAX_TRANSFER_ID_CHARS: nat := 32
  const MAX_CHUNKS: nat := 0x2_0000
  const MAX_RUN_CHUNKS: nat := 64
  const MAX_CHUNK_BYTES: nat := 64 * 1024
  const CHUNK_DIGEST_BYTES: nat := 8
  const MAX_VARINT_BYTES: nat := 8

  datatype Message = Message(transferId: seq<byte>, index: nat, run: nat, digest: seq<byte>, data: seq<byte>)

  datatype Failure =
    | BadTransferId | IndexOutOfRange | RunOutOfRange | BadDigest
    | EndOfBuffer | VarintTooLong | VarintUnsafe | BadIdLength | RunPastLimit | EmptyPayload | PayloadTooLarge

  /** Letters, digits, `_` and `-`, as ASCII codes. */
  predicate IdCharacter(b: byte) {
    48 <= b <= 57 || 65 <= b <= 90 || 97 <= b <= 122 || b == 95 || b == 45
  }

  predicate ValidTransferId(id: seq<byte>) {
    1 <= |id| <= MAX_TRANSFER_ID_CHARS && forall i :: 0 <= i < |id| ==> IdCharacter(id[i])
  }

  // -- varints ---------------------------------------------------------------

  function Varint(v: nat): (b: seq<byte>)
    ensures |b| > 0
  {
    if v >= 0x80 then [v % 0x80 + 0x80] + Varint(v / 0x80) else [v]
  }

  /** The value and how many bytes it took, looking at no more than `limit`. */
  function Digits(bytes: seq<byte>, limit: nat): Result<(nat, nat), Failure>
    decreases limit
  {
    if limit == 0 then Err(VarintTooLong)
    else if bytes == [] then Err(EndOfBuffer)
    else if bytes[0] < 0x80 then Ok((bytes[0] as nat, 1))
    else match Digits(bytes[1..], limit - 1)
      case Err(f) => Err(f)
      case Ok((rest, n)) => Ok((bytes[0] - 0x80 + 0x80 * rest, n + 1))
  }

  function ReadVarint(bytes: seq<byte>): Result<(nat, nat), Failure> {
    match Digits(bytes, MAX_VARINT_BYTES)
    case Err(f) => Err(f)
    case Ok((v, n)) => if v <= MAX_SAFE then Ok((v, n)) else Err(VarintUnsafe)
  }

  function Pow128(n: nat): nat {
    if n == 0 then 1 else 0x80 * Pow128(n - 1)
  }

  lemma {:induction false} DigitsOfVarint(v: nat, rest: seq<byte>, limit: nat)
    requires limit > 0 && v < Pow128(limit)
    ensures Digits(Varint(v) + rest, limit) == Ok((v, |Varint(v)|))
    decreases limit
  {
    var bytes := Varint(v) + rest;
    if v >= 0x80 {
      assert limit > 1;
      DigitsOfVarint(v / 0x80, rest, limit - 1);
      assert bytes[1..] == Varint(v / 0x80) + rest;
    }
  }

  lemma VarintFits()
    ensures MAX_SAFE < Pow128(MAX_VARINT_BYTES)
  {
    assert Pow128(4) == 0x1000_0000;
  }

  /** A safe integer comes back from its encoding, whatever follows it. */
  lemma VarintRoundTrip(v: nat, rest: seq<byte>)
    requires v <= MAX_SAFE
    ensures ReadVarint(Varint(v) + rest) == Ok((v, |Varint(v)|))
  {
    VarintFits();
    DigitsOfVarint(v, rest, MAX_VARINT_BYTES);
  }

  method WriteVarint(v: nat) returns (out: seq<byte>)
    ensures out == Varint(v)
  {
    out := [];
    var left := v;
    while left >= 0x80
      invariant out + Varint(left) == Varint(v)
    {
      assert out + ([left % 0x80 + 0x80] + Varint(left / 0x80)) == (out + [left % 0x80 + 0x80]) + Varint(left / 0x80);
      out := out + [left % 0x80 + 0x80];
      left := left / 0x80;
    }
    out := out + [left];
  }

  /** The reader's loop: digits accumulate with a growing weight. */
  method ReadVarintAt(bytes: seq<byte>, offset: nat) returns (r: Result<(nat, nat), Failure>)
    requires offset <= |bytes|
    ensures r == ReadVarint(bytes[offset..])
  {
    hide Digits, Scaled, Weighted;
    var result: nat, shift: nat, at: nat := 0, 1, offset;
    var i := 0;
    WeightedStarts(Digits(bytes[offset..], MAX_VARINT_BYTES));
    while i < MAX_VARINT_BYTES
      invariant 0 <= i <= MAX_VARINT_BYTES && at == offset + i <= |bytes|
      invariant Digits(bytes[offset..], MAX_VARINT_BYTES)
        == Weighted(Digits(bytes[at..], MAX_VARINT_BYTES - i), result, shift, i)
    {
      DigitsOf(bytes[at..], MAX_VARINT_BYTES - i, result, shift, i);
      if at >= |bytes| { return Err(EndOfBuffer); }
      var b := bytes[at];
      assert bytes[at..][1..] == bytes[at + 1..];
      at := at + 1;
      if b < 0x80 {
        result := result + Scaled(b, shift);
        return if result <= MAX_SAFE then Ok((result, at - offset)) else Err(VarintUnsafe);
      }
      result := result + Scaled(b - 0x80, shift);
      shift := shift * 0x80;
      i := i + 1;
    }
    DigitsOf(bytes[at..], 0, result, shift, i);
    return Err(VarintTooLong);
  }

  /** A digit times its weight. */
  function Scaled(d: nat, shift: nat): nat {
    d * shift
  }

  /** What the remaining digits mean to a reader `n` bytes in. */
  function Weighted(r: Result<(nat, nat), Failure>, result: nat, shift: nat, n: nat): Result<(nat, nat), Failure> {
    match r
    case Err(f) => Err(f)
    case Ok((v, k)) => Ok((result + Scaled(v, shift), n + k))
  }

  lemma WeightedStarts(r: Result<(nat, nat), Failure>)
    ensures Weighted(r, 0, 1, 0) == r
  {
  }

  /** One digit read: out of room, out of bytes, the last digit, or one more with a heavier weight. */
  lemma DigitsOf(bytes: seq<byte>, limit: nat, result: nat, shift: nat, n: nat)
    ensures
      var r := Weighted(Digits(bytes, limit), result, shift, n);
      if limit == 0 then r == Err(VarintTooLong)
      else if bytes == [] then r == Err(EndOfBuffer)
      else if bytes[0] < 0x80 then r == Ok((result + Scaled(bytes[0], shift), n + 1))
      else r == Weighted(Digits(bytes[1..], limit - 1), result + Scaled(bytes[0] - 0x80, shift), shift * 0x80, n + 1)
  {
    hide Scaled;
    if limit > 0 && bytes != [] && bytes[0] >= 0x80 {
      var rest := Digits(bytes[1..], limit - 1);
      if rest.Ok? {
        Distribute(bytes[0] - 0x80, rest.value.0, shift);
      }
    }
  }

  lemma Distribute(d: nat, v: nat, shift: nat)
    ensures Scaled(d + 0x80 * v, shift) == Scaled(d, shift) + Scaled(v, shift * 0x80)
  {
  }

  // -- the message -----------------------------------------------------------

  function Encode(m: Message): Result<seq<byte>, Failure> {
    if !ValidTransferId(m.transferId) then Err(BadTransferId)
    else if m.index >= MAX_CHUNKS then Err(IndexOutOfRange)
    else if m.run < 1 || m.run > MAX_RUN_CHUNKS then Err(RunOutOfRange)
    else if |m.digest| != CHUNK_DIGEST_BYTES then Err(BadDigest)
    else Ok([|m.transferId|] + m.transferId + Varint(m.index) + Varint(m.run) + m.digest + m.data)
  }

  function Decode(bytes: seq<byte>): Result<Message, Failure> {
    if bytes == [] then Err(EndOfBuffer)
    else if bytes[0] < 1 || bytes[0] > MAX_TRANSFER_ID_CHARS then Err(BadIdLength)
    else if 1 + bytes[0] > |bytes| then Err(EndOfBuffer)
    else if !ValidTransferId(bytes[1..1 + bytes[0]]) then Err(BadTransferId)
    else DecodeNumbers(bytes[1..1 + bytes[0]], bytes[1 + bytes[0]..])
  }

  function DecodeNumbers(id: seq<byte>, bytes: seq<byte>): Result<Message, Failure> {
    match ReadVarint(bytes)
    case Err(f) => Err(f)
    case Ok((index, n)) =>
      if index >= MAX_CHUNKS then Err(IndexOutOfRange)
      else
        ReadWithin(bytes);
        match ReadVarint(bytes[n..])
        case Err(f) => Err(f)
        case Ok((run, k)) =>
          if run < 1 || run > MAX_RUN_CHUNKS then Err(RunOutOfRange)
          else if index + run > MAX_CHUNKS then Err(RunPastLimit)
          else
            ReadWithin(bytes[n..]);
            DecodePayload(id, index, run, bytes[n..][k..])
  }

  function DecodePayload(id: seq<byte>, index: nat, run: nat, bytes: seq<byte>): Result<Message, Failure> {
    if |bytes| < CHUNK_DIGEST_BYTES then Err(EndOfBuffer)
    else
      var data := bytes[CHUNK_DIGEST_BYTES..];
      if data == [] then Err(EmptyPayload)
      else if |data| > MAX_RUN_CHUNKS * MAX_CHUNK_BYTES then Err(PayloadTooLarge)
      else Ok(Message(id, index, run, bytes[..CHUNK_DIGEST_BYTES], data))
  }

  lemma {:induction false} DigitsWithin(bytes: seq<byte>, limit: nat)
    ensures Digits(bytes, limit).Ok? ==> Digits(bytes, limit).value.1 <= |bytes|
    decreases limit
  {
    if limit > 0 && bytes != [] {
      DigitsWithin(bytes[1..], limit - 1);
    }
  }

  lemma ReadWithin(bytes: seq<byte>)
    ensures ReadVarint(bytes).Ok? ==> ReadVarint(bytes).value.1 <= |bytes|
  {
    DigitsWithin(bytes, MAX_VARINT_BYTES);
  }

  /** What the decoder insists on beyond what the encoder checks. */
  predicate Sendable(m: Message) {
    m.data != [] && |m.data| <= MAX_RUN_CHUNKS * MAX_CHUNK_BYTES && m.index + m.run <= MAX_CHUNKS
  }

  lemma PayloadRoundTrip(m: Message)
    requires |m.digest| == CHUNK_DIGEST_BYTES
    ensures DecodePayload(m.transferId, m.index, m.run, m.digest + m.data)
      == if m.data == [] then Err(EmptyPayload)
         else if |m.data| > MAX_RUN_CHUNKS * MAX_CHUNK_BYTES then Err(PayloadTooLarge) else Ok(m)
  {
    var bytes := m.digest + m.data;
    assert bytes[..CHUNK_DIGEST_BYTES] == m.digest && bytes[CHUNK_DIGEST_BYTES..] == m.data;
  }

  lemma NumbersRoundTrip(m: Message)
    requires Encode(m).Ok? && m.index + m.run <= MAX_CHUNKS
    ensures
      var tail := Varint(m.index) + Varint(m.run) + m.digest + m.data;
      DecodeNumbers(m.transferId, tail) == DecodePayload(m.transferId, m.index, m.run, m.digest + m.data)
  {
    hide Varint, ReadVarint, DecodePayload;
    var tail := Varint(m.index) + Varint(m.run) + m.digest + m.data;
    var afterIndex := Varint(m.run) + (m.digest + m.data);
    assert tail == Varint(m.index) + afterIndex;
    VarintRoundTrip(m.index, afterIndex);
    assert tail[|Varint(m.index)|..] == afterIndex;
    VarintRoundTrip(m.run, m.digest + m.data);
    assert afterIndex[|Varint(m.run)|..] == m.digest + m.data;
  }

  lemma RunPastLimitRejected(m: Message)
    requires Encode(m).Ok? && m.index + m.run > MAX_CHUNKS
    ensures DecodeNumbers(m.transferId, Varint(m.index) + Varint(m.run) + m.digest + m.data) == Err(RunPastLimit)
  {
    hide Varint, ReadVarint, DecodePayload;
    var tail := Varint(m.index) + Varint(m.run) + m.digest + m.data;
    var afterIndex := Varint(m.run) + (m.digest + m.data);
    assert tail == Varint(m.index) + afterIndex;
    VarintRoundTrip(m.index, afterIndex);
    assert tail[|Varint(m.index)|..] == afterIndex;
    VarintRoundTrip(m.run, m.digest + m.data);
  }

  /** Whatever the encoder accepts is decoded to itself exactly when it is sendable, and refused otherwise. */
  lemma ChunkRoundTrip(m: Message)
    requires Encode(m).Ok?
    ensures Decode(Encode(m).value) == Ok(m) <==> Sendable(m)
    ensures !Sendable(m) ==> Decode(Encode(m).value).Err?
  {
    hide Varint, DecodeNumbers, DecodePayload, ValidTransferId;
    var bytes := Encode(m).value;
    var tail := Varint(m.index) + Varint(m.run) + m.digest + m.data;
    IdBounds(m.transferId);
    assert bytes == [|m.transferId|] + m.transferId + tail;
    assert bytes[1..1 + bytes[0]] == m.transferId && bytes[1 + bytes[0]..] == tail;
    if m.index + m.run <= MAX_CHUNKS {
      NumbersRoundTrip(m);
      PayloadRoundTrip(m);
    } else {
      RunPastLimitRejected(m);
    }
  }

  lemma IdBounds(id: seq<byte>)
    requires ValidTransferId(id)
    ensures 1 <= |id| <= MAX_TRANSFER_ID_CHARS
  {
  }

  /** Everything the decoder accepts is a message the encoder accepts too, and it is sendable. */
  lemma DecodedIsEncodable(bytes: seq<byte>)
    requires Decode(bytes).Ok?
    ensures Encode(Decode(bytes).value).Ok? && Sendable(Decode(bytes).value)
    ensures Decode(Encode(Decode(bytes).value).value) == Decode(bytes)
  {
    hide Varint, ReadVarint, ValidTransferId;
    ChunkRoundTrip(Decode(bytes).value);
  }

  // -- the writer and the reader ---------------------------------------------

  method EncodeFileChunk(m: Message) returns (r: Result<seq<byte>, Failure>)
    ensures r == Encode(m)
  {
    hide Varint;
    if !ValidTransferId(m.transferId) { return Err(BadTransferId); }
    if m.index >= MAX_CHUNKS { return Err(IndexOutOfRange); }
    if m.run < 1 || m.run > MAX_RUN_CHUNKS { return Err(RunOutOfRange); }
    if |m.digest| != CHUNK_DIGEST_BYTES { return Err(BadDigest); }
    var out: seq<byte> := [|m.transferId|];
    out := out + m.transferId;
    var index := WriteVarint(m.index);
    out := out + index;
    var run := WriteVarint(m.run);
    out := out + run;
    out := out + m.digest;
    out := out + m.data;
    return Ok(out);
  }

  /** A cursor moves over the received bytes; every bound is checked before it is crossed. */
  method DecodeFileChunk(bytes: seq<byte>) returns (r: Result<Message, Failure>)
    ensures r == Decode(bytes)
  {
    hide ReadVarint, ValidTransferId;
    var offset: nat := 0;
    if bytes == [] { return Err(EndOfBuffer); }
    var idLength := bytes[offset];
    offset := offset + 1;
    if idLength < 1 || idLength > MAX_TRANSFER_ID_CHARS { return Err(BadIdLength); }
    if offset + idLength > |bytes| { return Err(EndOfBuffer); }
    var transferId := bytes[offset..offset + idLength];
    offset := offset + idLength;
    if !ValidTransferId(transferId) { return Err(BadTransferId); }
    var index := ReadVarintAt(bytes, offset);
    if index.Err? { return Err(index.error); }
    ReadWithin(bytes[offset..]);
    assert bytes[offset..][index.value.1..] == bytes[offset + index.value.1..];
    offset := offset + index.value.1;
    if index.value.0 >= MAX_CHUNKS { return Err(IndexOutOfRange); }
    var run := ReadVarintAt(bytes, offset);
    if run.Err? { return Err(run.error); }
    ReadWithin(bytes[offset..]);
    assert bytes[offset..][run.value.1..] == bytes[offset + run.value.1..];
    offset := offset + run.value.1;
    if run.value.0 < 1 || run.value.0 > MAX_RUN_CHUNKS { return Err(RunOutOfRange); }
    if index.value.0 + run.value.0 > MAX_CHUNKS { return Err(RunPastLimit); }
    if offset + CHUNK_DIGEST_BYTES > |bytes| { return Err(EndOfBuffer); }
    var digest := bytes[offset..offset + CHUNK_DIGEST_BYTES];
    assert bytes[offset..][..CHUNK_DIGEST_BYTES] == digest;
    assert bytes[offset..][CHUNK_DIGEST_BYTES..] == bytes[offset + CHUNK_DIGEST_BYTES..];
    offset := offset + CHUNK_DIGEST_BYTES;
    var data := bytes[offset..];
    if data == [] { return Err(EmptyPayload); }
    if |data| > MAX_RUN_CHUNKS * MAX_CHUNK_BYTES { return Err(PayloadTooLarge); }
    return Ok(Message(transferId, index.value.0, run.value.0, digest, data));
  }
}
