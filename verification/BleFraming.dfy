/**
  Length-prefixed datagrams on a byte stream.  `Unframe` says what a stream means; the
  accumulator hands out exactly that, however the stream was cut into chunks, and compacts
  its buffer now and then without touching the bytes that are still pending in it.
 */
module BleFraming {
  import opened Wrappers
  import opened Bytes

  const HEADER_LENGTH: nat := 4
  const MAX_DATAGRAM_SIZE: nat := 64 * 1024
  const COMPACT_THRESHOLD: nat := 8 * 1024

  datatype FramingError = EmptyFrame | OversizedFrame(length: nat, limit: nat)

  /** What the front of a stream holds. */
  datatype Parsed = NeedMore | Datagram(data: seq<byte>, rest: seq<byte>) | Violation(error: FramingError)

  datatype Stream = Stream(datagrams: seq<seq<byte>>, rest: seq<byte>, error: Option<FramingError>)

  function Frame(payload: seq<byte>): (f: seq<byte>)
    ensures |f| == HEADER_LENGTH + |payload|
  {
    BE32(|payload|) + payload
  }

  function Parse(pending: seq<byte>, max: nat): (p: Parsed)
    ensures p.Datagram? ==> |p.rest| < |pending|
  {
    if |pending| < HEADER_LENGTH then NeedMore
    else
      var length := Word32(pending);
      if length == 0 then Violation(EmptyFrame)
      else if length > max then Violation(OversizedFrame(length, max))
      else if |pending| - HEADER_LENGTH < length then NeedMore
      else Datagram(pending[HEADER_LENGTH..HEADER_LENGTH + length], pending[HEADER_LENGTH + length..])
  }

  /** The datagrams of a stream, what is left after them, and the violation that ends it, if any. */
  function Unframe(stream: seq<byte>, max: nat): Stream
    decreases |stream|
  {
    match Parse(stream, max)
    case NeedMore => Stream([], stream, None)
    case Violation(e) => Stream([], stream, Some(e))
    case Datagram(d, rest) =>
      var u := Unframe(rest, max);
      Stream([d] + u.datagrams, u.rest, u.error)
  }

  function Prepend(ds: seq<seq<byte>>, u: Stream): Stream {
    Stream(ds + u.datagrams, u.rest, u.error)
  }

  predicate Framable(d: seq<byte>, max: nat) {
    1 <= |d| <= max
  }

  function Encode(ds: seq<seq<byte>>): seq<byte>
  {
    if ds == [] then [] else Frame(ds[0]) + Encode(ds[1..])
  }

  lemma EncodeAppend(ds: seq<seq<byte>>, d: seq<byte>)
    ensures Encode(ds + [d]) == Encode(ds) + Frame(d)
  {
    if ds == [] {
      assert ds + [d] == [d];
      assert Encode([d]) == Frame(d) + Encode([]);
    } else {
      EncodeAppend(ds[1..], d);
      assert (ds + [d])[1..] == ds[1..] + [d];
    }
  }

  lemma ParseFrame(d: seq<byte>, tail: seq<byte>, max: nat)
    requires max < TWO_32 && Framable(d, max)
    ensures Parse(Frame(d) + tail, max) == Datagram(d, tail)
  {
    var s := Frame(d) + tail;
    assert s[..4] == BE32(|d|);
    Word32OfBE32(|d|);
    assert Word32(s) == Word32(s[..4]);
    assert s[4..4 + |d|] == d && s[4 + |d|..] == tail;
  }

  /** A cut anywhere inside a frame leaves nothing to hand out and nothing to object to. */
  lemma ParsePartialFrame(d: seq<byte>, k: nat, max: nat)
    requires max < TWO_32 && Framable(d, max) && k < |Frame(d)|
    ensures Parse(Frame(d)[..k], max) == NeedMore
  {
    if k >= 4 {
      assert Frame(d)[..k][..4] == BE32(|d|);
      Word32OfBE32(|d|);
      assert Word32(Frame(d)[..k]) == Word32(Frame(d)[..k][..4]);
    }
  }

  lemma UnframeFrame(d: seq<byte>, tail: seq<byte>, max: nat)
    requires max < TWO_32 && Framable(d, max)
    ensures Unframe(Frame(d) + tail, max) == Prepend([d], Unframe(tail, max))
  {
    ParseFrame(d, tail, max);
  }

  lemma EncodeCons(ds: seq<seq<byte>>, tail: seq<byte>)
    requires ds != []
    ensures Encode(ds) + tail == Frame(ds[0]) + (Encode(ds[1..]) + tail)
  {
  }

  lemma PrependNone(u: Stream)
    ensures Prepend([], u) == u
  {
    assert [] + u.datagrams == u.datagrams;
  }

  lemma PrependPrepend(a: seq<seq<byte>>, b: seq<seq<byte>>, u: Stream)
    ensures Prepend(a, Prepend(b, u)) == Prepend(a + b, u)
  {
    assert a + (b + u.datagrams) == a + b + u.datagrams;
  }

  /** Framing then un-framing is the identity, whatever follows on the stream. */
  lemma {:induction false} UnframeEncode(ds: seq<seq<byte>>, tail: seq<byte>, max: nat)
    requires max < TWO_32 && forall i :: 0 <= i < |ds| ==> Framable(ds[i], max)
    ensures Unframe(Encode(ds) + tail, max) == Prepend(ds, Unframe(tail, max))
  {
    if ds == [] {
      assert Encode(ds) + tail == tail;
      PrependNone(Unframe(tail, max));
    } else {
      calc {
        Unframe(Encode(ds) + tail, max);
        { EncodeCons(ds, tail); }
        Unframe(Frame(ds[0]) + (Encode(ds[1..]) + tail), max);
        { UnframeFrame(ds[0], Encode(ds[1..]) + tail, max); }
        Prepend([ds[0]], Unframe(Encode(ds[1..]) + tail, max));
        { UnframeEncode(ds[1..], tail, max); }
        Prepend([ds[0]], Prepend(ds[1..], Unframe(tail, max)));
        { PrependPrepend([ds[0]], ds[1..], Unframe(tail, max)); assert [ds[0]] + ds[1..] == ds; }
        Prepend(ds, Unframe(tail, max));
      }
    }
  }

  /** Any prefix of a stream of frames holds a prefix of the datagrams and no violation. */
  lemma {:induction false} UnframePrefix(ds: seq<seq<byte>>, k: nat, max: nat) returns (m: nat)
    requires max < TWO_32 && (forall i :: 0 <= i < |ds| ==> Framable(ds[i], max)) && k <= |Encode(ds)|
    ensures m <= |ds|
    ensures Unframe(Encode(ds)[..k], max).datagrams == ds[..m] && Unframe(Encode(ds)[..k], max).error == None
    ensures m == |ds| <==> k == |Encode(ds)|
  {
    if ds == [] {
      m := 0;
    } else if k < |Frame(ds[0])| {
      assert Encode(ds)[..k] == Frame(ds[0])[..k];
      ParsePartialFrame(ds[0], k, max);
      m := 0;
    } else {
      var j := k - |Frame(ds[0])|;
      var n := UnframePrefix(ds[1..], j, max);
      assert Encode(ds)[..k] == Frame(ds[0]) + Encode(ds[1..])[..j];
      ParseFrame(ds[0], Encode(ds[1..])[..j], max);
      m := n + 1;
      assert ds[..m] == [ds[0]] + ds[1..][..n];
    }
  }

  // -- arbitrary chunking ----------------------------------------------------

  datatype Op = Append(chunk: seq<byte>) | Take

  function Chunks(ops: seq<Op>): seq<byte> {
    if ops == [] then []
    else (if ops[0].Append? then ops[0].chunk else []) + Chunks(ops[1..])
  }

  /** An owner that appends and asks for datagrams in any order, and stops at a violation. */
  function Drive(ops: seq<Op>, pending: seq<byte>, max: nat): Stream
    decreases |ops|
  {
    if ops == [] then Stream([], pending, None)
    else match ops[0]
      case Append(chunk) => Drive(ops[1..], pending + chunk, max)
      case Take =>
        match Parse(pending, max)
        case NeedMore => Drive(ops[1..], pending, max)
        case Violation(e) => Stream([], pending, Some(e))
        case Datagram(d, rest) =>
          var r := Drive(ops[1..], rest, max);
          Stream([d] + r.datagrams, r.rest, r.error)
  }

  /** More bytes never change what was already decided. */
  lemma ParseExtends(pending: seq<byte>, more: seq<byte>, max: nat)
    ensures match Parse(pending, max)
            case NeedMore => true
            case Violation(e) => Parse(pending + more, max) == Violation(e)
            case Datagram(d, rest) => Parse(pending + more, max) == Datagram(d, rest + more)
  {
    if |pending| >= HEADER_LENGTH {
      assert Word32(pending + more) == Word32(pending);
      var end := HEADER_LENGTH + Word32(pending);
      if end <= |pending| {
        assert (pending + more)[end..] == pending[end..] + more;
        assert (pending + more)[HEADER_LENGTH..end] == pending[HEADER_LENGTH..end];
      }
    }
  }

  /** What a whole stream means, seen from a point where `r` has been handed out of it. */
  ghost predicate Explains(r: Stream, whole: Stream, max: nat) {
    if r.error.Some? then whole.datagrams == r.datagrams && whole.error == r.error
    else whole == Prepend(r.datagrams, Unframe(r.rest, max))
  }

  /**
    Every interleaving of appends and reads hands out what the whole stream means: the
    datagrams so far, then exactly the meaning of what is still pending.
   */
  lemma {:induction false} DriveMatchesUnframe(ops: seq<Op>, pending: seq<byte>, max: nat)
    ensures Explains(Drive(ops, pending, max), Unframe(pending + Chunks(ops), max), max)
    decreases |ops|
  {
    if ops == [] {
      assert pending + Chunks(ops) == pending;
      PrependNone(Unframe(pending, max));
    } else if ops[0].Append? {
      DriveMatchesUnframe(ops[1..], pending + ops[0].chunk, max);
      ChunksAssociate(ops, pending);
    } else {
      DriveNext(ops, pending, max);
    }
  }

  lemma ChunksAssociate(ops: seq<Op>, pending: seq<byte>)
    requires |ops| > 0 && ops[0].Append?
    ensures pending + Chunks(ops) == (pending + ops[0].chunk) + Chunks(ops[1..])
  {
  }

  lemma DriveNext(ops: seq<Op>, pending: seq<byte>, max: nat)
    requires |ops| > 0 && ops[0].Take?
    ensures Explains(Drive(ops, pending, max), Unframe(pending + Chunks(ops), max), max)
    decreases |ops|, 0
  {
    var more := Chunks(ops[1..]);
    assert Chunks(ops) == more;
    ParseExtends(pending, more, max);
    match Parse(pending, max)
    case NeedMore => DriveMatchesUnframe(ops[1..], pending, max);
    case Violation(e) =>
    case Datagram(d, rest) =>
      DriveMatchesUnframe(ops[1..], rest, max);
      var r := Drive(ops[1..], rest, max);
      if r.error.None? { PrependPrepend([d], r.datagrams, Unframe(r.rest, max)); }
  }

  /** Once drained, any chunking of framed datagrams has yielded those datagrams and holds no byte. */
  lemma ChunkingIndependent(ds: seq<seq<byte>>, ops: seq<Op>, max: nat)
    requires max < TWO_32 && (forall i :: 0 <= i < |ds| ==> Framable(ds[i], max)) && Chunks(ops) == Encode(ds)
    requires Parse(Drive(ops, [], max).rest, max) == NeedMore
    ensures Drive(ops, [], max) == Stream(ds, [], None)
  {
    DriveMatchesUnframe(ops, [], max);
    UnframeEncode(ds, [], max);
    assert [] + Chunks(ops) == Encode(ds) + [];
    assert ds + [] == ds;
    var r := Drive(ops, [], max);
    if r.error.None? { assert r.datagrams + [] == r.datagrams; }
  }

  /** Reading a stream in two parts reads the same datagrams as reading it whole. */
  lemma {:induction false} UnframeAppend(stream: seq<byte>, more: seq<byte>, max: nat)
    ensures var u := Unframe(stream, max);
            if u.error.Some? then
              Unframe(stream + more, max).datagrams == u.datagrams && Unframe(stream + more, max).error == u.error
            else Unframe(stream + more, max) == Prepend(u.datagrams, Unframe(u.rest + more, max))
    decreases |stream|
  {
    ParseExtends(stream, more, max);
    match Parse(stream, max)
    case NeedMore => PrependNone(Unframe(stream + more, max));
    case Violation(e) =>
    case Datagram(d, rest) =>
      UnframeAppend(rest, more, max);
      var u := Unframe(rest, max);
      assert Unframe(stream, max) == Prepend([d], u)
          && Unframe(stream + more, max) == Prepend([d], Unframe(rest + more, max));
      if u.error.None? { PrependPrepend([d], u.datagrams, Unframe(u.rest + more, max)); }
  }

  // -- the accumulator -------------------------------------------------------

  class BleFrameAccumulator {
    const maxDatagramSize: nat
    var buffer: seq<byte>
    var readOffset: nat

    /** Consumed bytes are dropped late, but never are 8 KiB of them kept. */
    ghost predicate Valid()
      reads this
    {
      readOffset <= |buffer| && readOffset < COMPACT_THRESHOLD
    }

    ghost function Pending(): seq<byte>
      requires Valid()
      reads this
    {
      buffer[readOffset..]
    }

    constructor (max: nat)
      ensures Valid() && Pending() == [] && maxDatagramSize == max
    {
      maxDatagramSize := max;
      buffer, readOffset := [], 0;
    }

    method Append(chunk: seq<byte>)
      requires Valid()
      modifies this
      ensures Valid() && Pending() == old(Pending()) + chunk
    {
      buffer := buffer + chunk;
    }

    /**
      Hands out the front of the pending bytes as `Parse` reads it.  When it asks for more,
      fewer than a header plus the largest datagram are pending.
     */
    method Next() returns (r: Result<Option<seq<byte>>, FramingError>)
      requires Valid()
      modifies this
      ensures Valid()
      ensures match Parse(old(Pending()), maxDatagramSize)
              case NeedMore => r == Ok(None) && Pending() == old(Pending())
                               && |Pending()| < HEADER_LENGTH + maxDatagramSize
              case Violation(e) => r == Err(e) && Pending() == old(Pending())
              case Datagram(d, rest) => r == Ok(Some(d)) && Pending() == rest
    {
      if |buffer| - readOffset < HEADER_LENGTH {
        Compact();
        return Ok(None);
      }
      var offset := readOffset;
      var length := (buffer[offset] as int) * 0x100_0000 + (buffer[offset + 1] as int) * 0x1_0000
                    + (buffer[offset + 2] as int) * 0x100 + buffer[offset + 3];
      assert length == Word32(Pending());
      if length <= 0 { return Err(EmptyFrame); }
      if length > maxDatagramSize { return Err(OversizedFrame(length, maxDatagramSize)); }
      if |buffer| - readOffset - HEADER_LENGTH < length {
        Compact();
        return Ok(None);
      }
      var start := offset + HEADER_LENGTH;
      var datagram := buffer[start..start + length];
      readOffset := start + length;
      assert datagram == old(Pending())[HEADER_LENGTH..HEADER_LENGTH + length];
      assert buffer[readOffset..] == old(Pending())[HEADER_LENGTH + length..];
      Compact();
      return Ok(Some(datagram));
    }

    /** Never changes the pending bytes. */
    method Compact()
      requires readOffset <= |buffer|
      modifies this
      ensures Valid() && Pending() == old(buffer[readOffset..])
    {
      if readOffset > 0 {
        if readOffset >= |buffer| {
          buffer, readOffset := [], 0;
        } else if readOffset >= COMPACT_THRESHOLD {
          buffer := buffer[readOffset..];
          readOffset := 0;
        }
      }
    }

    /**
      The owner's read loop: everything complete comes out, in order, and what is left is
      less than one more frame, or a violation has been found.
     */
    method Drain() returns (out: seq<seq<byte>>, error: Option<FramingError>)
      requires Valid()
      modifies this
      ensures Valid()
      ensures Stream(out, Pending(), error) == Unframe(old(Pending()), maxDatagramSize)
    {
      ghost var whole := Unframe(Pending(), maxDatagramSize);
      out := [];
      PrependNone(whole);
      while true
        invariant Valid()
        invariant whole == Prepend(out, Unframe(Pending(), maxDatagramSize))
        decreases |Pending()|
      {
        ghost var before := Pending();
        var r := Next();
        if r.Err? { assert out + [] == out; return out, Some(r.error); }
        if r.value.None? { assert out + [] == out; return out, None; }
        assert Unframe(before, maxDatagramSize) == Prepend([r.value.value], Unframe(Pending(), maxDatagramSize));
        PrependPrepend(out, [r.value.value], Unframe(Pending(), maxDatagramSize));
        out := out + [r.value.value];
      }
    }
  }
}
