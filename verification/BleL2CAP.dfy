/**
  The fast path: an L2CAP channel, which is a byte stream that takes as much as it likes
  per write and may die at any byte.  Functions say what each call does to a session's
  state; the class below them changes its fields in place and refines them call by call.
 */
module BleL2CAP {
  import opened Wrappers
  import opened Bytes
  import opened BleFraming

  const MAX_QUEUED_BYTES: nat := 4 * 1024 * 1024

  /** An outbound datagram; `id` is the promise that waits on it. */
  datatype Item = Item(id: nat, data: seq<byte>, reliable: bool)

  datatype Settlement = Settlement(id: nat, written: bool)

  /**
    A session.  `stream` is every byte the channel took, `completed` the items it took
    whole; `handedBack` and `tornAt` are what `shutdown` gave to the owner and how much of
    the first of them had been written.  `refused` counts the items turned away since then:
    their promises are settled, but `onDatagramSettled` is gone and the owner is not told.
   */
  datatype Session = Session(
    pending: seq<Item>, writeOffset: nat, queuedBytes: int, canWrite: bool, closed: bool,
    stream: seq<byte>, completed: seq<Item>, settled: seq<Settlement>, handedBack: seq<Item>, tornAt: nat,
    refused: nat)

  const NEW_SESSION := Session([], 0, 0, false, false, [], [], [], [], 0, 0)

  function Framed(item: Item): seq<byte> {
    Frame(item.data)
  }

  function FramedBytes(items: seq<Item>): nat {
    if items == [] then 0 else |Framed(items[0])| + FramedBytes(items[1..])
  }

  function Data(items: seq<Item>): seq<seq<byte>> {
    seq(|items|, i requires 0 <= i < |items| => items[i].data)
  }

  // -- steps -----------------------------------------------------------------

  function Complete(s: Session): Session
    requires s.pending != []
  {
    s.(pending := s.pending[1..], writeOffset := 0, completed := s.completed + [s.pending[0]],
       settled := s.settled + [Settlement(s.pending[0].id, true)])
  }

  function Shutdown(s: Session): Session {
    if s.closed then s
    else s.(closed := true, handedBack := s.pending, tornAt := s.writeOffset,
            pending := [], queuedBytes := 0, writeOffset := 0, canWrite := false)
  }

  function Refusing(s: Session, item: Item): Session {
    s.(settled := s.settled + [Settlement(item.id, false)])
  }

  function TurnedAway(s: Session, item: Item): Session {
    Refusing(s, item).(refused := s.refused + 1)
  }

  /** How many settlements the owner is told about. */
  function Announced(s: Session): int {
    |s.settled| - s.refused
  }

  /** The channel's next answer to a write of `remaining` bytes; it never claims more. */
  function Answer(writes: seq<int>, remaining: int): int {
    if writes == [] then 0 else if writes[0] > remaining then remaining else writes[0]
  }

  function Tail(writes: seq<int>): seq<int> {
    if writes == [] then [] else writes[1..]
  }

  function Wrote(s: Session, n: nat): Session
    requires s.pending != [] && s.writeOffset + n <= |Framed(s.pending[0])|
  {
    s.(stream := s.stream + Framed(s.pending[0])[s.writeOffset..s.writeOffset + n],
       writeOffset := s.writeOffset + n, queuedBytes := s.queuedBytes - n)
  }

  function Remaining(s: Session): int
    requires s.pending != []
  {
    |Framed(s.pending[0])| - s.writeOffset
  }

  /** What one answer of the channel does to the head of the queue. */
  function WriteOnce(s: Session, n: int): Session
    requires s.pending != [] && n <= Remaining(s)
  {
    if n < 0 then Shutdown(s)
    else if n == 0 then s.(canWrite := false)
    else if n == Remaining(s) then Complete(Wrote(s, n))
    else Wrote(s, n).(canWrite := false)
  }

  /** Write until the queue is empty, the channel is full, or it fails. */
  function Pump(s: Session, writes: seq<int>): Session
    decreases |s.pending|, s.canWrite
  {
    if s.closed || !s.canWrite || s.pending == [] then s
    else if Remaining(s) <= 0 then Pump(Complete(s), writes)
    else Pump(WriteOnce(s, Answer(writes, Remaining(s))), Tail(writes))
  }

  function Sending(s: Session, item: Item, writes: seq<int>): Session {
    if s.closed then TurnedAway(s, item)
    else if |item.data| > MAX_DATAGRAM_SIZE then Refusing(s, item)
    else if s.queuedBytes + |Framed(item)| > MAX_QUEUED_BYTES then Refusing(s, item)
    else Pump(Queued(s, item), writes)
  }

  function Queued(s: Session, item: Item): Session {
    s.(queuedBytes := s.queuedBytes + |Framed(item)|, pending := s.pending + [item])
  }

  function SpaceAvailable(s: Session, writes: seq<int>): Session {
    if s.closed then s else Pump(s.(canWrite := true), writes)
  }

  // -- the invariant ---------------------------------------------------------

  /** Items not settled by the session: still queued, or handed back. */
  function Unsettled(s: Session): seq<Item> {
    if s.closed then s.handedBack else s.pending
  }

  function Torn(s: Session): nat {
    if s.closed then s.tornAt else s.writeOffset
  }

  /** The stream holds the completed frames and a strict prefix of the next one. */
  ghost predicate StreamIs(s: Session) {
    var u := Unsettled(s);
    if u == [] then Torn(s) == 0 && s.stream == Encode(Data(s.completed))
    else Torn(s) < |Framed(u[0])| && s.stream == Encode(Data(s.completed)) + Framed(u[0])[..Torn(s)]
  }

  ghost predicate SessionInv(s: Session) {
    && StreamIs(s)
    && (s.closed ==> s.pending == [] && s.writeOffset == 0 && !s.canWrite)
    && (!s.closed ==> s.handedBack == [] && s.refused == 0)
    && s.queuedBytes == FramedBytes(s.pending) - s.writeOffset
    && 0 <= s.queuedBytes <= MAX_QUEUED_BYTES
  }

  lemma FramedBytesAppend(items: seq<Item>, item: Item)
    ensures FramedBytes(items + [item]) == FramedBytes(items) + |Framed(item)|
  {
    if items == [] {
      assert items + [item] == [item];
    } else {
      FramedBytesAppend(items[1..], item);
      assert (items + [item])[1..] == items[1..] + [item];
    }
  }

  lemma CompletedStream(completed: seq<Item>, item: Item)
    ensures Encode(Data(completed + [item])) == Encode(Data(completed)) + Framed(item)
  {
    EncodeAppend(Data(completed), item.data);
    assert Data(completed + [item]) == Data(completed) + [item.data];
  }

  lemma SliceGrows(f: seq<byte>, o: nat, n: nat)
    requires o + n <= |f|
    ensures f[..o] + f[o..o + n] == f[..o + n]
  {
  }

  lemma MoveHead(a: seq<Item>, b: seq<Item>)
    requires b != []
    ensures (a + [b[0]]) + b[1..] == a + b
  {
  }

  lemma WroteGrowsStream(s: Session, n: nat)
    requires StreamIs(s) && !s.closed && s.pending != [] && s.writeOffset + n <= |Framed(s.pending[0])|
    ensures Wrote(s, n).stream == Encode(Data(s.completed)) + Framed(s.pending[0])[..s.writeOffset + n]
  {
    var f := Framed(s.pending[0]);
    var base := Encode(Data(s.completed));
    SliceGrows(f, s.writeOffset, n);
    Associate(base, f[..s.writeOffset], f[s.writeOffset..s.writeOffset + n]);
  }

  lemma Associate(a: seq<byte>, b: seq<byte>, c: seq<byte>)
    ensures a + b + c == a + (b + c)
  {
  }

  lemma WroteKeepsInv(s: Session, n: nat)
    requires SessionInv(s) && !s.closed && s.pending != [] && 0 < n < |Framed(s.pending[0])| - s.writeOffset
    ensures SessionInv(Wrote(s, n))
  {
    WroteGrowsStream(s, n);
  }

  lemma CompleteKeepsInv(s: Session, n: nat)
    requires SessionInv(s) && !s.closed && s.pending != [] && n == |Framed(s.pending[0])| - s.writeOffset
    ensures SessionInv(Complete(Wrote(s, n)))
  {
    WroteGrowsStream(s, n);
    CompletedStream(s.completed, s.pending[0]);
    var f := Framed(s.pending[0]);
    assert f[..|f|] == f;
    FreshHead(Complete(Wrote(s, n)));
  }

  /** Nothing of the next item has been written yet. */
  lemma FreshHead(s: Session)
    requires !s.closed && s.writeOffset == 0 && s.stream == Encode(Data(s.completed))
    ensures StreamIs(s)
  {
    if s.pending != [] { assert s.stream + Framed(s.pending[0])[..0] == s.stream; }
  }

  lemma WriteOnceKeepsInv(s: Session, n: int)
    requires SessionInv(s) && !s.closed && s.pending != [] && n <= Remaining(s)
    ensures var s' := WriteOnce(s, n);
            SessionInv(s') && s'.completed + Unsettled(s') == s.completed + Unsettled(s)
            && |s.completed| <= |s'.completed| && s'.refused == s.refused
  {
    if n == Remaining(s) {
      CompleteKeepsInv(s, n);
      MoveHead(s.completed, s.pending);
    } else if n > 0 {
      WroteKeepsInv(s, n);
    }
  }

  /** What a pump keeps: the invariant, and which items there are, in which order. */
  lemma {:induction false} PumpKeepsInv(s: Session, writes: seq<int>)
    requires SessionInv(s)
    ensures var s' := Pump(s, writes);
            SessionInv(s') && s'.completed + Unsettled(s') == s.completed + Unsettled(s)
            && |s.completed| <= |s'.completed| && s'.refused == s.refused && (s.closed ==> s' == s)
    decreases |s.pending|, s.canWrite
  {
    if !s.closed && s.canWrite && s.pending != [] {
      var n := Answer(writes, Remaining(s));
      WriteOnceKeepsInv(s, n);
      PumpKeepsInv(WriteOnce(s, n), Tail(writes));
    }
  }

  lemma QueuedKeepsInv(s: Session, item: Item)
    requires SessionInv(s) && !s.closed && s.queuedBytes + |Framed(item)| <= MAX_QUEUED_BYTES
    ensures SessionInv(Queued(s, item)) && Queued(s, item).pending == s.pending + [item]
  {
    FramedBytesAppend(s.pending, item);
    if s.pending == [] { FreshHead(Queued(s, item)); }
  }

  /** Either the session takes the item behind everything it has, or it takes nothing. */
  lemma SendKeepsInv(s: Session, item: Item, writes: seq<int>)
    requires SessionInv(s)
    ensures var s' := Sending(s, item, writes);
            SessionInv(s')
            && (s'.completed + Unsettled(s') == s.completed + Unsettled(s)
                || (s'.completed + Unsettled(s') == s.completed + Unsettled(s) + [item]
                    && |item.data| <= MAX_DATAGRAM_SIZE))
            && (s.closed ==> s'.closed && s'.completed == s.completed && s'.handedBack == s.handedBack)
            && |s.completed| <= |s'.completed| && s'.refused == s.refused + if s.closed then 1 else 0
  {
    if !s.closed && |item.data| <= MAX_DATAGRAM_SIZE && s.queuedBytes + |Framed(item)| <= MAX_QUEUED_BYTES {
      QueuedKeepsInv(s, item);
      PumpKeepsInv(Queued(s, item), writes);
      assert s.completed + (s.pending + [item]) == s.completed + s.pending + [item];
    }
  }

  lemma OthersKeepInv(s: Session, writes: seq<int>)
    requires SessionInv(s)
    ensures SessionInv(Shutdown(s)) && Unsettled(Shutdown(s)) == Unsettled(s) && Shutdown(s).completed == s.completed
    ensures Shutdown(s).refused == s.refused
    ensures var s' := SpaceAvailable(s, writes);
            SessionInv(s') && s'.completed + Unsettled(s') == s.completed + Unsettled(s)
            && s'.refused == s.refused && (s.closed ==> s' == s)
  {
    if !s.closed {
      assert SessionInv(s.(canWrite := true));
      PumpKeepsInv(s.(canWrite := true), writes);
    }
  }

  // -- promises --------------------------------------------------------------

  /** How often a promise occurs. */
  function Held(items: seq<Item>, id: nat): nat {
    if items == [] then 0 else (if items[0].id == id then 1 else 0) + Held(items[1..], id)
  }

  function Settled(s: seq<Settlement>, id: nat): nat {
    if s == [] then 0 else (if s[0].id == id then 1 else 0) + Settled(s[1..], id)
  }

  lemma {:induction false} HeldAppend(a: seq<Item>, b: seq<Item>, id: nat)
    ensures Held(a + b, id) == Held(a, id) + Held(b, id)
  {
    if a == [] {
      assert a + b == b;
    } else {
      HeldAppend(a[1..], b, id);
      assert (a + b)[1..] == a[1..] + b;
    }
  }

  lemma {:induction false} SettledAppend(a: seq<Settlement>, x: Settlement, id: nat)
    ensures Settled(a + [x], id) == Settled(a, id) + (if x.id == id then 1 else 0)
  {
    if a == [] {
      assert a + [x] == [x];
    } else {
      SettledAppend(a[1..], x, id);
      assert (a + [x])[1..] == a[1..] + [x];
    }
  }

  /** How often a session has settled a promise or still holds it. */
  function Promised(s: Session, id: nat): nat {
    Settled(s.settled, id) + Held(Unsettled(s), id)
  }

  function PromiseCount(s: Session): nat {
    |s.settled| + |Unsettled(s)|
  }

  lemma WriteOnceKeepsPromises(s: Session, n: int, id: nat)
    requires !s.closed && s.pending != [] && n <= Remaining(s)
    ensures Promised(WriteOnce(s, n), id) == Promised(s, id) && PromiseCount(WriteOnce(s, n)) == PromiseCount(s)
  {
    SettledAppend(s.settled, Settlement(s.pending[0].id, true), id);
  }

  lemma {:induction false} PumpKeepsPromises(s: Session, writes: seq<int>, id: nat)
    requires SessionInv(s)
    ensures Promised(Pump(s, writes), id) == Promised(s, id) && PromiseCount(Pump(s, writes)) == PromiseCount(s)
    decreases |s.pending|, s.canWrite
  {
    if !s.closed && s.canWrite && s.pending != [] {
      var n := Answer(writes, Remaining(s));
      WriteOnceKeepsInv(s, n);
      WriteOnceKeepsPromises(s, n, id);
      PumpKeepsPromises(WriteOnce(s, n), Tail(writes), id);
    }
  }

  /** A send adds exactly one promise, settled at once or held. */
  lemma SendKeepsPromises(s: Session, item: Item, writes: seq<int>, id: nat)
    requires SessionInv(s)
    ensures Promised(Sending(s, item, writes), id) == Promised(s, id) + (if item.id == id then 1 else 0)
    ensures PromiseCount(Sending(s, item, writes)) == PromiseCount(s) + 1
  {
    SettledAppend(s.settled, Settlement(item.id, false), id);
    if !s.closed && |item.data| <= MAX_DATAGRAM_SIZE && s.queuedBytes + |Framed(item)| <= MAX_QUEUED_BYTES {
      QueuedKeepsInv(s, item);
      HeldAppend(s.pending, [item], id);
      PumpKeepsPromises(Queued(s, item), writes, id);
    }
  }

  lemma OthersKeepPromises(s: Session, writes: seq<int>, id: nat)
    requires SessionInv(s)
    ensures Promised(SpaceAvailable(s, writes), id) == Promised(s, id)
        && PromiseCount(SpaceAvailable(s, writes)) == PromiseCount(s)
    ensures Promised(Shutdown(s), id) == Promised(s, id) && PromiseCount(Shutdown(s)) == PromiseCount(s)
  {
    if !s.closed {
      assert SessionInv(s.(canWrite := true));
      PumpKeepsPromises(s.(canWrite := true), writes, id);
    }
  }

  // -- what the peer sees ----------------------------------------------------

  ghost predicate AllFramable(items: seq<Item>) {
    forall i :: 0 <= i < |items| ==> Framable(items[i].data, MAX_DATAGRAM_SIZE)
  }

  /**
    Whatever prefix of the stream reaches the peer, its un-framer surfaces a prefix of the
    completed datagrams and nothing else: never a torn one, never one that was handed back.
   */
  lemma PeerSurfacesOnlyCompleted(s: Session, k: nat) returns (m: nat)
    requires SessionInv(s) && AllFramable(s.completed + Unsettled(s)) && k <= |s.stream|
    ensures m <= |s.completed|
    ensures Unframe(s.stream[..k], MAX_DATAGRAM_SIZE).datagrams == Data(s.completed[..m])
    ensures Unframe(s.stream[..k], MAX_DATAGRAM_SIZE).error == None
    ensures k == |s.stream| ==> m == |s.completed|
  {
    var u := Unsettled(s);
    var all := s.completed + u;
    forall i | 0 <= i < |s.completed| ensures Framable(Data(s.completed)[i], MAX_DATAGRAM_SIZE) {
      assert all[i] == s.completed[i];
    }
    if u == [] {
      m := UnframePrefix(Data(s.completed), k, MAX_DATAGRAM_SIZE);
    } else {
      assert all[|s.completed|] == u[0];
      var more := s.completed + [u[0]];
      CompletedStream(s.completed, u[0]);
      var whole := Encode(Data(more));
      assert s.stream == whole[..|s.stream|] && s.stream[..k] == whole[..k];
      assert forall i :: 0 <= i < |more| ==> Data(more)[i] == all[i].data;
      m := UnframePrefix(Data(more), k, MAX_DATAGRAM_SIZE);
      assert m != |more|;
      assert Data(more)[..m] == Data(s.completed[..m]);
      if k == |s.stream| { WholeStream(s, m); }
    }
    assert Data(s.completed)[..m] == Data(s.completed[..m]);
  }

  lemma WholeStream(s: Session, m: nat)
    requires SessionInv(s) && AllFramable(s.completed + Unsettled(s)) && m <= |s.completed| && Unsettled(s) != []
    requires Unframe(s.stream, MAX_DATAGRAM_SIZE).datagrams == Data(s.completed[..m])
             || Unframe(s.stream[..|s.stream|], MAX_DATAGRAM_SIZE).datagrams == Data(s.completed[..m])
    ensures m == |s.completed|
  {
    var u := Unsettled(s);
    var all := s.completed + u;
    assert all[|s.completed|] == u[0];
    assert s.stream[..|s.stream|] == s.stream;
    forall i | 0 <= i < |s.completed| ensures Framable(Data(s.completed)[i], MAX_DATAGRAM_SIZE) {
      assert all[i] == s.completed[i];
    }
    ParsePartialFrame(u[0].data, Torn(s), MAX_DATAGRAM_SIZE);
    UnframeEncode(Data(s.completed), Framed(u[0])[..Torn(s)], MAX_DATAGRAM_SIZE);
    assert |Data(s.completed[..m])| == |Data(s.completed)|;
  }

  // -- reading ---------------------------------------------------------------

  /** One answer of the input stream; an empty chunk is the end of it. */
  datatype Read = Chunk(bytes: seq<byte>) | ReadError

  datatype Received = Received(datagrams: seq<seq<byte>>, pending: seq<byte>, closed: bool)

  function Receive(inputs: seq<Read>, pending: seq<byte>, max: nat): Received {
    if inputs == [] then Received([], pending, false)
    else if inputs[0].ReadError? || inputs[0].bytes == [] then Received([], pending, true)
    else
      var u := Unframe(pending + inputs[0].bytes, max);
      if u.error.Some? then Received(u.datagrams, u.rest, true)
      else
        var r := Receive(inputs[1..], u.rest, max);
        Received(u.datagrams + r.datagrams, r.pending, r.closed)
  }

  function Deliver(datagrams: seq<seq<byte>>, r: Received): Received {
    Received(datagrams + r.datagrams, r.pending, r.closed)
  }

  /** The read loop taken one read further. */
  lemma ReceiveStep(inputs: seq<Read>, i: nat, pending: seq<byte>, max: nat, out: seq<seq<byte>>)
    requires i < |inputs| && inputs[i].Chunk? && inputs[i].bytes != []
    ensures var u := Unframe(pending + inputs[i].bytes, max);
            Deliver(out, Receive(inputs[i..], pending, max)) ==
              if u.error.Some? then Received(out + u.datagrams, u.rest, true)
              else Deliver(out + u.datagrams, Receive(inputs[i + 1..], u.rest, max))
  {
    assert inputs[i..][1..] == inputs[i + 1..] && inputs[i..][0] == inputs[i];
    var u := Unframe(pending + inputs[i].bytes, max);
    var r := Receive(inputs[i + 1..], u.rest, max);
    assert out + (u.datagrams + r.datagrams) == out + u.datagrams + r.datagrams;
  }

  function BytesOf(inputs: seq<Read>): seq<byte>
    requires forall i :: 0 <= i < |inputs| ==> inputs[i].Chunk?
  {
    if inputs == [] then [] else inputs[0].bytes + BytesOf(inputs[1..])
  }

  /** However the channel cuts the stream into inputs, the owner is given its datagrams. */
  lemma {:induction false} ReceiveMatchesUnframe(inputs: seq<Read>, pending: seq<byte>, max: nat)
    requires forall i :: 0 <= i < |inputs| ==> inputs[i].Chunk? && inputs[i].bytes != []
    requires Unframe(pending, max) == Stream([], pending, None)
    ensures var r := Receive(inputs, pending, max);
            var u := Unframe(pending + BytesOf(inputs), max);
            r.datagrams == u.datagrams && (r.closed <==> u.error.Some?) && (!r.closed ==> r.pending == u.rest)
    decreases |inputs|
  {
    if inputs == [] {
      assert pending + BytesOf(inputs) == pending;
    } else {
      var first := pending + inputs[0].bytes;
      var more := BytesOf(inputs[1..]);
      assert pending + BytesOf(inputs) == first + more;
      UnframeAppend(first, more, max);
      var u := Unframe(first, max);
      if u.error.None? {
        RestIsDrained(first, max);
        ReceiveMatchesUnframe(inputs[1..], u.rest, max);
      }
    }
  }

  lemma {:induction false} RestIsDrained(stream: seq<byte>, max: nat)
    requires Unframe(stream, max).error.None?
    ensures var rest := Unframe(stream, max).rest;
            Unframe(rest, max) == Stream([], rest, None)
    decreases |stream|
  {
    var p := Parse(stream, max);
    if p.Datagram? { RestIsDrained(p.rest, max); }
  }

  // -- the session object ----------------------------------------------------

  class BleL2CAPSession {
    const accumulator: BleFrameAccumulator
    var pending: seq<Item>
    var writeOffset: nat
    var queuedBytes: int
    var canWrite: bool
    var closed: bool
    ghost var stream: seq<byte>
    ghost var completed: seq<Item>
    ghost var settled: seq<Settlement>
    ghost var handedBack: seq<Item>
    ghost var tornAt: nat
    ghost var refused: nat

    ghost function Now(): Session
      reads this
    {
      Session(pending, writeOffset, queuedBytes, canWrite, closed, stream, completed, settled, handedBack, tornAt,
              refused)
    }

    ghost predicate Valid()
      reads this, accumulator
    {
      SessionInv(Now()) && accumulator.Valid() && accumulator.maxDatagramSize == MAX_DATAGRAM_SIZE
    }

    constructor ()
      ensures Valid() && fresh(accumulator) && Now() == NEW_SESSION && accumulator.Pending() == []
    {
      FreshHead(NEW_SESSION);
      accumulator := new BleFrameAccumulator(MAX_DATAGRAM_SIZE);
      pending, writeOffset, queuedBytes, canWrite, closed := [], 0, 0, false, false;
      stream, completed, settled, handedBack, tornAt, refused := [], [], [], [], 0, 0;
    }

    method Send(item: Item, writes: seq<int>)
      requires Valid()
      modifies this
      ensures Valid() && Now() == Sending(old(Now()), item, writes)
    {
      ghost var s := Now();
      SendKeepsInv(s, item, writes);
      if closed { TurnAway(item); return; }
      if |item.data| > MAX_DATAGRAM_SIZE { Refuse(item); return; }
      var framed := Frame(item.data);
      if queuedBytes + |framed| > MAX_QUEUED_BYTES { Refuse(item); return; }
      queuedBytes := queuedBytes + |framed|;
      pending := pending + [item];
      assert Now() == Queued(s, item);
      PumpWrites(writes);
      assert Now() == Sending(s, item, writes);
    }

    method Refuse(item: Item)
      modifies this
      ensures Now() == Refusing(old(Now()), item)
    {
      settled := settled + [Settlement(item.id, false)];
    }

    /** A dead channel settles the promise and tells nobody else. */
    method TurnAway(item: Item)
      modifies this
      ensures Now() == TurnedAway(old(Now()), item)
    {
      Refuse(item);
      refused := refused + 1;
    }

    method HasSpaceAvailable(writes: seq<int>)
      requires Valid()
      modifies this
      ensures Valid() && Now() == SpaceAvailable(old(Now()), writes)
    {
      OthersKeepInv(Now(), writes);
      if closed { return; }
      canWrite := true;
      PumpWrites(writes);
    }

    method PumpWrites(writes: seq<int>)
      modifies this
      ensures Now() == Pump(old(Now()), writes)
    {
      var answers := writes;
      while !closed && canWrite && pending != []
        invariant Pump(Now(), answers) == Pump(old(Now()), writes)
        decreases |pending|, canWrite
      {
        var remaining := |Frame(pending[0].data)| - writeOffset;
        if remaining <= 0 {
          CompleteHead();
        } else {
          WriteHead(Answer(answers, remaining));
          answers := Tail(answers);
        }
      }
    }

    method WriteHead(written: int)
      requires pending != [] && written <= |Frame(pending[0].data)| - writeOffset
      modifies this
      ensures Now() == WriteOnce(old(Now()), written)
    {
      var framed := Frame(pending[0].data);
      if written < 0 { ShutDown(); return; }
      if written == 0 { canWrite := false; return; }
      stream := stream + framed[writeOffset..writeOffset + written];
      writeOffset := writeOffset + written;
      queuedBytes := queuedBytes - written;
      if writeOffset == |framed| {
        CompleteHead();
      } else {
        // A short write: the socket buffer is full.
        canWrite := false;
      }
    }

    method CompleteHead()
      requires pending != []
      modifies this
      ensures Now() == Complete(old(Now()))
    {
      completed := completed + [pending[0]];
      settled := settled + [Settlement(pending[0].id, true)];
      pending := pending[1..];
      writeOffset := 0;
    }

    method ShutDown()
      modifies this
      ensures Now() == Shutdown(old(Now()))
    {
      if closed { return; }
      closed := true;
      handedBack, tornAt := pending, writeOffset;
      pending, queuedBytes, writeOffset, canWrite := [], 0, 0, false;
    }

    /** One read: append it, then take out everything that is complete. */
    method TakeIn(chunk: seq<byte>) returns (out: seq<seq<byte>>, failed: bool)
      requires accumulator.Valid() && accumulator.maxDatagramSize == MAX_DATAGRAM_SIZE
      modifies accumulator
      ensures accumulator.Valid()
      ensures var u := Unframe(old(accumulator.Pending()) + chunk, MAX_DATAGRAM_SIZE);
              out == u.datagrams && failed == u.error.Some? && accumulator.Pending() == u.rest
    {
      accumulator.Append(chunk);
      var error;
      out, error := accumulator.Drain();
      failed := error.Some?;
    }

    /** Hands on complete datagrams until the input runs out, ends, fails or breaks the framing. */
    method ReadLoop(inputs: seq<Read>) returns (datagrams: seq<seq<byte>>, stop: bool)
      requires accumulator.Valid() && accumulator.maxDatagramSize == MAX_DATAGRAM_SIZE
      modifies accumulator
      ensures accumulator.Valid()
      ensures Received(datagrams, accumulator.Pending(), stop)
          == Receive(inputs, old(accumulator.Pending()), MAX_DATAGRAM_SIZE)
    {
      datagrams := [];
      ghost var whole := Receive(inputs, accumulator.Pending(), MAX_DATAGRAM_SIZE);
      assert inputs[0..] == inputs && whole == Deliver([], whole);
      var i := 0;
      while i < |inputs|
        invariant i <= |inputs| && accumulator.Valid()
        invariant whole == Deliver(datagrams, Receive(inputs[i..], accumulator.Pending(), MAX_DATAGRAM_SIZE))
      {
        if inputs[i].ReadError? || inputs[i].bytes == [] {
          assert datagrams + [] == datagrams;
          return datagrams, true;
        }
        ReceiveStep(inputs, i, accumulator.Pending(), MAX_DATAGRAM_SIZE, datagrams);
        var out, failed := TakeIn(inputs[i].bytes);
        datagrams := datagrams + out;
        if failed { return datagrams, true; }
        i := i + 1;
      }
      assert inputs[i..] == [] && datagrams + [] == datagrams;
      stop := false;
    }

    /** Anything that stops the read loop gives the channel up. */
    method ReadAvailable(inputs: seq<Read>) returns (datagrams: seq<seq<byte>>)
      requires Valid()
      modifies this, accumulator
      ensures Valid()
      ensures old(closed) ==> datagrams == [] && Now() == old(Now())
      ensures !old(closed) ==>
                var r := Receive(inputs, old(accumulator.Pending()), MAX_DATAGRAM_SIZE);
                datagrams == r.datagrams && accumulator.Pending() == r.pending
                && Now() == (if r.closed then Shutdown(old(Now())) else old(Now()))
    {
      OthersKeepInv(Now(), []);
      datagrams := [];
      if closed { return; }
      var stop;
      datagrams, stop := ReadLoop(inputs);
      if stop { ShutDown(); }
    }
  }
}
