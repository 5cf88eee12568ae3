/**
  The live secure session as functions on its state, over a symbolic AEAD: a packet opens
  only under the key, nonce and associated data it was sealed with.
 */
module SessionSpec {
  import opened Bytes
  import opened Wrappers
  import opened ReplayWindow

  datatype Packet =
    | Sealed(algorithm: nat, key: seq<byte>, nonce: seq<byte>, plaintext: seq<byte>, associatedData: seq<byte>)
    | Forged(bytes: seq<byte>)

  const AEAD_KEY_LENGTH: nat := 32
  const AEAD_NONCE_LENGTH: nat := 12
  const AEAD_TAG_LENGTH: nat := 16
  const NONCE_PREFIX_LENGTH: nat := 4
  const SESSION_ID_LENGTH: nat := 8
  const MAX_COUNTER: nat := MAX_SAFE - 1

  function Length(p: Packet): nat {
    match p
    case Sealed(_, _, _, plaintext, _) => |plaintext| + AEAD_TAG_LENGTH
    case Forged(bytes) => |bytes|
  }

  function AeadOpen(algorithm: nat, key: seq<byte>, nonce: seq<byte>, p: Packet, ad: seq<byte>): Option<seq<byte>> {
    if p.Sealed? && p == Sealed(algorithm, key, nonce, p.plaintext, ad) then Some(p.plaintext) else None
  }

  datatype Keys = Keys(sessionId: seq<byte>, sendKey: seq<byte>, sendPrefix: seq<byte>, recvKey: seq<byte>,
                       recvPrefix: seq<byte>, algorithm: nat)

  datatype Stats = Stats(
    packetsSent: nat, packetsReceived: nat, packetsRejected: nat, bytesSent: nat, bytesReceived: nat)

  /** `accepted` is what the replay window stands for. */
  datatype State = State(
    keys: Keys, windowSize: nat, sendCounter: nat, accepted: set<int>, destroyed: bool, stats: Stats)

  datatype Failure = BadSessionId | BadKey | BadPrefix | BadWindow | Destroyed | CounterExhausted

  function New(k: Keys, windowSize: nat): Result<State, Failure> {
    if |k.sessionId| != SESSION_ID_LENGTH then Err(BadSessionId)
    else if |k.sendKey| != AEAD_KEY_LENGTH || |k.recvKey| != AEAD_KEY_LENGTH then Err(BadKey)
    else if |k.sendPrefix| != NONCE_PREFIX_LENGTH || |k.recvPrefix| != NONCE_PREFIX_LENGTH then Err(BadPrefix)
    else if windowSize < 32 || windowSize % 32 != 0 then Err(BadWindow)
    else Ok(State(k, windowSize, 0, {}, false, Stats(0, 0, 0, 0, 0)))
  }

  function Nonce(prefix: seq<byte>, counter: nat): seq<byte> {
    prefix + BE64(counter)
  }

  function Seal(s: State, plaintext: seq<byte>, ad: seq<byte>): (State, Result<(Packet, nat), Failure>) {
    if s.destroyed then (s, Err(Destroyed))
    else if s.sendCounter >= MAX_COUNTER then (s, Err(CounterExhausted))
    else
      var p := Sealed(s.keys.algorithm, s.keys.sendKey, Nonce(s.keys.sendPrefix, s.sendCounter), plaintext, ad);
      (s.(sendCounter := s.sendCounter + 1,
          stats := s.stats.(packetsSent := s.stats.packetsSent + 1, bytesSent := s.stats.bytesSent + Length(p))),
       Ok((p, s.sendCounter)))
  }

  function Reject(s: State): State {
    s.(stats := s.stats.(packetsRejected := s.stats.packetsRejected + 1))
  }

  ghost function Open(s: State, p: Packet, ad: seq<byte>, counter: int): (State, Option<seq<byte>>) {
    if s.destroyed then (s, None)
    else if !Acceptable(s.accepted, s.windowSize, counter) then (Reject(s), None)
    else match AeadOpen(s.keys.algorithm, s.keys.recvKey, Nonce(s.keys.recvPrefix, counter), p, ad)
      case None => (Reject(s), None)
      case Some(plaintext) =>
        (s.(accepted := s.accepted + {counter},
            stats := s.stats.(packetsReceived := s.stats.packetsReceived + 1,
                              bytesReceived := s.stats.bytesReceived + Length(p))),
         Some(plaintext))
  }

  // -- two ends and a network ------------------------------------------------

  datatype Record = Record(counter: nat, plaintext: seq<byte>, associatedData: seq<byte>)

  /**
    The sender's session, everything it ever sealed, and what the receiver's session opened.
    `auth` is what the sender's handshake sealed before, under the same key and counter 0,
    with the transcript hash as its associated data.
   */
  datatype World = World(
    sender: State, receiver: State, auth: Record, sealed_: seq<Packet>, log: seq<Record>, opened_: seq<Record>)

  datatype Event =
    | Seals(plaintext: seq<byte>, associatedData: seq<byte>)
    | Arrives(packet: Packet, associatedData: seq<byte>, counter: int)
    | ReceiverDestroyed
    | SenderDestroyed

  /** Nobody without the key can make a packet under it: the sender's session sealed it, or its handshake did. */
  predicate Possible(w: World, e: Event) {
    match e
    case Arrives(p, _, _) =>
      p.Sealed? && p.key == w.receiver.keys.recvKey ==> p in w.sealed_ || p == SealedAs(w.sender.keys, w.auth)
    case _ => true
  }

  function Destroy(s: State): State {
    s.(destroyed := true, accepted := if s.destroyed then s.accepted else {})
  }

  ghost function Next(w: World, e: Event): World {
    if !Possible(w, e) then w
    else match e
      case Seals(plaintext, ad) =>
        var (s, r) := Seal(w.sender, plaintext, ad);
        if r.Err? then w
        else
          w.(sender := s, sealed_ := w.sealed_ + [r.value.0], log := w.log + [Record(r.value.1, plaintext, ad)])
      case Arrives(p, ad, counter) =>
        var (s, r) := Open(w.receiver, p, ad, counter);
        if r.None? || counter < 0 then w.(receiver := s)
        else w.(receiver := s, opened_ := w.opened_ + [Record(counter, r.value, ad)])
      case ReceiverDestroyed => w.(receiver := Destroy(w.receiver))
      case SenderDestroyed => w.(sender := Destroy(w.sender))
  }

  ghost function Run(w: World, events: seq<Event>): World
    decreases |events|
  {
    if events == [] then w else Run(Next(w, events[0]), events[1..])
  }

  /** What the sender's `counter`-th seal puts on the wire. */
  function SealedAs(k: Keys, r: Record): Packet {
    Sealed(k.algorithm, k.sendKey, Nonce(k.sendPrefix, r.counter), r.plaintext, r.associatedData)
  }

  /** The receiver's receiving half is the sender's sending half. */
  predicate Matched(a: Keys, b: Keys) {
    a.sendKey == b.recvKey && a.sendPrefix == b.recvPrefix && a.algorithm == b.algorithm
  }

  ghost predicate Inv(w: World) {
    && Matched(w.sender.keys, w.receiver.keys) && w.auth.counter == 0
    && w.sender.sendCounter == |w.log| == |w.sealed_| <= MAX_COUNTER
    && (forall i :: 0 <= i < |w.log| ==> w.log[i].counter == i && w.sealed_[i] == SealedAs(w.sender.keys, w.log[i]))
    && (forall i :: 0 <= i < |w.opened_| ==> Genuine(w, w.opened_[i]))
    && (forall i, j :: 0 <= i < j < |w.opened_| ==> w.opened_[i].counter != w.opened_[j].counter)
    && (!w.receiver.destroyed ==>
         forall c: int :: c in w.receiver.accepted <==> exists i :: 0 <= i < |w.opened_| && w.opened_[i].counter == c)
  }

  /** What the sender's session sealed with that counter, or what its handshake sealed. */
  predicate Genuine(w: World, r: Record) {
    (r.counter < |w.log| && w.log[r.counter] == r) || r == w.auth
  }

  /** The counter of one session's nonces never repeats. */
  lemma NoncesDiffer(prefix: seq<byte>, a: nat, b: nat)
    requires a <= MAX_SAFE && b <= MAX_SAFE && Nonce(prefix, a) == Nonce(prefix, b)
    ensures a == b
  {
    hide BE64;
    assert Nonce(prefix, a)[|prefix|..] == BE64(a);
    assert Nonce(prefix, b)[|prefix|..] == BE64(b);
    BE64Injective(a, b);
  }

  /** A packet that opens is the one sealed with that counter; the handshake's needs the transcript hash beside it. */
  lemma OpensOnlyItself(w: World, p: Packet, ad: seq<byte>, counter: nat)
    requires Inv(w) && Possible(w, Arrives(p, ad, counter)) && counter <= MAX_SAFE
    requires var k := w.receiver.keys;
             AeadOpen(k.algorithm, k.recvKey, Nonce(k.recvPrefix, counter), p, ad).Some?
    ensures Genuine(w, Record(counter, p.plaintext, ad))
    ensures ad != w.auth.associatedData ==> counter < |w.log| && w.log[counter] == Record(counter, p.plaintext, ad)
  {
    hide Nonce;
    if p in w.sealed_ {
      var i :| 0 <= i < |w.sealed_| && w.sealed_[i] == p;
      assert w.sealed_[i] == SealedAs(w.sender.keys, w.log[i]);
      NoncesDiffer(w.sender.keys.sendPrefix, i, counter);
    } else {
      NoncesDiffer(w.sender.keys.sendPrefix, 0, counter);
    }
  }

  lemma ArrivalKeepsInv(w: World, p: Packet, ad: seq<byte>, counter: int)
    requires Inv(w) && Possible(w, Arrives(p, ad, counter))
    ensures Inv(Next(w, Arrives(p, ad, counter)))
  {
    hide Nonce, SealedAs;
    var (s, r) := Open(w.receiver, p, ad, counter);
    if r.Some? {
      OpensOnlyItself(w, p, ad, counter);
      var w' := Next(w, Arrives(p, ad, counter));
      var more := w'.opened_;
      assert more == w.opened_ + [Record(counter, p.plaintext, ad)];
      forall i | 0 <= i < |w.opened_| ensures w.opened_[i].counter != counter {
        assert w.opened_[i].counter as int in w.receiver.accepted;
      }
      forall c: int ensures c in s.accepted <==> exists i :: 0 <= i < |more| && more[i].counter == c {
        if c in w.receiver.accepted {
          var i :| 0 <= i < |w.opened_| && w.opened_[i].counter == c;
          assert more[i].counter == c;
        }
        if c == counter {
          assert more[|w.opened_|].counter == c;
        }
      }
    }
  }

  lemma NextKeepsInv(w: World, e: Event)
    requires Inv(w)
    ensures Inv(Next(w, e))
  {
    hide Nonce;
    if Possible(w, e) {
      match e
      case Arrives(p, ad, counter) => ArrivalKeepsInv(w, p, ad, counter);
      case Seals(plaintext, ad) =>
      case ReceiverDestroyed =>
      case SenderDestroyed =>
    }
  }

  lemma {:induction false} RunKeepsInv(w: World, events: seq<Event>)
    requires Inv(w)
    ensures Inv(Run(w, events))
    decreases |events|
  {
    hide Inv, Next;
    if events != [] {
      NextKeepsInv(w, events[0]);
      RunKeepsInv(Next(w, events[0]), events[1..]);
    }
  }

  ghost function Start(a: State, b: State, auth: seq<byte>, transcript: seq<byte>): World {
    World(a, b, Record(0, auth, transcript), [], [], [])
  }

  /** Fresh sessions built from matching keys. */
  ghost predicate FreshPair(ka: Keys, kb: Keys, window: nat, a: State, b: State) {
    New(ka, window) == Ok(a) && New(kb, window) == Ok(b) && Matched(ka, kb)
  }

  /**
    Over any packet stream, the handshake's own ciphertext included: every plaintext the
    receiver was given is what the sender's session sealed with that counter and that
    associated data, or what its handshake sealed, opened as number 0 under the transcript
    hash; and no counter was opened twice.
   */
  lemma OpenedWasSealedOnce(
      ka: Keys, kb: Keys, window: nat, a: State, b: State, auth: seq<byte>, transcript: seq<byte>, events: seq<Event>)
    requires FreshPair(ka, kb, window, a, b)
    ensures
      var w := Run(Start(a, b, auth, transcript), events);
      && (forall i :: 0 <= i < |w.opened_| ==>
           || (w.opened_[i].counter < |w.log| && w.log[w.opened_[i].counter] == w.opened_[i])
           || w.opened_[i] == Record(0, auth, transcript))
      && (forall i, j :: 0 <= i < j < |w.opened_| ==> w.opened_[i].counter != w.opened_[j].counter)
  {
    hide Run;
    RunKeepsInv(Start(a, b, auth, transcript), events);
    RunKeepsAuth(Start(a, b, auth, transcript), events);
  }

  lemma {:induction false} RunKeepsAuth(w: World, events: seq<Event>)
    ensures Run(w, events).auth == w.auth
    decreases |events|
  {
    if events != [] { RunKeepsAuth(Next(w, events[0]), events[1..]); }
  }

  /** Shown to a live session, the handshake's ciphertext opens only under the transcript hash, as number 0. */
  lemma AuthOpensOnlyUnderTranscript(w: World, ad: seq<byte>, counter: nat)
    requires Inv(w) && !w.receiver.destroyed && counter <= MAX_SAFE
    ensures Open(w.receiver, SealedAs(w.sender.keys, w.auth), ad, counter).1.Some?
      <==> counter == 0 && ad == w.auth.associatedData && Acceptable(w.receiver.accepted, w.receiver.windowSize, 0)
  {
    hide Nonce;
    if Nonce(w.receiver.keys.recvPrefix, counter) == Nonce(w.sender.keys.sendPrefix, 0) {
      NoncesDiffer(w.sender.keys.sendPrefix, 0, counter);
    }
  }

  /**
    A genuine packet is opened exactly when it is new and inside the window: not opened
    before, and nothing opened is a whole window ahead of it.
   */
  lemma GenuineOpensIffNew(
      ka: Keys, kb: Keys, window: nat, a: State, b: State, auth: seq<byte>, transcript: seq<byte>, events: seq<Event>,
      counter: nat)
    requires FreshPair(ka, kb, window, a, b)
    requires counter < |Run(Start(a, b, auth, transcript), events).log|
        && !Run(Start(a, b, auth, transcript), events).receiver.destroyed
    ensures
      var w := Run(Start(a, b, auth, transcript), events);
      var r := w.log[counter];
      && |w.sealed_| == |w.log|
      && Open(w.receiver, w.sealed_[counter], r.associatedData, counter).1
           == (if forall i :: 0 <= i < |w.opened_| ==>
                 w.opened_[i].counter != counter && w.opened_[i].counter < counter + w.receiver.windowSize
               then Some(r.plaintext) else None)
  {
    hide Run, Nonce;
    RunKeepsInv(Start(a, b, auth, transcript), events);
    var w := Run(Start(a, b, auth, transcript), events);
    assert w.sealed_[counter] == SealedAs(w.sender.keys, w.log[counter]);
    assert Acceptable(w.receiver.accepted, w.receiver.windowSize, counter)
      <==> forall i :: 0 <= i < |w.opened_| ==>
             w.opened_[i].counter != counter && w.opened_[i].counter < counter + w.receiver.windowSize by {
      SameWindow(w, counter);
    }
  }

  lemma SameWindow(w: World, counter: nat)
    requires Inv(w) && !w.receiver.destroyed && counter <= MAX_SAFE
    ensures Acceptable(w.receiver.accepted, w.receiver.windowSize, counter)
      <==> forall i :: 0 <= i < |w.opened_| ==>
             w.opened_[i].counter != counter && w.opened_[i].counter < counter + w.receiver.windowSize
  {
    hide SealedAs;
    if Acceptable(w.receiver.accepted, w.receiver.windowSize, counter) {
      forall i | 0 <= i < |w.opened_|
        ensures w.opened_[i].counter != counter && w.opened_[i].counter < counter + w.receiver.windowSize
      {
        assert w.opened_[i].counter as int in w.receiver.accepted;
      }
    }
  }

  /** Two seals of one session never share a nonce. */
  lemma SealNoncesDistinct(
      ka: Keys, kb: Keys, window: nat, a: State, b: State, auth: seq<byte>, transcript: seq<byte>, events: seq<Event>,
      i: nat, j: nat)
    requires FreshPair(ka, kb, window, a, b)
    requires i < j < |Run(Start(a, b, auth, transcript), events).sealed_|
    ensures
      var w := Run(Start(a, b, auth, transcript), events);
      w.sealed_[i].Sealed? && w.sealed_[j].Sealed? && w.sealed_[i].nonce != w.sealed_[j].nonce
  {
    hide Run, Nonce;
    RunKeepsInv(Start(a, b, auth, transcript), events);
    var w := Run(Start(a, b, auth, transcript), events);
    assert w.sealed_[i] == SealedAs(w.sender.keys, w.log[i]) && w.sealed_[j] == SealedAs(w.sender.keys, w.log[j]);
    if w.sealed_[i].nonce == w.sealed_[j].nonce {
      NoncesDiffer(w.sender.keys.sendPrefix, i, j);
    }
  }

  // -- how many, and how much ------------------------------------------------

  function SealsIn(events: seq<Event>): nat
    decreases |events|
  {
    if events == [] then 0 else (if events[0].Seals? then 1 else 0) + SealsIn(events[1..])
  }

  function Min(a: nat, b: nat): nat {
    if a <= b then a else b
  }

  lemma {:induction false} RunSeals(w: World, events: seq<Event>)
    requires Inv(w) && !w.sender.destroyed && SenderDestroyed !in events
    ensures var w' := Run(w, events);
            |w'.log| == Min(|w.log| + SealsIn(events), MAX_COUNTER) && !w'.sender.destroyed
    decreases |events|
  {
    hide Nonce;
    if events != [] {
      NextKeepsInv(w, events[0]);
      RunSeals(Next(w, events[0]), events[1..]);
    }
  }

  /**
    A session that is not destroyed seals until 9007199254740990 packets have gone out and then
    no more; each seal takes the next number, and a destroyed session seals nothing.
   */
  lemma SealsUntilExhausted(
      ka: Keys, kb: Keys, window: nat, a: State, b: State, auth: seq<byte>, transcript: seq<byte>, events: seq<Event>,
      plaintext: seq<byte>, ad: seq<byte>)
    requires FreshPair(ka, kb, window, a, b) && SenderDestroyed !in events
    ensures
      var w := Run(Start(a, b, auth, transcript), events);
      var r := Seal(w.sender, plaintext, ad).1;
      && (r.Ok? <==> SealsIn(events) < 9007199254740990)
      && (r.Ok? ==> r.value.1 == SealsIn(events) && Length(r.value.0) == |plaintext| + 16)
      && Seal(Destroy(w.sender), plaintext, ad) == (Destroy(w.sender), Err(Destroyed))
  {
    hide Run, Next, Nonce;
    RunKeepsInv(Start(a, b, auth, transcript), events);
    RunSeals(Start(a, b, auth, transcript), events);
  }

  function BytesIn(records: seq<Record>): nat
    decreases |records|
  {
    if records == [] then 0
    else BytesIn(records[..|records| - 1]) + |records[|records| - 1].plaintext| + AEAD_TAG_LENGTH
  }

  lemma BytesInMore(records: seq<Record>, r: Record)
    ensures BytesIn(records + [r]) == BytesIn(records) + |r.plaintext| + AEAD_TAG_LENGTH
  {
    assert (records + [r])[..|records|] == records;
  }

  /** The counters of both sessions agree with what was sealed and what was opened. */
  ghost predicate Counted(w: World) {
    && w.sender.stats.packetsSent == |w.log| && w.sender.stats.bytesSent == BytesIn(w.log)
    && w.receiver.stats.packetsReceived == |w.opened_| && w.receiver.stats.bytesReceived == BytesIn(w.opened_)
  }

  lemma NextKeepsCount(w: World, e: Event)
    requires Inv(w) && Counted(w)
    ensures Counted(Next(w, e))
  {
    hide Inv, Nonce, BytesIn;
    if Possible(w, e) {
      match e
      case Arrives(p, ad, counter) =>
        if Open(w.receiver, p, ad, counter).1.Some? {
          BytesInMore(w.opened_, Record(counter, Open(w.receiver, p, ad, counter).1.value, ad));
        }
      case Seals(plaintext, ad) => BytesInMore(w.log, Record(w.sender.sendCounter, plaintext, ad));
      case ReceiverDestroyed =>
      case SenderDestroyed =>
    }
  }

  lemma {:induction false} RunKeepsCount(w: World, events: seq<Event>)
    requires Inv(w) && Counted(w)
    ensures Counted(Run(w, events))
    decreases |events|
  {
    hide Inv, Next, Counted;
    if events != [] {
      NextKeepsInv(w, events[0]);
      NextKeepsCount(w, events[0]);
      RunKeepsCount(Next(w, events[0]), events[1..]);
    }
  }

  /** After any run the statistics are those of the packets that were sealed and opened, sixteen bytes of tag each. */
  lemma StatisticsAreExact(
      ka: Keys, kb: Keys, window: nat, a: State, b: State, auth: seq<byte>, transcript: seq<byte>, events: seq<Event>)
    requires FreshPair(ka, kb, window, a, b)
    ensures
      var w := Run(Start(a, b, auth, transcript), events);
      && w.sender.stats.packetsSent == |w.log| && w.sender.stats.bytesSent == BytesIn(w.log)
      && w.receiver.stats.packetsReceived == |w.opened_| && w.receiver.stats.bytesReceived == BytesIn(w.opened_)
  {
    hide Run;
    RunKeepsCount(Start(a, b, auth, transcript), events);
  }

  lemma {:induction false} DestroyedStaysSilent(w: World, events: seq<Event>)
    ensures w.receiver.destroyed ==> Run(w, events).opened_ == w.opened_ && Run(w, events).receiver == w.receiver
    ensures w.sender.destroyed ==> Run(w, events).log == w.log && Run(w, events).sealed_ == w.sealed_
    decreases |events|
  {
    if events != [] { DestroyedStaysSilent(Next(w, events[0]), events[1..]); }
  }

  lemma {:induction false} RunAppend(w: World, before: seq<Event>, after: seq<Event>)
    ensures Run(w, before + after) == Run(Run(w, before), after)
    decreases |before|
  {
    hide Next;
    if before == [] {
      assert before + after == after;
    } else {
      assert (before + after)[1..] == before[1..] + after;
      RunAppend(Next(w, before[0]), before[1..], after);
    }
  }

  /** A receiver that was destroyed opens nothing more, and a sender that was destroyed seals nothing more. */
  lemma NothingAfterDestroy(w: World, before: seq<Event>, after: seq<Event>)
    ensures Run(w, before + [ReceiverDestroyed] + after).opened_ == Run(w, before).opened_
    ensures Run(w, before + [SenderDestroyed] + after).sealed_ == Run(w, before).sealed_
  {
    hide Run;
    var m := Run(w, before);
    forall e: Event ensures Run(w, before + [e] + after) == Run(Next(m, e), after) {
      RunAppend(w, before + [e], after);
      RunAppend(w, before, [e]);
      OneEvent(m, e);
    }
    DestroyedStaysSilent(Next(m, ReceiverDestroyed), after);
    DestroyedStaysSilent(Next(m, SenderDestroyed), after);
  }

  lemma OneEvent(w: World, e: Event)
    ensures Run(w, [e]) == Next(w, e)
  {
    hide Next;
    assert [e][1..] == [];
  }
}
