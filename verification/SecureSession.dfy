/** The `SecureSession` object, with its keys, nonces and replay window updated in place. */
module SecureSession {
  import opened Bytes
  import opened Wrappers
  import Window = ReplayWindow
  import Spec = SessionSpec

  /** Big-endian counter into bytes 4 to 11, over whatever was there. */
  method WriteCounter(nonce: array<byte>, counter: nat)
    requires nonce.Length == Spec.AEAD_NONCE_LENGTH && counter <= Window.MAX_SAFE
    modifies nonce
    ensures nonce[..] == Spec.Nonce(old(nonce[..Spec.NONCE_PREFIX_LENGTH]), counter)
  {
    var hi := counter / TWO_32;
    var lo := counter % TWO_32;
    nonce[4] := hi / 0x100_0000 % 256;
    nonce[5] := hi / 0x1_0000 % 256;
    nonce[6] := hi / 0x100 % 256;
    nonce[7] := hi % 256;
    nonce[8] := lo / 0x100_0000 % 256;
    nonce[9] := lo / 0x1_0000 % 256;
    nonce[10] := lo / 0x100 % 256;
    nonce[11] := lo % 256;
    assert nonce[4..8] == BE32(hi) && nonce[8..12] == BE32(lo);
    assert nonce[..] == nonce[..4] + nonce[4..8] + nonce[8..12];
  }

  ghost predicate AllZero(a: array<byte>)
    reads a
  {
    forall i :: 0 <= i < a.Length ==> a[i] == 0
  }

  method Wipe(a: array<byte>)
    modifies a
    ensures AllZero(a)
  {
    for i := 0 to a.Length
      invariant forall k :: 0 <= k < i ==> a[k] == 0
    {
      a[i] := 0;
    }
  }

  class SecureSession {
    const sessionId: seq<byte>
    const algorithm: nat
    const sendKey: array<byte>
    const recvKey: array<byte>
    const sendNonce: array<byte>
    const recvNonce: array<byte>
    const replay: Window.ReplayWindow
    ghost const keys: Spec.Keys

    var sendCounter: nat
    var destroyed: bool
    var packetsSent: nat
    var packetsReceived: nat
    var packetsRejected: nat
    var bytesSent: nat
    var bytesReceived: nat

    ghost predicate Valid()
      reads this, sendKey, recvKey, sendNonce, recvNonce, replay, replay.bitmap
    {
      && replay.Valid()
      && replay.bitmap !in {sendKey as object, recvKey, sendNonce, recvNonce}
      && sendNonce !in {sendKey, recvKey, recvNonce} && recvNonce !in {sendKey, recvKey}
      && sendNonce.Length == recvNonce.Length == Spec.AEAD_NONCE_LENGTH
      && sessionId == keys.sessionId && algorithm == keys.algorithm
      && |keys.sendPrefix| == |keys.recvPrefix| == Spec.NONCE_PREFIX_LENGTH
      && (!destroyed ==>
           && sendKey[..] == keys.sendKey && recvKey[..] == keys.recvKey
           && sendNonce[..Spec.NONCE_PREFIX_LENGTH] == keys.sendPrefix
           && recvNonce[..Spec.NONCE_PREFIX_LENGTH] == keys.recvPrefix)
      && (destroyed ==> AllZero(sendKey) && AllZero(recvKey) && AllZero(sendNonce) && AllZero(recvNonce))
    }

    ghost function Now(): Spec.State
      reads this, replay
    {
      Spec.State(keys, replay.windowSize, sendCounter, replay.accepted, destroyed,
                 Spec.Stats(packetsSent, packetsReceived, packetsRejected, bytesSent, bytesReceived))
    }

    /** Keeps the two key buffers it is given and copies the prefixes. */
    constructor (sessionId: seq<byte>, sendKey: array<byte>, sendPrefix: seq<byte>, recvKey: array<byte>,
                 recvPrefix: seq<byte>, algorithm: nat, windowSize: nat)
      requires |sendPrefix| == |recvPrefix| == Spec.NONCE_PREFIX_LENGTH
      requires windowSize >= 32 && windowSize % 32 == 0
      ensures Valid() && fresh(sendNonce) && fresh(recvNonce) && fresh(replay) && fresh(replay.bitmap)
      ensures this.sendKey == sendKey && this.recvKey == recvKey
      ensures Now() == Spec.State(Spec.Keys(sessionId, sendKey[..], sendPrefix, recvKey[..], recvPrefix, algorithm),
                                  windowSize, 0, {}, false, Spec.Stats(0, 0, 0, 0, 0))
    {
      this.sessionId := sessionId;
      this.algorithm := algorithm;
      this.sendKey := sendKey;
      this.recvKey := recvKey;
      keys := Spec.Keys(sessionId, sendKey[..], sendPrefix, recvKey[..], recvPrefix, algorithm);
      sendNonce := new byte[Spec.AEAD_NONCE_LENGTH](i => if 0 <= i < |sendPrefix| then sendPrefix[i] else 0);
      recvNonce := new byte[Spec.AEAD_NONCE_LENGTH](i => if 0 <= i < |recvPrefix| then recvPrefix[i] else 0);
      replay := new Window.ReplayWindow(windowSize);
      sendCounter, destroyed := 0, false;
      packetsSent, packetsReceived, packetsRejected, bytesSent, bytesReceived := 0, 0, 0, 0, 0;
      new;
      assert sendNonce[..Spec.NONCE_PREFIX_LENGTH] == sendPrefix;
      assert recvNonce[..Spec.NONCE_PREFIX_LENGTH] == recvPrefix;
    }

    method Seal(plaintext: seq<byte>, ad: seq<byte>) returns (r: Result<(Spec.Packet, nat), Spec.Failure>)
      requires Valid()
      modifies this, sendNonce
      ensures Valid() && (Now(), r) == Spec.Seal(old(Now()), plaintext, ad)
    {
      if destroyed { return Err(Spec.Destroyed); }
      if sendCounter >= Spec.MAX_COUNTER { return Err(Spec.CounterExhausted); }
      var counter := sendCounter;
      sendCounter := sendCounter + 1;
      WriteCounter(sendNonce, counter);
      var ciphertext := Spec.Sealed(algorithm, sendKey[..], sendNonce[..], plaintext, ad);
      assert sendNonce[..Spec.NONCE_PREFIX_LENGTH] == keys.sendPrefix;
      packetsSent := packetsSent + 1;
      bytesSent := bytesSent + Spec.Length(ciphertext);
      return Ok((ciphertext, counter));
    }

    /** A packet that is refused leaves the window, bits and all, as it was. */
    method Open(ciphertext: Spec.Packet, ad: seq<byte>, counter: int) returns (plaintext: Option<seq<byte>>)
      requires Valid()
      modifies this, recvNonce, replay, replay.bitmap
      ensures Valid() && (Now(), plaintext) == Spec.Open(old(Now()), ciphertext, ad, counter)
      ensures plaintext.None? ==> replay.bitmap[..] == old(replay.bitmap[..]) && replay.highest == old(replay.highest)
    {
      if destroyed { return None; }
      if !Window.Safe(counter) {
        packetsRejected := packetsRejected + 1;
        return None;
      }
      if replay.IsReplay(counter) {
        packetsRejected := packetsRejected + 1;
        return None;
      }
      WriteCounter(recvNonce, counter);
      assert recvNonce[..Spec.NONCE_PREFIX_LENGTH] == keys.recvPrefix;
      plaintext := Spec.AeadOpen(algorithm, recvKey[..], recvNonce[..], ciphertext, ad);
      if plaintext.None? {
        packetsRejected := packetsRejected + 1;
        return None;
      }
      var fresh_ := replay.Accept(counter);
      packetsReceived := packetsReceived + 1;
      bytesReceived := bytesReceived + Spec.Length(ciphertext);
    }

    method Destroy()
      requires Valid()
      modifies this, sendKey, recvKey, sendNonce, recvNonce, replay, replay.bitmap
      ensures Valid() && Now() == Spec.Destroy(old(Now())) && destroyed
      ensures AllZero(sendKey) && AllZero(recvKey) && AllZero(sendNonce) && AllZero(recvNonce)
    {
      if destroyed { return; }
      destroyed := true;
      Wipe(sendKey);
      Wipe(recvKey);
      Wipe(sendNonce);
      Wipe(recvNonce);
      replay.Reset();
    }
  }

  /** Refuses key material and windows of the wrong size; otherwise the session that was asked for. */
  method Create(sessionId: seq<byte>, sendKey: array<byte>, sendPrefix: seq<byte>, recvKey: array<byte>,
                recvPrefix: seq<byte>, algorithm: nat, windowSize: nat) returns (r: Result<SecureSession, Spec.Failure>)
    ensures
      var wanted := Spec.New(Spec.Keys(sessionId, sendKey[..], sendPrefix, recvKey[..], recvPrefix, algorithm),
          windowSize);
      match r
      case Err(e) => wanted == Err(e)
      case Ok(s) => fresh(s) && s.Valid() && wanted == Ok(s.Now())
  {
    if |sessionId| != Spec.SESSION_ID_LENGTH { return Err(Spec.BadSessionId); }
    if sendKey.Length != Spec.AEAD_KEY_LENGTH || recvKey.Length != Spec.AEAD_KEY_LENGTH { return Err(Spec.BadKey); }
    if |sendPrefix| != Spec.NONCE_PREFIX_LENGTH || |recvPrefix| != Spec.NONCE_PREFIX_LENGTH {
      return Err(Spec.BadPrefix);
    }
    if windowSize < 32 || windowSize % 32 != 0 { return Err(Spec.BadWindow); }
    var s := new SecureSession(sessionId, sendKey, sendPrefix, recvKey, recvPrefix, algorithm, windowSize);
    return Ok(s);
  }
}
