/**
  The `Handshake` object: fields assigned call by call, each call refining HandshakeSpec.
  A call returns what the specification returns and leaves the fields that the
  specification says it leaves, also when it throws half-way through reading a message.
 */
module HandshakeMachine {
  import opened Wrappers
  import opened SymbolicCrypto
  import Spec = HandshakeSpec

  class Handshake {
    const role: Role
    const config: Spec.Config
    const ephemeral: nat
    const localNonce: nat

    var phase: Spec.Phase
    var peerEphemeral: Option<Term>
    var peerNonce: Option<Term>
    var negotiatedVersion: nat
    var transcript: Option<Term>
    var derived: Option<Spec.DerivedKeys>
    var result: Option<Spec.HandshakeResult>
    var failure: Option<Spec.Failure>
    var secretWiped: bool

    ghost function Now(): Spec.State
      reads this
    {
      Spec.State(role, config, ephemeral, localNonce, phase, peerEphemeral, peerNonce, negotiatedVersion,
                 transcript, derived, result, failure, secretWiped)
    }

    constructor (role: Role, config: Spec.Config, ephemeral: nat, localNonce: nat)
      ensures Now() == Spec.New(role, config, ephemeral, localNonce) && Spec.Valid(Now())
    {
      this.role := role;
      this.config := config;
      this.ephemeral := ephemeral;
      this.localNonce := localNonce;
      phase := Spec.Idle;
      peerEphemeral, peerNonce, transcript, derived, result, failure := None, None, None, None, None, None;
      negotiatedVersion := Spec.PROTOCOL_VERSION;
      secretWiped := false;
    }

    method Fail<T>(f: Spec.Failure) returns (r: Result<T, Spec.Failure>)
      modifies this
      ensures (Now(), r) == Spec.Fail<T>(old(Now()), f)
    {
      phase := Spec.Failed;
      failure := Some(f);
      secretWiped := true;
      r := Err(f);
    }

    method CreateInit() returns (r: Result<Spec.Packet, Spec.Failure>)
      requires Spec.Valid(Now())
      modifies this
      ensures Spec.Valid(Now()) && (Now(), r) == Spec.CreateInit(old(Now()))
    {
      Spec.OpeningsKeepValid(Now());
      if role != Initiator { r := Fail(Spec.WrongRole); return; }
      if phase != Spec.Idle { r := Fail(Spec.WrongPhase); return; }
      phase := Spec.SentInit;
      r := Ok(Spec.Body(Spec.INIT, Spec.Map(map[
        Spec.V := Spec.Number(Spec.PROTOCOL_VERSION), Spec.E := Spec.Bytes(Public(ephemeral)),
        Spec.N := Spec.Bytes(Nonce(localNonce)), Spec.A := Spec.Text(config.algorithm)])));
    }

    /** Stores the transcript and the keys derived from it, or fails on a refused public key. */
    method DeriveFrom(t: Term) returns (r: Result<(), Spec.Failure>)
      requires peerEphemeral.Some?
      modifies this
      ensures (Now(), r) == Spec.Derive(old(Now()), t)
    {
      transcript := Some(t);
      var shared := Agree(ephemeral, peerEphemeral.value);
      if shared.None? { r := Fail(Spec.AgreementFailed); return; }
      derived := Some(Spec.DeriveAll(shared.value, t));
      phase := Spec.SentResponse;
      r := Ok(());
    }

    method ReadInitAndCreateResponse(p: Spec.Packet) returns (r: Result<Spec.Packet, Spec.Failure>)
      requires Spec.Valid(Now())
      modifies this
      ensures Spec.Valid(Now()) && (Now(), r) == Spec.ReadInit(old(Now()), p)
    {
      Spec.ReadInitKeepsValid(Now(), p);
      if role != Responder { r := Fail(Spec.WrongRole); return; }
      if phase != Spec.Idle { r := Fail(Spec.WrongPhase); return; }
      var parsed := Spec.ParseBody(p);
      if parsed.Err? { r := Fail(parsed.error); return; }
      var (kind, value) := parsed.value;
      if kind != Spec.INIT { r := Fail(Spec.UnexpectedType); return; }
      if value.NotAMap? { r := Fail(Spec.ExpectedMap); return; }
      var m := value.fields;
      var version := Spec.VersionOf(m);
      if version.Err? { r := Fail(version.error); return; }
      negotiatedVersion := version.value;
      var e := Spec.RequireBytes(m, Spec.E, KEY_LENGTH);
      if e.Err? { r := Fail(e.error); return; }
      peerEphemeral := Some(e.value);
      var n := Spec.RequireBytes(m, Spec.N, NONCE_LENGTH);
      if n.Err? { r := Fail(n.error); return; }
      peerNonce := Some(n.value);
      if Spec.A in m && m[Spec.A] != Spec.Text(config.algorithm) { r := Fail(Spec.UnsupportedAlgorithm); return; }
      var done := DeriveFrom(Transcript(negotiatedVersion, e.value, n.value, Public(ephemeral), Nonce(localNonce)));
      if done.Err? { r := Err(done.error); return; }
      r := Ok(Spec.Body(Spec.RESPONSE, Spec.Map(map[
        Spec.V := Spec.Number(negotiatedVersion), Spec.E := Spec.Bytes(Public(ephemeral)),
        Spec.N := Spec.Bytes(Nonce(localNonce))])));
    }

    method CreateResponderAuth() returns (r: Result<Spec.Packet, Spec.Failure>)
      requires Spec.Valid(Now())
      modifies this
      ensures Spec.Valid(Now()) && (Now(), r) == Spec.CreateResponderAuth(old(Now()))
    {
      Spec.OpeningsKeepValid(Now());
      if role != Responder { r := Fail(Spec.WrongRole); return; }
      if phase != Spec.SentResponse { r := Fail(Spec.WrongPhase); return; }
      var out := SealAuth();
      phase := Spec.SentAuth;
      r := Ok(Spec.Body(Spec.AUTH_RESPONDER, Spec.Map(map[Spec.C := Spec.Bytes(out)])));
    }

    method SealAuth() returns (c: Term)
      requires transcript.Some? && derived.Some?
      ensures c == Spec.SealAuth(Now())
    {
      var (key, prefix) := Spec.SendDirection(derived.value, role);
      var signature := Signature(config.identity, role, transcript.value);
      var plaintext := AuthRecord(IdentityKey(config.identity), signature, Capabilities(config.capabilities));
      c := Sealed(config.algorithm, key, prefix, plaintext, transcript.value);
    }

    method ReadResponse(p: Spec.Packet) returns (r: Result<(), Spec.Failure>)
      requires Spec.Valid(Now())
      modifies this
      ensures Spec.Valid(Now()) && (Now(), r) == Spec.ReadResponse(old(Now()), p)
    {
      Spec.ReadResponseKeepsValid(Now(), p);
      if role != Initiator { r := Fail(Spec.WrongRole); return; }
      if phase != Spec.SentInit { r := Fail(Spec.WrongPhase); return; }
      var parsed := Spec.ParseBody(p);
      if parsed.Err? { r := Fail(parsed.error); return; }
      var (kind, value) := parsed.value;
      if kind == Spec.REJECT { r := Fail(Spec.Rejected); return; }
      if kind != Spec.RESPONSE { r := Fail(Spec.UnexpectedType); return; }
      if value.NotAMap? { r := Fail(Spec.ExpectedMap); return; }
      var m := value.fields;
      var version := Spec.VersionOf(m);
      if version.Err? { r := Fail(version.error); return; }
      negotiatedVersion := version.value;
      var e := Spec.RequireBytes(m, Spec.E, KEY_LENGTH);
      if e.Err? { r := Fail(e.error); return; }
      peerEphemeral := Some(e.value);
      var n := Spec.RequireBytes(m, Spec.N, NONCE_LENGTH);
      if n.Err? { r := Fail(n.error); return; }
      peerNonce := Some(n.value);
      if e.value == Public(ephemeral) { r := Fail(Spec.EchoedEphemeral); return; }
      r := DeriveFrom(Transcript(negotiatedVersion, Public(ephemeral), Nonce(localNonce), e.value, n.value));
    }

    /** Opens and checks the peer's auth message; on success this side is complete. */
    method ReadAuth(p: Spec.Packet, expected: nat) returns (r: Result<Spec.HandshakeResult, Spec.Failure>)
      requires transcript.Some? && derived.Some?
      modifies this
      ensures (Now(), r) == Spec.ReadAuth(old(Now()), p, expected)
    {
      var parsed := Spec.ParseBody(p);
      if parsed.Err? { r := Fail(parsed.error); return; }
      var (kind, value) := parsed.value;
      if kind == Spec.REJECT { r := Fail(Spec.Rejected); return; }
      if kind != expected { r := Fail(Spec.UnexpectedType); return; }
      if value.NotAMap? { r := Fail(Spec.ExpectedMap); return; }
      if Spec.C !in value.fields || !value.fields[Spec.C].Bytes? { r := Fail(Spec.MissingCiphertext); return; }
      var (key, prefix) := Spec.RecvDirection(derived.value, role);
      var plain := Open(config.algorithm, key, prefix, value.fields[Spec.C].t, transcript.value);
      if plain.None? { r := Fail(Spec.DecryptFailed); return; }
      if !plain.value.AuthRecord? { r := Fail(Spec.MalformedAuth); return; }
      var ik, sg, cp := plain.value.identityKey, plain.value.signature, plain.value.capabilities;
      if Length(ik) != KEY_LENGTH || Length(sg) != SIGNATURE_LENGTH { r := Fail(Spec.BadField); return; }
      if !Verifies(sg, role.Other(), transcript.value, ik) { r := Fail(Spec.BadSignature); return; }
      if ik == IdentityKey(config.identity) { r := Fail(Spec.OwnIdentityPresented); return; }
      if !cp.Capabilities? { r := Fail(Spec.BadCapabilities); return; }
      var recognised := false;
      if ik in config.trusted {
        if config.trusted[ik] != ik { r := Fail(Spec.TrustMismatch); return; }
        recognised := true;
      }
      var d := derived.value;
      var (sendKey, sendPrefix) := Spec.SendDirection(d, role);
      var outcome := Spec.HandshakeResult(
        Spec.SessionKeys(d.sessionId, sendKey, sendPrefix, key, prefix, config.algorithm),
        ik, cp, d.sasSeed, transcript.value, recognised, negotiatedVersion);
      phase := Spec.Complete;
      result := Some(outcome);
      secretWiped := true;
      r := Ok(outcome);
    }

    method ReadResponderAuthAndCreateAuth(p: Spec.Packet)
      returns (r: Result<(Spec.Packet, Spec.HandshakeResult), Spec.Failure>)
      requires Spec.Valid(Now())
      modifies this
      ensures Spec.Valid(Now()) && (Now(), r) == Spec.ReadResponderAuth(old(Now()), p)
    {
      Spec.AuthReadersKeepValid(Now(), p);
      if role != Initiator { r := Fail(Spec.WrongRole); return; }
      if phase != Spec.SentResponse { r := Fail(Spec.WrongPhase); return; }
      var outcome := ReadAuth(p, Spec.AUTH_RESPONDER);
      if outcome.Err? { r := Err(outcome.error); return; }
      var out := SealAuth();
      r := Ok((Spec.Body(Spec.AUTH_INITIATOR, Spec.Map(map[Spec.C := Spec.Bytes(out)])), outcome.value));
    }

    method ReadInitiatorAuth(p: Spec.Packet) returns (r: Result<Spec.HandshakeResult, Spec.Failure>)
      requires Spec.Valid(Now())
      modifies this
      ensures Spec.Valid(Now()) && (Now(), r) == Spec.ReadInitiatorAuth(old(Now()), p)
    {
      Spec.AuthReadersKeepValid(Now(), p);
      if role != Responder { r := Fail(Spec.WrongRole); return; }
      if phase != Spec.SentAuth { r := Fail(Spec.WrongPhase); return; }
      r := ReadAuth(p, Spec.AUTH_INITIATOR);
    }
  }
}
