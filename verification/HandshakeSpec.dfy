/**
  One side of the SIGMA-I key exchange as functions on its state.  Every function returns
  the state the call leaves behind, also when it throws: whatever was read before the
  failure stays, the side is failed for good and its ephemeral secret is wiped.  A result
  exists only once the other side has proved which identity it speaks for.
 */
module HandshakeSpec {
  import opened Wrappers
  import opened SymbolicCrypto

  const PROTOCOL_VERSION: nat := 1
  const MIN_SUPPORTED_PROTOCOL_VERSION: nat := 1

  const INIT: nat := 0x01
  const RESPONSE: nat := 0x02
  const AUTH_RESPONDER: nat := 0x03
  const AUTH_INITIATOR: nat := 0x04
  const REJECT: nat := 0x05

  datatype Field = V | E | N | A | C | R

  datatype Scalar = Number(n: int) | Bytes(t: Term) | Text(algorithm: Algorithm) | OtherScalar

  /** A decoded CBOR value: only maps are told apart by their content. */
  datatype Value = NotAMap | Map(fields: map<Field, Scalar>)

  /** A message body as it arrives: possibly empty, possibly not CBOR after its type byte. */
  datatype Packet = Empty | Undecodable(tag: nat) | Body(kind: nat, value: Value)

  datatype Phase = Idle | SentInit | SentResponse | SentAuth | Complete | Failed

  datatype Failure =
    | WrongRole | WrongPhase | EmptyBody | NotCbor | UnexpectedType | Rejected | ExpectedMap
    | BadInteger | UnsupportedVersion | BadField | UnsupportedAlgorithm | EchoedEphemeral
    | AgreementFailed | MissingCiphertext | DecryptFailed | MalformedAuth | BadSignature
    | OwnIdentityPresented | BadCapabilities | TrustMismatch

  datatype DerivedKeys = DerivedKeys(
    initiatorToResponderKey: Term, initiatorToResponderPrefix: Term,
    responderToInitiatorKey: Term, responderToInitiatorPrefix: Term,
    sessionId: Term, sasSeed: Term)

  datatype SessionKeys = SessionKeys(
    sessionId: Term, sendKey: Term, sendNoncePrefix: Term,
    recvKey: Term, recvNoncePrefix: Term, algorithm: Algorithm)

  datatype HandshakeResult = HandshakeResult(
    keys: SessionKeys, peerIdentityKey: Term, peerCapabilities: Term, sasCodeSeed: Term,
    transcriptHash: Term, recognisedFromTrustStore: bool, negotiatedProtocolVersion: nat)

  /** `trusted` is `lookupTrustedKey` composed with the peer id of the presented key. */
  datatype Config = Config(identity: nat, capabilities: nat, trusted: map<Term, Term>, algorithm: Algorithm)

  datatype State = State(
    role: Role, config: Config, ephemeral: nat, localNonce: nat,
    phase: Phase, peerEphemeral: Option<Term>, peerNonce: Option<Term>, negotiatedVersion: nat,
    transcript: Option<Term>, derived: Option<DerivedKeys>, result: Option<HandshakeResult>,
    failure: Option<Failure>, secretWiped: bool)

  function New(role: Role, config: Config, ephemeral: nat, localNonce: nat): State {
    State(role, config, ephemeral, localNonce, Idle, None, None, PROTOCOL_VERSION, None, None, None, None, false)
  }

  type Step<T> = (State, Result<T, Failure>)

  function Fail<T>(s: State, f: Failure): Step<T> {
    (s.(phase := Failed, failure := Some(f), secretWiped := true), Err(f))
  }

  // -- parsing ---------------------------------------------------------------

  function ParseBody(p: Packet): Result<(nat, Value), Failure> {
    match p
    case Empty => Err(EmptyBody)
    case Undecodable(_) => Err(NotCbor)
    case Body(kind, value) => Ok((kind, value))
  }

  function VersionOf(m: map<Field, Scalar>): Result<nat, Failure> {
    if V !in m || !m[V].Number? || !(0 <= m[V].n <= 65535) then Err(BadInteger)
    else if m[V].n < MIN_SUPPORTED_PROTOCOL_VERSION || m[V].n > PROTOCOL_VERSION then Err(UnsupportedVersion)
    else Ok(m[V].n)
  }

  function RequireBytes(m: map<Field, Scalar>, field: Field, length: nat): Result<Term, Failure> {
    if field in m && m[field].Bytes? && Length(m[field].t) == length then Ok(m[field].t) else Err(BadField)
  }

  // -- keys ------------------------------------------------------------------

  function DeriveAll(shared: Term, transcript: Term): DerivedKeys {
    DerivedKeys(Derived(shared, transcript, I2RKey), Derived(shared, transcript, I2RPrefix),
                Derived(shared, transcript, R2IKey), Derived(shared, transcript, R2IPrefix),
                Derived(shared, transcript, SessionIdSlice), Derived(shared, transcript, SasSlice))
  }

  function SendDirection(d: DerivedKeys, role: Role): (Term, Term) {
    if role == Initiator then (d.initiatorToResponderKey, d.initiatorToResponderPrefix)
    else (d.responderToInitiatorKey, d.responderToInitiatorPrefix)
  }

  function RecvDirection(d: DerivedKeys, role: Role): (Term, Term) {
    SendDirection(d, role.Other())
  }

  function SealAuth(s: State): Term
    requires s.transcript.Some? && s.derived.Some?
  {
    var (key, prefix) := SendDirection(s.derived.value, s.role);
    var t := s.transcript.value;
    Sealed(s.config.algorithm, key, prefix,
           AuthRecord(IdentityKey(s.config.identity), Signature(s.config.identity, s.role, t),
               Capabilities(s.config.capabilities)),
           t)
  }

  datatype Opened = Opened(identityKey: Term, capabilities: Term, recognised: bool)

  /** The checks of `openAuth`, in their order. */
  function OpenAuth(s: State, value: Value): Result<Opened, Failure>
    requires s.transcript.Some? && s.derived.Some?
  {
    if value.NotAMap? then Err(ExpectedMap)
    else if C !in value.fields || !value.fields[C].Bytes? then Err(MissingCiphertext)
    else
      var (key, prefix) := RecvDirection(s.derived.value, s.role);
      var t := s.transcript.value;
      match Open(s.config.algorithm, key, prefix, value.fields[C].t, t)
      case None => Err(DecryptFailed)
      case Some(plain) =>
        if !plain.AuthRecord? then Err(MalformedAuth)
        else if Length(plain.identityKey) != KEY_LENGTH
            || Length(plain.signature) != SIGNATURE_LENGTH then Err(BadField)
        else if !Verifies(plain.signature, s.role.Other(), t, plain.identityKey) then Err(BadSignature)
        else if plain.identityKey == IdentityKey(s.config.identity) then Err(OwnIdentityPresented)
        else if !plain.capabilities.Capabilities? then Err(BadCapabilities)
        else if plain.identityKey in s.config.trusted && s.config.trusted[plain.identityKey] != plain.identityKey then
          Err(TrustMismatch)
        else Ok(Opened(plain.identityKey, plain.capabilities, plain.identityKey in s.config.trusted))
  }

  function BuildResult(s: State, o: Opened): HandshakeResult
    requires s.transcript.Some? && s.derived.Some?
  {
    var d := s.derived.value;
    var (sendKey, sendPrefix) := SendDirection(d, s.role);
    var (recvKey, recvPrefix) := RecvDirection(d, s.role);
    HandshakeResult(SessionKeys(d.sessionId, sendKey, sendPrefix, recvKey, recvPrefix, s.config.algorithm),
                    o.identityKey, o.capabilities, d.sasSeed, s.transcript.value, o.recognised, s.negotiatedVersion)
  }

  // -- the calls -------------------------------------------------------------

  function CreateInit(s: State): Step<Packet> {
    if s.role != Initiator then Fail(s, WrongRole)
    else if s.phase != Idle then Fail(s, WrongPhase)
    else (s.(phase := SentInit),
          Ok(Body(INIT, Map(map[V := Number(PROTOCOL_VERSION), E := Bytes(Public(s.ephemeral)),
                                N := Bytes(Nonce(s.localNonce)), A := Text(s.config.algorithm)]))))
  }

  /** What both readers of an ephemeral do once it is stored: bind the transcript, derive, advance. */
  function Derive(s: State, transcript: Term): Step<()>
    requires s.peerEphemeral.Some?
  {
    var s1 := s.(transcript := Some(transcript));
    match Agree(s.ephemeral, s.peerEphemeral.value)
    case None => Fail(s1, AgreementFailed)
    case Some(shared) =>
      (s1.(derived := Some(DeriveAll(shared, transcript)), phase := SentResponse), Ok(()))
  }

  function ReadInit(s: State, p: Packet): Step<Packet> {
    if s.role != Responder then Fail(s, WrongRole)
    else if s.phase != Idle then Fail(s, WrongPhase)
    else match ParseBody(p)
      case Err(f) => Fail(s, f)
      case Ok((kind, value)) =>
        if kind != INIT then Fail(s, UnexpectedType)
        else if value.NotAMap? then Fail(s, ExpectedMap)
        else ReadInitFields(s, value.fields)
  }

  function ReadInitFields(s: State, m: map<Field, Scalar>): Step<Packet> {
    match VersionOf(m)
    case Err(f) => Fail(s, f)
    case Ok(version) =>
      var s1 := s.(negotiatedVersion := version);
      match RequireBytes(m, E, KEY_LENGTH)
      case Err(f) => Fail(s1, f)
      case Ok(e) =>
        var s2 := s1.(peerEphemeral := Some(e));
        match RequireBytes(m, N, NONCE_LENGTH)
        case Err(f) => Fail(s2, f)
        case Ok(n) =>
          var s3 := s2.(peerNonce := Some(n));
          if A in m && m[A] != Text(s.config.algorithm) then Fail(s3, UnsupportedAlgorithm)
          else
            var (s4, r) := Derive(s3, Transcript(version, e, n, Public(s.ephemeral), Nonce(s.localNonce)));
            match r
            case Err(f) => (s4, Err(f))
            case Ok(_) =>
              (s4, Ok(Body(RESPONSE, Map(map[V := Number(version), E := Bytes(Public(s.ephemeral)),
                                             N := Bytes(Nonce(s.localNonce))]))))
  }

  function CreateResponderAuth(s: State): Step<Packet>
    requires s.phase == SentResponse ==> s.transcript.Some? && s.derived.Some?
  {
    if s.role != Responder then Fail(s, WrongRole)
    else if s.phase != SentResponse then Fail(s, WrongPhase)
    else (s.(phase := SentAuth), Ok(Body(AUTH_RESPONDER, Map(map[C := Bytes(SealAuth(s))]))))
  }

  function ReadResponse(s: State, p: Packet): Step<()> {
    if s.role != Initiator then Fail(s, WrongRole)
    else if s.phase != SentInit then Fail(s, WrongPhase)
    else match ParseBody(p)
      case Err(f) => Fail(s, f)
      case Ok((kind, value)) =>
        if kind == REJECT then Fail(s, Rejected)
        else if kind != RESPONSE then Fail(s, UnexpectedType)
        else if value.NotAMap? then Fail(s, ExpectedMap)
        else ReadResponseFields(s, value.fields)
  }

  function ReadResponseFields(s: State, m: map<Field, Scalar>): Step<()> {
    match VersionOf(m)
    case Err(f) => Fail(s, f)
    case Ok(version) =>
      var s1 := s.(negotiatedVersion := version);
      match RequireBytes(m, E, KEY_LENGTH)
      case Err(f) => Fail(s1, f)
      case Ok(e) =>
        var s2 := s1.(peerEphemeral := Some(e));
        match RequireBytes(m, N, NONCE_LENGTH)
        case Err(f) => Fail(s2, f)
        case Ok(n) =>
          var s3 := s2.(peerNonce := Some(n));
          if e == Public(s.ephemeral) then Fail(s3, EchoedEphemeral)
          else Derive(s3, Transcript(version, Public(s.ephemeral), Nonce(s.localNonce), e, n))
  }

  /** The common shape of the two calls that consume an auth message. */
  function ReadAuth(s: State, p: Packet, expected: nat): Step<HandshakeResult>
    requires s.transcript.Some? && s.derived.Some?
  {
    match ParseBody(p)
    case Err(f) => Fail(s, f)
    case Ok((kind, value)) =>
      if kind == REJECT then Fail(s, Rejected)
      else if kind != expected then Fail(s, UnexpectedType)
      else match OpenAuth(s, value)
        case Err(f) => Fail(s, f)
        case Ok(o) =>
          var result := BuildResult(s, o);
          (s.(phase := Complete, result := Some(result), secretWiped := true), Ok(result))
  }

  function ReadResponderAuth(s: State, p: Packet): Step<(Packet, HandshakeResult)>
    requires s.phase == SentResponse ==> s.transcript.Some? && s.derived.Some?
  {
    if s.role != Initiator then Fail(s, WrongRole)
    else if s.phase != SentResponse then Fail(s, WrongPhase)
    else
      var (s1, r) := ReadAuth(s, p, AUTH_RESPONDER);
      match r
      case Err(f) => (s1, Err(f))
      case Ok(result) => (s1, Ok((Body(AUTH_INITIATOR, Map(map[C := Bytes(SealAuth(s))])), result)))
  }

  function ReadInitiatorAuth(s: State, p: Packet): Step<HandshakeResult>
    requires s.phase == SentAuth ==> s.transcript.Some? && s.derived.Some?
  {
    if s.role != Responder then Fail(s, WrongRole)
    else if s.phase != SentAuth then Fail(s, WrongPhase)
    else ReadAuth(s, p, AUTH_INITIATOR)
  }

  // -- what a state keeps ----------------------------------------------------

  /** The transcript this side must hold, given what it sent and what it read. */
  function TranscriptOf(s: State): Term
    requires s.peerEphemeral.Some? && s.peerNonce.Some?
  {
    if s.role == Initiator then
      Transcript(s.negotiatedVersion, Public(s.ephemeral), Nonce(s.localNonce), s.peerEphemeral.value,
          s.peerNonce.value)
    else
      Transcript(s.negotiatedVersion, s.peerEphemeral.value, s.peerNonce.value, Public(s.ephemeral),
          Nonce(s.localNonce))
  }

  /** The ciphertext a completed side must have accepted. */
  function Accepted(s: State): Term
    requires s.transcript.Some? && s.derived.Some? && s.result.Some? && s.result.value.peerIdentityKey.IdentityKey?
  {
    var (key, prefix) := RecvDirection(s.derived.value, s.role);
    var r := s.result.value;
    var t := s.transcript.value;
    Sealed(s.config.algorithm, key, prefix,
           AuthRecord(r.peerIdentityKey, Signature(r.peerIdentityKey.id, s.role.Other(), t), r.peerCapabilities), t)
  }

  ghost predicate Valid(s: State) {
    && (s.transcript.Some? ==>
          s.peerEphemeral.Some? && s.peerNonce.Some? && s.transcript.value == TranscriptOf(s) && s.phase != Idle
              && s.phase != SentInit)
    && (s.derived.Some? ==>
          s.transcript.Some? && Agree(s.ephemeral, s.peerEphemeral.value).Some?
          && s.derived.value == DeriveAll(Agree(s.ephemeral, s.peerEphemeral.value).value, s.transcript.value))
    && (s.phase in {SentResponse, SentAuth, Complete} ==> s.derived.Some?)
    && (s.phase == SentAuth ==> s.role == Responder)
    && (s.phase == Complete ==> s.result.Some?)
    && (s.result.Some? ==>
          s.derived.Some? && s.phase in {Complete, Failed} && s.result.value.peerIdentityKey.IdentityKey?
          && s.result.value.peerIdentityKey != IdentityKey(s.config.identity)
          && s.result.value == BuildResult(s, Opened(s.result.value.peerIdentityKey, s.result.value.peerCapabilities,
                                                     s.result.value.recognisedFromTrustStore)))
    && (s.phase == Failed <==> s.failure.Some?)
    && (s.secretWiped <==> s.phase in {Complete, Failed})
  }

  /** What no call ever changes, and what it never takes back once it is there. */
  ghost predicate Persists(s: State, s': State) {
    && s'.role == s.role && s'.config == s.config && s'.ephemeral == s.ephemeral && s'.localNonce == s.localNonce
    && (s.transcript.Some? ==> s'.transcript == s.transcript && s'.negotiatedVersion == s.negotiatedVersion
                               && s'.peerEphemeral == s.peerEphemeral && s'.peerNonce == s.peerNonce)
    && (s.derived.Some? ==> s'.derived == s.derived)
    && (s.result.Some? ==> s'.result == s.result)
    && (s.phase == Failed ==> s'.phase == Failed)
  }

  /** A completed result rests on a ciphertext that was really delivered. */
  ghost predicate AcceptedFrom(s: State, s': State, p: Packet) {
    s.result.None? && s'.result.Some? ==>
      Valid(s') && p.Body? && p.value.Map? && C in p.value.fields && p.value.fields[C] == Bytes(Accepted(s'))
  }

  lemma OpeningsKeepValid(s: State)
    requires Valid(s)
    ensures Valid(CreateInit(s).0) && Persists(s, CreateInit(s).0)
    ensures Valid(CreateResponderAuth(s).0) && Persists(s, CreateResponderAuth(s).0)
  {
  }

  lemma ReadInitKeepsValid(s: State, p: Packet)
    requires Valid(s)
    ensures Valid(ReadInit(s, p).0) && Persists(s, ReadInit(s, p).0)
    ensures ReadInit(s, p).0.result == s.result
  {
  }

  lemma ReadResponseKeepsValid(s: State, p: Packet)
    requires Valid(s)
    ensures Valid(ReadResponse(s, p).0) && Persists(s, ReadResponse(s, p).0)
    ensures ReadResponse(s, p).0.result == s.result
  {
  }

  lemma ReadAuthKeepsValid(s: State, p: Packet, expected: nat)
    requires Valid(s) && s.phase in {SentResponse, SentAuth}
    ensures Valid(ReadAuth(s, p, expected).0) && Persists(s, ReadAuth(s, p, expected).0)
    ensures AcceptedFrom(s, ReadAuth(s, p, expected).0, p)
  {
    var (s', r) := ReadAuth(s, p, expected);
    if s'.result.Some? && s.result.None? {
      var o := OpenAuth(s, p.value).value;
      assert o.identityKey.IdentityKey?;
      var plain := p.value.fields[C].t.plaintext;
      assert plain == AuthRecord(o.identityKey, Signature(o.identityKey.id, s.role.Other(), s.transcript.value),
          o.capabilities);
    }
  }

  lemma AuthReadersKeepValid(s: State, p: Packet)
    requires Valid(s)
    ensures Valid(ReadResponderAuth(s, p).0) && Persists(s, ReadResponderAuth(s, p).0)
    ensures Valid(ReadInitiatorAuth(s, p).0) && Persists(s, ReadInitiatorAuth(s, p).0)
    ensures AcceptedFrom(s, ReadResponderAuth(s, p).0, p)
    ensures AcceptedFrom(s, ReadInitiatorAuth(s, p).0, p)
  {
    if s.phase == SentResponse { ReadAuthKeepsValid(s, p, AUTH_RESPONDER); }
    if s.phase == SentAuth { ReadAuthKeepsValid(s, p, AUTH_INITIATOR); }
  }
}
