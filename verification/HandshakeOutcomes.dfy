/** When a call of the handshake succeeds, how it moves the side on, and that a refusal ends it for good. */
module HandshakeOutcomes {
  import opened Wrappers
  import opened SymbolicCrypto
  import opened HandshakeSpec
  import opened HandshakeWorld

  /** The six calls. */
  datatype Call =
    | CreatesInit
    | ReadsInit(p: Packet)
    | CreatesAuth
    | ReadsResponse(p: Packet)
    | ReadsResponderAuth(p: Packet)
    | ReadsInitiatorAuth(p: Packet)

  function ErrorIn<T>(r: Result<T, Failure>): Option<Failure> {
    if r.Err? then Some(r.error) else None
  }

  /** The state a call leaves and the error it throws, if any. */
  function Made(s: State, c: Call): (State, Option<Failure>)
    requires Valid(s)
  {
    match c
    case CreatesInit => (CreateInit(s).0, ErrorIn(CreateInit(s).1))
    case ReadsInit(p) => (ReadInit(s, p).0, ErrorIn(ReadInit(s, p).1))
    case CreatesAuth => (CreateResponderAuth(s).0, ErrorIn(CreateResponderAuth(s).1))
    case ReadsResponse(p) => (ReadResponse(s, p).0, ErrorIn(ReadResponse(s, p).1))
    case ReadsResponderAuth(p) => (ReadResponderAuth(s, p).0, ErrorIn(ReadResponderAuth(s, p).1))
    case ReadsInitiatorAuth(p) => (ReadInitiatorAuth(s, p).0, ErrorIn(ReadInitiatorAuth(s, p).1))
  }

  // -- a refusal -------------------------------------------------------------

  /** The side is failed for this reason, its ephemeral secret is gone, and it has no new result. */
  ghost predicate EndedBy(s: State, s': State, f: Failure) {
    s'.phase == Failed && s'.secretWiped && s'.failure == Some(f) && s'.result == s.result
  }

  /** Whatever call throws, whatever it was given: the handshake is over. */
  lemma ErrorsEndTheHandshake(s: State, c: Call)
    requires Valid(s)
    ensures var (s', error) := Made(s, c);
            error.Some? ==> EndedBy(s, s', error.value)
  {
    match c
    case ReadsResponderAuth(p) => if s.phase == SentResponse { RefusedAuthEnds(s, p, AUTH_RESPONDER); }
    case ReadsInitiatorAuth(p) => if s.phase == SentAuth { RefusedAuthEnds(s, p, AUTH_INITIATOR); }
    case _ =>
  }

  lemma RefusedAuthEnds(s: State, p: Packet, expected: nat)
    requires s.transcript.Some? && s.derived.Some?
    ensures var (s', r) := ReadAuth(s, p, expected);
            r.Err? ==> EndedBy(s, s', r.error)
  {
    hide OpenAuth, BuildResult;
  }

  /** A failed side refuses every further call. */
  lemma FailedRefusesEverything(s: State, c: Call)
    requires Valid(s) && s.phase == Failed
    ensures Made(s, c).1.Some? && Made(s, c).0.phase == Failed && Made(s, c).0.result == s.result
  {
    ErrorsEndTheHandshake(s, c);
  }

  // -- a success -------------------------------------------------------------

  /** The only moves a side makes: each call succeeds in one role and one phase and leads to one other. */
  lemma SuccessesAdvance(s: State, c: Call)
    requires Valid(s) && Made(s, c).1.None?
    ensures
      var s' := Made(s, c).0;
      && s'.failure.None?
      && match c
         case CreatesInit => s.role == Initiator && s.phase == Idle && s'.phase == SentInit
         case ReadsInit(_) => s.role == Responder && s.phase == Idle && s'.phase == SentResponse
         case CreatesAuth => s.role == Responder && s.phase == SentResponse && s'.phase == SentAuth
         case ReadsResponse(_) => s.role == Initiator && s.phase == SentInit && s'.phase == SentResponse
         case ReadsResponderAuth(_) => s.role == Initiator && s.phase == SentResponse && Completes(s')
         case ReadsInitiatorAuth(_) => s.role == Responder && s.phase == SentAuth && Completes(s')
  {
    match c
    case ReadsResponderAuth(p) => hide OpenAuth, BuildResult;
    case ReadsInitiatorAuth(p) => hide OpenAuth, BuildResult;
    case _ =>
  }

  predicate Completes(s: State) {
    s.phase == Complete && s.result.Some? && s.secretWiped
  }

  /** The fields of an opening message: version 1, a usable 32-byte key, a 16-byte nonce. */
  predicate Opening(m: map<Field, Scalar>) {
    && V in m && m[V] == Number(1)
    && E in m && m[E].Bytes? && Length(m[E].t) == 32 && m[E].t != LowOrder
    && N in m && m[N].Bytes? && Length(m[N].t) == 16
  }

  /** Sealed by `x` in the other role, over this very transcript, under the key that direction uses. */
  ghost predicate GenuineAuth(s: State, c: Term, x: nat, capabilities: nat)
    requires s.transcript.Some? && s.peerEphemeral.Some? && Agree(s.ephemeral, s.peerEphemeral.value).Some?
  {
    var (secret, t) := (Agree(s.ephemeral, s.peerEphemeral.value).value, s.transcript.value);
    var (key, prefix) := if s.role == Initiator then (R2IKey, R2IPrefix) else (I2RKey, I2RPrefix);
    c == Sealed(s.config.algorithm, Derived(secret, t, key), Derived(secret, t, prefix),
                AuthRecord(IdentityKey(x), Signature(x, s.role.Other(), t), Capabilities(capabilities)), t)
  }

  /** Another identity, and not one whose peer id is stored with a different key. */
  predicate Welcome(config: Config, x: nat) {
    x != config.identity && (IdentityKey(x) in config.trusted ==> config.trusted[IdentityKey(x)] == IdentityKey(x))
  }

  ghost predicate AuthOk(s: State, p: Packet, kind: nat)
    requires s.transcript.Some? && s.peerEphemeral.Some? && Agree(s.ephemeral, s.peerEphemeral.value).Some?
  {
    && p.Body? && p.kind == kind && p.value.Map? && C in p.value.fields && p.value.fields[C].Bytes?
    && exists x, capabilities :: GenuineAuth(s, p.value.fields[C].t, x, capabilities) && Welcome(s.config, x)
  }

  lemma AuthAcceptedExactly(s: State, p: Packet, expected: nat)
    requires Valid(s) && s.derived.Some? && expected != REJECT
    ensures ReadAuth(s, p, expected).1.Ok? <==> AuthOk(s, p, expected)
  {
    if ReadAuth(s, p, expected).1.Ok? {
      var plain := p.value.fields[C].t.plaintext;
      assert GenuineAuth(s, p.value.fields[C].t, plain.identityKey.id, plain.capabilities.id);
      assert Welcome(s.config, plain.identityKey.id);
    }
  }

  /** When a call succeeds, told without its checks. */
  ghost predicate Proper(s: State, c: Call)
    requires Valid(s)
  {
    match c
    case CreatesInit => s.role == Initiator && s.phase == Idle
    case ReadsInit(p) =>
      && s.role == Responder && s.phase == Idle
      && p.Body? && p.kind == 0x01 && p.value.Map? && Opening(p.value.fields)
      && (A in p.value.fields ==> p.value.fields[A] == Text(s.config.algorithm))
    case CreatesAuth => s.role == Responder && s.phase == SentResponse
    case ReadsResponse(p) =>
      && s.role == Initiator && s.phase == SentInit
      && p.Body? && p.kind == 0x02 && p.value.Map? && Opening(p.value.fields)
      && p.value.fields[E].t != Public(s.ephemeral)
    case ReadsResponderAuth(p) => s.role == Initiator && s.phase == SentResponse && AuthOk(s, p, 0x03)
    case ReadsInitiatorAuth(p) => s.role == Responder && s.phase == SentAuth && AuthOk(s, p, 0x04)
  }

  /** A call succeeds exactly when it comes in turn and what it reads is proper. */
  lemma SucceedsExactlyWhenProper(s: State, c: Call)
    requires Valid(s)
    ensures Made(s, c).1.None? <==> Proper(s, c)
  {
    match c
    case ReadsResponderAuth(p) =>
      hide ReadAuth, AuthOk;
      if s.phase == SentResponse { AuthAcceptedExactly(s, p, AUTH_RESPONDER); }
    case ReadsInitiatorAuth(p) =>
      hide ReadAuth, AuthOk;
      if s.phase == SentAuth { AuthAcceptedExactly(s, p, AUTH_INITIATOR); }
    case _ =>
  }

  // -- over runs -------------------------------------------------------------

  /** Making a call of instance `i` an event of the network. */
  function Calling(i: nat, c: Call): Event {
    match c
    case CreatesInit => CallCreateInit(i)
    case ReadsInit(p) => CallReadInit(i, p)
    case CreatesAuth => CallCreateAuth(i)
    case ReadsResponse(p) => CallReadResponse(i, p)
    case ReadsResponderAuth(p) => CallReadResponderAuth(i, p)
    case ReadsInitiatorAuth(p) => CallReadInitiatorAuth(i, p)
  }

  /** An event leaves an instance alone or is one of its calls. */
  lemma InstanceStep(w: World, e: Event, i: nat) returns (c: Option<Call>)
    requires AllValid(w) && i < |w.instances|
    ensures |Next(w, e).instances| >= |w.instances|
    ensures Next(w, e).instances[i] == match c case None => w.instances[i] case Some(x) => Made(w.instances[i], x).0
  {
    hide CreateInit, ReadInit, CreateResponderAuth, ReadResponse, ReadResponderAuth, ReadInitiatorAuth, Conclusions,
         Payload, Valid;
    c := match e
      case CallCreateInit(j) => if j == i then Some(CreatesInit) else None
      case CallReadInit(j, p) => if j == i && Ready(w, j, p) then Some(ReadsInit(p)) else None
      case CallCreateAuth(j) => if j == i then Some(CreatesAuth) else None
      case CallReadResponse(j, p) => if j == i && Ready(w, j, p) then Some(ReadsResponse(p)) else None
      case CallReadResponderAuth(j, p) => if j == i && Ready(w, j, p) then Some(ReadsResponderAuth(p)) else None
      case CallReadInitiatorAuth(j, p) => if j == i && Ready(w, j, p) then Some(ReadsInitiatorAuth(p)) else None
      case _ => None;
  }

  lemma {:induction false} FailedStaysFailed(w: World, events: seq<Event>, i: nat)
    requires Inv(w) && i < |w.instances| && w.instances[i].phase == Failed && w.instances[i].result.None?
    ensures Run(w, events).instances[i].phase == Failed && Run(w, events).instances[i].result.None?
    decreases |events|
  {
    hide Made, Valid, Next, Clean, Accepted;
    if events != [] {
      assert InstanceOk(w, w.instances[i]) && AllValid(w);
      var c := InstanceStep(w, events[0], i);
      if c.Some? { FailedRefusesEverything(w.instances[i], c.value); }
      NextKeepsInv(w, events[0]);
      FailedStaysFailed(Next(w, events[0]), events[1..], i);
    }
  }

  /** What a call reads is on the network. */
  ghost predicate Deliverable(w: World, c: Call) {
    match c
    case CreatesInit => true
    case CreatesAuth => true
    case ReadsInit(p) => Payload(p) <= w.knowledge
    case ReadsResponse(p) => Payload(p) <= w.knowledge
    case ReadsResponderAuth(p) => Payload(p) <= w.knowledge
    case ReadsInitiatorAuth(p) => Payload(p) <= w.knowledge
  }

  /**
    Over every run: once a call on a side without a result has thrown, that side never has
    one, whatever is delivered to it and whatever leaks afterwards.
   */
  lemma RefusedSideNeverCompletes(before: seq<Event>, c: Call, after: seq<Event>, i: nat)
    requires var w := Reach(before);
             i < |w.instances| && Deliverable(w, c) && w.instances[i].result.None? && Made(w.instances[i], c).1.Some?
    ensures
      var w := Run(Reach(before), [Calling(i, c)] + after);
      i < |w.instances| && w.instances[i].phase == Failed && w.instances[i].result.None?
  {
    hide Made, Valid, Next, Clean, Accepted, Reach;
    var w := Reach(before);
    assert InstanceOk(w, w.instances[i]) && ([Calling(i, c)] + after)[1..] == after;
    NextKeepsInv(w, Calling(i, c));
    CallIsMade(w, i, c);
    ErrorsEndTheHandshake(w.instances[i], c);
    FailedStaysFailed(Next(w, Calling(i, c)), after, i);
  }

  lemma CallIsMade(w: World, i: nat, c: Call)
    requires AllValid(w) && i < |w.instances| && Deliverable(w, c)
    ensures i < |Next(w, Calling(i, c)).instances| && Next(w, Calling(i, c)).instances[i] == Made(w.instances[i], c).0
  {
    hide CreateInit, ReadInit, CreateResponderAuth, ReadResponse, ReadResponderAuth, ReadInitiatorAuth, Payload, Valid;
  }
}
