/**
  What the handshake is for, over every run: agreement with the identity that was named,
  mirrored keys, no replay, lasting secrecy, a code to compare.
 */
module HandshakeSecurity {
  import opened Wrappers
  import opened SymbolicCrypto
  import opened HandshakeSpec
  import opened HandshakeWorld

  /** Opposite ends of one exchange. */
  ghost predicate Matches(s: State, s': State) {
    s.transcript.Some? && s'.transcript == s.transcript && s'.role == s.role.Other()
  }

  /** What one side sends under, the other receives under; everything else is the same. */
  ghost predicate Mirrored(r: HandshakeResult, r': HandshakeResult) {
    && r.keys.sessionId == r'.keys.sessionId && r.sasCodeSeed == r'.sasCodeSeed
    && r.keys.sendKey == r'.keys.recvKey && r.keys.sendNoncePrefix == r'.keys.recvNoncePrefix
    && r.keys.recvKey == r'.keys.sendKey && r.keys.recvNoncePrefix == r'.keys.sendNoncePrefix
    && r.transcriptHash == r'.transcriptHash && r.negotiatedProtocolVersion == r'.negotiatedProtocolVersion
  }

  /** `s` completed and names the identity and the capabilities of `s'`. */
  ghost predicate Names(s: State, s': State) {
    s.result.Some? && s.result.value.peerIdentityKey == IdentityKey(s'.config.identity)
    && s.result.value.peerCapabilities == Capabilities(s'.config.capabilities)
    && s.config.algorithm == s'.config.algorithm
  }

  lemma MatchedEphemerals(s: State, s': State)
    requires Valid(s) && Valid(s') && Matches(s, s')
    ensures s.peerEphemeral == Some(Public(s'.ephemeral)) && s'.peerEphemeral == Some(Public(s.ephemeral))
    ensures s.negotiatedVersion == s'.negotiatedVersion
    ensures Agree(s.ephemeral, s.peerEphemeral.value) == Agree(s'.ephemeral, s'.peerEphemeral.value)
  {
    assert TranscriptOf(s) == TranscriptOf(s');
    AgreeSymmetric(s.ephemeral, s'.ephemeral);
  }

  /** Opposite ends that completed hold one set of keys, mirrored. */
  lemma MatchingKeys(s: State, s': State)
    requires Valid(s) && Valid(s') && Matches(s, s') && s.result.Some? && s'.result.Some?
    ensures Mirrored(s.result.value, s'.result.value)
  {
    MatchedEphemerals(s, s');
  }

  /** A transcript identifies the exchange: only the two ends of it can share one. */
  lemma TranscriptIsUnique(w: World, i: nat, j: nat)
    requires Inv(w) && i < |w.instances| && j < |w.instances| && i != j
    requires w.instances[i].transcript.Some? && w.instances[i].transcript == w.instances[j].transcript
    ensures Matches(w.instances[i], w.instances[j])
  {
    var s, s' := w.instances[i], w.instances[j];
    assert InstanceOk(w, s) && InstanceOk(w, s');
    assert s.ephemeral != s'.ephemeral;
    assert TranscriptOf(s) == TranscriptOf(s');
  }

  /** Between honest ends only the other end can have produced what one end accepted. */
  lemma CompletedNamesOtherEnd(w: World, i: nat, j: nat)
    requires Inv(w) && i < |w.instances| && j < |w.instances|
    requires Matches(w.instances[i], w.instances[j]) && w.instances[i].result.Some?
    ensures Names(w.instances[i], w.instances[j])
  {
    var s, s' := w.instances[i], w.instances[j];
    assert InstanceOk(w, s) && InstanceOk(w, s');
    MatchedEphemerals(s, s');
    AgreeSymmetric(s.ephemeral, s'.ephemeral);
    var c := Accepted(s);
    assert Clean(w, c);
    var shared := c.key.secret;
    assert shared.a in {s.ephemeral, s'.ephemeral} && shared.b in {s.ephemeral, s'.ephemeral};
    assert !Exposed(w, shared);
    var k :| 0 <= k < |w.instances| && Sealer(w.instances[k], c);
    var q := w.instances[k];
    assert InstanceOk(w, q);
    assert q.transcript == s.transcript && q.role == s'.role;
    if k != j { TranscriptIsUnique(w, k, j); }
  }

  /**
    Two honest ends that both completed on one transcript name each other and hold
    mirrored keys, whatever long-term keys the attacker has: a session cannot be bound to
    the wrong identity.
   */
  lemma MutualIdentity(w: World, i: nat, j: nat)
    requires Inv(w) && i < |w.instances| && j < |w.instances|
    requires Matches(w.instances[i], w.instances[j]) && w.instances[i].result.Some? && w.instances[j].result.Some?
    ensures Names(w.instances[i], w.instances[j]) && Names(w.instances[j], w.instances[i])
    ensures Mirrored(w.instances[i].result.value, w.instances[j].result.value)
  {
    assert InstanceOk(w, w.instances[i]) && InstanceOk(w, w.instances[j]);
    CompletedNamesOtherEnd(w, i, j);
    CompletedNamesOtherEnd(w, j, i);
    MatchingKeys(w.instances[i], w.instances[j]);
  }

  /** Instance `i` has completed in `w`, naming `x`, whose key the attacker did not have yet. */
  ghost predicate CompletedWith(w: World, i: nat, x: nat) {
    i < |w.instances| && w.instances[i].result.Some?
    && w.instances[i].result.value.peerIdentityKey == IdentityKey(x) && x !in w.compromised
  }

  /** `j` is the honest partner that `i` believes in. */
  ghost predicate PartnerOf(w: World, i: nat, j: nat, x: nat) {
    i < |w.instances| && j < |w.instances|
    && w.instances[j].config.identity == x && Matches(w.instances[i], w.instances[j])
    && Names(w.instances[i], w.instances[j])
    && (w.instances[i].role == Responder ==>
          w.instances[j].result.Some? && Names(w.instances[j], w.instances[i])
          && Mirrored(w.instances[i].result.value, w.instances[j].result.value))
  }

  lemma PartnerExists(w: World, i: nat, x: nat) returns (j: nat)
    requires Inv(w) && CompletedWith(w, i, x)
    ensures PartnerOf(w, i, j, x)
  {
    var s := w.instances[i];
    assert InstanceOk(w, s);
    assert Clean(w, Accepted(s)) && Clean(w, Accepted(s).plaintext);
    assert Clean(w, Signature(x, s.role.Other(), s.transcript.value));
    j :| 0 <= j < |w.instances| && Signer(w.instances[j], x, s.role.Other(), s.transcript.value);
    CompletedNamesOtherEnd(w, i, j);
    if s.role == Responder { MutualIdentity(w, i, j); }
  }

  /**
    Agreement.  Over every run: a side that completed naming an identity whose key was
    still that identity's own has, then and ever after, an honest partner of that identity
    in the opposite role with the same transcript.  Seen from the responder, who finishes
    last, the partner has completed too and names the responder.
   */
  lemma Agreement(before: seq<Event>, after: seq<Event>, i: nat, x: nat)
    requires CompletedWith(Reach(before), i, x)
    ensures exists j :: PartnerOf(Run(Reach(before), after), i, j, x)
  {
    hide Next, SignedBy, SealedBy;
    var w := Reach(before);
    var w' := Run(w, after);
    var j := PartnerExists(w, i, x);
    assert Persists(w.instances[i], w'.instances[i]) && Persists(w.instances[j], w'.instances[j]);
    assert PartnerOf(w', i, j, x);
  }

  /**
    Secrecy with forward secrecy.  The attacker never learns a traffic key of a side that
    completed naming an identity uncompromised at that moment, even when every long-term
    key leaks in the rest of the run.
   */
  lemma KeysStaySecret(before: seq<Event>, after: seq<Event>, i: nat, x: nat)
    requires CompletedWith(Reach(before), i, x)
    ensures var keys := Reach(before).instances[i].result.value.keys;
            var w' := Run(Reach(before), after);
            keys.sendKey !in w'.knowledge && keys.recvKey !in w'.knowledge
  {
    hide Next, SignedBy, SealedBy, Valid, Clean;
    var w := Reach(before);
    var w' := Run(w, after);
    var j := PartnerExists(w, i, x);
    var s, s' := w.instances[i], w.instances[j];
    assert InstanceOk(w, s) && InstanceOk(w, s');
    assert InstanceOk(w', w'.instances[i]) && InstanceOk(w', w'.instances[j]);
    assert Persists(s, w'.instances[i]) && Persists(s', w'.instances[j]);
    var shared := KeysOfMatched(s, s');
    UnexposedKey(w', shared, s.result.value.keys.sendKey);
    UnexposedKey(w', shared, s.result.value.keys.recvKey);
  }

  /** Both traffic keys come from the secret two honest ephemerals share. */
  lemma KeysOfMatched(s: State, s': State) returns (shared: Term)
    requires Valid(s) && Valid(s') && Matches(s, s') && s.result.Some?
    ensures shared.Shared? && shared.a in {s.ephemeral, s'.ephemeral} && shared.b in {s.ephemeral, s'.ephemeral}
    ensures var keys := s.result.value.keys;
            keys.sendKey.Derived? && keys.sendKey.secret == shared && keys.recvKey.Derived?
                && keys.recvKey.secret == shared
  {
    MatchedEphemerals(s, s');
    AgreeSymmetric(s.ephemeral, s'.ephemeral);
    shared := s.result.value.keys.sendKey.secret;
  }

  lemma UnexposedKey(w: World, shared: Term, key: Term)
    requires Inv(w) && shared.Shared? && key.Derived? && key.secret == shared
    requires Secret(shared.a) !in w.knowledge && Secret(shared.b) !in w.knowledge
    ensures key !in w.knowledge
  {
    hide InstanceOk, Distinct;
    assert !Exposed(w, shared);
    assert !Clean(w, key);
  }

  /**
    First contact.  When two honest sides hold the same short-authentication seed they are
    the two ends of one exchange, they name each other and their keys mirror; an attacker
    in the middle gives them different seeds.
   */
  lemma SameSasSameSession(events: seq<Event>, i: nat, j: nat)
    requires var w := Reach(events);
             i < |w.instances| && j < |w.instances| && i != j
             && w.instances[i].result.Some? && w.instances[j].result.Some?
    ensures var w := Reach(events);
            var r, r' := w.instances[i].result.value, w.instances[j].result.value;
            r.sasCodeSeed == r'.sasCodeSeed <==>
              Matches(w.instances[i], w.instances[j]) && Mirrored(r, r')
              && Names(w.instances[i], w.instances[j]) && Names(w.instances[j], w.instances[i])
  {
    var w := Reach(events);
    var s, s' := w.instances[i], w.instances[j];
    assert InstanceOk(w, s) && InstanceOk(w, s');
    if s.result.value.sasCodeSeed == s'.result.value.sasCodeSeed {
      assert s.transcript == s'.transcript;
      TranscriptIsUnique(w, i, j);
      MutualIdentity(w, i, j);
    }
  }

  /** Nothing recorded completes a second side: completed sides of one role have different sessions. */
  lemma NoReplay(events: seq<Event>, i: nat, j: nat)
    requires var w := Reach(events);
             i < |w.instances| && j < |w.instances| && i != j
             && w.instances[i].result.Some? && w.instances[j].result.Some? && w.instances[i].role == w.instances[j].role
    ensures var r, r' := Reach(events).instances[i].result.value, Reach(events).instances[j].result.value;
            r.transcriptHash != r'.transcriptHash && r.keys.sessionId != r'.keys.sessionId
            && r.keys.sendKey != r'.keys.sendKey && r.keys.recvKey != r'.keys.recvKey
  {
    var w := Reach(events);
    assert InstanceOk(w, w.instances[i]) && InstanceOk(w, w.instances[j]);
    if w.instances[i].transcript == w.instances[j].transcript { TranscriptIsUnique(w, i, j); }
  }

  // -- the faithful network --------------------------------------------------

  predicate Trusts(config: Config, identity: nat) {
    IdentityKey(identity) in config.trusted ==> config.trusted[IdentityKey(identity)] == IdentityKey(identity)
  }

  /** The two auth messages, carried faithfully. */
  function AuthExchange(i2: State, r1: State): (State, State)
    requires Valid(i2) && Valid(r1)
  {
    var (r2, authR) := CreateResponderAuth(r1);
    OpeningsKeepValid(r1);
    if authR.Err? then (i2, r2) else
    var (i3, authI) := ReadResponderAuth(i2, authR.value);
    if authI.Err? then (i3, r2) else
    (i3, ReadInitiatorAuth(r2, authI.value.0).0)
  }

  /** The four messages, carried faithfully. */
  function Exchange(initiator: State, responder: State): (State, State)
    requires Valid(initiator) && Valid(responder)
  {
    var (i1, init) := CreateInit(initiator);
    OpeningsKeepValid(initiator);
    if init.Err? then (i1, responder) else
    var (r1, response) := ReadInit(responder, init.value);
    ReadInitKeepsValid(responder, init.value);
    if response.Err? then (i1, r1) else
    var i2 := ReadResponse(i1, response.value).0;
    ReadResponseKeepsValid(i1, response.value);
    AuthExchange(i2, r1)
  }

  /** After INIT and RESPONSE both ends have derived, from one transcript. */
  lemma KeyExchange(i0: State, r0: State)
    requires i0 == New(Initiator, i0.config, i0.ephemeral, i0.localNonce)
    requires r0 == New(Responder, r0.config, r0.ephemeral, r0.localNonce)
    requires i0.ephemeral != r0.ephemeral
    ensures var (i1, init) := CreateInit(i0);
            init.Ok? && Valid(i1)
            && var (r1, response) := ReadInit(r0, init.value);
               Valid(r1) && (response.Ok? <==> i0.config.algorithm == r0.config.algorithm)
               && (response.Ok? ==>
                     var (i2, done) := ReadResponse(i1, response.value);
                     done.Ok? && Valid(i2) && Matches(i2, r1) && i2.phase == SentResponse && r1.phase == SentResponse
                     && Persists(i0, i2) && Persists(r0, r1) && i2.result.None? && r1.result.None?)
  {
    hide Valid;
    AgreeSymmetric(i0.ephemeral, r0.ephemeral);
    OpeningsKeepValid(i0);
    var (i1, init) := CreateInit(i0);
    ReadInitKeepsValid(r0, init.value);
    var (r1, response) := ReadInit(r0, init.value);
    if response.Ok? { ReadResponseKeepsValid(i1, response.value); }
  }

  /** The auth message of the other end passes exactly when its identity is acceptable. */
  lemma AuthPasses(s: State, s': State, kind: nat)
    requires Valid(s) && Valid(s') && Matches(s, s') && s.derived.Some? && s'.derived.Some?
    requires s.config.algorithm == s'.config.algorithm && kind != REJECT
    ensures var r := ReadAuth(s, Body(kind, Map(map[C := Bytes(SealAuth(s'))])), kind).1;
            (r.Ok? <==> s.config.identity != s'.config.identity && Trusts(s.config, s'.config.identity))
            && (r.Ok? ==> r.value == BuildResult(s, Opened(IdentityKey(s'.config.identity),
                                                           Capabilities(s'.config.capabilities),
                                                           IdentityKey(s'.config.identity) in s.config.trusted)))
  {
    MatchedEphemerals(s, s');
    var value := Map(map[C := Bytes(SealAuth(s'))]);
    assert C in value.fields && value.fields[C] == Bytes(SealAuth(s'));
    var (key, prefix) := RecvDirection(s.derived.value, s.role);
    assert Open(s.config.algorithm, key, prefix, SealAuth(s'), s.transcript.value) == Some(SealAuth(s').plaintext);
  }

  lemma FaithfulAuth(i2: State, r1: State)
    requires Valid(i2) && Valid(r1) && Matches(i2, r1) && i2.role == Initiator
    requires i2.phase == SentResponse && r1.phase == SentResponse && i2.config.algorithm == r1.config.algorithm
    ensures var (i, r) := AuthExchange(i2, r1);
            Valid(i) && Valid(r) && Persists(i2, i) && Persists(r1, r)
            && (i.phase == Complete && r.phase == Complete <==>
                  i.config.identity != r.config.identity && Trusts(i.config, r.config.identity)
                      && Trusts(r.config, i.config.identity))
            && (i.phase == Complete && r.phase == Complete ==>
                  Names(i, r) && Names(r, i)
                  && (i.result.value.recognisedFromTrustStore <==> IdentityKey(r.config.identity) in i.config.trusted)
                  && (r.result.value.recognisedFromTrustStore <==> IdentityKey(i.config.identity) in r.config.trusted))
  {
    OpeningsKeepValid(r1);
    var (r2, authR) := CreateResponderAuth(r1);
    AuthPasses(i2, r2, AUTH_RESPONDER);
    AuthReadersKeepValid(i2, authR.value);
    var (i3, authI) := ReadResponderAuth(i2, authR.value);
    if authI.Ok? {
      AuthReadersKeepValid(r2, authI.value.0);
      AuthPasses(r2, i3, AUTH_INITIATOR);
    }
  }

  /**
    A faithful network completes both sides exactly when they speak one algorithm, are
    different identities and neither has stored another key for the other's peer id; they
    then name each other under mirrored keys.
   */
  lemma FaithfulExchange(a: Config, b: Config, e: nat, f: nat)
    requires e != f
    ensures var (i, r) := Exchange(New(Initiator, a, e, e), New(Responder, b, f, f));
            (i.phase == Complete && r.phase == Complete <==>
               a.algorithm == b.algorithm && a.identity != b.identity && Trusts(a, b.identity) && Trusts(b, a.identity))
            && (i.phase == Complete && r.phase == Complete ==>
                  Matches(i, r) && Names(i, r) && Names(r, i) && Mirrored(i.result.value, r.result.value)
                  && (i.result.value.recognisedFromTrustStore <==> IdentityKey(b.identity) in a.trusted)
                  && (r.result.value.recognisedFromTrustStore <==> IdentityKey(a.identity) in b.trusted))
  {
    var i0, r0 := New(Initiator, a, e, e), New(Responder, b, f, f);
    KeyExchange(i0, r0);
    var (i1, init) := CreateInit(i0);
    var (r1, response) := ReadInit(r0, init.value);
    if response.Ok? {
      var i2 := ReadResponse(i1, response.value).0;
      FaithfulAuth(i2, r1);
      var (i, r) := AuthExchange(i2, r1);
      assert (i, r) == Exchange(i0, r0);
      if i.phase == Complete && r.phase == Complete { MatchingKeys(i, r); }
    }
  }
}
