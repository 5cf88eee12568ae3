/**
  Any number of handshakes over a network that an attacker owns.  The attacker reads every
  message, decides what is delivered where and when, builds messages out of anything it
  can derive, and may at any time obtain an identity's long-term key.  A run is any list of
  events; an event that is not possible leaves the world alone.
 */
module HandshakeWorld {
  import opened Wrappers
  import opened SymbolicCrypto
  import opened HandshakeSpec

  datatype World = World(next: nat, instances: seq<State>, knowledge: set<Term>, compromised: set<nat>)

  const NEW_WORLD := World(0, [], {}, {})

  /** One step of attacker reasoning. */
  datatype Deduction =
    | PublicConstant(t: Term)                 // identity keys, capabilities, low-order points, arbitrary bytes
    | FreshSecret                             // an ephemeral of its own
    | PublicOf(id: nat)
    | Exponentiate(id: nat, t: Term)
    | HashTranscript(version: nat, eI: Term, nI: Term, eR: Term, nR: Term)
    | Kdf(secret: Term, salt: Term, slice: Slice)
    | Sign(id: nat, context: Role, message: Term)
    | Encrypt(algorithm: Algorithm, key: Term, prefix: Term, plaintext: Term, associatedData: Term)
    | Decrypt(ciphertext: Term)
    | Encode(identityKey: Term, signature: Term, capabilities: Term)
    | Decode(t: Term)

  datatype Event =
    | Spawn(role: Role, config: Config)
    | CallCreateInit(i: nat)
    | CallReadInit(i: nat, p: Packet)
    | CallCreateAuth(i: nat)
    | CallReadResponse(i: nat, p: Packet)
    | CallReadResponderAuth(i: nat, p: Packet)
    | CallReadInitiatorAuth(i: nat, p: Packet)
    | Compromise(identity: nat)
    | Deduce(d: Deduction)

  // -- the attacker ----------------------------------------------------------

  predicate Constant(t: Term) {
    t.IdentityKey? || t.Capabilities? || t.LowOrder? || t.Junk?
  }

  /** The terms a deduction adds, when its premises are known; nothing otherwise. */
  function Conclusions(w: World, d: Deduction): set<Term> {
    var k := w.knowledge;
    match d
    case PublicConstant(t) => if Constant(t) then {t} else {}
    case FreshSecret => {Secret(w.next), Public(w.next), Nonce(w.next)}
    case PublicOf(id) => if Secret(id) in k then {Public(id)} else {}
    case Exponentiate(id, t) =>
      if Secret(id) in k && t in k && Agree(id, t).Some? then {Agree(id, t).value} else {}
    case HashTranscript(v, eI, nI, eR, nR) =>
      if eI in k && nI in k && eR in k && nR in k then {Transcript(v, eI, nI, eR, nR)} else {}
    case Kdf(secret, salt, slice) => if secret in k && salt in k then {Derived(secret, salt, slice)} else {}
    case Sign(id, context, message) =>
      if SigningKey(id) in k && message in k then {Signature(id, context, message)} else {}
    case Encrypt(alg, key, prefix, plain, ad) =>
      if key in k && prefix in k && plain in k && ad in k then {Sealed(alg, key, prefix, plain, ad)} else {}
    case Decrypt(c) => if c in k && c.Sealed? && c.key in k then {c.plaintext} else {}
    case Encode(ik, sg, cp) => if ik in k && sg in k && cp in k then {AuthRecord(ik, sg, cp)} else {}
    case Decode(t) => if t in k && t.AuthRecord? then {t.identityKey, t.signature, t.capabilities} else {}
  }

  /** The byte strings carried by a packet. */
  function Payload(p: Packet): set<Term> {
    if p.Body? && p.value.Map? then
      set f | f in p.value.fields && p.value.fields[f].Bytes? :: p.value.fields[f].t
    else {}
  }

  // -- steps -----------------------------------------------------------------

  /** Put back instance `i` and publish what it sent. */
  function Update(w: World, i: nat, s: State, sent: set<Term>): World
    requires i < |w.instances|
  {
    w.(instances := w.instances[i := s], knowledge := w.knowledge + sent)
  }

  function SentBy<T>(r: Result<T, Failure>, p: T -> Packet): set<Term> {
    if r.Ok? then Payload(p(r.value)) else {}
  }

  ghost predicate Ready(w: World, i: nat, p: Packet) {
    i < |w.instances| && Payload(p) <= w.knowledge
  }

  ghost predicate AllValid(w: World) {
    forall i :: 0 <= i < |w.instances| ==> Valid(w.instances[i])
  }

  ghost function Next(w: World, e: Event): World
    requires AllValid(w)
  {
    match e
    case Spawn(role, config) =>
      w.(next := w.next + 1, instances := w.instances + [New(role, config, w.next, w.next)])
    case CallCreateInit(i) =>
      if i < |w.instances| then
        var (s, r) := CreateInit(w.instances[i]);
        Update(w, i, s, SentBy(r, p => p))
      else w
    case CallReadInit(i, p) =>
      if Ready(w, i, p) then
        var (s, r) := ReadInit(w.instances[i], p);
        Update(w, i, s, SentBy(r, q => q))
      else w
    case CallCreateAuth(i) =>
      if i < |w.instances| then
        assert Valid(w.instances[i]);
        var (s, r) := CreateResponderAuth(w.instances[i]);
        Update(w, i, s, SentBy(r, p => p))
      else w
    case CallReadResponse(i, p) =>
      if Ready(w, i, p) then Update(w, i, ReadResponse(w.instances[i], p).0, {}) else w
    case CallReadResponderAuth(i, p) =>
      if Ready(w, i, p) then
        assert Valid(w.instances[i]);
        var (s, r) := ReadResponderAuth(w.instances[i], p);
        Update(w, i, s, SentBy(r, (o: (Packet, HandshakeResult)) => o.0))
      else w
    case CallReadInitiatorAuth(i, p) =>
      if Ready(w, i, p) then
        assert Valid(w.instances[i]);
        Update(w, i, ReadInitiatorAuth(w.instances[i], p).0, {})
      else w
    case Compromise(x) =>
      w.(knowledge := w.knowledge + {SigningKey(x)}, compromised := w.compromised + {x})
    case Deduce(d) =>
      w.(next := if d.FreshSecret? then w.next + 1 else w.next, knowledge := w.knowledge + Conclusions(w, d))
  }

  // -- the invariant ---------------------------------------------------------

  /** Some honest side of this identity and role holds this transcript; an initiator has then completed. */
  ghost predicate SignedBy(w: World, identity: nat, role: Role, transcript: Term) {
    exists j :: 0 <= j < |w.instances| && Signer(w.instances[j], identity, role, transcript)
  }

  ghost predicate Signer(s: State, identity: nat, role: Role, transcript: Term) {
    s.config.identity == identity && s.role == role && s.transcript == Some(transcript)
    && (role == Initiator ==> s.result.Some?)
  }

  ghost predicate SealedBy(w: World, c: Term) {
    exists j :: 0 <= j < |w.instances| && Sealer(w.instances[j], c)
  }

  ghost predicate Sealer(s: State, c: Term) {
    s.transcript.Some? && s.derived.Some? && c == SealAuth(s)
  }

  ghost predicate Exposed(w: World, secret: Term) {
    secret.Shared? ==> Secret(secret.a) in w.knowledge || Secret(secret.b) in w.knowledge
  }

  /** What may be said of a term that is, or can be taken out of, something on the network. */
  ghost predicate Accounted(w: World, t: Term) {
    match t
    case Secret(id) => t in w.knowledge
    case SigningKey(x) => x in w.compromised
    case Shared(_, _) => Exposed(w, t)
    case Derived(secret, _, _) => Exposed(w, secret)
    case Signature(x, role, m) => x in w.compromised || SignedBy(w, x, role, m)
    case Sealed(_, key, _, _, _) => (key.Derived? ==> Exposed(w, key.secret)) || SealedBy(w, t)
    case _ => true
  }

  /** `Accounted` for a term and for everything its holder could open inside it. */
  ghost predicate Clean(w: World, t: Term) {
    Accounted(w, t)
    && (match t
        case AuthRecord(ik, sg, cp) => Clean(w, ik) && Clean(w, sg) && Clean(w, cp)
        case Sealed(_, _, _, plain, _) => Clean(w, plain)
        case _ => true)
  }

  ghost predicate InstanceOk(w: World, s: State) {
    Valid(s) && s.ephemeral < w.next && Secret(s.ephemeral) !in w.knowledge
    && (s.result.Some? ==> Clean(w, Accepted(s)))
  }

  ghost predicate Distinct(instances: seq<State>) {
    forall i, j :: 0 <= i < j < |instances| ==> instances[i].ephemeral != instances[j].ephemeral
  }

  ghost predicate Inv(w: World) {
    && (forall i :: 0 <= i < |w.instances| ==> InstanceOk(w, w.instances[i]))
    && Distinct(w.instances)
    && (forall t :: t in w.knowledge ==> Clean(w, t))
    && (forall id: nat :: Secret(id) in w.knowledge ==> id < w.next)
  }

  /** A later world of the same run: nothing known is forgotten, nothing agreed is replaced. */
  ghost predicate Later(w: World, w': World) {
    && w.next <= w'.next && w.knowledge <= w'.knowledge && w.compromised <= w'.compromised
    && |w.instances| <= |w'.instances|
    && (forall i :: 0 <= i < |w.instances| ==> Persists(w.instances[i], w'.instances[i]))
  }

  // -- keeping it ------------------------------------------------------------

  lemma SignerLasts(s: State, s': State, identity: nat, role: Role, transcript: Term)
    requires Persists(s, s') && Signer(s, identity, role, transcript)
    ensures Signer(s', identity, role, transcript)
  {
  }

  lemma SealerLasts(s: State, s': State, c: Term)
    requires Persists(s, s') && Sealer(s, c)
    ensures Sealer(s', c)
  {
  }

  lemma CleanLater(w: World, w': World, t: Term)
    requires Later(w, w') && Clean(w, t)
    requires AllValid(w)
    ensures Clean(w', t)
    decreases t
  {
    hide Persists, Signer, Sealer, Valid;
    match t
    case Signature(x, role, m) =>
      if x !in w.compromised {
        var j :| 0 <= j < |w.instances| && Signer(w.instances[j], x, role, m);
        SignerLasts(w.instances[j], w'.instances[j], x, role, m);
      }
    case Sealed(_, key, _, plain, _) =>
      CleanLater(w, w', plain);
      if SealedBy(w, t) {
        var j :| 0 <= j < |w.instances| && Sealer(w.instances[j], t);
        SealerLasts(w.instances[j], w'.instances[j], t);
      }
    case AuthRecord(ik, sg, cp) =>
      CleanLater(w, w', ik);
      CleanLater(w, w', sg);
      CleanLater(w, w', cp);
    case _ =>
  }

  /** Everything the attacker deduces from accounted terms is accounted for. */
  lemma ConclusionsClean(w: World, w': World, d: Deduction)
    requires Inv(w) && w' == Next(w, Deduce(d))
    ensures forall t :: t in Conclusions(w, d) ==> Clean(w', t)
  {
    hide Valid, Accepted;
    assert Later(w, w');
    forall t | t in Conclusions(w, d) ensures Clean(w', t) {
      match d
      case Exponentiate(id, peer) =>
      case Kdf(secret, salt, slice) =>
        assert Clean(w, secret);
      case Sign(id, context, message) =>
        assert Clean(w, SigningKey(id));
      case Encrypt(alg, key, prefix, plain, ad) =>
        assert Clean(w, key);
        CleanLater(w, w', plain);
      case Decrypt(c) =>
        assert Clean(w, c);
        CleanLater(w, w', c.plaintext);
      case Encode(ik, sg, cp) =>
        CleanLater(w, w', ik);
        CleanLater(w, w', sg);
        CleanLater(w, w', cp);
      case Decode(r) =>
        assert Clean(w, r);
        CleanLater(w, w', t);
      case _ =>
    }
  }

  /** No honest side is touched by a deduction, and what it accepted stays accounted for. */
  lemma DeduceInstances(w: World, d: Deduction, i: nat)
    requires Inv(w) && i < |w.instances|
    ensures InstanceOk(Next(w, Deduce(d)), w.instances[i])
  {
    hide Conclusions, Accounted, SignedBy, SealedBy;
    var w' := Next(w, Deduce(d));
    var s := w.instances[i];
    assert InstanceOk(w, s) && Later(w, w');
    if s.result.Some? { CleanLater(w, w', Accepted(s)); }
    if Secret(s.ephemeral) in w'.knowledge { DeducedSecret(w, d, s.ephemeral); }
  }

  lemma DeduceKeepsInv(w: World, d: Deduction)
    requires Inv(w)
    ensures Inv(Next(w, Deduce(d))) && Later(w, Next(w, Deduce(d)))
  {
    hide Conclusions, Accounted, Valid, InstanceOk;
    assert AllValid(w) by { ValidInstances(w); }
    var w' := Next(w, Deduce(d));
    assert w'.instances == w.instances;
    ConclusionsClean(w, w', d);
    assert Later(w, w');
    forall t | t in w'.knowledge ensures Clean(w', t) {
      if t in w.knowledge { CleanLater(w, w', t); }
    }
    forall i | 0 <= i < |w.instances| ensures InstanceOk(w', w'.instances[i]) {
      DeduceInstances(w, d, i);
    }
    forall id: nat | Secret(id) in w'.knowledge ensures id < w'.next {
      if Secret(id) !in w.knowledge { DeducedSecret(w, d, id); }
    }
  }

  lemma ValidInstances(w: World)
    requires Inv(w)
    ensures AllValid(w)
  {
    hide Clean, Valid;
    forall i | 0 <= i < |w.instances| ensures Valid(w.instances[i]) {
      assert InstanceOk(w, w.instances[i]);
    }
  }

  /** Deduction finds no secret key but a fresh one of the attacker's own. */
  lemma DeducedSecret(w: World, d: Deduction, id: nat)
    requires Inv(w)
    requires Secret(id) in Conclusions(w, d)
    ensures Secret(id) in w.knowledge || (d.FreshSecret? && id == w.next)
  {
    match d
    case Decrypt(c) => assert Clean(w, c) && Clean(w, c.plaintext);
    case Decode(r) => assert Clean(w, r) && Clean(w, Secret(id));
    case _ =>
  }

  /** The auth message an honest side sends is accounted for by that side. */
  lemma SealAuthClean(w: World, i: nat)
    requires i < |w.instances|
    requires var s := w.instances[i];
             Valid(s) && s.derived.Some? && (s.role == Initiator ==> s.result.Some?)
    ensures Clean(w, SealAuth(w.instances[i]))
  {
    var s := w.instances[i];
    assert Signer(s, s.config.identity, s.role, s.transcript.value);
    assert Sealer(s, SealAuth(s));
  }

  /** One instance moves to a persisting, valid state and publishes accounted terms. */
  lemma UpdateKeepsInv(w: World, i: nat, s: State, sent: set<Term>)
    requires Inv(w) && i < |w.instances|
    requires Valid(s) && Persists(w.instances[i], s)
    requires forall t :: t in sent ==> !t.Secret?
    requires var w' := Update(w, i, s, sent);
             (forall t :: t in sent ==> Clean(w', t))
             && (s.result.Some? && w.instances[i].result.None? ==> Clean(w', Accepted(s)))
    ensures Inv(Update(w, i, s, sent)) && Later(w, Update(w, i, s, sent))
  {
    var w' := Update(w, i, s, sent);
    assert Later(w, w');
    forall t | t in w'.knowledge ensures Clean(w', t) {
      if t in w.knowledge { CleanLater(w, w', t); }
    }
    forall k | 0 <= k < |w'.instances| ensures InstanceOk(w', w'.instances[k]) {
      var old_ := w.instances[k];
      if old_.result.Some? {
        CleanLater(w, w', Accepted(old_));
        assert Accepted(w'.instances[k]) == Accepted(old_);
      }
    }
  }

  lemma SpawnKeepsInv(w: World, role: Role, config: Config)
    requires Inv(w)
    ensures Inv(Next(w, Spawn(role, config))) && Later(w, Next(w, Spawn(role, config)))
  {
    var w' := Next(w, Spawn(role, config));
    assert Later(w, w');
    forall t | t in w'.knowledge ensures Clean(w', t) { CleanLater(w, w', t); }
    forall k | 0 <= k < |w'.instances| ensures InstanceOk(w', w'.instances[k]) {
      if k < |w.instances| && w.instances[k].result.Some? { CleanLater(w, w', Accepted(w.instances[k])); }
    }
  }

  lemma CompromiseKeepsInv(w: World, x: nat)
    requires Inv(w)
    ensures Inv(Next(w, Compromise(x))) && Later(w, Next(w, Compromise(x)))
  {
    var w' := Next(w, Compromise(x));
    assert Later(w, w');
    forall t | t in w'.knowledge ensures Clean(w', t) {
      if t in w.knowledge { CleanLater(w, w', t); }
    }
    forall k | 0 <= k < |w'.instances| ensures InstanceOk(w', w'.instances[k]) {
      if w.instances[k].result.Some? { CleanLater(w, w', Accepted(w.instances[k])); }
    }
  }

  /** A side that completes on a delivered packet accepted an accounted ciphertext. */
  lemma DeliveredIsClean(w: World, i: nat, s: State, p: Packet, sent: set<Term>)
    requires Inv(w) && Ready(w, i, p)
    requires Valid(s) && Persists(w.instances[i], s) && AcceptedFrom(w.instances[i], s, p)
    requires s.result.Some? && w.instances[i].result.None?
    ensures Clean(Update(w, i, s, sent), Accepted(s))
  {
    var w' := Update(w, i, s, sent);
    assert Later(w, w');
    assert p.value.fields[C].t in Payload(p);
    CleanLater(w, w', Accepted(s));
  }

  /** INIT and RESPONSE publish one's own public values; an auth message publishes one ciphertext. */
  lemma SentPayloads(s: State, p: Packet)
    requires Valid(s)
    ensures SentBy(CreateInit(s).1, q => q) <= {Public(s.ephemeral), Nonce(s.localNonce)}
    ensures SentBy(ReadInit(s, p).1, q => q) <= {Public(s.ephemeral), Nonce(s.localNonce)}
  {
  }

  lemma AuthPayload(kind: nat, t: Term)
    ensures Payload(Body(kind, Map(map[C := Bytes(t)]))) == {t}
  {
    var m := map[C := Bytes(t)];
    assert C in m && m[C] == Bytes(t);
  }

  lemma CreateInitKeepsInv(w: World, i: nat)
    requires Inv(w)
    ensures Inv(Next(w, CallCreateInit(i))) && Later(w, Next(w, CallCreateInit(i)))
  {
    if i < |w.instances| {
      OpeningsKeepValid(w.instances[i]);
      SentPayloads(w.instances[i], Empty);
      UpdateKeepsInv(w, i, CreateInit(w.instances[i]).0, SentBy(CreateInit(w.instances[i]).1, p => p));
    }
  }

  lemma ReadInitKeepsInv(w: World, i: nat, p: Packet)
    requires Inv(w)
    ensures Inv(Next(w, CallReadInit(i, p))) && Later(w, Next(w, CallReadInit(i, p)))
  {
    if Ready(w, i, p) {
      ReadInitKeepsValid(w.instances[i], p);
      SentPayloads(w.instances[i], p);
      UpdateKeepsInv(w, i, ReadInit(w.instances[i], p).0, SentBy(ReadInit(w.instances[i], p).1, q => q));
    }
  }

  lemma ReadResponseKeepsInv(w: World, i: nat, p: Packet)
    requires Inv(w)
    ensures Inv(Next(w, CallReadResponse(i, p))) && Later(w, Next(w, CallReadResponse(i, p)))
  {
    if Ready(w, i, p) {
      ReadResponseKeepsValid(w.instances[i], p);
      UpdateKeepsInv(w, i, ReadResponse(w.instances[i], p).0, {});
    }
  }

  /** The responder's auth publishes the ciphertext it stands for. */
  lemma AuthOf(s: State)
    requires Valid(s)
    ensures
      var (s', r) := CreateResponderAuth(s);
      && Valid(s') && Persists(s, s') && s'.result == s.result
      && (r.Ok? ==> s'.derived.Some? && s'.role == Responder && Payload(r.value) == {SealAuth(s')})
  {
    OpeningsKeepValid(s);
    var (s', r) := CreateResponderAuth(s);
    if r.Ok? { AuthPayload(AUTH_RESPONDER, SealAuth(s')); }
  }

  lemma CreateAuthKeepsInv(w: World, i: nat)
    requires Inv(w)
    ensures Inv(Next(w, CallCreateAuth(i))) && Later(w, Next(w, CallCreateAuth(i)))
  {
    hide Conclusions, Clean, Payload, CreateResponderAuth;
    ValidInstances(w);
    if i < |w.instances| {
      AuthOf(w.instances[i]);
      var (s, r) := CreateResponderAuth(w.instances[i]);
      var sent := SentBy(r, p => p);
      if r.Ok? {
        SealAuthClean(Update(w, i, s, sent), i);
      }
      UpdateKeepsInv(w, i, s, sent);
    }
  }

  /** An initiator that answers has completed, and publishes the ciphertext it now stands for. */
  lemma AnswerOf(s: State, p: Packet)
    requires Valid(s)
    ensures var (s', r) := ReadResponderAuth(s, p);
            r.Ok? ==>
              s'.result.Some? && s'.derived.Some? && s'.role == Initiator && Payload(r.value.0) == {SealAuth(s')}
    ensures var (s', r) := ReadResponderAuth(s, p);
            s'.result.Some? && s.result.None? ==> r.Ok?
  {
    AuthReadersKeepValid(s, p);
    var (s', r) := ReadResponderAuth(s, p);
    if r.Ok? { AuthPayload(AUTH_INITIATOR, SealAuth(s)); }
  }

  lemma ReadResponderAuthKeepsInv(w: World, i: nat, p: Packet)
    requires Inv(w)
    ensures Inv(Next(w, CallReadResponderAuth(i, p))) && Later(w, Next(w, CallReadResponderAuth(i, p)))
  {
    if Ready(w, i, p) {
      var s0 := w.instances[i];
      AuthReadersKeepValid(s0, p);
      AnswerOf(s0, p);
      var s, r := ReadResponderAuth(s0, p).0, ReadResponderAuth(s0, p).1;
      var sent := SentBy(r, (o: (Packet, HandshakeResult)) => o.0);
      AnswerKeepsInv(w, i, p, s, sent, r.Ok?);
    }
  }

  lemma AnswerKeepsInv(w: World, i: nat, p: Packet, s: State, sent: set<Term>, ok: bool)
    requires Inv(w) && Ready(w, i, p)
    requires Valid(s) && Persists(w.instances[i], s) && AcceptedFrom(w.instances[i], s, p)
    requires ok ==> s.result.Some? && s.derived.Some? && s.role == Initiator && sent == {SealAuth(s)}
    requires !ok ==> sent == {}
    ensures Inv(Update(w, i, s, sent)) && Later(w, Update(w, i, s, sent))
  {
    if ok { SealAuthClean(Update(w, i, s, sent), i); }
    if s.result.Some? && w.instances[i].result.None? { DeliveredIsClean(w, i, s, p, sent); }
    UpdateKeepsInv(w, i, s, sent);
  }

  lemma ReadInitiatorAuthKeepsInv(w: World, i: nat, p: Packet)
    requires Inv(w)
    ensures Inv(Next(w, CallReadInitiatorAuth(i, p))) && Later(w, Next(w, CallReadInitiatorAuth(i, p)))
  {
    if Ready(w, i, p) {
      AuthReadersKeepValid(w.instances[i], p);
      var s := ReadInitiatorAuth(w.instances[i], p).0;
      if s.result.Some? && w.instances[i].result.None? { DeliveredIsClean(w, i, s, p, {}); }
      UpdateKeepsInv(w, i, s, {});
    }
  }

  lemma NextKeepsInv(w: World, e: Event)
    requires Inv(w)
    ensures Inv(Next(w, e)) && Later(w, Next(w, e))
  {
    match e
    case Spawn(role, config) => SpawnKeepsInv(w, role, config);
    case Compromise(x) => CompromiseKeepsInv(w, x);
    case Deduce(d) => DeduceKeepsInv(w, d);
    case CallCreateInit(i) => CreateInitKeepsInv(w, i);
    case CallReadInit(i, p) => ReadInitKeepsInv(w, i, p);
    case CallCreateAuth(i) => CreateAuthKeepsInv(w, i);
    case CallReadResponse(i, p) => ReadResponseKeepsInv(w, i, p);
    case CallReadResponderAuth(i, p) => ReadResponderAuthKeepsInv(w, i, p);
    case CallReadInitiatorAuth(i, p) => ReadInitiatorAuthKeepsInv(w, i, p);
  }

  /** The world after a list of events, from any world that satisfies the invariant. */
  ghost function Run(w: World, events: seq<Event>): (w': World)
    requires Inv(w)
    ensures Inv(w') && Later(w, w')
    decreases |events|
  {
    if events == [] then w
    else
      NextKeepsInv(w, events[0]);
      Run(Next(w, events[0]), events[1..])
  }

  /** The world a run of events from nothing ends in. */
  ghost function Reach(events: seq<Event>): (w: World)
    ensures Inv(w)
  {
    Run(NEW_WORLD, events)
  }
}
