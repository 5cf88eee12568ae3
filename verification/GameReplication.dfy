/**
  Several sessions of one turn-based game over a network that loses, repeats and reorders;
  nothing coordinates them but the turn and the per-player numbers.
 */
module GameReplication {
  import opened Wrappers
  import opened GameRules

  datatype Setup<!S, !V> = Setup(game: Game<S, V>, players: seq<PlayerId>, host: PlayerId, historyLimit: nat, seed: Rng)

  function ConfigFor<S, V>(u: Setup<S, V>, p: PlayerId): Config<S, V> {
    Config(u.game, u.players, p, p == u.host, u.historyLimit, u.seed)
  }

  /** A session and the actions its board stands for, which `log` may have dropped the front of. */
  datatype Replica<+S, +V> = Replica(session: Session<S, V>, history: seq<Action<V>>)

  datatype Message<+V> = Message(player: PlayerId, value: V)

  /** The host's board on the air, and the actions it stood for when it was taken. */
  datatype Snapshot<+V> = Snapshot(envelope: Envelope<V>, history: seq<Action<V>>)

  /**
    `order` is the longest history so far; `sent` and `snapshots` are every message and every
    envelope ever put on the air.  None is ever taken off it: it may arrive late or again.
   */
  datatype World<+S, +V> = World(
    replicas: map<PlayerId, Replica<S, V>>, order: seq<Action<V>>, sent: seq<Message<V>>, snapshots: seq<Snapshot<V>>)

  /** The host may publish at any moment, so a request that reaches it is one of its events. */
  datatype Event<+V> =
    | Submits(player: PlayerId, kind: string, payload: V)
    | Delivers(to: PlayerId, message: nat)
    | Abandons(at: PlayerId, player: PlayerId)
    | Publishes
    | Adopts(at: PlayerId, snapshot: nat)

  function Start<S, V>(u: Setup<S, V>): World<S, V> {
    World(map p | p in u.players :: Replica(New(ConfigFor(u, p)), []), [], [], [])
  }

  function Longer<T>(a: seq<T>, b: seq<T>): seq<T> {
    if |a| > |b| then a else b
  }

  /** Store what `p`'s session did, recording an accepted action. */
  function Record<S, V>(w: World<S, V>, p: PlayerId, s: Session<S, V>, o: Outcome<V>): World<S, V>
    requires p in w.replicas
  {
    var history := if o.Accepted? then w.replicas[p].history + [o.action] else w.replicas[p].history;
    World(w.replicas[p := Replica(s, history)], Longer(history, w.order), w.sent, w.snapshots)
  }

  function Submitted<S, V>(
      u: Setup<S, V>, w: World<S, V>, p: PlayerId, kind: string, payload: V): (Session<S, V>, Outcome<V>)
    requires p in w.replicas
  {
    SubmitLocal(ConfigFor(u, p), w.replicas[p].session, kind, payload)
  }

  function Delivered<S, V>(u: Setup<S, V>, w: World<S, V>, q: PlayerId, m: nat): (Session<S, V>, Outcome<V>)
    requires q in w.replicas && m < |w.sent|
  {
    ApplyRemote(ConfigFor(u, q), w.replicas[q].session, w.sent[m].value, w.sent[m].player)
  }

  function Adopted<S, V>(u: Setup<S, V>, w: World<S, V>, q: PlayerId, i: nat): (Session<S, V>, bool)
    requires q in w.replicas && i < |w.snapshots|
  {
    ApplyEnvelope(ConfigFor(u, q), w.replicas[q].session, w.snapshots[i].envelope)
  }

  function Next<S, V>(u: Setup<S, V>, w: World<S, V>, e: Event<V>): World<S, V> {
    match e
    case Submits(p, kind, payload) =>
      if p !in w.replicas then w
      else
        var (s, o) := Submitted(u, w, p, kind, payload);
        var w1 := Record(w, p, s, o);
        if o.Accepted? then w1.(sent := w.sent + [Message(p, u.game.encodeAction(o.action))]) else w1
    case Delivers(q, m) =>
      if q !in w.replicas || m >= |w.sent| then w
      else
        var (s, o) := Delivered(u, w, q, m);
        Record(w, q, s, o)
    case Abandons(q, player) =>
      if q !in w.replicas then w
      else
        var r := w.replicas[q];
        w.(replicas := w.replicas[q := r.(session := Abandon(ConfigFor(u, q), r.session, player).0)])
    case Publishes =>
      if u.host !in w.replicas then w
      else
        var r := w.replicas[u.host];
        w.(snapshots := w.snapshots + [Snapshot(SnapshotEnvelope(ConfigFor(u, u.host), r.session), r.history)])
    case Adopts(q, i) =>
      if q !in w.replicas || i >= |w.snapshots| then w
      else
        var (s, adopted) := Adopted(u, w, q, i);
        if adopted then w.(replicas := w.replicas[q := Replica(s, w.snapshots[i].history)]) else w
  }

  function Run<S, V>(u: Setup<S, V>, w: World<S, V>, events: seq<Event<V>>): World<S, V>
    decreases |events|
  {
    if events == [] then w else Run(u, Next(u, w, events[0]), events[1..])
  }

  // -- what the game promises ------------------------------------------------

  /** Only the player to move gets past validation, and validation draws nothing. */
  ghost predicate TurnBased<S(!new), V(!new)>(g: Game<S, V>) {
    && (forall s, a, t, r :: g.validate(s, a, t, r).0 ==> g.turn(s) == Some(a.player))
    && (forall s, a, t, r :: g.validate(s, a, t, r).1 == r)
  }

  /** The decoder stamps the authenticated player, and what it decoded survives another trip. */
  ghost predicate CodecStable<S(!new), V(!new)>(g: Game<S, V>) {
    forall v, p ::
      g.decodeAction(v, p).Some? ==>
        var a := g.decodeAction(v, p).value;
        a.player == p && g.decodeAction(g.encodeAction(a), p) == Some(a)
  }

  ghost predicate StateCodec<S(!new), V(!new)>(g: Game<S, V>) {
    forall s :: g.decodeState(g.encodeState(s)) == Some(s)
  }

  /** Neither validation nor the reducer looks at the generator; an envelope does not carry it. */
  ghost predicate RandomFree<S(!new), V(!new)>(g: Game<S, V>) {
    forall s, a, t, r, r' ::
      && g.validate(s, a, t, r).0 == g.validate(s, a, t, r').0
      && g.apply(s, a, t, r).0 == g.apply(s, a, t, r').0
  }

  /** A refused action leaves the generator where it was; a replay of the log would not know. */
  ghost predicate RefusalsDrawNothing<S(!new), V(!new)>(g: Game<S, V>) {
    forall s, a, t, r :: !g.validate(s, a, t, r).0 ==> g.validate(s, a, t, r).1 == r
  }

  // -- which adoptions are harmless ------------------------------------------

  /** Would `p` lose a move of its own?  It knows both numbers before it adopts. */
  predicate LosesOwnMove<S, V>(p: PlayerId, s: Session<S, V>, e: Envelope<V>) {
    p in e.seq_ && e.seq_[p] < s.localSeq
  }

  /** Anything but an adoption that loses an own move, in a game whose boards an envelope can carry. */
  ghost predicate Careful<S(!new), V(!new)>(u: Setup<S, V>, w: World<S, V>, e: Event<V>) {
    e.Adopts? ==>
      && StateCodec(u.game) && RandomFree(u.game)
      && (e.at in w.replicas && e.snapshot < |w.snapshots| && Adopted(u, w, e.at, e.snapshot).1 ==>
            !LosesOwnMove(e.at, w.replicas[e.at].session, w.snapshots[e.snapshot].envelope))
  }

  ghost predicate CarefulRun<S(!new), V(!new)>(u: Setup<S, V>, w: World<S, V>, events: seq<Event<V>>)
    decreases |events|
  {
    events == [] || (Careful(u, w, events[0]) && CarefulRun(u, Next(u, w, events[0]), events[1..]))
  }

  /** A run without adoptions is careful whatever the reducer draws. */
  lemma {:induction false} NoAdoptionIsCareful<S(!new), V(!new)>(u: Setup<S, V>, w: World<S, V>, events: seq<Event<V>>)
    requires forall i :: 0 <= i < |events| ==> !events[i].Adopts?
    ensures CarefulRun(u, w, events)
    decreases |events|
  {
    hide Next;
    if events != [] { NoAdoptionIsCareful(u, Next(u, w, events[0]), events[1..]); }
  }

  // -- reference meaning of a history ----------------------------------------

  /** Board and generator position after `h`, applied to a fresh game. */
  function After<S, V>(g: Game<S, V>, seed: Rng, h: seq<Action<V>>): (S, Rng)
    decreases |h|
  {
    if h == [] then (g.initial, seed)
    else
      var (s, r) := After(g, seed, h[..|h| - 1]);
      g.apply(s, h[|h| - 1], 0.0, g.validate(s, h[|h| - 1], 0.0, r).1)
  }

  /** May `a` be played on the board `h` leads to? */
  predicate Playable<S, V>(g: Game<S, V>, seed: Rng, h: seq<Action<V>>, a: Action<V>) {
    var (s, r) := After(g, seed, h);
    !g.over(s) && g.validate(s, a, 0.0, r).0
  }

  function Count<V>(h: seq<Action<V>>, p: PlayerId): nat
    decreases |h|
  {
    if h == [] then 0 else Count(h[..|h| - 1], p) + if h[|h| - 1].player == p then 1 else 0
  }

  ghost predicate Legal<S, V>(g: Game<S, V>, seed: Rng, h: seq<Action<V>>) {
    forall i :: 0 <= i < |h| ==> Playable(g, seed, h[..i], h[i])
  }

  ghost predicate Numbered<V>(h: seq<Action<V>>) {
    forall i :: 0 <= i < |h| ==> h[i].seq_ == Count(h[..i], h[i].player)
  }

  // -- the invariant ---------------------------------------------------------

  /**
    One session is exactly what its history says.  Once it has adopted a board its generator
    and its log are its own business, and the reducer must not draw.
   */
  ghost predicate Faithful<S(!new), V(!new)>(u: Setup<S, V>, p: PlayerId, r: Replica<S, V>) {
    && r.session.state == After(u.game, u.seed, r.history).0
    && r.session.elapsedMs == 0.0
    && r.session.version == |r.history|
    && r.session.localSeq == Count(r.history, p)
    && (forall x :: Expected(r.session, x) == Count(r.history, x))
    && if r.session.adoptedHostVersion == -1 then Undisturbed(u, r) else RandomFree(u.game)
  }

  ghost predicate Undisturbed<S, V>(u: Setup<S, V>, r: Replica<S, V>) {
    && r.session.random == After(u.game, u.seed, r.history).1
    && r.session.log == Retained(r.history, u.historyLimit)
  }

  function Retained<V>(history: seq<Action<V>>, limit: nat): seq<Action<V>> {
    if |history| <= limit then history else history[|history| - limit..]
  }

  ghost predicate Inv<S(!new), V(!new)>(u: Setup<S, V>, w: World<S, V>) {
    && (forall p :: p in w.replicas <==> p in u.players)
    && (forall p :: p in w.replicas ==> Faithful(u, p, w.replicas[p]) && w.replicas[p].history <= w.order)
    && Recorded(u, w.order, w.sent)
    && (forall i :: 0 <= i < |w.order| ==> Owned(u, w, w.order[i], i))
    && (forall m :: 0 <= m < |w.sent| ==> SentByOwner(u, w, w.sent[m]))
    && (forall i :: 0 <= i < |w.snapshots| ==> Truthful(u, w.order, w.snapshots[i]))
  }

  /** The common order is playable, numbered, and on the air. */
  ghost predicate Recorded<S, V>(u: Setup<S, V>, order: seq<Action<V>>, sent: seq<Message<V>>) {
    && Legal(u.game, u.seed, order) && Numbered(order)
    && (forall i :: 0 <= i < |order| ==> OnAir(u, sent, order[i]))
  }

  ghost predicate OnAir<S, V>(u: Setup<S, V>, sent: seq<Message<V>>, a: Action<V>) {
    a.player in u.players && exists m: nat :: m < |sent| && Carries(u, a, sent[m])
  }

  /** An envelope says what the prefix of the order it was taken at says. */
  ghost predicate Truthful<S, V>(u: Setup<S, V>, order: seq<Action<V>>, x: Snapshot<V>) {
    && x.history <= order
    && x.envelope == Envelope(u.game.encodeState(After(u.game, u.seed, x.history).0),
                              map p | p in u.players :: Count(x.history, p), |x.history|, 0.0)
  }

  /** The author of an agreed action has played it, and its encoding is what travels. */
  ghost predicate Owned<S, V>(u: Setup<S, V>, w: World<S, V>, a: Action<V>, i: nat) {
    && a.player in w.replicas && i < |w.replicas[a.player].history|
    && u.game.decodeAction(u.game.encodeAction(a), a.player) == Some(a)
  }

  ghost predicate SentByOwner<S, V>(u: Setup<S, V>, w: World<S, V>, m: Message<V>) {
    && m.player in w.replicas
    && exists i: nat :: i < |w.replicas[m.player].history| && Carries(u, w.replicas[m.player].history[i], m)
  }

  ghost predicate Carries<S, V>(u: Setup<S, V>, a: Action<V>, m: Message<V>) {
    a.player == m.player && u.game.decodeAction(m.value, m.player) == Some(a)
  }

  // -- counting --------------------------------------------------------------

  lemma {:induction false} CountGrows<V>(h: seq<Action<V>>, i: nat, j: nat, p: PlayerId)
    requires i <= j <= |h|
    ensures Count(h[..i], p) <= Count(h[..j], p)
    ensures i < j && h[i].player == p ==> Count(h[..i], p) < Count(h[..j], p)
    decreases j
  {
    if i < j {
      CountGrows(h, i, j - 1, p);
      assert h[..j][..j - 1] == h[..j - 1];
    }
  }

  /** A player's number identifies one place in the order. */
  lemma NumberIdentifies<V>(h: seq<Action<V>>, i: nat, j: nat)
    requires i < |h| && j < |h| && Numbered(h)
    requires h[i].player == h[j].player && h[i].seq_ == h[j].seq_
    ensures i == j
  {
    CountGrows(h, i, if i <= j then j else i, h[i].player);
    CountGrows(h, j, if i <= j then j else i, h[i].player);
  }

  // -- one accepted action ---------------------------------------------------

  /** What acceptance means on a session that is exactly its history. */
  lemma AcceptsExactly<S(!new), V(!new)>(u: Setup<S, V>, p: PlayerId, r: Replica<S, V>, a: Action<V>)
    requires Faithful(u, p, r) && TurnBased(u.game)
    ensures
      var (s, o) := ApplyInternal(ConfigFor(u, p), r.session, a);
      && (o.Accepted? <==>
           r.session.abandonedBy.None? && Playable(u.game, u.seed, r.history, a)
               && a.seq_ == Count(r.history, a.player))
      && (o.Accepted? ==> o.action == a)
      && (!o.Accepted? ==> s == r.session)
  {
    hide Count;
    var (state, random) := After(u.game, u.seed, r.history);
    assert Expected(r.session, a.player) == Count(r.history, a.player);
    assert u.game.validate(state, a, 0.0, r.session.random).1 == r.session.random;
    assert u.game.validate(state, a, 0.0, r.session.random).0 == u.game.validate(state, a, 0.0, random).0;
  }

  lemma AcceptedStaysFaithful<S(!new), V(!new)>(u: Setup<S, V>, p: PlayerId, r: Replica<S, V>, a: Action<V>)
    requires Faithful(u, p, r) && TurnBased(u.game)
    requires ApplyInternal(ConfigFor(u, p), r.session, a).1.Accepted?
    ensures
      var s := ApplyInternal(ConfigFor(u, p), r.session, a).0;
      && s.localSeq == r.session.localSeq
      && Faithful(u, p, Replica(s.(localSeq := Count(r.history + [a], p)), r.history + [a]))
  {
    var s := ApplyInternal(ConfigFor(u, p), r.session, a).0;
    var h := r.history + [a];
    assert h[..|h| - 1] == r.history;
    var (state, random) := After(u.game, u.seed, r.history);
    assert u.game.validate(state, a, 0.0, r.session.random).1 == r.session.random;
    assert u.game.validate(state, a, 0.0, random).1 == random;
    assert s.state == After(u.game, u.seed, h).0;
    forall x ensures Expected(s, x) == Count(h, x) {
      assert Expected(r.session, x) == Count(r.history, x);
    }
    assert r.session.log == Retained(r.history, u.historyLimit) ==> s.log == Retained(h, u.historyLimit);
  }

  /** An accepted action continues the common order: it is its next entry, or it extends it. */
  lemma AcceptedIsNext<S(!new), V(!new)>(u: Setup<S, V>, w: World<S, V>, p: PlayerId, a: Action<V>)
    requires Inv(u, w) && TurnBased(u.game) && p in w.replicas
    requires ApplyInternal(ConfigFor(u, p), w.replicas[p].session, a).1.Accepted?
    ensures
      var k := |w.replicas[p].history|;
      && (k < |w.order| ==> w.order[k].player == a.player && w.order[k].seq_ == a.seq_)
      && w.replicas[p].history == w.order[..k]
  {
    hide After, Count;
    var r := w.replicas[p];
    var k := |r.history|;
    AcceptsExactly(u, p, r, a);
    assert r.history == w.order[..k];
    if k < |w.order| {
      assert Playable(u.game, u.seed, w.order[..k], w.order[k]);
      assert w.order[k].seq_ == Count(w.order[..k], w.order[k].player);
    }
  }

  /** A player who may move has seen everything: an own action always extends the order. */
  lemma SubmissionExtends<S(!new), V(!new)>(u: Setup<S, V>, w: World<S, V>, p: PlayerId, a: Action<V>)
    requires Inv(u, w) && TurnBased(u.game) && p in w.replicas && a.player == p
    requires ApplyInternal(ConfigFor(u, p), w.replicas[p].session, a).1.Accepted?
    ensures w.replicas[p].history == w.order
  {
    hide After, Count, Playable, ApplyInternal, Faithful, SentByOwner, Legal, Numbered;
    AcceptedIsNext(u, w, p, a);
    var k := |w.replicas[p].history|;
    assert k >= |w.order| || Owned(u, w, w.order[k], k);
  }

  /** A delivered action is already in the order, and acceptance means it comes next. */
  lemma DeliveryFollows<S(!new), V(!new)>(u: Setup<S, V>, w: World<S, V>, q: PlayerId, a: Action<V>, i: nat)
    requires Inv(u, w) && TurnBased(u.game) && q in w.replicas
    requires i < |w.order| && w.order[i] == a
    requires ApplyInternal(ConfigFor(u, q), w.replicas[q].session, a).1.Accepted?
    ensures i == |w.replicas[q].history|
  {
    hide After, ApplyInternal, SentByOwner, Legal, Owned, Count;
    AcceptedIsNext(u, w, q, a);
    AcceptsExactly(u, q, w.replicas[q], a);
    var k := |w.replicas[q].history|;
    assert a.seq_ == Count(w.order[..i], a.player);
    assert a.seq_ == Count(w.order[..k], a.player);
    if k < |w.order| {
      NumberIdentifies(w.order, i, k);
    } else {
      CountGrows(w.order, i, k, a.player);
    }
  }

  // -- every event keeps the invariant ---------------------------------------

  lemma MessageAction<S(!new), V(!new)>(u: Setup<S, V>, w: World<S, V>, m: nat) returns (i: nat, a: Action<V>)
    requires Inv(u, w) && m < |w.sent|
    ensures i < |w.order| && w.order[i] == a && Carries(u, a, w.sent[m])
    ensures a.player in w.replicas && i < |w.replicas[a.player].history|
  {
    hide Faithful, Recorded, Owned, Truthful;
    assert SentByOwner(u, w, w.sent[m]);
    var p := w.sent[m].player;
    i :| 0 <= i < |w.replicas[p].history| && Carries(u, w.replicas[p].history[i], w.sent[m]);
    a := w.replicas[p].history[i];
    assert w.replicas[p].history <= w.order;
  }

  /** `p` still stands where it stood with every move of its own. */
  ghost predicate OwnKept<V>(p: PlayerId, h: seq<Action<V>>, h': seq<Action<V>>) {
    forall i :: 0 <= i < |h| && h[i].player == p ==> i < |h'| && h'[i] == h[i]
  }

  /** Nobody lost a move of its own, so what was owned or sent by its owner still is. */
  lemma OwnershipLasts<S(!new), V(!new)>(u: Setup<S, V>, w: World<S, V>, w': World<S, V>)
    requires Inv(u, w) && w'.replicas.Keys == w.replicas.Keys
    requires forall p :: p in w.replicas ==> OwnKept(p, w.replicas[p].history, w'.replicas[p].history)
    ensures forall i :: 0 <= i < |w.order| ==> Owned(u, w', w.order[i], i)
    ensures forall m :: 0 <= m < |w.sent| ==> SentByOwner(u, w', w.sent[m])
  {
    hide Faithful, Recorded, Truthful;
    forall i | 0 <= i < |w.order| ensures Owned(u, w', w.order[i], i) {
      var p := w.order[i].player;
      assert Owned(u, w, w.order[i], i);
      assert w.replicas[p].history[i] == w.order[i];
    }
    forall m | 0 <= m < |w.sent| ensures SentByOwner(u, w', w.sent[m]) {
      var p := w.sent[m].player;
      assert SentByOwner(u, w, w.sent[m]);
      var i: nat :| i < |w.replicas[p].history| && Carries(u, w.replicas[p].history[i], w.sent[m]);
      assert Carries(u, w'.replicas[p].history[i], w.sent[m]);
    }
  }

  lemma InvAt<S(!new), V(!new)>(u: Setup<S, V>, w: World<S, V>, p: PlayerId)
    requires Inv(u, w) && p in w.replicas
    ensures Faithful(u, p, w.replicas[p]) && w.replicas[p].history <= w.order
    ensures w.replicas[p].session.localSeq == Count(w.replicas[p].history, p)
    ensures forall x :: x in w.replicas <==> x in u.players
  {
    hide Recorded, Owned, SentByOwner, Truthful, After, Count;
  }

  lemma RejectedSessionUnchanged<S(!new), V(!new)>(
      u: Setup<S, V>, w: World<S, V>, p: PlayerId, s: Session<S, V>, o: Outcome<V>)
    requires Inv(u, w) && p in w.replicas && !o.Accepted? && s == w.replicas[p].session
    ensures Record(w, p, s, o) == w
  {
    hide Faithful, Recorded, Owned, SentByOwner, Truthful;
    assert w.replicas[p := Replica(s, w.replicas[p].history)] == w.replicas;
  }

  /** Moving `q` to another place in the order, behind none of its own moves. */
  lemma MovingKeepsInv<S(!new), V(!new)>(u: Setup<S, V>, w: World<S, V>, q: PlayerId, r: Replica<S, V>)
    requires Inv(u, w) && q in w.replicas && Faithful(u, q, r)
    requires r.history <= w.order && OwnKept(q, w.replicas[q].history, r.history)
    ensures Inv(u, w.(replicas := w.replicas[q := r]))
  {
    hide Faithful, Recorded, Owned, SentByOwner, Truthful;
    var w' := w.(replicas := w.replicas[q := r]);
    OwnershipLasts(u, w, w');
  }

  lemma StillOnAir<S, V>(u: Setup<S, V>, sent: seq<Message<V>>, sent': seq<Message<V>>, a: Action<V>)
    requires OnAir(u, sent, a) && sent <= sent'
    ensures OnAir(u, sent', a)
  {
    hide Carries;
    var m: nat :| m < |sent| && Carries(u, a, sent[m]);
    assert sent'[m] == sent[m];
  }

  /** One more action at the end, and its message on the air. */
  lemma OrderGrows<S(!new), V(!new)>(
      u: Setup<S, V>, order: seq<Action<V>>, sent: seq<Message<V>>, a: Action<V>, m: Message<V>)
    requires Recorded(u, order, sent) && a.player in u.players && Carries(u, a, m)
    requires Playable(u.game, u.seed, order, a) && a.seq_ == Count(order, a.player)
    ensures Recorded(u, order + [a], sent + [m])
  {
    hide Carries, Playable, Count;
    assert (sent + [m])[|sent|] == m;
    forall i | 0 <= i < |order + [a]|
      ensures Playable(u.game, u.seed, (order + [a])[..i], (order + [a])[i])
      ensures (order + [a])[i].seq_ == Count((order + [a])[..i], (order + [a])[i].player)
      ensures OnAir(u, sent + [m], (order + [a])[i])
    {
      assert (order + [a])[..i] == order[..i];
      assert i == |order| ==> order[..i] == order;
      if i < |order| { StillOnAir(u, sent, sent + [m], order[i]); }
    }
  }

  /** Recording a new action at its author. */
  lemma ExtendingKeepsInv<S(!new), V(!new)>(u: Setup<S, V>, w: World<S, V>, r: Replica<S, V>, a: Action<V>)
    requires Inv(u, w) && a.player in w.replicas && Faithful(u, a.player, r)
    requires w.replicas[a.player].history == w.order && r.history == w.order + [a]
    requires Playable(u.game, u.seed, w.order, a) && a.seq_ == Count(w.order, a.player)
    requires u.game.decodeAction(u.game.encodeAction(a), a.player) == Some(a)
    ensures Inv(u, World(w.replicas[a.player := r], w.order + [a],
                         w.sent + [Message(a.player, u.game.encodeAction(a))], w.snapshots))
  {
    hide Faithful, Recorded, Playable, After, Count;
    var m := Message(a.player, u.game.encodeAction(a));
    var w' := World(w.replicas[a.player := r], w.order + [a], w.sent + [m], w.snapshots);
    OwnershipLasts(u, w, w');
    OrderGrows(u, w.order, w.sent, a, m);
    assert Carries(u, r.history[|w.order|], m);
    assert SentByOwner(u, w', m);
    assert Owned(u, w', a, |w.order|);
    assert forall x: Snapshot<V> :: Truthful(u, w.order, x) ==> Truthful(u, w'.order, x);
  }

  /** `submitLocal` as one call of `applyInternal` on what the codec made of the draft. */
  lemma SubmitLocalIsApply<S(!new), V(!new)>(u: Setup<S, V>, p: PlayerId, s: Session<S, V>, kind: string, payload: V)
      returns (a: Option<Action<V>>)
    requires CodecStable(u.game)
    ensures
      var c := ConfigFor(u, p);
      var (s', o) := SubmitLocal(c, s, kind, payload);
      match a
      case None => s' == s && !o.Accepted?
      case Some(x) =>
        && x.player == p && u.game.decodeAction(u.game.encodeAction(x), p) == Some(x)
        && o == ApplyInternal(c, s, x).1
        && s' == if o.Accepted? then ApplyInternal(c, s, x).0.(localSeq := ApplyInternal(c, s, x).0.localSeq + 1)
                 else ApplyInternal(c, s, x).0
  {
    hide ApplyInternal;
    a := u.game.decodeAction(u.game.encodeAction(Action(kind, p, s.localSeq, payload)), p);
  }

  lemma SubmitKeepsInv<S(!new), V(!new)>(u: Setup<S, V>, w: World<S, V>, p: PlayerId, kind: string, payload: V)
    requires Inv(u, w) && TurnBased(u.game) && CodecStable(u.game) && p in w.replicas
    ensures Inv(u, Next(u, w, Submits(p, kind, payload)))
  {
    hide Inv, Faithful, ApplyInternal, SubmitLocal, TurnBased, CodecStable, Playable;
    var r := w.replicas[p];
    InvAt(u, w, p);
    var x := SubmitLocalIsApply(u, p, r.session, kind, payload);
    var (s, o) := Submitted(u, w, p, kind, payload);
    if x.None? {
      RejectedSessionUnchanged(u, w, p, s, o);
    } else {
      var a := x.value;
      AcceptsExactly(u, p, r, a);
      if !o.Accepted? {
        RejectedSessionUnchanged(u, w, p, s, o);
      } else {
        SubmissionExtends(u, w, p, a);
        AcceptedStaysFaithful(u, p, r, a);
        var t := ApplyInternal(ConfigFor(u, p), r.session, a).0;
        var h := r.history + [a];
        assert Count(h, p) == Count(r.history, p) + 1 by { assert h[..|h| - 1] == r.history; }
        assert s == t.(localSeq := Count(h, p));
        ExtendingKeepsInv(u, w, Replica(s, h), a);
      }
    }
  }

  lemma DeliverKeepsInv<S(!new), V(!new)>(u: Setup<S, V>, w: World<S, V>, q: PlayerId, m: nat)
    requires Inv(u, w) && TurnBased(u.game) && q in w.replicas && m < |w.sent|
    ensures Inv(u, Next(u, w, Delivers(q, m)))
  {
    hide Inv, Faithful, ApplyInternal, TurnBased, Playable;
    var r := w.replicas[q];
    InvAt(u, w, q);
    var i, a := MessageAction(u, w, m);
    var (s, o) := Delivered(u, w, q, m);
    assert (s, o) == ApplyInternal(ConfigFor(u, q), r.session, a);
    AcceptsExactly(u, q, r, a);
    if !o.Accepted? {
      RejectedSessionUnchanged(u, w, q, s, o);
    } else {
      DeliveryFollows(u, w, q, a, i);
      AcceptedStaysFaithful(u, q, r, a);
      var h := r.history + [a];
      assert a.player != q;
      assert Count(h, q) == Count(r.history, q) by { assert h[..|h| - 1] == r.history; }
      assert s == s.(localSeq := Count(h, q));
      assert h <= w.order;
      MovingKeepsInv(u, w, q, Replica(s, h));
    }
  }

  lemma AbandonKeepsInv<S(!new), V(!new)>(u: Setup<S, V>, w: World<S, V>, q: PlayerId, player: PlayerId)
    requires Inv(u, w) && q in w.replicas
    ensures Inv(u, Next(u, w, Abandons(q, player)))
  {
    hide Inv, After, Count;
    var r := w.replicas[q];
    var s := Abandon(ConfigFor(u, q), r.session, player).0;
    InvAt(u, w, q);
    assert Faithful(u, q, r.(session := s)) by {
      forall x ensures Expected(s, x) == Count(r.history, x) {
        assert Expected(r.session, x) == Count(r.history, x);
      }
    }
    MovingKeepsInv(u, w, q, r.(session := s));
  }

  lemma PublishKeepsInv<S(!new), V(!new)>(u: Setup<S, V>, w: World<S, V>)
    requires Inv(u, w)
    ensures Inv(u, Next(u, w, Publishes))
  {
    hide Recorded, Owned, SentByOwner, After, Count;
    if u.host in w.replicas {
      var w' := Next(u, w, Publishes);
      var r := w.replicas[u.host];
      assert (map p | p in u.players :: Expected(r.session, p)) == (map p | p in u.players :: Count(r.history, p));
      assert Truthful(u, w.order, w'.snapshots[|w.snapshots|]);
      OwnershipLasts(u, w, w');
    }
  }

  lemma AdoptKeepsInv<S(!new), V(!new)>(u: Setup<S, V>, w: World<S, V>, q: PlayerId, i: nat)
    requires Inv(u, w) && Careful(u, w, Adopts(q, i)) && q in w.replicas && i < |w.snapshots|
    ensures Inv(u, Next(u, w, Adopts(q, i)))
  {
    hide Inv, After, Count, RandomFree, Retained;
    if Adopted(u, w, q, i).1 {
      var (r, x) := (w.replicas[q], w.snapshots[i]);
      AdoptedIsFaithful(u, w, q, i);
      OwnMovesKept(u, w, q, x);
      MovingKeepsInv(u, w, q, Replica(Adopted(u, w, q, i).0, x.history));
    }
  }

  lemma CountersAdopted<S, V>(c: Config<S, V>, s: Session<S, V>, e: Envelope<V>, p: PlayerId)
    requires ApplyEnvelope(c, s, e).1 && (p in e.seq_ ==> e.seq_[p] >= 0)
    ensures Expected(ApplyEnvelope(c, s, e).0, p) == if p in e.seq_ then e.seq_[p] else 0
  {
  }

  /** An adopting session becomes exactly what the snapshot's history says. */
  lemma AdoptedIsFaithful<S(!new), V(!new)>(u: Setup<S, V>, w: World<S, V>, q: PlayerId, i: nat)
    requires Inv(u, w) && StateCodec(u.game) && RandomFree(u.game) && q in w.replicas && i < |w.snapshots|
    requires Adopted(u, w, q, i).1
    ensures Faithful(u, q, Replica(Adopted(u, w, q, i).0, w.snapshots[i].history))
    ensures w.snapshots[i].history <= w.order
  {
    hide Recorded, Owned, SentByOwner, After, Count, RandomFree, Retained;
    var x := w.snapshots[i];
    var s := Adopted(u, w, q, i).0;
    assert Truthful(u, w.order, x);
    assert x.history == w.order[..|x.history|];
    assert u.game.decodeState(x.envelope.state) == Some(After(u.game, u.seed, x.history).0);
    forall p ensures Expected(s, p) == Count(x.history, p) {
      CountersAdopted(ConfigFor(u, q), w.replicas[q].session, x.envelope, p);
      if p !in u.players { OnlyPlayersCount(u, w, |x.history|, p); }
    }
  }

  lemma {:induction false} OnlyPlayersCount<S(!new), V(!new)>(u: Setup<S, V>, w: World<S, V>, n: nat, p: PlayerId)
    requires Inv(u, w) && n <= |w.order| && p !in u.players
    ensures Count(w.order[..n], p) == 0
    decreases n
  {
    hide Faithful, Truthful, Legal, Numbered, Owned, SentByOwner;
    if n > 0 {
      OnlyPlayersCount(u, w, n - 1, p);
      assert w.order[..n][..n - 1] == w.order[..n - 1];
      assert OnAir(u, w.sent, w.order[n - 1]);
    }
  }

  /** An envelope that counts all of `q`'s moves was taken after the last of them. */
  lemma OwnMovesKept<S(!new), V(!new)>(u: Setup<S, V>, w: World<S, V>, q: PlayerId, x: Snapshot<V>)
    requires Inv(u, w) && q in w.replicas && x in w.snapshots
    ensures q in x.envelope.seq_
    ensures OwnKept(q, w.replicas[q].history, x.history) <==> !LosesOwnMove(q, w.replicas[q].session, x.envelope)
  {
    hide Recorded, Owned, SentByOwner, After, Count, RandomFree, Retained;
    var h := w.replicas[q].history;
    assert Truthful(u, w.order, x) && Faithful(u, q, w.replicas[q]);
    assert h == w.order[..|h|] && x.history == w.order[..|x.history|];
    CountsDecide(w.order, |h|, |x.history|, q);
  }

  /** Two prefixes of one order: the second has every `p`-move of the first when it counts as many. */
  lemma {:induction false} CountsDecide<V>(h: seq<Action<V>>, i: nat, j: nat, p: PlayerId)
    requires i <= |h| && j <= |h|
    ensures OwnKept(p, h[..i], h[..j]) <==> Count(h[..i], p) <= Count(h[..j], p)
    decreases i
  {
    hide Count;
    if i <= j {
      CountGrows(h, i, j, p);
    } else if h[i - 1].player == p {
      CountGrows(h, j, i - 1, p);
      CountGrows(h, i - 1, i, p);
      assert h[..i][i - 1] == h[i - 1];
    } else {
      CountsDecide(h, i - 1, j, p);
      SkipsOthers(h, i, p);
      assert forall k :: 0 <= k < i - 1 ==> h[..i][k] == h[..i - 1][k];
    }
  }

  lemma SkipsOthers<V>(h: seq<Action<V>>, i: nat, p: PlayerId)
    requires 0 < i <= |h| && h[i - 1].player != p
    ensures Count(h[..i], p) == Count(h[..i - 1], p)
  {
    assert h[..i][..i - 1] == h[..i - 1];
  }

  lemma NextKeepsInv<S(!new), V(!new)>(u: Setup<S, V>, w: World<S, V>, e: Event<V>)
    requires Inv(u, w) && TurnBased(u.game) && CodecStable(u.game) && Careful(u, w, e)
    ensures Inv(u, Next(u, w, e))
  {
    hide Inv, TurnBased, CodecStable, Careful;
    match e
    case Submits(p, kind, payload) => if p in w.replicas { SubmitKeepsInv(u, w, p, kind, payload); }
    case Delivers(q, m) => if q in w.replicas && m < |w.sent| { DeliverKeepsInv(u, w, q, m); }
    case Abandons(q, player) => if q in w.replicas { AbandonKeepsInv(u, w, q, player); }
    case Publishes => PublishKeepsInv(u, w);
    case Adopts(q, i) => if q in w.replicas && i < |w.snapshots| { AdoptKeepsInv(u, w, q, i); }
  }

  lemma {:induction false} RunKeepsInv<S(!new), V(!new)>(u: Setup<S, V>, w: World<S, V>, events: seq<Event<V>>)
    requires Inv(u, w) && TurnBased(u.game) && CodecStable(u.game) && CarefulRun(u, w, events)
    ensures Inv(u, Run(u, w, events))
    decreases |events|
  {
    hide Inv, Next, TurnBased, CodecStable, Careful;
    if events != [] {
      NextKeepsInv(u, w, events[0]);
      RunKeepsInv(u, Next(u, w, events[0]), events[1..]);
    }
  }

  lemma ReachableInv<S(!new), V(!new)>(u: Setup<S, V>, events: seq<Event<V>>)
    requires TurnBased(u.game) && CodecStable(u.game) && CarefulRun(u, Start(u), events)
    ensures Inv(u, Run(u, Start(u), events))
  {
    hide TurnBased, CodecStable, CarefulRun, Run;
    RunKeepsInv(u, Start(u), events);
  }

  // -- what every run guarantees ---------------------------------------------

  /**
    Any two sessions agree: one's history is a prefix of the other's, and as far as both
    have come they have the same board and the same counters, and, if neither ever adopted
    a board, the same log and generator position.
   */
  lemma ReplicasNeverDiverge<S(!new), V(!new)>(u: Setup<S, V>, events: seq<Event<V>>, p: PlayerId, q: PlayerId)
    requires TurnBased(u.game) && CodecStable(u.game) && CarefulRun(u, Start(u), events)
    requires p in u.players && q in u.players
    ensures
      var w := Run(u, Start(u), events);
      && p in w.replicas && q in w.replicas
      && var (a, b) := (w.replicas[p], w.replicas[q]);
      && (a.history <= b.history || b.history <= a.history)
      && (|a.history| == |b.history| ==>
           && a.history == b.history && a.session.state == b.session.state
           && a.session.version == b.session.version
           && (forall x :: Expected(a.session, x) == Expected(b.session, x))
           && (a.session.adoptedHostVersion == b.session.adoptedHostVersion == -1 ==>
                 a.session.log == b.session.log && a.session.random == b.session.random))
  {
    hide TurnBased, CodecStable, CarefulRun, After, Count, Recorded, Owned, SentByOwner, Truthful, Run, Start;
    ReachableInv(u, events);
    var w := Run(u, Start(u), events);
    var (a, b) := (w.replicas[p], w.replicas[q]);
    assert a.history == w.order[..|a.history|] && b.history == w.order[..|b.history|];
    forall x ensures |a.history| == |b.history| ==> Expected(a.session, x) == Expected(b.session, x) {
      assert Expected(a.session, x) == Count(a.history, x);
    }
  }

  /** The actions of one player in `h`, in order. */
  function By<V>(h: seq<Action<V>>, p: PlayerId): seq<Action<V>>
    decreases |h|
  {
    if h == [] then []
    else By(h[..|h| - 1], p) + if h[|h| - 1].player == p then [h[|h| - 1]] else []
  }

  lemma {:induction false} NumberedBy<V>(h: seq<Action<V>>, p: PlayerId)
    requires Numbered(h)
    ensures |By(h, p)| == Count(h, p)
    ensures forall i :: 0 <= i < |By(h, p)| ==> By(h, p)[i].player == p && By(h, p)[i].seq_ == i
    decreases |h|
  {
    if h != [] {
      var front := h[..|h| - 1];
      forall i | 0 <= i < |front| ensures front[i].seq_ == Count(front[..i], front[i].player) {
        assert front[..i] == h[..i] && front[i] == h[i];
      }
      NumberedBy(front, p);
      assert h[|h| - 1].seq_ == Count(front, h[|h| - 1].player);
    }
  }

  /** Exactly once: at every session each player's accepted actions are numbered 0, 1, 2, ... */
  lemma AcceptedExactlyOnce<S(!new), V(!new)>(u: Setup<S, V>, events: seq<Event<V>>, q: PlayerId, p: PlayerId)
    requires TurnBased(u.game) && CodecStable(u.game) && CarefulRun(u, Start(u), events) && q in u.players
    ensures
      var w := Run(u, Start(u), events);
      && q in w.replicas
      && var played := By(w.replicas[q].history, p);
      && (forall i :: 0 <= i < |played| ==> played[i].player == p && played[i].seq_ == i)
      && Expected(w.replicas[q].session, p) == |played|
  {
    hide TurnBased, CodecStable, CarefulRun, After, Count, Legal, OnAir, Owned, SentByOwner, Truthful, Run, Start, By;
    ReachableInv(u, events);
    var w := Run(u, Start(u), events);
    var h := w.replicas[q].history;
    forall i | 0 <= i < |h| ensures h[i].seq_ == Count(h[..i], h[i].player) {
      assert h[..i] == w.order[..i] && h[i] == w.order[i];
    }
    NumberedBy(h, p);
  }

  /**
    Nobody can get stuck: whatever was lost, delivering a message is accepted exactly when
    nobody has left at that session and it carries the next action of the common order.
   */
  lemma DeliveryAcceptedIffNext<S(!new), V(!new)>(u: Setup<S, V>, events: seq<Event<V>>, q: PlayerId, m: nat)
    requires TurnBased(u.game) && CodecStable(u.game) && CarefulRun(u, Start(u), events) && q in u.players
    requires m < |Run(u, Start(u), events).sent|
    ensures
      var w := Run(u, Start(u), events);
      && q in w.replicas
      && var (r, k) := (w.replicas[q], |w.replicas[q].history|);
      && (Delivered(u, w, q, m).1.Accepted? <==>
           && r.session.abandonedBy.None? && k < |w.order|
           && u.game.decodeAction(w.sent[m].value, w.sent[m].player) == Some(w.order[k]))
  {
    hide TurnBased, CodecStable, CarefulRun, After, Count, Run, Start, ApplyInternal, Playable, SentByOwner, Owned,
         OnAir, Truthful;
    ReachableInv(u, events);
    var w := Run(u, Start(u), events);
    var (r, k) := (w.replicas[q], |w.replicas[q].history|);
    var i, a := MessageAction(u, w, m);
    assert Delivered(u, w, q, m) == ApplyInternal(ConfigFor(u, q), r.session, a);
    AcceptsExactly(u, q, r, a);
    assert r.history == w.order[..k];
    if Delivered(u, w, q, m).1.Accepted? {
      DeliveryFollows(u, w, q, a, i);
    } else if k < |w.order| && w.order[k] == a {
      assert Playable(u.game, u.seed, w.order[..k], w.order[k]);
    }
  }
}
