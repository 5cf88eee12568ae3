/**
  The replicated game runtime as functions on a session's state.  The game itself is a
  parameter: a reducer, its validator, its codecs and a pseudo-random generator whose
  position is threaded through every call that may draw from it.
 */
module GameRules {
  import opened FixedStep
  import opened Wrappers

  type PlayerId = string
  type Rng = nat

  datatype Action<+V> = Action(kind: string, player: PlayerId, seq_: int, payload: V)

  datatype Game<!S, !V> = Game(
    initial: S,
    validate: (S, Action<V>, real, Rng) -> (bool, Rng),
    apply: (S, Action<V>, real, Rng) -> (S, Rng),
    tick: (S, real, real, Rng) -> (S, Rng),
    realtime: bool,
    tickRate: real,
    over: S -> bool,
    turn: S -> Option<PlayerId>,
    encodeState: S -> V,
    decodeState: V -> Option<S>,
    encodeAction: Action<V> -> V,
    decodeAction: (V, PlayerId) -> Option<Action<V>>)

  datatype Config<!S, !V> = Config(
    game: Game<S, V>, players: seq<PlayerId>, localPlayer: PlayerId, isHost: bool, historyLimit: nat, seed: Rng)

  datatype Session<+S, +V> = Session(
    state: S, log: seq<Action<V>>, nextSeqByPlayer: map<PlayerId, nat>, localSeq: nat,
    elapsedMs: real, tickRemainder: real, version: nat, adoptedHostVersion: int,
    abandonedBy: Option<PlayerId>, random: Rng)

  datatype Rejection = Invalid | Duplicate | OutOfOrder | GameOver | NotAPlayer

  datatype Outcome<+V> = Accepted(action: Action<V>, index: int) | Rejected(reason: Rejection)

  datatype Envelope<+V> = Envelope(state: V, seq_: map<PlayerId, int>, version: nat, elapsedMs: real)

  function New<S, V>(c: Config<S, V>): Session<S, V> {
    Session(c.game.initial, [], map p | p in c.players :: 0, 0, 0.0, 0.0, 0, -1, None, c.seed)
  }

  predicate IsOver<S, V>(c: Config<S, V>, s: Session<S, V>) {
    s.abandonedBy.Some? || c.game.over(s.state)
  }

  function Expected<S, V>(s: Session<S, V>, p: PlayerId): nat {
    if p in s.nextSeqByPlayer then s.nextSeqByPlayer[p] else 0
  }

  // -- actions ---------------------------------------------------------------

  function Trim<V>(log: seq<Action<V>>, limit: nat): seq<Action<V>> {
    if |log| > limit then log[1..] else log
  }

  function ApplyInternal<S, V>(c: Config<S, V>, s: Session<S, V>, a: Action<V>): (Session<S, V>, Outcome<V>) {
    if IsOver(c, s) then (s, Rejected(GameOver))
    else if a.seq_ < Expected(s, a.player) then (s, Rejected(Duplicate))
    else if a.seq_ > Expected(s, a.player) then (s, Rejected(OutOfOrder))
    else
      var (ok, r1) := c.game.validate(s.state, a, s.elapsedMs, s.random);
      if !ok then (s.(random := r1), Rejected(Invalid))
      else
        var (state, r2) := c.game.apply(s.state, a, s.elapsedMs, r1);
        var log := Trim(s.log + [a], c.historyLimit);
        (s.(state := state, random := r2, nextSeqByPlayer := s.nextSeqByPlayer[a.player := Expected(s, a.player) + 1],
            version := s.version + 1, log := log),
         Accepted(a, |log| - 1))
  }

  function SubmitLocal<S, V>(c: Config<S, V>, s: Session<S, V>, kind: string, payload: V): (Session<S, V>, Outcome<V>) {
    var draft := Action(kind, c.localPlayer, s.localSeq, payload);
    match c.game.decodeAction(c.game.encodeAction(draft), c.localPlayer)
    case None => (s, Rejected(Invalid))
    case Some(a) =>
      var (s', outcome) := ApplyInternal(c, s, a);
      (if outcome.Accepted? then s'.(localSeq := s'.localSeq + 1) else s', outcome)
  }

  function ApplyRemote<S, V>(
      c: Config<S, V>, s: Session<S, V>, value: V, player: PlayerId): (Session<S, V>, Outcome<V>) {
    if player !in c.players then (s, Rejected(NotAPlayer))
    else match c.game.decodeAction(value, player)
      case None => (s, Rejected(Invalid))
      case Some(a) => if a.player != player then (s, Rejected(NotAPlayer)) else ApplyInternal(c, s, a)
  }

  // -- snapshots -------------------------------------------------------------

  function SnapshotEnvelope<S, V>(c: Config<S, V>, s: Session<S, V>): Envelope<V> {
    Envelope(c.game.encodeState(s.state), map p | p in c.players :: Expected(s, p), s.version, s.elapsedMs)
  }

  function ApplyEnvelope<S, V>(c: Config<S, V>, s: Session<S, V>, e: Envelope<V>): (Session<S, V>, bool) {
    if c.isHost || e.version < s.adoptedHostVersion then (s, false)
    else match c.game.decodeState(e.state)
      case None => (s, false)
      case Some(state) =>
        var counters := map p | p in e.seq_ && e.seq_[p] >= 0 :: e.seq_[p];
        (s.(state := state, version := e.version, adoptedHostVersion := e.version, elapsedMs := e.elapsedMs,
            nextSeqByPlayer := counters,
            localSeq := if c.localPlayer in counters then counters[c.localPlayer] else s.localSeq),
         true)
  }

  /** The older repair, which carries a board and nothing else. */
  function ApplySnapshot<S, V>(c: Config<S, V>, s: Session<S, V>, value: V): (Session<S, V>, bool) {
    if c.isHost then (s, false)
    else match c.game.decodeState(value)
      case None => (s, false)
      case Some(state) => (s.(state := state), true)
  }

  function Abandon<S, V>(c: Config<S, V>, s: Session<S, V>, player: PlayerId): (Session<S, V>, bool) {
    if IsOver(c, s) || player !in c.players then (s, false) else (s.(abandonedBy := Some(player)), true)
  }

  // -- ticks -----------------------------------------------------------------

  const MAX_STEPS := 600

  function StepMs<S, V>(g: Game<S, V>): real
    requires g.tickRate > 0.0
  {
    1000.0 / g.tickRate
  }

  function Advance<S, V>(g: Game<S, V>, s: Session<S, V>, step: real, n: nat): Session<S, V>
    decreases n
  {
    if n == 0 then s
    else
      var elapsed := s.elapsedMs + step;
      var (state, r) := g.tick(s.state, elapsed, step, s.random);
      Advance(g, s.(elapsedMs := elapsed, state := state, random := r), step, n - 1)
  }

  /** Whole steps due after `delta` more milliseconds, before the cap. */
  function StepsDue<S, V>(g: Game<S, V>, remainder: real, delta: real): int
    requires g.tickRate > 0.0
  {
    ((remainder + delta) / StepMs(g)).Floor
  }

  function Tick<S, V>(c: Config<S, V>, s: Session<S, V>, delta: real): Session<S, V>
    requires c.game.tickRate > 0.0
  {
    if !c.game.realtime || delta <= 0.0 then s
    else
      var step := StepMs(c.game);
      var due := StepsDue(c.game, s.tickRemainder, delta);
      if due > MAX_STEPS then Advance(c.game, s.(tickRemainder := 0.0), step, MAX_STEPS)
      else if due < 0 then s.(tickRemainder := s.tickRemainder + delta - Span(due, step))
      else Advance(c.game, s.(tickRemainder := s.tickRemainder + delta - Span(due, step)), step, due)
  }

  // -- replay ----------------------------------------------------------------

  /** Replays until the end or the first action that does not validate. */
  function ReplayFrom<S, V>(g: Game<S, V>, state: S, r: Rng, actions: seq<Action<V>>): (S, Rng)
    decreases |actions|
  {
    if actions == [] then (state, r)
    else
      var (ok, r1) := g.validate(state, actions[0], 0.0, r);
      if !ok then (state, r1)
      else
        var (state', r2) := g.apply(state, actions[0], 0.0, r1);
        ReplayFrom(g, state', r2, actions[1..])
  }

  function Replay<S, V>(c: Config<S, V>, actions: seq<Action<V>>): (S, Rng) {
    ReplayFrom(c.game, c.game.initial, c.seed, actions)
  }
}
