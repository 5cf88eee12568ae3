/** The `GameSession` object: its fields assigned call by call, each call refining GameRules. */
module GameMachine {
  import opened FixedStep
  import opened Wrappers
  import Rules = GameRules

  class GameSession<S, V> {
    const config: Rules.Config<S, V>

    var state: S
    var log: seq<Rules.Action<V>>
    var nextSeqByPlayer: map<Rules.PlayerId, nat>
    var localSeq: nat
    var elapsedMs: real
    var tickRemainder: real
    var version: nat
    var adoptedHostVersion: int
    var abandonedBy: Option<Rules.PlayerId>
    var random: Rules.Rng

    ghost function Now(): Rules.Session<S, V>
      reads this
    {
      Rules.Session(state, log, nextSeqByPlayer, localSeq, elapsedMs, tickRemainder, version, adoptedHostVersion,
                    abandonedBy, random)
    }

    constructor (config: Rules.Config<S, V>)
      ensures this.config == config && Now() == Rules.New(config)
    {
      this.config := config;
      state := config.game.initial;
      log := [];
      nextSeqByPlayer := map p | p in config.players :: 0;
      localSeq, version, random := 0, 0, config.seed;
      elapsedMs, tickRemainder := 0.0, 0.0;
      adoptedHostVersion := -1;
      abandonedBy := None;
    }

    predicate IsOver()
      reads this
      ensures IsOver() == Rules.IsOver(config, Now())
    {
      abandonedBy.Some? || config.game.over(state)
    }

    method ApplyInternal(action: Rules.Action<V>) returns (outcome: Rules.Outcome<V>)
      modifies this
      ensures (Now(), outcome) == Rules.ApplyInternal(config, old(Now()), action)
    {
      if IsOver() { return Rules.Rejected(Rules.GameOver); }
      var expected := if action.player in nextSeqByPlayer then nextSeqByPlayer[action.player] else 0;
      if action.seq_ < expected { return Rules.Rejected(Rules.Duplicate); }
      if action.seq_ > expected { return Rules.Rejected(Rules.OutOfOrder); }
      var (ok, drawn) := config.game.validate(state, action, elapsedMs, random);
      random := drawn;
      if !ok { return Rules.Rejected(Rules.Invalid); }
      var (next, drawnToo) := config.game.apply(state, action, elapsedMs, random);
      state, random := next, drawnToo;
      Record(action, expected);
      return Rules.Accepted(action, |log| - 1);
    }

    /** The bookkeeping of an accepted action: its player's number, the version and the bounded log. */
    method Record(action: Rules.Action<V>, expected: nat)
      modifies this
      ensures
        var s := old(Now());
        Now() == s.(nextSeqByPlayer := s.nextSeqByPlayer[action.player := expected + 1], version := s.version + 1,
                    log := Rules.Trim(s.log + [action], config.historyLimit))
    {
      nextSeqByPlayer := nextSeqByPlayer[action.player := expected + 1];
      version := version + 1;
      log := log + [action];
      if |log| > config.historyLimit { log := log[1..]; }
    }

    method SubmitLocal(kind: string, payload: V) returns (outcome: Rules.Outcome<V>)
      modifies this
      ensures (Now(), outcome) == Rules.SubmitLocal(config, old(Now()), kind, payload)
    {
      var draft := Rules.Action(kind, config.localPlayer, localSeq, payload);
      var action := config.game.decodeAction(config.game.encodeAction(draft), config.localPlayer);
      if action.None? { return Rules.Rejected(Rules.Invalid); }
      outcome := ApplyInternal(action.value);
      if outcome.Accepted? { localSeq := localSeq + 1; }
    }

    method ApplyRemote(value: V, player: Rules.PlayerId) returns (outcome: Rules.Outcome<V>)
      modifies this
      ensures (Now(), outcome) == Rules.ApplyRemote(config, old(Now()), value, player)
    {
      if player !in config.players { return Rules.Rejected(Rules.NotAPlayer); }
      var action := config.game.decodeAction(value, player);
      if action.None? { return Rules.Rejected(Rules.Invalid); }
      if action.value.player != player { return Rules.Rejected(Rules.NotAPlayer); }
      outcome := ApplyInternal(action.value);
    }

    method Tick(deltaMs: real)
      requires config.game.tickRate > 0.0
      modifies this
      ensures Now() == Rules.Tick(config, old(Now()), deltaMs)
    {
      if !config.game.realtime || deltaMs <= 0.0 { return; }
      var step := Rules.StepMs(config.game);
      tickRemainder := tickRemainder + deltaMs;
      var steps := (tickRemainder / step).Floor;
      if steps > Rules.MAX_STEPS {
        steps := Rules.MAX_STEPS;
        tickRemainder := 0.0;
      } else {
        tickRemainder := tickRemainder - Span(steps, step);
      }
      RunSteps(step, steps);
    }

    /** The loop of `Tick`. */
    method RunSteps(step: real, steps: int)
      modifies this
      ensures Now() == Rules.Advance(config.game, old(Now()), step, if steps < 0 then 0 else steps)
    {
      var i := 0;
      ghost var n: nat := if steps < 0 then 0 else steps;
      while i < steps
        invariant 0 <= i <= n
        invariant Rules.Advance(config.game, Now(), step, n - i) == Rules.Advance(config.game, old(Now()), step, n)
      {
        StepOnce(step);
        i := i + 1;
      }
    }

    method StepOnce(step: real)
      modifies this
      ensures
        var s := old(Now());
        var (next, drawn) := config.game.tick(s.state, s.elapsedMs + step, step, s.random);
        Now() == s.(elapsedMs := s.elapsedMs + step, state := next, random := drawn)
    {
      elapsedMs := elapsedMs + step;
      var (next, drawn) := config.game.tick(state, elapsedMs, step, random);
      state, random := next, drawn;
    }

    /** Only reads: every player's counter, whether or not it was ever set. */
    method SnapshotEnvelope() returns (e: Rules.Envelope<V>)
      ensures e == Rules.SnapshotEnvelope(config, Now())
      ensures e.version == version && e.seq_.Keys == (set p | p in config.players)
    {
      var counters: map<Rules.PlayerId, int> := map[];
      for i := 0 to |config.players|
        invariant counters == map p | p in config.players[..i] :: Rules.Expected(Now(), p)
      {
        var p := config.players[i];
        assert config.players[..i + 1] == config.players[..i] + [p];
        counters := counters[p := if p in nextSeqByPlayer then nextSeqByPlayer[p] else 0];
      }
      assert config.players[..|config.players|] == config.players;
      return Rules.Envelope(config.game.encodeState(state), counters, version, elapsedMs);
    }

    method ApplySnapshotEnvelope(e: Rules.Envelope<V>) returns (adopted: bool)
      modifies this
      ensures (Now(), adopted) == Rules.ApplyEnvelope(config, old(Now()), e)
    {
      if config.isHost || e.version < adoptedHostVersion { return false; }
      var next := config.game.decodeState(e.state);
      if next.None? { return false; }
      state := next.value;
      version := e.version;
      adoptedHostVersion := e.version;
      elapsedMs := e.elapsedMs;
      nextSeqByPlayer := map p | p in e.seq_ && e.seq_[p] >= 0 :: e.seq_[p];
      if config.localPlayer in nextSeqByPlayer { localSeq := nextSeqByPlayer[config.localPlayer]; }
      return true;
    }

    method ApplySnapshot(value: V) returns (adopted: bool)
      modifies this
      ensures (Now(), adopted) == Rules.ApplySnapshot(config, old(Now()), value)
    {
      if config.isHost { return false; }
      var next := config.game.decodeState(value);
      if next.None? { return false; }
      state := next.value;
      return true;
    }

    method Abandon(player: Rules.PlayerId) returns (left: bool)
      modifies this
      ensures (Now(), left) == Rules.Abandon(config, old(Now()), player)
    {
      if IsOver() || player !in config.players { return false; }
      abandonedBy := Some(player);
      return true;
    }
  }

  /** The replay loop, stopping at the first action that does not validate. */
  method Replay<S, V>(config: Rules.Config<S, V>, actions: seq<Rules.Action<V>>) returns (state: S)
    ensures state == Rules.Replay(config, actions).0
  {
    state := config.game.initial;
    var random := config.seed;
    for i := 0 to |actions|
      invariant Rules.ReplayFrom(config.game, state, random, actions[i..]) == Rules.Replay(config, actions)
    {
      assert actions[i..][0] == actions[i] && actions[i..][1..] == actions[i + 1..];
      var (ok, drawn) := config.game.validate(state, actions[i], 0.0, random);
      if !ok { return; }
      var (next, drawnToo) := config.game.apply(state, actions[i], 0.0, drawn);
      state, random := next, drawnToo;
    }
  }
}
