/**
  Time in a realtime game: how many fixed steps a session runs, and that replaying its log
  rebuilds a turn-based one.
 */
module GameTicks {
  import opened FixedStep
  import opened Wrappers
  import opened GameRules
  import GameReplication

  // -- the accumulator -------------------------------------------------------

  function TickAll<S, V>(c: Config<S, V>, s: Session<S, V>, deltas: seq<real>): Session<S, V>
    requires c.game.tickRate > 0.0
    decreases |deltas|
  {
    if deltas == [] then s else TickAll(c, Tick(c, s, deltas[0]), deltas[1..])
  }

  /** Time that counts: a call with no positive delta is ignored. */
  function Total(deltas: seq<real>): real
    decreases |deltas|
  {
    if deltas == [] then 0.0 else (if deltas[0] > 0.0 then deltas[0] else 0.0) + Total(deltas[1..])
  }

  /** Steps one call runs. */
  function Taken<S, V>(c: Config<S, V>, s: Session<S, V>, delta: real): int
    requires c.game.tickRate > 0.0
  {
    if delta <= 0.0 then 0
    else
      var due := StepsDue(c.game, s.tickRemainder, delta);
      if due > MAX_STEPS then MAX_STEPS else due
  }

  function TakenAll<S, V>(c: Config<S, V>, s: Session<S, V>, deltas: seq<real>): int
    requires c.game.tickRate > 0.0
    decreases |deltas|
  {
    if deltas == [] then 0 else Taken(c, s, deltas[0]) + TakenAll(c, Tick(c, s, deltas[0]), deltas[1..])
  }

  /** Does this call have more to make up than the cap allows? */
  predicate Capped<S, V>(c: Config<S, V>, s: Session<S, V>, delta: real)
    requires c.game.tickRate > 0.0
  {
    delta > 0.0 && StepsDue(c.game, s.tickRemainder, delta) > MAX_STEPS
  }

  /** Does some call? */
  predicate HitsCap<S, V>(c: Config<S, V>, s: Session<S, V>, deltas: seq<real>)
    requires c.game.tickRate > 0.0
    decreases |deltas|
  {
    && deltas != []
    && (Capped(c, s, deltas[0]) || HitsCap(c, Tick(c, s, deltas[0]), deltas[1..]))
  }

  ghost predicate Ready<S, V>(c: Config<S, V>, s: Session<S, V>) {
    && c.game.tickRate > 0.0 && c.game.realtime
    && 0.0 <= s.tickRemainder < StepMs(c.game)
  }

  lemma {:induction false} AdvanceAdds<S, V>(g: Game<S, V>, s: Session<S, V>, step: real, n: nat, m: nat)
    ensures Advance(g, s, step, n + m) == Advance(g, Advance(g, s, step, n), step, m)
    decreases n
  {
    if n > 0 {
      var elapsed := s.elapsedMs + step;
      var (state, r) := g.tick(s.state, elapsed, step, s.random);
      AdvanceAdds(g, s.(elapsedMs := elapsed, state := state, random := r), step, n - 1, m);
    }
  }

  /** The remainder rides along untouched. */
  lemma {:induction false} AdvanceIgnoresRemainder<S, V>(
      g: Game<S, V>, s: Session<S, V>, step: real, n: nat, rest: real)
    ensures Advance(g, s.(tickRemainder := rest), step, n) == Advance(g, s, step, n).(tickRemainder := rest)
    decreases n
  {
    if n > 0 {
      var elapsed := s.elapsedMs + step;
      var (state, r) := g.tick(s.state, elapsed, step, s.random);
      AdvanceIgnoresRemainder(g, s.(elapsedMs := elapsed, state := state, random := r), step, n - 1, rest);
    }
  }

  lemma AdvanceNothing<S, V>(g: Game<S, V>, s: Session<S, V>, step: real)
    ensures Advance(g, s, step, 0) == s
  {
  }

  /** One call: it runs its steps and carries the rest of the time forward, or drops it at the cap. */
  lemma TickStep<S, V>(c: Config<S, V>, s: Session<S, V>, delta: real)
    requires Ready(c, s)
    ensures
      var n := Taken(c, s, delta);
      var t := Tick(c, s, delta);
      var all := s.tickRemainder + if delta > 0.0 then delta else 0.0;
      && n >= 0 && Ready(c, t)
      && t == Advance(c.game, s, StepMs(c.game), n).(tickRemainder := t.tickRemainder)
      && (Capped(c, s, delta) ==> t.tickRemainder == 0.0 && Span(n + 1, StepMs(c.game)) <= all)
      && (!Capped(c, s, delta) ==> t.tickRemainder == all - Span(n, StepMs(c.game)))
  {
    hide Advance, Span, StepMs;
    var step := StepMs(c.game);
    SpanOne(step);
    if delta > 0.0 {
      var all := s.tickRemainder + delta;
      var due := StepsDue(c.game, s.tickRemainder, delta);
      FloorOf(all, step, due);
      SpanOrder(due, 0, step);
      SpanOrder(due + 1, 0, step);
      SpanOrder(due + 1, 1, step);
      SpanAdds(due, 1, step);
      if due > MAX_STEPS {
        SpanOrder(due, MAX_STEPS + 1, step);
        AdvanceIgnoresRemainder(c.game, s, step, MAX_STEPS, 0.0);
      } else {
        AdvanceIgnoresRemainder(c.game, s, step, due, all - Span(due, step));
      }
    } else {
      AdvanceNothing(c.game, s, step);
    }
  }

  /** Time counted by two stretches, the second starting from what the first left over. */
  lemma JoinStretches(n: int, m: int, step: real, first: real, rest: real, second: real, last: real)
    requires Span(n, step) + rest <= first && Span(m, step) + last <= rest + second
    ensures Span(n + m, step) + last <= first + second
    ensures Span(n, step) + rest == first && Span(m, step) + last == rest + second
            ==> Span(n + m, step) + last == first + second
  {
    hide Span;
    SpanAdds(n, m, step);
  }

  /**
    Fixed-step time over any calls: the session has advanced by exactly the steps taken,
    the remainder stays below one step, and all the time is accounted for by steps and
    remainder until some call hits the cap, which loses at least one step for good.
   */
  lemma {:induction false} TimeAccounts<S, V>(c: Config<S, V>, s: Session<S, V>, deltas: seq<real>)
    requires Ready(c, s)
    ensures TakenAll(c, s, deltas) >= 0 && Ready(c, TickAll(c, s, deltas))
    ensures
      var n := TakenAll(c, s, deltas);
      var t := TickAll(c, s, deltas);
      var all := s.tickRemainder + Total(deltas);
      && (HitsCap(c, s, deltas) ==> Span(n + 1, StepMs(c.game)) + t.tickRemainder <= all)
      && (!HitsCap(c, s, deltas) ==> Span(n, StepMs(c.game)) + t.tickRemainder == all)
    decreases |deltas|
  {
    hide Advance, Tick, Taken, StepMs, Capped, Span;
    if deltas == [] {
      SpanOne(StepMs(c.game));
    } else {
      var d := deltas[0];
      var s' := Tick(c, s, d);
      var step := StepMs(c.game);
      var (n, m) := (Taken(c, s, d), TakenAll(c, s', deltas[1..]));
      TickStep(c, s, d);
      TimeAccounts(c, s', deltas[1..]);
      var first := s.tickRemainder + if d > 0.0 then d else 0.0;
      var (more, last) := (Total(deltas[1..]), TickAll(c, s', deltas[1..]).tickRemainder);
      assert Span(n + 1 + m, step) == Span(n + m + 1, step);
      SpanOrder(m, m + 1, step);
      if Capped(c, s, d) {
        JoinStretches(n + 1, m, step, first, 0.0, more, last);
      } else if HitsCap(c, s', deltas[1..]) {
        JoinStretches(n, m + 1, step, first, s'.tickRemainder, more, last);
      } else {
        JoinStretches(n, m, step, first, s'.tickRemainder, more, last);
      }
    }
  }

  /** Where any calls lead: the start advanced by the steps they took. */
  lemma {:induction false} CallsAdvance<S, V>(c: Config<S, V>, s: Session<S, V>, deltas: seq<real>)
    requires Ready(c, s)
    ensures TakenAll(c, s, deltas) >= 0
    ensures
      var t := TickAll(c, s, deltas);
      t == Advance(c.game, s, StepMs(c.game), TakenAll(c, s, deltas)).(tickRemainder := t.tickRemainder)
    decreases |deltas|
  {
    hide Advance, Tick, Taken, StepMs, StepsDue, HitsCap, Capped, Span;
    var step := StepMs(c.game);
    if deltas == [] {
      AdvanceNothing(c.game, s, step);
    } else {
      var s' := Tick(c, s, deltas[0]);
      var (n, m) := (Taken(c, s, deltas[0]), TakenAll(c, s', deltas[1..]));
      TickStep(c, s, deltas[0]);
      CallsAdvance(c, s', deltas[1..]);
      AdvanceAdds(c.game, s, step, n, m);
      AdvanceIgnoresRemainder(c.game, Advance(c.game, s, step, n), step, m, s'.tickRemainder);
    }
  }

  /** Steps never exceed the floor of time over step, and reach it exactly when no call hits the cap. */
  lemma StepsAreTheFloor<S, V>(c: Config<S, V>, s: Session<S, V>, deltas: seq<real>)
    requires Ready(c, s)
    ensures
      var due := ((s.tickRemainder + Total(deltas)) / StepMs(c.game)).Floor;
      && 0 <= TakenAll(c, s, deltas) <= due
      && (TakenAll(c, s, deltas) == due <==> !HitsCap(c, s, deltas))
  {
    hide Tick, Taken, TakenAll, TickAll, HitsCap, Total, Advance, Span;
    TimeAccounts(c, s, deltas);
    FloorBy(s.tickRemainder + Total(deltas), StepMs(c.game), TakenAll(c, s, deltas),
            TickAll(c, s, deltas).tickRemainder);
  }

  /** However the same time is cut into calls, the same steps run and the same state is reached. */
  lemma SplittingDoesNotMatter<S, V>(c: Config<S, V>, s: Session<S, V>, one: seq<real>, other: seq<real>)
    requires Ready(c, s) && Total(one) == Total(other)
    requires !HitsCap(c, s, one) && !HitsCap(c, s, other)
    ensures TakenAll(c, s, one) == TakenAll(c, s, other)
    ensures TickAll(c, s, one) == TickAll(c, s, other)
  {
    hide Tick, Taken, TakenAll, TickAll, HitsCap, Total;
    TimeAccounts(c, s, one);
    TimeAccounts(c, s, other);
    CallsAdvance(c, s, one);
    CallsAdvance(c, s, other);
    StepsAreTheFloor(c, s, one);
    StepsAreTheFloor(c, s, other);
  }

  // -- against the rate itself -----------------------------------------------

  /** Boards and generator positions of successive steps, from `s` on: each step is told the clock it ends at. */
  ghost predicate Trail<S, V>(g: Game<S, V>, s: Session<S, V>, trail: seq<(S, Rng)>)
    requires g.tickRate > 0.0
  {
    && trail != [] && trail[0] == (s.state, s.random)
    && forall i :: 0 <= i < |trail| - 1 ==>
         trail[i + 1] == g.tick(trail[i].0, ClockAfter(g, s, i + 1), 1000.0 / g.tickRate, trail[i].1)
  }

  /** The clock `n` steps of a `tickRate`-th of a second later. */
  function ClockAfter<S, V>(g: Game<S, V>, s: Session<S, V>, n: int): real
    requires g.tickRate > 0.0
  {
    s.elapsedMs + n as real * 1000.0 / g.tickRate
  }

  /** `t` is `s` after the steps of `trail`, with `rest` of the time left over. */
  ghost predicate Stepped<S, V>(
    g: Game<S, V>, s: Session<S, V>, t: Session<S, V>, n: nat, rest: real, trail: seq<(S, Rng)>)
    requires g.tickRate > 0.0
  {
    && |trail| == n + 1 && Trail(g, s, trail)
    && t == s.(elapsedMs := ClockAfter(g, s, n), state := trail[n].0, random := trail[n].1, tickRemainder := rest)
  }

  lemma PerStep(x: real, rate: real)
    requires rate > 0.0
    ensures x / (1000.0 / rate) == x * rate / 1000.0
  {
    var step := 1000.0 / rate;
    assert step * rate == 1000.0;
    var q := x / step;
    assert q * step == x;
    assert q * step * rate == q * (step * rate);
    assert q * 1000.0 == x * rate;
  }

  lemma TimesStep(n: int, rate: real)
    requires rate > 0.0
    ensures Span(n, 1000.0 / rate) == n as real * 1000.0 / rate
  {
  }

  lemma {:induction false} AdvanceTrails<S, V>(g: Game<S, V>, s: Session<S, V>, n: nat) returns (trail: seq<(S, Rng)>)
    requires g.tickRate > 0.0
    ensures Stepped(g, s, Advance(g, s, 1000.0 / g.tickRate, n), n, s.tickRemainder, trail)
    decreases n
  {
    var step := 1000.0 / g.tickRate;
    if n == 0 {
      trail := [(s.state, s.random)];
    } else {
      var (state, r) := g.tick(s.state, s.elapsedMs + step, step, s.random);
      var s1 := s.(elapsedMs := s.elapsedMs + step, state := state, random := r);
      var rest := AdvanceTrails(g, s1, n - 1);
      trail := [(s.state, s.random)] + rest;
      forall k: nat ensures ClockAfter(g, s1, k) == ClockAfter(g, s, k + 1) {
        OneLater(g, s, k);
      }
      forall i | 0 <= i < |trail| - 1
        ensures trail[i + 1] == g.tick(trail[i].0, ClockAfter(g, s, i + 1), step, trail[i].1)
      {
        OneLater(g, s, i);
        assert i > 0 ==> trail[i] == rest[i - 1] && trail[i + 1] == rest[i];
      }
      assert trail[n] == rest[n - 1];
    }
  }

  lemma OneLater<S, V>(g: Game<S, V>, s: Session<S, V>, k: nat)
    requires g.tickRate > 0.0
    ensures ClockAfter(g, s, k + 1) == (s.elapsedMs + 1000.0 / g.tickRate) + k as real * 1000.0 / g.tickRate
    ensures k == 0 ==> ClockAfter(g, s, k + 1) == s.elapsedMs + 1000.0 / g.tickRate
  {
    var step := 1000.0 / g.tickRate;
    assert (k + 1) as real * 1000.0 / g.tickRate == (k + 1) as real * step;
    assert k as real * 1000.0 / g.tickRate == k as real * step;
    assert (k + 1) as real * step == k as real * step + step;
  }

  /**
    One call against the rate: the whole steps of a `tickRate`-th of a second that fit are
    run, at most 600 of them, each told its clock and that length, and what is left over is
    carried forward, or dropped when there were more.
   */
  lemma TickAgainstRate<S, V>(c: Config<S, V>, s: Session<S, V>, delta: real) returns (trail: seq<(S, Rng)>)
    requires c.game.tickRate > 0.0 && 0.0 <= s.tickRemainder < 1000.0 / c.game.tickRate
    ensures !c.game.realtime || delta <= 0.0 ==> Tick(c, s, delta) == s
    ensures c.game.realtime && delta > 0.0 ==>
      var due := ((s.tickRemainder + delta) * c.game.tickRate / 1000.0).Floor;
      var n := if due > 600 then 600 else due;
      var rest := if due > 600 then 0.0 else s.tickRemainder + delta - n as real * 1000.0 / c.game.tickRate;
      && n >= 0 && 0.0 <= rest < 1000.0 / c.game.tickRate
      && Taken(c, s, delta) == n && (Capped(c, s, delta) <==> due > 600)
      && Stepped(c.game, s, Tick(c, s, delta), n, rest, trail)
  {
    hide Advance, Span, Stepped;
    trail := [];
    if c.game.realtime && delta > 0.0 {
      assert StepMs(c.game) == 1000.0 / c.game.tickRate;
      PerStep(s.tickRemainder + delta, c.game.tickRate);
      TickStep(c, s, delta);
      var n := Taken(c, s, delta);
      TimesStep(n, c.game.tickRate);
      trail := AdvanceTrails(c.game, s, n);
      var t := Advance(c.game, s, 1000.0 / c.game.tickRate, n);
      RemainderAside(c.game, s, t, n, Tick(c, s, delta).tickRemainder, trail);
    }
  }

  lemma RemainderAside<S, V>(
      g: Game<S, V>, s: Session<S, V>, t: Session<S, V>, n: nat, rest: real, trail: seq<(S, Rng)>)
    requires g.tickRate > 0.0 && Stepped(g, s, t, n, s.tickRemainder, trail)
    ensures Stepped(g, s, t.(tickRemainder := rest), n, rest, trail)
  {
  }

  /**
    Any calls against the rate: with no capped call the steps are the floor of the time in
    seconds times the rate; the clock has moved by that many steps, whatever was capped; and
    the board is where so many steps, each told its clock and its length, lead.
   */
  lemma CallsAgainstRate<S, V>(c: Config<S, V>, s: Session<S, V>, deltas: seq<real>) returns (trail: seq<(S, Rng)>)
    requires c.game.tickRate > 0.0 && c.game.realtime && 0.0 <= s.tickRemainder < 1000.0 / c.game.tickRate
    ensures
      var (t, n) := (TickAll(c, s, deltas), TakenAll(c, s, deltas));
      && n >= 0 && 0.0 <= t.tickRemainder < 1000.0 / c.game.tickRate
      && Stepped(c.game, s, t, n, t.tickRemainder, trail)
      && (!HitsCap(c, s, deltas) ==>
            && n == ((s.tickRemainder + Total(deltas)) * c.game.tickRate / 1000.0).Floor
            && t.tickRemainder == s.tickRemainder + Total(deltas) - n as real * 1000.0 / c.game.tickRate)
  {
    hide Advance, Span, Stepped, Tick, Taken, TakenAll, TickAll, HitsCap, Total;
    assert StepMs(c.game) == 1000.0 / c.game.tickRate;
    TimeAccounts(c, s, deltas);
    CallsAdvance(c, s, deltas);
    StepsAreTheFloor(c, s, deltas);
    PerStep(s.tickRemainder + Total(deltas), c.game.tickRate);
    var n := TakenAll(c, s, deltas);
    TimesStep(n, c.game.tickRate);
    trail := AdvanceTrails(c.game, s, n);
    RemainderAside(c.game, s, Advance(c.game, s, 1000.0 / c.game.tickRate, n), n,
                   TickAll(c, s, deltas).tickRemainder, trail);
  }

  // -- replay ----------------------------------------------------------------

  datatype Op<+V> =
    | LocalMove(kind: string, payload: V)
    | PeerMove(value: V, player: PlayerId)
    | Leaves(player: PlayerId)

  function Do<S, V>(c: Config<S, V>, s: Session<S, V>, op: Op<V>): Session<S, V> {
    match op
    case LocalMove(kind, payload) => SubmitLocal(c, s, kind, payload).0
    case PeerMove(value, player) => ApplyRemote(c, s, value, player).0
    case Leaves(player) => Abandon(c, s, player).0
  }

  function DoAll<S, V>(c: Config<S, V>, s: Session<S, V>, ops: seq<Op<V>>): Session<S, V>
    decreases |ops|
  {
    if ops == [] then s else DoAll(c, Do(c, s, ops[0]), ops[1..])
  }

  /** Replaying `log` gets through all of it and arrives at `s`. */
  ghost predicate ReplaysTo<S, V>(c: Config<S, V>, log: seq<Action<V>>, s: Session<S, V>) {
    && (s.state, s.random) == GameReplication.After(c.game, c.seed, log)
    && forall i :: 0 <= i < |log| ==>
         var (state, r) := GameReplication.After(c.game, c.seed, log[..i]);
         c.game.validate(state, log[i], 0.0, r).0
  }

  /** A session that never ticked: its log, as long as nothing was dropped, replays to it. */
  ghost predicate Replayable<S, V>(c: Config<S, V>, s: Session<S, V>) {
    && s.elapsedMs == 0.0 && |s.log| <= s.version
    && (|s.log| == s.version ==> ReplaysTo(c, s.log, s))
  }

  lemma {:induction false} ReplayIsAfter<S, V>(g: Game<S, V>, seed: Rng, log: seq<Action<V>>, i: nat)
    requires i <= |log|
    requires forall k :: i <= k < |log| ==>
      var (state, r) := GameReplication.After(g, seed, log[..k]);
      g.validate(state, log[k], 0.0, r).0
    ensures
      var (state, r) := GameReplication.After(g, seed, log[..i]);
      ReplayFrom(g, state, r, log[i..]) == GameReplication.After(g, seed, log)
    decreases |log| - i
  {
    if i == |log| {
      assert log[..i] == log;
    } else {
      assert log[..i + 1][..i] == log[..i];
      assert log[i..][1..] == log[i + 1..];
      ReplayIsAfter(g, seed, log, i + 1);
    }
  }

  lemma ActionKeepsReplayable<S(!new), V(!new)>(c: Config<S, V>, s: Session<S, V>, a: Action<V>)
    requires Replayable(c, s) && GameReplication.RefusalsDrawNothing(c.game)
    ensures Replayable(c, ApplyInternal(c, s, a).0)
  {
    var (s', o) := ApplyInternal(c, s, a);
    if o.Accepted? {
      var log := s.log + [a];
      if |s'.log| == s'.version {
        assert s'.log == log && |s.log| == s.version;
        assert log[..|log| - 1] == s.log;
        forall i | 0 <= i < |log|
          ensures
            var (state, r) := GameReplication.After(c.game, c.seed, log[..i]);
            c.game.validate(state, log[i], 0.0, r).0
        {
          assert i < |s.log| ==> log[..i] == s.log[..i];
          assert i == |s.log| ==> log[..i] == s.log;
        }
      }
    } else {
      assert s' == s;
    }
  }

  lemma OpKeepsReplayable<S(!new), V(!new)>(c: Config<S, V>, s: Session<S, V>, op: Op<V>)
    requires Replayable(c, s) && GameReplication.RefusalsDrawNothing(c.game)
    ensures Replayable(c, Do(c, s, op))
  {
    hide ApplyInternal, GameReplication.After, GameReplication.RefusalsDrawNothing;
    match op
    case LocalMove(kind, payload) =>
      var draft := Action(kind, c.localPlayer, s.localSeq, payload);
      var a := c.game.decodeAction(c.game.encodeAction(draft), c.localPlayer);
      if a.Some? {
        ActionKeepsReplayable(c, s, a.value);
      }
    case PeerMove(value, player) =>
      var a := c.game.decodeAction(value, player);
      if a.Some? {
        ActionKeepsReplayable(c, s, a.value);
      }
    case Leaves(player) =>
  }

  lemma {:induction false} RunStaysReplayable<S(!new), V(!new)>(c: Config<S, V>, s: Session<S, V>, ops: seq<Op<V>>)
    requires Replayable(c, s) && GameReplication.RefusalsDrawNothing(c.game)
    ensures Replayable(c, DoAll(c, s, ops))
    decreases |ops|
  {
    hide Do, Replayable, GameReplication.RefusalsDrawNothing;
    if ops != [] {
      OpKeepsReplayable(c, s, ops[0]);
      RunStaysReplayable(c, Do(c, s, ops[0]), ops[1..]);
    }
  }

  /**
    Whatever was submitted, received, refused or abandoned on the way, replaying a log that
    has dropped nothing gives the live board and the live generator position.
   */
  lemma ReplayIsLive<S(!new), V(!new)>(c: Config<S, V>, ops: seq<Op<V>>)
    requires GameReplication.RefusalsDrawNothing(c.game)
    ensures
      var s := DoAll(c, New(c), ops);
      && |s.log| <= s.version
      && (|s.log| == s.version ==> Replay(c, s.log) == (s.state, s.random))
  {
    hide GameReplication.RefusalsDrawNothing, DoAll;
    RunStaysReplayable(c, New(c), ops);
    var s := DoAll(c, New(c), ops);
    if |s.log| == s.version {
      ReplayIsAfter(c.game, c.seed, s.log, 0);
      assert s.log[..0] == [] && s.log[0..] == s.log;
    }
  }
}
