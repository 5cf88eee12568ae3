/**
  Repairing a guest from the host's envelope: what is equal afterwards, and which pairs
  then take every move that either of them goes on to take.
 */
module GameRepair {
  import opened Wrappers
  import opened GameRules
  import opened GameReplication
  import opened GameDivergence

  /** The two ends of one game: the same rules and players, and two of those players. */
  ghost predicate Paired<S, V>(hc: Config<S, V>, gc: Config<S, V>) {
    && hc.game == gc.game && hc.players == gc.players && !gc.isHost
    && hc.localPlayer in hc.players && gc.localPlayer in gc.players && hc.localPlayer != gc.localPlayer
  }

  /** Everything a repair promises to have made equal, apart from the board. */
  ghost predicate Counted<S, V>(gc: Config<S, V>, h: Session<S, V>, g: Session<S, V>) {
    && g.version == h.version && g.elapsedMs == h.elapsedMs
    && (forall p :: p in gc.players ==> Expected(g, p) == Expected(h, p))
    && g.localSeq == Expected(h, gc.localPlayer)
  }

  ghost predicate Synced<S, V>(gc: Config<S, V>, h: Session<S, V>, g: Session<S, V>) {
    g.state == h.state && Counted(gc, h, g)
  }

  /** The generator, which no envelope carries, does not matter or happens to stand at the same place. */
  ghost predicate Level<S(!new), V(!new)>(game: Game<S, V>, h: Session<S, V>, g: Session<S, V>) {
    RandomFree(game) || (RefusalsDrawNothing(game) && h.random == g.random)
  }

  // -- the repair ------------------------------------------------------------

  /** Whatever the guest's board and counters were, the host's envelope replaces them all. */
  lemma EnvelopeRepairs<S(!new), V(!new)>(hc: Config<S, V>, gc: Config<S, V>, h: Session<S, V>, g: Session<S, V>)
    requires Paired(hc, gc) && StateCodec(gc.game)
    ensures
      var (g', adopted) := ApplyEnvelope(gc, g, SnapshotEnvelope(hc, h));
      && (adopted <==> h.version >= g.adoptedHostVersion)
      && (adopted ==>
           && Synced(gc, h, g') && g'.adoptedHostVersion == h.version
           && g'.abandonedBy == g.abandonedBy && g'.random == g.random)
      && (!adopted ==> g' == g)
  {
    var e := SnapshotEnvelope(hc, h);
    assert gc.game.decodeState(gc.game.encodeState(h.state)) == Some(h.state);
    var counters := map p | p in e.seq_ && e.seq_[p] >= 0 :: e.seq_[p];
    forall p | p in gc.players ensures p in counters && counters[p] == Expected(h, p) {
    }
  }

  // -- playing on ------------------------------------------------------------

  /** A player moves and the other end is told; or a guest's move from before the repair lands at the host. */
  datatype Step<+V> =
    | HostMoves(kind: string, payload: V)
    | GuestMoves(kind: string, payload: V)
    | PeerMoves(value: V, player: PlayerId)
    | Lands(value: V)

  /**
    The two sessions and how many actions each has taken.  `late` of the host's were moves
    from before the repair, and `split` steps were taken by one end alone.
   */
  datatype Pair<+S, +V> = Pair(
    host: Session<S, V>, guest: Session<S, V>, hostTook: nat, guestTook: nat, late: nat, split: nat)

  function Repaired<S, V>(hc: Config<S, V>, gc: Config<S, V>, h: Session<S, V>, g: Session<S, V>): Pair<S, V> {
    Pair(h, ApplyEnvelope(gc, g, SnapshotEnvelope(hc, h)).0, 0, 0, 0, 0)
  }

  function One<V>(o: Outcome<V>): nat {
    if o.Accepted? then 1 else 0
  }

  function FollowOne<S, V>(hc: Config<S, V>, gc: Config<S, V>, x: Pair<S, V>, step: Step<V>): Pair<S, V> {
    match step
    case HostMoves(kind, payload) =>
      var (h, o) := SubmitLocal(hc, x.host, kind, payload);
      if o.Accepted? then Told(hc, gc, x, h, gc.game.encodeAction(o.action), hc.localPlayer) else x.(host := h)
    case GuestMoves(kind, payload) =>
      var (g, o) := SubmitLocal(gc, x.guest, kind, payload);
      if !o.Accepted? then x.(guest := g)
      else
        var (h, o') := ApplyRemote(hc, x.host, gc.game.encodeAction(o.action), gc.localPlayer);
        Pair(h, g, x.hostTook + One(o'), x.guestTook + 1, x.late, x.split + 1 - One(o'))
    case PeerMoves(value, player) =>
      if player == hc.localPlayer || player == gc.localPlayer then x
      else
        var (h, o) := ApplyRemote(hc, x.host, value, player);
        if o.Accepted? then Told(hc, gc, x, h, value, player) else x.(host := h)
    case Lands(value) =>
      var (h, o) := ApplyRemote(hc, x.host, value, gc.localPlayer);
      x.(host := h, hostTook := x.hostTook + One(o), late := x.late + One(o), split := x.split + One(o))
  }

  /** The host, now `h`, has taken an action, and it reaches the guest. */
  function Told<S, V>(
      hc: Config<S, V>, gc: Config<S, V>, x: Pair<S, V>, h: Session<S, V>, value: V, player: PlayerId): Pair<S, V> {
    var (g, o) := ApplyRemote(gc, x.guest, value, player);
    Pair(h, g, x.hostTook + 1, x.guestTook + One(o), x.late, x.split + 1 - One(o))
  }

  function Follow<S, V>(hc: Config<S, V>, gc: Config<S, V>, x: Pair<S, V>, steps: seq<Step<V>>): Pair<S, V>
    decreases |steps|
  {
    if steps == [] then x else Follow(hc, gc, FollowOne(hc, gc, x, steps[0]), steps[1..])
  }

  /** What lands was numbered below `n`. */
  ghost predicate MadeBefore<S, V>(gc: Config<S, V>, n: nat, step: Step<V>) {
    step.Lands? ==>
      var a := gc.game.decodeAction(step.value, gc.localPlayer);
      a.Some? ==> a.value.seq_ < n
  }

  /** Has somebody left at both ends, or at neither? */
  predicate SameDoor<S, V>(h: Session<S, V>, g: Session<S, V>) {
    h.abandonedBy.Some? <==> g.abandonedBy.Some?
  }

  /** What one action does to a session. */
  lemma OneAction<S(!new), V(!new)>(c: Config<S, V>, s: Session<S, V>, a: Action<V>)
    ensures
      var (s', o) := ApplyInternal(c, s, a);
      var (ok, r) := c.game.validate(s.state, a, s.elapsedMs, s.random);
      && (o.Accepted? <==> !IsOver(c, s) && a.seq_ == Expected(s, a.player) && ok)
      && (o.Accepted? ==>
           && o.action == a && (s'.state, s'.random) == c.game.apply(s.state, a, s.elapsedMs, r)
           && s'.version == s.version + 1
           && forall p :: Expected(s', p) == Expected(s, p) + if p == a.player then 1 else 0)
      && (!o.Accepted? ==> s' == s.(random := s'.random))
      && (!o.Accepted? && RefusalsDrawNothing(c.game) ==> s' == s)
      && (a.seq_ != Expected(s, a.player) ==> s' == s)
      && s'.elapsedMs == s.elapsedMs && s'.localSeq == s.localSeq && s'.abandonedBy == s.abandonedBy
  {
  }

  /** Two sessions that would rule alike on `a` both take it or both refuse it, and stay counted. */
  lemma SameVerdict<S(!new), V(!new)>(
      hc: Config<S, V>, gc: Config<S, V>, h: Session<S, V>, g: Session<S, V>, a: Action<V>)
    requires Paired(hc, gc) && Counted(gc, h, g) && SameDoor(h, g) && a.player in gc.players
    requires gc.game.over(h.state) == gc.game.over(g.state)
    requires gc.game.validate(h.state, a, h.elapsedMs, h.random).0
        == gc.game.validate(g.state, a, g.elapsedMs, g.random).0
    ensures
      var ((h', o), (g', o')) := (ApplyInternal(hc, h, a), ApplyInternal(gc, g, a));
      && (o.Accepted? <==> o'.Accepted?)
      && (o.Accepted? ==> Counted(gc, h', g'.(localSeq := Expected(h', gc.localPlayer))))
  {
    hide ApplyInternal;
    OneAction(hc, h, a);
    OneAction(gc, g, a);
  }

  /** The same for two synchronised sessions, which also keep one board. */
  lemma SyncedVerdict<S(!new), V(!new)>(
      hc: Config<S, V>, gc: Config<S, V>, h: Session<S, V>, g: Session<S, V>, a: Action<V>)
    requires Paired(hc, gc) && Synced(gc, h, g) && SameDoor(h, g) && Level(gc.game, h, g) && a.player in gc.players
    ensures
      var ((h', o), (g', o')) := (ApplyInternal(hc, h, a), ApplyInternal(gc, g, a));
      && (o.Accepted? <==> o'.Accepted?)
      && (o.Accepted? ==> Synced(gc, h', g'.(localSeq := Expected(h', gc.localPlayer))) && Level(gc.game, h', g'))
  {
    hide ApplyInternal, Counted, Expected;
    var game := gc.game;
    assert h.elapsedMs == g.elapsedMs by { CountedClock(gc, h, g); }
    var (v, v') := (game.validate(h.state, a, h.elapsedMs, h.random), game.validate(h.state, a, h.elapsedMs, g.random));
    assert v.0 == v'.0;
    assert game.apply(h.state, a, h.elapsedMs, v.1).0 == game.apply(h.state, a, h.elapsedMs, v'.1).0;
    SameVerdict(hc, gc, h, g, a);
    OneAction(hc, h, a);
    OneAction(gc, g, a);
  }

  lemma CountedClock<S, V>(gc: Config<S, V>, h: Session<S, V>, g: Session<S, V>)
    requires Counted(gc, h, g)
    ensures h.elapsedMs == g.elapsedMs
  {
  }

  /** One board, one count, and generators that make no difference. */
  ghost predicate InStep<S(!new), V(!new)>(gc: Config<S, V>, x: Pair<S, V>) {
    Synced(gc, x.host, x.guest) && SameDoor(x.host, x.guest) && Level(gc.game, x.host, x.guest)
  }

  /** A move of one's own is what the codec makes of the draft; the number moves on when it is taken. */
  lemma OwnMove<S(!new), V(!new)>(c: Config<S, V>, s: Session<S, V>, kind: string, payload: V)
      returns (a: Option<Action<V>>)
    requires CodecStable(c.game)
    ensures
      var (s', o) := SubmitLocal(c, s, kind, payload);
      match a
      case None => s' == s && !o.Accepted?
      case Some(x) =>
        && x.player == c.localPlayer && Travels(c.game, x) && o == ApplyInternal(c, s, x).1
        && (!o.Accepted? ==> s' == ApplyInternal(c, s, x).0)
        && (o.Accepted? ==> o.action == x && s' == ApplyInternal(c, s, x).0.(localSeq := s.localSeq + 1))
  {
    hide ApplyInternal;
    a := c.game.decodeAction(c.game.encodeAction(Action(kind, c.localPlayer, s.localSeq, payload)), c.localPlayer);
    if a.Some? { OneAction(c, s, a.value); }
  }

  /** What its author encodes, everybody decodes. */
  ghost predicate Travels<S, V>(game: Game<S, V>, a: Action<V>) {
    game.decodeAction(game.encodeAction(a), a.player) == Some(a)
  }

  lemma Arrives<S, V>(c: Config<S, V>, s: Session<S, V>, a: Action<V>)
    requires Travels(c.game, a) && a.player in c.players
    ensures ApplyRemote(c, s, c.game.encodeAction(a), a.player) == ApplyInternal(c, s, a)
  {
  }

  /** What two ends in step are after `step`, whoever moved. */
  ghost predicate StillInStep<S(!new), V(!new)>(gc: Config<S, V>, x: Pair<S, V>, y: Pair<S, V>) {
    && InStep(gc, y)
    && y.host.abandonedBy == x.host.abandonedBy && y.guest.abandonedBy == x.guest.abandonedBy
    && y.hostTook - x.hostTook == y.guestTook - x.guestTook >= 0 && y.split == x.split
  }

  /** The host spent a draw on a move it refused, which matters to nobody. */
  lemma HostDrewAlone<S(!new), V(!new)>(gc: Config<S, V>, x: Pair<S, V>, random: Rng)
    requires InStep(gc, x) && (RefusalsDrawNothing(gc.game) ==> random == x.host.random)
    ensures StillInStep(gc, x, x.(host := x.host.(random := random)))
  {
    hide RandomFree, RefusalsDrawNothing;
  }

  /** Both ends took `a`; the host's own number is `own` now, and the guest's is up to date. */
  function BothTook<S, V>(
      hc: Config<S, V>, gc: Config<S, V>, x: Pair<S, V>, a: Action<V>, own: nat): Pair<S, V> {
    var (h, g) := (ApplyInternal(hc, x.host, a).0, ApplyInternal(gc, x.guest, a).0);
    var mine := x.guest.localSeq + if a.player == gc.localPlayer then 1 else 0;
    x.(host := h.(localSeq := own), guest := g.(localSeq := mine),
       hostTook := x.hostTook + 1, guestTook := x.guestTook + 1)
  }

  /** One action applied at both ends, and the guest's own number brought up to date. */
  lemma BothApply<S(!new), V(!new)>(hc: Config<S, V>, gc: Config<S, V>, x: Pair<S, V>, a: Action<V>, own: nat)
    requires Paired(hc, gc) && InStep(gc, x) && a.player in gc.players
    ensures
      var ((h, o), (g, o')) := (ApplyInternal(hc, x.host, a), ApplyInternal(gc, x.guest, a));
      && (o.Accepted? <==> o'.Accepted?)
      && (o.Accepted? ==> StillInStep(gc, x, BothTook(hc, gc, x, a, own)))
      && (!o.Accepted? ==> StillInStep(gc, x, x.(host := h)) && StillInStep(gc, x, x.(guest := g)))
  {
    hide ApplyInternal, RandomFree, RefusalsDrawNothing;
    SyncedVerdict(hc, gc, x.host, x.guest, a);
    OneAction(hc, x.host, a);
    OneAction(gc, x.guest, a);
  }

  /** A step is one action offered to both ends, or a late move, which the host refuses unless it counts it. */
  lemma StepOffersOne<S(!new), V(!new)>(
      hc: Config<S, V>, gc: Config<S, V>, x: Pair<S, V>, step: Step<V>) returns (a: Option<Action<V>>, own: nat)
    requires Paired(hc, gc) && CodecStable(gc.game) && FollowOne(hc, gc, x, step).late == x.late
    ensures
      var y := FollowOne(hc, gc, x, step);
      match a
      case None =>
        && y == x.(host := x.host.(random := y.host.random))
        && (RefusalsDrawNothing(gc.game) ==> y.host.random == x.host.random)
      case Some(b) =>
        var ((h, o), (g, o')) := (ApplyInternal(hc, x.host, b), ApplyInternal(gc, x.guest, b));
        && b.player in gc.players
        && ((o.Accepted? <==> o'.Accepted?) ==>
              if o.Accepted? then y == BothTook(hc, gc, x, b, own) else y == x.(host := h) || y == x.(guest := g))
  {
    hide ApplyInternal, CodecStable, RefusalsDrawNothing;
    a, own := None, x.host.localSeq;
    match step
    case HostMoves(kind, payload) =>
      a := OwnMove(hc, x.host, kind, payload);
      own := own + 1;
      if a.Some? {
        OneAction(gc, x.guest, a.value);
        Arrives(gc, x.guest, a.value);
      }
    case GuestMoves(kind, payload) =>
      a := OwnMove(gc, x.guest, kind, payload);
      if a.Some? {
        OneAction(hc, x.host, a.value);
        Arrives(hc, x.host, a.value);
      }
    case PeerMoves(value, player) =>
      var b := gc.game.decodeAction(value, player);
      if b.Some? && player in gc.players && b.value.player == player && player !in [hc.localPlayer, gc.localPlayer] {
        a := b;
        OneAction(hc, x.host, b.value);
        OneAction(gc, x.guest, b.value);
      } else if b.Some? {
        OneAction(hc, x.host, b.value);
      }
    case Lands(value) =>
      var b := gc.game.decodeAction(value, gc.localPlayer);
      if b.Some? { OneAction(hc, x.host, b.value); }
  }

  lemma FollowOneKeeps<S(!new), V(!new)>(hc: Config<S, V>, gc: Config<S, V>, x: Pair<S, V>, step: Step<V>)
    requires Paired(hc, gc) && CodecStable(gc.game) && InStep(gc, x) && FollowOne(hc, gc, x, step).late == x.late
    ensures StillInStep(gc, x, FollowOne(hc, gc, x, step))
  {
    hide ApplyInternal, FollowOne, CodecStable, Synced, Level, RefusalsDrawNothing, BothTook;
    var a, own := StepOffersOne(hc, gc, x, step);
    if a.Some? {
      BothApply(hc, gc, x, a.value, own);
    } else {
      HostDrewAlone(gc, x, FollowOne(hc, gc, x, step).host.random);
    }
  }

  // -- an end that somebody has left -----------------------------------------

  /** How the counts move, and that an end somebody has left takes nothing more. */
  lemma StepCounts<S(!new), V(!new)>(hc: Config<S, V>, gc: Config<S, V>, x: Pair<S, V>, step: Step<V>)
    ensures
      var y := FollowOne(hc, gc, x, step);
      && y.host.abandonedBy == x.host.abandonedBy && y.guest.abandonedBy == x.guest.abandonedBy
      && (x.host.abandonedBy.Some? ==> y.hostTook == x.hostTook)
      && (x.guest.abandonedBy.Some? ==> y.guestTook == x.guestTook)
      && y.hostTook >= x.hostTook && y.guestTook >= x.guestTook && y.late >= x.late
      && y.split >= x.split && y.split - x.split >= y.late - x.late && y.hostTook - x.hostTook >= y.late - x.late
      && (y.split == x.split ==> y.hostTook - x.hostTook == y.guestTook - x.guestTook)
      && (y.hostTook == x.hostTook && y.guestTook == x.guestTook ==> y.split == x.split)
  {
    hide FollowOne;
    OutcomesCount(hc, gc, x, step);
  }

  lemma OutcomesCount<S(!new), V(!new)>(hc: Config<S, V>, gc: Config<S, V>, x: Pair<S, V>, step: Step<V>)
    ensures
      var y := FollowOne(hc, gc, x, step);
      var (took, took') := (y.hostTook - x.hostTook, y.guestTook - x.guestTook);
      && took in {0, 1} && took' in {0, 1}
      && y.split - x.split == (if took == took' then 0 else 1)
      && y.late - x.late == (if step.Lands? then took else 0) && (step.Lands? ==> took' == 0)
      && (x.host.abandonedBy.Some? ==> took == 0) && (x.guest.abandonedBy.Some? ==> took' == 0)
      && y.host.abandonedBy == x.host.abandonedBy && y.guest.abandonedBy == x.guest.abandonedBy
  {
  }

  /** Along a run: nobody comes back, counts only grow, and every late move splits the two ends. */
  ghost predicate Onward<S, V>(x: Pair<S, V>, y: Pair<S, V>) {
    && y.host.abandonedBy == x.host.abandonedBy && y.guest.abandonedBy == x.guest.abandonedBy
    && y.hostTook >= x.hostTook && y.guestTook >= x.guestTook && y.late >= x.late && y.split >= x.split
    && y.split - x.split >= y.late - x.late && y.hostTook - x.hostTook >= y.late - x.late
    && (x.host.abandonedBy.Some? ==> y.hostTook == x.hostTook)
    && (x.guest.abandonedBy.Some? ==> y.guestTook == x.guestTook)
    && (y.split == x.split ==> y.hostTook - x.hostTook == y.guestTook - x.guestTook)
    && (y.hostTook == x.hostTook && y.guestTook == x.guestTook ==> y.split == x.split)
  }

  lemma {:induction false} FollowKeeps<S(!new), V(!new)>(
      hc: Config<S, V>, gc: Config<S, V>, x: Pair<S, V>, steps: seq<Step<V>>)
    requires Paired(hc, gc) && CodecStable(gc.game) && (SameDoor(x.host, x.guest) ==> InStep(gc, x))
    ensures
      var y := Follow(hc, gc, x, steps);
      && Onward(x, y)
      && (SameDoor(x.host, x.guest) && y.late == x.late ==> InStep(gc, y) && y.split == x.split)
    decreases |steps|
  {
    hide FollowOne, Synced, Level, CodecStable, Paired;
    if steps != [] {
      var y := FollowOne(hc, gc, x, steps[0]);
      StepCounts(hc, gc, x, steps[0]);
      if y.late == x.late && SameDoor(x.host, x.guest) {
        FollowOneKeeps(hc, gc, x, steps[0]);
        FollowKeeps(hc, gc, y, steps[1..]);
      } else {
        FollowCounts(hc, gc, x, steps);
      }
    }
  }

  lemma {:induction false} FollowCounts<S(!new), V(!new)>(
      hc: Config<S, V>, gc: Config<S, V>, x: Pair<S, V>, steps: seq<Step<V>>)
    ensures Onward(x, Follow(hc, gc, x, steps))
    ensures steps != [] ==> Follow(hc, gc, x, steps).late >= FollowOne(hc, gc, x, steps[0]).late
    decreases |steps|
  {
    hide FollowOne;
    if steps != [] {
      StepCounts(hc, gc, x, steps[0]);
      FollowCounts(hc, gc, FollowOne(hc, gc, x, steps[0]), steps[1..]);
    }
  }

  /**
    The repair holds, from any guest state and over any run.  The guest adopts the host's
    envelope, and the generator does not matter or stands where the host's does.  Then no
    step is taken by one end alone exactly when the host takes none of the guest's moves
    from before the repair, and somebody has left at both ends or at neither (or nothing is
    taken at all); and as long as it takes none the two ends are equal.
   */
  lemma RepairHoldsIffNoLateMoveIsTaken<S(!new), V(!new)>(
      hc: Config<S, V>, gc: Config<S, V>, h: Session<S, V>, g: Session<S, V>, steps: seq<Step<V>>)
    requires Paired(hc, gc) && StateCodec(gc.game) && CodecStable(gc.game) && Level(gc.game, h, g)
    requires h.version >= g.adoptedHostVersion
    ensures
      var y := Follow(hc, gc, Repaired(hc, gc, h, g), steps);
      && (y.split == 0 <==> y.late == 0 && (SameDoor(h, g) || y.hostTook == 0 == y.guestTook))
      && (y.split == 0 ==> y.hostTook == y.guestTook)
      && (y.late == 0 && SameDoor(h, g) ==> Synced(gc, y.host, y.guest) && Level(gc.game, y.host, y.guest))
  {
    hide Synced, Level, ApplyEnvelope, Follow, CodecStable, StateCodec;
    EnvelopeRepairs(hc, gc, h, g);
    var x := Repaired(hc, gc, h, g);
    assert Level(gc.game, h, x.guest) by { SameGeneratorLevel(gc.game, h, g, x.guest); }
    FollowKeeps(hc, gc, x, steps);
  }

  lemma SameGeneratorLevel<S(!new), V(!new)>(game: Game<S, V>, h: Session<S, V>, g: Session<S, V>, g': Session<S, V>)
    requires Level(game, h, g) && g'.random == g.random
    ensures Level(game, h, g')
  {
  }

  /** A move the host has counted already is never taken, whatever else is played. */
  lemma {:induction false} CountedMovesAreNotTaken<S(!new), V(!new)>(
      hc: Config<S, V>, gc: Config<S, V>, n: nat, x: Pair<S, V>, steps: seq<Step<V>>)
    requires Paired(hc, gc) && CodecStable(gc.game) && n <= Expected(x.host, gc.localPlayer)
    requires forall i :: 0 <= i < |steps| ==> MadeBefore(gc, n, steps[i])
    ensures Follow(hc, gc, x, steps).late == x.late
    decreases |steps|
  {
    hide FollowOne, MadeBefore, CodecStable, Paired, Expected;
    if steps != [] {
      CountOnlyGrows(hc, gc, n, x, steps[0]);
      CountedMovesAreNotTaken(hc, gc, n, FollowOne(hc, gc, x, steps[0]), steps[1..]);
    }
  }

  lemma CountOnlyGrows<S(!new), V(!new)>(hc: Config<S, V>, gc: Config<S, V>, n: nat, x: Pair<S, V>, step: Step<V>)
    requires Paired(hc, gc) && CodecStable(gc.game) && MadeBefore(gc, n, step) && n <= Expected(x.host, gc.localPlayer)
    ensures FollowOne(hc, gc, x, step).late == x.late
    ensures n <= Expected(FollowOne(hc, gc, x, step).host, gc.localPlayer)
  {
    hide ApplyInternal, CodecStable;
    match step
    case HostMoves(kind, payload) =>
      var a := OwnMove(hc, x.host, kind, payload);
      if a.Some? { OneAction(hc, x.host, a.value); }
    case GuestMoves(kind, payload) =>
      var a := OwnMove(gc, x.guest, kind, payload);
      if a.Some? {
        Arrives(hc, x.host, a.value);
        OneAction(hc, x.host, a.value);
      }
    case PeerMoves(value, player) =>
      var a := gc.game.decodeAction(value, player);
      if a.Some? { OneAction(hc, x.host, a.value); }
    case Lands(value) =>
      var a := gc.game.decodeAction(value, gc.localPlayer);
      if a.Some? { OneAction(hc, x.host, a.value); }
  }

  /**
    What a caller can count on.  From any guest state, however far ahead of the host: if
    what still lands of the guest's old moves is numbered below `n`, and the envelope has
    counted `n` of them, the two ends take the same actions exactly when somebody has left
    at both or at neither (or nothing was taken), and in that case they stay equal.
   */
  lemma RepairHolds<S(!new), V(!new)>(
      hc: Config<S, V>, gc: Config<S, V>, h: Session<S, V>, g: Session<S, V>, n: nat, steps: seq<Step<V>>)
    requires Paired(hc, gc) && StateCodec(gc.game) && CodecStable(gc.game) && Level(gc.game, h, g)
    requires h.version >= g.adoptedHostVersion && n <= Expected(h, gc.localPlayer)
    requires forall i :: 0 <= i < |steps| ==> MadeBefore(gc, n, steps[i])
    ensures
      var y := Follow(hc, gc, Repaired(hc, gc, h, g), steps);
      && (y.hostTook == y.guestTook <==> SameDoor(h, g) || y.hostTook == 0 == y.guestTook)
      && (SameDoor(h, g) ==> y.split == 0 && Synced(gc, y.host, y.guest) && Level(gc.game, y.host, y.guest))
  {
    hide Synced, Level, ApplyEnvelope, Follow, CodecStable, StateCodec, MadeBefore;
    var x := Repaired(hc, gc, h, g);
    CountedMovesAreNotTaken(hc, gc, n, x, steps);
    RepairHoldsIffNoLateMoveIsTaken(hc, gc, h, g, steps);
    FollowCounts(hc, gc, x, steps);
    EnvelopeRepairs(hc, gc, h, g);
  }

  /**
    The other side, for every game: a move from before the adoption that the host still
    takes is one the envelope did not count (and, if the guest knew of it, an own move the
    adoption lost), and from then on the guest's next move is refused as a repeat while
    every version and counter agrees.
   */
  lemma OutstandingMoveLocksOut<S(!new), V(!new)>(
      hc: Config<S, V>, gc: Config<S, V>, h: Session<S, V>, g: Session<S, V>, value: V, kind: string, payload: V)
    requires Paired(hc, gc) && StateCodec(gc.game) && CodecStable(gc.game) && h.version >= g.adoptedHostVersion
    ensures
      var envelope := SnapshotEnvelope(hc, h);
      var y := FollowOne(hc, gc, Repaired(hc, gc, h, g), Lands(value));
      var z := FollowOne(hc, gc, y, GuestMoves(kind, payload));
      y.late == 1 ==>
        && gc.localPlayer in envelope.seq_
        && !MadeBefore(gc, envelope.seq_[gc.localPlayer], Lands(value))
        && (MadeBefore(gc, g.localSeq, Lands(value)) ==> LosesOwnMove(gc.localPlayer, g, envelope))
        && (z.guestTook == 1 ==>
              && z.hostTook == 1 && z.host == y.host
              && z.host.version == z.guest.version
              && forall p :: p in gc.players ==> Expected(z.host, p) == Expected(z.guest, p))
  {
    hide ApplyInternal, ApplyEnvelope, CodecStable, StateCodec;
    EnvelopeRepairs(hc, gc, h, g);
    var x := Repaired(hc, gc, h, g);
    var y := FollowOne(hc, gc, x, Lands(value));
    if y.late == 1 {
      var a := gc.game.decodeAction(value, gc.localPlayer).value;
      OneAction(hc, h, a);
      var b := OwnMove(gc, x.guest, kind, payload);
      if b.Some? {
        OneAction(gc, x.guest, b.value);
        Arrives(hc, y.host, b.value);
        OneAction(hc, y.host, b.value);
      }
    }
  }

  // -- why the counters have to come along -----------------------------------

  /** A guest repaired by its board alone stays behind on `p` and refuses each later action of `p`. */
  lemma {:induction false} BoardAloneLocksOut<S(!new), V(!new)>(
      hc: Config<S, V>, gc: Config<S, V>, x: Pair<S, V>, value: V, p: PlayerId, steps: seq<Step<V>>)
    requires Paired(hc, gc) && CodecStable(gc.game) && p != gc.localPlayer
    requires Expected(x.guest, p) < Expected(x.host, p)
    ensures
      var y := Follow(hc, gc, x.(guest := ApplySnapshot(gc, x.guest, value).0), steps);
      Expected(y.guest, p) == Expected(x.guest, p) < Expected(y.host, p)
    decreases |steps|
  {
    hide CodecStable, Follow, FollowOne, Expected;
    SnapshotKeepsCounters(gc, x.guest, value, p);
    StillBehind(hc, gc, x.(guest := ApplySnapshot(gc, x.guest, value).0), p, steps);
  }

  lemma SnapshotKeepsCounters<S, V>(gc: Config<S, V>, g: Session<S, V>, value: V, p: PlayerId)
    ensures Expected(ApplySnapshot(gc, g, value).0, p) == Expected(g, p)
  {
  }

  lemma {:induction false} StillBehind<S(!new), V(!new)>(
      hc: Config<S, V>, gc: Config<S, V>, x: Pair<S, V>, p: PlayerId, steps: seq<Step<V>>)
    requires Paired(hc, gc) && CodecStable(gc.game) && p != gc.localPlayer
    requires Expected(x.guest, p) < Expected(x.host, p)
    ensures
      var y := Follow(hc, gc, x, steps);
      Expected(y.guest, p) == Expected(x.guest, p) < Expected(y.host, p)
    decreases |steps|
  {
    hide CodecStable, FollowOne, Expected;
    if steps != [] {
      StepStaysBehind(hc, gc, x, p, steps[0]);
      StillBehind(hc, gc, FollowOne(hc, gc, x, steps[0]), p, steps[1..]);
    }
  }

  lemma StepStaysBehind<S(!new), V(!new)>(
      hc: Config<S, V>, gc: Config<S, V>, x: Pair<S, V>, p: PlayerId, step: Step<V>)
    requires Paired(hc, gc) && CodecStable(gc.game) && p != gc.localPlayer
    requires Expected(x.guest, p) < Expected(x.host, p)
    ensures
      var y := FollowOne(hc, gc, x, step);
      Expected(y.guest, p) == Expected(x.guest, p) < Expected(y.host, p)
  {
    hide ApplyInternal, CodecStable;
    match step
    case HostMoves(kind, payload) =>
      var a := OwnMove(hc, x.host, kind, payload);
      if a.Some? {
        OfferedToBoth(hc, gc, x, a.value);
        Arrives(gc, x.guest, a.value);
      }
    case GuestMoves(kind, payload) =>
      var a := OwnMove(gc, x.guest, kind, payload);
      if a.Some? {
        OfferedToBoth(hc, gc, x, a.value);
        Arrives(hc, x.host, a.value);
      }
    case PeerMoves(value, player) =>
      var a := gc.game.decodeAction(value, player);
      if a.Some? { OfferedToBoth(hc, gc, x, a.value); }
    case Lands(value) =>
      var a := gc.game.decodeAction(value, gc.localPlayer);
      if a.Some? { OneAction(hc, x.host, a.value); }
  }

  lemma OfferedToBoth<S(!new), V(!new)>(hc: Config<S, V>, gc: Config<S, V>, x: Pair<S, V>, a: Action<V>)
    ensures
      var ((h, o), (g, o')) := (ApplyInternal(hc, x.host, a), ApplyInternal(gc, x.guest, a));
      && (o.Accepted? && o'.Accepted? ==> Expected(x.host, a.player) == Expected(x.guest, a.player))
      && (o.Accepted? ==> forall p :: Expected(h, p) == Expected(x.host, p) + if p == a.player then 1 else 0)
      && (o'.Accepted? ==> forall p :: Expected(g, p) == Expected(x.guest, p) + if p == a.player then 1 else 0)
      && (!o.Accepted? ==> forall p :: Expected(h, p) == Expected(x.host, p))
      && (!o'.Accepted? ==> forall p :: Expected(g, p) == Expected(x.guest, p))
  {
    hide ApplyInternal;
    OneAction(hc, x.host, a);
    OneAction(gc, x.guest, a);
  }

  // -- what nothing undoes ---------------------------------------------------

  datatype GuestOp<+V> =
    | LocalMove(kind: string, payload: V)
    | PeerMove(value: V, player: PlayerId)
    | Adopts(envelope: Envelope<V>)
    | AdoptsBoard(value: V)
    | Leaves(player: PlayerId)
    | Ticks(deltaMs: real)

  function Do<S, V>(c: Config<S, V>, s: Session<S, V>, op: GuestOp<V>): Session<S, V>
    requires c.game.tickRate > 0.0
  {
    match op
    case LocalMove(kind, payload) => SubmitLocal(c, s, kind, payload).0
    case PeerMove(value, player) => ApplyRemote(c, s, value, player).0
    case Adopts(e) => ApplyEnvelope(c, s, e).0
    case AdoptsBoard(value) => ApplySnapshot(c, s, value).0
    case Leaves(player) => Abandon(c, s, player).0
    case Ticks(delta) => Tick(c, s, delta)
  }

  function DoAll<S, V>(c: Config<S, V>, s: Session<S, V>, ops: seq<GuestOp<V>>): Session<S, V>
    requires c.game.tickRate > 0.0
    decreases |ops|
  {
    if ops == [] then s else DoAll(c, Do(c, s, ops[0]), ops[1..])
  }

  lemma {:induction false} AdvanceOnlyTicks<S, V>(g: Game<S, V>, s: Session<S, V>, step: real, n: nat)
    ensures
      var t := Advance(g, s, step, n);
      t == s.(state := t.state, random := t.random, elapsedMs := t.elapsedMs)
    decreases n
  {
    if n > 0 {
      var (state, r) := g.tick(s.state, s.elapsedMs + step, step, s.random);
      AdvanceOnlyTicks(g, s.(elapsedMs := s.elapsedMs + step, state := state, random := r), step, n - 1);
    }
  }

  lemma TickKeeps<S, V>(c: Config<S, V>, s: Session<S, V>, delta: real)
    requires c.game.tickRate > 0.0
    ensures
      var t := Tick(c, s, delta);
      t == s.(state := t.state, random := t.random, elapsedMs := t.elapsedMs, tickRemainder := t.tickRemainder)
  {
    hide Advance;
    if c.game.realtime && delta > 0.0 {
      var due := StepsDue(c.game, s.tickRemainder, delta);
      var steps := if due > MAX_STEPS then MAX_STEPS else if due < 0 then 0 else due;
      var rest := if due > MAX_STEPS then 0.0 else s.tickRemainder + delta - due as real * StepMs(c.game);
      AdvanceOnlyTicks(c.game, s.(tickRemainder := rest), StepMs(c.game), steps);
    }
  }

  lemma {:induction false} NothingIsUndone<S, V>(c: Config<S, V>, s: Session<S, V>, ops: seq<GuestOp<V>>)
    requires c.game.tickRate > 0.0
    ensures
      var t := DoAll(c, s, ops);
      && t.adoptedHostVersion >= s.adoptedHostVersion
      && (s.abandonedBy.Some? ==> t.abandonedBy == s.abandonedBy)
    decreases |ops|
  {
    hide Advance, Tick, ApplyInternal;
    if ops != [] {
      OpUndoesNothing(c, s, ops[0]);
      NothingIsUndone(c, Do(c, s, ops[0]), ops[1..]);
    }
  }

  lemma OpUndoesNothing<S, V>(c: Config<S, V>, s: Session<S, V>, op: GuestOp<V>)
    requires c.game.tickRate > 0.0
    ensures Do(c, s, op).adoptedHostVersion >= s.adoptedHostVersion
    ensures s.abandonedBy.Some? ==> Do(c, s, op).abandonedBy == s.abandonedBy
  {
    hide Advance, Tick;
    if op.Ticks? {
      TickKeeps(c, s, op.deltaMs);
    }
  }

  // -- what an envelope cannot carry -----------------------------------------

  /** Each move adds what the generator shows. */
  function Dice(): Game<int, Wire> {
    Game(0, (s, a, t, r) => (true, r), (s, a, t, r) => (s + r, r + 1), (s, t, d, r) => (s, r),
         false, 60.0, s => false, s => None, (s: int) => Wire("", s), (v: Wire) => Some(v.number),
         (a: Action<Wire>) => Wire(a.kind, a.seq_),
         (v: Wire, p) => Some(Action(v.kind, p, v.number, Wire("", 0))))
  }

  lemma DiceBoardsTravel()
    ensures StateCodec(Dice())
  {
  }

  /** The board of the host minus the guest's, `took` rolls after they were equal. */
  ghost predicate Apart(gc: Config<int, Wire>, gap: int, x: Pair<int, Wire>) {
    && Counted(gc, x.host, x.guest) && x.host.abandonedBy.None? && x.guest.abandonedBy.None?
    && x.hostTook == x.guestTook && x.split == 0
    && x.host.random - x.guest.random == gap && x.host.state - x.guest.state == x.hostTook * gap
  }

  lemma BothRoll(
      hc: Config<int, Wire>, gc: Config<int, Wire>, gap: int, x: Pair<int, Wire>, a: Action<Wire>, own: nat)
    requires Paired(hc, gc) && gc.game == Dice() && Apart(gc, gap, x) && a.player in gc.players
    ensures
      var ((h, o), (g, o')) := (ApplyInternal(hc, x.host, a), ApplyInternal(gc, x.guest, a));
      && (o.Accepted? <==> o'.Accepted?)
      && (o.Accepted? ==> Apart(gc, gap, BothTook(hc, gc, x, a, own)))
      && (!o.Accepted? ==> h == x.host && g == x.guest)
  {
    hide ApplyInternal;
    SameVerdict(hc, gc, x.host, x.guest, a);
    OneAction(hc, x.host, a);
    OneAction(gc, x.guest, a);
    assert (x.hostTook + 1) * gap == x.hostTook * gap + gap;
  }

  lemma {:induction false} RollsStayApart(
      hc: Config<int, Wire>, gc: Config<int, Wire>, gap: int, x: Pair<int, Wire>, steps: seq<Step<Wire>>)
    requires Paired(hc, gc) && gc.game == Dice() && Apart(gc, gap, x)
    requires Follow(hc, gc, x, steps).late == x.late
    ensures Apart(gc, gap, Follow(hc, gc, x, steps))
    decreases |steps|
  {
    hide FollowOne, ApplyInternal, BothTook;
    if steps != [] {
      FollowCounts(hc, gc, x, steps);
      StepCounts(hc, gc, x, steps[0]);
      FollowCounts(hc, gc, FollowOne(hc, gc, x, steps[0]), steps[1..]);
      var a, own := StepOffersOne(hc, gc, x, steps[0]);
      if a.Some? { BothRoll(hc, gc, gap, x, a.value, own); }
      RollsStayApart(hc, gc, gap, FollowOne(hc, gc, x, steps[0]), steps[1..]);
    }
  }

  /**
    With a reducer that draws, a repaired guest goes on taking the host's moves and showing
    a different board, from the first of them and for ever, unless its generator happened
    to stand where the host's stood: the envelope does not say where that is.  As long as
    no late move is taken, from any guest state.
   */
  lemma DrawingReducersFollowIffLevel(
      hc: Config<int, Wire>, gc: Config<int, Wire>, h: Session<int, Wire>, g: Session<int, Wire>,
      steps: seq<Step<Wire>>)
    requires Paired(hc, gc) && gc.game == Dice() && h.abandonedBy.None? && g.abandonedBy.None?
    requires h.version >= g.adoptedHostVersion
    ensures
      var y := Follow(hc, gc, Repaired(hc, gc, h, g), steps);
      y.late == 0 ==>
        y.split == 0 && (y.host.state == y.guest.state <==> h.random == g.random || y.hostTook == 0)
  {
    hide ApplyEnvelope, Follow, Dice, StateCodec, Apart;
    DiceBoardsTravel();
    EnvelopeRepairs(hc, gc, h, g);
    var x := Repaired(hc, gc, h, g);
    StartsTogether(gc, h.random - g.random, x);
    if Follow(hc, gc, x, steps).late == 0 {
      RollsStayApart(hc, gc, h.random - g.random, x, steps);
      EqualIffNoGap(gc, h.random - g.random, Follow(hc, gc, x, steps));
    }
  }

  lemma StartsTogether(gc: Config<int, Wire>, gap: int, x: Pair<int, Wire>)
    requires Synced(gc, x.host, x.guest) && x.host.abandonedBy.None? && x.guest.abandonedBy.None?
    requires x.hostTook == 0 == x.guestTook && x.split == 0 && gap == x.host.random - x.guest.random
    ensures Apart(gc, gap, x)
  {
    hide Counted;
    assert x.hostTook * gap == 0;
  }

  lemma EqualIffNoGap(gc: Config<int, Wire>, gap: int, x: Pair<int, Wire>)
    requires Apart(gc, gap, x)
    ensures x.split == 0 && (x.host.state == x.guest.state <==> gap == 0 || x.hostTook == 0)
  {
    hide Counted;
    assert x.hostTook * gap == 0 <==> x.hostTook == 0 || gap == 0;
  }

  // -- any reducer whose board tells what was drawn --------------------------

  /** The verdict does not depend on the generator, and the board after a legal move tells where it stood. */
  ghost predicate Telling<S(!new), V(!new)>(game: Game<S, V>) {
    forall s, a, t, r, r' ::
      && game.validate(s, a, t, r).0 == game.validate(s, a, t, r').0
      && (game.validate(s, a, t, r).0 && r != r' ==>
            game.apply(s, a, t, game.validate(s, a, t, r).1).0 != game.apply(s, a, t, game.validate(s, a, t, r').1).0)
  }

  /** The first action both take shows where the two generators stood. */
  lemma FirstActionTells<S(!new), V(!new)>(hc: Config<S, V>, gc: Config<S, V>, x: Pair<S, V>, step: Step<V>)
    requires Paired(hc, gc) && CodecStable(gc.game) && Telling(gc.game)
    requires Synced(gc, x.host, x.guest) && SameDoor(x.host, x.guest)
    requires FollowOne(hc, gc, x, step).late == x.late && FollowOne(hc, gc, x, step).hostTook > x.hostTook
    ensures
      var y := FollowOne(hc, gc, x, step);
      y.guestTook > x.guestTook && (y.host.state == y.guest.state <==> x.host.random == x.guest.random)
  {
    hide ApplyInternal, FollowOne, CodecStable, Counted, Expected;
    var a, own := StepOffersOne(hc, gc, x, step);
    assert x.host.elapsedMs == x.guest.elapsedMs by { CountedClock(gc, x.host, x.guest); }
    var game := gc.game;
    var (s, t) := (x.host.state, x.host.elapsedMs);
    var (v, v') := (game.validate(s, a.value, t, x.host.random), game.validate(s, a.value, t, x.guest.random));
    assert v.0 == v'.0;
    SameVerdict(hc, gc, x.host, x.guest, a.value);
    OneAction(hc, x.host, a.value);
    OneAction(gc, x.guest, a.value);
    assert x.host.random != x.guest.random ==> game.apply(s, a.value, t, v.1).0 != game.apply(s, a.value, t, v'.1).0;
  }

  lemma DiceTells()
    ensures Telling(Dice()) && RefusalsDrawNothing(Dice())
  {
  }

  /**
    For every such game in which something can be played at all: the repaired pair stays
    equal over all runs in which no late move is taken, if and only if the generators stood
    at the same place.
   */
  lemma TellingReducersFollowIffLevel<S(!new), V(!new)>(
      hc: Config<S, V>, gc: Config<S, V>, h: Session<S, V>, g: Session<S, V>, first: Step<V>)
    requires Paired(hc, gc) && StateCodec(gc.game) && CodecStable(gc.game)
    requires Telling(gc.game) && RefusalsDrawNothing(gc.game)
    requires h.version >= g.adoptedHostVersion && SameDoor(h, g)
    requires var y := FollowOne(hc, gc, Repaired(hc, gc, h, g), first); y.hostTook == 1 && y.late == 0
    ensures
      (forall steps ::
         var y := Follow(hc, gc, Repaired(hc, gc, h, g), steps);
         y.late == 0 ==> y.split == 0 && Synced(gc, y.host, y.guest))
      <==> h.random == g.random
  {
    hide FollowOne, Follow, Synced, ApplyEnvelope, StateCodec, CodecStable, Telling, RandomFree, RefusalsDrawNothing;
    EnvelopeRepairs(hc, gc, h, g);
    var x := Repaired(hc, gc, h, g);
    FirstActionTells(hc, gc, x, first);
    OneStepRun(hc, gc, x, first);
    var y := Follow(hc, gc, x, [first]);
    assert Synced(gc, y.host, y.guest) ==> y.host.state == y.guest.state by { SyncedBoards(gc, y.host, y.guest); }
    if h.random == g.random {
      forall steps ensures
        var z := Follow(hc, gc, x, steps);
        z.late == 0 ==> z.split == 0 && Synced(gc, z.host, z.guest)
      {
        RepairHoldsIffNoLateMoveIsTaken(hc, gc, h, g, steps);
      }
    }
  }

  lemma OneStepRun<S, V>(hc: Config<S, V>, gc: Config<S, V>, x: Pair<S, V>, step: Step<V>)
    ensures Follow(hc, gc, x, [step]) == FollowOne(hc, gc, x, step)
  {
    hide FollowOne;
    assert [step][1..] == [];
  }

  lemma SyncedBoards<S, V>(gc: Config<S, V>, h: Session<S, V>, g: Session<S, V>)
    ensures Synced(gc, h, g) ==> h.state == g.state
  {
  }
}
