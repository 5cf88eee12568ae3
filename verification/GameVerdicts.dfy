/** What a session answers to each move, each board and each departure, and why. */
module GameVerdicts {
  import opened Wrappers
  import opened GameRules
  import opened GameReplication
  import opened GameRepair

  // -- moves -----------------------------------------------------------------

  /** What the rules say of `a` after the history `h`, at a session some player has left or none has. */
  ghost function Verdict<S, V>(u: Setup<S, V>, left: bool, h: seq<Action<V>>, a: Action<V>): Option<Rejection> {
    if left || u.game.over(After(u.game, u.seed, h).0) then Some(GameOver)
    else if a.seq_ < Count(h, a.player) then Some(Duplicate)
    else if a.seq_ > Count(h, a.player) then Some(OutOfOrder)
    else if !Playable(u.game, u.seed, h, a) then Some(Invalid)
    else None
  }

  /** A session that is its history rules on an action by that history, and gives the first reason there is. */
  lemma RulesByHistory<S(!new), V(!new)>(u: Setup<S, V>, p: PlayerId, r: Replica<S, V>, a: Action<V>)
    requires Faithful(u, p, r) && TurnBased(u.game)
    ensures
      var o := ApplyInternal(ConfigFor(u, p), r.session, a).1;
      match Verdict(u, r.session.abandonedBy.Some?, r.history, a)
      case Some(reason) => o == Rejected(reason)
      case None =>
        o.Accepted? && o.action == a
        && (Undisturbed(u, r) ==> o.index == |Retained(r.history + [a], u.historyLimit)| - 1)
  {
    hide Count;
    var (state, random) := After(u.game, u.seed, r.history);
    assert Expected(r.session, a.player) == Count(r.history, a.player);
    assert u.game.validate(state, a, 0.0, r.session.random).1 == r.session.random;
    assert u.game.validate(state, a, 0.0, r.session.random).0 == u.game.validate(state, a, 0.0, random).0;
  }

  /**
    At any moment of any run, a player's own move is ruled on as its history says; if it is
    taken it extends the common order, and its encoding is the one message that goes out.
   */
  lemma SubmissionIsRuledOn<S(!new), V(!new)>(
      u: Setup<S, V>, events: seq<Event<V>>, p: PlayerId, kind: string, payload: V)
    requires TurnBased(u.game) && CodecStable(u.game) && CarefulRun(u, Start(u), events) && p in u.players
    ensures
      var w := Run(u, Start(u), events);
      && p in w.replicas
      && var r := w.replicas[p];
      var draft := Action(kind, p, Count(r.history, p), payload);
      var w' := Next(u, w, Submits(p, kind, payload));
      var o := Submitted(u, w, p, kind, payload).1;
      match u.game.decodeAction(u.game.encodeAction(draft), p)
      case None => o == Rejected(Invalid) && w' == w
      case Some(a) =>
        match Verdict(u, r.session.abandonedBy.Some?, r.history, a)
        case Some(reason) => o == Rejected(reason) && w' == w
        case None =>
          && o.Accepted? && o.action == a && r.history == w.order
          && w'.order == w.order + [a] && p in w'.replicas && w'.replicas[p].history == w'.order
          && w'.sent == w.sent + [Message(p, u.game.encodeAction(a))]
  {
    hide TurnBased, CodecStable, CarefulRun, Run, Start, Inv, Verdict, ApplyInternal, Faithful, Count, Undisturbed;
    ReachableInv(u, events);
    var w := Run(u, Start(u), events);
    PlayersAreHere(u, w);
    InvAt(u, w, p);
    var r := w.replicas[p];
    var draft := Action(kind, p, r.session.localSeq, payload);
    var (s, o) := Submitted(u, w, p, kind, payload);
    match u.game.decodeAction(u.game.encodeAction(draft), p)
    case None => RejectedSessionUnchanged(u, w, p, s, o);
    case Some(a) =>
      assert a.player == p by { StampsPlayer(u.game, u.game.encodeAction(draft), p); }
      RulesByHistory(u, p, r, a);
      AcceptsExactly(u, p, r, a);
      if o.Accepted? {
        SubmissionExtends(u, w, p, a);
      } else {
        RejectedSessionUnchanged(u, w, p, s, o);
      }
  }

  lemma PlayersAreHere<S(!new), V(!new)>(u: Setup<S, V>, w: World<S, V>)
    requires Inv(u, w)
    ensures forall p :: p in w.replicas <==> p in u.players
  {
    hide Faithful, Recorded, Owned, SentByOwner, Truthful;
  }

  lemma StampsPlayer<S(!new), V(!new)>(g: Game<S, V>, v: V, p: PlayerId)
    requires CodecStable(g) && g.decodeAction(v, p).Some?
    ensures g.decodeAction(v, p).value.player == p
  {
  }

  /** The same for whatever is delivered: anything but the next action of the order is turned away, with the reason. */
  lemma DeliveryIsRuledOn<S(!new), V(!new)>(u: Setup<S, V>, events: seq<Event<V>>, q: PlayerId, m: nat)
    requires TurnBased(u.game) && CodecStable(u.game) && CarefulRun(u, Start(u), events) && q in u.players
    requires m < |Run(u, Start(u), events).sent|
    ensures
      var w := Run(u, Start(u), events);
      && q in w.replicas && w.sent[m].player in u.players
      && var r := w.replicas[q];
      var o := Delivered(u, w, q, m).1;
      var a := u.game.decodeAction(w.sent[m].value, w.sent[m].player);
      && a.Some? && a.value in w.order
      && match Verdict(u, r.session.abandonedBy.Some?, r.history, a.value)
         case Some(reason) => o == Rejected(reason) && Next(u, w, Delivers(q, m)) == w
         case None => o.Accepted? && o.action == a.value && r.history + [a.value] <= w.order
  {
    hide TurnBased, CodecStable, CarefulRun, Run, Start, Inv, Verdict, ApplyInternal, Faithful, Count, Undisturbed;
    ReachableInv(u, events);
    var w := Run(u, Start(u), events);
    PlayersAreHere(u, w);
    InvAt(u, w, q);
    var r := w.replicas[q];
    var i, a := MessageAction(u, w, m);
    var (s, o) := Delivered(u, w, q, m);
    RulesByHistory(u, q, r, a);
    AcceptsExactly(u, q, r, a);
    if o.Accepted? {
      DeliveryFollows(u, w, q, a, i);
    } else {
      RejectedSessionUnchanged(u, w, q, s, o);
    }
  }

  /** What did not come from a player, or names another one than who sent it, is turned away and changes nothing. */
  lemma StrangersAreTurnedAway<S, V>(c: Config<S, V>, s: Session<S, V>, value: V, player: PlayerId)
    ensures
      var (s', o) := ApplyRemote(c, s, value, player);
      var a := c.game.decodeAction(value, player);
      && (player !in c.players ==> o == Rejected(NotAPlayer) && s' == s)
      && (player in c.players && a.None? ==> o == Rejected(Invalid) && s' == s)
      && (player in c.players && a.Some? && a.value.player != player ==> o == Rejected(NotAPlayer) && s' == s)
      && (o.Accepted? ==> player in c.players && a == Some(o.action) && o.action.player == player)
  {
  }

  // -- boards ----------------------------------------------------------------

  /**
    An envelope is adopted by a guest exactly when it decodes and is not older than the last
    one adopted; then the guest has its board, version, clock and counters, unreadable counters
    count as none, and everything else about the session is as it was.
   */
  lemma AdoptsExactly<S, V>(c: Config<S, V>, s: Session<S, V>, e: Envelope<V>)
    ensures
      var (s', adopted) := ApplyEnvelope(c, s, e);
      var told := c.localPlayer in e.seq_ && e.seq_[c.localPlayer] >= 0;
      && (adopted <==> !c.isHost && e.version >= s.adoptedHostVersion && c.game.decodeState(e.state).Some?)
      && (!adopted ==> s' == s)
      && (adopted ==>
           && c.game.decodeState(e.state) == Some(s'.state) && s'.version == e.version == s'.adoptedHostVersion
           && s'.elapsedMs == e.elapsedMs && s'.localSeq == (if told then e.seq_[c.localPlayer] else s.localSeq)
           && (forall p :: Expected(s', p) == if p in e.seq_ && e.seq_[p] >= 0 then e.seq_[p] else 0)
           && s'.log == s.log && s'.random == s.random && s'.tickRemainder == s.tickRemainder
           && s'.abandonedBy == s.abandonedBy)
  {
  }

  /** A guest always takes the host's board when it decodes, and takes nothing but the board. */
  lemma BoardAloneIsAdopted<S(!new), V(!new)>(c: Config<S, V>, s: Session<S, V>, value: V)
    ensures
      var (s', adopted) := ApplySnapshot(c, s, value);
      && (adopted <==> !c.isHost && c.game.decodeState(value).Some?)
      && (adopted ==> s' == s.(state := s'.state) && c.game.decodeState(value) == Some(s'.state))
      && (!adopted ==> s' == s)
      && (forall board :: StateCodec(c.game) && !c.isHost && value == c.game.encodeState(board) ==> s'.state == board)
  {
  }

  /** Every envelope that arrives, in the order of arrival. */
  function AdoptAll<S, V>(c: Config<S, V>, s: Session<S, V>, arrived: seq<Envelope<V>>): Session<S, V>
    decreases |arrived|
  {
    if arrived == [] then s else AdoptAll(c, ApplyEnvelope(c, s, arrived[0]).0, arrived[1..])
  }

  /** It can be read, and is not older than the last one adopted. */
  predicate Usable<S, V>(c: Config<S, V>, s: Session<S, V>, e: Envelope<V>) {
    e.version >= s.adoptedHostVersion && c.game.decodeState(e.state).Some?
  }

  /** The newest of the usable ones, and of those of its version the last to arrive. */
  ghost predicate Wins<S, V>(c: Config<S, V>, s: Session<S, V>, arrived: seq<Envelope<V>>, i: nat) {
    && i < |arrived| && Usable(c, s, arrived[i])
    && forall j :: 0 <= j < |arrived| && Usable(c, s, arrived[j]) ==>
         if j <= i then arrived[j].version <= arrived[i].version else arrived[j].version < arrived[i].version
  }

  /** All that an envelope decides; the own number also depends on whether it counts the guest's moves. */
  ghost predicate LooksAdopted<S, V>(c: Config<S, V>, s: Session<S, V>, e: Envelope<V>, t: Session<S, V>) {
    && ApplyEnvelope(c, s, e).0.(localSeq := t.localSeq) == t
    && (c.localPlayer in e.seq_ && e.seq_[c.localPlayer] >= 0 ==> t.localSeq == e.seq_[c.localPlayer])
  }

  /**
    However late and in whatever order envelopes arrive, a guest ends where the newest of them
    alone would have put it; with none to use, or at the host, nothing changes.
   */
  lemma {:induction false} NewestEnvelopeWins<S, V>(c: Config<S, V>, s: Session<S, V>, arrived: seq<Envelope<V>>)
    ensures c.isHost || (forall i :: 0 <= i < |arrived| ==> !Usable(c, s, arrived[i])) ==>
              AdoptAll(c, s, arrived) == s
    ensures forall i: nat :: Wins(c, s, arrived, i) && !c.isHost ==>
              LooksAdopted(c, s, arrived[i], AdoptAll(c, s, arrived))
    decreases |arrived|
  {
    hide LooksAdopted, ApplyEnvelope;
    if arrived == [] { return; }
    var (s1, adopted) := ApplyEnvelope(c, s, arrived[0]);
    var rest := arrived[1..];
    AdoptsExactly(c, s, arrived[0]);
    NewestEnvelopeWins(c, s1, rest);
    assert forall j :: 1 <= j < |arrived| ==> arrived[j] == rest[j - 1];
    forall i: nat | Wins(c, s, arrived, i) && !c.isHost
      ensures LooksAdopted(c, s, arrived[i], AdoptAll(c, s, arrived))
    {
      if i > 0 {
        assert Wins(c, s1, rest, i - 1) by { StillWins(c, s, s1, arrived, i); }
        AfterAnother(c, s, arrived[0], arrived[i], AdoptAll(c, s1, rest));
      } else {
        assert forall j :: 0 <= j < |rest| ==> !Usable(c, s1, rest[j]) by { NoneIsNewer(c, s, s1, arrived); }
        AsAdopted(c, s, arrived[0]);
      }
    }
  }

  lemma StillWins<S, V>(c: Config<S, V>, s: Session<S, V>, s1: Session<S, V>, arrived: seq<Envelope<V>>, i: nat)
    requires 0 < i && Wins(c, s, arrived, i)
    requires s1.adoptedHostVersion == if Usable(c, s, arrived[0]) then arrived[0].version else s.adoptedHostVersion
    ensures Wins(c, s1, arrived[1..], i - 1)
  {
    var rest := arrived[1..];
    forall j | 0 <= j < |rest| && Usable(c, s1, rest[j])
      ensures if j <= i - 1 then rest[j].version <= rest[i - 1].version else rest[j].version < rest[i - 1].version
    {
      assert rest[j] == arrived[j + 1] && Usable(c, s, arrived[j + 1]);
    }
  }

  lemma NoneIsNewer<S, V>(c: Config<S, V>, s: Session<S, V>, s1: Session<S, V>, arrived: seq<Envelope<V>>)
    requires Wins(c, s, arrived, 0) && s1.adoptedHostVersion == arrived[0].version
    ensures forall j :: 0 <= j < |arrived| - 1 ==> !Usable(c, s1, arrived[1..][j])
  {
    forall j | 0 <= j < |arrived| - 1 ensures !Usable(c, s1, arrived[1..][j]) {
      assert arrived[1..][j] == arrived[j + 1];
      assert Usable(c, s1, arrived[j + 1]) ==> Usable(c, s, arrived[j + 1]);
    }
  }

  lemma AfterAnother<S, V>(c: Config<S, V>, s: Session<S, V>, a: Envelope<V>, b: Envelope<V>, t: Session<S, V>)
    requires !c.isHost && Usable(c, s, b) && LooksAdopted(c, ApplyEnvelope(c, s, a).0, b, t)
    requires Usable(c, s, a) ==> a.version <= b.version
    ensures LooksAdopted(c, s, b, t)
  {
  }

  lemma AsAdopted<S, V>(c: Config<S, V>, s: Session<S, V>, e: Envelope<V>)
    ensures !c.isHost && Usable(c, s, e) ==> LooksAdopted(c, s, e, ApplyEnvelope(c, s, e).0)
  {
  }

  // -- leaving ---------------------------------------------------------------

  /** A departure is recorded exactly for a player of a game that is not over, and records nothing else. */
  lemma LeavesExactly<S, V>(c: Config<S, V>, s: Session<S, V>, player: PlayerId)
    ensures
      var (s', left) := Abandon(c, s, player);
      && (left <==> player in c.players && s.abandonedBy.None? && !c.game.over(s.state))
      && s' == (if left then s.(abandonedBy := Some(player)) else s) && (left ==> IsOver(c, s'))
  {
  }

  /** The calls that move pieces. */
  predicate Moves<V>(op: GuestOp<V>) {
    op.LocalMove? || op.PeerMove? || op.Leaves?
  }

  /**
    Once a player has left, no run of moves, from either side, and no second departure changes
    anything at all.
   */
  lemma {:induction false} LeftForGood<S, V>(
      c: Config<S, V>, s: Session<S, V>, player: PlayerId, ops: seq<GuestOp<V>>)
    requires c.game.tickRate > 0.0 && player in c.players && s.abandonedBy.None? && !c.game.over(s.state)
    requires forall i :: 0 <= i < |ops| ==> Moves(ops[i])
    ensures DoAll(c, Abandon(c, s, player).0, ops) == s.(abandonedBy := Some(player))
    decreases |ops|
  {
    hide DoAll;
    NothingMoves(c, Abandon(c, s, player).0, ops);
  }

  lemma {:induction false} NothingMoves<S, V>(c: Config<S, V>, s: Session<S, V>, ops: seq<GuestOp<V>>)
    requires c.game.tickRate > 0.0 && IsOver(c, s) && forall i :: 0 <= i < |ops| ==> Moves(ops[i])
    ensures DoAll(c, s, ops) == s
    decreases |ops|
  {
    if ops != [] {
      assert Do(c, s, ops[0]) == s;
      NothingMoves(c, s, ops[1..]);
    }
  }
}
