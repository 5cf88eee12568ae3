/**
  When sessions do part: moves made at once, and a board adopted over a move of one's own.
 */
module GameDivergence {
  import opened Wrappers
  import opened GameRules
  import opened GameReplication

  // -- moves made at once ----------------------------------------------------

  /** The board after `a` and then `b`. */
  function InTurn<S, V>(g: Game<S, V>, s: Session<S, V>, a: Action<V>, b: Action<V>): S {
    var (s1, r1) := g.apply(s.state, a, s.elapsedMs, g.validate(s.state, a, s.elapsedMs, s.random).1);
    g.apply(s1, b, s.elapsedMs, g.validate(s1, b, s.elapsedMs, r1).1).0
  }

  /** Two sessions that show the same and have counted the same. */
  ghost predicate Alike<S, V>(s: Session<S, V>, t: Session<S, V>) {
    && s.state == t.state && s.random == t.random && s.elapsedMs == t.elapsedMs && s.version == t.version
    && forall x :: Expected(s, x) == Expected(t, x)
  }

  /**
    Two players move at once from one position and each takes the other's move.  They then
    agree on every counter, and on the board exactly when the two moves commute.
   */
  lemma RacingMovesAgreeIffTheyCommute<S(!new), V(!new)>(
      u: Setup<S, V>, p: PlayerId, q: PlayerId, s: Session<S, V>, t: Session<S, V>,
      mine: (string, V), theirs: (string, V))
    requires CodecStable(u.game) && p != q && Alike(s, t)
    requires SubmitLocal(ConfigFor(u, p), s, mine.0, mine.1).1.Accepted?
    requires SubmitLocal(ConfigFor(u, q), t, theirs.0, theirs.1).1.Accepted?
    ensures
      var (s1, o) := SubmitLocal(ConfigFor(u, p), s, mine.0, mine.1);
      var (t1, o') := SubmitLocal(ConfigFor(u, q), t, theirs.0, theirs.1);
      var (s2, r) := ApplyRemote(ConfigFor(u, p), s1, u.game.encodeAction(o'.action), q);
      var (t2, r') := ApplyRemote(ConfigFor(u, q), t1, u.game.encodeAction(o.action), p);
      r.Accepted? && r'.Accepted? ==>
        && s2.version == t2.version && (forall x :: Expected(s2, x) == Expected(t2, x))
        && (s2.state == t2.state <==> InTurn(u.game, s, o.action, o'.action) == InTurn(u.game, s, o'.action, o.action))
  {
    var (s1, o) := SubmitLocal(ConfigFor(u, p), s, mine.0, mine.1);
    var (t1, o') := SubmitLocal(ConfigFor(u, q), t, theirs.0, theirs.1);
    var (s2, r) := ApplyRemote(ConfigFor(u, p), s1, u.game.encodeAction(o'.action), q);
    var (t2, r') := ApplyRemote(ConfigFor(u, q), t1, u.game.encodeAction(o.action), p);
    var a := SubmitLocalIsApply(u, p, s, mine.0, mine.1);
    var b := SubmitLocalIsApply(u, q, t, theirs.0, theirs.1);
    if r.Accepted? && r'.Accepted? {
      forall x ensures Expected(s2, x) == Expected(t2, x) {
        assert Expected(s, x) == Expected(t, x);
      }
    }
  }

  datatype Wire = Wire(kind: string, number: int)

  /** A board anybody may add to: two players' moves made at once are ordered differently. */
  function Scribble(): Game<seq<string>, Wire> {
    Game([], (s, a, t, r) => (true, r), (s, a: Action<Wire>, t, r) => (s + [a.player], r), (s, t, d, r) => (s, r),
         false, 60.0, s => false, s => None, s => Wire("", 0), v => None,
         (a: Action<Wire>) => Wire(a.kind, a.seq_),
         (v: Wire, p) => Some(Action(v.kind, p, v.number, Wire("", 0))))
  }

  /** `p`'s session of that board after `log`, `na` entries of it by "a" and `nb` by "b". */
  function Page(log: seq<Action<Wire>>, state: seq<string>, na: nat, nb: nat, own: nat): Session<seq<string>, Wire> {
    Session(state, log, map["a" := na, "b" := nb], own, 0.0, 0.0, |log|, -1, None, 0)
  }

  lemma PageStart(u: Setup<seq<string>, Wire>, p: PlayerId)
    requires u.game == Scribble() && u.players == ["a", "b"] && u.seed == 0
    ensures New(ConfigFor(u, p)) == Page([], [], 0, 0, 0)
  {
    assert New(ConfigFor(u, p)).nextSeqByPlayer == map["a" := 0, "b" := 0];
  }

  lemma PageTakes(
      u: Setup<seq<string>, Wire>, p: PlayerId, log: seq<Action<Wire>>, state: seq<string>, na: nat, nb: nat, own: nat,
      a: Action<Wire>)
    requires u.game == Scribble() && |log| < u.historyLimit
    requires (a.player == "a" && a.seq_ == na) || (a.player == "b" && a.seq_ == nb)
    ensures ApplyInternal(ConfigFor(u, p), Page(log, state, na, nb, own), a)
      == (Page(log + [a], state + [a.player],
               if a.player == "a" then na + 1 else na, if a.player == "b" then nb + 1 else nb, own),
          Accepted(a, |log|))
  {
    assert map["a" := na, "b" := nb]["a" := na + 1] == map["a" := na + 1, "b" := nb];
    assert map["a" := na, "b" := nb]["b" := nb + 1] == map["a" := na, "b" := nb + 1];
    assert |log + [a]| <= u.historyLimit;
  }

  /** Both sessions accept both moves, agree on every counter, and show different boards. */
  lemma WithoutTurnsReplicasDiverge(u: Setup<seq<string>, Wire>)
    requires u.game == Scribble() && u.players == ["a", "b"] && u.seed == 0 && u.historyLimit >= 2
    ensures
      var (ca, cb) := (ConfigFor(u, "a"), ConfigFor(u, "b"));
      var (a1, oa) := SubmitLocal(ca, New(ca), "x", Wire("", 0));
      var (b1, ob) := SubmitLocal(cb, New(cb), "x", Wire("", 0));
      && CodecStable(u.game)
      && oa.Accepted? && ob.Accepted?
      && var a2 := ApplyRemote(ca, a1, u.game.encodeAction(ob.action), "b").0;
      var b2 := ApplyRemote(cb, b1, u.game.encodeAction(oa.action), "a").0;
      && a2.state == ["a", "b"] && b2.state == ["b", "a"]
      && a2.nextSeqByPlayer == b2.nextSeqByPlayer && a2.version == b2.version
  {
    hide ApplyInternal, New;
    PageStart(u, "a");
    PageStart(u, "b");
    var (x, y) := (Action("x", "a", 0, Wire("", 0)), Action("x", "b", 0, Wire("", 0)));
    PageTakes(u, "a", [], [], 0, 0, 0, x);
    PageTakes(u, "b", [], [], 0, 0, 0, y);
    PageTakes(u, "a", [x], ["a"], 1, 0, 1, y);
    PageTakes(u, "b", [y], ["b"], 0, 1, 1, x);
    assert [] + [x] == [x] && [] + [y] == [y];
    assert [] + ["a"] == ["a"] && [] + ["b"] == ["b"];
    assert ["a"] + ["b"] == ["a", "b"] && ["b"] + ["a"] == ["b", "a"];
  }

  // -- a board adopted over a move of one's own ------------------------------

  /** All sessions are somewhere on one line of play. */
  ghost predicate Agree<S, V>(w: World<S, V>) {
    forall p, q :: p in w.replicas && q in w.replicas ==> OneLine(w.replicas[p].history, w.replicas[q].history)
  }

  predicate OneLine<V(==)>(h: seq<Action<V>>, h': seq<Action<V>>) {
    h <= h' || h' <= h
  }

  /** The first entry at or after `i` that `p` made. */
  function NextBy<V>(order: seq<Action<V>>, p: PlayerId, i: nat): (j: nat)
    ensures j <= |order| && (j < |order| ==> i <= j && order[j].player == p)
    ensures forall k :: i <= k < j ==> order[k].player != p
    decreases |order| - i
  {
    if i >= |order| then |order| else if order[i].player == p then i else NextBy(order, p, i + 1)
  }

  /** At the place of its move `j` the player may make another one. */
  ghost predicate HasChoice<S, V>(u: Setup<S, V>, order: seq<Action<V>>, j: nat, kind: string, payload: V) {
    j < |order| ==>
      var (p, n) := (order[j].player, Count(order[..j], order[j].player));
      var a := u.game.decodeAction(u.game.encodeAction(Action(kind, p, n, payload)), p);
      a.Some? && a.value != order[j] && a.value.seq_ == n && Playable(u.game, u.seed, order[..j], a.value)
  }

  /** `p` is on the line, nobody has left, and everything it misses can still reach it. */
  ghost predicate Following<S(!new), V(!new)>(u: Setup<S, V>, w: World<S, V>, p: PlayerId) {
    && p in w.replicas && Faithful(u, p, w.replicas[p]) && w.replicas[p].session.abandonedBy.None?
    && w.replicas[p].history <= w.order && Recorded(u, w.order, w.sent)
  }

  /** Delivering the next entry, made by somebody else, moves `p` one place on. */
  lemma StepOn<S(!new), V(!new)>(u: Setup<S, V>, w: World<S, V>, p: PlayerId) returns (m: nat)
    requires TurnBased(u.game) && Following(u, w, p)
    requires |w.replicas[p].history| < |w.order| && w.order[|w.replicas[p].history|].player != p
    ensures
      var w' := Next(u, w, Delivers(p, m));
      && p in w'.replicas && w' == w.(replicas := w.replicas[p := w'.replicas[p]])
      && Following(u, w', p) && w'.replicas[p].history == w.order[..|w.replicas[p].history| + 1]
  {
    hide After, ApplyInternal, TurnBased, RandomFree, Count;
    var r := w.replicas[p];
    var k := |r.history|;
    var a := w.order[k];
    assert r.history == w.order[..k];
    assert OnAir(u, w.sent, a) && Playable(u.game, u.seed, w.order[..k], a);
    m :| 0 <= m < |w.sent| && Carries(u, a, w.sent[m]);
    assert Delivered(u, w, p, m) == ApplyInternal(ConfigFor(u, p), r.session, a);
    AcceptsExactly(u, p, r, a);
    AcceptedStaysFaithful(u, p, r, a);
    StepKeepsOpen(ConfigFor(u, p), r.session, a);
    var h := r.history + [a];
    assert h == w.order[..k + 1] && h[..k] == r.history;
    SkipsOthers(h, k + 1, p);
    assert h[..k + 1] == h;
  }

  lemma StepKeepsOpen<S, V>(c: Config<S, V>, s: Session<S, V>, a: Action<V>)
    ensures ApplyInternal(c, s, a).0.abandonedBy == s.abandonedBy
  {
  }

  /** Delivering everything up to place `n`. */
  lemma {:induction false} CatchUp<S(!new), V(!new)>(u: Setup<S, V>, w: World<S, V>, p: PlayerId, n: nat)
      returns (events: seq<Event<V>>)
    requires TurnBased(u.game) && Following(u, w, p) && |w.replicas[p].history| <= n <= |w.order|
    requires forall k :: |w.replicas[p].history| <= k < n ==> w.order[k].player != p
    ensures forall i :: 0 <= i < |events| ==> !events[i].Adopts?
    ensures
      var w' := Run(u, w, events);
      && p in w'.replicas && w' == w.(replicas := w.replicas[p := w'.replicas[p]])
      && Following(u, w', p) && w'.replicas[p].history == w.order[..n]
    decreases n - |w.replicas[p].history|
  {
    hide Faithful, Recorded, TurnBased, Next;
    if |w.replicas[p].history| == n {
      events := [];
      assert w.replicas[p := w.replicas[p]] == w.replicas;
    } else {
      var m := StepOn(u, w, p);
      var rest := CatchUp(u, Next(u, w, Delivers(p, m)), p, n);
      events := [Delivers(p, m)] + rest;
      assert events[1..] == rest;
    }
  }

  lemma {:induction false} RunInTwo<S, V>(u: Setup<S, V>, w: World<S, V>, first: seq<Event<V>>, second: seq<Event<V>>)
    ensures Run(u, w, first + second) == Run(u, Run(u, w, first), second)
    decreases |first|
  {
    hide Next;
    if first == [] {
      assert first + second == second;
    } else {
      RunInTwo(u, Next(u, w, first[0]), first[1..], second);
      assert (first + second)[1..] == first[1..] + second;
    }
  }

  /** At its own place in the line a player who is shown the board before it may move again. */
  lemma MovesAgain<S(!new), V(!new)>(u: Setup<S, V>, w: World<S, V>, q: PlayerId, j: nat, kind: string, payload: V)
    requires TurnBased(u.game) && CodecStable(u.game) && Following(u, w, q) && HasChoice(u, w.order, j, kind, payload)
    requires j < |w.order| && w.order[j].player == q && w.replicas[q].history == w.order[..j]
    ensures
      var w' := Next(u, w, Submits(q, kind, payload));
      && w'.replicas.Keys == w.replicas.Keys
      && (forall x :: x in w.replicas && x != q ==> w'.replicas[x] == w.replicas[x])
      && !OneLine(w'.replicas[q].history, w.order[..j + 1])
  {
    hide After, ApplyInternal, TurnBased, RandomFree, Count, Recorded;
    var r := w.replicas[q];
    var a := u.game.decodeAction(u.game.encodeAction(Action(kind, q, r.session.localSeq, payload)), q);
    assert r.session.localSeq == Count(w.order[..j], q);
    AcceptsExactly(u, q, r, a.value);
    assert Submitted(u, w, q, kind, payload).1.Accepted?;
    assert Submitted(u, w, q, kind, payload).1.action == a.value;
    var w' := Next(u, w, Submits(q, kind, payload));
    assert w'.replicas[q].history == w.order[..j] + [a.value];
    assert w'.replicas[q].history[j] != w.order[..j + 1][j];
  }

  lemma AdoptKeepsOpen<S, V>(c: Config<S, V>, s: Session<S, V>, e: Envelope<V>)
    ensures ApplyEnvelope(c, s, e).0.abandonedBy == s.abandonedBy
  {
  }

  /** The move an adoption loses is one of the order's, past the adopted place. */
  lemma LostMoveIsAhead<S(!new), V(!new)>(u: Setup<S, V>, w: World<S, V>, q: PlayerId, i: nat)
    requires Inv(u, w) && q in w.replicas && i < |w.snapshots|
    requires LosesOwnMove(q, w.replicas[q].session, w.snapshots[i].envelope)
    ensures |w.snapshots[i].history| <= |w.order| && NextBy(w.order, q, |w.snapshots[i].history|) < |w.order|
  {
    hide Faithful, Recorded, Owned, SentByOwner, LosesOwnMove;
    var (h, h') := (w.replicas[q].history, w.snapshots[i].history);
    assert Truthful(u, w.order, w.snapshots[i]);
    OwnMovesKept(u, w, q, w.snapshots[i]);
    var k :| 0 <= k < |h| && h[k].player == q && !(k < |h'| && h'[k] == h[k]);
    assert w.order[k] == h[k] && h' == w.order[..|h'|];
  }

  /** What a session has not seen yet was made by others. */
  lemma AheadIsOthers<S(!new), V(!new)>(u: Setup<S, V>, w: World<S, V>, x: PlayerId)
    requires Inv(u, w) && x in w.replicas
    ensures forall k :: |w.replicas[x].history| <= k < |w.order| ==> w.order[k].player != x
  {
    hide Faithful, Recorded, SentByOwner, Truthful;
    forall k | |w.replicas[x].history| <= k < |w.order| ensures w.order[k].player != x {
      assert Owned(u, w, w.order[k], k);
    }
  }

  lemma RunEnds<S, V>(u: Setup<S, V>, w: World<S, V>, first: seq<Event<V>>, second: seq<Event<V>>, last: Event<V>)
    ensures Run(u, w, first + second + [last]) == Next(u, Run(u, Run(u, w, first), second), last)
  {
    hide Next;
    RunInTwo(u, w, first + second, [last]);
    RunInTwo(u, w, first, second);
    assert [last][1..] == [];
  }

  /** The unguarded half: the move is still on the air, and another one is made in its place. */
  lemma OutstandingMoveDiverges<S(!new), V(!new)>(
      u: Setup<S, V>, w: World<S, V>, q: PlayerId, i: nat, x: PlayerId, kind: string, payload: V)
      returns (events: seq<Event<V>>)
    requires Inv(u, w) && TurnBased(u.game) && CodecStable(u.game) && StateCodec(u.game) && RandomFree(u.game)
    requires q in w.replicas && x in w.replicas && x != q && i < |w.snapshots| && Adopted(u, w, q, i).1
    requires w.replicas[q].session.abandonedBy.None? && w.replicas[x].session.abandonedBy.None?
    requires LosesOwnMove(q, w.replicas[q].session, w.snapshots[i].envelope)
    requires HasChoice(u, w.order, NextBy(w.order, q, |w.snapshots[i].history|), kind, payload)
    ensures forall k :: 0 <= k < |events| ==> !events[k].Adopts?
    ensures !Agree(Run(u, Next(u, w, Adopts(q, i)), events))
  {
    hide Faithful, Recorded, Run, Next, TurnBased, CodecStable, StateCodec, RandomFree, HasChoice, Count, LosesOwnMove;
    var j := NextBy(w.order, q, |w.snapshots[i].history|);
    LostMoveIsAhead(u, w, q, i);
    var w0 := Next(u, w, Adopts(q, i));
    AdoptedFollows(u, w, q, i, x);
    var ahead := |w.replicas[x].history| <= j;
    AheadIsOthers(u, w, x);
    var ex := [];
    if ahead { ex := CatchUp(u, w0, x, j + 1); }
    var w1 := Run(u, w0, ex);
    StandsStill(u, w0);
    var eq := CatchUp(u, w1, q, j);
    var w2 := Run(u, w1, eq);
    MovesAgain(u, w2, q, j, kind, payload);
    RunEnds(u, w0, ex, eq, Submits(q, kind, payload));
    events := ex + eq + [Submits(q, kind, payload)];
    var w3 := Next(u, w2, Submits(q, kind, payload));
    assert w3.replicas[x] == w1.replicas[x];
    OffTheLine(w3.replicas[q].history, w3.replicas[x].history, w.order, j);
  }

  lemma StandsStill<S, V>(u: Setup<S, V>, w: World<S, V>)
    ensures Run(u, w, []) == w
  {
  }

  /** Off the line at place `j` is off every longer stretch of it. */
  lemma OffTheLine<V>(h: seq<Action<V>>, h': seq<Action<V>>, order: seq<Action<V>>, j: nat)
    requires j < |h'| && h' <= order && !OneLine(h, order[..j + 1])
    ensures !OneLine(h, h')
  {
    assert order[..j + 1] == h'[..j + 1];
  }

  lemma InvRecorded<S(!new), V(!new)>(u: Setup<S, V>, w: World<S, V>)
    requires Inv(u, w)
    ensures Recorded(u, w.order, w.sent)
  {
  }

  /** After the adoption both sessions are on the line, the adopting one at the snapshot's place. */
  lemma AdoptedFollows<S(!new), V(!new)>(u: Setup<S, V>, w: World<S, V>, q: PlayerId, i: nat, x: PlayerId)
    requires Inv(u, w) && StateCodec(u.game) && RandomFree(u.game)
    requires q in w.replicas && x in w.replicas && x != q && i < |w.snapshots| && Adopted(u, w, q, i).1
    requires w.replicas[q].session.abandonedBy.None? && w.replicas[x].session.abandonedBy.None?
    ensures Next(u, w, Adopts(q, i))
      == w.(replicas := w.replicas[q := Replica(Adopted(u, w, q, i).0, w.snapshots[i].history)])
    ensures Following(u, Next(u, w, Adopts(q, i)), q) && Following(u, Next(u, w, Adopts(q, i)), x)
  {
    hide Inv, Faithful, Recorded, StateCodec, RandomFree, ApplyEnvelope;
    AdoptedIsFaithful(u, w, q, i);
    InvAt(u, w, x);
    InvRecorded(u, w);
    AdoptKeepsOpen(ConfigFor(u, q), w.replicas[q].session, w.snapshots[i].envelope);
  }

  /**
    The exact condition.  Adopting a board is safe, whatever happens afterwards, exactly
    when its counter for the guest is not below the guest's own: otherwise a move of the
    guest is still out there and the guest is free to make another in its place.
   */
  lemma AdoptionIsSafeIffNoMoveIsOutstanding<S(!new), V(!new)>(
      u: Setup<S, V>, w: World<S, V>, q: PlayerId, i: nat, x: PlayerId, kind: string, payload: V)
    requires Inv(u, w) && TurnBased(u.game) && CodecStable(u.game) && StateCodec(u.game) && RandomFree(u.game)
    requires q in w.replicas && x in w.replicas && x != q && i < |w.snapshots| && Adopted(u, w, q, i).1
    requires w.replicas[q].session.abandonedBy.None? && w.replicas[x].session.abandonedBy.None?
    requires HasChoice(u, w.order, NextBy(w.order, q, |w.snapshots[i].history|), kind, payload)
    ensures
      var w' := Next(u, w, Adopts(q, i));
      (forall events :: CarefulRun(u, w', events) ==> Agree(Run(u, w', events)))
      <==> !LosesOwnMove(q, w.replicas[q].session, w.snapshots[i].envelope)
  {
    hide Inv, TurnBased, CodecStable, StateCodec, RandomFree, HasChoice, LosesOwnMove, Run, Next, CarefulRun;
    var w' := Next(u, w, Adopts(q, i));
    if LosesOwnMove(q, w.replicas[q].session, w.snapshots[i].envelope) {
      var events := OutstandingMoveDiverges(u, w, q, i, x, kind, payload);
      NoAdoptionIsCareful(u, w', events);
    } else {
      AdoptKeepsInv(u, w, q, i);
      forall events | CarefulRun(u, w', events) ensures Agree(Run(u, w', events)) {
        RunKeepsInv(u, w', events);
        InvAgrees(u, Run(u, w', events));
      }
    }
  }

  lemma InvAgrees<S(!new), V(!new)>(u: Setup<S, V>, w: World<S, V>)
    requires Inv(u, w)
    ensures Agree(w)
  {
    hide Faithful, Recorded, Owned, SentByOwner, Truthful;
    forall p, q | p in w.replicas && q in w.replicas ensures OneLine(w.replicas[p].history, w.replicas[q].history) {
      var (h, h') := (w.replicas[p].history, w.replicas[q].history);
      assert h == w.order[..|h|] && h' == w.order[..|h'|];
    }
  }

  // -- the shortest such run -------------------------------------------------

  datatype Note = Note(kind: string, number: int, board: seq<string>)

  /** A board that "g" alone writes on, one word at a time. */
  function Slate(): Game<seq<string>, Note> {
    Game([], (s, a: Action<Note>, t, r) => (a.player == "g", r), (s, a: Action<Note>, t, r) => (s + [a.kind], r),
         (s, t, d, r) => (s, r), false, 60.0, s => false, s => Some("g"),
         s => Note("", 0, s), (v: Note) => Some(v.board),
         (a: Action<Note>) => Note(a.kind, a.seq_, []),
         (v: Note, p) => Some(Action(v.kind, p, v.number, Note("", 0, []))))
  }

  /** Writing on an open slate. */
  lemma SlateTakes(c: Config<seq<string>, Note>, s: Session<seq<string>, Note>, word: string, n: int)
    requires c.game == Slate() && s.abandonedBy.None?
    ensures
      var (s', o) := ApplyInternal(c, s, Action(word, "g", n, Note("", 0, [])));
      && (n < Expected(s, "g") ==> o == Rejected(Duplicate) && s' == s)
      && (n == Expected(s, "g") ==>
            && o.Accepted? && o.action == Action(word, "g", n, Note("", 0, []))
            && s'.state == s.state + [word] && s'.version == s.version + 1 && s'.abandonedBy.None?
            && s'.localSeq == s.localSeq && s'.adoptedHostVersion == s.adoptedHostVersion
            && Expected(s', "g") == n + 1)
  {
  }

  /**
    A guest writes "x", adopts the host's empty board while "x" is on its way or later, and
    writes "y" in its place.  The host has taken "x" and refuses "y" as a repeat: counters
    and versions agree, and the boards never will.
   */
  lemma AdoptingOverAnOwnMoveDiverges(u: Setup<seq<string>, Note>)
    requires u.game == Slate() && u.players == ["h", "g"] && u.host == "h"
    ensures
      var (hc, gc) := (ConfigFor(u, "h"), ConfigFor(u, "g"));
      var envelope := SnapshotEnvelope(hc, New(hc));
      var (g1, x) := SubmitLocal(gc, New(gc), "x", Note("", 0, []));
      var (g2, adopted) := ApplyEnvelope(gc, g1, envelope);
      var (g3, y) := SubmitLocal(gc, g2, "y", Note("", 0, []));
      && TurnBased(u.game) && CodecStable(u.game) && StateCodec(u.game) && RandomFree(u.game)
      && x.Accepted? && adopted && LosesOwnMove("g", g1, envelope) && y.Accepted?
      && var (h1, ox) := ApplyRemote(hc, New(hc), u.game.encodeAction(x.action), "g");
      var (h2, oy) := ApplyRemote(hc, h1, u.game.encodeAction(y.action), "g");
      && ox.Accepted? && oy == Rejected(Duplicate)
      && g3.state == ["y"] && h2.state == ["x"]
      && g3.version == h2.version == 1 && Expected(g3, "g") == Expected(h2, "g") == 1
  {
    hide ApplyInternal;
    var (hc, gc) := (ConfigFor(u, "h"), ConfigFor(u, "g"));
    SlateTakes(gc, New(gc), "x", 0);
    var g1 := SubmitLocal(gc, New(gc), "x", Note("", 0, [])).0;
    var g2 := ApplyEnvelope(gc, g1, SnapshotEnvelope(hc, New(hc))).0;
    assert Expected(g2, "g") == 0 && g2.localSeq == 0 && g2.state == [];
    SlateTakes(gc, g2, "y", 0);
    SlateTakes(hc, New(hc), "x", 0);
    var h1 := ApplyRemote(hc, New(hc), Note("x", 0, []), "g").0;
    SlateTakes(hc, h1, "y", 0);
    assert [] + ["x"] == ["x"] && [] + ["y"] == ["y"];
  }

  /** The host publishes its empty board, and then the guest writes "x". */
  ghost function SlateRun(u: Setup<seq<string>, Note>): World<seq<string>, Note> {
    Next(u, Next(u, Start(u), Publishes), Submits("g", "x", Note("", 0, [])))
  }

  lemma SlatePublished(u: Setup<seq<string>, Note>)
    requires u.game == Slate() && u.players == ["h", "g"] && u.host == "h"
    ensures Next(u, Start(u), Publishes)
      == Start(u).(snapshots := [Snapshot(SnapshotEnvelope(ConfigFor(u, "h"), New(ConfigFor(u, "h"))), [])])
  {
    assert "h" in Start(u).replicas;
    assert [] + Next(u, Start(u), Publishes).snapshots == Next(u, Start(u), Publishes).snapshots;
  }

  lemma SlateWritten(u: Setup<seq<string>, Note>)
    requires u.game == Slate() && u.players == ["h", "g"] && u.host == "h"
    ensures
      var (w, x) := (SlateRun(u), Action("x", "g", 0, Note("", 0, [])));
      && "g" in w.replicas && "h" in w.replicas && w.order == [x] && w.replicas["g"].history == [x]
      && w.replicas["g"].session.abandonedBy.None? && w.replicas["h"].session.abandonedBy.None?
      && w.replicas["g"].session.localSeq == 1 && w.replicas["g"].session.adoptedHostVersion == -1
      && w.snapshots == [Snapshot(SnapshotEnvelope(ConfigFor(u, "h"), New(ConfigFor(u, "h"))), [])]
  {
    hide ApplyInternal, SnapshotEnvelope;
    SlatePublished(u);
    var w := Next(u, Start(u), Publishes);
    var c := ConfigFor(u, "g");
    assert "g" in Start(u).replicas && "h" in Start(u).replicas;
    assert w.replicas["g"] == Replica(New(c), []);
    SlateTakes(c, New(c), "x", 0);
    StepKeepsOpen(c, New(c), Action("x", "g", 0, Note("", 0, [])));
  }

  /** The theorem at work: after this run the adoption is not safe. */
  lemma SlateAdoptionIsNotSafe(u: Setup<seq<string>, Note>)
    requires u.game == Slate() && u.players == ["h", "g"] && u.host == "h"
    ensures
      var w := SlateRun(u);
      var w' := Next(u, w, Adopts("g", 0));
      && "g" in w.replicas && |w.snapshots| == 1 && Adopted(u, w, "g", 0).1
      && !(forall events :: CarefulRun(u, w', events) ==> Agree(Run(u, w', events)))
  {
    hide ApplyInternal, Next, Run, Agree, Inv, CarefulRun;
    var w := SlateRun(u);
    SlateWritten(u);
    SlateSound(u);
    assert LosesOwnMove("g", w.replicas["g"].session, w.snapshots[0].envelope);
    assert NextBy(w.order, "g", 0) == 0;
    assert HasChoice(u, w.order, 0, "y", Note("", 0, [])) by { SlateChoice(u); }
    AdoptionIsSafeIffNoMoveIsOutstanding(u, w, "g", 0, "h", "y", Note("", 0, []));
  }

  lemma SlateChoice(u: Setup<seq<string>, Note>)
    requires u.game == Slate()
    ensures HasChoice(u, [Action("x", "g", 0, Note("", 0, []))], 0, "y", Note("", 0, []))
  {
    assert [Action("x", "g", 0, Note("", 0, []))][..0] == [];
  }

  lemma SlateSound(u: Setup<seq<string>, Note>)
    requires u.game == Slate() && u.players == ["h", "g"] && u.host == "h"
    ensures Inv(u, SlateRun(u))
    ensures TurnBased(u.game) && CodecStable(u.game) && StateCodec(u.game) && RandomFree(u.game)
  {
    hide Inv, Next;
    var events := [Publishes, Submits("g", "x", Note("", 0, []))];
    NoAdoptionIsCareful(u, Start(u), events);
    ReachableInv(u, events);
    assert events[1..] == [events[1]] && events[1..][1..] == [];
    assert Run(u, Start(u), events) == SlateRun(u);
  }
}
