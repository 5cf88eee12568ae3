/**
  What each TCP callback keeps, one section for each stage of a link's life: leaving the
  table, arriving in it, living there, and being stopped with all the others.  A callback
  changes one link, one promise or one signal at a time, so most of the work is to show
  that everything about the other links, connects and sends stays as it was before.
 */
module TcpCallbacks {
  import opened Wrappers
  import opened TcpLinks

  // -- sequences -------------------------------------------------------------

  lemma PhaseAfter(trace: seq<Signal>, s: Signal, id: LinkId)
    ensures PhaseOf(trace + [s], id) == if s.id == id then Step(PhaseOf(trace, id), s) else PhaseOf(trace, id)
  {
    assert (trace + [s])[..|trace|] == trace;
  }

  lemma AnsweredAfter(answers: seq<Answer>, a: Answer, r: nat)
    ensures Answered(answers + [a], r) == Answered(answers, r) + if a.request == r then 1 else 0
  {
    assert (answers + [a])[..|answers|] == answers;
  }

  lemma SettledAfter(outcomes: seq<Outcome>, o: Outcome, s: nat)
    ensures Settled(outcomes + [o], s) == Settled(outcomes, s) + if o.send == s then 1 else 0
  {
    assert (outcomes + [o])[..|outcomes|] == outcomes;
  }

  lemma {:induction false} FrameAppended(frames: seq<Frame>, f: Frame, s: nat)
    ensures Held(frames + [f], s) == Held(frames, s) + if f.send == s then 1 else 0
    ensures Total(frames + [f]) == Total(frames) + f.size
    decreases |frames|
  {
    if frames == [] {
      assert [] + [f] == [f];
    } else {
      assert (frames + [f])[1..] == frames[1..] + [f];
      FrameAppended(frames[1..], f, s);
    }
  }

  lemma {:induction false} FrameRemoved(frames: seq<Frame>, k: nat, s: nat)
    requires k < |frames|
    ensures
      var rest := frames[..k] + frames[k + 1..];
      && Held(rest, s) == Held(frames, s) - (if frames[k].send == s then 1 else 0)
      && Total(rest) == Total(frames) - frames[k].size
    decreases |frames|
  {
    var rest := frames[..k] + frames[k + 1..];
    if k == 0 {
      assert rest == frames[1..];
    } else {
      FrameRemoved(frames[1..], k - 1, s);
      assert rest[1..] == frames[1..][..k - 1] + frames[1..][k..];
      assert frames[1..][k..] == frames[k + 1..];
    }
  }

  lemma {:induction false} HeldByUpdated(peers: seq<Peer>, id: nat, p: Peer, s: nat)
    requires id < |peers|
    ensures HeldBy(peers[id := p], s) == HeldBy(peers, s) - Held(peers[id].inFlight, s) + Held(p.inFlight, s)
    decreases |peers|
  {
    if id > 0 {
      HeldByUpdated(peers[1..], id - 1, p, s);
      assert peers[id := p][1..] == peers[1..][id - 1 := p];
    }
  }

  lemma {:induction false} HeldByAppended(peers: seq<Peer>, p: Peer, s: nat)
    ensures HeldBy(peers + [p], s) == HeldBy(peers, s) + Held(p.inFlight, s)
    decreases |peers|
  {
    if peers == [] {
      assert [] + [p] == [p];
    } else {
      assert (peers + [p])[1..] == peers[1..] + [p];
      HeldByAppended(peers[1..], p, s);
    }
  }

  // -- one change at a time --------------------------------------------------

  /** A change to one peer that leaves its sends alone. */
  lemma SameSends(n: Net, n': Net, id: LinkId)
    requires Settling(n) && id < |n.peers| && |n'.peers| == |n.peers|
    requires n'.peers == n.peers[id := n'.peers[id]] && n'.peers[id].inFlight == n.peers[id].inFlight
    requires n'.outcomes == n.outcomes && n'.sends == n.sends
    ensures Settling(n')
  {
    hide Held, HeldBy, Settled;
    forall s: nat ensures HeldBy(n'.peers, s) == HeldBy(n.peers, s) {
      HeldByUpdated(n.peers, id, n'.peers[id], s);
    }
  }

  /** Finishing a connect, at any moment, answers whoever waits. */
  lemma FinishAnswers(n: Net, id: LinkId, link: Option<LinkId>)
    requires Answering(n) && id < |n.peers|
    ensures Answering(FinishConnect(n, id, link))
  {
    hide Answered;
    var n' := FinishConnect(n, id, link);
    if n.peers[id].connectCompletion.Some? {
      var request := n.peers[id].connectCompletion.value;
      assert Waits(n, request, id);
      forall r: nat ensures Answered(n'.answers, r) == Answered(n.answers, r) + if r == request then 1 else 0 {
        AnsweredAfter(n.answers, Answer(request, link), r);
      }
      forall r: nat, x ensures Waits(n', r, x) <==> Waits(n, r, x) && x != id {
      }
      forall r: nat | r < n'.asked && Answered(n'.answers, r) == 0 ensures exists x :: Waits(n', r, x) {
        var x :| Waits(n, r, x);
        assert x != id by { assert x == id ==> r == request; }
        assert Waits(n', r, x);
      }
    }
  }

  lemma SameAnswers(n: Net, n': Net)
    requires Answering(n) && n'.answers == n.answers && n'.asked == n.asked && |n'.peers| == |n.peers|
    requires forall id :: 0 <= id < |n.peers| ==> n'.peers[id].connectCompletion == n.peers[id].connectCompletion
    ensures Answering(n')
  {
    hide Answered;
    forall r: nat, x ensures Waits(n', r, x) <==> Waits(n, r, x) {
    }
  }

  /** Every other link stands where it stood, and this one's new signal fits. */
  lemma SignalTold(n: Net, n': Net, s: Signal)
    requires Told(n) && n'.trace == n.trace + [s]
    requires forall x :: x != s.id ==> Standing(n', x) == Standing(n, x)
    requires Standing(n', s.id) == Step(Standing(n, s.id), s)
    requires s.Received? ==> 0 < s.length <= MAX_DATAGRAM_SIZE
    ensures Told(n')
  {
    hide PhaseOf, Step;
    forall x ensures PhaseOf(n'.trace, x) == Standing(n', x) {
      PhaseAfter(n.trace, s, x);
      assert PhaseOf(n.trace, x) == Standing(n, x);
    }
  }

  lemma SameTold(n: Net, n': Net)
    requires Told(n) && n'.trace == n.trace && forall x :: Standing(n', x) == Standing(n, x)
    ensures Told(n')
  {
    hide PhaseOf;
    forall x ensures PhaseOf(n'.trace, x) == Standing(n', x) {
      assert PhaseOf(n.trace, x) == Standing(n, x);
    }
  }

  /** A change confined to one peer that leaves the table alone. */
  lemma OnePeer(n: Net, n': Net, id: LinkId)
    requires id < |n.peers| && n'.links == n.links && |n'.peers| == |n.peers|
    requires n'.peers == n.peers[id := n'.peers[id]]
    requires forall x :: 0 <= x < |n.peers| ==> PeerOk(n, x)
    requires PeerOk(n', id)
    ensures forall x :: 0 <= x < |n'.peers| ==> PeerOk(n', x)
  {
    hide Total;
    forall x | 0 <= x < |n'.peers| ensures PeerOk(n', x) {
      assert PeerOk(n, x);
    }
  }

  // -- leaving ---------------------------------------------------------------

  lemma SmallerTable(n: Net, id: LinkId)
    requires Tabled(n)
    ensures Tabled(Forget(n, id))
  {
    var less := n.links - {id};
    assert less <= n.links;
    Subset(less, n.links);
  }

  lemma {:induction false} Subset<T>(a: set<T>, b: set<T>)
    requires a <= b
    ensures |a| <= |b|
    decreases |b|
  {
    if a != {} {
      var x :| x in a;
      Subset(a - {x}, b - {x});
    }
  }

  lemma ExitPeers(n: Net, id: LinkId, failed: bool)
    requires Tabled(n) && id < |n.peers| && forall x :: 0 <= x < |n.peers| ==> PeerOk(n, x)
    ensures
      var n' := Exit(n, id, failed);
      && Tabled(n') && |n'.peers| == |n.peers|
      && (forall x :: 0 <= x < |n'.peers| ==> PeerOk(n', x))
      && n'.peers == n.peers[id := n'.peers[id]] && n'.peers[id].inFlight == n.peers[id].inFlight
      && n'.peers[id].connectCompletion.None? && id !in n'.links
  {
    hide Total;
    var n2 := ReportTerminal(FinishConnect(n, id, None), id, failed);
    SmallerTable(n2, id);
    var n' := Exit(n, id, failed);
    assert PeerOk(n, id);
    forall x | 0 <= x < |n'.peers| ensures PeerOk(n', x) {
      assert PeerOk(n, x);
      assert x != id ==> n'.peers[x] == n.peers[x] && (x in n'.links <==> x in n.links);
    }
  }

  lemma ExitTold(n: Net, id: LinkId, failed: bool)
    requires Told(n) && id < |n.peers|
    ensures Told(Exit(n, id, failed))
  {
    hide PhaseOf, Told;
    var n1 := FinishConnect(n, id, None);
    var n2 := ReportTerminal(n1, id, failed);
    assert forall x :: Standing(n1, x) == Standing(n, x);
    SameTold(n, n1);
    if n1.peers[id].isOpen && !n1.peers[id].didReportTerminal {
      SignalTold(n1, n2, Ended(id, failed));
    }
    assert forall x :: Standing(Forget(n2, id), x) == Standing(n2, x);
    SameTold(n2, Forget(n2, id));
  }

  lemma ExitKeepsInv(n: Net, id: LinkId, failed: bool)
    requires Inv(n) && id < |n.peers|
    ensures Inv(Exit(n, id, failed))
  {
    hide PeerOk, Told, Answering, Settling, Tabled;
    ExitPeers(n, id, failed);
    ExitTold(n, id, failed);
    FinishAnswers(n, id, None);
    SameAnswers(FinishConnect(n, id, None), Exit(n, id, failed));
    SameSends(n, Exit(n, id, failed), id);
  }

  lemma AbandonKeepsInv(n: Net, id: LinkId)
    requires Inv(n) && id < |n.peers| && !n.peers[id].isOpen
    ensures Inv(Abandon(n, id))
  {
    assert Abandon(n, id) == Exit(n, id, false);
    ExitKeepsInv(n, id, false);
  }

  lemma WatchdogKeepsInv(n: Net, id: LinkId)
    requires Inv(n) && id < |n.peers| && n.peers[id].closeWatchdog
    ensures Inv(Forget(ReportTerminal(n, id, false), id))
  {
    assert PeerOk(n, id);
    assert FinishConnect(n, id, None) == n;
    ExitKeepsInv(n, id, false);
  }

  lemma FailKeepsInv(n: Net, id: LinkId, failed: bool)
    requires Inv(n) && id < |n.peers|
    ensures Inv(Fail(n, id, failed))
  {
    hide Inv, Exit;
    if id in n.links {
      ExitKeepsInv(n, id, failed);
    }
  }

  // -- arriving --------------------------------------------------------------

  lemma MakeTabled(n: Net, incoming: bool, completion: Option<nat>)
    requires Tabled(n) && |n.links| < MAX_CONCURRENT_LINKS
    requires forall x :: 0 <= x < |n.peers| ==> PeerOk(n, x)
    requires completion.Some? ==> !incoming
    ensures
      var n' := Make(n, incoming, completion);
      Tabled(n') && forall x :: 0 <= x < |n'.peers| ==> PeerOk(n', x)
  {
    hide Total;
    var n' := Make(n, incoming, completion);
    assert |n.peers| !in n.links;
    assert Total([]) == 0 by { NoFrames(); }
    forall x | 0 <= x < |n'.peers| ensures PeerOk(n', x) {
      assert x < |n.peers| ==> PeerOk(n, x);
    }
  }

  lemma NoFrames()
    ensures Total([]) == 0 && forall s: nat :: Held([], s) == 0
  {
  }

  lemma MakeSettling(n: Net, incoming: bool, completion: Option<nat>)
    requires Settling(n)
    ensures Settling(Make(n, incoming, completion))
  {
    hide Held, HeldBy, Settled;
    NoFrames();
    forall s: nat ensures HeldBy(Make(n, incoming, completion).peers, s) == HeldBy(n.peers, s) {
      HeldByAppended(n.peers, NewPeer(incoming, completion), s);
    }
  }

  lemma MakeTold(n: Net, incoming: bool, completion: Option<nat>)
    requires Told(n)
    ensures Told(Make(n, incoming, completion))
  {
    hide Told;
    var n' := Make(n, incoming, completion);
    assert forall x :: Standing(n', x) == Standing(n, x);
    SameTold(n, n');
  }

  lemma AcceptKeepsInv(n: Net)
    requires Inv(n)
    ensures Inv(Accept(n))
  {
    hide PeerOk, Told, Settling, Tabled, Answered;
    var n' := Accept(n);
    if n' != n {
      MakeTabled(n, true, None);
      MakeSettling(n, true, None);
      MakeTold(n, true, None);
      forall r: nat, x ensures Waits(n', r, x) <==> Waits(n, r, x) {
      }
    }
  }

  lemma DialAnswering(n: Net, n': Net, waiting: bool, link: Option<LinkId>)
    requires Answering(n) && n'.asked == n.asked + 1
    requires waiting ==> n'.answers == n.answers && n'.peers == n.peers + [NewPeer(false, Some(n.asked))]
    requires !waiting ==> n'.answers == n.answers + [Answer(n.asked, link)] && n'.peers == n.peers
    ensures Answering(n')
  {
    hide Answered;
    var id := |n.peers|;
    forall r: nat
      ensures Answered(n'.answers, r) == Answered(n.answers, r) + if !waiting && r == n.asked then 1 else 0
    {
      AnsweredAfter(n.answers, Answer(n.asked, link), r);
    }
    forall r: nat, x ensures Waits(n', r, x) <==> Waits(n, r, x) || (waiting && x == id && r == n.asked) {
    }
    forall r: nat | r < n'.asked && Answered(n'.answers, r) == 0 ensures exists x :: Waits(n', r, x) {
      if r == n.asked {
        assert Waits(n', r, id);
      } else {
        var x :| Waits(n, r, x);
        assert Waits(n', r, x);
      }
    }
  }

  lemma ConnectKeepsInv(n: Net, known: bool)
    requires Inv(n)
    ensures Inv(Connect(n, known))
  {
    hide Told, Answering, Settling, Total, Held, HeldBy, Settled, PhaseOf;
    var n1 := n.(asked := n.asked + 1);
    assert forall x :: 0 <= x < |n.peers| ==> PeerOk(n1, x) == PeerOk(n, x);
    SameSettling(n, n1);
    assert forall x :: Standing(n1, x) == Standing(n, x);
    SameTold(n, n1);
    var n' := Connect(n, known);
    if !n.started || !known || |n.links| >= MAX_CONCURRENT_LINKS {
      DialAnswering(n, n', false, None);
      assert forall x :: Standing(n', x) == Standing(n, x);
      SameTold(n, n');
      SameSettling(n, n');
      assert forall x :: 0 <= x < |n.peers| ==> PeerOk(n', x) == PeerOk(n, x);
    } else {
      MakeTabled(n1, false, Some(n.asked));
      MakeSettling(n1, false, Some(n.asked));
      MakeTold(n1, false, Some(n.asked));
      DialAnswering(n, n', true, None);
    }
  }

  lemma SameSettling(n: Net, n': Net)
    requires Settling(n) && n'.peers == n.peers && n'.outcomes == n.outcomes && n'.sends == n.sends
    ensures Settling(n')
  {
  }

  lemma OpenKeepsInv(n: Net, id: LinkId)
    requires Inv(n) && id < |n.peers|
    ensures Inv(Open(n, id))
  {
    hide Told, Answering, Settling, Total, PhaseOf;
    var p := n.peers[id];
    if !p.isOpen && id in n.links {
      assert PeerOk(n, id);
      var n1 := n.(peers := n.peers[id := p.(isOpen := true, reading := ForHeader)],
                   trace := n.trace + [LinkOpened(id, p.incoming), Connected(id)]);
      var n' := Open(n, id);
      OpenTold(n, n1, id);
      assert forall x :: Standing(n', x) == Standing(n1, x);
      SameTold(n1, n');
      SameAnswers(n, n1);
      FinishAnswers(n1, id, Some(id));
      OnePeer(n, n', id);
      SameSends(n, n', id);
    }
  }

  lemma OpenTold(n: Net, n1: Net, id: LinkId)
    requires Told(n) && id < |n.peers| == |n1.peers| && !n.peers[id].isOpen
    requires n1.trace == n.trace + [LinkOpened(id, n.peers[id].incoming), Connected(id)]
    requires forall x :: x != id ==> Standing(n1, x) == Standing(n, x)
    requires Standing(n1, id) == Live
    ensures Told(n1)
  {
    hide PhaseOf;
    var first := n.trace + [LinkOpened(id, n.peers[id].incoming)];
    assert n1.trace == first + [Connected(id)];
    forall x ensures PhaseOf(n1.trace, x) == Standing(n1, x) {
      PhaseAfter(n.trace, LinkOpened(id, n.peers[id].incoming), x);
      PhaseAfter(first, Connected(id), x);
      assert PhaseOf(n.trace, x) == Standing(n, x);
    }
  }

  // -- while it lives --------------------------------------------------------

  lemma DisconnectKeepsInv(n: Net, id: LinkId)
    requires Inv(n) && id < |n.peers|
    ensures Inv(Disconnect(n, id))
  {
    hide Told, Answering, Settling, Total, PhaseOf;
    if id in n.links {
      var p := n.peers[id];
      assert PeerOk(n, id);
      var n1 := n.(peers := n.peers[id := p.(closeWatchdog := true)],
                   trace := if p.isOpen && !p.didReportTerminal then n.trace + [Closing(id)] else n.trace);
      var n' := Disconnect(n, id);
      assert n' == FinishConnect(n1, id, None);
      assert forall x :: Standing(n1, x) == Standing(n, x);
      assert forall x :: Standing(n', x) == Standing(n, x);
      if p.isOpen && !p.didReportTerminal {
        SignalTold(n, n', Closing(id));
      } else {
        SameTold(n, n');
      }
      SameAnswers(n, n1);
      FinishAnswers(n1, id, None);
      OnePeer(n, n', id);
      SameSends(n, n', id);
    }
  }

  /** A send settled on the spot. */
  lemma SettledAtOnce(n: Net, ok: bool)
    requires Inv(n)
    ensures Inv(n.(sends := n.sends + 1, outcomes := n.outcomes + [Outcome(n.sends, ok)]))
  {
    hide PhaseOf, Answering, Settled, Held, HeldBy, Told, Total;
    var n' := n.(sends := n.sends + 1, outcomes := n.outcomes + [Outcome(n.sends, ok)]);
    forall s: nat ensures Settled(n'.outcomes, s) == Settled(n.outcomes, s) + if s == n.sends then 1 else 0 {
      SettledAfter(n.outcomes, Outcome(n.sends, ok), s);
    }
    assert forall x :: Standing(n', x) == Standing(n, x);
    SameTold(n, n');
    SameAnswers(n, n');
    assert forall x :: 0 <= x < |n.peers| ==> PeerOk(n', x) == PeerOk(n, x);
  }

  /** A frame handed to the socket. */
  lemma QueuedKeepsInv(n: Net, id: LinkId, size: nat)
    requires Inv(n) && id < |n.peers| && 0 < size <= MAX_DATAGRAM_SIZE
        && n.peers[id].queuedBytes <= SEND_QUEUE_HARD_LIMIT
    ensures
      var p := n.peers[id];
      Inv(n.(sends := n.sends + 1,
             peers := n.peers[id := p.(queuedBytes := p.queuedBytes + FrameSize(size),
                                       inFlight := p.inFlight + [Frame(n.sends, FrameSize(size))])]))
  {
    hide PhaseOf, Answering, Settled, Held, HeldBy, Told, Total;
    var p := n.peers[id];
    var f := Frame(n.sends, FrameSize(size));
    var p' := p.(queuedBytes := p.queuedBytes + FrameSize(size), inFlight := p.inFlight + [f]);
    var n' := n.(sends := n.sends + 1, peers := n.peers[id := p']);
    assert PeerOk(n, id);
    FrameAppended(p.inFlight, f, 0);
    OnePeer(n, n', id);
    forall s: nat ensures HeldBy(n'.peers, s) == HeldBy(n.peers, s) + if s == n.sends then 1 else 0 {
      HeldByUpdated(n.peers, id, p', s);
      FrameAppended(p.inFlight, f, s);
    }
    assert forall x :: Standing(n', x) == Standing(n, x);
    SameTold(n, n');
    SameAnswers(n, n');
  }

  lemma SendKeepsInv(n: Net, id: LinkId, size: nat, reliable: bool)
    requires Inv(n)
    ensures Inv(Send(n, id, size, reliable))
  {
    hide Inv;
    SettledAtOnce(n, true);
    SettledAtOnce(n, false);
    if id < |n.peers| && 0 < size <= MAX_DATAGRAM_SIZE && n.peers[id].queuedBytes <= SEND_QUEUE_HARD_LIMIT {
      QueuedKeepsInv(n, id, size);
    }
  }

  lemma FrameDoneKeepsInv(n: Net, id: LinkId, k: nat, ok: bool)
    requires Inv(n) && id < |n.peers| && k < |n.peers[id].inFlight|
    ensures
      var p := n.peers[id];
      var f := p.inFlight[k];
      && p.queuedBytes >= f.size
      && Inv(n.(peers := n.peers[id := p.(queuedBytes := p.queuedBytes - f.size,
                                          inFlight := p.inFlight[..k] + p.inFlight[k + 1..])],
                outcomes := n.outcomes + [Outcome(f.send, ok)]))
  {
    hide PhaseOf, Answering, Settled, Held, HeldBy, Told, Total;
    var p := n.peers[id];
    var f := p.inFlight[k];
    assert PeerOk(n, id);
    FrameRemoved(p.inFlight, k, 0);
    var p' := p.(queuedBytes := p.queuedBytes - f.size, inFlight := p.inFlight[..k] + p.inFlight[k + 1..]);
    var n' := n.(peers := n.peers[id := p'], outcomes := n.outcomes + [Outcome(f.send, ok)]);
    OnePeer(n, n', id);
    forall s: nat
      ensures Settled(n'.outcomes, s) + HeldBy(n'.peers, s) == Settled(n.outcomes, s) + HeldBy(n.peers, s)
    {
      HeldByUpdated(n.peers, id, p', s);
      FrameRemoved(p.inFlight, k, s);
      SettledAfter(n.outcomes, Outcome(f.send, ok), s);
    }
    assert forall x :: Standing(n', x) == Standing(n, x);
    SameTold(n, n');
    SameAnswers(n, n');
  }

  lemma ProcessedKeepsInv(n: Net, id: LinkId, k: nat, ok: bool)
    requires Inv(n) && id < |n.peers| && k < |n.peers[id].inFlight|
    ensures Inv(Processed(n, id, k, ok))
  {
    hide Inv, Fail;
    FrameDoneKeepsInv(n, id, k, ok);
    var p := n.peers[id];
    var f := p.inFlight[k];
    var n1 := n.(peers := n.peers[id := p.(queuedBytes := p.queuedBytes - f.size,
                                           inFlight := p.inFlight[..k] + p.inFlight[k + 1..])],
                 outcomes := n.outcomes + [Outcome(f.send, ok)]);
    if !ok {
      FailKeepsInv(n1, id, true);
    }
  }

  lemma ReadingKeepsInv(n: Net, id: LinkId, reading: Reading, delivered: Option<nat>)
    requires Inv(n) && id < |n.peers| && n.peers[id].isOpen && !n.peers[id].didReportTerminal
    requires reading.ForBody? ==> 0 < reading.length <= MAX_DATAGRAM_SIZE
    requires delivered.Some? ==> 0 < delivered.value <= MAX_DATAGRAM_SIZE
    ensures
      var n1 := SetReading(n, id, reading);
      Inv(if delivered.Some? then n1.(trace := n.trace + [Received(id, delivered.value)]) else n1)
  {
    hide PhaseOf, Answering, Settling, Told, Total;
    var n1 := SetReading(n, id, reading);
    var n' := if delivered.Some? then n1.(trace := n.trace + [Received(id, delivered.value)]) else n1;
    assert PeerOk(n, id);
    OnePeer(n, n', id);
    assert forall x :: Standing(n', x) == Standing(n, x);
    if delivered.Some? {
      SignalTold(n, n', Received(id, delivered.value));
    } else {
      SameTold(n, n');
    }
    SameAnswers(n, n');
    SameSends(n, n', id);
  }

  lemma ReadKeepsInv(n: Net, id: LinkId, r: Read)
    requires Inv(n) && id < |n.peers|
    ensures Inv(Next(n, ReadCompletes(id, r)))
  {
    hide Tabled, Told, Answering, Settling, Total, Fail, SetReading;
    assert PeerOk(n, id);
    var p := n.peers[id];
    if id in n.links && !p.didReportTerminal && p.reading != NotReading {
      FailKeepsInv(n, id, true);
      FailKeepsInv(n, id, false);
      if p.reading.ForHeader? && r.Exact? && 0 < r.value <= RECEIVE_HARD_LIMIT {
        ReadingKeepsInv(n, id, ForBody(r.value), None);
      }
      if p.reading.ForBody? && r.Exact? {
        ReadingKeepsInv(n, id, ForHeader, Some(p.reading.length));
      }
    }
  }

  // -- stopping --------------------------------------------------------------

  /** One link of `teardown`, told about before the tables are cleared. */
  function CloseOne(n: Net, id: LinkId): Net
    requires id < |n.peers|
  {
    ReportTerminal(FinishConnect(n, id, None), id, false)
  }

  /** A link that has been closed and merely awaits the clearing of the tables. */
  ghost predicate Closed(n: Net, id: LinkId)
    requires id < |n.peers|
  {
    n.peers[id].connectCompletion.None? && (n.peers[id].isOpen ==> n.peers[id].didReportTerminal)
  }

  /** Closing a link early and forgetting it later is the same as its exit. */
  lemma CloseThenForget(n: Net, id: LinkId)
    requires id < |n.peers|
    ensures Forget(CloseOne(n, id), id) == Exit(n, id, false)
  {
  }

  /** Teardown as one exit after another. */
  lemma {:induction false} TeardownIsExits(n: Net, order: seq<LinkId>)
    requires Inv(n) && forall i :: 0 <= i < |order| ==> order[i] < |n.peers|
    ensures
      var n' := CloseEach(n, order);
      var gone := n.links - (set id | id in order);
      && |n'.peers| == |n.peers|
      && Inv(n'.(links := gone, metrics := gone))
      && (forall id :: id in order ==> Closed(n', id))
    decreases |order|
  {
    hide Inv, Exit, CloseEach;
    if order == [] {
      assert n.links - (set id | id in order) == n.links;
      TeardownOfNone(n);
    } else {
      var id := order[0];
      ExitKeepsInv(n, id, false);
      CloseThenForget(n, id);
      ExitShape(n, id);
      TeardownIsExits(Exit(n, id, false), order[1..]);
      TeardownStep(n, order);
      TableIrrelevant(CloseOne(n, id), Exit(n, id, false), order[1..]);
      var gone := n.links - (set x | x in order);
      assert order == [id] + order[1..];
      assert Exit(n, id, false).links - (set x | x in order[1..]) == gone;
      var (a, m) := (CloseEach(CloseOne(n, id), order[1..]), CloseEach(Exit(n, id, false), order[1..]));
      assert a.(links := gone, metrics := gone) == m.(links := gone, metrics := gone);
      CloseEachMonotone(CloseOne(n, id), order[1..], id);
      forall x | x in order ensures Closed(a, x) {
        assert x == id || x in order[1..];
      }
    }
  }

  lemma TeardownOfNone(n: Net)
    requires Inv(n)
    ensures CloseEach(n, []) == n && Inv(n.(links := n.links, metrics := n.links))
  {
    hide Told, Answering, Settling, PeerOk;
    assert n.(links := n.links, metrics := n.links) == n;
  }

  lemma TeardownStep(n: Net, order: seq<LinkId>)
    requires order != [] && forall i :: 0 <= i < |order| ==> order[i] < |n.peers|
    ensures |CloseOne(n, order[0]).peers| == |n.peers|
    ensures CloseEach(n, order) == CloseEach(CloseOne(n, order[0]), order[1..])
  {
  }

  lemma ExitShape(n: Net, id: LinkId)
    requires id < |n.peers|
    ensures
      var n' := Exit(n, id, false);
      && |n'.peers| == |n.peers| && n'.links == n.links - {id} && Closed(CloseOne(n, id), id)
      && CloseOne(n, id).(links := n'.links, metrics := n'.metrics) == n'
  {
  }

  /** Closing looks at link objects only, so which tables they are in does not matter to it. */
  lemma {:induction false} TableIrrelevant(n: Net, m: Net, order: seq<LinkId>)
    requires |n.peers| == |m.peers| && forall i :: 0 <= i < |order| ==> order[i] < |n.peers|
    requires n.(links := m.links, metrics := m.metrics) == m
    ensures
      var (a, b) := (CloseEach(n, order), CloseEach(m, order));
      && |a.peers| == |b.peers| == |n.peers| && a.(links := b.links, metrics := b.metrics) == b
    decreases |order|
  {
    if order != [] {
      TableIrrelevant(CloseOne(n, order[0]), CloseOne(m, order[0]), order[1..]);
    }
  }

  lemma {:induction false} CloseEachMonotone(n: Net, order: seq<LinkId>, id: LinkId)
    requires forall i :: 0 <= i < |order| ==> order[i] < |n.peers|
    requires id < |n.peers| && Closed(n, id)
    ensures |CloseEach(n, order).peers| == |n.peers| && Closed(CloseEach(n, order), id)
    decreases |order|
  {
    if order != [] {
      CloseEachMonotone(CloseOne(n, order[0]), order[1..], id);
    }
  }

  lemma StopKeepsInv(n: Net, order: seq<LinkId>)
    requires Inv(n) && Covers(n, order)
    ensures Inv(Next(n, Stops(order)))
  {
    hide CloseEach, Told, Answering, Settling;
    TeardownIsExits(n, order);
    assert n.links - (set id | id in order) == {};
    var n1 := CloseEach(n, order).(links := {}, metrics := {});
    StartedIrrelevant(n1, false);
  }

  lemma StartedIrrelevant(n: Net, started: bool)
    requires Inv(n)
    ensures Inv(n.(started := started))
  {
    hide Told, Answering, Settling, Total;
    var n' := n.(started := started);
    assert forall x :: 0 <= x < |n.peers| ==> PeerOk(n', x) == PeerOk(n, x);
    assert forall x :: Standing(n', x) == Standing(n, x);
    SameTold(n, n');
    SameAnswers(n, n');
    SameSettling(n, n');
  }
}
