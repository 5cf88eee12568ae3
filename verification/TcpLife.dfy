/** What TCP links keep over every interleaving of callbacks. */
module TcpLife {
  import opened Wrappers
  import opened TcpLinks
  import opened TcpCallbacks

  // -- every event -----------------------------------------------------------

  lemma NextKeepsInv(n: Net, e: Event)
    requires Inv(n)
    ensures Inv(Next(n, e))
  {
    hide Inv, Exit, Fail, Abandon, Connect, Accept, Open, Disconnect, Send, Processed, CloseEach, Covers, HeaderRead,
         BodyRead, Forget, ReportTerminal;
    match e
    case Starts => StartedIrrelevant(n, true);
    case Stops(order) => if Covers(n, order) { StopKeepsInv(n, order); }
    case Dials(known) => ConnectKeepsInv(n, known);
    case Accepts => AcceptKeepsInv(n);
    case Ready(id) => if id < |n.peers| { OpenKeepsInv(n, id); }
    case ConnectionFailed(id) => if id < |n.peers| { FailKeepsInv(n, id, true); }
    case Cancelled(id) => if id < |n.peers| { ExitKeepsInv(n, id, false); }
    case TimesOut(id) =>
      if id < |n.peers| {
        WaitingIsNotOpen(n, id);
        if !n.peers[id].isOpen { AbandonKeepsInv(n, id); }
      }
    case NetworkGone(id) => if id < |n.peers| { FailKeepsInv(n, id, true); }
    case Disconnects(id) => if id < |n.peers| { DisconnectKeepsInv(n, id); }
    case WatchdogFires(id) => if id < |n.peers| && n.peers[id].closeWatchdog { WatchdogKeepsInv(n, id); }
    case Sends(id, size, reliable) => SendKeepsInv(n, id, size, reliable);
    case SendProcessed(id, k, ok) =>
      if id < |n.peers| && k < |n.peers[id].inFlight| { ProcessedKeepsInv(n, id, k, ok); }
    case ReadCompletes(id, r) => if id < |n.peers| { ReadKeepsInv(n, id, r); }
  }

  lemma WaitingIsNotOpen(n: Net, id: LinkId)
    requires Inv(n) && id < |n.peers|
    ensures n.peers[id].connectCompletion.Some? ==> !n.peers[id].isOpen
  {
    hide Total, Told, Answering, Settling;
    assert PeerOk(n, id);
  }

  lemma {:induction false} RunKeepsInv(n: Net, events: seq<Event>)
    requires Inv(n)
    ensures Inv(Run(n, events))
    decreases |events|
  {
    hide Inv, Next;
    if events != [] {
      NextKeepsInv(n, events[0]);
      RunKeepsInv(Next(n, events[0]), events[1..]);
    }
  }

  lemma ReachableInv(events: seq<Event>)
    ensures Inv(Run(NEW_NET, events))
  {
    hide Run;
    assert forall r: nat, id :: !Waits(NEW_NET, r, id);
    assert Inv(NEW_NET);
    RunKeepsInv(NEW_NET, events);
  }

  // -- main results ----------------------------------------------------------

  function Openings(trace: seq<Signal>, id: LinkId): nat
    decreases |trace|
  {
    if trace == [] then 0
    else
      Openings(trace[..|trace| - 1], id)
      + if trace[|trace| - 1].LinkOpened? && trace[|trace| - 1].id == id then 1 else 0
  }

  function Endings(trace: seq<Signal>, id: LinkId): nat
    decreases |trace|
  {
    if trace == [] then 0
    else Endings(trace[..|trace| - 1], id) + if trace[|trace| - 1].Ended? && trace[|trace| - 1].id == id then 1 else 0
  }

  function Mentions(trace: seq<Signal>, id: LinkId): nat
    decreases |trace|
  {
    if trace == [] then 0 else Mentions(trace[..|trace| - 1], id) + if trace[|trace| - 1].id == id then 1 else 0
  }

  /** What following the grammar means in counts. */
  lemma {:induction false} GrammarCounts(trace: seq<Signal>, id: LinkId)
    requires PhaseOf(trace, id) != Broken
    ensures
      var p := PhaseOf(trace, id);
      && Openings(trace, id) == (if p == Unseen then 0 else 1)
      && Endings(trace, id) == (if p == Over then 1 else 0)
      && (p == Unseen ==> Mentions(trace, id) == 0)
    decreases |trace|
  {
    if trace != [] {
      GrammarCounts(trace[..|trace| - 1], id);
    }
  }

  /** Nothing follows a terminal signal. */
  lemma {:induction false} EndedIsLast(trace: seq<Signal>, id: LinkId, i: nat, j: nat)
    requires PhaseOf(trace, id) != Broken && i < |trace| && j < |trace|
    requires trace[i].Ended? && trace[i].id == id && trace[j].id == id
    ensures j <= i
    decreases |trace|
  {
    var last := |trace| - 1;
    if i < last && j < last {
      EndedIsLast(trace[..last], id, i, j);
    } else if i < j {
      EndedSince(trace[..last], id, i);
    }
  }

  lemma {:induction false} EndedSince(trace: seq<Signal>, id: LinkId, i: nat)
    requires PhaseOf(trace, id) != Broken && i < |trace| && trace[i].Ended? && trace[i].id == id
    ensures PhaseOf(trace, id) == Over
    decreases |trace|
  {
    if i < |trace| - 1 {
      EndedSince(trace[..|trace| - 1], id, i);
    }
  }

  /**
    Over every interleaving a link's signals are opened, connected, then data and closing,
    then at most one end with nothing after it; a link that never opened is never mentioned,
    and an opened one has its end reported exactly if it has left the table.
   */
  lemma EachLinkToldOnce(events: seq<Event>, id: LinkId)
    requires id < |Run(NEW_NET, events).peers|
    ensures
      var n := Run(NEW_NET, events);
      && PhaseOf(n.trace, id) in {Unseen, Live, Over}
      && (if n.peers[id].isOpen
          then Openings(n.trace, id) == 1 && Endings(n.trace, id) == (if id in n.links then 0 else 1)
          else Mentions(n.trace, id) == 0)
      && (forall i, j :: 0 <= i < |n.trace| && 0 <= j < |n.trace| ==>
            n.trace[i].Ended? && n.trace[i].id == id && n.trace[j].id == id ==> j <= i)
  {
    hide Run, Answering, Settling, PhaseOf, Openings, Endings, Mentions, Total, Tabled;
    ReachableInv(events);
    var n := Run(NEW_NET, events);
    assert PeerOk(n, id) && PhaseOf(n.trace, id) == Standing(n, id);
    GrammarCounts(n.trace, id);
    forall i, j | 0 <= i < |n.trace| && 0 <= j < |n.trace| && n.trace[i].Ended? && n.trace[i].id == id
        && n.trace[j].id == id
      ensures j <= i
    {
      EndedIsLast(n.trace, id, i, j);
    }
  }

  /** At most sixteen links; metrics only for them; no more queued than the limit and one frame. */
  lemma TablesAndQueuesBounded(events: seq<Event>, id: LinkId)
    requires id < |Run(NEW_NET, events).peers|
    ensures
      var n := Run(NEW_NET, events);
      && |n.links| <= MAX_CONCURRENT_LINKS && n.metrics <= n.links
      && n.peers[id].queuedBytes == Total(n.peers[id].inFlight) <= SEND_QUEUE_HARD_LIMIT + LENGTH_PREFIX_BYTES
          + MAX_DATAGRAM_SIZE
  {
    hide Run, Answering, Settling, Told, Total;
    ReachableInv(events);
    assert PeerOk(Run(NEW_NET, events), id);
  }

  /** Each connect is answered once, or its link is still in the table, dialling. */
  lemma ConnectsAnsweredOnce(events: seq<Event>, r: nat)
    requires r < Run(NEW_NET, events).asked
    ensures
      var n := Run(NEW_NET, events);
      && Answered(n.answers, r) <= 1
      && (Answered(n.answers, r) == 0 <==> exists id: LinkId :: Waits(n, r, id) && id in n.links && !n.peers[id].isOpen)
  {
    hide Run, Settling, Told, Total, Answered, Tabled;
    ReachableInv(events);
    var n := Run(NEW_NET, events);
    if Answered(n.answers, r) == 0 {
      var id: LinkId :| Waits(n, r, id);
      assert PeerOk(n, id);
    }
  }

  /** Each send's promise is settled once, or its frame is still with a socket. */
  lemma SendsSettledOnce(events: seq<Event>, s: nat)
    requires s < Run(NEW_NET, events).sends
    ensures
      var n := Run(NEW_NET, events);
      && Settled(n.outcomes, s) <= 1
      && (Settled(n.outcomes, s) == 0 <==> HeldBy(n.peers, s) == 1)
  {
    hide Run, Answering, Told, Total, Tabled, PeerOk, Settled, HeldBy;
    ReachableInv(events);
  }

  /** Stopping reports every open link closed and leaves no connect unanswered. */
  lemma StoppingSettlesEverything(events: seq<Event>, order: seq<LinkId>)
    requires Covers(Run(NEW_NET, events), order)
    ensures
      var n := Next(Run(NEW_NET, events), Stops(order));
      && n.links == {} && n.metrics == {}
      && (forall id :: 0 <= id < |n.peers| && n.peers[id].isOpen ==> PhaseOf(n.trace, id) == Over)
      && (forall r: nat :: r < n.asked ==> Answered(n.answers, r) == 1)
  {
    hide Run, PhaseOf, Settling, Total, Answered, CloseEach;
    ReachableInv(events);
    var w := Run(NEW_NET, events);
    NextKeepsInv(w, Stops(order));
    var n := Next(w, Stops(order));
    forall id | 0 <= id < |n.peers| && n.peers[id].isOpen ensures PhaseOf(n.trace, id) == Over {
      assert PeerOk(n, id) && PhaseOf(n.trace, id) == Standing(n, id);
    }
    forall r: nat | r < n.asked ensures Answered(n.answers, r) == 1 {
      forall id: LinkId ensures !Waits(n, r, id) {
        assert id < |n.peers| ==> PeerOk(n, id);
      }
    }
  }
}
