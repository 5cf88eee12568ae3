/** What TCP links deliver and answer: the datagrams the reads hold, and each dial its link or its failure. */
module TcpDelivery {
  import opened Wrappers
  import opened TcpLinks
  import opened TcpCallbacks
  import opened TcpLife

  // -- what a link was read --------------------------------------------------

  /** Open, and its end not yet reported. */
  ghost predicate Listening(n: Net, id: LinkId) {
    id < |n.peers| && n.peers[id].isOpen && id in n.links && !n.peers[id].didReportTerminal
  }

  /** The results, in order, of the reads that came back to a link while it was listening. */
  ghost function ReadsOf(n: Net, events: seq<Event>, id: LinkId): seq<Read>
    decreases |events|
  {
    if events == [] then []
    else
      (if events[0].ReadCompletes? && events[0].id == id && Listening(n, id) then [events[0].r] else [])
      + ReadsOf(Next(n, events[0]), events[1..], id)
  }

  /**
    The lengths of the datagrams in a list of reads: a header announces a length from 1 to
    64 KB, the next read is that body; anything else ends the stream.
   */
  function Datagrams(announced: Option<nat>, results: seq<Read>): seq<nat>
    decreases |results|
  {
    if results == [] || !results[0].Exact? then []
    else match announced
      case None =>
        if 1 <= results[0].value <= 65536 then Datagrams(Some(results[0].value), results[1..]) else []
      case Some(length) => [length] + Datagrams(None, results[1..])
  }

  /** The lengths reported for a link. */
  function Lengths(trace: seq<Signal>, id: LinkId): seq<nat>
    decreases |trace|
  {
    if trace == [] then []
    else
      var s := trace[|trace| - 1];
      Lengths(trace[..|trace| - 1], id) + if s.Received? && s.id == id then [s.length] else []
  }

  lemma LengthsAfter(trace: seq<Signal>, s: Signal, id: LinkId)
    ensures Lengths(trace + [s], id) == Lengths(trace, id) + if s.Received? && s.id == id then [s.length] else []
  {
    assert (trace + [s])[..|trace|] == trace;
  }

  // -- what one event does to a link's reading -------------------------------

  function ReadingOf(n: Net, id: LinkId): Reading {
    if id < |n.peers| then n.peers[id].reading else NotReading
  }

  ghost predicate Opened(n: Net, id: LinkId) {
    id < |n.peers| && n.peers[id].isOpen
  }

  /** A link reads from the moment it opens. */
  ghost predicate Armed(n: Net, id: LinkId) {
    Opened(n, id) ==> n.peers[id].reading != NotReading
  }

  /** Nothing was read: a link that opened starts with a header, one that ended stays ended. */
  ghost predicate NotRead(n: Net, n': Net, id: LinkId) {
    && Lengths(n'.trace, id) == Lengths(n.trace, id)
    && |n.peers| <= |n'.peers|
    && (Opened(n, id) ==> Opened(n', id) && ReadingOf(n', id) == ReadingOf(n, id))
    && (Opened(n', id) && !Opened(n, id) ==> ReadingOf(n', id) == ForHeader)
    && (Listening(n', id) && Opened(n, id) ==> Listening(n, id))
  }

  /** The read belonged to the datagram under way. */
  ghost predicate WasRead(n: Net, n': Net, id: LinkId, r: Read) {
    var before, after := Lengths(n.trace, id), Lengths(n'.trace, id);
    && Opened(n', id)
    && match ReadingOf(n, id)
       case ForHeader =>
         after == before
         && if r.Exact? && 1 <= r.value <= 65536 then Listening(n', id) && ReadingOf(n', id) == ForBody(r.value)
            else !Listening(n', id)
       case ForBody(length) =>
         if r.Exact? then after == before + [length] && Listening(n', id) && ReadingOf(n', id) == ForHeader
         else after == before && !Listening(n', id)
       case NotReading => false
  }

  lemma Untouched(n: Net, n': Net, id: LinkId)
    requires n'.trace == n.trace && n'.peers == n.peers && n'.links <= n.links
    ensures NotRead(n, n', id)
  {
  }

  lemma NotReadTwice(n: Net, n1: Net, n2: Net, id: LinkId)
    requires NotRead(n, n1, id) && NotRead(n1, n2, id)
    ensures NotRead(n, n2, id)
  {
  }

  lemma FinishReadsNothing(n: Net, x: LinkId, link: Option<LinkId>, id: LinkId)
    requires x < |n.peers|
    ensures NotRead(n, FinishConnect(n, x, link), id) && FinishConnect(n, x, link).links == n.links
    ensures |FinishConnect(n, x, link).peers| == |n.peers|
  {
  }

  lemma ReportReadsNothing(n: Net, x: LinkId, failed: bool, id: LinkId)
    requires x < |n.peers|
    ensures NotRead(n, ReportTerminal(n, x, failed), id) && ReportTerminal(n, x, failed).links == n.links
    ensures |ReportTerminal(n, x, failed).peers| == |n.peers|
  {
    hide Lengths;
    LengthsAfter(n.trace, Ended(x, failed), id);
  }

  lemma ExitReadsNothing(n: Net, x: LinkId, failed: bool, id: LinkId)
    requires x < |n.peers|
    ensures NotRead(n, Exit(n, x, failed), id) && NotRead(n, Fail(n, x, failed), id) && NotRead(n, Abandon(n, x), id)
  {
    hide NotRead, FinishConnect, ReportTerminal, Lengths;
    var n1 := FinishConnect(n, x, None);
    FinishReadsNothing(n, x, None, id);
    ReportReadsNothing(n1, x, failed, id);
    var n2 := ReportTerminal(n1, x, failed);
    NotReadTwice(n, n1, n2, id);
    Untouched(n2, Forget(n2, x), id);
    NotReadTwice(n, n2, Forget(n2, x), id);
    Untouched(n1, Forget(n1, x), id);
    NotReadTwice(n, n1, Forget(n1, x), id);
    Untouched(n, n, id);
  }

  lemma {:induction false} CloseEachReadsNothing(n: Net, order: seq<LinkId>, id: LinkId)
    requires forall i :: 0 <= i < |order| ==> order[i] < |n.peers|
    ensures NotRead(n, CloseEach(n, order), id)
    decreases |order|
  {
    hide NotRead, FinishConnect, ReportTerminal;
    if order == [] {
      Untouched(n, n, id);
    } else {
      FinishReadsNothing(n, order[0], None, id);
      var n1 := FinishConnect(n, order[0], None);
      ReportReadsNothing(n1, order[0], false, id);
      var n2 := ReportTerminal(n1, order[0], false);
      NotReadTwice(n, n1, n2, id);
      CloseEachReadsNothing(n2, order[1..], id);
      NotReadTwice(n, n2, CloseEach(n, order), id);
    }
  }

  lemma OpenReadsNothing(n: Net, x: LinkId, id: LinkId)
    requires x < |n.peers|
    ensures NotRead(n, Open(n, x), id)
  {
    hide Lengths;
    var a, b := LinkOpened(x, n.peers[x].incoming), Connected(x);
    LengthsAfter(n.trace, a, id);
    LengthsAfter(n.trace + [a], b, id);
    assert n.trace + [a] + [b] == n.trace + [a, b];
  }

  lemma DisconnectReadsNothing(n: Net, x: LinkId, id: LinkId)
    requires x < |n.peers|
    ensures NotRead(n, Disconnect(n, x), id)
  {
    hide Lengths;
    LengthsAfter(n.trace, Closing(x), id);
  }

  lemma SendReadsNothing(n: Net, x: LinkId, size: nat, reliable: bool, id: LinkId)
    ensures NotRead(n, Send(n, x, size, reliable), id)
  {
    hide Lengths;
  }

  lemma ProcessedReadsNothing(n: Net, x: LinkId, k: nat, ok: bool, id: LinkId)
    requires x < |n.peers| && k < |n.peers[x].inFlight|
    ensures NotRead(n, Processed(n, x, k, ok), id)
  {
    hide Lengths, Fail;
    var n1 := Processed(n, x, k, true);
    assert NotRead(n, n1, id);
    var p := n.peers[x];
    var f := p.inFlight[k];
    var left := if p.queuedBytes >= f.size then p.queuedBytes - f.size else 0;
    var n2 := n.(peers := n.peers[x := p.(queuedBytes := left, inFlight := p.inFlight[..k] + p.inFlight[k + 1..])],
                 outcomes := n.outcomes + [Outcome(f.send, ok)]);
    assert NotRead(n, n2, id);
    ExitReadsNothing(n2, x, true, id);
    NotReadTwice(n, n2, Fail(n2, x, true), id);
  }

  lemma MadeReadsNothing(n: Net, known: bool, id: LinkId)
    requires Tabled(n)
    ensures NotRead(n, Connect(n, known), id) && NotRead(n, Accept(n), id)
  {
    hide Lengths;
  }

  lemma FailedReadEnds(n: Net, id: LinkId, failed: bool)
    requires Listening(n, id)
    ensures !Listening(Fail(n, id, failed), id) && Opened(Fail(n, id, failed), id)
    ensures Fail(n, id, failed).trace == n.trace + [Ended(id, failed)]
  {
  }

  lemma ReadIsRead(n: Net, id: LinkId, r: Read)
    requires Inv(n) && Listening(n, id) && Armed(n, id)
    ensures WasRead(n, Next(n, ReadCompletes(id, r)), id, r)
  {
    hide Inv, Fail, Lengths;
    FailedReadEnds(n, id, true);
    FailedReadEnds(n, id, r.Short? && !r.isComplete);
    ExitReadsNothing(n, id, true, id);
    ExitReadsNothing(n, id, r.Short? && !r.isComplete, id);
    if n.peers[id].reading.ForBody? {
      LengthsAfter(n.trace, Received(id, n.peers[id].reading.length), id);
    }
  }

  lemma OtherReadIsNone(n: Net, x: LinkId, r: Read, id: LinkId)
    requires x != id || !Listening(n, id)
    requires Inv(n)
    ensures NotRead(n, Next(n, ReadCompletes(x, r)), id)
  {
    hide Inv, Fail, Lengths;
    Untouched(n, n, id);
    if x < |n.peers| {
      assert PeerOk(n, x) by { PeerIsOk(n, x); }
      ExitReadsNothing(n, x, true, id);
      ExitReadsNothing(n, x, r.Short? && !r.isComplete, id);
      if n.peers[x].reading.ForBody? { LengthsAfter(n.trace, Received(x, n.peers[x].reading.length), id); }
    }
  }

  lemma PeerIsOk(n: Net, id: LinkId)
    requires Inv(n) && id < |n.peers|
    ensures PeerOk(n, id) && Tabled(n)
  {
    hide PeerOk, Told, Answering, Settling;
  }

  lemma OthersReadNothing(n: Net, e: Event, id: LinkId)
    requires Inv(n) && !(e.ReadCompletes? && e.id == id && Listening(n, id))
    ensures NotRead(n, Next(n, e), id)
  {
    hide Inv, NotRead, Exit, Fail, Abandon, Connect, Accept, Open, Disconnect, Send, Processed, CloseEach, HeaderRead,
         BodyRead, Forget, ReportTerminal, Covers;
    Untouched(n, n, id);
    match e
    case Starts => Untouched(n, Next(n, e), id);
    case Stops(order) =>
      if Covers(n, order) {
        CoversPeers(n, order);
        CloseEachReadsNothing(n, order, id);
        var n1 := CloseEach(n, order);
        Untouched(n1, n1.(started := false, links := {}, metrics := {}), id);
        NotReadTwice(n, n1, Next(n, e), id);
      }
    case Dials(known) => MadeHere(n); MadeReadsNothing(n, known, id);
    case Accepts => MadeHere(n); MadeReadsNothing(n, true, id);
    case Ready(x) => if x < |n.peers| { OpenReadsNothing(n, x, id); }
    case ConnectionFailed(x) => if x < |n.peers| { ExitReadsNothing(n, x, true, id); }
    case Cancelled(x) => if x < |n.peers| { ExitReadsNothing(n, x, false, id); }
    case TimesOut(x) => if x < |n.peers| { ExitReadsNothing(n, x, false, id); }
    case NetworkGone(x) => if x < |n.peers| { ExitReadsNothing(n, x, true, id); }
    case Disconnects(x) => if x < |n.peers| { DisconnectReadsNothing(n, x, id); }
    case WatchdogFires(x) =>
      if x < |n.peers| {
        ReportReadsNothing(n, x, false, id);
        var n1 := ReportTerminal(n, x, false);
        Forgetting(n1, x, id);
        NotReadTwice(n, n1, Forget(n1, x), id);
      }
    case Sends(x, size, reliable) => SendReadsNothing(n, x, size, reliable, id);
    case SendProcessed(x, k, ok) =>
      if x < |n.peers| && k < |n.peers[x].inFlight| { ProcessedReadsNothing(n, x, k, ok, id); }
    case ReadCompletes(x, r) => OtherReadIsNone(n, x, r, id);
  }

  lemma MadeHere(n: Net)
    requires Inv(n)
    ensures Tabled(n)
  {
    hide PeerOk, Told, Answering, Settling;
  }

  lemma CoversPeers(n: Net, order: seq<LinkId>)
    requires Covers(n, order)
    ensures forall i :: 0 <= i < |order| ==> order[i] < |n.peers|
  {
  }

  lemma Forgetting(n: Net, x: LinkId, id: LinkId)
    ensures NotRead(n, Forget(n, x), id)
  {
    Untouched(n, Forget(n, x), id);
  }

  // -- over every run --------------------------------------------------------

  function Announced(reading: Reading): Option<nat> {
    match reading
    case ForBody(length) => Some(length)
    case _ => None
  }

  lemma {:induction false} EndedIsNeverRead(n: Net, events: seq<Event>, id: LinkId)
    requires Inv(n) && Opened(n, id) && !Listening(n, id)
    ensures ReadsOf(n, events, id) == [] && Lengths(Run(n, events).trace, id) == Lengths(n.trace, id)
    decreases |events|
  {
    hide Inv, Next, Lengths;
    if events != [] {
      OthersReadNothing(n, events[0], id);
      NextKeepsInv(n, events[0]);
      EndedIsNeverRead(Next(n, events[0]), events[1..], id);
    }
  }

  lemma {:induction false} RunDelivers(n: Net, events: seq<Event>, id: LinkId)
    requires Inv(n) && Armed(n, id) && (Opened(n, id) ==> Listening(n, id))
    ensures
      Lengths(Run(n, events).trace, id)
      == Lengths(n.trace, id)
         + Datagrams(if Opened(n, id) then Announced(ReadingOf(n, id)) else None, ReadsOf(n, events, id))
    decreases |events|
  {
    hide Inv, Next, Lengths;
    if events == [] { return; }
    var e := events[0];
    var n1 := Next(n, e);
    NextKeepsInv(n, e);
    if e.ReadCompletes? && e.id == id && Listening(n, id) {
      ReadIsRead(n, id, e.r);
      var rest := ReadsOf(n1, events[1..], id);
      assert ReadsOf(n, events, id) == [e.r] + rest && ([e.r] + rest)[1..] == rest;
      if Listening(n1, id) { RunDelivers(n1, events[1..], id); } else { EndedIsNeverRead(n1, events[1..], id); }
    } else {
      OthersReadNothing(n, e, id);
      assert ReadsOf(n, events, id) == ReadsOf(n1, events[1..], id);
      if Opened(n1, id) && !Listening(n1, id) {
        EndedIsNeverRead(n1, events[1..], id);
      } else {
        RunDelivers(n1, events[1..], id);
      }
    }
  }

  /**
    Over every interleaving, the datagrams reported for a link are exactly those in what it
    was read while it was open: each header's length is the one asked for next, and each
    whole body is delivered, once and in order.
   */
  lemma DeliversExactlyWhatWasRead(events: seq<Event>, id: LinkId)
    ensures Lengths(Run(NEW_NET, events).trace, id) == Datagrams(None, ReadsOf(NEW_NET, events, id))
  {
    hide Run, Inv;
    ReachableInv([]);
    assert Run(NEW_NET, []) == NEW_NET by { NothingRun(); }
    RunDelivers(NEW_NET, events, id);
  }

  lemma NothingRun()
    ensures Run(NEW_NET, []) == NEW_NET
  {
  }

  // -- dials -----------------------------------------------------------------

  /** The events that fail a dial still under way. */
  ghost predicate FailsDial(n: Net, e: Event, id: LinkId)
    requires id < |n.peers|
  {
    match e
    case ConnectionFailed(x) => x == id
    case Cancelled(x) => x == id
    case TimesOut(x) => x == id
    case NetworkGone(x) => x == id
    case Disconnects(x) => x == id
    case SendProcessed(x, k, ok) => x == id && k < |n.peers[id].inFlight| && !ok
    case Stops(order) => Covers(n, order)
    case _ => false
  }

  /** The dial was answered, with this and nothing else, since. */
  ghost predicate ToldSince(n: Net, n': Net, r: nat, link: Option<LinkId>) {
    n.answers <= n'.answers && Answer(r, link) in n'.answers[|n.answers|..]
  }

  /** A dial that is still waited for. */
  ghost predicate StillWaits(n: Net, n': Net, r: nat, id: LinkId) {
    n.answers <= n'.answers && Waits(n', r, id)
  }

  lemma FinishTells(n: Net, x: LinkId, link: Option<LinkId>, r: nat, id: LinkId)
    requires Waits(n, r, id) && x < |n.peers|
    ensures var n' := FinishConnect(n, x, link);
            if x == id then ToldSince(n, n', r, link) else StillWaits(n, n', r, id)
  {
    var n' := FinishConnect(n, x, link);
    if x == id { assert n'.answers[|n.answers|..] == [Answer(r, link)]; }
  }

  lemma ReportKeepsWaiting(n: Net, x: LinkId, failed: bool)
    requires x < |n.peers|
    ensures var n' := ReportTerminal(n, x, failed);
            n'.answers == n.answers && |n'.peers| == |n.peers|
            && forall r: nat, id :: Waits(n, r, id) ==> Waits(n', r, id)
  {
  }

  lemma ExitTells(n: Net, x: LinkId, failed: bool, r: nat, id: LinkId)
    requires Waits(n, r, id) && x < |n.peers| && id in n.links
    ensures x == id ==> ToldSince(n, Exit(n, x, failed), r, None) && ToldSince(n, Fail(n, x, failed), r, None)
                        && ToldSince(n, Abandon(n, x), r, None)
    ensures x != id ==> StillWaits(n, Exit(n, x, failed), r, id) && StillWaits(n, Fail(n, x, failed), r, id)
                        && StillWaits(n, Abandon(n, x), r, id)
  {
    hide FinishConnect, ReportTerminal;
    FinishTells(n, x, None, r, id);
    FinishKeepsPeers(n, x, None);
    ReportKeepsWaiting(FinishConnect(n, x, None), x, failed);
  }

  lemma FinishKeepsPeers(n: Net, x: LinkId, link: Option<LinkId>)
    requires x < |n.peers|
    ensures |FinishConnect(n, x, link).peers| == |n.peers|
  {
  }

  lemma {:induction false} CloseEachTells(n: Net, order: seq<LinkId>, r: nat, id: LinkId)
    requires forall i :: 0 <= i < |order| ==> order[i] < |n.peers|
    requires Waits(n, r, id)
    ensures if id in order then ToldSince(n, CloseEach(n, order), r, None)
            else StillWaits(n, CloseEach(n, order), r, id)
    decreases |order|
  {
    hide FinishConnect, ReportTerminal;
    if order != [] {
      var n1 := FinishConnect(n, order[0], None);
      FinishTells(n, order[0], None, r, id);
      FinishKeepsPeers(n, order[0], None);
      ReportKeepsWaiting(n1, order[0], false);
      var n2 := ReportTerminal(n1, order[0], false);
      if order[0] == id {
        CloseEachOnlyAnswers(n2, order[1..]);
        TellsOn(n, n2, CloseEach(n, order), r, None);
      } else {
        CloseEachTells(n2, order[1..], r, id);
        if id in order { TellsLater(n, n2, CloseEach(n, order), r, None); }
      }
    }
  }

  lemma {:induction false} CloseEachOnlyAnswers(n: Net, order: seq<LinkId>)
    requires forall i :: 0 <= i < |order| ==> order[i] < |n.peers|
    ensures n.answers <= CloseEach(n, order).answers
    decreases |order|
  {
    if order != [] {
      CloseEachOnlyAnswers(ReportTerminal(FinishConnect(n, order[0], None), order[0], false), order[1..]);
    }
  }

  lemma TellsOn(n: Net, n1: Net, n2: Net, r: nat, link: Option<LinkId>)
    requires ToldSince(n, n1, r, link) && n1.answers <= n2.answers
    ensures ToldSince(n, n2, r, link)
  {
    assert n2.answers[|n.answers|..] == n1.answers[|n.answers|..] + n2.answers[|n1.answers|..];
  }

  lemma TellsLater(n: Net, n1: Net, n2: Net, r: nat, link: Option<LinkId>)
    requires n.answers <= n1.answers && ToldSince(n1, n2, r, link)
    ensures ToldSince(n, n2, r, link)
  {
    assert n2.answers[|n.answers|..] == n2.answers[|n.answers|..|n1.answers|] + n2.answers[|n1.answers|..];
  }

  lemma WaitingFacts(n: Net, r: nat, id: LinkId)
    requires Inv(n) && Waits(n, r, id)
    ensures id in n.links && !n.peers[id].isOpen && !n.peers[id].incoming && !n.peers[id].closeWatchdog
    ensures n.peers[id].reading == NotReading && Tabled(n)
  {
    hide Told, Answering, Settling, Total;
    assert PeerOk(n, id);
  }

  lemma OpenTells(n: Net, x: LinkId, r: nat, id: LinkId)
    requires Inv(n) && Waits(n, r, id) && x < |n.peers|
    ensures var n' := Open(n, x);
            if x == id then ToldSince(n, n', r, Some(id)) && Opened(n', id) else StillWaits(n, n', r, id)
  {
    hide Inv, FinishConnect;
    WaitingFacts(n, r, id);
    if !n.peers[x].isOpen && x in n.links {
      var n1 := n.(peers := n.peers[x := n.peers[x].(isOpen := true, reading := ForHeader)],
                   trace := n.trace + [LinkOpened(x, n.peers[x].incoming), Connected(x)]);
      FinishTells(n1, x, Some(x), r, id);
      FinishKeepsOpen(n1, x, Some(x));
    }
  }

  lemma FinishKeepsOpen(n: Net, x: LinkId, link: Option<LinkId>)
    requires x < |n.peers|
    ensures Opened(n, x) ==> Opened(FinishConnect(n, x, link), x)
  {
  }

  lemma DisconnectTells(n: Net, x: LinkId, r: nat, id: LinkId)
    requires Inv(n) && Waits(n, r, id) && x < |n.peers|
    ensures var n' := Disconnect(n, x);
            if x == id then ToldSince(n, n', r, None) else StillWaits(n, n', r, id)
  {
    hide Inv, FinishConnect;
    WaitingFacts(n, r, id);
    if x in n.links {
      var p := n.peers[x];
      var n1 := if p.isOpen && !p.didReportTerminal then n.(trace := n.trace + [Closing(x)]) else n;
      FinishTells(n1.(peers := n.peers[x := p.(closeWatchdog := true)]), x, None, r, id);
    }
  }

  lemma ProcessedTells(n: Net, x: LinkId, k: nat, ok: bool, r: nat, id: LinkId)
    requires Inv(n) && Waits(n, r, id) && x < |n.peers| && k < |n.peers[x].inFlight|
    ensures var n' := Processed(n, x, k, ok);
            if x == id && !ok then ToldSince(n, n', r, None) else StillWaits(n, n', r, id)
  {
    hide Inv, Fail;
    WaitingFacts(n, r, id);
    var n1 := Processed(n, x, k, true);
    assert n1.answers == n.answers && Waits(n1, r, id) && n1.links == n.links;
    var n2 := n1.(outcomes := n.outcomes + [Outcome(n.peers[x].inFlight[k].send, ok)]);
    assert !ok ==> Processed(n, x, k, ok) == Fail(n2, x, true);
    ExitTells(n2, x, true, r, id);
  }

  lemma ReadKeepsWaiting(n: Net, x: LinkId, res: Read, r: nat, id: LinkId)
    requires Inv(n) && Waits(n, r, id)
    ensures StillWaits(n, Next(n, ReadCompletes(x, res)), r, id)
  {
    hide Inv, Fail;
    WaitingFacts(n, r, id);
    if x < |n.peers| && x != id {
      ExitTells(n, x, true, r, id);
      ExitTells(n, x, res.Short? && !res.isComplete, r, id);
    }
  }

  /**
    A dial that is waited for is answered with its link by the event that opens the link, with
    failure by the events that fail it, and waits on through every other.
   */
  lemma DialIsAnswered(n: Net, e: Event, r: nat, id: LinkId)
    requires Inv(n) && Waits(n, r, id)
    ensures var n' := Next(n, e);
            if e == Ready(id) then ToldSince(n, n', r, Some(id)) && Opened(n', id)
            else if FailsDial(n, e, id) then ToldSince(n, n', r, None)
            else StillWaits(n, n', r, id)
  {
    hide Inv, Exit, Fail, Abandon, Connect, Accept, Open, Disconnect, Send, Processed, CloseEach, Covers, ToldSince,
         StillWaits, Forget, ReportTerminal, HeaderRead, BodyRead;
    WaitingFacts(n, r, id);
    assert StillWaits(n, n, r, id) by { WaitsItself(n, r, id); }
    match e
    case Starts => WaitsItself(n, r, id);
    case Stops(order) =>
      if Covers(n, order) {
        CoversPeers(n, order);
        CoversLinks(n, order, id);
        CloseEachTells(n, order, r, id);
        ToldIrrelevant(n, CloseEach(n, order), Next(n, e), r, None);
      }
    case Dials(known) => MakingKeepsWaiting(n, known, r, id);
    case Accepts => MakingKeepsWaiting(n, true, r, id);
    case Ready(x) => if x < |n.peers| { OpenTells(n, x, r, id); }
    case ConnectionFailed(x) => if x < |n.peers| { ExitTells(n, x, true, r, id); }
    case Cancelled(x) => if x < |n.peers| { ExitTells(n, x, false, r, id); }
    case TimesOut(x) => if x < |n.peers| { ExitTells(n, x, false, r, id); }
    case NetworkGone(x) => if x < |n.peers| { ExitTells(n, x, true, r, id); }
    case Disconnects(x) => if x < |n.peers| { DisconnectTells(n, x, r, id); }
    case WatchdogFires(x) => if x < |n.peers| { WatchdogKeepsWaiting(n, x, r, id); }
    case Sends(x, size, reliable) => SendKeepsWaiting(n, x, size, reliable, r, id);
    case SendProcessed(x, k, ok) =>
      if x < |n.peers| && k < |n.peers[x].inFlight| { ProcessedTells(n, x, k, ok, r, id); }
    case ReadCompletes(x, res) => ReadKeepsWaiting(n, x, res, r, id);
  }

  lemma WaitsItself(n: Net, r: nat, id: LinkId)
    requires Waits(n, r, id)
    ensures StillWaits(n, n, r, id) && StillWaits(n, n.(started := true), r, id)
  {
  }

  lemma CoversLinks(n: Net, order: seq<LinkId>, id: LinkId)
    requires Covers(n, order) && id in n.links
    ensures id in order
  {
  }

  lemma ToldIrrelevant(n: Net, n1: Net, n2: Net, r: nat, link: Option<LinkId>)
    requires ToldSince(n, n1, r, link) && n2.answers == n1.answers
    ensures ToldSince(n, n2, r, link)
  {
  }

  lemma MakingKeepsWaiting(n: Net, known: bool, r: nat, id: LinkId)
    requires Waits(n, r, id)
    ensures StillWaits(n, Connect(n, known), r, id) && StillWaits(n, Accept(n), r, id)
  {
  }

  lemma WatchdogKeepsWaiting(n: Net, x: LinkId, r: nat, id: LinkId)
    requires Waits(n, r, id) && x < |n.peers|
    ensures StillWaits(n, Forget(ReportTerminal(n, x, false), x), r, id)
  {
  }

  lemma SendKeepsWaiting(n: Net, x: LinkId, size: nat, reliable: bool, r: nat, id: LinkId)
    requires Waits(n, r, id)
    ensures StillWaits(n, Send(n, x, size, reliable), r, id)
  {
  }

  /** A connect fails at once without the transport, the peer or room for a link; else it waits at a new link. */
  lemma ConnectIsAnswered(n: Net, known: bool)
    requires Inv(n)
    ensures
      var n' := Next(n, Dials(known));
      && n'.asked == n.asked + 1
      && (if n.started && known && |n.links| < 16
          then n'.answers == n.answers && Waits(n', n.asked, |n.peers|) && n'.links == n.links + {|n.peers|}
          else n'.answers == n.answers + [Answer(n.asked, None)] && n'.peers == n.peers)
  {
  }

  /** At any moment of any run. */
  lemma EveryDialIsAnswered(events: seq<Event>, e: Event, r: nat, id: LinkId)
    requires Waits(Run(NEW_NET, events), r, id)
    ensures var n := Run(NEW_NET, events);
            var n' := Next(n, e);
            if e == Ready(id) then ToldSince(n, n', r, Some(id)) && Opened(n', id)
            else if FailsDial(n, e, id) then ToldSince(n, n', r, None)
            else StillWaits(n, n', r, id)
  {
    hide Run, Inv, Next, ToldSince, StillWaits, FailsDial, Opened;
    ReachableInv(events);
    DialIsAnswered(Run(NEW_NET, events), e, r, id);
  }

  // -- sends -----------------------------------------------------------------

  /** The promise was settled with this outcome since. */
  ghost predicate SettledSince(n: Net, n': Net, send: nat, ok: bool) {
    n.outcomes <= n'.outcomes && Outcome(send, ok) in n'.outcomes[|n.outcomes|..]
  }

  ghost predicate FramesStay(n: Net, n': Net, id: LinkId) {
    id < |n.peers| <= |n'.peers| && n.outcomes <= n'.outcomes && n.peers[id].inFlight <= n'.peers[id].inFlight
  }

  lemma FramesStayTwice(n: Net, n1: Net, n2: Net, id: LinkId)
    requires FramesStay(n, n1, id) && FramesStay(n1, n2, id)
    ensures FramesStay(n, n2, id)
  {
  }

  lemma ExitKeepsFrames(n: Net, x: LinkId, failed: bool, id: LinkId)
    requires x < |n.peers| && id < |n.peers|
    ensures FramesStay(n, Exit(n, x, failed), id) && FramesStay(n, Fail(n, x, failed), id)
    ensures FramesStay(n, Abandon(n, x), id) && FramesStay(n, Forget(ReportTerminal(n, x, failed), x), id)
    ensures Exit(n, x, failed).outcomes == n.outcomes
  {
    var n1 := FinishConnect(n, x, None);
    assert FramesStay(n, n1, id) && n1.outcomes == n.outcomes;
    var n2 := ReportTerminal(n1, x, failed);
    assert FramesStay(n1, n2, id) && n2.outcomes == n1.outcomes;
  }

  lemma {:induction false} CloseEachKeepsFrames(n: Net, order: seq<LinkId>, id: LinkId)
    requires forall i :: 0 <= i < |order| ==> order[i] < |n.peers|
    requires id < |n.peers|
    ensures FramesStay(n, CloseEach(n, order), id)
    decreases |order|
  {
    hide Forget;
    if order != [] {
      var n1 := FinishConnect(n, order[0], None);
      var n2 := ReportTerminal(n1, order[0], false);
      assert FramesStay(n, n1, id) && FramesStay(n1, n2, id);
      CloseEachKeepsFrames(n2, order[1..], id);
    }
  }

  lemma OpenKeepsFrames(n: Net, x: LinkId, id: LinkId)
    requires x < |n.peers| && id < |n.peers|
    ensures FramesStay(n, Open(n, x), id) && FramesStay(n, Disconnect(n, x), id)
  {
  }

  lemma MakingKeepsFrames(n: Net, known: bool, id: LinkId)
    requires id < |n.peers|
    ensures FramesStay(n, Connect(n, known), id) && FramesStay(n, Accept(n), id)
  {
  }

  lemma SendKeepsFrames(n: Net, x: LinkId, size: nat, reliable: bool, id: LinkId)
    requires id < |n.peers|
    ensures FramesStay(n, Send(n, x, size, reliable), id)
  {
  }

  lemma HeaderKeepsFrames(n: Net, x: LinkId, r: Read, id: LinkId)
    requires id < |n.peers| && x < |n.peers|
    ensures FramesStay(n, HeaderRead(n, x, r), id)
  {
    hide Fail;
    ExitKeepsFrames(n, x, true, id);
    ExitKeepsFrames(n, x, r.Short? && !r.isComplete, id);
  }

  lemma BodyKeepsFrames(n: Net, x: LinkId, length: nat, r: Read, id: LinkId)
    requires id < |n.peers| && x < |n.peers|
    ensures FramesStay(n, BodyRead(n, x, length, r), id)
  {
    hide Fail;
    ExitKeepsFrames(n, x, true, id);
    ExitKeepsFrames(n, x, r.Short? && !r.isComplete, id);
  }

  lemma ReadKeepsFrames(n: Net, x: LinkId, r: Read, id: LinkId)
    requires id < |n.peers|
    ensures FramesStay(n, Next(n, ReadCompletes(x, r)), id)
  {
    hide HeaderRead, BodyRead;
    if x < |n.peers| {
      HeaderKeepsFrames(n, x, r, id);
      if n.peers[x].reading.ForBody? { BodyKeepsFrames(n, x, n.peers[x].reading.length, r, id); }
    }
  }

  lemma FailKeepsQueues(n: Net, x: LinkId, failed: bool)
    requires x < |n.peers|
    ensures var n' := Fail(n, x, failed);
            n'.outcomes == n.outcomes && |n'.peers| == |n.peers|
            && forall y :: 0 <= y < |n.peers| ==> n'.peers[y].inFlight == n.peers[y].inFlight
  {
  }

  /** The socket's word on a frame is the outcome of its send, and the others stay where they are. */
  lemma ProcessedSettles(n: Net, x: LinkId, k: nat, ok: bool, id: LinkId)
    requires x < |n.peers| && k < |n.peers[x].inFlight| && id < |n.peers|
    ensures
      var n' := Processed(n, x, k, ok);
      && SettledSince(n, n', n.peers[x].inFlight[k].send, ok) && |n'.peers| == |n.peers|
      && n'.outcomes == n.outcomes + [Outcome(n.peers[x].inFlight[k].send, ok)]
      && (id != x ==> FramesStay(n, n', id))
      && n'.peers[x].inFlight == n.peers[x].inFlight[..k] + n.peers[x].inFlight[k + 1..]
  {
    hide Fail;
    var p := n.peers[x];
    var f := p.inFlight[k];
    var left := if p.queuedBytes >= f.size then p.queuedBytes - f.size else 0;
    var n1 := n.(peers := n.peers[x := p.(queuedBytes := left, inFlight := p.inFlight[..k] + p.inFlight[k + 1..])],
                 outcomes := n.outcomes + [Outcome(f.send, ok)]);
    FailKeepsQueues(n1, x, true);
    assert (n.outcomes + [Outcome(f.send, ok)])[|n.outcomes|..] == [Outcome(f.send, ok)];
  }

  /**
    A frame stays with its socket until the socket is done with it, and that settles its send
    with what the socket said.
   */
  lemma FrameIsSettledBySocket(n: Net, e: Event, id: LinkId, i: nat)
    requires id < |n.peers| && i < |n.peers[id].inFlight|
    ensures
      var f := n.peers[id].inFlight[i];
      var n' := Next(n, e);
      && id < |n'.peers|
      && match e
         case SendProcessed(x, k, ok) =>
           if x == id && k == i then SettledSince(n, n', f.send, ok) else f in n'.peers[id].inFlight
         case _ => FramesStay(n, n', id)
  {
    hide Exit, Fail, Abandon, Connect, Accept, Open, Disconnect, Send, Processed, CloseEach, Covers, HeaderRead,
         BodyRead, Forget, ReportTerminal, FinishConnect;
    match e
    case Starts =>
    case Stops(order) =>
      if Covers(n, order) {
        CoversPeers(n, order);
        CloseEachKeepsFrames(n, order, id);
      }
    case Dials(known) => MakingKeepsFrames(n, known, id);
    case Accepts => MakingKeepsFrames(n, true, id);
    case Ready(x) => if x < |n.peers| { OpenKeepsFrames(n, x, id); }
    case ConnectionFailed(x) => if x < |n.peers| { ExitKeepsFrames(n, x, true, id); }
    case Cancelled(x) => if x < |n.peers| { ExitKeepsFrames(n, x, false, id); }
    case TimesOut(x) => if x < |n.peers| { ExitKeepsFrames(n, x, false, id); }
    case NetworkGone(x) => if x < |n.peers| { ExitKeepsFrames(n, x, true, id); }
    case Disconnects(x) => if x < |n.peers| { OpenKeepsFrames(n, x, id); }
    case WatchdogFires(x) => if x < |n.peers| { ExitKeepsFrames(n, x, false, id); }
    case Sends(x, size, reliable) => SendKeepsFrames(n, x, size, reliable, id);
    case SendProcessed(x, k, ok) =>
      if x < |n.peers| && k < |n.peers[x].inFlight| {
        ProcessedSettles(n, x, k, ok, id);
        if x == id && k < i { assert n.peers[x].inFlight[k + 1..][i - k - 1] == n.peers[x].inFlight[i]; }
        if x == id && i < k { assert n.peers[x].inFlight[..k][i] == n.peers[x].inFlight[i]; }
      }
    case ReadCompletes(x, r) => ReadKeepsFrames(n, x, r, id);
  }

  /**
    A send fails at once for a link that is not open, a datagram that is empty or over 64 KB, or
    a queue over its limit; an unreliable one over the high-water mark is dropped as if it were
    sent; every other is one more frame with the socket and no outcome yet.
   */
  lemma SendIsServed(n: Net, id: LinkId, size: nat, reliable: bool)
    requires Inv(n)
    ensures
      var n' := Next(n, Sends(id, size, reliable));
      var queued := if id < |n.peers| then Total(n.peers[id].inFlight) else 0;
      var refused := !Listening(n, id) || !(1 <= size <= 65536) || (reliable && queued > 4194304);
      var dropped := !refused && !reliable && queued > 131072;
      && n'.sends == n.sends + 1 && n'.trace == n.trace && n'.links == n.links
      && (refused ==> n'.outcomes == n.outcomes + [Outcome(n.sends, false)] && n'.peers == n.peers)
      && (dropped ==> n'.outcomes == n.outcomes + [Outcome(n.sends, true)] && n'.peers == n.peers)
      && (!refused && !dropped ==>
            n'.outcomes == n.outcomes && id < |n'.peers|
            && n'.peers[id].inFlight == n.peers[id].inFlight + [Frame(n.sends, size + 4)])
  {
    hide Told, Answering, Settling, Total;
    if id < |n.peers| { assert PeerOk(n, id); }
  }

  // -- beginnings and ends ---------------------------------------------------

  ghost predicate BadRead(reading: Reading, r: Read) {
    !r.Exact? || (reading == ForHeader && !(1 <= r.value <= 65536))
  }

  /** The events that end this open link. */
  ghost predicate EndsOpen(n: Net, e: Event, id: LinkId)
    requires id < |n.peers|
  {
    match e
    case ConnectionFailed(x) => x == id
    case Cancelled(x) => x == id
    case NetworkGone(x) => x == id
    case WatchdogFires(x) => x == id && n.peers[id].closeWatchdog
    case SendProcessed(x, k, ok) => x == id && k < |n.peers[id].inFlight| && !ok
    case ReadCompletes(x, r) => x == id && BadRead(n.peers[id].reading, r)
    case Stops(order) => Covers(n, order)
    case _ => false
  }

  /** An end is reported as a failure unless it was asked for or the peer closed in good order. */
  ghost predicate FailsOpen(e: Event) {
    match e
    case ReadCompletes(_, r) => !(r.Short? && r.isComplete)
    case _ => e.ConnectionFailed? || e.NetworkGone? || e.SendProcessed?
  }

  ghost predicate Ends(n: Net, n': Net, id: LinkId, failed: bool) {
    n.trace <= n'.trace && Ended(id, failed) in n'.trace[|n.trace|..] && Opened(n', id) && !Listening(n', id)
  }

  ghost predicate GoesOn(n: Net, n': Net, id: LinkId) {
    n.trace <= n'.trace && Listening(n', id)
  }

  lemma FinishGoesOn(n: Net, x: LinkId, link: Option<LinkId>, id: LinkId)
    requires x < |n.peers| && Listening(n, id)
    ensures GoesOn(n, FinishConnect(n, x, link), id) && FinishConnect(n, x, link).trace == n.trace
    ensures |FinishConnect(n, x, link).peers| == |n.peers|
  {
  }

  lemma ReportEnds(n: Net, x: LinkId, failed: bool, id: LinkId)
    requires x < |n.peers| && Listening(n, id)
    ensures var n' := ReportTerminal(n, x, failed);
            |n'.peers| == |n.peers| && if x == id then Ends(n, n', id, failed) else GoesOn(n, n', id)
  {
    var n' := ReportTerminal(n, x, failed);
    if x == id { assert n'.trace[|n.trace|..] == [Ended(id, failed)]; }
  }

  lemma ExitEnds(n: Net, x: LinkId, failed: bool, id: LinkId)
    requires x < |n.peers| && Listening(n, id)
    ensures if x == id then Ends(n, Exit(n, x, failed), id, failed) else GoesOn(n, Exit(n, x, failed), id)
    ensures if x == id then Ends(n, Fail(n, x, failed), id, failed) else GoesOn(n, Fail(n, x, failed), id)
    ensures var n' := Forget(ReportTerminal(n, x, failed), x);
            if x == id then Ends(n, n', id, failed) else GoesOn(n, n', id)
    ensures x != id ==> GoesOn(n, Abandon(n, x), id)
  {
    hide FinishConnect, ReportTerminal;
    FinishGoesOn(n, x, None, id);
    ReportEnds(FinishConnect(n, x, None), x, failed, id);
    ReportEnds(n, x, failed, id);
  }

  lemma {:induction false} CloseEachOnlyAdds(n: Net, order: seq<LinkId>, id: LinkId)
    requires forall i :: 0 <= i < |order| ==> order[i] < |n.peers|
    requires Opened(n, id)
    ensures n.trace <= CloseEach(n, order).trace && Opened(CloseEach(n, order), id)
    decreases |order|
  {
    if order != [] {
      CloseEachOnlyAdds(ReportTerminal(FinishConnect(n, order[0], None), order[0], false), order[1..], id);
    }
  }

  lemma {:induction false} CloseEachEnds(n: Net, order: seq<LinkId>, id: LinkId)
    requires forall i :: 0 <= i < |order| ==> order[i] < |n.peers|
    requires Listening(n, id) && id in order
    ensures var n' := CloseEach(n, order);
            n.trace <= n'.trace && Ended(id, false) in n'.trace[|n.trace|..] && Opened(n', id)
    decreases |order|
  {
    hide FinishConnect, ReportTerminal;
    FinishGoesOn(n, order[0], None, id);
    var n1 := FinishConnect(n, order[0], None);
    var n2 := ReportTerminal(n1, order[0], false);
    ReportEnds(n1, order[0], false, id);
    var n' := CloseEach(n, order);
    if order[0] == id {
      CloseEachOnlyAdds(n2, order[1..], id);
      assert n'.trace[|n.trace|..] == n2.trace[|n.trace|..] + n'.trace[|n2.trace|..];
    } else {
      CloseEachEnds(n2, order[1..], id);
      assert n'.trace[|n.trace|..] == n'.trace[|n.trace|..|n2.trace|] + n'.trace[|n2.trace|..];
    }
  }

  lemma StoppingEnds(n: Net, order: seq<LinkId>, id: LinkId)
    requires Covers(n, order) && Listening(n, id)
    ensures Ends(n, CloseEach(n, order).(started := false, links := {}, metrics := {}), id, false)
  {
    hide CloseEach;
    CloseEachEnds(n, order, id);
  }

  lemma HeaderEnds(n: Net, x: LinkId, r: Read, id: LinkId)
    requires x < |n.peers| && Listening(n, id)
    ensures var n' := HeaderRead(n, x, r);
            if x == id && BadRead(ForHeader, r) then Ends(n, n', id, !(r.Short? && r.isComplete)) else GoesOn(n, n', id)
  {
    hide Fail, Ends;
    ExitEnds(n, x, !(r.Short? && r.isComplete), id);
  }

  lemma BodyEnds(n: Net, x: LinkId, length: nat, r: Read, id: LinkId)
    requires x < |n.peers| && Listening(n, id)
    ensures var n' := BodyRead(n, x, length, r);
            if x == id && !r.Exact? then Ends(n, n', id, !(r.Short? && r.isComplete)) else GoesOn(n, n', id)
  {
    hide Fail, Ends;
    ExitEnds(n, x, !(r.Short? && r.isComplete), id);
  }

  lemma ProcessedEnds(n: Net, x: LinkId, k: nat, ok: bool, id: LinkId)
    requires x < |n.peers| && k < |n.peers[x].inFlight| && Listening(n, id)
    ensures var n' := Processed(n, x, k, ok);
            if x == id && !ok then Ends(n, n', id, true) else GoesOn(n, n', id)
  {
    hide Fail;
    var p := n.peers[x];
    var f := p.inFlight[k];
    var left := if p.queuedBytes >= f.size then p.queuedBytes - f.size else 0;
    var n1 := n.(peers := n.peers[x := p.(queuedBytes := left, inFlight := p.inFlight[..k] + p.inFlight[k + 1..])],
                 outcomes := n.outcomes + [Outcome(f.send, ok)]);
    assert Listening(n1, id) && n1.trace == n.trace;
    ExitEnds(n1, x, true, id);
  }

  lemma OthersGoOn(n: Net, x: LinkId, known: bool, size: nat, reliable: bool, id: LinkId)
    requires Listening(n, id) && Tabled(n)
    ensures GoesOn(n, Connect(n, known), id) && GoesOn(n, Accept(n), id) && GoesOn(n, Send(n, x, size, reliable), id)
    ensures x < |n.peers| ==> GoesOn(n, Open(n, x), id)
  {
  }

  lemma DisconnectGoesOn(n: Net, x: LinkId, id: LinkId)
    requires Listening(n, id) && x < |n.peers|
    ensures GoesOn(n, Disconnect(n, x), id)
  {
  }

  lemma OpenIsSettled(n: Net, id: LinkId)
    requires Inv(n) && Listening(n, id)
    ensures n.peers[id].connectCompletion.None? && Tabled(n)
  {
    hide Told, Answering, Settling, Total;
    assert PeerOk(n, id);
  }

  /** An open link is ended by exactly these events, with exactly one report of how, and goes on through every other. */
  lemma OpenLinkEnds(n: Net, e: Event, id: LinkId)
    requires Inv(n) && Listening(n, id) && Armed(n, id)
    ensures var n' := Next(n, e);
            if EndsOpen(n, e, id) then Ends(n, n', id, FailsOpen(e)) else GoesOn(n, n', id)
  {
    hide Inv, Exit, Fail, Abandon, Connect, Accept, Open, Disconnect, Send, Processed, CloseEach, Covers, HeaderRead,
         BodyRead, Forget, ReportTerminal, Ends;
    OpenIsSettled(n, id);
    match e
    case Starts =>
    case Stops(order) => if Covers(n, order) { StoppingEnds(n, order, id); }
    case Dials(known) => OthersGoOn(n, 0, known, 0, true, id);
    case Accepts => OthersGoOn(n, 0, true, 0, true, id);
    case Ready(x) => OthersGoOn(n, x, true, 0, true, id);
    case ConnectionFailed(x) => if x < |n.peers| { ExitEnds(n, x, true, id); }
    case Cancelled(x) => if x < |n.peers| { ExitEnds(n, x, false, id); }
    case TimesOut(x) => if x < |n.peers| { ExitEnds(n, x, false, id); }
    case NetworkGone(x) => if x < |n.peers| { ExitEnds(n, x, true, id); }
    case Disconnects(x) => if x < |n.peers| { DisconnectGoesOn(n, x, id); }
    case WatchdogFires(x) => if x < |n.peers| { ExitEnds(n, x, false, id); }
    case Sends(x, size, reliable) => OthersGoOn(n, x, true, size, reliable, id);
    case SendProcessed(x, k, ok) => if x < |n.peers| && k < |n.peers[x].inFlight| { ProcessedEnds(n, x, k, ok, id); }
    case ReadCompletes(x, r) =>
      if x < |n.peers| {
        HeaderEnds(n, x, r, id);
        if n.peers[x].reading.ForBody? { BodyEnds(n, x, n.peers[x].reading.length, r, id); }
      }
  }

  /** Every open link has been reading since it opened. */
  lemma {:induction false} RunStaysArmed(n: Net, events: seq<Event>, id: LinkId)
    requires Inv(n) && Armed(n, id)
    ensures Armed(Run(n, events), id)
    decreases |events|
  {
    hide Inv, Next, Lengths;
    if events != [] {
      var e := events[0];
      NextKeepsInv(n, e);
      if e.ReadCompletes? && e.id == id && Listening(n, id) {
        KeepsReading(n, id, e.r);
      } else {
        OthersReadNothing(n, e, id);
      }
      RunStaysArmed(Next(n, e), events[1..], id);
    }
  }

  lemma KeepsReading(n: Net, id: LinkId, r: Read)
    requires Listening(n, id) && Armed(n, id)
    ensures Armed(Next(n, ReadCompletes(id, r)), id)
  {
  }

  /** At any moment of any run. */
  lemma EveryOpenLinkEnds(events: seq<Event>, e: Event, id: LinkId)
    requires Listening(Run(NEW_NET, events), id)
    ensures var n := Run(NEW_NET, events);
            var n' := Next(n, e);
            if EndsOpen(n, e, id) then Ends(n, n', id, FailsOpen(e)) else GoesOn(n, n', id)
  {
    hide Run, Inv, Next, Ends, GoesOn, EndsOpen, FailsOpen;
    ReachableInv([]);
    assert Run(NEW_NET, []) == NEW_NET by { NothingRun(); }
    ReachableInv(events);
    RunStaysArmed(NEW_NET, events, id);
    OpenLinkEnds(Run(NEW_NET, events), e, id);
  }

  /** A connection that comes in is a new link while there is room; one that gets ready opens its link and says so. */
  lemma LinksBegin(n: Net, id: LinkId)
    requires Inv(n)
    ensures n.started && |n.links| < 16 ==>
      Next(n, Accepts).links == n.links + {|n.peers|} && |Next(n, Accepts).peers| == |n.peers| + 1
    ensures !n.started || |n.links| >= 16 ==> Next(n, Accepts) == n
    ensures id in n.links && id < |n.peers| && !n.peers[id].isOpen ==>
      var n' := Next(n, Ready(id));
      Listening(n', id) && n'.trace == n.trace + [LinkOpened(id, n.peers[id].incoming), Connected(id)]
  {
    hide Told, Answering, Settling, Total;
    if id < |n.peers| { assert PeerOk(n, id); }
  }
}
