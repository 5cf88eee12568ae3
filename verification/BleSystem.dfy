/** The table of Bluetooth links with the queue of each: what the single exit settles, and what it leaves alone. */
module BleSystem {
  import opened Bytes
  import opened Wrappers
  import L2CAP = BleL2CAP
  import Life = BleLinkLife
  import Order = BleLinkOrder
  import Queue = BleLinkQueue
  import Table = BleLinkTable

  /** Queue `n` belongs to link `n`, also after the link has left the table. */
  datatype System = System(table: Table.Table, queues: seq<Queue.Link>)

  datatype Event =
    | Callback(event: Table.Event)
    | OnLink(id: Table.LinkId, onQueue: Queue.Event)

  const NEW_SYSTEM := System(Table.NEW_TABLE, [])

  function Fresh(born: Table.Born): Queue.Link {
    Queue.NewLink(if born.role == Table.Central then Queue.Central else Queue.Peripheral, 0)
  }

  /** The part of a callback that concerns the queue of link `id`: it opens and closes with its link. */
  function Carry(t: Table.Table, id: Table.LinkId, q: Queue.Link): Queue.Link {
    if id !in t.links then Queue.Close(q)
    else if t.links[id].opened_ && !q.connected then Queue.Next(q, Queue.Opens(t.links[id].size))
    else q
  }

  /** Opening and closing are the table's business. */
  predicate OfQueue(e: Queue.Event) {
    !e.Opens? && !e.Closes?
  }

  function QueueOf(s: System, t: Table.Table, id: Table.LinkId): Queue.Link
    requires id < |t.born|
  {
    Carry(t, id, if id < |s.queues| then s.queues[id] else Fresh(t.born[id]))
  }

  ghost function Next(s: System, e: Event): System {
    match e
    case Callback(event) =>
      var t := Table.Next(s.table, event);
      System(t, seq(|t.born|, i requires 0 <= i < |t.born| => QueueOf(s, t, i)))
    case OnLink(id, event) =>
      if id < |s.queues| && OfQueue(event) then s.(queues := s.queues[id := Queue.Next(s.queues[id], event)]) else s
  }

  ghost function Run(s: System, events: seq<Event>): System
    decreases |events|
  {
    if events == [] then s else Run(Next(s, events[0]), events[1..])
  }

  // -- the invariant ---------------------------------------------------------

  /** A queue is closed exactly when its link has left the table. */
  ghost predicate Matches(t: Table.Table, id: Table.LinkId, q: Queue.Link) {
    && Queue.Inv(q) && (q.closed <==> id !in t.links)
    && (id in t.links && t.links[id].opened_ ==> q.connected)
  }

  ghost predicate Inv(s: System) {
    && Table.Inv(s.table) && |s.queues| == |s.table.born|
    && forall id :: 0 <= id < |s.queues| ==> Matches(s.table, id, s.queues[id])
  }

  // -- what the queue's own events leave alone -------------------------------

  ghost predicate SameStatus(l: Queue.Link, l': Queue.Link) {
    l'.closed == l.closed && l'.connected == l.connected
  }

  lemma {:induction false} PumpsKeepStatus(l: Queue.Link, credits: nat)
    ensures SameStatus(l, Queue.PumpCentral(l, credits)) && SameStatus(l, Queue.PumpPeripheral(l, credits))
    decreases |l.outbound|
  {
    if l.outbound != [] {
      PumpsKeepStatus(Queue.WriteReliable(l), credits);
      if credits > 0 { PumpsKeepStatus(Queue.WriteNow(l), credits - 1); }
    }
  }

  lemma PumpKeepsStatus(l: Queue.Link, credits: nat)
    ensures SameStatus(l, Queue.PumpOutbound(l, credits))
  {
    hide Queue.PumpCentral, Queue.PumpPeripheral;
    PumpsKeepStatus(l, credits);
  }

  lemma ReportKeepsStatus(l: Queue.Link, credits: nat)
    ensures SameStatus(l, Queue.HandleFastPathClosed(l, credits))
  {
    hide Queue.PumpOutbound, Queue.Requeue, Queue.SettleAll;
    var unsent := l.channel.handedBack;
    Order.SettleAllPromises(l.(owes := false), unsent, 0);
    Order.RequeueFrame(Queue.Dropped(l), unsent);
    PumpKeepsStatus(Queue.Requeue(Queue.Dropped(l), unsent), credits);
  }

  lemma SendKeepsStatus(l: Queue.Link, data: seq<byte>, reliable: bool, credits: nat, writes: seq<int>)
    ensures SameStatus(l, Queue.Send(l, data, reliable, credits, writes))
  {
    hide Queue.PumpOutbound, L2CAP.Sending;
    var item := L2CAP.Item(|l.sent|, data, reliable);
    PumpKeepsStatus(Queue.Enqueued(l.(sent := l.sent + [item]), item), credits);
  }

  lemma AcknowledgementKeepsStatus(l: Queue.Link, ok: bool, credits: nat)
    ensures SameStatus(l, Queue.DidWrite(l, ok, credits))
  {
    hide Queue.PumpOutbound;
    var l1 := if l.reliableInFlight.Some? then Queue.Settle(l, l.reliableInFlight.value, ok) else l;
    PumpKeepsStatus(l1.(reliableInFlight := None), credits);
  }

  lemma AdoptionKeepsStatus(l: Queue.Link, credits: nat)
    ensures SameStatus(l, Queue.Adopt(l, credits))
  {
    hide Queue.PumpOutbound;
    PumpKeepsStatus(Queue.Holding(l), credits);
  }

  lemma ChannelEventsKeepStatus(l: Queue.Link, channel: L2CAP.Session)
    ensures SameStatus(l, Queue.WithChannel(l, channel))
    ensures SameStatus(l, Queue.HearSettlement(l)) && SameStatus(l, Queue.AbandonFastPath(l))
  {
  }

  lemma QueueEventsKeepStatus(l: Queue.Link, e: Queue.Event)
    requires OfQueue(e)
    ensures SameStatus(l, Queue.Next(l, e))
  {
    hide Queue.Send, Queue.PumpOutbound, Queue.HandleFastPathClosed, Queue.Close, Queue.DidWrite, Queue.Adopt,
         Queue.WithChannel, Queue.HearSettlement, Queue.AbandonFastPath, Queue.Reportable, L2CAP.SpaceAvailable,
         L2CAP.Shutdown;
    ChannelEventsKeepStatus(l, l.channel);
    match e
    case Sends(data, reliable, credits, writes) => SendKeepsStatus(l, data, reliable, credits, writes);
    case Acknowledged(ok, credits) => AcknowledgementKeepsStatus(l, ok, credits);
    case GattReady(credits) => PumpKeepsStatus(l, credits);
    case ChannelOpens(credits) => AdoptionKeepsStatus(l, credits);
    case ChannelReports(credits) => ReportKeepsStatus(l, credits);
    case ChannelHasSpace(writes) => ChannelEventsKeepStatus(l, L2CAP.SpaceAvailable(l.channel, writes));
    case ChannelDies => ChannelEventsKeepStatus(l, L2CAP.Shutdown(l.channel));
    case _ =>
  }

  // -- what the table's callbacks do to the set of links ---------------------

  /** Links are born with new numbers and never come back. */
  ghost predicate Fewer(t: Table.Table, t': Table.Table) {
    && |t.born| <= |t'.born|
    && forall id :: id in t'.links ==> id in t.links || |t.born| <= id
  }

  lemma NoLinkReturns(t: Table.Table, e: Table.Event)
    ensures Fewer(t, Table.Next(t, e))
  {
    hide Table.CloseEach, Table.Covers, Table.AnswerAll;
    match e
    case RadioOff(role, order) =>
      Life.CloseEachRemoves(t, order, true);
      ClosingBearsNone(t, order, true);
    case Stops(order) =>
      Life.CloseEachRemoves(t, order, false);
      ClosingBearsNone(t, order, false);
    case _ =>
  }

  lemma {:induction false} ClosingBearsNone(t: Table.Table, ids: seq<Table.LinkId>, failed: bool)
    ensures Table.CloseEach(t, ids, failed).born == t.born
    decreases |ids|
  {
    if ids != [] { ClosingBearsNone(Table.CloseLink(t, ids[0], failed), ids[1..], failed); }
  }

  // -- every event -----------------------------------------------------------

  lemma CloseDone(l: Queue.Link)
    ensures Queue.Close(l).closed && (l.closed ==> Queue.Close(l) == l)
  {
    hide Queue.SettleAll;
    if !l.closed { Order.CloseSettles(l, 0); }
  }

  lemma CarryMatches(t: Table.Table, t': Table.Table, id: Table.LinkId, q: Queue.Link)
    requires Queue.Inv(q) && (id in t'.links ==> !q.closed)
    ensures Matches(t', id, Carry(t', id, q))
  {
    hide Queue.Inv, Queue.Close, Queue.Send, Queue.PumpOutbound, Queue.HandleFastPathClosed;
    if id !in t'.links {
      CloseDone(q);
      Order.NextKeepsInv(q, Queue.Closes);
    } else {
      Order.NextKeepsInv(q, Queue.Opens(t'.links[id].size));
    }
  }

  lemma FreshInv(born: Table.Born)
    ensures Queue.Inv(Fresh(born)) && !Fresh(born).closed
  {
    hide Queue.Inv;
    Order.NewLinkInv(Fresh(born).role, 0);
  }

  lemma CallbackKeepsInv(s: System, e: Table.Event)
    requires Inv(s)
    ensures Inv(Next(s, Callback(e)))
  {
    hide Table.Inv, Table.Next, Queue.Inv, Carry, Fresh;
    var t := Table.Next(s.table, e);
    Life.NextKeepsInv(s.table, e);
    NoLinkReturns(s.table, e);
    forall id | 0 <= id < |t.born| ensures Matches(t, id, QueueOf(s, t, id)) {
      if id < |s.queues| {
        assert Matches(s.table, id, s.queues[id]);
        CarryMatches(s.table, t, id, s.queues[id]);
      } else {
        FreshInv(t.born[id]);
        CarryMatches(s.table, t, id, Fresh(t.born[id]));
      }
    }
  }

  lemma NextKeepsInv(s: System, e: Event)
    requires Inv(s)
    ensures Inv(Next(s, e))
  {
    hide Table.Inv, Table.Next, Queue.Inv, Queue.Next;
    match e
    case Callback(event) => CallbackKeepsInv(s, event);
    case OnLink(id, event) =>
      if id < |s.queues| && OfQueue(event) {
        assert Matches(s.table, id, s.queues[id]);
        Order.NextKeepsInv(s.queues[id], event);
        QueueEventsKeepStatus(s.queues[id], event);
      }
  }

  lemma {:induction false} RunKeepsInv(s: System, events: seq<Event>)
    requires Inv(s)
    ensures Inv(Run(s, events))
    decreases |events|
  {
    hide Inv, Next;
    if events != [] {
      NextKeepsInv(s, events[0]);
      RunKeepsInv(Next(s, events[0]), events[1..]);
    }
  }

  lemma ReachableInv(events: seq<Event>)
    ensures Inv(Run(NEW_SYSTEM, events))
  {
    hide Run, Table.Inv;
    Life.ReachableInv([]);
    RunKeepsInv(NEW_SYSTEM, events);
  }

  // -- the main results ------------------------------------------------------

  /** Nothing waits on the GATT side of a closed queue, and its promises are settled or with its channel. */
  ghost predicate SettledDown(q: Queue.Link) {
    && q.closed && q.outbound == [] && q.reliableInFlight.None?
    && forall k: nat :: k < |q.sent| ==>
         L2CAP.Settled(q.settled, k) + L2CAP.Settled(q.channel.settled, k) + L2CAP.Held(Queue.InSession(q), k) == 1
  }

  lemma ClosedIsSettled(q: Queue.Link)
    requires Queue.Inv(q) && q.closed
    ensures SettledDown(q)
  {
    hide L2CAP.SessionInv, L2CAP.AllFramable, L2CAP.Settled, L2CAP.Unsettled, Queue.Ordered, Queue.Transmissions,
         Queue.InSession, Queue.QueuedSize;
    forall k: nat | k < |q.sent|
      ensures
        L2CAP.Settled(q.settled, k) + L2CAP.Settled(q.channel.settled, k) + L2CAP.Held(Queue.InSession(q), k) == 1
    {
      assert Queue.Promises(q, k) == 1;
      assert L2CAP.Held([], k) == 0;
    }
  }

  /**
    Over every interleaving of callbacks and traffic: the layer above was told once that a
    link ended exactly when the link's own queue is closed, and then every promise made on
    that link is settled once, or is with a channel that still owes its report.
   */
  lemma EndedLinkHasSettledItsQueue(events: seq<Event>, id: Table.LinkId)
    requires id < |Run(NEW_SYSTEM, events).queues|
    ensures
      var s := Run(NEW_SYSTEM, events);
      && (s.queues[id].closed <==> id !in s.table.links)
      && Life.Endings(s.table.trace, id) == (if s.queues[id].closed then 1 else 0)
      && (s.queues[id].closed ==> SettledDown(s.queues[id]))
  {
    hide Run, Queue.Inv, SettledDown, Life.Endings;
    ReachableInv(events);
    var s := Run(NEW_SYSTEM, events);
    assert Matches(s.table, id, s.queues[id]);
    if s.queues[id].closed { ClosedIsSettled(s.queues[id]); }
    EndingsTold(s.table, id);
  }

  lemma EndingsTold(t: Table.Table, id: Table.LinkId)
    requires Table.Inv(t) && id < |t.born|
    ensures Life.Endings(t.trace, id) == (if id in t.links then 0 else 1)
  {
    hide Table.Routed, Table.Recorded, Table.Answering, Table.Truthful, Life.Endings, Table.PhaseOf;
    assert Table.PhaseOf(t.trace, id) == Table.Standing(t, id);
    Life.GrammarCounts(t.trace, id);
  }

  /** Closing one link settles its own queue and leaves every other link's queue as it was. */
  lemma ClosingTouchesNoOtherQueue(s: System, id: Table.LinkId, other: Table.LinkId)
    requires Inv(s) && id < |s.queues| && other < |s.queues| && other != id
    ensures
      var s' := Next(s, Callback(Table.Requested(id)));
      && |s'.queues| == |s.queues| && s'.queues[other] == s.queues[other]
      && SettledDown(s'.queues[id])
  {
    hide Table.Inv, Queue.Inv, Queue.Close, SettledDown, Table.AnswerAll;
    var s' := Next(s, Callback(Table.Requested(id)));
    CallbackKeepsInv(s, Table.Requested(id));
    assert Matches(s.table, other, s.queues[other]) && Matches(s'.table, id, s'.queues[id]);
    CloseDone(s.queues[other]);
    ClosedIsSettled(s'.queues[id]);
  }

  /** Stopping settles the queue of every link ever made. */
  lemma StoppingSettlesEveryQueue(events: seq<Event>, order: seq<Table.LinkId>, id: Table.LinkId)
    requires Table.Covers(Run(NEW_SYSTEM, events).table, None, order)
    ensures
      var s := Next(Run(NEW_SYSTEM, events), Callback(Table.Stops(order)));
      id < |s.queues| ==> SettledDown(s.queues[id])
  {
    hide Run, Table.Inv, Queue.Inv, SettledDown, Table.CloseEach, Table.Covers, Carry, Fresh;
    ReachableInv(events);
    var s := Run(NEW_SYSTEM, events);
    CallbackKeepsInv(s, Table.Stops(order));
    var s' := Next(s, Callback(Table.Stops(order)));
    if id < |s'.queues| {
      assert Matches(s'.table, id, s'.queues[id]);
      ClosedIsSettled(s'.queues[id]);
    }
  }
}
