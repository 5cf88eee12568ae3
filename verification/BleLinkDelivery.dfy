/** What a Bluetooth link does with a datagram: success means it went out, and what can go out does. */
module BleLinkDelivery {
  import opened Wrappers
  import opened Bytes
  import opened BleFraming
  import opened BleL2CAP
  import opened BleLinkQueue
  import opened BleLinkOrder

  /** How often a datagram was handed to ATT or taken whole by a channel. */
  function GoneOut(l: Link, id: nat): nat {
    Held(l.before, id) + Held(l.channel.completed, id) + Held(l.after, id)
  }

  // -- success means it went out ---------------------------------------------

  ghost predicate SessionHonest(s: Session) {
    forall i :: 0 <= i < |s.settled| && s.settled[i].written ==> Held(s.completed, s.settled[i].id) > 0
  }

  /** An acknowledged write was handed over before its acknowledgement: what is in flight has gone out. */
  ghost predicate FlightOut(l: Link) {
    l.reliableInFlight.Some? ==> GoneOut(l, l.reliableInFlight.value.id) > 0
  }

  ghost predicate Honest(l: Link) {
    && SessionHonest(l.channel) && FlightOut(l)
    && forall i :: 0 <= i < |l.settled| && l.settled[i].written ==> GoneOut(l, l.settled[i].id) > 0
  }

  /** Nothing that went out is taken back, and each new success and each new flight went out. */
  ghost predicate Justified(l: Link, l': Link) {
    && (FlightOut(l) ==> FlightOut(l'))
    && (forall id: nat :: GoneOut(l', id) >= GoneOut(l, id))
    && l.settled <= l'.settled
    && forall i :: |l.settled| <= i < |l'.settled| && l'.settled[i].written ==> GoneOut(l', l'.settled[i].id) > 0
  }

  lemma JustifiedStays(l: Link, l': Link)
    requires Honest(l) && Justified(l, l') && SessionHonest(l'.channel)
    ensures Honest(l')
  {
    hide GoneOut;
    forall i | 0 <= i < |l'.settled| && l'.settled[i].written ensures GoneOut(l', l'.settled[i].id) > 0 {
      assert i < |l.settled| ==> l'.settled[i] == l.settled[i];
    }
  }

  lemma JustifiedTwice(l: Link, l1: Link, l2: Link)
    requires Justified(l, l1) && Justified(l1, l2)
    ensures Justified(l, l2)
  {
    hide GoneOut;
    forall i | |l.settled| <= i < |l2.settled| && l2.settled[i].written ensures GoneOut(l2, l2.settled[i].id) > 0 {
      assert i < |l1.settled| ==> l2.settled[i] == l1.settled[i];
    }
  }

  lemma FailureJustified(l: Link, item: Item)
    ensures Justified(l, Settle(l, item, false))
  {
  }

  lemma SameTraffic(l: Link, l': Link)
    requires l'.before == l.before && l'.after == l.after && l'.channel == l.channel && l'.settled == l.settled
    requires l'.reliableInFlight == l.reliableInFlight || l'.reliableInFlight.None?
    ensures Justified(l, l')
  {
  }

  lemma TakingGoesOut(l: Link, id: nat)
    requires l.outbound != []
    ensures GoneOut(TakeHead(l), id) == GoneOut(l, id) + Held([l.outbound[0]], id)
  {
    HeldAppend(l.before, [l.outbound[0]], id);
    HeldAppend(l.after, [l.outbound[0]], id);
  }

  lemma WritesJustified(l: Link)
    requires l.outbound != []
    ensures Justified(l, WriteNow(l)) && Justified(l, WriteReliable(l))
  {
    forall id: nat
      ensures GoneOut(WriteNow(l), id) == GoneOut(l, id) + Held([l.outbound[0]], id)
      ensures GoneOut(WriteReliable(l), id) == GoneOut(l, id) + Held([l.outbound[0]], id)
    {
      TakingGoesOut(l, id);
    }
    HeadHeld([l.outbound[0]], l.outbound[0].id);
  }

  lemma {:induction false} PumpsJustified(l: Link, credits: nat)
    ensures Justified(l, PumpCentral(l, credits)) && Justified(l, PumpPeripheral(l, credits))
    decreases |l.outbound|
  {
    hide WriteNow, WriteReliable, Justified;
    assert Justified(l, l) by { SameTraffic(l, l); }
    if l.outbound != [] {
      WritesJustified(l);
      PumpsJustified(WriteReliable(l), credits);
      JustifiedTwice(l, WriteReliable(l), PumpCentral(WriteReliable(l), credits));
      if credits > 0 {
        PumpsJustified(WriteNow(l), credits - 1);
        JustifiedTwice(l, WriteNow(l), PumpCentral(WriteNow(l), credits - 1));
        JustifiedTwice(l, WriteNow(l), PumpPeripheral(WriteNow(l), credits - 1));
      }
    }
  }

  lemma PumpJustified(l: Link, credits: nat)
    ensures Justified(l, PumpOutbound(l, credits)) && PumpOutbound(l, credits).channel == l.channel
  {
    hide Justified, PumpCentral, PumpPeripheral;
    PumpsJustified(l, credits);
    PumpsKeepChannel(l, credits);
    var l1 := if l.role == Central then PumpCentral(l, credits) else PumpPeripheral(l, credits);
    SameTraffic(l1, ActivatePendingFastPath(l1));
    JustifiedTwice(l, l1, ActivatePendingFastPath(l1));
  }

  lemma {:induction false} PumpsKeepChannel(l: Link, credits: nat)
    ensures PumpCentral(l, credits).channel == l.channel && PumpPeripheral(l, credits).channel == l.channel
    decreases |l.outbound|
  {
    if l.outbound != [] {
      PumpsKeepChannel(WriteReliable(l), credits);
      if credits > 0 { PumpsKeepChannel(WriteNow(l), credits - 1); }
    }
  }

  lemma {:induction false} FailuresJustified(l: Link, items: seq<Item>)
    ensures Justified(l, SettleAll(l, items)) && SettleAll(l, items).channel == l.channel
    decreases |items|
  {
    hide Justified;
    if items == [] {
      SameTraffic(l, l);
    } else {
      FailureJustified(l, items[0]);
      FailuresJustified(Settle(l, items[0], false), items[1..]);
      JustifiedTwice(l, Settle(l, items[0], false), SettleAll(l, items));
    }
  }

  lemma {:induction false} RequeueJustified(l: Link, unsent: seq<Item>)
    ensures Justified(l, Requeue(l, unsent)) && Requeue(l, unsent).channel == l.channel
    decreases |unsent|
  {
    hide Justified, FitsGatt;
    if unsent == [] {
      SameTraffic(l, l);
    } else {
      var last := unsent[|unsent| - 1];
      var l1 := RequeueOne(l, last);
      if FitsGatt(l, last) { SameTraffic(l, l1); } else { FailureJustified(l, last); }
      RequeueJustified(l1, unsent[..|unsent| - 1]);
      JustifiedTwice(l, l1, Requeue(l, unsent));
    }
  }

  // -- the channel -----------------------------------------------------------

  lemma CompletingIsHonest(s: Session)
    requires SessionHonest(s) && s.pending != []
    ensures SessionHonest(Complete(s))
    ensures forall id: nat :: Held(Complete(s).completed, id) >= Held(s.completed, id)
  {
    forall id: nat
      ensures Held(Complete(s).completed, id) == Held(s.completed, id) + if s.pending[0].id == id then 1 else 0
    {
      HeldAppend(s.completed, [s.pending[0]], id);
      HeadHeld([s.pending[0]], id);
    }
  }

  /** The session stays honest and takes nothing back. */
  ghost predicate HonestAfter(s: Session, s': Session) {
    SessionHonest(s') && forall id: nat :: Held(s'.completed, id) >= Held(s.completed, id)
  }

  lemma {:induction false} PumpIsHonest(s: Session, writes: seq<int>)
    requires SessionHonest(s)
    ensures HonestAfter(s, Pump(s, writes))
    decreases |s.pending|, s.canWrite
  {
    if !s.closed && s.canWrite && s.pending != [] {
      if Remaining(s) <= 0 {
        CompletingIsHonest(s);
        PumpIsHonest(Complete(s), writes);
      } else {
        var n := Answer(writes, Remaining(s));
        if n == Remaining(s) { CompletingIsHonest(Wrote(s, n)); }
        PumpIsHonest(WriteOnce(s, n), Tail(writes));
      }
    }
  }

  lemma ChannelIsHonest(s: Session, item: Item, writes: seq<int>)
    requires SessionHonest(s)
    ensures HonestAfter(s, Sending(s, item, writes)) && HonestAfter(s, SpaceAvailable(s, writes))
    ensures HonestAfter(s, Shutdown(s))
  {
    hide Pump;
    PumpIsHonest(Queued(s, item), writes);
    PumpIsHonest(s.(canWrite := true), writes);
  }

  lemma ChannelStepHonest(l: Link, s: Session)
    requires Honest(l) && HonestAfter(l.channel, s)
    ensures Honest(WithChannel(l, s))
  {
  }

  // -- every event -----------------------------------------------------------

  lemma PumpedHonest(l: Link, l1: Link, credits: nat)
    requires Honest(l) && Justified(l, l1) && l1.channel == l.channel
    ensures Honest(PumpOutbound(l1, credits))
  {
    hide Justified, PumpOutbound;
    JustifiedStays(l, l1);
    PumpJustified(l1, credits);
    JustifiedStays(l1, PumpOutbound(l1, credits));
  }

  lemma SendHonest(l: Link, data: seq<byte>, reliable: bool, credits: nat, writes: seq<int>)
    requires Honest(l)
    ensures Honest(Send(l, data, reliable, credits, writes))
  {
    hide PumpOutbound, Sending, SessionHonest, GoneOut;
    var item := Item(|l.sent|, data, reliable);
    var l1 := l.(sent := l.sent + [item]);
    SameTraffic(l, l1);
    JustifiedStays(l, l1);
    FailureJustified(l1, item);
    JustifiedStays(l1, Settle(l1, item, false));
    ChannelIsHonest(l.channel, item, writes);
    var l2 := l1.(fastPathInFlight := l.fastPathInFlight + 1);
    SameTraffic(l, l2);
    JustifiedStays(l, l2);
    ChannelStepHonest(l2, Sending(l.channel, item, writes));
    SameTraffic(l, Enqueued(l1, item));
    PumpedHonest(l, Enqueued(l1, item), credits);
  }

  lemma AcknowledgementHonest(l: Link, ok: bool, credits: nat)
    requires Honest(l)
    ensures Honest(DidWrite(l, ok, credits))
  {
    hide PumpOutbound, SessionHonest, GoneOut;
    var l0 := if l.reliableInFlight.Some? then Settle(l, l.reliableInFlight.value, ok) else l;
    var l1 := l0.(reliableInFlight := None);
    SameOut(l, l1);
    PumpedHonest(l, l1, credits);
  }

  lemma SameOut(l: Link, l': Link)
    requires l'.before == l.before && l'.after == l.after && l'.channel == l.channel
    ensures forall id: nat :: GoneOut(l', id) == GoneOut(l, id)
  {
  }

  lemma AdoptionHonest(l: Link, credits: nat)
    requires Honest(l)
    ensures Honest(Adopt(l, credits))
  {
    hide PumpOutbound;
    var l1 := Holding(l);
    forall id: nat ensures GoneOut(l1, id) == GoneOut(l, id) && GoneOut(l, id) >= Held(l.channel.completed, id) {
      HeldAppend(l.before + l.channel.completed, l.after, id);
      HeldAppend(l.before, l.channel.completed, id);
    }
    SameTraffic(l1, l1);
    PumpedHonest(l1, l1, credits);
  }

  lemma ReportHonest(l: Link, credits: nat)
    requires Honest(l)
    ensures Honest(HandleFastPathClosed(l, credits))
  {
    hide PumpOutbound, Requeue, SettleAll, SessionHonest, GoneOut, Justified;
    var unsent := l.channel.handedBack;
    SameTraffic(l, l.(owes := false));
    FailuresJustified(l.(owes := false), unsent);
    JustifiedStays(l, l.(owes := false));
    JustifiedStays(l.(owes := false), SettleAll(l.(owes := false), unsent));
    SameTraffic(l, Dropped(l));
    RequeueJustified(Dropped(l), unsent);
    JustifiedTwice(l, Dropped(l), Requeue(Dropped(l), unsent));
    PumpedHonest(l, Requeue(Dropped(l), unsent), credits);
  }

  lemma CloseHonest(l: Link)
    requires Honest(l)
    ensures Honest(Close(l))
  {
    hide SettleAll, SessionHonest, GoneOut, Justified;
    if !l.closed {
      var l1 := l.(connected := false, closed := true, hasL2cap := false, fastPath := Unavailable);
      SameTraffic(l, l1);
      var l2 := if l.reliableInFlight.Some? then Settle(l1, l.reliableInFlight.value, false) else l1;
      if l.reliableInFlight.Some? {
        FailureJustified(l1, l.reliableInFlight.value);
        JustifiedTwice(l, l1, l2);
      }
      var l3 := l2.(reliableInFlight := None, outbound := [], outboundBytes := 0);
      SameTraffic(l2, l3);
      JustifiedTwice(l, l2, l3);
      FailuresJustified(l3, l.outbound);
      JustifiedTwice(l, l3, Close(l));
      JustifiedStays(l, Close(l));
    }
  }

  lemma NextHonest(l: Link, e: Event)
    requires Honest(l)
    ensures Honest(Next(l, e))
  {
    hide Honest, Send, DidWrite, PumpOutbound, Adopt, HandleFastPathClosed, Close, Sending, SpaceAvailable, Shutdown,
         Justified, SessionHonest;
    match e
    case Sends(data, reliable, credits, writes) => SendHonest(l, data, reliable, credits, writes);
    case Acknowledged(ok, credits) => AcknowledgementHonest(l, ok, credits);
    case GattReady(credits) =>
      SameTraffic(l, l);
      PumpedHonest(l, l, credits);
    case ChannelOpens(credits) => AdoptionHonest(l, credits);
    case ChannelHasSpace(writes) => ChannelEventsHonest(l, writes);
    case ChannelDies => ChannelEventsHonest(l, []);
    case ChannelReports(credits) => ReportHonest(l, credits);
    case Closes => CloseHonest(l);
    case Opens(size) => StatusHonest(l, Next(l, e));
    case ResizesTo(size) => StatusHonest(l, Next(l, e));
    case UpgradeBegins => StatusHonest(l, Next(l, e));
    case Abandons => StatusHonest(l, Next(l, e));
    case SettlementArrives => StatusHonest(l, Next(l, e));
  }

  lemma StatusHonest(l: Link, l': Link)
    requires Honest(l) && l'.before == l.before && l'.after == l.after && l'.channel == l.channel
    requires l'.settled == l.settled && l'.reliableInFlight == l.reliableInFlight
    ensures Honest(l')
  {
    SameTraffic(l, l');
    JustifiedStays(l, l');
  }

  lemma ChannelEventsHonest(l: Link, writes: seq<int>)
    requires Honest(l)
    ensures Honest(WithChannel(l, SpaceAvailable(l.channel, writes))) && Honest(WithChannel(l, Shutdown(l.channel)))
  {
    hide SpaceAvailable, Shutdown, SessionHonest, Sending, GoneOut;
    ChannelIsHonest(l.channel, Item(0, [], false), writes);
    ChannelStepHonest(l, SpaceAvailable(l.channel, writes));
    ChannelStepHonest(l, Shutdown(l.channel));
  }

  lemma {:induction false} RunHonest(l: Link, events: seq<Event>)
    requires Honest(l)
    ensures Honest(Run(l, events))
    decreases |events|
  {
    hide Honest, Next;
    if events != [] {
      NextHonest(l, events[0]);
      RunHonest(Next(l, events[0]), events[1..]);
    }
  }

  /** A promise was settled with success, by the GATT side or by a channel. */
  ghost predicate Succeeded(l: Link, id: nat) {
    Settlement(id, true) in l.settled || Settlement(id, true) in l.channel.settled
  }

  /** After any run, what was reported as sent was given to the air, exactly once. */
  lemma SuccessMeansTransmitted(role: Role, size: nat, events: seq<Event>, id: nat)
    ensures var l := Run(NewLink(role, size), events);
            Succeeded(l, id) ==> Held(l.before, id) + Held(l.channel.completed, id) + Held(l.after, id) == 1
  {
    hide Run;
    RunHonest(NewLink(role, size), events);
    NeverTransmittedTwice(role, size, events, id);
  }
}
