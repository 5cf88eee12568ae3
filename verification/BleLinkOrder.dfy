/**
  What a Bluetooth link promises over every run: each datagram is settled exactly once,
  none is transmitted twice, and the peer sees a subsequence of what was sent.
 */
module BleLinkOrder {
  import opened Wrappers
  import opened Bytes
  import opened BleFraming
  import opened BleL2CAP
  import opened BleLinkQueue

  ghost predicate Sound(l: Link) {
    Consistent(l) && Ordered(l)
  }

  lemma Parts(l: Link)
    requires Inv(l)
    ensures Accounted(l) && Consistent(l) && Ordered(l)
  {
    hide Accounted, Consistent, Ordered;
  }

  // -- the GATT queue --------------------------------------------------------

  lemma HeadHeld(items: seq<Item>, id: nat)
    requires items != []
    ensures Held(items, id) == (if items[0].id == id then 1 else 0) + Held(items[1..], id)
  {
  }

  lemma TakeMovesHead(l: Link, id: nat)
    requires l.outbound != []
    ensures Promises(TakeHead(l), id) + Held([l.outbound[0]], id) == Promises(l, id)
    ensures Transmissions(TakeHead(l), id) == Transmissions(l, id)
  {
    HeldAppend(l.before, [l.outbound[0]], id);
    HeldAppend(l.after, [l.outbound[0]], id);
    HeadHeld(l.outbound, id);
    HeadHeld([l.outbound[0]], id);
  }

  lemma SettleAdds(l: Link, item: Item, ok: bool, id: nat)
    ensures Promises(Settle(l, item, ok), id) == Promises(l, id) + Held([item], id)
    ensures Transmissions(Settle(l, item, ok), id) == Transmissions(l, id)
  {
    SettledAppend(l.settled, Settlement(item.id, ok), id);
    HeadHeld([item], id);
  }

  lemma FlightAdds(l: Link, item: Item, id: nat)
    requires l.reliableInFlight.None?
    ensures Promises(l.(reliableInFlight := Some(item)), id) == Promises(l, id) + Held([item], id)
    ensures Transmissions(l.(reliableInFlight := Some(item)), id) == Transmissions(l, id)
  {
  }

  /** Handing the head over and settling it, or putting it in flight, moves one promise. */
  lemma TakeMoves(l: Link, ok: bool, id: nat)
    requires l.outbound != []
    ensures var l' := Settle(TakeHead(l), l.outbound[0], ok);
            Promises(l', id) == Promises(l, id) && Transmissions(l', id) == Transmissions(l, id)
    ensures l.reliableInFlight.None? ==>
              var l' := TakeHead(l).(reliableInFlight := Some(l.outbound[0]));
              Promises(l', id) == Promises(l, id) && Transmissions(l', id) == Transmissions(l, id)
  {
    hide Promises, Transmissions, Held;
    TakeMovesHead(l, id);
    SettleAdds(TakeHead(l), l.outbound[0], ok, id);
    if l.reliableInFlight.None? { FlightAdds(TakeHead(l), l.outbound[0], id); }
  }

  lemma TakeKeepsLine(l: Link)
    requires Consistent(l) && Ordered(l) && l.outbound != [] && !l.abandoned
    ensures Line(TakeHead(l)) == Line(l) && InSession(l) == []
  {
    hide SessionInv, AllFramable, Increasing, Genuine;
    if l.activated {
      assert !l.owes;
      assert l.after + [l.outbound[0]] + [] + l.outbound[1..] == l.after + [] + l.outbound;
    } else {
      assert l.before + [l.outbound[0]] + [] + [] + [] + l.outbound[1..] == l.before + [] + [] + [] + l.outbound;
    }
  }

  lemma TakeSound(l: Link, settled: seq<Settlement>, inFlight: Option<Item>)
    requires Consistent(l) && Ordered(l) && l.outbound != []
    ensures var l' := TakeHead(l).(settled := settled, reliableInFlight := inFlight);
            Sound(l') && l'.sent == l.sent
  {
    hide SessionInv, AllFramable, Increasing, Genuine;
    var l' := TakeHead(l).(settled := settled, reliableInFlight := inFlight);
    if !l.abandoned {
      TakeKeepsLine(l);
      assert Line(l') == Line(TakeHead(l));
    }
  }

  lemma WritesSound(l: Link)
    requires Consistent(l) && Ordered(l) && l.outbound != []
    ensures Sound(WriteNow(l)) && WriteNow(l).sent == l.sent
    ensures Sound(WriteReliable(l)) && WriteReliable(l).sent == l.sent
  {
    hide Consistent, Ordered;
    TakeSound(l, l.settled + [Settlement(l.outbound[0].id, true)], l.reliableInFlight);
    TakeSound(l, l.settled, Some(l.outbound[0]));
  }

  lemma {:induction false} PumpCentralKeeps(l: Link, credits: nat)
    requires Sound(l)
    ensures var l' := PumpCentral(l, credits);
            Sound(l') && l'.sent == l.sent
    decreases |l.outbound|
  {
    hide Consistent, Ordered, WriteReliable, WriteNow;
    if l.writable && l.outbound != [] {
      WritesSound(l);
      if l.outbound[0].reliable && l.reliableInFlight.None? {
        PumpCentralKeeps(WriteReliable(l), credits);
      } else if !l.outbound[0].reliable && credits > 0 {
        PumpCentralKeeps(WriteNow(l), credits - 1);
      }
    }
  }

  lemma {:induction false} PumpPeripheralKeeps(l: Link, credits: nat)
    requires Sound(l)
    ensures var l' := PumpPeripheral(l, credits);
            Sound(l') && l'.sent == l.sent
    decreases |l.outbound|
  {
    hide Consistent, Ordered, WriteNow;
    if l.writable && l.outbound != [] && credits > 0 {
      WritesSound(l);
      PumpPeripheralKeeps(WriteNow(l), credits - 1);
    }
  }

  lemma {:induction false} PumpsMove(l: Link, credits: nat, id: nat)
    ensures Promises(PumpCentral(l, credits), id) == Promises(l, id)
            && Transmissions(PumpCentral(l, credits), id) <= Transmissions(l, id)
    ensures Promises(PumpPeripheral(l, credits), id) == Promises(l, id)
            && Transmissions(PumpPeripheral(l, credits), id) <= Transmissions(l, id)
    decreases |l.outbound|
  {
    hide Promises, Transmissions;
    if l.outbound != [] {
      TakeMoves(l, true, id);
      if l.reliableInFlight.None? { PumpsMove(TakeHead(l).(reliableInFlight := Some(l.outbound[0])), credits, id); }
      if credits > 0 { PumpsMove(Settle(TakeHead(l), l.outbound[0], true), credits - 1, id); }
    }
  }

  lemma ActivateKeeps(l: Link)
    requires Consistent(l) && Ordered(l) && l.outbound == [] && l.reliableInFlight.None?
    ensures Sound(ActivatePendingFastPath(l))
  {
    hide SessionInv, AllFramable, Increasing, Genuine;
    assert Line(ActivatePendingFastPath(l)) == Line(l);
  }

  /** The fast path takes over only behind everything GATT was given. */
  lemma PumpKeepsSound(l: Link, credits: nat)
    requires Consistent(l) && Ordered(l)
    ensures Sound(PumpOutbound(l, credits)) && PumpOutbound(l, credits).sent == l.sent
  {
    hide Consistent, Ordered;
    PumpCentralKeeps(l, credits);
    PumpPeripheralKeeps(l, credits);
    var l1 := if l.role == Central then PumpCentral(l, credits) else PumpPeripheral(l, credits);
    if l1.outbound == [] && l1.reliableInFlight.None? { ActivateKeeps(l1); }
  }

  lemma PumpKeepsInv(l: Link, credits: nat)
    requires Accounted(l) && Consistent(l) && Ordered(l)
    ensures Inv(PumpOutbound(l, credits))
  {
    hide Consistent, Ordered;
    PumpKeepsSound(l, credits);
    var l' := PumpOutbound(l, credits);
    forall id: nat ensures Promises(l', id) == Promises(l, id) && Transmissions(l', id) <= Transmissions(l, id) {
      PumpsMove(l, credits, id);
    }
  }

  // -- sending ---------------------------------------------------------------

  lemma SettleAccounted(l: Link, item: Item, ok: bool)
    requires Accounted(l) && item.id == |l.sent|
    ensures Accounted(Settle(l.(sent := l.sent + [item]), item, ok))
  {
    var l' := Settle(l.(sent := l.sent + [item]), item, ok);
    forall id: nat
      ensures Promises(l', id) == Promises(l, id) + (if id == item.id then 1 else 0)
          && Transmissions(l', id) == Transmissions(l, id)
    {
      SettledAppend(l.settled, Settlement(item.id, ok), id);
    }
  }

  /** A new datagram goes behind everything there is. */
  lemma LineGrows(l: Link, l': Link, item: Item)
    requires Increasing(Line(l)) && Genuine(l.sent, Line(l))
    requires item.id == |l.sent| && l'.sent == l.sent + [item]
    requires Line(l') == Line(l) || Line(l') == Line(l) + [item]
    ensures Increasing(Line(l')) && Genuine(l'.sent, Line(l'))
  {
  }

  lemma RefusedKeepsInv(l: Link, item: Item)
    requires Accounted(l) && Consistent(l) && Ordered(l) && item.id == |l.sent|
    ensures Inv(Settle(l.(sent := l.sent + [item]), item, false))
  {
    hide SessionInv, AllFramable, Increasing, Genuine;
    SettleAccounted(l, item, false);
    var l' := Settle(l.(sent := l.sent + [item]), item, false);
    if !l.abandoned { LineGrows(l, l', item); }
  }

  lemma EnqueuedKeepsInv(l: Link, item: Item)
    requires Accounted(l) && Consistent(l) && Ordered(l) && item.id == |l.sent| && !l.closed
        && !(l.fastPath == Active && l.hasL2cap)
    requires |l.outbound| < MAX_QUEUED_DATAGRAMS && l.outboundBytes + |item.data| <= MAX_GATT_QUEUED_BYTES
    ensures Inv(Enqueued(l.(sent := l.sent + [item]), item))
  {
    hide SessionInv, AllFramable, Increasing, Genuine;
    var l' := Enqueued(l.(sent := l.sent + [item]), item);
    QueuedSizeAppend(l.outbound, item);
    forall id: nat
      ensures Promises(l', id) == Promises(l, id) + (if id == item.id then 1 else 0)
              && Transmissions(l', id) == Transmissions(l, id) + (if id == item.id then 1 else 0)
    {
      HeldAppend(l.outbound, [item], id);
      HeadHeld([item], id);
    }
    if !l.abandoned {
      assert Line(l') == Line(l) + [item];
      LineGrows(l, l', item);
    }
  }

  lemma QueuedSizeAppend(items: seq<Item>, item: Item)
    ensures QueuedSize(items + [item]) == QueuedSize(items) + |item.data|
  {
    if items == [] {
      assert items + [item] == [item];
    } else {
      QueuedSizeAppend(items[1..], item);
      assert (items + [item])[1..] == items[1..] + [item];
    }
  }

  /** A channel step that keeps the order of what it holds keeps the link's line. */
  lemma LineOfChannel(l: Link, s: Session, more: seq<Item>)
    requires l.owes && l.activated && l.after == [] && l.outbound == []
    requires s.completed + Unsettled(s) == l.channel.completed + Unsettled(l.channel) + more
    ensures Line(l.(channel := s)) == Line(l) + more
  {
    var a, b := l.channel.completed, Unsettled(l.channel);
    assert Line(l) == l.before + (a + b);
    assert Line(l.(channel := s)) == l.before + (s.completed + Unsettled(s));
  }

  /** How a channel step moves promises and transmissions. */
  lemma ChannelAccounts(l: Link, s: Session, added: nat, id: nat)
    requires l.owes
    requires Promised(s, id) == Promised(l.channel, id) + added
    requires Held(s.completed + Unsettled(s), id) <= Held(l.channel.completed + Unsettled(l.channel), id) + added
    ensures Promises(WithChannel(l, s), id) == Promises(l, id) + added
    ensures Transmissions(WithChannel(l, s), id) <= Transmissions(l, id) + added
  {
    HeldAppend(s.completed, Unsettled(s), id);
    HeldAppend(l.channel.completed, Unsettled(l.channel), id);
  }

  lemma SentChangesNothing(l: Link, l1: Link, id: nat)
    requires l1 == l.(sent := l1.sent, fastPathInFlight := l1.fastPathInFlight)
    ensures Promises(l1, id) == Promises(l, id) && Transmissions(l1, id) == Transmissions(l, id)
  {
  }

  lemma FramableGrows(items: seq<Item>, item: Item)
    requires AllFramable(items) && Framable(item.data, MAX_DATAGRAM_SIZE)
    ensures AllFramable(items + [item])
  {
  }

  lemma SendOnFastPathKeepsInv(l: Link, item: Item, writes: seq<int>)
    requires Inv(l) && item.id == |l.sent| && l.fastPath == Active && l.hasL2cap
    requires Framable(item.data, MAX_DATAGRAM_SIZE)
    ensures Inv(WithChannel(l.(sent := l.sent + [item], fastPathInFlight := l.fastPathInFlight + 1),
                            Sending(l.channel, item, writes)))
  {
    hide SessionInv, AllFramable, Increasing, Genuine, Promises, Transmissions, Sending;
    var s := Sending(l.channel, item, writes);
    var l1 := l.(sent := l.sent + [item], fastPathInFlight := l.fastPathInFlight + 1);
    var l' := WithChannel(l1, s);
    SendKeepsInv(l.channel, item, writes);
    SendKeepsPromises(l.channel, item, writes, 0);
    forall id: nat
      ensures Promises(l', id) == Promises(l, id) + (if id == item.id then 1 else 0)
              && Transmissions(l', id) <= Transmissions(l, id) + (if id == item.id then 1 else 0)
    {
      SendKeepsPromises(l.channel, item, writes, id);
      HeldAppend(l.channel.completed + Unsettled(l.channel), [item], id);
      HeadHeld([item], id);
      ChannelAccounts(l1, s, if id == item.id then 1 else 0, id);
      SentChangesNothing(l, l1, id);
    }
    FramableGrows(l.channel.completed + Unsettled(l.channel), item);
    if !l.abandoned {
      var taken := s.completed + Unsettled(s) == l.channel.completed + Unsettled(l.channel) + [item];
      LineOfChannel(l, s, if taken then [item] else []);
      assert Line(l') == Line(l.(channel := s));
      LineGrows(l, l', item);
    }
  }

  lemma SendKeepsInvariant(l: Link, data: seq<byte>, reliable: bool, credits: nat, writes: seq<int>)
    requires Accounted(l) && Consistent(l) && Ordered(l)
    ensures Inv(Send(l, data, reliable, credits, writes))
  {
    hide SessionInv, AllFramable, Increasing, Genuine;
    var item := Item(|l.sent|, data, reliable);
    if l.closed || !l.connected || data == [] || |data| > CurrentDatagramSize(l) {
      RefusedKeepsInv(l, item);
    } else if l.fastPath == Active && l.hasL2cap {
      SendOnFastPathKeepsInv(l, item, writes);
    } else if |l.outbound| >= MAX_QUEUED_DATAGRAMS || l.outboundBytes + |data| > MAX_GATT_QUEUED_BYTES {
      RefusedKeepsInv(l, item);
    } else {
      var l1 := Enqueued(l.(sent := l.sent + [item]), item);
      EnqueuedKeepsInv(l, item);
      PumpKeepsInv(l1, credits);
    }
  }

  // -- the channel -----------------------------------------------------------

  /** The channel moves on by itself, or dies: nothing is added and order stays. */
  lemma ChannelStepKeepsInv(l: Link, s: Session)
    requires Inv(l) && l.owes && SessionInv(s)
    requires s.completed + Unsettled(s) == l.channel.completed + Unsettled(l.channel)
    requires |s.settled| + |Unsettled(s)| == |l.channel.settled| + |Unsettled(l.channel)|
    requires |l.channel.completed| <= |s.completed| && s.refused == l.channel.refused
    requires forall id: nat :: Promised(s, id) == Promised(l.channel, id)
    ensures Inv(WithChannel(l, s))
  {
    hide SessionInv, AllFramable, Increasing, Genuine;
    var l' := WithChannel(l, s);
    forall id: nat ensures Promises(l', id) == Promises(l, id) && Transmissions(l', id) <= Transmissions(l, id) {
      ChannelAccounts(l, s, 0, id);
    }
    if !l.activated {
      assert s.completed + Unsettled(s) == [];
    }
    if !l.abandoned {
      if l.activated {
        LineOfChannel(l, s, []);
      }
      assert Line(l') == Line(l);
    }
  }

  lemma ChannelEventsKeepInv(l: Link, writes: seq<int>)
    requires Inv(l) && l.owes
    ensures Inv(WithChannel(l, SpaceAvailable(l.channel, writes))) && Inv(WithChannel(l, Shutdown(l.channel)))
  {
    OthersKeepInv(l.channel, writes);
    SpaceAvailableCompletes(l.channel, writes);
    forall id: nat
      ensures Promised(SpaceAvailable(l.channel, writes), id) == Promised(l.channel, id)
      ensures Promised(Shutdown(l.channel), id) == Promised(l.channel, id)
      ensures PromiseCount(SpaceAvailable(l.channel, writes)) == PromiseCount(l.channel)
      ensures PromiseCount(Shutdown(l.channel)) == PromiseCount(l.channel)
    {
      OthersKeepPromises(l.channel, writes, id);
    }
    OthersKeepPromises(l.channel, writes, 0);
    ChannelStepKeepsInv(l, SpaceAvailable(l.channel, writes));
    ChannelStepKeepsInv(l, Shutdown(l.channel));
  }

  lemma SpaceAvailableCompletes(s: Session, writes: seq<int>)
    requires SessionInv(s)
    ensures |s.completed| <= |SpaceAvailable(s, writes).completed|
  {
    if !s.closed {
      assert SessionInv(s.(canWrite := true));
      BleL2CAP.PumpKeepsInv(s.(canWrite := true), writes);
    }
  }

  /** Hearing of a settlement changes what the link has counted and nothing else. */
  lemma HearingKeepsInv(l: Link)
    requires Inv(l)
    ensures Inv(HearSettlement(l))
  {
    hide Consistent, Promises, Transmissions, Line, Increasing, Genuine, HearSettlement;
    var l' := HearSettlement(l);
    HearingCounts(l);
    SameFlowSame(l, l', 0);
    forall id: nat ensures Promises(l', id) == Promises(l, id) && Transmissions(l', id) == Transmissions(l, id) {
      SameFlowSame(l, l', id);
    }
  }

  lemma HearingCounts(l: Link)
    requires Consistent(l)
    ensures Consistent(HearSettlement(l)) && SameFlow(l, HearSettlement(l))
    ensures var l' := HearSettlement(l);
            l' == l.(told := l'.told, fastPathInFlight := l'.fastPathInFlight)
  {
    hide SessionInv, AllFramable, QueuedSize, Unsettled;
  }

  // -- the way back ----------------------------------------------------------

  /** `kept` is what is left of `items` after dropping some of them. */
  ghost predicate Subsequence(kept: seq<Item>, items: seq<Item>)
    decreases |items|
  {
    if items == [] then kept == []
    else if kept != [] && kept[|kept| - 1] == items[|items| - 1]
        && Subsequence(kept[..|kept| - 1], items[..|items| - 1]) then true
    else Subsequence(kept, items[..|items| - 1])
  }

  lemma {:induction false} SubsequenceIsPart(kept: seq<Item>, items: seq<Item>)
    requires Subsequence(kept, items) && Increasing(items)
    ensures Increasing(kept)
    ensures forall i :: 0 <= i < |kept| ==> kept[i] in items
    ensures |kept| <= |items|
    decreases |items|
  {
    if items != [] {
      var last := |items| - 1;
      if kept != [] && kept[|kept| - 1] == items[last] && Subsequence(kept[..|kept| - 1], items[..last]) {
        SubsequenceIsPart(kept[..|kept| - 1], items[..last]);
      } else {
        SubsequenceIsPart(kept, items[..last]);
      }
    }
  }

  ghost predicate SameButQueue(l: Link, l': Link) {
    l' == l.(outbound := l'.outbound, outboundBytes := l'.outboundBytes, settled := l'.settled)
  }

  lemma {:induction false} RequeueFrame(l: Link, unsent: seq<Item>)
    ensures SameButQueue(l, Requeue(l, unsent))
    decreases |unsent|
  {
    hide FitsGatt;
    if unsent != [] {
      var last := unsent[|unsent| - 1];
      hide RequeueOne;
      RequeueOneFrame(l, last);
      RequeueFrame(RequeueOne(l, last), unsent[..|unsent| - 1]);
    }
  }

  lemma RequeueOneFrame(l: Link, item: Item)
    ensures SameButQueue(l, RequeueOne(l, item))
  {
    hide FitsGatt;
    if FitsGatt(l, item) {
      assert SameButQueue(l, PutBack(l, item));
    } else {
      assert SameButQueue(l, Settle(l, item, false));
    }
  }

  ghost predicate QueueFits(l: Link) {
    l.outboundBytes == QueuedSize(l.outbound)
    && |l.outbound| <= MAX_QUEUED_DATAGRAMS && l.outboundBytes <= MAX_GATT_QUEUED_BYTES
  }

  lemma RequeueOneFits(l: Link, item: Item)
    requires QueueFits(l)
    ensures QueueFits(RequeueOne(l, item))
    ensures RequeueOne(l, item).outbound == (if FitsGatt(l, item) then [item] + l.outbound else l.outbound)
  {
    if FitsGatt(l, item) { assert ([item] + l.outbound)[1..] == l.outbound; }
  }

  /**
    Requeueing puts a subsequence of the handed-back items in front of what was queued, in
    their order, and fits the queue's limits.
   */
  lemma {:induction false} RequeueKeeps(l: Link, unsent: seq<Item>) returns (kept: seq<Item>)
    requires QueueFits(l)
    ensures QueueFits(Requeue(l, unsent))
    ensures Requeue(l, unsent).outbound == kept + l.outbound && Subsequence(kept, unsent)
    decreases |unsent|
  {
    hide RequeueOne, QueueFits, FitsGatt;
    if unsent == [] {
      kept := [];
      assert [] + l.outbound == l.outbound;
    } else {
      var last := unsent[|unsent| - 1];
      RequeueOneFits(l, last);
      kept := RequeueKeeps(RequeueOne(l, last), unsent[..|unsent| - 1]);
      if FitsGatt(l, last) {
        Regroup(kept, last, l.outbound);
        kept := kept + [last];
      }
    }
  }

  lemma Regroup(a: seq<Item>, x: Item, b: seq<Item>)
    ensures a + ([x] + b) == (a + [x]) + b && (a + [x])[..|a|] == a
  {
  }

  lemma RequeueOnePromises(l: Link, item: Item, id: nat)
    ensures var add := if item.id == id then 1 else 0;
            Promises(RequeueOne(l, item), id) == Promises(l, id) + add
            && Transmissions(RequeueOne(l, item), id) <= Transmissions(l, id) + add
  {
    hide FitsGatt;
    if FitsGatt(l, item) {
      HeldAppend([item], l.outbound, id);
      HeadHeld([item], id);
      assert PutBack(l, item).outbound == [item] + l.outbound;
    } else {
      SettledAppend(l.settled, Settlement(item.id, false), id);
    }
  }

  lemma {:induction false} RequeuePromises(l: Link, unsent: seq<Item>, id: nat)
    ensures Promises(Requeue(l, unsent), id) == Promises(l, id) + Held(unsent, id)
    ensures Transmissions(Requeue(l, unsent), id) <= Transmissions(l, id) + Held(unsent, id)
    decreases |unsent|
  {
    hide Promises, Transmissions, RequeueOne;
    if unsent != [] {
      var last := unsent[|unsent| - 1];
      var rest := unsent[..|unsent| - 1];
      assert unsent == rest + [last];
      HeldAppend(rest, [last], id);
      HeadHeld([last], id);
      RequeueOnePromises(l, last, id);
      RequeuePromises(RequeueOne(l, last), rest, id);
    }
  }

  lemma {:induction false} SettleAllPromises(l: Link, items: seq<Item>, id: nat)
    ensures var l' := SettleAll(l, items);
            l' == l.(settled := l'.settled)
            && Promises(l', id) == Promises(l, id) + Held(items, id) && Transmissions(l', id) == Transmissions(l, id)
    decreases |items|
  {
    if items != [] {
      SettledAppend(l.settled, Settlement(items[0].id, false), id);
      SettleAllPromises(Settle(l, items[0], false), items[1..], id);
    }
  }

  /** What the channel never wrote goes back in order, ahead of nothing else. */
  lemma RequeueKeepsOrder(l: Link, l': Link, kept: seq<Item>)
    requires Inv(l) && l.owes && !l.closed && !l.abandoned && l.channel.closed
    requires Subsequence(kept, l.channel.handedBack) && l'.outbound == kept + l.outbound
    requires l' == Dropped(l).(outbound := l'.outbound, outboundBytes := l'.outboundBytes, settled := l'.settled)
    ensures Ordered(l')
  {
    var unsent := l.channel.handedBack;
    var line, line' := Line(l), Line(l');
    var front := l.before + l.channel.completed + l.after;
    assert line == front + unsent + l.outbound;
    assert line' == front + kept + l.outbound by {
      assert front + [] + (kept + l.outbound) == front + kept + l.outbound;
    }
    forall i, j | 0 <= i < j < |unsent| ensures unsent[i].id < unsent[j].id {
      assert line[|front| + i] == unsent[i] && line[|front| + j] == unsent[j];
    }
    SubsequenceIsPart(kept, unsent);
    PartKeepsOrder(l, front, unsent, kept, l.outbound);
  }

  lemma PartKeepsOrder(l: Link, front: seq<Item>, items: seq<Item>, kept: seq<Item>, back: seq<Item>)
    requires Increasing(front + items + back) && Genuine(l.sent, front + items + back)
    requires Increasing(kept) && forall i :: 0 <= i < |kept| ==> kept[i] in items
    ensures Increasing(front + kept + back) && Genuine(l.sent, front + kept + back)
  {
    var line := front + items + back;
    var line' := front + kept + back;
    forall i | 0 <= i < |line'|
      ensures line'[i] in line && (i < |front| ==> line'[i] == line[i])
      ensures |front| <= i < |front| + |kept| ==> line'[i] in items
      ensures i >= |front| + |kept| ==> line'[i] == line[i - |kept| + |items|]
    {
      if |front| <= i < |front| + |kept| {
        assert line'[i] == kept[i - |front|];
        var k :| 0 <= k < |items| && items[k] == line'[i];
        assert line[|front| + k] == items[k];
      }
    }
    forall i, j | 0 <= i < j < |line'| ensures line'[i].id < line'[j].id {
      var a := PlaceIn(front, items, kept, back, i);
      var b := PlaceIn(front, items, kept, back, j);
      if |front| <= i && j < |front| + |kept| {
        assert line'[i] == kept[i - |front|] && line'[j] == kept[j - |front|];
      } else {
        assert a < b;
      }
    }
  }

  /** Where an element of the shortened line stands in the full one. */
  lemma PlaceIn(front: seq<Item>, items: seq<Item>, kept: seq<Item>, back: seq<Item>, i: nat) returns (a: nat)
    requires i < |front + kept + back| && forall k :: 0 <= k < |kept| ==> kept[k] in items
    ensures a < |front + items + back| && (front + items + back)[a] == (front + kept + back)[i]
    ensures i < |front| ==> a == i
    ensures |front| <= i < |front| + |kept| ==> |front| <= a < |front| + |items|
    ensures i >= |front| + |kept| ==> a == i - |kept| + |items|
  {
    if i < |front| {
      a := i;
    } else if i < |front| + |kept| {
      assert (front + kept + back)[i] == kept[i - |front|];
      var k :| 0 <= k < |items| && items[k] == kept[i - |front|];
      a := |front| + k;
    } else {
      a := i - |kept| + |items|;
    }
  }

  /** Dropping a middle part of the line keeps the rest in order. */
  lemma DropKeepsOrder(l: Link, l': Link, front: seq<Item>, dropped: seq<Item>, back: seq<Item>)
    requires Increasing(Line(l)) && Genuine(l.sent, Line(l)) && l'.sent == l.sent
    requires Line(l) == front + dropped + back && Line(l') == front + [] + back
    ensures Increasing(Line(l')) && Genuine(l'.sent, Line(l'))
  {
    PartKeepsOrder(l, front, dropped, [], back);
  }

  /** What the session reports back is what it held. */
  lemma ReportReleases(l: Link, l2: Link, id: nat)
    requires l.owes && l.channel.closed
    requires l2 == Dropped(l) || l2 == l.(owes := false)
    ensures Promises(l2, id) + Held(l.channel.handedBack, id) == Promises(l, id)
    ensures Transmissions(l2, id) + Held(l.channel.handedBack, id) == Transmissions(l, id)
  {
  }

  lemma ReportAfterClose(l: Link)
    requires Inv(l) && l.owes && l.channel.closed && l.closed
    ensures Inv(HandleFastPathClosed(l, 0))
  {
    hide SessionInv, AllFramable, Increasing, Genuine, Promises, Transmissions;
    var unsent := l.channel.handedBack;
    var l1 := l.(owes := false);
    var l' := SettleAll(l1, unsent);
    forall id: nat
      ensures Promises(l', id) == Promises(l, id) && Transmissions(l', id) <= Transmissions(l, id)
      ensures l' == l1.(settled := l'.settled)
    {
      SettleAllPromises(l1, unsent, id);
      ReportReleases(l, l1, id);
    }
    SettleAllPromises(l1, unsent, 0);
    if !l.abandoned {
      var front := l.before + l.channel.completed + l.after;
      assert Line(l') == front + [] + l.outbound;
      DropKeepsOrder(l, l', front, unsent, l.outbound);
    }
  }

  lemma ReportKeepsInv(l: Link, credits: nat)
    requires Inv(l) && l.owes && l.channel.closed
    ensures Inv(HandleFastPathClosed(l, credits))
  {
    hide SessionInv, AllFramable, Increasing, Genuine, Line, Promises, Transmissions;
    if l.closed {
      ReportAfterClose(l);
    } else {
      var unsent := l.channel.handedBack;
      var l2 := Dropped(l);
      var l3 := Requeue(l2, unsent);
      RequeueFrame(l2, unsent);
      var kept := RequeueKeeps(l2, unsent);
      forall id: nat ensures Promises(l3, id) == Promises(l, id) && Transmissions(l3, id) <= Transmissions(l, id) {
        ReportReleases(l, l2, id);
        RequeuePromises(l2, unsent, id);
      }
      if !l.abandoned { RequeueKeepsOrder(l, l3, kept); }
      PumpKeepsInv(l3, credits);
    }
  }

  // -- closing, and every event ----------------------------------------------

  lemma CloseSettles(l: Link, id: nat)
    requires !l.closed
    ensures Promises(Close(l), id) == Promises(l, id) && Transmissions(Close(l), id) <= Transmissions(l, id)
    ensures Close(l) == l.(connected := false, closed := true, hasL2cap := false, fastPath := Unavailable,
                           reliableInFlight := None, outbound := [], outboundBytes := 0, settled := Close(l).settled)
  {
    var l1 := l.(connected := false, closed := true, hasL2cap := false, fastPath := Unavailable);
    var l2 := if l.reliableInFlight.Some? then Settle(l1, l.reliableInFlight.value, false) else l1;
    var l3 := l2.(reliableInFlight := None, outbound := [], outboundBytes := 0);
    SettleAllPromises(l3, l.outbound, id);
    if l.reliableInFlight.Some? {
      SettledAppend(l.settled, Settlement(l.reliableInFlight.value.id, false), id);
      HeadHeld(InFlight(l), id);
    }
  }

  lemma CloseKeepsInv(l: Link)
    requires Accounted(l) && Consistent(l) && Ordered(l)
    ensures Inv(Close(l))
  {
    hide SessionInv, AllFramable, Increasing, Genuine, Promises, Transmissions;
    if !l.closed {
      var l' := Close(l);
      CloseSettles(l, 0);
      forall id: nat ensures Promises(l', id) == Promises(l, id) && Transmissions(l', id) <= Transmissions(l, id) {
        CloseSettles(l, id);
      }
      if !l.abandoned {
        var front := l.before + l.channel.completed + l.after + InSession(l);
        assert Line(l) == front + l.outbound + [];
        assert Line(l') == front + [] + [];
        DropKeepsOrder(l, l', front, l.outbound, []);
      }
    }
  }

  lemma DidWriteKeepsInv(l: Link, ok: bool, credits: nat)
    requires Accounted(l) && Consistent(l) && Ordered(l) && !l.closed
    ensures Inv(DidWrite(l, ok, credits))
  {
    hide SessionInv, AllFramable, Increasing, Genuine;
    var l0 := if l.reliableInFlight.Some? then Settle(l, l.reliableInFlight.value, ok) else l;
    var l1 := l0.(reliableInFlight := None);
    forall id: nat ensures Promises(l1, id) == Promises(l, id) && Transmissions(l1, id) <= Transmissions(l, id) {
      if l.reliableInFlight.Some? {
        SettledAppend(l.settled, Settlement(l.reliableInFlight.value.id, ok), id);
        HeadHeld(InFlight(l), id);
      }
    }
    assert Line(l1) == Line(l);
    PumpKeepsInv(l1, credits);
  }

  lemma AdoptedKeepsInv(l: Link)
    requires Inv(l)
    ensures !l.closed && !l.owes ==> Inv(Holding(l))
  {
    hide SessionInv, AllFramable, Increasing, Genuine;
    if !l.closed && !l.owes {
      var l1 := Holding(l);
      NewSessionSound();
      assert InSession(l1) == [] && Line(l1) == Line(l);
      forall id: nat ensures Promises(l1, id) == Promises(l, id) && Transmissions(l1, id) == Transmissions(l, id) {
        RetiringMovesNothing(l, id);
      }
    }
  }

  lemma RetiringMovesNothing(l: Link, id: nat)
    requires !l.owes
    ensures Promises(Holding(l), id) == Promises(l, id) && Transmissions(Holding(l), id) == Transmissions(l, id)
  {
    SettledConcat(l.settled, l.channel.settled, id);
    HeldAppend(l.before + l.channel.completed, l.after, id);
    HeldAppend(l.before, l.channel.completed, id);
  }

  lemma {:induction false} SettledConcat(a: seq<Settlement>, b: seq<Settlement>, id: nat)
    ensures Settled(a + b, id) == Settled(a, id) + Settled(b, id)
    decreases |a|
  {
    if a == [] {
      assert a + b == b;
    } else {
      SettledConcat(a[1..], b, id);
      assert (a + b)[1..] == a[1..] + b;
    }
  }

  lemma NewSessionSound()
    ensures SessionInv(NEW_SESSION) && Unsettled(NEW_SESSION) == [] && PromiseCount(NEW_SESSION) == 0
    ensures AllFramable(NEW_SESSION.completed + Unsettled(NEW_SESSION))
  {
    hide SessionInv;
    UnusedSession(NEW_SESSION);
  }

  lemma UnusedSession(s: Session)
    requires s.pending == [] && s.writeOffset == 0 && s.queuedBytes == 0 && !s.canWrite && !s.closed
    requires s.stream == [] && s.completed == [] && s.handedBack == [] && s.refused == 0
    ensures SessionInv(s) && Unsettled(s) == []
  {
    assert Data(s.completed) == [];
    FreshHead(s);
  }

  lemma AdoptKeepsInv(l: Link, credits: nat)
    requires Inv(l)
    ensures !l.closed && !l.owes ==> Inv(Adopt(l, credits))
  {
    hide Accounted, Consistent, Ordered, PumpOutbound;
    AdoptedKeepsInv(l);
    if !l.closed && !l.owes {
      PumpKeepsInv(Holding(l), credits);
    }
  }

  predicate Quiet(e: Event) {
    e.Opens? || e.ResizesTo? || e.UpgradeBegins? || e.Abandons?
  }

  /** Everything that says where datagrams are and what became of them. */
  ghost predicate SameFlow(l: Link, l': Link) {
    && l'.sent == l.sent && l'.before == l.before && l'.after == l.after && l'.settled == l.settled
    && l'.owes == l.owes && l'.channel == l.channel && l'.outbound == l.outbound
    && l'.reliableInFlight == l.reliableInFlight
  }

  lemma QuietEventsFlow(l: Link, e: Event)
    requires Quiet(e)
    ensures SameFlow(l, Next(l, e))
  {
    hide Send, DidWrite, PumpOutbound, Adopt, WithChannel, HandleFastPathClosed, Close;
    match e
    case Opens(size) =>
    case ResizesTo(size) =>
    case UpgradeBegins =>
    case Abandons =>
  }

  lemma SameFlowSame(l: Link, l': Link, id: nat)
    requires SameFlow(l, l')
    ensures Promises(l', id) == Promises(l, id) && Transmissions(l', id) == Transmissions(l, id)
    ensures Line(l') == Line(l) && InSession(l') == InSession(l)
  {
    hide Settled, Held, Unsettled;
  }

  lemma QuietEventsMove(l: Link, e: Event)
    requires Accounted(l) && Quiet(e)
    ensures Accounted(Next(l, e)) && Line(Next(l, e)) == Line(l) && InSession(Next(l, e)) == InSession(l)
  {
    hide Promises, Transmissions, Line, InSession, Next;
    var l' := Next(l, e);
    QuietEventsFlow(l, e);
    SameFlowSame(l, l', 0);
    forall id: nat ensures Promises(l', id) == Promises(l, id) && Transmissions(l', id) == Transmissions(l, id) {
      SameFlowSame(l, l', id);
    }
  }

  lemma QuietEventsConsistent(l: Link, e: Event)
    requires Consistent(l) && Quiet(e) && InSession(Next(l, e)) == InSession(l)
    ensures Consistent(Next(l, e))
  {
    hide SessionInv, AllFramable, QueuedSize, InSession, Send, DidWrite, PumpOutbound, Adopt, WithChannel,
         HandleFastPathClosed, Close;
  }

  lemma QuietEventsOrdered(l: Link, e: Event)
    requires Consistent(l) && Ordered(l) && Quiet(e) && Line(Next(l, e)) == Line(l)
    ensures Ordered(Next(l, e))
  {
    hide SessionInv, AllFramable, QueuedSize, InSession, Line, Increasing, Genuine, Send, DidWrite, PumpOutbound,
         Adopt, WithChannel, HandleFastPathClosed, Close;
  }

  /** Events that touch neither the queue nor the channel. */
  lemma QuietEventsKeepInv(l: Link, e: Event)
    requires Inv(l) && Quiet(e)
    ensures Inv(Next(l, e))
  {
    hide Accounted, Consistent, Ordered, Next;
    QuietEventsMove(l, e);
    QuietEventsConsistent(l, e);
    QuietEventsOrdered(l, e);
  }

  lemma NextKeepsInv(l: Link, e: Event)
    requires Inv(l)
    ensures Inv(Next(l, e))
  {
    hide Inv, Accounted, Consistent, Ordered;
    Parts(l);
    match e
    case Sends(data, reliable, credits, writes) => SendKeepsInvariant(l, data, reliable, credits, writes);
    case Acknowledged(ok, credits) => if !l.closed { DidWriteKeepsInv(l, ok, credits); }
    case GattReady(credits) => PumpKeepsInv(l, credits);
    case ChannelOpens(credits) => if !l.closed && !l.owes { AdoptKeepsInv(l, credits); }
    case ChannelHasSpace(writes) => if l.owes { ChannelEventsKeepInv(l, writes); }
    case ChannelDies => if l.owes { ChannelEventsKeepInv(l, []); }
    case SettlementArrives => HearingKeepsInv(l);
    case ChannelReports(credits) => if Reportable(l) { ReportKeepsInv(l, credits); }
    case Closes => CloseKeepsInv(l);
    case _ => QuietEventsKeepInv(l, e);
  }

  lemma {:induction false} RunKeepsInv(l: Link, events: seq<Event>)
    requires Inv(l)
    ensures Inv(Run(l, events))
    decreases |events|
  {
    hide Inv, Next;
    if events != [] {
      NextKeepsInv(l, events[0]);
      RunKeepsInv(Next(l, events[0]), events[1..]);
    }
  }

  // -- the main results ------------------------------------------------------

  lemma NewLinkInv(role: Role, size: nat)
    ensures Inv(NewLink(role, size))
  {
    hide SessionInv, AllFramable;
    var l := NewLink(role, size);
    NewSessionSound();
    assert Line(l) == [];
  }

  /** After any run every promise is settled exactly once or still held in exactly one place. */
  lemma SettledExactlyOnce(role: Role, size: nat, events: seq<Event>, id: nat)
    ensures var l := Run(NewLink(role, size), events);
            Settled(l.settled, id) + Settled(l.channel.settled, id)
            + Held(l.outbound, id) + Held(InFlight(l), id) + Held(InSession(l), id)
            == if id < |l.sent| then 1 else 0
  {
    hide Run, Consistent, Ordered;
    NewLinkInv(role, size);
    RunKeepsInv(NewLink(role, size), events);
    var l := Run(NewLink(role, size), events);
    assert Promises(l, id) == if id < |l.sent| then 1 else 0;
  }

  /** Once the link is closed and its channel has reported, every promise has been settled, exactly once. */
  lemma ClosingSettlesEverything(role: Role, size: nat, events: seq<Event>, id: nat)
    requires var l := Run(NewLink(role, size), events);
             l.closed && !l.owes && id < |l.sent|
    ensures var l := Run(NewLink(role, size), events);
            Settled(l.settled, id) + Settled(l.channel.settled, id) == 1
  {
    hide Run, Inv, Settled, Accounted, Consistent, Ordered;
    NewLinkInv(role, size);
    RunKeepsInv(NewLink(role, size), events);
    Parts(Run(NewLink(role, size), events));
    ClosedHoldsNothing(Run(NewLink(role, size), events), id);
  }

  lemma ClosedHoldsNothing(l: Link, id: nat)
    requires Accounted(l) && Consistent(l) && Ordered(l) && l.closed && !l.owes && id < |l.sent|
    ensures Settled(l.settled, id) + Settled(l.channel.settled, id) == 1
  {
    hide Ordered, SessionInv, AllFramable, Unsettled, Transmissions, Settled;
    assert Promises(l, id) == 1;
    assert Held([], id) == 0;
  }

  /**
    The counters after any run.  The bytes are exact and within their limits.  What the
    link believes to be in the channel is what is there, plus the settlements it has not
    heard of yet, plus the sends a dead channel turned away; its report clears the count.
   */
  lemma QueueCountersExact(role: Role, size: nat, events: seq<Event>)
    ensures var l := Run(NewLink(role, size), events);
            && l.outboundBytes == QueuedSize(l.outbound) <= MAX_GATT_QUEUED_BYTES
            && |l.outbound| <= MAX_QUEUED_DATAGRAMS
            && (l.owes ==>
                  && 0 <= l.told <= Announced(l.channel)
                  && l.fastPathInFlight == |InSession(l)| + (Announced(l.channel) - l.told) + l.channel.refused)
            && (!l.owes && !l.closed ==> l.fastPathInFlight == 0)
            && l.channel.queuedBytes == FramedBytes(l.channel.pending) - l.channel.writeOffset <= MAX_QUEUED_BYTES
  {
    hide Run, Inv, QueuedSize, FramedBytes, Unsettled, Accounted, Ordered, Consistent, SessionInv;
    NewLinkInv(role, size);
    RunKeepsInv(NewLink(role, size), events);
    var l := Run(NewLink(role, size), events);
    Parts(l);
    GattCounters(l);
    ChannelCounters(l.channel);
  }

  lemma GattCounters(l: Link)
    requires Consistent(l)
    ensures l.outboundBytes == QueuedSize(l.outbound) <= MAX_GATT_QUEUED_BYTES && |l.outbound| <= MAX_QUEUED_DATAGRAMS
    ensures l.owes ==> l.told <= Announced(l.channel) && l.fastPathInFlight == PromiseCount(l.channel) - l.told
    ensures !l.owes && !l.closed ==> l.fastPathInFlight == 0
    ensures SessionInv(l.channel)
  {
    hide QueuedSize, SessionInv, AllFramable, Unsettled;
  }

  lemma ChannelCounters(s: Session)
    requires SessionInv(s)
    ensures s.queuedBytes == FramedBytes(s.pending) - s.writeOffset <= MAX_QUEUED_BYTES
  {
    hide FramedBytes, StreamIs;
  }

  /** After any run no datagram was given to the air twice, by whichever path. */
  lemma NeverTransmittedTwice(role: Role, size: nat, events: seq<Event>, id: nat)
    ensures var l := Run(NewLink(role, size), events);
            Held(l.before, id) + Held(l.channel.completed, id) + Held(l.after, id) <= 1
  {
    hide Run, Consistent, Ordered;
    NewLinkInv(role, size);
    RunKeepsInv(NewLink(role, size), events);
    assert Transmissions(Run(NewLink(role, size), events), id) <= 1;
  }

  /**
    What the peer is given: what arrived of the datagrams from before the latest channel,
    whatever its un-framer makes of the first `k` bytes of that channel, and what arrived of
    the GATT datagrams after it.  ATT may lose any of them, acknowledged or not, and of an
    earlier channel any of what it took may have got through.
   */
  function PeerView(l: Link, early: seq<Item>, k: nat, late: seq<Item>): seq<seq<byte>>
    requires k <= |l.channel.stream|
  {
    Data(early) + Unframe(l.channel.stream[..k], MAX_DATAGRAM_SIZE).datagrams + Data(late)
  }

  /**
    A channel that dies by itself, at any byte, with any part of its stream delivered,
    costs neither order nor duplication: the peer sees a subsequence of what was sent.
   */
  lemma PeerSeesSubsequence(
      role: Role, size: nat, events: seq<Event>, early: seq<Item>, k: nat, late: seq<Item>) returns (seen: seq<Item>)
    requires var l := Run(NewLink(role, size), events);
             !l.abandoned && k <= |l.channel.stream| && Subsequence(early, l.before) && Subsequence(late, l.after)
    ensures var l := Run(NewLink(role, size), events);
            PeerView(l, early, k, late) == Data(seen) && Increasing(seen) && Genuine(l.sent, seen)
  {
    hide Run, Inv, PeerView, Accounted, Consistent, Ordered, Subsequence;
    NewLinkInv(role, size);
    RunKeepsInv(NewLink(role, size), events);
    Parts(Run(NewLink(role, size), events));
    seen := PeerSeesPart(Run(NewLink(role, size), events), early, k, late);
  }

  lemma PeerSeesPart(l: Link, early: seq<Item>, k: nat, late: seq<Item>) returns (seen: seq<Item>)
    requires Accounted(l) && Consistent(l) && Ordered(l) && !l.abandoned && k <= |l.channel.stream|
    requires Subsequence(early, l.before) && Subsequence(late, l.after)
    ensures PeerView(l, early, k, late) == Data(seen) && Increasing(seen) && Genuine(l.sent, seen)
  {
    hide Accounted, SessionInv, AllFramable, Unframe, Increasing, Genuine, Data, Subsequence;
    var m := PeerSurfacesOnlyCompleted(l.channel, k);
    var fast := l.channel.completed[..m];
    seen := early + fast + late;
    SeenKeepsOrder(l, early, m, late);
    DataOfThree(early, fast, late);
  }

  /** Thinning out each of the three stretches keeps what is left in order. */
  lemma SeenKeepsOrder(l: Link, early: seq<Item>, m: nat, late: seq<Item>)
    requires m <= |l.channel.completed| && Increasing(Line(l)) && Genuine(l.sent, Line(l))
    requires Subsequence(early, l.before) && Subsequence(late, l.after)
    ensures
      var seen := early + l.channel.completed[..m] + late;
      Increasing(seen) && Genuine(l.sent, seen)
  {
    hide Increasing, Genuine, InSession, Subsequence;
    var (a, b, c) := (l.before, l.channel.completed, l.after);
    var rest := InSession(l) + l.outbound;
    assert Line(l) == [] + a + (b + (c + rest));
    ThinnedKeepsOrder(l, [], a, early, b + (c + rest));
    assert [] + early + (b + (c + rest)) == early + b + (c + rest);
    MiddlePrefix(early, b, c + rest, m);
    PartKeepsOrder(l, early, b, b[..m], c + rest);
    assert early + b[..m] + (c + rest) == (early + b[..m]) + c + rest;
    ThinnedKeepsOrder(l, early + b[..m], c, late, rest);
    PrefixKeepsOrder(l, early + b[..m] + late, rest, (early + b[..m]) + late + rest);
  }

  lemma ThinnedKeepsOrder(l: Link, front: seq<Item>, items: seq<Item>, kept: seq<Item>, back: seq<Item>)
    requires Increasing(front + items + back) && Genuine(l.sent, front + items + back) && Subsequence(kept, items)
    ensures Increasing(front + kept + back) && Genuine(l.sent, front + kept + back)
  {
    hide Genuine, Subsequence;
    var line := front + items + back;
    forall i, j | 0 <= i < j < |items| ensures items[i].id < items[j].id {
      assert line[|front| + i] == items[i] && line[|front| + j] == items[j];
    }
    SubsequenceIsPart(kept, items);
    PartKeepsOrder(l, front, items, kept, back);
  }

  lemma DataOfThree(a: seq<Item>, b: seq<Item>, c: seq<Item>)
    ensures Data(a + b + c) == Data(a) + Data(b) + Data(c)
  {
  }

  lemma MiddlePrefix(front: seq<Item>, items: seq<Item>, back: seq<Item>, m: nat)
    requires Increasing(front + items + back) && m <= |items|
    ensures Increasing(items[..m]) && forall i :: 0 <= i < m ==> items[..m][i] in items
  {
    assert forall i :: 0 <= i < |items| ==> (front + items + back)[|front| + i] == items[i];
  }

  lemma PrefixKeepsOrder(l: Link, seen: seq<Item>, rest: seq<Item>, line: seq<Item>)
    requires line == seen + rest && Increasing(line) && Genuine(l.sent, line)
    ensures Increasing(seen) && Genuine(l.sent, seen)
  {
    assert forall i :: 0 <= i < |seen| ==> seen[i] == line[i];
  }
}
