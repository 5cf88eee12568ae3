/** One `BleLink` object with its queue pumped and refilled in place, each call refining BleLinkQueue. */
module BleLink {
  import opened Bytes
  import opened Wrappers
  import Framing = BleFraming
  import L2CAP = BleL2CAP
  import Spec = BleLinkQueue

  class BleLink {
    const role: Spec.Role
    var connected: bool
    var writable: bool
    var closed: bool
    var gattDatagramSize: nat
    var fastPath: Spec.FastPath
    var hasL2cap: bool
    var channel: L2CAP.Session
    ghost var told: nat
    var fastPathInFlight: int
    var outbound: seq<L2CAP.Item>
    var outboundBytes: int
    var reliableInFlight: Option<L2CAP.Item>
    var settled: seq<L2CAP.Settlement>
    ghost var activated: bool
    ghost var abandoned: bool
    ghost var owes: bool
    var sent: seq<L2CAP.Item>
    ghost var before: seq<L2CAP.Item>
    ghost var after: seq<L2CAP.Item>

    ghost function Now(): Spec.Link
      reads this
    {
      Spec.Link(role, connected, writable, closed, gattDatagramSize, fastPath, hasL2cap, activated, abandoned,
                owes, channel, told, fastPathInFlight, outbound, outboundBytes, reliableInFlight,
                sent, before, after, settled)
    }

    constructor (role: Spec.Role, gattDatagramSize: nat)
      ensures Now() == Spec.NewLink(role, gattDatagramSize)
    {
      this.role := role;
      this.gattDatagramSize := gattDatagramSize;
      connected, writable, closed, hasL2cap := false, false, false, false;
      fastPath, channel, fastPathInFlight := Spec.NoFastPath, L2CAP.NEW_SESSION, 0;
      outbound, outboundBytes, reliableInFlight, settled := [], 0, None, [];
      activated, abandoned, owes, told := false, false, false, 0;
      sent, before, after := [], [], [];
    }

    /** `BleOutboundDatagram.finish`. */
    method Finish(item: L2CAP.Item, ok: bool)
      modifies this
      ensures Now() == Spec.Settle(old(Now()), item, ok)
    {
      settled := settled + [L2CAP.Settlement(item.id, ok)];
    }

    /** Takes the head of the queue and hands it to ATT. */
    method WriteHead() returns (head: L2CAP.Item)
      requires outbound != []
      modifies this
      ensures head == old(outbound[0]) && Now() == Spec.TakeHead(old(Now()))
    {
      hide Spec.QueuedSize;
      head := outbound[0];
      RemoveFirst();
      if activated { after := after + [head]; } else { before := before + [head]; }
    }

    method RemoveFirst()
      requires outbound != []
      modifies this
      ensures Now() == old(Now()).(outbound := old(outbound)[1..],
                                   outboundBytes := old(outboundBytes) - |old(outbound)[0].data|)
    {
      outboundBytes := outboundBytes - |outbound[0].data|;
      outbound := outbound[1..];
    }

    method WriteWithResponse()
      requires outbound != []
      modifies this
      ensures Now() == Spec.WriteReliable(old(Now()))
    {
      hide Spec.TakeHead;
      var head := WriteHead();
      reliableInFlight := Some(head);
    }

    method WriteWithoutResponse()
      requires outbound != []
      modifies this
      ensures Now() == Spec.WriteNow(old(Now()))
    {
      hide Spec.TakeHead, Spec.Settle;
      var head := WriteHead();
      Finish(head, true);
    }

    method PumpCentralOutbound(credits: nat)
      modifies this
      ensures Now() == Spec.PumpCentral(old(Now()), credits)
    {
      hide Spec.WriteNow, Spec.WriteReliable;
      var left := credits;
      if !writable { return; }
      while outbound != []
        invariant writable && Spec.PumpCentral(Now(), left) == Spec.PumpCentral(old(Now()), credits)
        decreases |outbound|
      {
        if outbound[0].reliable {
          if reliableInFlight.Some? { return; }
          WriteWithResponse();
        } else {
          if left == 0 { return; }
          WriteWithoutResponse();
          left := left - 1;
        }
      }
    }

    method PumpPeripheralOutbound(credits: nat)
      modifies this
      ensures Now() == Spec.PumpPeripheral(old(Now()), credits)
    {
      hide Spec.WriteNow;
      var left := credits;
      if !writable { return; }
      while outbound != []
        invariant writable && Spec.PumpPeripheral(Now(), left) == Spec.PumpPeripheral(old(Now()), credits)
        decreases |outbound|
      {
        if left == 0 { return; }
        WriteWithoutResponse();
        left := left - 1;
      }
    }

    method ActivatePendingFastPath()
      modifies this
      ensures Now() == Spec.ActivatePendingFastPath(old(Now()))
    {
      if fastPath != Spec.Opening || !hasL2cap { return; }
      fastPath := Spec.Active;
      activated := true;
    }

    method PumpOutbound(credits: nat)
      modifies this
      ensures Now() == Spec.PumpOutbound(old(Now()), credits)
    {
      hide Spec.PumpCentral, Spec.PumpPeripheral, Spec.ActivatePendingFastPath;
      if role == Spec.Central { PumpCentralOutbound(credits); } else { PumpPeripheralOutbound(credits); }
      if fastPath == Spec.Opening && outbound == [] && reliableInFlight.None? { ActivatePendingFastPath(); }
    }

    method Send(data: seq<byte>, reliable: bool, credits: nat, writes: seq<int>)
      modifies this
      ensures Now() == Spec.Send(old(Now()), data, reliable, credits, writes)
    {
      hide Spec.PumpOutbound, L2CAP.Sending, Spec.WithChannel, Spec.Settle, Spec.Enqueued;
      var item := NextItem(data, reliable);
      var limit := CurrentDatagramSize();
      if closed || !connected || data == [] || |data| > limit {
        Finish(item, false);
        return;
      }
      if fastPath == Spec.Active && hasL2cap {
        fastPathInFlight := fastPathInFlight + 1;
        HandToChannel(item, writes);
        return;
      }
      if |outbound| >= Spec.MAX_QUEUED_DATAGRAMS || outboundBytes + |data| > Spec.MAX_GATT_QUEUED_BYTES {
        Finish(item, false);
        return;
      }
      Enqueue(item);
      PumpOutbound(credits);
    }

    function CurrentDatagramSize(): (size: nat)
      reads this
      ensures size == Spec.CurrentDatagramSize(Now())
    {
      if fastPath == Spec.Active then Framing.MAX_DATAGRAM_SIZE else gattDatagramSize
    }

    method Enqueue(item: L2CAP.Item)
      modifies this
      ensures Now() == Spec.Enqueued(old(Now()), item)
    {
      outbound := outbound + [item];
      outboundBytes := outboundBytes + |item.data|;
    }

    /** A fresh promise for one datagram. */
    method NextItem(data: seq<byte>, reliable: bool) returns (item: L2CAP.Item)
      modifies this
      ensures item == L2CAP.Item(|old(sent)|, data, reliable)
      ensures Now() == old(Now()).(sent := old(sent) + [item])
    {
      item := L2CAP.Item(|sent|, data, reliable);
      sent := sent + [item];
    }

    method HandToChannel(item: L2CAP.Item, writes: seq<int>)
      modifies this
      ensures Now() == Spec.WithChannel(old(Now()), L2CAP.Sending(old(channel), item, writes))
    {
      hide L2CAP.Sending;
      channel := L2CAP.Sending(channel, item, writes);
    }

    /** `onDatagramSettled`, for a settlement made while the channel still had one to call. */
    method DatagramSettled()
      requires told < L2CAP.Announced(channel)
      modifies this
      ensures Now() == Spec.HearSettlement(old(Now()))
    {
      fastPathInFlight := if fastPathInFlight - 1 > 0 then fastPathInFlight - 1 else 0;
      told := told + 1;
    }

    method DidWriteValue(ok: bool, credits: nat)
      modifies this
      ensures Now() == Spec.DidWrite(old(Now()), ok, credits)
    {
      hide Spec.PumpOutbound;
      var inFlight := reliableInFlight;
      reliableInFlight := None;
      if inFlight.Some? { Finish(inFlight.value, ok); }
      PumpOutbound(credits);
    }

    method Adopt(credits: nat)
      modifies this
      ensures Now() == Spec.Adopt(old(Now()), credits)
    {
      hide Spec.PumpOutbound;
      InstallChannel();
      PumpOutbound(credits);
    }

    method InstallChannel()
      modifies this
      ensures Now() == Spec.Holding(old(Now()))
    {
      RetireChannel();
      HoldChannel();
      activated, owes, told := false, true, 0;
    }

    /** What an earlier channel carried and settled joins the record. */
    method RetireChannel()
      modifies this
      ensures Now() == old(Now()).(before := old(before) + old(channel).completed + old(after), after := [],
                                   settled := old(settled) + old(channel).settled)
    {
      before, after := before + channel.completed + after, [];
      settled := settled + channel.settled;
    }

    method HoldChannel()
      modifies this
      ensures Now() == old(Now()).(channel := L2CAP.NEW_SESSION, hasL2cap := true, fastPath := Spec.Opening)
    {
      channel, hasL2cap := L2CAP.NEW_SESSION, true;
      fastPath := Spec.Opening;
    }

    method HandleFastPathClosed(credits: nat)
      modifies this
      ensures Now() == Spec.HandleFastPathClosed(old(Now()), credits)
    {
      hide Spec.PumpOutbound, Spec.Requeue, Spec.SettleAll;
      var unsent := channel.handedBack;
      owes := false;
      if closed {
        FailAll(unsent);
        return;
      }
      DropChannel();
      fastPathInFlight := 0;
      RequeueReversed(unsent);
      PumpOutbound(credits);
    }

    method DropChannel()
      modifies this
      ensures Now() == old(Now()).(hasL2cap := false, fastPath := Spec.Unavailable)
    {
      hasL2cap := false;
      fastPath := Spec.Unavailable;
    }

    /** Back to the front of the queue, last first; what does not fit ATT is failed. */
    method RequeueReversed(unsent: seq<L2CAP.Item>)
      modifies this
      ensures Now() == Spec.Requeue(old(Now()), unsent)
    {
      hide Spec.PutBack, Spec.Settle;
      var n := |unsent|;
      assert unsent[..n] == unsent;
      while n > 0
        invariant 0 <= n <= |unsent|
        invariant Spec.Requeue(Now(), unsent[..n]) == Spec.Requeue(old(Now()), unsent)
      {
        var item := unsent[n - 1];
        assert unsent[..n][..n - 1] == unsent[..n - 1];
        if |item.data| <= gattDatagramSize && |outbound| < Spec.MAX_QUEUED_DATAGRAMS
           && outboundBytes + |item.data| <= Spec.MAX_GATT_QUEUED_BYTES {
          PutBack(item);
        } else {
          Finish(item, false);
        }
        n := n - 1;
      }
    }

    method PutBack(item: L2CAP.Item)
      modifies this
      ensures Now() == Spec.PutBack(old(Now()), item)
    {
      outbound := [item] + outbound;
      outboundBytes := outboundBytes + |item.data|;
    }

    method FailAll(items: seq<L2CAP.Item>)
      modifies this
      ensures Now() == Spec.SettleAll(old(Now()), items)
    {
      hide Spec.Settle;
      for i := 0 to |items|
        invariant Spec.SettleAll(Now(), items[i..]) == Spec.SettleAll(old(Now()), items)
      {
        assert items[i..][0] == items[i] && items[i..][1..] == items[i + 1..];
        Finish(items[i], false);
      }
    }

    /** The link's part of `closeLink`: nothing is left unsettled on the GATT side. */
    method Close()
      modifies this
      ensures Now() == Spec.Close(old(Now()))
    {
      hide Spec.SettleAll, Spec.Settle;
      if closed { return; }
      MarkClosed();
      var pending := outbound;
      if reliableInFlight.Some? { Finish(reliableInFlight.value, false); }
      ForgetQueue();
      FailAll(pending);
    }

    method MarkClosed()
      modifies this
      ensures Now() == old(Now()).(connected := false, closed := true, hasL2cap := false, fastPath := Spec.Unavailable)
    {
      DropChannel();
      connected, closed := false, true;
    }

    method ForgetQueue()
      modifies this
      ensures Now() == old(Now()).(reliableInFlight := None, outbound := [], outboundBytes := 0)
    {
      outbound, outboundBytes := [], 0;
      reliableInFlight := None;
    }
  }
}
