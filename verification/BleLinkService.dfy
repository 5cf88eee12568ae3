/** What one call does to a Bluetooth link: which datagrams move on, which are refused, which are failed. */
module BleLinkService {
  import opened Wrappers
  import opened Bytes
  import opened BleFraming
  import opened BleL2CAP
  import opened BleLinkQueue
  import opened BleLinkOrder

  // -- the pumps move a stretch of the queue ---------------------------------

  function Settlements(items: seq<Item>, ok: bool): (s: seq<Settlement>)
    ensures |s| == |items| && forall i :: 0 <= i < |s| ==> s[i] == Settlement(items[i].id, ok)
  {
    seq(|items|, i requires 0 <= i < |items| => Settlement(items[i].id, ok))
  }

  lemma SettlementsJoin(a: seq<Item>, b: seq<Item>, ok: bool)
    ensures Settlements(a + b, ok) == Settlements(a, ok) + Settlements(b, ok)
  {
  }

  /** The datagrams that wait for no acknowledgement. */
  function Unreliable(items: seq<Item>): seq<Item>
    decreases |items|
  {
    if items == [] then [] else (if items[0].reliable then [] else [items[0]]) + Unreliable(items[1..])
  }

  /** The one acknowledged write that may be under way, given what was written since `flight` was. */
  function FlightAfter(flight: Option<Item>, items: seq<Item>): Option<Item>
    decreases |items|
  {
    if items == [] then flight
    else FlightAfter(if items[0].reliable then Some(items[0]) else flight, items[1..])
  }

  /** The same link but for its traffic. */
  ghost predicate SameStanding(l: Link, l': Link) {
    && l'.sent == l.sent && l'.channel == l.channel && l'.closed == l.closed && l'.connected == l.connected
    && l'.writable == l.writable && l'.role == l.role && l'.hasL2cap == l.hasL2cap && l'.owes == l.owes
    && l'.gattDatagramSize == l.gattDatagramSize
  }

  /** The first `k` of the queue were handed to ATT, in order, and nothing else was. */
  ghost predicate MovedOn(l: Link, l': Link, k: nat) {
    && k <= |l.outbound| && l'.outbound == l.outbound[k..]
    && l'.before == (if l.activated then l.before else l.before + l.outbound[..k])
    && l'.after == (if l.activated then l.after + l.outbound[..k] else l.after)
    && SameStanding(l, l')
  }

  /** What a pump leaves alone beside that. */
  ghost predicate SamePath(l: Link, l': Link) {
    l'.fastPath == l.fastPath && l'.activated == l.activated
  }

  lemma OneThenMore(l: Link, l1: Link, l2: Link, k: nat)
    requires l.outbound != [] && MovedOn(l, l1, 1) && MovedOn(l1, l2, k) && l1.activated == l.activated
    ensures MovedOn(l, l2, k + 1)
  {
    hide SameStanding;
    Stretch(l.before, l.outbound, k);
    Stretch(l.after, l.outbound, k);
    StandingOn(l, l1, l2);
  }

  lemma Stretch(front: seq<Item>, items: seq<Item>, k: nat)
    requires k < |items|
    ensures front + items[..1] + items[1..][..k] == front + items[..k + 1] && items[1..][k..] == items[k + 1..]
  {
  }

  lemma StandingOn(l: Link, l1: Link, l2: Link)
    requires SameStanding(l, l1) && SameStanding(l1, l2)
    ensures SameStanding(l, l2)
  {
  }

  lemma StandingStill(l: Link)
    ensures MovedOn(l, l, 0)
  {
    assert l.outbound[0..] == l.outbound;
    assert l.before + l.outbound[..0] == l.before && l.after + l.outbound[..0] == l.after;
  }

  lemma HeadMoves(l: Link)
    requires l.outbound != []
    ensures MovedOn(l, WriteNow(l), 1) && MovedOn(l, WriteReliable(l), 1)
    ensures SamePath(l, WriteNow(l)) && SamePath(l, WriteReliable(l))
    ensures WriteNow(l).settled == l.settled + [Settlement(l.outbound[0].id, true)]
    ensures WriteNow(l).reliableInFlight == l.reliableInFlight
    ensures WriteReliable(l).settled == l.settled && WriteReliable(l).reliableInFlight == Some(l.outbound[0])
  {
    assert l.outbound[..1] == [l.outbound[0]];
  }

  lemma Heads(items: seq<Item>, flight: Option<Item>, m: nat)
    requires m < |items|
    ensures items[..m + 1] == [items[0]] + items[1..][..m]
    ensures Unreliable(items[..m + 1]) == (if items[0].reliable then [] else [items[0]]) + Unreliable(items[1..][..m])
    ensures FlightAfter(flight, items[..m + 1])
         == FlightAfter(if items[0].reliable then Some(items[0]) else flight, items[1..][..m])
  {
    assert items[..m + 1][1..] == items[1..][..m];
  }

  // -- a peripheral ----------------------------------------------------------

  /** As much of the queue as there is credit for. */
  function Affordable(l: Link, credits: nat): (k: nat)
    ensures k <= |l.outbound|
  {
    if !l.writable then 0 else if credits < |l.outbound| then credits else |l.outbound|
  }

  /** Each notification is a success. */
  ghost predicate AllSucceed(l: Link, l': Link, k: nat)
    requires k <= |l.outbound|
  {
    && l'.reliableInFlight == l.reliableInFlight
    && l'.settled == l.settled + Settlements(l.outbound[..k], true)
  }

  ghost predicate Notified(l: Link, l': Link, k: nat) {
    MovedOn(l, l', k) && SamePath(l, l') && AllSucceed(l, l', k)
  }

  lemma NotifiedOneMore(l: Link, l': Link, k: nat)
    requires l.outbound != [] && Notified(WriteNow(l), l', k)
    ensures Notified(l, l', k + 1)
  {
    hide MovedOn, WriteNow, AllSucceed;
    HeadMoves(l);
    UpTo(WriteNow(l), l', k);
    OneThenMore(l, WriteNow(l), l', k);
    UpTo(l, l', k + 1);
    AllOneMore(l, WriteNow(l), l', k);
  }

  lemma AllOneMore(l: Link, l1: Link, l': Link, k: nat)
    requires l.outbound != [] && k < |l.outbound| && l1.outbound == l.outbound[1..] && AllSucceed(l1, l', k)
    requires l1.settled == l.settled + [Settlement(l.outbound[0].id, true)] && l1.reliableInFlight == l.reliableInFlight
    ensures AllSucceed(l, l', k + 1)
  {
    hide FlightAfter, Unreliable;
    Heads(l.outbound, None, k);
    SettlementsJoin([l.outbound[0]], l1.outbound[..k], true);
    assert Settlements([l.outbound[0]], true) == [Settlement(l.outbound[0].id, true)];
  }

  lemma UpTo(l: Link, l': Link, k: nat)
    requires MovedOn(l, l', k)
    ensures k <= |l.outbound| && l'.outbound == l.outbound[k..] && l'.writable == l.writable
  {
  }

  /** A peripheral notifies as much as there is credit for, and each notification is a success. */
  lemma {:induction false} PeripheralNotifies(l: Link, credits: nat)
    ensures Notified(l, PumpPeripheral(l, credits), Affordable(l, credits))
    decreases |l.outbound|
  {
    hide MovedOn, WriteNow, Notified;
    if l.writable && l.outbound != [] && credits > 0 {
      PeripheralNotifies(WriteNow(l), credits - 1);
      NotifiedOneMore(l, PumpPeripheral(l, credits), Affordable(WriteNow(l), credits - 1));
    } else {
      assert Notified(l, l, 0) by { NothingNotified(l); }
    }
  }

  lemma NothingNotified(l: Link)
    ensures Notified(l, l, 0)
  {
    StandingStill(l);
    assert l.settled + Settlements(l.outbound[..0], true) == l.settled;
  }

  // -- a central -------------------------------------------------------------

  /** Acknowledged writes settle nothing yet; the others succeed at once. */
  ghost predicate OthersSucceed(l: Link, l': Link, k: nat)
    requires k <= |l.outbound|
  {
    && l'.settled == l.settled + Settlements(Unreliable(l.outbound[..k]), true)
    && l'.reliableInFlight == FlightAfter(l.reliableInFlight, l.outbound[..k])
  }

  ghost predicate Written(l: Link, l': Link, k: nat) {
    MovedOn(l, l', k) && SamePath(l, l') && OthersSucceed(l, l', k)
  }

  /**
    A central stayed within the credit for plain writes and with one acknowledged write at a
    time; and what it stopped at, after `k`, could not be written.
   */
  ghost predicate Halted(l: Link, l': Link, k: nat, credits: nat)
    requires k <= |l.outbound|
  {
    var spent := |Unreliable(l.outbound[..k])|;
    && spent <= credits && k - spent <= (if l.reliableInFlight.Some? then 0 else 1) && (!l.writable ==> k == 0)
    && (l.writable && k < |l.outbound| ==>
          if l.outbound[k].reliable then l'.reliableInFlight.Some? else spent == credits)
  }

  lemma WrittenOneMore(l: Link, l': Link, k: nat)
    requires l.outbound != []
    requires Written(if l.outbound[0].reliable then WriteReliable(l) else WriteNow(l), l', k)
    ensures Written(l, l', k + 1)
  {
    hide MovedOn, WriteNow, WriteReliable, OthersSucceed;
    var l1 := if l.outbound[0].reliable then WriteReliable(l) else WriteNow(l);
    HeadMoves(l);
    UpTo(l1, l', k);
    OneThenMore(l, l1, l', k);
    UpTo(l, l', k + 1);
    SuccessOneMore(l, l1, l', k);
  }

  lemma SuccessOneMore(l: Link, l1: Link, l': Link, k: nat)
    requires l.outbound != [] && k < |l.outbound| && l1.outbound == l.outbound[1..] && OthersSucceed(l1, l', k)
    requires l1.settled == l.settled + if l.outbound[0].reliable then [] else [Settlement(l.outbound[0].id, true)]
    requires l1.reliableInFlight == if l.outbound[0].reliable then Some(l.outbound[0]) else l.reliableInFlight
    ensures OthersSucceed(l, l', k + 1)
  {
    hide FlightAfter, Unreliable;
    Heads(l.outbound, l.reliableInFlight, k);
    var head := if l.outbound[0].reliable then [] else [l.outbound[0]];
    SettlementsJoin(head, Unreliable(l1.outbound[..k]), true);
    assert Settlements(head, true) == if l.outbound[0].reliable then [] else [Settlement(l.outbound[0].id, true)];
  }

  lemma HaltedOneMore(l: Link, l1: Link, l': Link, k: nat, credits: nat)
    requires l.outbound != [] && l1.outbound == l.outbound[1..] && k <= |l1.outbound| && l.writable == l1.writable
    requires l.writable
    requires if l.outbound[0].reliable then l.reliableInFlight.None? && l1.reliableInFlight.Some?
             else credits > 0 && l1.reliableInFlight == l.reliableInFlight
    requires Halted(l1, l', k, if l.outbound[0].reliable then credits else credits - 1)
    ensures Halted(l, l', k + 1, credits)
  {
    hide Unreliable;
    Heads(l.outbound, None, k);
  }

  /**
    A central writes until the queue is empty, the stack is not ready, an acknowledgement is
    outstanding and the next write needs one, or the credit for the others is used up.
   */
  lemma {:induction false} CentralWrites(l: Link, credits: nat) returns (k: nat)
    ensures var l' := PumpCentral(l, credits);
            k <= |l.outbound| && Written(l, l', k) && Halted(l, l', k, credits)
    decreases |l.outbound|
  {
    hide MovedOn, WriteNow, WriteReliable, Written, Halted;
    k := 0;
    if l.writable && l.outbound != [] && l.outbound[0].reliable && l.reliableInFlight.None? {
      var l1 := WriteReliable(l);
      var m := CentralWrites(l1, credits);
      HeadMoves(l);
      WrittenOneMore(l, PumpCentral(l, credits), m);
      HaltedOneMore(l, l1, PumpCentral(l, credits), m, credits);
      k := m + 1;
    } else if l.writable && l.outbound != [] && !l.outbound[0].reliable && credits > 0 {
      var l1 := WriteNow(l);
      var m := CentralWrites(l1, credits - 1);
      HeadMoves(l);
      WrittenOneMore(l, PumpCentral(l, credits), m);
      HaltedOneMore(l, l1, PumpCentral(l, credits), m, credits);
      k := m + 1;
    } else {
      NothingWritten(l, credits);
    }
  }

  lemma NothingWritten(l: Link, credits: nat)
    requires l.writable && l.outbound != [] ==>
      if l.outbound[0].reliable then l.reliableInFlight.Some? else credits == 0
    ensures Written(l, l, 0) && Halted(l, l, 0, credits)
  {
    StandingStill(l);
    assert l.outbound[..0] == [] && l.settled + Settlements([], true) == l.settled;
  }

  // -- either, and the hand-over to the channel ------------------------------

  /** The pump moved `k` datagrams on, and stopped for one of the reasons there are. */
  ghost predicate Served(l: Link, l': Link, k: nat, credits: nat)
    requires k <= |l.outbound|
  {
    if l.role == Central then OthersSucceed(l, l', k) && Halted(l, l', k, credits)
    else AllSucceed(l, l', k) && k == Affordable(l, credits)
  }

  /** The channel takes over at the moment nothing of the link's is left with ATT. */
  ghost predicate TakesOver(l: Link, l': Link) {
    l.fastPath == Opening && l.hasL2cap && l'.outbound == [] && l'.reliableInFlight.None?
  }

  ghost predicate Pumped(l: Link, l': Link, k: nat, credits: nat) {
    && k <= |l.outbound| && MovedOn(l, l', k) && Served(l, l', k, credits)
    && l'.fastPath == (if TakesOver(l, l') then Active else l.fastPath)
    && l'.activated == (TakesOver(l, l') || l.activated)
  }

  lemma PumpServes(l: Link, credits: nat) returns (k: nat)
    ensures Pumped(l, PumpOutbound(l, credits), k, credits)
  {
    hide Halted, Affordable, FlightAfter, Unreliable, PumpCentral, PumpPeripheral, Settlements;
    if l.role == Central {
      k := CentralWrites(l, credits);
      Switching(l, PumpCentral(l, credits), k, credits);
      HaltedSame(l, PumpCentral(l, credits), PumpOutbound(l, credits), k, credits);
    } else {
      PeripheralNotifies(l, credits);
      k := Affordable(l, credits);
      Switching(l, PumpPeripheral(l, credits), k, credits);
    }
  }

  lemma HaltedSame(l: Link, l1: Link, l2: Link, k: nat, credits: nat)
    requires k <= |l.outbound| && Halted(l, l1, k, credits) && l2.reliableInFlight == l1.reliableInFlight
    ensures Halted(l, l2, k, credits)
  {
  }

  lemma Switching(l: Link, l1: Link, k: nat, credits: nat)
    requires MovedOn(l, l1, k) && SamePath(l, l1)
    ensures var l2 := if l1.fastPath == Opening && l1.outbound == [] && l1.reliableInFlight.None?
                      then ActivatePendingFastPath(l1) else l1;
            && MovedOn(l, l2, k) && l2.reliableInFlight == l1.reliableInFlight && l2.settled == l1.settled
            && l2.fastPath == (if TakesOver(l, l2) then Active else l.fastPath)
            && l2.activated == (TakesOver(l, l2) || l.activated)
  {
  }

  // -- sending ---------------------------------------------------------------

  ghost predicate Refusable(l: Link, data: seq<byte>) {
    || l.closed || !l.connected || data == [] || |data| > CurrentDatagramSize(l)
    || (l.fastPath != Active
        && (|l.outbound| >= MAX_QUEUED_DATAGRAMS || QueuedSize(l.outbound) + |data| > MAX_GATT_QUEUED_BYTES))
  }

  /** Refused: the promise fails, and nothing else of the link changes. */
  lemma RefusedSendFails(l: Link, data: seq<byte>, reliable: bool, credits: nat, writes: seq<int>)
    requires Inv(l) && Refusable(l, data)
    ensures var item := Item(|l.sent|, data, reliable);
            Send(l, data, reliable, credits, writes)
            == l.(sent := l.sent + [item], settled := l.settled + [Settlement(item.id, false)])
  {
    hide Accounted, Ordered, PumpOutbound, Sending;
  }

  /** Taken: the datagram goes behind the queue, and a pump serves it in its turn. */
  lemma TakenSendIsQueued(l: Link, data: seq<byte>, reliable: bool, credits: nat, writes: seq<int>) returns (k: nat)
    requires Inv(l) && !Refusable(l, data) && l.fastPath != Active
    ensures var item := Item(|l.sent|, data, reliable);
            var l' := Send(l, data, reliable, credits, writes);
            && Pumped(Enqueued(l.(sent := l.sent + [item]), item), l', k, credits)
            && Held(l'.before, item.id) + Held(l'.after, item.id) + Held(l'.outbound, item.id) == 1
            && NoneFails(l, l') && l'.channel == l.channel
  {
    hide Accounted, Ordered, PumpOutbound, Sending, Pumped;
    var item := Item(|l.sent|, data, reliable);
    var l1 := Enqueued(l.(sent := l.sent + [item]), item);
    k := PumpServes(l1, credits);
    assert MovedOn(l1, PumpOutbound(l1, credits), k) by { Opened(l1, PumpOutbound(l1, credits), k, credits); }
    ItemIsSomewhere(l, l1, PumpOutbound(l1, credits), k);
    PumpFailsNone(l1, PumpOutbound(l1, credits), k, credits);
  }

  ghost predicate NoneFails(l: Link, l': Link) {
    l.settled <= l'.settled && forall i :: |l.settled| <= i < |l'.settled| ==> l'.settled[i].written
  }

  lemma PumpFailsNone(l: Link, l': Link, k: nat, credits: nat)
    requires Pumped(l, l', k, credits)
    ensures NoneFails(l, l') && l'.channel == l.channel
  {
    hide FlightAfter, Unreliable, Halted, TakesOver;
  }

  lemma Opened(l: Link, l': Link, k: nat, credits: nat)
    requires Pumped(l, l', k, credits)
    ensures MovedOn(l, l', k)
  {
  }

  lemma ItemIsSomewhere(l: Link, l1: Link, l': Link, k: nat)
    requires Accounted(l) && l1.outbound != [] && l1.outbound[|l1.outbound| - 1].id == |l.sent|
    requires l1.outbound[..|l1.outbound| - 1] == l.outbound && l1.before == l.before && l1.after == l.after
    requires MovedOn(l1, l', k)
    ensures Held(l'.before, |l.sent|) + Held(l'.after, |l.sent|) + Held(l'.outbound, |l.sent|) == 1
  {
    hide SameStanding;
    var id := |l.sent|;
    assert Transmissions(l, id) == 0;
    var last := l1.outbound[|l1.outbound| - 1];
    assert l1.outbound == l.outbound + [last];
    HeldAppend(l.outbound, [last], id);
    HeadHeld([last], id);
    assert l1.outbound == l1.outbound[..k] + l1.outbound[k..];
    HeldAppend(l1.outbound[..k], l1.outbound[k..], id);
    HeldAppend(l1.before, l1.outbound[..k], id);
    HeldAppend(l1.after, l1.outbound[..k], id);
  }

  /** Whether ATT will take the datagram at once. */
  ghost predicate Ready(l: Link, reliable: bool, credits: nat) {
    l.writable && if l.role == Central && reliable then l.reliableInFlight.None? else credits > 0
  }

  /**
    A datagram that is first in line goes out at once, exactly when ATT is ready for it.  It
    succeeds with that, except the one write that waits for an acknowledgement and is now under way.
   */
  lemma FirstInLineGoesOut(l: Link, data: seq<byte>, reliable: bool, credits: nat, writes: seq<int>)
    requires Inv(l) && !Refusable(l, data) && l.fastPath != Active && l.outbound == []
    ensures
      var item := Item(|l.sent|, data, reliable);
      var l' := Send(l, data, reliable, credits, writes);
      var waits := l.role == Central && reliable;
      if Ready(l, reliable, credits) then
        && l'.outbound == [] && Held(l'.before, item.id) + Held(l'.after, item.id) == 1
        && l'.settled == l.settled + (if waits then [] else [Settlement(item.id, true)])
        && l'.reliableInFlight == if waits then Some(item) else l.reliableInFlight
      else
        l'.outbound == [item] && l'.settled == l.settled && l'.reliableInFlight == l.reliableInFlight
  {
    hide Inv, Send, MovedOn, Settlements;
    var item := Item(|l.sent|, data, reliable);
    var l' := Send(l, data, reliable, credits, writes);
    var k := TakenSendIsQueued(l, data, reliable, credits, writes);
    var l1 := Enqueued(l.(sent := l.sent + [item]), item);
    assert l1.outbound == [item];
    Alone(l1, l', k, credits);
  }

  lemma Alone(l: Link, l': Link, k: nat, credits: nat)
    requires |l.outbound| == 1 && Pumped(l, l', k, credits)
    ensures
      var item := l.outbound[0];
      var waits := l.role == Central && item.reliable;
      if Ready(l, item.reliable, credits) then
        && l'.outbound == [] && l'.settled == l.settled + (if waits then [] else [Settlement(item.id, true)])
        && l'.reliableInFlight == if waits then Some(item) else l.reliableInFlight
      else
        l'.outbound == [item] && l'.settled == l.settled && l'.reliableInFlight == l.reliableInFlight
  {
    hide SameStanding, TakesOver, Unreliable, FlightAfter;
    OneOrNone(l, k);
    assert l.settled + [] == l.settled;
    if l.role == Central {
      assert k == if Ready(l, l.outbound[0].reliable, credits) then 1 else 0;
    }
  }

  lemma OneOrNone(l: Link, k: nat)
    requires |l.outbound| == 1 && k <= 1
    ensures l.outbound[..k] == (if k == 0 then [] else [l.outbound[0]])
    ensures l.outbound[k..] == if k == 0 then [l.outbound[0]] else []
    ensures Settlements(l.outbound[..k], true) == if k == 0 then [] else [Settlement(l.outbound[0].id, true)]
    ensures var waits := l.outbound[0].reliable;
            && Unreliable(l.outbound[..k]) == (if k == 0 || waits then [] else [l.outbound[0]])
            && Settlements(Unreliable(l.outbound[..k]), true)
               == (if k == 0 || waits then [] else [Settlement(l.outbound[0].id, true)])
            && FlightAfter(l.reliableInFlight, l.outbound[..k])
               == if k == 0 || !waits then l.reliableInFlight else Some(l.outbound[0])
  {
    assert l.outbound[..k] == if k == 0 then [] else [l.outbound[0]];
    assert [l.outbound[0]][1..] == [];
  }

  // -- the write that waits for its acknowledgement --------------------------

  lemma {:induction false} PumpsKeepFlight(l: Link, credits: nat)
    requires l.reliableInFlight.Some?
    ensures PumpCentral(l, credits).reliableInFlight == l.reliableInFlight
    ensures PumpPeripheral(l, credits).reliableInFlight == l.reliableInFlight
    decreases |l.outbound|
  {
    hide WriteReliable, WriteNow;
    if l.outbound != [] && credits > 0 {
      HeadMoves(l);
      PumpsKeepFlight(WriteNow(l), credits - 1);
    }
  }

  lemma PumpKeepsFlight(l: Link, credits: nat)
    requires l.reliableInFlight.Some?
    ensures PumpOutbound(l, credits).reliableInFlight == l.reliableInFlight
  {
    hide PumpCentral, PumpPeripheral;
    PumpsKeepFlight(l, credits);
  }

  lemma {:induction false} PumpsExtendSettled(l: Link, credits: nat)
    ensures l.settled <= PumpCentral(l, credits).settled && l.settled <= PumpPeripheral(l, credits).settled
    decreases |l.outbound|
  {
    hide WriteReliable, WriteNow;
    if l.outbound != [] {
      HeadMoves(l);
      PumpsExtendSettled(WriteReliable(l), credits);
      if credits > 0 { PumpsExtendSettled(WriteNow(l), credits - 1); }
    }
  }

  lemma PumpExtendsSettled(l: Link, credits: nat)
    ensures l.settled <= PumpOutbound(l, credits).settled
  {
    hide PumpCentral, PumpPeripheral;
    PumpsExtendSettled(l, credits);
  }

  lemma RequeueKeepsFlight(l: Link, unsent: seq<Item>)
    ensures Requeue(l, unsent).reliableInFlight == l.reliableInFlight
  {
    hide Requeue;
    RequeueFrame(l, unsent);
  }

  lemma SendKeepsFlight(l: Link, data: seq<byte>, reliable: bool, credits: nat, writes: seq<int>)
    requires l.reliableInFlight.Some?
    ensures Send(l, data, reliable, credits, writes).reliableInFlight == l.reliableInFlight
  {
    hide PumpOutbound, Sending;
    var item := Item(|l.sent|, data, reliable);
    PumpKeepsFlight(Enqueued(l.(sent := l.sent + [item]), item), credits);
  }

  lemma AdoptionKeepsFlight(l: Link, credits: nat)
    requires l.reliableInFlight.Some?
    ensures Adopt(l, credits).reliableInFlight == l.reliableInFlight
  {
    hide PumpOutbound;
    PumpKeepsFlight(Holding(l), credits);
  }

  lemma ReportKeepsFlight(l: Link, credits: nat)
    requires !l.closed && l.reliableInFlight.Some?
    ensures HandleFastPathClosed(l, credits).reliableInFlight == l.reliableInFlight
  {
    hide PumpOutbound, Requeue, SettleAll;
    RequeueKeepsFlight(Dropped(l), l.channel.handedBack);
    PumpKeepsFlight(Requeue(Dropped(l), l.channel.handedBack), credits);
  }

  lemma AcknowledgementEndsFlight(l: Link, ok: bool, credits: nat)
    requires l.reliableInFlight.Some?
    ensures l.settled + [Settlement(l.reliableInFlight.value.id, ok)] <= DidWrite(l, ok, credits).settled
  {
    hide PumpOutbound;
    PumpExtendsSettled(Settle(l, l.reliableInFlight.value, ok).(reliableInFlight := None), credits);
  }

  lemma ClosingEndsFlight(l: Link)
    requires !l.closed && l.reliableInFlight.Some?
    ensures l.settled + [Settlement(l.reliableInFlight.value.id, false)] <= Close(l).settled
    ensures Close(l).reliableInFlight.None?
  {
    hide Close;
    CloseFailsWhatWaits(l);
    SettlementsJoin(InFlight(l), l.outbound, false);
    assert Settlements(InFlight(l), false) == [Settlement(l.reliableInFlight.value.id, false)];
  }

  /**
    A write under way ends by its own acknowledgement, with exactly the outcome it reports, or
    by the close of the link, with failure; whatever else happens it stays under way.
   */
  lemma FlightEnds(l: Link, e: Event)
    requires !l.closed && l.reliableInFlight.Some?
    ensures
      var id := l.reliableInFlight.value.id;
      var l' := Next(l, e);
      match e
      case Acknowledged(ok, _) => l.settled + [Settlement(id, ok)] <= l'.settled
      case Closes => l.settled + [Settlement(id, false)] <= l'.settled && l'.reliableInFlight.None?
      case _ => l'.reliableInFlight == l.reliableInFlight
  {
    hide PumpOutbound, Send, DidWrite, Adopt, HandleFastPathClosed, Close, SpaceAvailable, Shutdown;
    match e
    case Sends(data, reliable, credits, writes) => SendKeepsFlight(l, data, reliable, credits, writes);
    case Acknowledged(ok, credits) => AcknowledgementEndsFlight(l, ok, credits);
    case GattReady(credits) => PumpKeepsFlight(l, credits);
    case ChannelOpens(credits) => AdoptionKeepsFlight(l, credits);
    case ChannelReports(credits) => ReportKeepsFlight(l, credits);
    case Closes => ClosingEndsFlight(l);
    case _ =>
  }

  // -- closing, and the channel's report -------------------------------------

  lemma {:induction false} AllFail(l: Link, items: seq<Item>)
    ensures SettleAll(l, items) == l.(settled := l.settled + Settlements(items, false))
    decreases |items|
  {
    hide Settlements;
    if items == [] {
      NoSettlements(l.settled);
    } else {
      AllFail(Settle(l, items[0], false), items[1..]);
      FailureFirst(l.settled, items);
    }
  }

  lemma NoSettlements(settled: seq<Settlement>)
    ensures settled + Settlements([], false) == settled
  {
  }

  lemma FailureFirst(settled: seq<Settlement>, items: seq<Item>)
    requires items != []
    ensures settled + [Settlement(items[0].id, false)] + Settlements(items[1..], false)
         == settled + Settlements(items, false)
  {
    assert items == [items[0]] + items[1..];
    SettlementsJoin([items[0]], items[1..], false);
  }

  /** Closing fails the write under way and then the queue, in order, and settles nothing else. */
  lemma CloseFailsWhatWaits(l: Link)
    requires !l.closed
    ensures Close(l).settled == l.settled + Settlements(InFlight(l) + l.outbound, false)
    ensures Close(l).outbound == [] && Close(l).reliableInFlight.None? && Close(l).closed
    ensures Close(l).before == l.before && Close(l).after == l.after && Close(l).channel == l.channel
  {
    hide SettleAll;
    var l1 := l.(connected := false, closed := true, hasL2cap := false, fastPath := Unavailable);
    var l2 := if l.reliableInFlight.Some? then Settle(l1, l.reliableInFlight.value, false) else l1;
    var l3 := l2.(reliableInFlight := None, outbound := [], outboundBytes := 0);
    AllFail(l3, l.outbound);
    SettlementsJoin(InFlight(l), l.outbound, false);
    assert l2.settled == l.settled + Settlements(InFlight(l), false);
  }

  /** A report that comes after the close fails what it hands back. */
  lemma LateReportFailsAll(l: Link, credits: nat)
    requires l.closed
    ensures HandleFastPathClosed(l, credits)
         == l.(owes := false, settled := l.settled + Settlements(l.channel.handedBack, false))
  {
    AllFail(l.(owes := false), l.channel.handedBack);
  }

  /** All of the handed-back datagrams are small enough for ATT, and there is room for them. */
  ghost predicate AllFit(l: Link, unsent: seq<Item>) {
    && (forall i :: 0 <= i < |unsent| ==> |unsent[i].data| <= l.gattDatagramSize)
    && (unsent != [] ==>
          |l.outbound| + |unsent| <= MAX_QUEUED_DATAGRAMS
          && l.outboundBytes + QueuedSize(unsent) <= MAX_GATT_QUEUED_BYTES)
  }

  lemma SizeOfMore(items: seq<Item>, last: Item)
    ensures QueuedSize(items + [last]) == QueuedSize(items) + |last.data|
  {
    if items == [] {
      assert items + [last] == [last];
    } else {
      assert (items + [last])[1..] == items[1..] + [last];
      SizeOfMore(items[1..], last);
    }
  }

  lemma LastFits(l: Link, unsent: seq<Item>, last: Item)
    ensures AllFit(l, unsent + [last]) <==> FitsGatt(l, last) && AllFit(PutBack(l, last), unsent)
  {
    SizeOfMore(unsent, last);
    var all := unsent + [last];
    assert all[|unsent|] == last && forall i :: 0 <= i < |unsent| ==> all[i] == unsent[i];
  }

  lemma {:induction false} RequeueOnlyAdds(l: Link, unsent: seq<Item>)
    ensures |Requeue(l, unsent).settled| >= |l.settled|
    decreases |unsent|
  {
    if unsent != [] { RequeueOnlyAdds(RequeueOne(l, unsent[|unsent| - 1]), unsent[..|unsent| - 1]); }
  }

  /** The queue has these in front, and nothing else about the link is different. */
  ghost predicate Returned(l: Link, l': Link, unsent: seq<Item>) {
    l' == l.(outbound := unsent + l.outbound, outboundBytes := l.outboundBytes + QueuedSize(unsent))
  }

  lemma ReturnedOneMore(l: Link, front: seq<Item>, last: Item, l': Link)
    requires Returned(PutBack(l, last), l', front)
    ensures Returned(l, l', front + [last]) && l'.settled == l.settled
  {
    hide QueuedSize;
    SizeOfMore(front, last);
    Behind(front, last, l.outbound);
  }

  /**
    What the dead channel hands back returns to the front of the queue, whole and in order,
    and fails nobody, exactly when all of it fits.
   */
  lemma {:induction false} AllReturnIffTheyFit(l: Link, unsent: seq<Item>)
    ensures Requeue(l, unsent).settled == l.settled <==> AllFit(l, unsent)
    ensures AllFit(l, unsent) ==> Returned(l, Requeue(l, unsent), unsent)
    decreases |unsent|
  {
    hide AllFit, FitsGatt, QueuedSize, Returned, PutBack;
    if unsent == [] {
      NothingFits(l);
    } else {
      var front, last := unsent[..|unsent| - 1], unsent[|unsent| - 1];
      assert unsent == front + [last];
      LastFits(l, front, last);
      if FitsGatt(l, last) {
        AllReturnIffTheyFit(PutBack(l, last), front);
        assert PutBack(l, last).settled == l.settled by { PuttingBackSettlesNobody(l, last); }
        if AllFit(l, unsent) { ReturnedOneMore(l, front, last, Requeue(l, unsent)); }
      } else {
        RequeueOnlyAdds(Settle(l, last, false), front);
        assert Requeue(l, unsent) == Requeue(Settle(l, last, false), front);
        assert |Requeue(l, unsent).settled| > |l.settled|;
      }
    }
  }

  lemma PuttingBackSettlesNobody(l: Link, item: Item)
    ensures PutBack(l, item).settled == l.settled
  {
  }

  lemma Behind(front: seq<Item>, last: Item, back: seq<Item>)
    ensures front + ([last] + back) == front + [last] + back
  {
  }

  lemma NothingFits(l: Link)
    ensures AllFit(l, []) && Returned(l, l, [])
  {
    assert [] + l.outbound == l.outbound;
  }

  /** The report of a channel whose datagrams all fit: they come first in the queue, and a pump serves them. */
  lemma ReportReturnsAll(l: Link, credits: nat) returns (k: nat)
    requires !l.closed && Reportable(l) && AllFit(l, l.channel.handedBack)
    ensures
      var l' := Next(l, ChannelReports(credits));
      var unsent := l.channel.handedBack;
      && k <= |unsent + l.outbound| && l'.outbound == (unsent + l.outbound)[k..]
      && l'.before + l'.after == (if l.activated then l.before + (l.after + (unsent + l.outbound)[..k])
                                  else l.before + (unsent + l.outbound)[..k] + l.after)
      && NoneFails(l, l') && !l'.hasL2cap && l'.fastPath == Unavailable
  {
    hide AllFit, PumpOutbound, Requeue, Pumped, QueuedSize;
    var l1 := Dropped(l);
    var unsent := l.channel.handedBack;
    assert AllFit(l1, unsent) by { SameFit(l, l1, unsent); }
    AllReturnIffTheyFit(l1, unsent);
    var l2 := Requeue(l1, unsent);
    k := PumpServes(l2, credits);
    Opened(l2, PumpOutbound(l2, credits), k, credits);
    PumpFailsNone(l2, PumpOutbound(l2, credits), k, credits);
    PathStays(l2, PumpOutbound(l2, credits), k, credits);
  }

  lemma SameFit(l: Link, l': Link, unsent: seq<Item>)
    requires l'.outbound == l.outbound && l'.outboundBytes == l.outboundBytes
    requires l'.gattDatagramSize == l.gattDatagramSize
    ensures AllFit(l', unsent) == AllFit(l, unsent)
  {
  }

  lemma PathStays(l: Link, l': Link, k: nat, credits: nat)
    requires Pumped(l, l', k, credits)
    ensures l'.fastPath == (if TakesOver(l, l') then Active else l.fastPath) && l'.hasL2cap == l.hasL2cap
  {
    hide Served;
  }

  // -- waking up -------------------------------------------------------------

  /** Room in the stack, and an acknowledgement, each let the queue move on. */
  lemma WakingPumps(l: Link, ok: bool, credits: nat) returns (k: nat, m: nat)
    requires !l.closed
    ensures Pumped(l, Next(l, GattReady(credits)), k, credits)
    ensures Pumped(l.(reliableInFlight := None, settled := l.settled + Settlements(InFlight(l), ok)),
                   Next(l, Acknowledged(ok, credits)), m, credits)
  {
    hide Pumped, PumpOutbound;
    k := PumpServes(l, credits);
    var l1 := l.(reliableInFlight := None, settled := l.settled + Settlements(InFlight(l), ok));
    m := PumpServes(l1, credits);
    assert DidWrite(l, ok, credits) == PumpOutbound(l1, credits) by {
      if l.reliableInFlight.Some? {
        assert Settlements(InFlight(l), ok) == [Settlement(l.reliableInFlight.value.id, ok)];
      } else {
        assert l.settled + Settlements(InFlight(l), ok) == l.settled;
      }
    }
  }

  /** A channel that opens is taken on, fresh, and carries the traffic as soon as nothing is left with ATT. */
  lemma ChannelIsAdopted(l: Link, credits: nat)
    requires !l.closed && !l.owes
    ensures
      var l' := Next(l, ChannelOpens(credits));
      && l'.hasL2cap && l'.owes && l'.channel == NEW_SESSION
      && l'.fastPath == (if l'.outbound == [] && l'.reliableInFlight.None? then Active else Opening)
      && NoneFails(l.(settled := l.settled + l.channel.settled), l')
  {
    hide Pumped, PumpOutbound;
    var k := PumpServes(Holding(l), credits);
    var l' := PumpOutbound(Holding(l), credits);
    PathStays(Holding(l), l', k, credits);
    PumpFailsNone(Holding(l), l', k, credits);
    Opened(Holding(l), l', k, credits);
  }

  // -- the hand-over ---------------------------------------------------------

  /** No drained queue is kept waiting for a channel that is there. */
  ghost predicate Prompt(l: Link) {
    && (l.fastPath == Opening && l.hasL2cap ==> l.outbound != [] || l.reliableInFlight.Some?)
    && (l.hasL2cap ==> l.fastPath != NoFastPath)
  }

  lemma PumpIsPrompt(l: Link, credits: nat)
    requires l.hasL2cap ==> l.fastPath != NoFastPath
    ensures Prompt(PumpOutbound(l, credits))
  {
    hide PumpOutbound, Served;
    var k := PumpServes(l, credits);
  }

  lemma RequeueKeepsPath(l: Link, unsent: seq<Item>)
    ensures Requeue(l, unsent).fastPath == l.fastPath && Requeue(l, unsent).hasL2cap == l.hasL2cap
  {
    hide Requeue;
    RequeueFrame(l, unsent);
  }

  lemma SendIsPrompt(l: Link, data: seq<byte>, reliable: bool, credits: nat, writes: seq<int>)
    requires Prompt(l)
    ensures Prompt(Send(l, data, reliable, credits, writes))
  {
    hide PumpOutbound, Sending;
    var item := Item(|l.sent|, data, reliable);
    PumpIsPrompt(Enqueued(l.(sent := l.sent + [item]), item), credits);
  }

  lemma AcknowledgementIsPrompt(l: Link, ok: bool, credits: nat)
    requires Prompt(l)
    ensures Prompt(DidWrite(l, ok, credits))
  {
    hide PumpOutbound;
    var l1 := if l.reliableInFlight.Some? then Settle(l, l.reliableInFlight.value, ok) else l;
    PumpIsPrompt(l1.(reliableInFlight := None), credits);
  }

  lemma ReportIsPrompt(l: Link, credits: nat)
    requires Prompt(l)
    ensures Prompt(HandleFastPathClosed(l, credits))
  {
    hide PumpOutbound, Requeue, SettleAll;
    AllFail(l.(owes := false), l.channel.handedBack);
    RequeueKeepsPath(Dropped(l), l.channel.handedBack);
    PumpIsPrompt(Requeue(Dropped(l), l.channel.handedBack), credits);
  }

  lemma NextIsPrompt(l: Link, e: Event)
    requires Prompt(l)
    ensures Prompt(Next(l, e))
  {
    hide PumpOutbound, Send, DidWrite, HandleFastPathClosed, Close, SpaceAvailable, Shutdown;
    match e
    case Sends(data, reliable, credits, writes) => SendIsPrompt(l, data, reliable, credits, writes);
    case Acknowledged(ok, credits) => AcknowledgementIsPrompt(l, ok, credits);
    case GattReady(credits) => PumpIsPrompt(l, credits);
    case ChannelOpens(credits) => PumpIsPrompt(Holding(l), credits);
    case ChannelReports(credits) => ReportIsPrompt(l, credits);
    case Closes => CloseIsPrompt(l);
    case _ =>
  }

  lemma CloseIsPrompt(l: Link)
    ensures if l.closed then Close(l) == l else !Close(l).hasL2cap
  {
    hide SettleAll;
    var l1 := l.(connected := false, closed := true, hasL2cap := false, fastPath := Unavailable);
    var l2 := if l.reliableInFlight.Some? then Settle(l1, l.reliableInFlight.value, false) else l1;
    AllFail(l2.(reliableInFlight := None, outbound := [], outboundBytes := 0), l.outbound);
  }

  lemma {:induction false} RunIsPrompt(l: Link, events: seq<Event>)
    requires Prompt(l)
    ensures Prompt(Run(l, events))
    decreases |events|
  {
    hide Prompt, Next;
    if events != [] {
      NextIsPrompt(l, events[0]);
      RunIsPrompt(Next(l, events[0]), events[1..]);
    }
  }

  /**
    After any run, a link that holds a channel and still sends by GATT has something left to
    send or to hear of; with nothing left the channel has already taken over.
   */
  lemma DrainedLinkIsHandedOver(role: Role, size: nat, events: seq<Event>)
    ensures var l := Run(NewLink(role, size), events);
            l.hasL2cap && l.fastPath != Unavailable && l.outbound == [] && l.reliableInFlight.None? ==>
              l.fastPath == Active
  {
    hide Run;
    RunIsPrompt(NewLink(role, size), events);
  }
}
