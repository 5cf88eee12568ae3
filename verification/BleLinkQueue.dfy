/**
  One Bluetooth link's way out: the GATT queue, the L2CAP fast path that replaces it once
  it has drained, and the way back when the channel dies.
 */
module BleLinkQueue {
  import opened Bytes
  import opened BleFraming
  import opened BleL2CAP
  import opened Wrappers

  const MAX_QUEUED_DATAGRAMS: nat := 512
  const MAX_GATT_QUEUED_BYTES: nat := 1024 * 1024

  datatype Role = Central | Peripheral

  datatype FastPath = NoFastPath | Opening | Active | Unavailable

  /**
    A link.  `channel` is the latest L2CAP session it adopted; it owes its owner a report as
    long as `owes` holds, and `told` of its settlements have reached the link.  `sent`
    records what was asked for, `before` what left by GATT or an earlier channel before this
    one took over, `after` what left by GATT since, and `settled` the promises settled by
    the GATT side and earlier channels.
   */
  datatype Link = Link(
    role: Role, connected: bool, writable: bool, closed: bool, gattDatagramSize: nat,
    fastPath: FastPath, hasL2cap: bool, activated: bool, abandoned: bool, owes: bool,
    channel: Session, told: nat, fastPathInFlight: int,
    outbound: seq<Item>, outboundBytes: int, reliableInFlight: Option<Item>,
    sent: seq<Item>, before: seq<Item>, after: seq<Item>, settled: seq<Settlement>)

  function NewLink(role: Role, gattDatagramSize: nat): Link {
    Link(role, false, false, false, gattDatagramSize, NoFastPath, false, false, false, false,
         NEW_SESSION, 0, 0, [], 0, None, [], [], [], [])
  }

  function CurrentDatagramSize(l: Link): nat {
    if l.fastPath == Active then MAX_DATAGRAM_SIZE else l.gattDatagramSize
  }

  function QueuedSize(items: seq<Item>): nat {
    if items == [] then 0 else |items[0].data| + QueuedSize(items[1..])
  }

  function Settle(l: Link, item: Item, ok: bool): Link {
    l.(settled := l.settled + [Settlement(item.id, ok)])
  }

  // -- the pumps -------------------------------------------------------------

  /** Hand the head of the queue to ATT. */
  function TakeHead(l: Link): Link
    requires l.outbound != []
  {
    var l1 := l.(outbound := l.outbound[1..], outboundBytes := l.outboundBytes - |l.outbound[0].data|);
    if l.activated then l1.(after := l.after + [l.outbound[0]]) else l1.(before := l.before + [l.outbound[0]])
  }

  /** A write that waits for its acknowledgement. */
  function WriteReliable(l: Link): (r: Link)
    requires l.outbound != []
    ensures r.outbound == l.outbound[1..] && r.writable == l.writable && r.reliableInFlight.Some?
  {
    TakeHead(l).(reliableInFlight := Some(l.outbound[0]))
  }

  /** A write the stack has room for now. */
  function WriteNow(l: Link): (r: Link)
    requires l.outbound != []
    ensures r.outbound == l.outbound[1..] && r.writable == l.writable
  {
    Settle(TakeHead(l), l.outbound[0], true)
  }

  /** `credits` is how many unacknowledged writes the stack will still accept. */
  function PumpCentral(l: Link, credits: nat): Link
    decreases |l.outbound|
  {
    hide WriteReliable, WriteNow;
    if !l.writable || l.outbound == [] then l
    else if l.outbound[0].reliable then
      if l.reliableInFlight.Some? then l else PumpCentral(WriteReliable(l), credits)
    else if credits == 0 then l
    else PumpCentral(WriteNow(l), credits - 1)
  }

  function PumpPeripheral(l: Link, credits: nat): Link
    decreases |l.outbound|
  {
    hide WriteNow;
    if !l.writable || l.outbound == [] || credits == 0 then l else PumpPeripheral(WriteNow(l), credits - 1)
  }

  function ActivatePendingFastPath(l: Link): Link {
    if l.fastPath == Opening && l.hasL2cap then l.(fastPath := Active, activated := true) else l
  }

  function PumpOutbound(l: Link, credits: nat): Link {
    var l1 := if l.role == Central then PumpCentral(l, credits) else PumpPeripheral(l, credits);
    if l1.fastPath == Opening && l1.outbound == [] && l1.reliableInFlight.None? then ActivatePendingFastPath(l1) else l1
  }

  // -- the events ------------------------------------------------------------

  /** Move the channel on; what it settles on its own thread the link hears of later. */
  function WithChannel(l: Link, s: Session): Link {
    l.(channel := s)
  }

  /** The link's queue comes to the channel's next settlement. */
  function HearSettlement(l: Link): Link {
    if l.told >= Announced(l.channel) then l
    else l.(told := l.told + 1, fastPathInFlight := if l.fastPathInFlight > 1 then l.fastPathInFlight - 1 else 0)
  }

  function Enqueued(l: Link, item: Item): Link {
    l.(outbound := l.outbound + [item], outboundBytes := l.outboundBytes + |item.data|)
  }

  function Send(l: Link, data: seq<byte>, reliable: bool, credits: nat, writes: seq<int>): Link {
    var item := Item(|l.sent|, data, reliable);
    var l1 := l.(sent := l.sent + [item]);
    if l.closed || !l.connected || data == [] || |data| > CurrentDatagramSize(l) then Settle(l1, item, false)
    else if l.fastPath == Active && l.hasL2cap then
      WithChannel(l1.(fastPathInFlight := l.fastPathInFlight + 1), Sending(l.channel, item, writes))
    else if |l.outbound| >= MAX_QUEUED_DATAGRAMS || l.outboundBytes + |data| > MAX_GATT_QUEUED_BYTES then
      Settle(l1, item, false)
    else PumpOutbound(Enqueued(l1, item), credits)
  }

  function DidWrite(l: Link, ok: bool, credits: nat): Link {
    var l1 := if l.reliableInFlight.Some? then Settle(l, l.reliableInFlight.value, ok) else l;
    PumpOutbound(l1.(reliableInFlight := None), credits)
  }

  /** A new channel takes the place of one that has reported; what that one did is history. */
  function Holding(l: Link): Link {
    l.(before := l.before + l.channel.completed + l.after, after := [], settled := l.settled + l.channel.settled,
       channel := NEW_SESSION, told := 0, hasL2cap := true, activated := false, owes := true, fastPath := Opening)
  }

  function Adopt(l: Link, credits: nat): Link {
    PumpOutbound(Holding(l), credits)
  }

  /** The transport gives the channel up; the session is told, and reports later. */
  function AbandonFastPath(l: Link): Link {
    if l.fastPath == Unavailable then l
    else l.(fastPath := Unavailable, abandoned := l.abandoned || (l.hasL2cap && l.activated))
  }

  predicate FitsGatt(l: Link, item: Item) {
    |item.data| <= l.gattDatagramSize && |l.outbound| < MAX_QUEUED_DATAGRAMS
    && l.outboundBytes + |item.data| <= MAX_GATT_QUEUED_BYTES
  }

  function RequeueOne(l: Link, item: Item): Link {
    if FitsGatt(l, item) then PutBack(l, item) else Settle(l, item, false)
  }

  function PutBack(l: Link, item: Item): Link {
    l.(outbound := [item] + l.outbound, outboundBytes := l.outboundBytes + |item.data|)
  }

  /** Back to the front of the GATT queue, last one first. */
  function Requeue(l: Link, unsent: seq<Item>): Link
    decreases |unsent|
  {
    if unsent == [] then l
    else Requeue(RequeueOne(l, unsent[|unsent| - 1]), unsent[..|unsent| - 1])
  }

  function SettleAll(l: Link, items: seq<Item>): Link
    decreases |items|
  {
    if items == [] then l else SettleAll(Settle(l, items[0], false), items[1..])
  }

  function Dropped(l: Link): Link {
    l.(owes := false, fastPathInFlight := 0, hasL2cap := false, fastPath := Unavailable)
  }

  /** The session's last report. */
  function HandleFastPathClosed(l: Link, credits: nat): Link {
    var unsent := l.channel.handedBack;
    if l.closed then SettleAll(l.(owes := false), unsent)
    else PumpOutbound(Requeue(Dropped(l), unsent), credits)
  }

  /** The link's part of `closeLink`. */
  function Close(l: Link): Link {
    if l.closed then l
    else
      var l1 := l.(connected := false, closed := true, hasL2cap := false, fastPath := Unavailable);
      var l2 := if l.reliableInFlight.Some? then Settle(l1, l.reliableInFlight.value, false) else l1;
      SettleAll(l2.(reliableInFlight := None, outbound := [], outboundBytes := 0), l.outbound)
  }

  datatype Event =
    | Opens(gattDatagramSize: nat)
    | ResizesTo(gattDatagramSize: nat)
    | Sends(data: seq<byte>, reliable: bool, credits: nat, writes: seq<int>)
    | Acknowledged(ok: bool, credits: nat)
    | GattReady(credits: nat)
    | UpgradeBegins
    | ChannelOpens(credits: nat)
    | ChannelHasSpace(writes: seq<int>)
    | ChannelDies
    | SettlementArrives
    | ChannelReports(credits: nat)
    | Abandons
    | Closes

  /** One serial queue carries both, so the report comes behind every settlement before it. */
  predicate Reportable(l: Link) {
    l.owes && l.channel.closed && l.told >= Announced(l.channel)
  }

  function Next(l: Link, e: Event): Link {
    match e
    case Opens(size) => if l.closed then l else l.(connected := true, writable := true, gattDatagramSize := size)
    case ResizesTo(size) => l.(gattDatagramSize := size)
    case Sends(data, reliable, credits, writes) => Send(l, data, reliable, credits, writes)
    case Acknowledged(ok, credits) => if l.closed then l else DidWrite(l, ok, credits)
    case GattReady(credits) => if l.closed then l else PumpOutbound(l, credits)
    case UpgradeBegins => if l.closed || l.fastPath != NoFastPath then l else l.(fastPath := Opening)
    case ChannelOpens(credits) => if l.closed || l.owes then l else Adopt(l, credits)
    case ChannelHasSpace(writes) => if l.owes then WithChannel(l, SpaceAvailable(l.channel, writes)) else l
    case ChannelDies => if l.owes then WithChannel(l, Shutdown(l.channel)) else l
    case SettlementArrives => HearSettlement(l)
    case ChannelReports(credits) => if Reportable(l) then HandleFastPathClosed(l, credits) else l
    case Abandons => if l.closed then l else AbandonFastPath(l)
    case Closes => Close(l)
  }

  function Run(l: Link, events: seq<Event>): Link
    decreases |events|
  {
    if events == [] then l else Run(Next(l, events[0]), events[1..])
  }

  // -- what a link keeps -----------------------------------------------------

  function InSession(l: Link): seq<Item> {
    if l.owes then Unsettled(l.channel) else []
  }

  function InFlight(l: Link): seq<Item> {
    if l.reliableInFlight.Some? then [l.reliableInFlight.value] else []
  }

  /** How often a promise is settled or still held somewhere. */
  function Promises(l: Link, id: nat): nat {
    Settled(l.settled, id) + Held(l.outbound, id) + Held(InFlight(l), id)
    + Settled(l.channel.settled, id) + Held(InSession(l), id)
  }

  /** How often a datagram has been, or may yet be, transmitted. */
  function Transmissions(l: Link, id: nat): nat {
    Held(l.before, id) + Held(l.after, id) + Held(l.outbound, id)
    + Held(l.channel.completed, id) + Held(InSession(l), id)
  }

  /** The same in the order in which the peer can see it. */
  function Line(l: Link): seq<Item> {
    l.before + l.channel.completed + l.after + InSession(l) + l.outbound
  }

  ghost predicate Increasing(items: seq<Item>) {
    forall i, j :: 0 <= i < j < |items| ==> items[i].id < items[j].id
  }

  /** Each item is one that was sent, whole. */
  ghost predicate Genuine(sent: seq<Item>, items: seq<Item>) {
    forall i :: 0 <= i < |items| ==> items[i].id < |sent| && sent[items[i].id] == items[i]
  }

  /** Each promise is settled once or held in one place; nothing is transmitted twice. */
  ghost predicate Accounted(l: Link) {
    && (forall id: nat :: Promises(l, id) == if id < |l.sent| then 1 else 0)
    && (forall id: nat :: Transmissions(l, id) <= if id < |l.sent| then 1 else 0)
  }

  ghost predicate Consistent(l: Link) {
    && SessionInv(l.channel)
    && l.outboundBytes == QueuedSize(l.outbound)
    && |l.outbound| <= MAX_QUEUED_DATAGRAMS && l.outboundBytes <= MAX_GATT_QUEUED_BYTES
    && (l.owes ==> l.told <= Announced(l.channel) && l.fastPathInFlight == PromiseCount(l.channel) - l.told)
    && (!l.owes && !l.closed ==> l.fastPathInFlight == 0)
    && (l.hasL2cap ==> l.owes && !l.closed)
    && (l.fastPath == Active ==> l.hasL2cap && l.activated)
    && (!l.activated ==> l.after == [] && l.channel.completed == [] && Unsettled(l.channel) == [])
    && (l.activated ==> l.fastPath in {Active, Unavailable})
    && (l.closed ==> l.outbound == [] && l.reliableInFlight.None?)
    && AllFramable(l.channel.completed + Unsettled(l.channel))
  }

  /** As long as the transport itself never gave up a live channel, order is kept. */
  ghost predicate Ordered(l: Link) {
    !l.abandoned ==>
      && Increasing(Line(l)) && Genuine(l.sent, Line(l))
      && (l.activated && l.owes ==> l.outbound == [] && l.after == [] && (!l.closed ==> l.fastPath == Active))
  }

  ghost predicate Inv(l: Link) {
    Accounted(l) && Consistent(l) && Ordered(l)
  }
}
