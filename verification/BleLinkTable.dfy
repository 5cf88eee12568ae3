/**
  The table of Bluetooth links: which links are alive, which one each device's callbacks
  are routed to, what the layer above is told about each, and how connects are answered.
  Link number `n` is the one the transport calls "ble-(n+1)".
 */
module BleLinkTable {
  import opened Wrappers

  type Device = nat
  type LinkId = nat

  datatype Role = Central | Peripheral

  /** `handle` is the identity of the subscribed central object; `waiting` the connects to answer. */
  datatype Entry = Entry(role: Role, device: Device, handle: nat, opened_: bool, size: nat, waiting: seq<nat>)

  datatype Signal =
    | Connecting(id: LinkId)
    | LinkOpened(id: LinkId, incoming: bool, size: nat)
    | MtuChanged(id: LinkId, size: nat)
    | Connected(id: LinkId)
    | Received(id: LinkId)
    | Ended(id: LinkId, failed: bool)

  datatype Answer = Answer(request: nat, link: Option<LinkId>)

  datatype HangUp = HangUp(device: Device, closer: LinkId)

  datatype Born = Born(role: Role, device: Device)

  /**
    `asked` lists the device of every connect so far and `born` every link ever made;
    `trace`, `answers` and `hangUps` are what the transport said and did.
   */
  datatype Table = Table(
    links: map<LinkId, Entry>, byPeripheral: map<Device, LinkId>, byCentral: map<Device, LinkId>,
    born: seq<Born>, asked: seq<Device>, trace: seq<Signal>, answers: seq<Answer>, hangUps: seq<HangUp>)

  const NEW_TABLE := Table(map[], map[], map[], [], [], [], [], [])

  // -- the helpers every callback goes through -------------------------------

  function ActiveForPeripheral(t: Table, d: Device): Option<LinkId> {
    if d in t.byPeripheral && t.byPeripheral[d] in t.links then Some(t.byPeripheral[d]) else None
  }

  function ActiveForCentral(t: Table, d: Device): Option<LinkId> {
    if d in t.byCentral && t.byCentral[d] in t.links then Some(t.byCentral[d]) else None
  }

  function AnswerAll(waiting: seq<nat>, link: Option<LinkId>): (a: seq<Answer>)
    ensures |a| == |waiting| && forall i :: 0 <= i < |a| ==> a[i] == Answer(waiting[i], link)
  {
    seq(|waiting|, i requires 0 <= i < |waiting| => Answer(waiting[i], link))
  }

  function OpenLink(t: Table, id: LinkId, size: nat): Table
    requires id in t.links
  {
    var l := t.links[id];
    if l.opened_ then t
    else t.(links := t.links[id := l.(opened_ := true, size := size, waiting := [])],
            trace := t.trace + [LinkOpened(id, l.role == Peripheral, size), MtuChanged(id, size), Connected(id)],
            answers := t.answers + AnswerAll(l.waiting, Some(id)))
  }

  function Announce(t: Table, id: LinkId, size: nat): Table
    requires id in t.links
  {
    var l := t.links[id];
    if !l.opened_ || size == l.size || size == 0 then t
    else t.(links := t.links[id := l.(size := size)], trace := t.trace + [MtuChanged(id, size)])
  }

  /** The single exit: unroute only what this link still owns, then say so once. */
  function CloseLink(t: Table, id: LinkId, failed: bool): Table {
    if id !in t.links then t
    else
      var l := t.links[id];
      var owner := if l.role == Central && l.device in t.byPeripheral then Some(t.byPeripheral[l.device]) else None;
      var ownsCentral := l.role == Peripheral && l.device in t.byCentral && t.byCentral[l.device] == id;
      t.(links := t.links - {id},
         byPeripheral := if owner == Some(id) then t.byPeripheral - {l.device} else t.byPeripheral,
         byCentral := if ownsCentral then t.byCentral - {l.device} else t.byCentral,
         hangUps :=
           if l.role == Central && (owner.None? || owner == Some(id)) then t.hangUps + [HangUp(l.device, id)]
           else t.hangUps,
         trace := t.trace + [Ended(id, failed)],
         answers := t.answers + AnswerAll(l.waiting, None))
  }

  function CloseEach(t: Table, ids: seq<LinkId>, failed: bool): Table
    decreases |ids|
  {
    if ids == [] then t else CloseEach(CloseLink(t, ids[0], failed), ids[1..], failed)
  }

  function Dial(t: Table, d: Device, waiting: seq<nat>): Table {
    var id := |t.born|;
    t.(links := t.links[id := Entry(Central, d, 0, false, 0, waiting)],
       byPeripheral := t.byPeripheral[d := id],
       born := t.born + [Born(Central, d)],
       trace := t.trace + [Connecting(id)])
  }

  /** A peer's subscription is a link that is open from the start. */
  function Incoming(t: Table, d: Device, handle: nat, size: nat): Table {
    var id := |t.born|;
    OpenLink(t.(links := t.links[id := Entry(Peripheral, d, handle, false, 0, [])],
                byCentral := t.byCentral[d := id],
                born := t.born + [Born(Peripheral, d)]), id, size)
  }

  // -- the events ------------------------------------------------------------

  datatype Event =
    | Connects(device: Device, ready: bool, known: bool)
    | NotificationsOn(device: Device, size: nat)
    | SetUpFails(device: Device)
    | TimesOut(id: LinkId)
    | Disconnected(device: Device, fromProbe: bool)
    | Requested(id: LinkId)
    | Stalls(id: LinkId)
    | ServicesModified(device: Device)
    | RadioOff(role: Role, order: seq<LinkId>)
    | Stops(order: seq<LinkId>)
    | Restores(device: Device)
    | Subscribes(device: Device, handle: nat, size: nat)
    | Unsubscribes(device: Device)
    | Resized(id: LinkId, size: nat)
    | Notified(device: Device)
    | Written(device: Device)
    | ChannelDelivers(id: LinkId)

  function Connect(t: Table, d: Device, ready: bool, known: bool): Table {
    var request := |t.asked|;
    var t1 := t.(asked := t.asked + [d]);
    if !ready then t1.(answers := t.answers + [Answer(request, None)])
    else match ActiveForPeripheral(t, d)
      case Some(id) =>
        if t.links[id].opened_ then t1.(answers := t.answers + [Answer(request, Some(id))])
        else t1.(links := t.links[id := t.links[id].(waiting := t.links[id].waiting + [request])])
      case None =>
        if !known then t1.(answers := t.answers + [Answer(request, None)]) else Dial(t1, d, [request])
  }

  function CloseActive(t: Table, active: Option<LinkId>, failed: bool): Table {
    if active.Some? then CloseLink(t, active.value, failed) else t
  }

  function Receive(t: Table, active: Option<LinkId>): Table {
    if active.Some? && active.value in t.links then t.(trace := t.trace + [Received(active.value)]) else t
  }

  function Subscribe(t: Table, d: Device, handle: nat, size: nat): Table {
    match ActiveForCentral(t, d)
    case Some(id) =>
      if t.links[id].opened_ && t.links[id].handle == handle then Announce(t, id, size)
      else if t.links[id].opened_ then Incoming(CloseLink(t, id, false), d, handle, size)
      else Incoming(t, d, handle, size)
    case None => Incoming(t, d, handle, size)
  }

  /** A walk over a snapshot of the links visits each of them, in whatever order. */
  ghost predicate Covers(t: Table, role: Option<Role>, order: seq<LinkId>) {
    && (forall id :: id in t.links && (role.None? || t.links[id].role == role.value) ==> id in order)
    && (forall id :: id in order ==> id in t.links && (role.None? || t.links[id].role == role.value))
  }

  ghost function Next(t: Table, e: Event): Table {
    match e
    case Connects(d, ready, known) => Connect(t, d, ready, known)
    case NotificationsOn(d, size) =>
      var active := ActiveForPeripheral(t, d);
      if active.Some? then OpenLink(t, active.value, size) else t
    case SetUpFails(d) => CloseActive(t, ActiveForPeripheral(t, d), true)
    case TimesOut(id) => if id in t.links && !t.links[id].opened_ then CloseLink(t, id, true) else t
    case Disconnected(d, fromProbe) =>
      var active := ActiveForPeripheral(t, d);
      if active.None? || (fromProbe && !t.links[active.value].opened_) then t
      else CloseLink(t, active.value, !t.links[active.value].opened_)
    case Requested(id) => CloseLink(t, id, false)
    case Stalls(id) => CloseLink(t, id, true)
    case ServicesModified(d) => CloseActive(t, ActiveForPeripheral(t, d), false)
    case RadioOff(role, order) => if Covers(t, Some(role), order) then CloseEach(t, order, true) else t
    case Stops(order) =>
      if Covers(t, None, order) then
        CloseEach(t, order, false).(links := map[], byPeripheral := map[], byCentral := map[])
      else t
    case Restores(d) => if d in t.byPeripheral then t else Dial(t, d, [])
    case Subscribes(d, handle, size) => Subscribe(t, d, handle, size)
    case Unsubscribes(d) => CloseActive(t, ActiveForCentral(t, d), false)
    case Resized(id, size) => if id in t.links then Announce(t, id, size) else t
    case Notified(d) => Receive(t, ActiveForPeripheral(t, d))
    case Written(d) => Receive(t, ActiveForCentral(t, d))
    case ChannelDelivers(id) => Receive(t, Some(id))
  }

  ghost function Run(t: Table, events: seq<Event>): Table
    decreases |events|
  {
    if events == [] then t else Run(Next(t, events[0]), events[1..])
  }

  // -- what a listener may rely on -------------------------------------------

  datatype Phase = Unborn | Dialling | Announced | Sized | Live | Over | Broken

  /** The only orders in which one link's signals may come. */
  function Step(p: Phase, s: Signal): Phase {
    match (p, s)
    case (Unborn, Connecting(_)) => Dialling
    case (Unborn, LinkOpened(_, _, _)) => Announced
    case (Dialling, LinkOpened(_, _, _)) => Announced
    case (Dialling, Received(_)) => Dialling
    case (Dialling, Ended(_, _)) => Over
    case (Announced, MtuChanged(_, _)) => Sized
    case (Sized, Connected(_)) => Live
    case (Live, MtuChanged(_, _)) => Live
    case (Live, Received(_)) => Live
    case (Live, Ended(_, _)) => Over
    case _ => Broken
  }

  function PhaseOf(trace: seq<Signal>, id: LinkId): Phase
    decreases |trace|
  {
    if trace == [] then Unborn
    else
      var p := PhaseOf(trace[..|trace| - 1], id);
      var s := trace[|trace| - 1];
      if s.id == id then Step(p, s) else p
  }

  // -- the invariant ---------------------------------------------------------

  /** Each route names a live link of its role and device, and each live link is routed. */
  ghost predicate Routed(t: Table) {
    && (forall d :: d in t.byPeripheral ==>
         t.byPeripheral[d] in t.links && t.links[t.byPeripheral[d]].role == Central
             && t.links[t.byPeripheral[d]].device == d)
    && (forall d :: d in t.byCentral ==>
         t.byCentral[d] in t.links && t.links[t.byCentral[d]].role == Peripheral && t.links[t.byCentral[d]].device == d)
    && (forall id :: id in t.links && t.links[id].role == Central ==>
         t.links[id].device in t.byPeripheral && t.byPeripheral[t.links[id].device] == id)
    && (forall id :: id in t.links && t.links[id].role == Peripheral ==>
         t.links[id].device in t.byCentral && t.byCentral[t.links[id].device] == id)
  }

  ghost predicate Recorded(t: Table) {
    forall id :: id in t.links ==>
      && id < |t.born| && t.born[id] == Born(t.links[id].role, t.links[id].device)
      && (t.links[id].opened_ ==> t.links[id].waiting == [])
      && (t.links[id].role == Peripheral ==> t.links[id].opened_)
  }

  /** Where a link stands in its own life, told from the table. */
  function Standing(t: Table, id: LinkId): Phase {
    if id in t.links then (if t.links[id].opened_ then Live else Dialling)
    else if id < |t.born| then Over else Unborn
  }

  ghost predicate Told(t: Table) {
    forall id :: PhaseOf(t.trace, id) == Standing(t, id)
  }

  function Answered(answers: seq<Answer>, request: nat): nat
    decreases |answers|
  {
    if answers == [] then 0
    else Answered(answers[..|answers| - 1], request) + if answers[|answers| - 1].request == request then 1 else 0
  }

  function Occurrences(waiting: seq<nat>, request: nat): nat
    decreases |waiting|
  {
    if waiting == [] then 0
    else Occurrences(waiting[..|waiting| - 1], request) + if waiting[|waiting| - 1] == request then 1 else 0
  }

  ghost predicate WaitsAt(t: Table, request: nat, id: LinkId) {
    id in t.links && Occurrences(t.links[id].waiting, request) > 0
  }

  /** A connect is answered once, or waits once, at one dialling link to its own device. */
  ghost predicate Answering(t: Table) {
    && (forall r: nat :: Answered(t.answers, r) <= (if r < |t.asked| then 1 else 0))
    && (forall r: nat, id :: WaitsAt(t, r, id) ==>
         && r < |t.asked| && t.links[id].role == Central && t.links[id].device == t.asked[r]
         && Answered(t.answers, r) == 0 && Occurrences(t.links[id].waiting, r) == 1)
    && (forall r: nat :: r < |t.asked| && Answered(t.answers, r) == 0 ==> exists id :: WaitsAt(t, r, id))
    && (forall r: nat, id, id' :: WaitsAt(t, r, id) && WaitsAt(t, r, id') ==> id == id')
  }

  /** A connect that succeeded was given a link to the device it asked for. */
  ghost predicate Truthful(t: Table) {
    forall i :: 0 <= i < |t.answers| && t.answers[i].link.Some? ==>
      && t.answers[i].request < |t.asked|
      && t.answers[i].link.value < |t.born|
      && t.born[t.answers[i].link.value] == Born(Central, t.asked[t.answers[i].request])
  }

  ghost predicate Inv(t: Table) {
    Routed(t) && Recorded(t) && Told(t) && Answering(t) && Truthful(t)
  }
}
