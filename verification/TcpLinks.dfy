/**
  The lives of TCP links: dialling, accepting, opening, failing, disconnecting, sending and
  receiving, all racing on one serial queue.  A link is named by the number of the object
  that stands for it; callbacks may reach an object long after its link was forgotten.
 */
module TcpLinks {
  import opened Wrappers

  type LinkId = nat

  const LENGTH_PREFIX_BYTES: nat := 4
  const MAX_DATAGRAM_SIZE: nat := 64 * 1024
  const RECEIVE_HARD_LIMIT: nat := MAX_DATAGRAM_SIZE
  const REALTIME_HIGH_WATER_MARK: nat := 128 * 1024
  const SEND_QUEUE_HARD_LIMIT: nat := 4 * 1024 * 1024
  const MAX_CONCURRENT_LINKS: nat := 16

  /** What the next exact read of the socket is for. */
  datatype Reading = NotReading | ForHeader | ForBody(length: nat)

  datatype Frame = Frame(send: nat, size: nat)

  datatype Peer = Peer(
    incoming: bool, isOpen: bool, didReportTerminal: bool, connectCompletion: Option<nat>,
    closeWatchdog: bool, queuedBytes: nat, inFlight: seq<Frame>, reading: Reading)

  datatype Signal =
    | LinkOpened(id: LinkId, incoming: bool)
    | Connected(id: LinkId)
    | Received(id: LinkId, length: nat)
    | Closing(id: LinkId)
    | Ended(id: LinkId, failed: bool)

  datatype Answer = Answer(request: nat, link: Option<LinkId>)

  datatype Outcome = Outcome(send: nat, ok: bool)

  /** `asked` and `sends` count the connects and sends so far; `peers` holds every link object ever made. */
  datatype Net = Net(
    started: bool, peers: seq<Peer>, links: set<LinkId>, metrics: set<LinkId>, asked: nat, sends: nat,
    trace: seq<Signal>, answers: seq<Answer>, outcomes: seq<Outcome>)

  const NEW_NET := Net(false, [], {}, {}, 0, 0, [], [], [])

  // -- the helpers -----------------------------------------------------------

  function FinishConnect(n: Net, id: LinkId, link: Option<LinkId>): Net
    requires id < |n.peers|
  {
    var p := n.peers[id];
    if p.connectCompletion.None? then n
    else n.(peers := n.peers[id := p.(connectCompletion := None)],
            answers := n.answers + [Answer(p.connectCompletion.value, link)])
  }

  function ReportTerminal(n: Net, id: LinkId, failed: bool): Net
    requires id < |n.peers|
  {
    var p := n.peers[id];
    if !p.isOpen || p.didReportTerminal then n
    else n.(peers := n.peers[id := p.(didReportTerminal := true)], trace := n.trace + [Ended(id, failed)])
  }

  function Forget(n: Net, id: LinkId): Net {
    n.(links := n.links - {id}, metrics := n.metrics - {id})
  }

  /** `.cancelled`, and with a guard in front `fail` and `close`: settle, report once, forget. */
  function Exit(n: Net, id: LinkId, failed: bool): Net
    requires id < |n.peers|
  {
    Forget(ReportTerminal(FinishConnect(n, id, None), id, failed), id)
  }

  function Fail(n: Net, id: LinkId, failed: bool): Net
    requires id < |n.peers|
  {
    if id in n.links then Exit(n, id, failed) else n
  }

  function Abandon(n: Net, id: LinkId): Net
    requires id < |n.peers|
  {
    Forget(FinishConnect(n, id, None), id)
  }

  function NewPeer(incoming: bool, completion: Option<nat>): Peer {
    Peer(incoming, false, false, completion, false, 0, [], NotReading)
  }

  function Make(n: Net, incoming: bool, completion: Option<nat>): Net {
    var id := |n.peers|;
    n.(peers := n.peers + [NewPeer(incoming, completion)], links := n.links + {id}, metrics := n.metrics + {id})
  }

  function Connect(n: Net, known: bool): Net {
    var n1 := n.(asked := n.asked + 1);
    if !n.started || !known || |n.links| >= MAX_CONCURRENT_LINKS then
      n1.(answers := n.answers + [Answer(n.asked, None)])
    else Make(n1, false, Some(n.asked))
  }

  function Accept(n: Net): Net {
    if !n.started || |n.links| >= MAX_CONCURRENT_LINKS then n else Make(n, true, None)
  }

  function Open(n: Net, id: LinkId): Net
    requires id < |n.peers|
  {
    var p := n.peers[id];
    if p.isOpen || id !in n.links then n
    else FinishConnect(n.(peers := n.peers[id := p.(isOpen := true, reading := ForHeader)],
                          trace := n.trace + [LinkOpened(id, p.incoming), Connected(id)]), id, Some(id))
  }

  function Disconnect(n: Net, id: LinkId): Net
    requires id < |n.peers|
  {
    if id !in n.links then n
    else
      var p := n.peers[id];
      var n1 := if p.isOpen && !p.didReportTerminal then n.(trace := n.trace + [Closing(id)]) else n;
      FinishConnect(n1.(peers := n.peers[id := p.(closeWatchdog := true)]), id, None)
  }

  /** The frame a datagram travels in. */
  function FrameSize(size: nat): nat {
    LENGTH_PREFIX_BYTES + size
  }

  function Send(n: Net, id: LinkId, size: nat, reliable: bool): Net {
    var send := n.sends;
    var n1 := n.(sends := send + 1);
    if id !in n.links || id >= |n.peers| then n1.(outcomes := n.outcomes + [Outcome(send, false)])
    else
      var p := n.peers[id];
      if !p.isOpen || p.didReportTerminal || size > MAX_DATAGRAM_SIZE || size == 0 then
        n1.(outcomes := n.outcomes + [Outcome(send, false)])
      else if !reliable && p.queuedBytes > REALTIME_HIGH_WATER_MARK then
        n1.(outcomes := n.outcomes + [Outcome(send, true)])
      else if p.queuedBytes > SEND_QUEUE_HARD_LIMIT then n1.(outcomes := n.outcomes + [Outcome(send, false)])
      else n1.(peers := n.peers[id := p.(queuedBytes := p.queuedBytes + FrameSize(size),
                                         inFlight := p.inFlight + [Frame(send, FrameSize(size))])])
  }

  /** The socket is done with the `k`-th frame it still holds for this object, dead or alive. */
  function Processed(n: Net, id: LinkId, k: nat, ok: bool): Net
    requires id < |n.peers| && k < |n.peers[id].inFlight|
  {
    var p := n.peers[id];
    var f := p.inFlight[k];
    var left := if p.queuedBytes >= f.size then p.queuedBytes - f.size else 0;
    var n1 := n.(peers := n.peers[id := p.(queuedBytes := left, inFlight := p.inFlight[..k] + p.inFlight[k + 1..])],
                 outcomes := n.outcomes + [Outcome(f.send, ok)]);
    if ok then n1 else Fail(n1, id, true)
  }

  // -- receiving -------------------------------------------------------------

  /** What an exact read came back with. */
  datatype Read = Errored | Short(isComplete: bool) | Exact(value: nat)

  function SetReading(n: Net, id: LinkId, reading: Reading): Net
    requires id < |n.peers|
  {
    n.(peers := n.peers[id := n.peers[id].(reading := reading)])
  }

  function HeaderRead(n: Net, id: LinkId, r: Read): Net
    requires id < |n.peers|
  {
    if id !in n.links || n.peers[id].didReportTerminal then n
    else match r
      case Errored => Fail(n, id, true)
      case Short(isComplete) => Fail(n, id, !isComplete)
      case Exact(length) =>
        if length > RECEIVE_HARD_LIMIT || length == 0 then Fail(n, id, true) else SetReading(n, id, ForBody(length))
  }

  function BodyRead(n: Net, id: LinkId, length: nat, r: Read): Net
    requires id < |n.peers|
  {
    if id !in n.links || n.peers[id].didReportTerminal then n
    else match r
      case Errored => Fail(n, id, true)
      case Short(isComplete) => Fail(n, id, !isComplete)
      case Exact(_) => SetReading(n, id, ForHeader).(trace := n.trace + [Received(id, length)])
  }

  // -- stopping --------------------------------------------------------------

  function CloseEach(n: Net, order: seq<LinkId>): Net
    requires forall i :: 0 <= i < |order| ==> order[i] < |n.peers|
    decreases |order|
  {
    if order == [] then n else CloseEach(ReportTerminal(FinishConnect(n, order[0], None), order[0], false), order[1..])
  }

  ghost predicate Covers(n: Net, order: seq<LinkId>) {
    && (forall i :: 0 <= i < |order| ==> order[i] < |n.peers| && order[i] in n.links)
    && (forall id :: id in n.links ==> id in order)
  }

  datatype Event =
    | Starts
    | Stops(order: seq<LinkId>)
    | Dials(known: bool)
    | Accepts
    | Ready(id: LinkId)
    | ConnectionFailed(id: LinkId)
    | Cancelled(id: LinkId)
    | TimesOut(id: LinkId)
    | NetworkGone(id: LinkId)
    | Disconnects(id: LinkId)
    | WatchdogFires(id: LinkId)
    | Sends(id: LinkId, size: nat, reliable: bool)
    | SendProcessed(id: LinkId, k: nat, ok: bool)
    | ReadCompletes(id: LinkId, r: Read)

  ghost function Next(n: Net, e: Event): Net {
    match e
    case Starts => n.(started := true)
    case Stops(order) =>
      if Covers(n, order) then CloseEach(n, order).(started := false, links := {}, metrics := {}) else n
    case Dials(known) => Connect(n, known)
    case Accepts => Accept(n)
    case Ready(id) => if id < |n.peers| then Open(n, id) else n
    case ConnectionFailed(id) => if id < |n.peers| then Fail(n, id, true) else n
    case Cancelled(id) => if id < |n.peers| then Exit(n, id, false) else n
    case TimesOut(id) =>
      if id < |n.peers| && (if n.peers[id].incoming then !n.peers[id].isOpen else n.peers[id].connectCompletion.Some?)
      then Abandon(n, id) else n
    case NetworkGone(id) => if id < |n.peers| then Fail(n, id, true) else n
    case Disconnects(id) => if id < |n.peers| then Disconnect(n, id) else n
    case WatchdogFires(id) =>
      if id < |n.peers| && id in n.links && n.peers[id].closeWatchdog then
        Forget(ReportTerminal(n, id, false), id)
      else n
    case Sends(id, size, reliable) => Send(n, id, size, reliable)
    case SendProcessed(id, k, ok) => if id < |n.peers| && k < |n.peers[id].inFlight| then Processed(n, id, k, ok) else n
    case ReadCompletes(id, r) =>
      if id >= |n.peers| then n
      else match n.peers[id].reading
        case NotReading => n
        case ForHeader => HeaderRead(n, id, r)
        case ForBody(length) => BodyRead(n, id, length, r)
  }

  ghost function Run(n: Net, events: seq<Event>): Net
    decreases |events|
  {
    if events == [] then n else Run(Next(n, events[0]), events[1..])
  }

  // -- what a listener may rely on -------------------------------------------

  datatype Phase = Unseen | Announced | Live | Over | Broken

  function Step(p: Phase, s: Signal): Phase {
    match (p, s)
    case (Unseen, LinkOpened(_, _)) => Announced
    case (Announced, Connected(_)) => Live
    case (Live, Received(_, _)) => Live
    case (Live, Closing(_)) => Live
    case (Live, Ended(_, _)) => Over
    case _ => Broken
  }

  function PhaseOf(trace: seq<Signal>, id: LinkId): Phase
    decreases |trace|
  {
    if trace == [] then Unseen
    else
      var p := PhaseOf(trace[..|trace| - 1], id);
      var s := trace[|trace| - 1];
      if s.id == id then Step(p, s) else p
  }

  // -- the invariant ---------------------------------------------------------

  function Total(frames: seq<Frame>): nat
    decreases |frames|
  {
    if frames == [] then 0 else frames[0].size + Total(frames[1..])
  }

  ghost predicate Tabled(n: Net) {
    && (forall id :: id in n.links ==> id < |n.peers|)
    && n.metrics == n.links && |n.links| <= MAX_CONCURRENT_LINKS
  }

  /** An open link is in the table until its end has been reported, and a waiting connect is in the table. */
  ghost predicate PeerOk(n: Net, id: LinkId)
    requires id < |n.peers|
  {
    var p := n.peers[id];
    && (p.didReportTerminal ==> p.isOpen)
    && (p.isOpen ==> (id in n.links <==> !p.didReportTerminal))
    && (p.connectCompletion.Some? ==> id in n.links && !p.isOpen && !p.incoming)
    && (p.closeWatchdog ==> p.connectCompletion.None?)
    && (p.reading != NotReading ==> p.isOpen)
    && (p.reading.ForBody? ==> 0 < p.reading.length <= MAX_DATAGRAM_SIZE)
    && p.queuedBytes == Total(p.inFlight) <= SEND_QUEUE_HARD_LIMIT + FrameSize(MAX_DATAGRAM_SIZE)
  }

  function Standing(n: Net, id: LinkId): Phase {
    if id >= |n.peers| || !n.peers[id].isOpen then Unseen
    else if n.peers[id].didReportTerminal then Over else Live
  }

  ghost predicate Told(n: Net) {
    && (forall id :: PhaseOf(n.trace, id) == Standing(n, id))
    && (forall i :: 0 <= i < |n.trace| && n.trace[i].Received? ==> 0 < n.trace[i].length <= MAX_DATAGRAM_SIZE)
  }

  function Answered(answers: seq<Answer>, request: nat): nat
    decreases |answers|
  {
    if answers == [] then 0
    else Answered(answers[..|answers| - 1], request) + if answers[|answers| - 1].request == request then 1 else 0
  }

  ghost predicate Waits(n: Net, request: nat, id: LinkId) {
    id < |n.peers| && n.peers[id].connectCompletion == Some(request)
  }

  /** Each connect is answered once, or waits at one link. */
  ghost predicate Answering(n: Net) {
    && (forall r: nat :: Answered(n.answers, r) <= if r < n.asked then 1 else 0)
    && (forall r: nat, id :: Waits(n, r, id) ==> r < n.asked && Answered(n.answers, r) == 0)
    && (forall r: nat :: r < n.asked && Answered(n.answers, r) == 0 ==> exists id :: Waits(n, r, id))
    && (forall r: nat, id, id' :: Waits(n, r, id) && Waits(n, r, id') ==> id == id')
  }

  function Settled(outcomes: seq<Outcome>, send: nat): nat
    decreases |outcomes|
  {
    if outcomes == [] then 0
    else Settled(outcomes[..|outcomes| - 1], send) + if outcomes[|outcomes| - 1].send == send then 1 else 0
  }

  function Held(frames: seq<Frame>, send: nat): nat
    decreases |frames|
  {
    if frames == [] then 0 else (if frames[0].send == send then 1 else 0) + Held(frames[1..], send)
  }

  function HeldBy(peers: seq<Peer>, send: nat): nat
    decreases |peers|
  {
    if peers == [] then 0 else Held(peers[0].inFlight, send) + HeldBy(peers[1..], send)
  }

  /** Each send is settled once, or one frame of it is with a socket. */
  ghost predicate Settling(n: Net) {
    forall s: nat :: Settled(n.outcomes, s) + HeldBy(n.peers, s) == if s < n.sends then 1 else 0
  }

  ghost predicate Inv(n: Net) {
    && Tabled(n) && (forall id :: 0 <= id < |n.peers| ==> PeerOk(n, id))
    && Told(n) && Answering(n) && Settling(n)
  }
}
