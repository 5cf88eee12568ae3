/** What the link table keeps over every interleaving of callbacks. */
module BleLinkLife {
  import opened Wrappers
  import opened BleLinkTable
  import opened BleLinkCallbacks

  // -- stopping --------------------------------------------------------------

  lemma {:induction false} CloseEachRemoves(t: Table, ids: seq<LinkId>, failed: bool)
    ensures CloseEach(t, ids, failed).links == map x | x in t.links && x !in ids :: t.links[x]
    decreases |ids|
  {
    if ids == [] {
      assert t.links == map x | x in t.links :: t.links[x];
    } else {
      var t1 := CloseLink(t, ids[0], failed);
      CloseEachRemoves(t1, ids[1..], failed);
      assert t1.links == map x | x in t.links && x != ids[0] :: t.links[x];
      assert forall x :: x in ids <==> x == ids[0] || x in ids[1..];
    }
  }

  /** Clearing the maps after closing every link clears nothing. */
  lemma StopClearsNothing(t: Table, order: seq<LinkId>)
    requires Inv(t) && Covers(t, None, order)
    ensures
      var t' := CloseEach(t, order, false);
      t' == t'.(links := map[], byPeripheral := map[], byCentral := map[])
  {
    hide Told, Answering, Truthful, Recorded, CloseEach;
    CloseEachKeepsInv(t, order, false);
    CloseEachRemoves(t, order, false);
    var t' := CloseEach(t, order, false);
    assert t'.links == map[];
    assert t'.byPeripheral == map[] && t'.byCentral == map[];
  }

  // -- every event -----------------------------------------------------------

  lemma NextKeepsInv(t: Table, e: Event)
    requires Inv(t)
    ensures Inv(Next(t, e))
  {
    hide Inv, CloseLink, CloseEach, Covers, Connect, Subscribe, OpenLink, Announce, Receive, Dial, Incoming;
    match e
    case Connects(d, ready, known) => ConnectKeepsInv(t, d, ready, known);
    case NotificationsOn(d, size) =>
      if ActiveForPeripheral(t, d).Some? { OpenKeepsInv(t, ActiveForPeripheral(t, d).value, size); }
    case SetUpFails(d) =>
      if ActiveForPeripheral(t, d).Some? { CloseKeepsInv(t, ActiveForPeripheral(t, d).value, true); }
    case TimesOut(id) => CloseKeepsInv(t, id, true);
    case Disconnected(d, fromProbe) =>
      if ActiveForPeripheral(t, d).Some? {
        var id := ActiveForPeripheral(t, d).value;
        CloseKeepsInv(t, id, !t.links[id].opened_);
      }
    case Requested(id) => CloseKeepsInv(t, id, false);
    case Stalls(id) => CloseKeepsInv(t, id, true);
    case ServicesModified(d) =>
      if ActiveForPeripheral(t, d).Some? { CloseKeepsInv(t, ActiveForPeripheral(t, d).value, false); }
    case RadioOff(role, order) => CloseEachKeepsInv(t, order, true);
    case Stops(order) =>
      if Covers(t, None, order) {
        StopClearsNothing(t, order);
        CloseEachKeepsInv(t, order, false);
      }
    case Restores(d) => if d !in t.byPeripheral { RestoreKeepsInv(t, d); }
    case Subscribes(d, handle, size) => SubscribeKeepsInv(t, d, handle, size);
    case Unsubscribes(d) =>
      if ActiveForCentral(t, d).Some? { CloseKeepsInv(t, ActiveForCentral(t, d).value, false); }
    case Resized(id, size) => if id in t.links { AnnounceKeepsInv(t, id, size); }
    case Notified(d) => ReceiveKeepsInv(t, ActiveForPeripheral(t, d));
    case Written(d) => ReceiveKeepsInv(t, ActiveForCentral(t, d));
    case ChannelDelivers(id) => ReceiveKeepsInv(t, Some(id));
  }

  lemma {:induction false} RunKeepsInv(t: Table, events: seq<Event>)
    requires Inv(t)
    ensures Inv(Run(t, events))
    decreases |events|
  {
    hide Inv, Next;
    if events != [] {
      NextKeepsInv(t, events[0]);
      RunKeepsInv(Next(t, events[0]), events[1..]);
    }
  }

  lemma ReachableInv(events: seq<Event>)
    ensures Inv(Run(NEW_TABLE, events))
  {
    hide Run;
    assert Inv(NEW_TABLE);
    RunKeepsInv(NEW_TABLE, events);
  }

  // -- main results ----------------------------------------------------------

  predicate IsOpened(s: Signal, id: LinkId) {
    s.id == id && s.LinkOpened?
  }

  predicate IsEnded(s: Signal, id: LinkId) {
    s.id == id && s.Ended?
  }

  function Openings(trace: seq<Signal>, id: LinkId): nat
    decreases |trace|
  {
    if trace == [] then 0 else Openings(trace[..|trace| - 1], id) + if IsOpened(trace[|trace| - 1], id) then 1 else 0
  }

  function Endings(trace: seq<Signal>, id: LinkId): nat
    decreases |trace|
  {
    if trace == [] then 0 else Endings(trace[..|trace| - 1], id) + if IsEnded(trace[|trace| - 1], id) then 1 else 0
  }

  /** A trace that follows the grammar opens a link at most once and ends it at most once, last of all. */
  lemma {:induction false} GrammarCounts(trace: seq<Signal>, id: LinkId)
    requires PhaseOf(trace, id) != Broken
    ensures
      var p := PhaseOf(trace, id);
      && Openings(trace, id) <= 1
      && (p in {Unborn, Dialling} ==> Openings(trace, id) == 0)
      && (p in {Announced, Sized, Live} ==> Openings(trace, id) == 1)
      && Endings(trace, id) == if p == Over then 1 else 0
    decreases |trace|
  {
    if trace != [] {
      GrammarCounts(trace[..|trace| - 1], id);
    }
  }

  /** Nothing follows a terminal signal. */
  lemma {:induction false} EndedIsLast(trace: seq<Signal>, id: LinkId, i: nat, j: nat)
    requires PhaseOf(trace, id) != Broken && i < |trace| && j < |trace|
    requires IsEnded(trace[i], id) && trace[j].id == id
    ensures j <= i
    decreases |trace|
  {
    var n := |trace| - 1;
    if i < n && j < n {
      EndedIsLast(trace[..n], id, i, j);
    } else if i < j {
      EndedSince(trace[..n], id, i);
    }
  }

  lemma {:induction false} EndedSince(trace: seq<Signal>, id: LinkId, i: nat)
    requires PhaseOf(trace, id) != Broken && i < |trace| && IsEnded(trace[i], id)
    ensures PhaseOf(trace, id) == Over
    decreases |trace|
  {
    var n := |trace| - 1;
    if i < n {
      EndedSince(trace[..n], id, i);
    }
  }

  /**
    Over every interleaving: a link's signals follow the grammar, it is opened at most once,
    and it has exactly one terminal signal if and only if it was made and is gone.
   */
  lemma EachLinkToldOnce(events: seq<Event>, id: LinkId)
    ensures
      var t := Run(NEW_TABLE, events);
      && PhaseOf(t.trace, id) in {Unborn, Dialling, Live, Over}
      && Openings(t.trace, id) <= 1
      && Endings(t.trace, id) == (if id < |t.born| && id !in t.links then 1 else 0)
      && (id in t.links ==> t.links[id].opened_ == (Openings(t.trace, id) == 1))
      && (forall i, j :: 0 <= i < |t.trace| && 0 <= j < |t.trace| ==>
            IsEnded(t.trace[i], id) && t.trace[j].id == id ==> j <= i)
  {
    hide Run, Routed, Answering, Truthful, PhaseOf, Openings, Endings;
    ReachableInv(events);
    var t := Run(NEW_TABLE, events);
    assert PhaseOf(t.trace, id) == Standing(t, id);
    GrammarCounts(t.trace, id);
    forall i, j | 0 <= i < |t.trace| && 0 <= j < |t.trace| && IsEnded(t.trace[i], id) && t.trace[j].id == id
      ensures j <= i
    {
      EndedIsLast(t.trace, id, i, j);
    }
  }

  /** Every device is routed to exactly its own live link, one per role. */
  lemma RoutesAreExact(events: seq<Event>, d: Device, id: LinkId)
    ensures
      var t := Run(NEW_TABLE, events);
      && (ActiveForPeripheral(t, d) == Some(id) <==>
            id in t.links && t.links[id].role == Central && t.links[id].device == d)
      && (ActiveForCentral(t, d) == Some(id) <==>
            id in t.links && t.links[id].role == Peripheral && t.links[id].device == d)
      && (d in t.byPeripheral <==> ActiveForPeripheral(t, d).Some?)
      && (d in t.byCentral <==> ActiveForCentral(t, d).Some?)
  {
    hide Run, Told, Answering, Truthful, Recorded;
    ReachableInv(events);
  }

  /** Closing a link leaves every other link, its route and its connection alone. */
  lemma ClosingTouchesNobodyElse(events: seq<Event>, id: LinkId, failed: bool, other: LinkId)
    requires other != id && other in Run(NEW_TABLE, events).links
    ensures
      var t := Run(NEW_TABLE, events);
      var t' := CloseLink(t, id, failed);
      && id !in t'.links && other in t'.links && t'.links[other] == t.links[other]
      && var l := t.links[other];
      && (l.role == Central ==> ActiveForPeripheral(t', l.device) == Some(other))
      && (l.role == Peripheral ==> ActiveForCentral(t', l.device) == Some(other))
      && (forall i :: |t.hangUps| <= i < |t'.hangUps| ==> !(l.role == Central && t'.hangUps[i].device == l.device))
  {
    hide Run, Told, Answering, Truthful;
    ReachableInv(events);
  }

  /**
    Every connect so far has been answered once, or waits at one dialling link to the
    device it asked for; a success names a link to that device.
   */
  lemma ConnectsAnsweredOnce(events: seq<Event>, r: nat)
    requires r < |Run(NEW_TABLE, events).asked|
    ensures
      var t := Run(NEW_TABLE, events);
      && Answered(t.answers, r) <= 1
      && (Answered(t.answers, r) == 0 <==>
           exists id :: WaitsAt(t, r, id) && !t.links[id].opened_ && ActiveForPeripheral(t, t.asked[r]) == Some(id))
      && (forall i :: 0 <= i < |t.answers| && t.answers[i].request == r && t.answers[i].link.Some? ==>
           t.answers[i].link.value < |t.born| && t.born[t.answers[i].link.value] == Born(Central, t.asked[r]))
  {
    hide Run, Told, Answered;
    ReachableInv(events);
    var t := Run(NEW_TABLE, events);
    if Answered(t.answers, r) == 0 {
      var id :| WaitsAt(t, r, id);
      NobodyWaits();
    }
  }

  /** Stopping the transport ends every link it ever made and answers every connect. */
  lemma StoppingSettlesEverything(events: seq<Event>, order: seq<LinkId>)
    requires Covers(Run(NEW_TABLE, events), None, order)
    ensures
      var t := Next(Run(NEW_TABLE, events), Stops(order));
      && t.links == map[] && t.byPeripheral == map[] && t.byCentral == map[]
      && (forall id :: 0 <= id < |t.born| ==> PhaseOf(t.trace, id) == Over)
      && (forall r :: 0 <= r < |t.asked| ==> Answered(t.answers, r) == 1)
  {
    hide Run, PhaseOf, Answered, Occurrences;
    ReachableInv(events);
    var w := Run(NEW_TABLE, events);
    NextKeepsInv(w, Stops(order));
    var t := Next(w, Stops(order));
    forall r: nat | r < |t.asked| ensures Answered(t.answers, r) == 1 {
      assert forall id :: !WaitsAt(t, r, id);
    }
  }
}
