/** What each Bluetooth callback does for the links it finds: who is opened, who is ended, and who is told. */
module BleLinkAnswers {
  import opened Wrappers
  import opened BleLinkTable
  import opened BleLinkCallbacks
  import opened BleLinkLife

  // -- what was said since ---------------------------------------------------

  /** The record only ever grows. */
  ghost predicate Grows(t: Table, t': Table) {
    t.trace <= t'.trace && t.answers <= t'.answers && t.hangUps <= t'.hangUps
  }

  ghost predicate SaidSince(t: Table, t': Table, s: Signal) {
    s in t'.trace[if |t.trace| <= |t'.trace| then |t.trace| else 0..]
  }

  ghost predicate AnsweredSince(t: Table, t': Table, a: Answer) {
    a in t'.answers[if |t.answers| <= |t'.answers| then |t.answers| else 0..]
  }

  ghost predicate HungUpSince(t: Table, t': Table, h: HangUp) {
    h in t'.hangUps[if |t.hangUps| <= |t'.hangUps| then |t.hangUps| else 0..]
  }

  /** Everyone who waited at `id` is told the same. */
  ghost predicate AllTold(t: Table, t': Table, id: LinkId, link: Option<LinkId>)
    requires id in t.links
  {
    forall i :: 0 <= i < |t.links[id].waiting| ==> AnsweredSince(t, t', Answer(t.links[id].waiting[i], link))
  }

  // -- the fate of one link --------------------------------------------------

  /** The link is as it was, but for those who joined its waiting list. */
  ghost predicate Stays(t: Table, t': Table, id: LinkId) {
    && Grows(t, t') && id in t.links && id in t'.links
    && t'.links[id] == t.links[id].(waiting := t'.links[id].waiting, size := t'.links[id].size)
    && t.links[id].waiting <= t'.links[id].waiting
  }

  /** The link is gone: its end was reported, its connects failed, its own connection hung up. */
  ghost predicate Goes(t: Table, t': Table, id: LinkId, failed: bool) {
    && Grows(t, t') && id in t.links && id !in t'.links
    && SaidSince(t, t', Ended(id, failed)) && AllTold(t, t', id, None)
    && (t.links[id].role == Central ==> HungUpSince(t, t', HangUp(t.links[id].device, id)))
  }

  /** The link is open: it was announced with its size, and its connects were given it. */
  ghost predicate Opens(t: Table, t': Table, id: LinkId, size: nat) {
    && Grows(t, t') && id in t.links && id in t'.links && !t.links[id].opened_
    && t'.links[id] == t.links[id].(opened_ := true, size := size, waiting := [])
    && t'.trace == t.trace + [LinkOpened(id, false, size), MtuChanged(id, size), Connected(id)]
    && AllTold(t, t', id, Some(id))
  }

  lemma StaysItself(t: Table, id: LinkId)
    requires id in t.links
    ensures Stays(t, t, id)
  {
  }

  lemma StaysThenGoes(t: Table, t1: Table, t2: Table, id: LinkId, failed: bool)
    requires Stays(t, t1, id) && Goes(t1, t2, id, failed)
    ensures Goes(t, t2, id, failed)
  {
    LaterSince(t, t1, t2);
    forall i | 0 <= i < |t.links[id].waiting| ensures AnsweredSince(t, t2, Answer(t.links[id].waiting[i], None)) {
      assert t.links[id].waiting[i] == t1.links[id].waiting[i];
    }
  }

  lemma StaysTwice(t: Table, t1: Table, t2: Table, id: LinkId)
    requires Stays(t, t1, id) && Stays(t1, t2, id)
    ensures Stays(t, t2, id)
  {
  }

  lemma GoesForGood(t: Table, t1: Table, t2: Table, id: LinkId, failed: bool)
    requires Goes(t, t1, id, failed) && Grows(t1, t2) && id !in t2.links
    ensures Goes(t, t2, id, failed)
  {
    EarlierSince(t, t1, t2);
    forall i | 0 <= i < |t.links[id].waiting| ensures AnsweredSince(t, t2, Answer(t.links[id].waiting[i], None)) {
      assert AnsweredSince(t, t1, Answer(t.links[id].waiting[i], None));
    }
  }

  lemma LaterSince(t: Table, t1: Table, t2: Table)
    requires Grows(t, t1) && Grows(t1, t2)
    ensures Grows(t, t2)
    ensures forall s :: SaidSince(t1, t2, s) ==> SaidSince(t, t2, s)
    ensures forall a :: AnsweredSince(t1, t2, a) ==> AnsweredSince(t, t2, a)
    ensures forall h :: HungUpSince(t1, t2, h) ==> HungUpSince(t, t2, h)
  {
    assert t2.trace[|t.trace|..] == t2.trace[|t.trace|..|t1.trace|] + t2.trace[|t1.trace|..];
    assert t2.answers[|t.answers|..] == t2.answers[|t.answers|..|t1.answers|] + t2.answers[|t1.answers|..];
    assert t2.hangUps[|t.hangUps|..] == t2.hangUps[|t.hangUps|..|t1.hangUps|] + t2.hangUps[|t1.hangUps|..];
  }

  lemma EarlierSince(t: Table, t1: Table, t2: Table)
    requires Grows(t, t1) && Grows(t1, t2)
    ensures Grows(t, t2)
    ensures forall s :: SaidSince(t, t1, s) ==> SaidSince(t, t2, s)
    ensures forall a :: AnsweredSince(t, t1, a) ==> AnsweredSince(t, t2, a)
    ensures forall h :: HungUpSince(t, t1, h) ==> HungUpSince(t, t2, h)
  {
    assert t2.trace[|t.trace|..] == t1.trace[|t.trace|..] + t2.trace[|t1.trace|..];
    assert t2.answers[|t.answers|..] == t1.answers[|t.answers|..] + t2.answers[|t1.answers|..];
    assert t2.hangUps[|t.hangUps|..] == t1.hangUps[|t.hangUps|..] + t2.hangUps[|t1.hangUps|..];
  }

  // -- the helpers -----------------------------------------------------------

  lemma CloseFate(t: Table, x: LinkId, failed: bool, id: LinkId)
    requires Inv(t) && id in t.links
    ensures var t' := CloseLink(t, x, failed);
            if x == id then Goes(t, t', id, failed) else Stays(t, t', id) && t'.links[id] == t.links[id]
  {
    hide Told, Answering, Truthful, Recorded;
    var t' := CloseLink(t, x, failed);
    if x == id {
      var w := t.links[id].waiting;
      assert t'.answers[|t.answers|..] == AnswerAll(w, None);
      forall i | 0 <= i < |w| ensures AnsweredSince(t, t', Answer(w[i], None)) {
        assert AnswerAll(w, None)[i] == Answer(w[i], None);
      }
      assert t'.trace[|t.trace|..] == [Ended(id, failed)];
    }
  }

  lemma {:induction false} CloseEachGrows(t: Table, ids: seq<LinkId>, failed: bool)
    ensures Grows(t, CloseEach(t, ids, failed))
    decreases |ids|
  {
    if ids != [] {
      CloseEachGrows(CloseLink(t, ids[0], failed), ids[1..], failed);
    }
  }

  lemma {:induction false} CloseEachFate(t: Table, ids: seq<LinkId>, failed: bool, id: LinkId)
    requires Inv(t) && id in t.links
    ensures var t' := CloseEach(t, ids, failed);
            if id in ids then Goes(t, t', id, failed) else Stays(t, t', id) && t'.links[id] == t.links[id]
    decreases |ids|
  {
    hide Inv, CloseLink, Goes, Stays, Grows;
    if ids == [] {
      StaysItself(t, id);
    } else {
      var t1 := CloseLink(t, ids[0], failed);
      CloseKeepsInv(t, ids[0], failed);
      CloseFate(t, ids[0], failed, id);
      if ids[0] == id {
        CloseEachGrows(t1, ids[1..], failed);
        CloseEachRemoves(t1, ids[1..], failed);
        assert id !in t1.links by { Gone(t, t1, id, failed); }
        GoesForGood(t, t1, CloseEach(t, ids, failed), id, failed);
      } else {
        assert id in t1.links by { Here(t, t1, id); }
        CloseEachFate(t1, ids[1..], failed, id);
        if id in ids {
          StaysThenGoes(t, t1, CloseEach(t, ids, failed), id, failed);
        } else {
          StaysTwice(t, t1, CloseEach(t, ids, failed), id);
        }
      }
    }
  }

  lemma Gone(t: Table, t': Table, id: LinkId, failed: bool)
    requires Goes(t, t', id, failed)
    ensures id in t.links && id !in t'.links
  {
  }

  lemma Here(t: Table, t': Table, id: LinkId)
    requires Stays(t, t', id)
    ensures id in t.links && id in t'.links && t'.links[id].opened_ == t.links[id].opened_
  {
  }

  lemma OpenFate(t: Table, x: LinkId, size: nat, id: LinkId)
    requires Inv(t) && id in t.links && x in t.links && t.links[x].role == Central
    ensures var t' := OpenLink(t, x, size);
            if x == id && !t.links[id].opened_ then Opens(t, t', id, size)
            else Stays(t, t', id) && t'.links[id] == t.links[id]
  {
    hide Told, Answering, Truthful, Recorded, Routed;
    var t' := OpenLink(t, x, size);
    if x == id && !t.links[id].opened_ {
      var w := t.links[id].waiting;
      assert t'.answers[|t.answers|..] == AnswerAll(w, Some(id));
      forall i | 0 <= i < |w| ensures AnsweredSince(t, t', Answer(w[i], Some(id))) {
        assert AnswerAll(w, Some(id))[i] == Answer(w[i], Some(id));
      }
    }
  }

  lemma IncomingFate(t: Table, d: Device, handle: nat, size: nat, id: LinkId)
    requires Inv(t) && id in t.links
    ensures Stays(t, Incoming(t, d, handle, size), id) && Incoming(t, d, handle, size).links[id] == t.links[id]
  {
    hide Told, Answering, Truthful, Routed;
  }

  lemma SubscribeFate(t: Table, d: Device, handle: nat, size: nat, id: LinkId)
    requires Inv(t) && id in t.links
    ensures var t' := Subscribe(t, d, handle, size);
            var l := t.links[id];
            if l.role == Peripheral && l.device == d && l.handle != handle then Goes(t, t', id, false)
            else Stays(t, t', id)
  {
    hide Told, Answering, Truthful, Incoming, CloseLink, Goes, Stays, Grows;
    var active := ActiveForCentral(t, d);
    if active.Some? {
      var old_ := active.value;
      if t.links[old_].handle == handle {
        AnnounceFate(t, old_, size, id);
      } else {
        var t1 := CloseLink(t, old_, false);
        CloseFate(t, old_, false, id);
        CloseKeepsInv(t, old_, false);
        if old_ == id {
          assert id !in t1.links && t1.born == t.born by { ClosedIsGone(t, id, false); }
          IncomingIsNew(t1, d, handle, size, id);
          GoesForGood(t, t1, Incoming(t1, d, handle, size), id, false);
        } else {
          assert id in t1.links by { Here(t, t1, id); }
          IncomingFate(t1, d, handle, size, id);
          StaysTwice(t, t1, Incoming(t1, d, handle, size), id);
        }
      }
    } else {
      IncomingFate(t, d, handle, size, id);
    }
  }

  lemma ClosedIsGone(t: Table, id: LinkId, failed: bool)
    ensures id !in CloseLink(t, id, failed).links && CloseLink(t, id, failed).born == t.born
  {
  }

  lemma IncomingIsNew(t: Table, d: Device, handle: nat, size: nat, id: LinkId)
    requires id !in t.links && id < |t.born|
    ensures id !in Incoming(t, d, handle, size).links && Grows(t, Incoming(t, d, handle, size))
  {
  }

  lemma AnnounceFate(t: Table, x: LinkId, size: nat, id: LinkId)
    requires x in t.links && id in t.links
    ensures Stays(t, Announce(t, x, size), id)
    ensures Announce(t, x, size).links[id]
         == if x == id && t.links[id].opened_ && size > 0 then t.links[id].(size := size) else t.links[id]
  {
  }

  lemma ConnectFate(t: Table, d: Device, ready: bool, known: bool, id: LinkId)
    requires Inv(t) && id in t.links
    ensures Stays(t, Connect(t, d, ready, known), id)
  {
    hide Told, Answering, Truthful;
  }

  // -- who is ended, and who is opened ---------------------------------------

  /** The events that end this link, by what the link is and what happened. */
  ghost predicate Ends(t: Table, e: Event, id: LinkId)
    requires id in t.links
  {
    var l := t.links[id];
    match e
    case SetUpFails(d) => l.role == Central && l.device == d
    case TimesOut(x) => x == id && !l.opened_
    case Disconnected(d, fromProbe) => l.role == Central && l.device == d && (l.opened_ || !fromProbe)
    case Requested(x) => x == id
    case Stalls(x) => x == id
    case ServicesModified(d) => l.role == Central && l.device == d
    case RadioOff(role, order) => l.role == role && Covers(t, Some(role), order)
    case Stops(order) => Covers(t, None, order)
    case Subscribes(d, handle, _) => l.role == Peripheral && l.device == d && l.handle != handle
    case Unsubscribes(d) => l.role == Peripheral && l.device == d
    case _ => false
  }

  /** A link is reported as failed unless the end was asked for, or followed from the peer's own change. */
  ghost predicate Fails(t: Table, e: Event, id: LinkId)
    requires id in t.links
  {
    match e
    case Disconnected(_, _) => !t.links[id].opened_
    case _ => e.SetUpFails? || e.TimesOut? || e.Stalls? || e.RadioOff?
  }

  ghost predicate OpensAt(t: Table, e: Event, id: LinkId)
    requires id in t.links
  {
    e.NotificationsOn? && t.links[id].role == Central && t.links[id].device == e.device && !t.links[id].opened_
  }

  lemma Owners(t: Table, d: Device, id: LinkId)
    requires Routed(t) && id in t.links
    ensures ActiveForPeripheral(t, d) == Some(id) <==> t.links[id].role == Central && t.links[id].device == d
    ensures ActiveForCentral(t, d) == Some(id) <==> t.links[id].role == Peripheral && t.links[id].device == d
    ensures ActiveForPeripheral(t, d).Some? ==> t.links[ActiveForPeripheral(t, d).value].role == Central
  {
  }

  /** Each event ends exactly the links it is about, opens exactly the one it is about, and leaves the others. */
  lemma EventFate(t: Table, e: Event, id: LinkId)
    requires Inv(t) && id in t.links
    ensures var t' := Next(t, e);
            if Ends(t, e, id) then Goes(t, t', id, Fails(t, e, id))
            else if OpensAt(t, e, id) then Opens(t, t', id, e.size)
            else Stays(t, t', id)
  {
    hide Inv, Goes, Stays, Opens, Grows, CloseLink, CloseEach, OpenLink, Announce, Connect, Subscribe, Dial, Receive,
         Routed, ActiveForPeripheral, ActiveForCentral, Covers;
    assert Routed(t) by { Wired(t); }
    StaysItself(t, id);
    match e
    case Connects(d, ready, known) => ConnectFate(t, d, ready, known, id);
    case NotificationsOn(d, size) =>
      Owners(t, d, id);
      ActiveIsHere(t, d);
      if ActiveForPeripheral(t, d).Some? { OpenFate(t, ActiveForPeripheral(t, d).value, size, id); }
    case SetUpFails(d) => CloseActiveFate(t, d, true, id);
    case TimesOut(x) => CloseFate(t, x, true, id);
    case Disconnected(d, fromProbe) =>
      Owners(t, d, id);
      ActiveIsHere(t, d);
      if ActiveForPeripheral(t, d).Some? {
        var x := ActiveForPeripheral(t, d).value;
        CloseFate(t, x, !t.links[x].opened_, id);
      }
    case Requested(x) => CloseFate(t, x, false, id);
    case Stalls(x) => CloseFate(t, x, true, id);
    case ServicesModified(d) => CloseActiveFate(t, d, false, id);
    case RadioOff(role, order) =>
      CloseEachFate(t, order, true, id);
      Covering(t, Some(role), order, id);
    case Stops(order) =>
      if Covers(t, None, order) {
        CloseEachFate(t, order, false, id);
        Covering(t, None, order, id);
        StopClearsNothing(t, order);
      }
    case Restores(d) => RestoreFate(t, d, id);
    case Subscribes(d, handle, size) => SubscribeFate(t, d, handle, size, id);
    case Unsubscribes(d) => CloseActiveFate(t, d, false, id);
    case Resized(x, size) => if x in t.links { AnnounceFate(t, x, size, id); }
    case Notified(d) => ReceiveFate(t, ActiveForPeripheral(t, d), id);
    case Written(d) => ReceiveFate(t, ActiveForCentral(t, d), id);
    case ChannelDelivers(x) => ReceiveFate(t, Some(x), id);
  }

  lemma Wired(t: Table)
    requires Inv(t)
    ensures Routed(t)
  {
  }

  lemma ActiveIsHere(t: Table, d: Device)
    ensures ActiveForPeripheral(t, d).Some? ==> ActiveForPeripheral(t, d).value in t.links
    ensures ActiveForCentral(t, d).Some? ==> ActiveForCentral(t, d).value in t.links
  {
  }

  lemma Covering(t: Table, role: Option<Role>, order: seq<LinkId>, id: LinkId)
    requires id in t.links
    ensures Covers(t, role, order) ==> (id in order <==> role.None? || t.links[id].role == role.value)
  {
  }

  lemma CloseActiveFate(t: Table, d: Device, failed: bool, id: LinkId)
    requires Inv(t) && id in t.links
    ensures var t' := CloseActive(t, ActiveForPeripheral(t, d), failed);
            if t.links[id].role == Central && t.links[id].device == d then Goes(t, t', id, failed) else Stays(t, t', id)
    ensures var t' := CloseActive(t, ActiveForCentral(t, d), failed);
            if t.links[id].role == Peripheral && t.links[id].device == d then Goes(t, t', id, failed)
            else Stays(t, t', id)
  {
    hide Inv, Goes, Stays, CloseLink, Routed, ActiveForPeripheral, ActiveForCentral;
    assert Routed(t) by { Wired(t); }
    Owners(t, d, id);
    StaysItself(t, id);
    if ActiveForPeripheral(t, d).Some? { CloseFate(t, ActiveForPeripheral(t, d).value, failed, id); }
    if ActiveForCentral(t, d).Some? { CloseFate(t, ActiveForCentral(t, d).value, failed, id); }
  }

  lemma RestoreFate(t: Table, d: Device, id: LinkId)
    requires Inv(t) && id in t.links
    ensures Stays(t, Dial(t, d, []), id)
  {
    hide Told, Answering, Truthful, Routed;
  }

  lemma ReceiveFate(t: Table, active: Option<LinkId>, id: LinkId)
    requires id in t.links
    ensures Stays(t, Receive(t, active), id)
  {
  }

  // -- the connects ----------------------------------------------------------

  lemma MemberIsAnswered(answers: seq<Answer>, i: nat)
    requires i < |answers|
    ensures Answered(answers, answers[i].request) > 0
    decreases |answers|
  {
    if i < |answers| - 1 { MemberIsAnswered(answers[..|answers| - 1], i); }
  }

  lemma TwiceIsTwo(answers: seq<Answer>, i: nat, j: nat)
    requires i < j < |answers| && answers[i].request == answers[j].request
    ensures Answered(answers, answers[i].request) > 1
    decreases |answers|
  {
    var front := answers[..|answers| - 1];
    if j < |front| {
      TwiceIsTwo(front, i, j);
    } else {
      MemberIsAnswered(front, i);
    }
  }

  /** A connect has one answer, so two that it has are the same. */
  lemma OneAnswer(t: Table, a: Answer, b: Answer)
    requires Inv(t) && a in t.answers && b in t.answers && a.request == b.request
    ensures a == b
  {
    hide Routed, Recorded, Told, Truthful;
    var i :| 0 <= i < |t.answers| && t.answers[i] == a;
    var j :| 0 <= j < |t.answers| && t.answers[j] == b;
    if i < j { TwiceIsTwo(t.answers, i, j); }
    if j < i { TwiceIsTwo(t.answers, j, i); }
  }

  lemma WaitingIsUnanswered(t: Table, r: nat, id: LinkId, a: Answer)
    requires Inv(t) && WaitsAt(t, r, id) && a in t.answers
    ensures a.request != r
  {
    hide Routed, Recorded, Told, Truthful;
    var i :| 0 <= i < |t.answers| && t.answers[i] == a;
    MemberIsAnswered(t.answers, i);
  }

  /**
    A connect that waits at a link is given that link by the event that opens it, is told of
    its failure by the event that ends it unopened, and waits on through every other.
   */
  lemma WaitingIsAnswered(t: Table, e: Event, r: nat, id: LinkId)
    requires Inv(t) && WaitsAt(t, r, id)
    ensures
      var t' := Next(t, e);
      && (AnsweredSince(t, t', Answer(r, Some(id))) <==> id in t'.links && t'.links[id].opened_)
      && (AnsweredSince(t, t', Answer(r, None)) <==> id !in t'.links)
      && (WaitsAt(t', r, id) <==> id in t'.links && !t'.links[id].opened_)
      && (forall other :: AnsweredSince(t, t', Answer(r, Some(other))) ==> other == id)
  {
    hide Inv, Next, Occurrences, Ends, Fails, AnsweredSince;
    var t' := Next(t, e);
    NextKeepsInv(t, e);
    EventFate(t, e, id);
    Waiting(t, r, id);
    var i :| 0 <= i < |t.links[id].waiting| && t.links[id].waiting[i] == r;
    forall a | AnsweredSince(t, t', a) ensures a in t'.answers {
      SinceIsThere(t, t', a);
    }
    forall a, b | AnsweredSince(t, t', a) && AnsweredSince(t, t', b) && a.request == r && b.request == r
      ensures a == b
    {
      OneAnswer(t', a, b);
    }
    if id !in t'.links {
      assert AnsweredSince(t, t', Answer(r, None));
    } else if t'.links[id].opened_ {
      assert AnsweredSince(t, t', Answer(r, Some(id)));
      NobodyWaits();
    } else {
      assert t'.links[id].waiting[i] == r;
      OccursMember(t'.links[id].waiting, r);
      forall a | AnsweredSince(t, t', a) ensures a.request != r {
        WaitingIsUnanswered(t', r, id, a);
      }
    }
  }

  lemma SinceIsThere(t: Table, t': Table, a: Answer)
    requires AnsweredSince(t, t', a)
    ensures a in t'.answers
  {
  }

  lemma Waiting(t: Table, r: nat, id: LinkId)
    requires Inv(t) && WaitsAt(t, r, id)
    ensures r in t.links[id].waiting && !t.links[id].opened_
  {
    hide Routed, Told, Truthful, Answering;
    OccursMember(t.links[id].waiting, r);
  }

  /** The link of that device, when there is one: the route of the device, followed to a live link. */
  ghost predicate DialsTo(t: Table, id: LinkId, d: Device) {
    id in t.links && t.links[id].role == Central && t.links[id].device == d
  }

  /**
    A connect is answered on the spot with the device's link when that is open, and with
    failure when the radio is not ready or nobody knows the device; else it waits at the
    device's link, which is the one being dialled already or a new one.
   */
  lemma ConnectIsAnswered(t: Table, d: Device, ready: bool, known: bool)
    requires Inv(t)
    ensures
      var t' := Next(t, Connects(d, ready, known));
      var r := |t.asked|;
      && t'.asked == t.asked + [d]
      && (forall id :: DialsTo(t, id, d) && ready && t.links[id].opened_ ==>
            t'.answers == t.answers + [Answer(r, Some(id))] && t'.links == t.links)
      && (forall id :: DialsTo(t, id, d) && ready && !t.links[id].opened_ ==>
            t'.answers == t.answers && WaitsAt(t', r, id) && t'.born == t.born)
      && ((forall id :: !DialsTo(t, id, d)) && ready && known ==>
            && t'.answers == t.answers && WaitsAt(t', r, |t.born|) && t'.born == t.born + [Born(Central, d)]
            && t'.trace == t.trace + [Connecting(|t.born|)])
      && (!ready || (!known && forall id :: !DialsTo(t, id, d)) ==>
            t'.answers == t.answers + [Answer(r, None)] && t'.links == t.links)
  {
    hide Told, Answering, Truthful, Recorded, Occurrences;
    var r := |t.asked|;
    var active := ActiveForPeripheral(t, d);
    assert forall id: LinkId :: DialsTo(t, id, d) ==> active == Some(id);
    if active.Some? {
      assert DialsTo(t, active.value, d);
      OccursMember(t.links[active.value].waiting + [r], r);
    }
    OccursMember([r], r);
  }

  /**
    After a subscription its device has an open incoming link with that handle: the one it had,
    or a new one, announced with its size.
   */
  lemma SubscriptionIsServed(t: Table, d: Device, handle: nat, size: nat)
    requires Inv(t)
    ensures
      var t' := Next(t, Subscribes(d, handle, size));
      var active := ActiveForCentral(t', d);
      && active.Some?
      && var (id, l) := (active.value, t'.links[active.value]);
      && l.role == Peripheral && l.device == d && l.handle == handle && l.opened_
      && (if id in t.links then ActiveForCentral(t, d) == active && t.links[id].handle == handle
          else
            && id == |t.born| && t'.born == t.born + [Born(Peripheral, d)] && l.size == size
            && SaidSince(t, t', LinkOpened(id, true, size)) && SaidSince(t, t', Connected(id)))
  {
    hide Told, Answering, Truthful;
    var active := ActiveForCentral(t, d);
    assert |t.born| !in t.links;
    if active.Some? && t.links[active.value].handle != handle {
      var t1 := CloseLink(t, active.value, false);
      IncomingSays(t1, d, handle, size);
      var t' := Incoming(t1, d, handle, size);
      assert t'.trace[|t.trace|..] == [Ended(active.value, false)] + t'.trace[|t1.trace|..];
    } else if active.None? {
      IncomingSays(t, d, handle, size);
    }
  }

  lemma IncomingSays(t: Table, d: Device, handle: nat, size: nat)
    ensures
      var (t', id) := (Incoming(t, d, handle, size), |t.born|);
      && t.trace <= t'.trace
      && t'.trace[|t.trace|..] == [LinkOpened(id, true, size), MtuChanged(id, size), Connected(id)]
      && ActiveForCentral(t', d) == Some(id) && t'.links[id] == Entry(Peripheral, d, handle, true, size, [])
      && t'.born == t.born + [Born(Peripheral, d)]
  {
  }

  // -- over every run --------------------------------------------------------

  /** The two laws at any moment of any run. */
  lemma EveryEventAnswers(events: seq<Event>, e: Event, r: nat, id: LinkId)
    requires WaitsAt(Run(NEW_TABLE, events), r, id)
    ensures
      var t := Run(NEW_TABLE, events);
      var t' := Next(t, e);
      && !t.links[id].opened_
      && (AnsweredSince(t, t', Answer(r, Some(id))) <==> id in t'.links && t'.links[id].opened_)
      && (AnsweredSince(t, t', Answer(r, None)) <==> id !in t'.links)
      && (id in t'.links && t'.links[id].opened_ <==>
            e.NotificationsOn? && t.links[id].role == Central && t.links[id].device == e.device)
      && (id !in t'.links <==> Ends(t, e, id))
  {
    hide Run, Inv, Next, Ends, Fails, AnsweredSince, Occurrences;
    ReachableInv(events);
    var t := Run(NEW_TABLE, events);
    Waiting(t, r, id);
    EventFate(t, e, id);
    WaitingIsAnswered(t, e, r, id);
    if Ends(t, e, id) { EndingIsNotOpening(t, e, id); }
  }

  lemma EndingIsNotOpening(t: Table, e: Event, id: LinkId)
    requires id in t.links && Ends(t, e, id)
    ensures !e.NotificationsOn?
  {
  }

  /** At any moment of any run each event ends, opens and spares exactly the links it should. */
  lemma EveryEventIsFair(events: seq<Event>, e: Event, id: LinkId)
    requires id in Run(NEW_TABLE, events).links
    ensures var t := Run(NEW_TABLE, events);
            var t' := Next(t, e);
            if Ends(t, e, id) then Goes(t, t', id, Fails(t, e, id))
            else if OpensAt(t, e, id) then Opens(t, t', id, e.size)
            else Stays(t, t', id)
  {
    hide Run, Inv, Next, Ends, Fails, OpensAt, Goes, Opens, Stays;
    ReachableInv(events);
    EventFate(Run(NEW_TABLE, events), e, id);
  }

  // -- what a live link is told meanwhile ------------------------------------

  /** The size last announced for a link. */
  function LastSize(trace: seq<Signal>, id: LinkId): Option<nat>
    decreases |trace|
  {
    if trace == [] then None
    else
      var s := trace[|trace| - 1];
      if s.id == id && s.MtuChanged? then Some(s.size) else LastSize(trace[..|trace| - 1], id)
  }

  ghost predicate SizesTold(t: Table) {
    forall id :: id in t.links && t.links[id].opened_ ==> LastSize(t.trace, id) == Some(t.links[id].size)
  }

  lemma LastSizeAfter(trace: seq<Signal>, s: Signal, id: LinkId)
    ensures LastSize(trace + [s], id) == if s.id == id && s.MtuChanged? then Some(s.size) else LastSize(trace, id)
  {
    assert (trace + [s])[..|trace|] == trace;
  }

  lemma OpenTellsSize(t: Table, x: LinkId, size: nat)
    requires x in t.links
    requires forall id :: id in t.links && t.links[id].opened_ ==> LastSize(t.trace, id) == Some(t.links[id].size)
    ensures SizesTold(OpenLink(t, x, size))
  {
    hide LastSize;
    var l := t.links[x];
    var a, b, c := LinkOpened(x, l.role == Peripheral, size), MtuChanged(x, size), Connected(x);
    assert t.trace + [a, b, c] == t.trace + [a] + [b] + [c];
    forall id ensures LastSize(t.trace + [a] + [b] + [c], id) == if id == x then Some(size) else LastSize(t.trace, id) {
      LastSizeAfter(t.trace, a, id);
      LastSizeAfter(t.trace + [a], b, id);
      LastSizeAfter(t.trace + [a] + [b], c, id);
    }
  }

  lemma SignalTellsSize(t: Table, t': Table, s: Signal)
    requires SizesTold(t) && t'.trace == t.trace + [s]
    requires forall id :: id in t'.links && t'.links[id].opened_ ==>
      && id in t.links && t.links[id].opened_
      && t'.links[id].size == if s.id == id && s.MtuChanged? then s.size else t.links[id].size
    ensures SizesTold(t')
  {
    hide LastSize;
    forall id | id in t'.links && t'.links[id].opened_ ensures LastSize(t'.trace, id) == Some(t'.links[id].size) {
      LastSizeAfter(t.trace, s, id);
    }
  }

  lemma CloseTellsSize(t: Table, x: LinkId, failed: bool)
    requires SizesTold(t)
    ensures SizesTold(CloseLink(t, x, failed))
  {
    if x in t.links { SignalTellsSize(t, CloseLink(t, x, failed), Ended(x, failed)); }
  }

  lemma {:induction false} CloseEachTellsSize(t: Table, ids: seq<LinkId>, failed: bool)
    requires SizesTold(t)
    ensures SizesTold(CloseEach(t, ids, failed))
    decreases |ids|
  {
    hide SizesTold, CloseLink;
    if ids != [] {
      CloseTellsSize(t, ids[0], failed);
      CloseEachTellsSize(CloseLink(t, ids[0], failed), ids[1..], failed);
    }
  }

  lemma AnnounceTellsSize(t: Table, x: LinkId, size: nat)
    requires SizesTold(t) && x in t.links
    ensures SizesTold(Announce(t, x, size))
  {
    if Announce(t, x, size) != t { SignalTellsSize(t, Announce(t, x, size), MtuChanged(x, size)); }
  }

  lemma ReceiveTellsSize(t: Table, active: Option<LinkId>)
    requires SizesTold(t)
    ensures SizesTold(Receive(t, active))
  {
    if active.Some? && active.value in t.links { SignalTellsSize(t, Receive(t, active), Received(active.value)); }
  }

  lemma DialTellsSize(t: Table, d: Device, waiting: seq<nat>)
    requires SizesTold(t)
    ensures SizesTold(Dial(t, d, waiting))
  {
    SignalTellsSize(t, Dial(t, d, waiting), Connecting(|t.born|));
  }

  lemma ConnectTellsSize(t: Table, d: Device, ready: bool, known: bool)
    requires SizesTold(t)
    ensures SizesTold(Connect(t, d, ready, known))
  {
    hide LastSize;
    DialTellsSize(t.(asked := t.asked + [d]), d, [|t.asked|]);
  }

  lemma IncomingTellsSize(t: Table, d: Device, handle: nat, size: nat)
    requires SizesTold(t)
    ensures SizesTold(Incoming(t, d, handle, size))
  {
    hide LastSize, OpenLink;
    var id := |t.born|;
    var t1 := t.(links := t.links[id := Entry(Peripheral, d, handle, false, 0, [])],
                 byCentral := t.byCentral[d := id], born := t.born + [Born(Peripheral, d)]);
    OpenTellsSize(t1, id, size);
  }

  lemma SubscribeTellsSize(t: Table, d: Device, handle: nat, size: nat)
    requires SizesTold(t)
    ensures SizesTold(Subscribe(t, d, handle, size))
  {
    hide SizesTold, CloseLink, Announce, Incoming;
    var active := ActiveForCentral(t, d);
    IncomingTellsSize(t, d, handle, size);
    if active.Some? {
      AnnounceTellsSize(t, active.value, size);
      CloseTellsSize(t, active.value, false);
      IncomingTellsSize(CloseLink(t, active.value, false), d, handle, size);
    }
  }

  lemma NextTellsSize(t: Table, e: Event)
    requires SizesTold(t)
    ensures SizesTold(Next(t, e))
  {
    hide SizesTold, CloseLink, CloseEach, OpenLink, Announce, Connect, Subscribe, Dial, Receive, Covers;
    match e
    case Connects(d, ready, known) => ConnectTellsSize(t, d, ready, known);
    case NotificationsOn(d, size) =>
      if ActiveForPeripheral(t, d).Some? {
        assert SizesTold(OpenLink(t, ActiveForPeripheral(t, d).value, size)) by {
          AsTold(t);
          OpenTellsSize(t, ActiveForPeripheral(t, d).value, size);
        }
      }
    case SetUpFails(d) =>
      if ActiveForPeripheral(t, d).Some? { CloseTellsSize(t, ActiveForPeripheral(t, d).value, true); }
    case TimesOut(id) => CloseTellsSize(t, id, true);
    case Disconnected(d, fromProbe) =>
      if ActiveForPeripheral(t, d).Some? {
        var id := ActiveForPeripheral(t, d).value;
        CloseTellsSize(t, id, !t.links[id].opened_);
      }
    case Requested(id) => CloseTellsSize(t, id, false);
    case Stalls(id) => CloseTellsSize(t, id, true);
    case ServicesModified(d) =>
      if ActiveForPeripheral(t, d).Some? { CloseTellsSize(t, ActiveForPeripheral(t, d).value, false); }
    case RadioOff(role, order) => CloseEachTellsSize(t, order, true);
    case Stops(order) => EmptyTellsSize(CloseEach(t, order, false).(links := map[], byPeripheral := map[],
                                                                   byCentral := map[]));
    case Restores(d) => DialTellsSize(t, d, []);
    case Subscribes(d, handle, size) => SubscribeTellsSize(t, d, handle, size);
    case Unsubscribes(d) =>
      if ActiveForCentral(t, d).Some? { CloseTellsSize(t, ActiveForCentral(t, d).value, false); }
    case Resized(id, size) => if id in t.links { AnnounceTellsSize(t, id, size); }
    case Notified(d) => ReceiveTellsSize(t, ActiveForPeripheral(t, d));
    case Written(d) => ReceiveTellsSize(t, ActiveForCentral(t, d));
    case ChannelDelivers(id) => ReceiveTellsSize(t, Some(id));
  }

  lemma AsTold(t: Table)
    requires SizesTold(t)
    ensures forall id :: id in t.links && t.links[id].opened_ ==> LastSize(t.trace, id) == Some(t.links[id].size)
  {
  }

  lemma EmptyTellsSize(t: Table)
    requires t.links == map[]
    ensures SizesTold(t)
  {
  }

  lemma {:induction false} RunTellsSize(t: Table, events: seq<Event>)
    requires SizesTold(t)
    ensures SizesTold(Run(t, events))
    decreases |events|
  {
    hide SizesTold, Next;
    if events != [] {
      NextTellsSize(t, events[0]);
      RunTellsSize(Next(t, events[0]), events[1..]);
    }
  }

  /** After any run, the size last announced for an open link is the size it has. */
  lemma ListenersKnowTheSize(events: seq<Event>, id: LinkId)
    requires id in Run(NEW_TABLE, events).links && Run(NEW_TABLE, events).links[id].opened_
    ensures var t := Run(NEW_TABLE, events);
            LastSize(t.trace, id) == Some(t.links[id].size)
  {
    hide Run, LastSize;
    RunTellsSize(NEW_TABLE, events);
  }

  /** Whose datagrams an arrival brings: those of the live link it is routed to, and of nobody else. */
  ghost predicate Delivers(t: Table, e: Event, id: LinkId)
    requires id in t.links
  {
    match e
    case Notified(d) => t.links[id].role == Central && t.links[id].device == d
    case Written(d) => t.links[id].role == Peripheral && t.links[id].device == d
    case ChannelDelivers(x) => x == id
    case _ => false
  }

  /** An arrival is reported once, for the live link it belongs to, and otherwise not at all. */
  lemma ArrivalsAreDelivered(t: Table, e: Event)
    requires Inv(t) && (e.Notified? || e.Written? || e.ChannelDelivers?)
    ensures forall id :: id in t.links && Delivers(t, e, id) ==> Next(t, e) == t.(trace := t.trace + [Received(id)])
    ensures (forall id :: id in t.links ==> !Delivers(t, e, id)) ==> Next(t, e) == t
  {
    hide Told, Answering, Truthful, Recorded;
    forall id | id in t.links && Delivers(t, e, id)
      ensures Next(t, e) == t.(trace := t.trace + [Received(id)])
    {
      if !e.ChannelDelivers? { Owners(t, e.device, id); }
    }
    if !e.ChannelDelivers? {
      if ActiveForPeripheral(t, e.device).Some? { Owners(t, e.device, ActiveForPeripheral(t, e.device).value); }
      if ActiveForCentral(t, e.device).Some? { Owners(t, e.device, ActiveForCentral(t, e.device).value); }
    }
  }
}
