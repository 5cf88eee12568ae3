/**
  What each Bluetooth callback keeps, one section for each thing that can happen to a link:
  closing, opening, resizing, being dialled and being connected to from outside.  Routing,
  the record of births, the trace and the answers are followed one at a time, because a
  callback changes one link and has to leave everything about all the others alone.
 */
module BleLinkCallbacks {
  import opened Wrappers
  import opened BleLinkTable

  // -- traces and answers ----------------------------------------------------

  lemma PhaseAfter(trace: seq<Signal>, s: Signal, id: LinkId)
    ensures PhaseOf(trace + [s], id) == if s.id == id then Step(PhaseOf(trace, id), s) else PhaseOf(trace, id)
  {
    assert (trace + [s])[..|trace|] == trace;
  }

  lemma PhaseAfterThree(trace: seq<Signal>, a: Signal, b: Signal, c: Signal, id: LinkId)
    requires a.id == b.id == c.id
    ensures PhaseOf(trace + [a, b, c], id)
      == if a.id == id then Step(Step(Step(PhaseOf(trace, id), a), b), c) else PhaseOf(trace, id)
  {
    hide Step, PhaseOf;
    PhaseAfter(trace, a, id);
    PhaseAfter(trace + [a], b, id);
    PhaseAfter(trace + [a] + [b], c, id);
    assert trace + [a] + [b] + [c] == trace + [a, b, c];
  }

  lemma AnsweredAfter(answers: seq<Answer>, a: Answer, r: nat)
    ensures Answered(answers + [a], r) == Answered(answers, r) + if a.request == r then 1 else 0
  {
    assert (answers + [a])[..|answers|] == answers;
  }

  lemma OccursAfter(waiting: seq<nat>, w: nat, r: nat)
    ensures Occurrences(waiting + [w], r) == Occurrences(waiting, r) + if w == r then 1 else 0
  {
    assert (waiting + [w])[..|waiting|] == waiting;
  }

  lemma {:induction false} AnsweringAll(answers: seq<Answer>, waiting: seq<nat>, link: Option<LinkId>, r: nat)
    ensures Answered(answers + AnswerAll(waiting, link), r) == Answered(answers, r) + Occurrences(waiting, r)
    decreases |waiting|
  {
    hide Answered;
    if waiting == [] {
      assert answers + AnswerAll(waiting, link) == answers;
    } else {
      var front := waiting[..|waiting| - 1];
      AnsweringAll(answers, front, link, r);
      AnsweredAfter(answers + AnswerAll(front, link), Answer(waiting[|waiting| - 1], link), r);
      assert answers + AnswerAll(waiting, link) == answers + AnswerAll(front, link)
          + [Answer(waiting[|waiting| - 1], link)];
    }
  }

  lemma {:induction false} OccursMember(waiting: seq<nat>, r: nat)
    ensures Occurrences(waiting, r) > 0 <==> r in waiting
    decreases |waiting|
  {
    if waiting != [] {
      OccursMember(waiting[..|waiting| - 1], r);
      assert waiting == waiting[..|waiting| - 1] + [waiting[|waiting| - 1]];
    }
  }

  // -- closing ---------------------------------------------------------------

  lemma CloseTold(t: Table, id: LinkId, failed: bool)
    requires id in t.links && Told(t) && Recorded(t)
    ensures Told(CloseLink(t, id, failed))
  {
    hide PhaseOf;
    var t' := CloseLink(t, id, failed);
    forall x ensures PhaseOf(t'.trace, x) == Standing(t', x) {
      PhaseAfter(t.trace, Ended(id, failed), x);
      assert PhaseOf(t.trace, x) == Standing(t, x);
    }
  }

  lemma CloseRouted(t: Table, id: LinkId, failed: bool)
    requires id in t.links && Routed(t)
    ensures Routed(CloseLink(t, id, failed))
  {
  }

  lemma CloseRecorded(t: Table, id: LinkId, failed: bool)
    requires id in t.links && Recorded(t)
    ensures Recorded(CloseLink(t, id, failed))
  {
  }

  lemma CloseAnswering(t: Table, id: LinkId, failed: bool)
    requires id in t.links && Answering(t)
    ensures Answering(CloseLink(t, id, failed))
  {
    hide Answered, Occurrences;
    var t' := CloseLink(t, id, failed);
    var w := t.links[id].waiting;
    Settling(t, id, None);
    forall r: nat, x | WaitsAt(t', r, x) ensures WaitsAt(t, r, x) && x != id {
    }
    forall r: nat | r < |t'.asked| && Answered(t'.answers, r) == 0 ensures exists x :: WaitsAt(t', r, x) {
      var x :| WaitsAt(t, r, x);
      assert x != id;
      assert WaitsAt(t', r, x);
    }
  }

  /** Answering everyone who waits at `id` leaves each connect answered at most once. */
  lemma Settling(t: Table, id: LinkId, link: Option<LinkId>)
    requires id in t.links && Answering(t)
    ensures forall r: nat ::
      Answered(t.answers + AnswerAll(t.links[id].waiting, link), r)
          == Answered(t.answers, r) + Occurrences(t.links[id].waiting, r)
    ensures forall r: nat ::
      Answered(t.answers, r) + Occurrences(t.links[id].waiting, r) <= if r < |t.asked| then 1 else 0
    ensures forall r: nat, x :: WaitsAt(t, r, x) && x != id ==> Occurrences(t.links[id].waiting, r) == 0
  {
    hide Answered, Occurrences;
    var w := t.links[id].waiting;
    forall r: nat ensures Answered(t.answers + AnswerAll(w, link), r) == Answered(t.answers, r) + Occurrences(w, r) {
      AnsweringAll(t.answers, w, link, r);
    }
    forall r: nat ensures Answered(t.answers, r) + Occurrences(w, r) <= if r < |t.asked| then 1 else 0 {
      if Occurrences(w, r) > 0 {
        assert WaitsAt(t, r, id);
      }
    }
    forall r: nat, x | WaitsAt(t, r, x) && x != id ensures Occurrences(w, r) == 0 {
      assert Occurrences(w, r) == 0 || WaitsAt(t, r, id);
    }
  }

  lemma CloseTruthful(t: Table, id: LinkId, failed: bool)
    requires Truthful(t)
    ensures Truthful(CloseLink(t, id, failed))
  {
  }

  lemma CloseKeepsInv(t: Table, id: LinkId, failed: bool)
    requires Inv(t)
    ensures Inv(CloseLink(t, id, failed))
  {
    hide Routed, Recorded, Told, Answering, Truthful;
    if id in t.links {
      CloseTold(t, id, failed);
      CloseRouted(t, id, failed);
      CloseRecorded(t, id, failed);
      CloseAnswering(t, id, failed);
      CloseTruthful(t, id, failed);
    }
  }

  lemma {:induction false} CloseEachKeepsInv(t: Table, ids: seq<LinkId>, failed: bool)
    requires Inv(t)
    ensures Inv(CloseEach(t, ids, failed))
    decreases |ids|
  {
    hide Inv, CloseLink;
    if ids != [] {
      CloseKeepsInv(t, ids[0], failed);
      CloseEachKeepsInv(CloseLink(t, ids[0], failed), ids[1..], failed);
    }
  }

  // -- opening ---------------------------------------------------------------

  lemma OpenTold(t: Table, id: LinkId, size: nat)
    requires id in t.links && !t.links[id].opened_
    requires PhaseOf(t.trace, id) in {Unborn, Dialling}
    requires forall x :: x != id ==> PhaseOf(t.trace, x) == Standing(t, x)
    ensures Told(OpenLink(t, id, size))
  {
    hide PhaseOf;
    var t' := OpenLink(t, id, size);
    forall x ensures PhaseOf(t'.trace, x) == Standing(t', x) {
      PhaseAfterThree(t.trace, LinkOpened(id, t.links[id].role == Peripheral, size), MtuChanged(id, size),
          Connected(id), x);
    }
  }

  lemma OpenAnswering(t: Table, id: LinkId, size: nat)
    requires id in t.links && Answering(t)
    ensures Answering(OpenLink(t, id, size))
  {
    hide Answered, Occurrences;
    var t' := OpenLink(t, id, size);
    if !t.links[id].opened_ {
      Settling(t, id, Some(id));
      NobodyWaits();
      forall r: nat, x | WaitsAt(t', r, x) ensures WaitsAt(t, r, x) && x != id {
      }
      forall r: nat | r < |t'.asked| && Answered(t'.answers, r) == 0 ensures exists x :: WaitsAt(t', r, x) {
        var x :| WaitsAt(t, r, x);
        assert x != id;
        assert WaitsAt(t', r, x);
      }
    }
  }

  lemma NobodyWaits()
    ensures forall r: nat :: Occurrences([], r) == 0
  {
  }

  lemma OpenTruthful(t: Table, id: LinkId, size: nat)
    requires id in t.links && Recorded(t) && Answering(t) && Truthful(t)
    ensures Truthful(OpenLink(t, id, size))
  {
    hide Answered, Occurrences;
    var w := t.links[id].waiting;
    forall i | 0 <= i < |w| ensures w[i] < |t.asked| && t.born[id] == Born(Central, t.asked[w[i]]) {
      OccursMember(w, w[i]);
      assert WaitsAt(t, w[i], id);
    }
  }

  // -- a change that leaves everything but one size alone --------------------

  lemma SignalTold(t: Table, t': Table, s: Signal)
    requires Told(t) && s.id in t.links
    requires s.Received? || (s.MtuChanged? && t.links[s.id].opened_)
    requires t'.trace == t.trace + [s] && forall x :: Standing(t', x) == Standing(t, x)
    ensures Told(t')
  {
    hide PhaseOf;
    forall x ensures PhaseOf(t'.trace, x) == Standing(t', x) {
      PhaseAfter(t.trace, s, x);
      assert PhaseOf(t.trace, x) == Standing(t, x);
    }
  }

  /** Routing looks at roles and devices only. */
  lemma SameRoutes(t: Table, t': Table)
    requires Routed(t) && t'.byPeripheral == t.byPeripheral && t'.byCentral == t.byCentral
        && t'.links.Keys == t.links.Keys
    requires forall id :: id in t.links ==>
      t'.links[id].role == t.links[id].role && t'.links[id].device == t.links[id].device
    ensures Routed(t')
  {
    assert forall id :: id in t'.links <==> id in t.links;
  }

  lemma SameRecords(t: Table, t': Table)
    requires Recorded(t) && t'.born == t.born && t'.links.Keys == t.links.Keys
    requires forall id :: id in t.links ==>
      t'.links[id].role == t.links[id].role && t'.links[id].device == t.links[id].device
    requires forall id :: id in t.links ==>
      && (t.links[id].opened_ ==> t'.links[id].opened_)
      && (t'.links[id].opened_ ==> t'.links[id].waiting == [])
    ensures Recorded(t')
  {
    assert forall id :: id in t'.links <==> id in t.links;
  }

  lemma ResizeKeepsShape(t: Table, id: LinkId, size: nat)
    requires Routed(t) && Recorded(t) && id in t.links
    ensures
      var t' := t.(links := t.links[id := t.links[id].(size := size)]);
      Routed(t') && Recorded(t') && forall x :: Standing(t', x) == Standing(t, x)
  {
    hide Routed;
    var t' := t.(links := t.links[id := t.links[id].(size := size)]);
    SameRoutes(t, t');
    SameRecords(t, t');
  }

  lemma SignalKeepsInv(t: Table, id: LinkId, size: nat, s: Signal)
    requires Inv(t) && id in t.links && s.id == id
    requires s.Received? || (s.MtuChanged? && t.links[id].opened_)
    ensures Inv(t.(links := t.links[id := t.links[id].(size := size)], trace := t.trace + [s]))
  {
    hide Told, Answering, Routed, Recorded;
    var t1 := t.(links := t.links[id := t.links[id].(size := size)]);
    var t' := t1.(trace := t.trace + [s]);
    ResizeKeepsShape(t, id, size);
    OnlyTraceDiffers(t1, t');
    SignalTold(t, t', s);
    SameWaiting(t, t');
  }

  lemma OnlyTraceDiffers(t: Table, t': Table)
    requires t' == t.(trace := t'.trace)
    ensures Routed(t') == Routed(t) && Recorded(t') == Recorded(t)
    ensures forall x :: Standing(t', x) == Standing(t, x)
  {
  }

  lemma SameWaiting(t: Table, t': Table)
    requires Answering(t) && t'.answers == t.answers && t'.asked == t.asked && t'.links.Keys == t.links.Keys
    requires forall id :: id in t.links ==>
      t'.links[id].waiting == t.links[id].waiting && t'.links[id].role == t.links[id].role
          && t'.links[id].device == t.links[id].device
    ensures Answering(t')
  {
    hide Answered, Occurrences;
    forall r: nat, id ensures WaitsAt(t', r, id) <==> WaitsAt(t, r, id) {
    }
  }

  lemma AnnounceKeepsInv(t: Table, id: LinkId, size: nat)
    requires Inv(t) && id in t.links
    ensures Inv(Announce(t, id, size))
  {
    hide Inv;
    if Announce(t, id, size) != t {
      SignalKeepsInv(t, id, size, MtuChanged(id, size));
    }
  }

  lemma ReceiveKeepsInv(t: Table, active: Option<LinkId>)
    requires Inv(t)
    ensures Inv(Receive(t, active))
  {
    hide Inv;
    if active.Some? && active.value in t.links {
      var id := active.value;
      SignalKeepsInv(t, id, t.links[id].size, Received(id));
      assert t.links[id := t.links[id].(size := t.links[id].size)] == t.links;
    }
  }

  lemma OpenKeepsInv(t: Table, id: LinkId, size: nat)
    requires Inv(t) && id in t.links
    ensures Inv(OpenLink(t, id, size))
  {
    hide PhaseOf, Routed, Answering, Truthful;
    if !t.links[id].opened_ {
      assert PhaseOf(t.trace, id) == Standing(t, id);
      OpenTold(t, id, size);
      OpenAnswering(t, id, size);
      OpenTruthful(t, id, size);
      SameRoutes(t, OpenLink(t, id, size));
      SameRecords(t, OpenLink(t, id, size));
    }
  }

  // -- connecting ------------------------------------------------------------

  /** A connect answered on the spot. */
  lemma AnsweredAtOnce(t: Table, d: Device, link: Option<LinkId>)
    requires Inv(t)
    requires link.Some? ==> link.value < |t.born| && t.born[link.value] == Born(Central, d)
    ensures Inv(t.(asked := t.asked + [d], answers := t.answers + [Answer(|t.asked|, link)]))
  {
    hide PhaseOf, Answered, Occurrences;
    var request := |t.asked|;
    var t' := t.(asked := t.asked + [d], answers := t.answers + [Answer(request, link)]);
    forall r: nat ensures Answered(t'.answers, r) == Answered(t.answers, r) + if r == request then 1 else 0 {
      AnsweredAfter(t.answers, Answer(request, link), r);
    }
    forall r: nat, id ensures WaitsAt(t', r, id) <==> WaitsAt(t, r, id) {
    }
    forall r: nat | r < |t'.asked| && Answered(t'.answers, r) == 0 ensures exists id :: WaitsAt(t', r, id) {
      assert r < |t.asked| && Answered(t.answers, r) == 0;
      var id :| WaitsAt(t, r, id);
      assert WaitsAt(t', r, id);
    }
  }

  /** A connect that joins the waiting list of a dialling link to its device. */
  lemma JoiningAnswers(t: Table, t': Table, d: Device, id: LinkId, before: seq<nat>)
    requires Answering(t) && id in t'.links
    requires t'.asked == t.asked + [d] && t'.answers == t.answers
    requires t'.links[id].waiting == before + [|t.asked|] && t'.links[id].role == Central && t'.links[id].device == d
    requires before == if id in t.links then t.links[id].waiting else []
    requires id in t.links ==> t.links[id].role == Central && t.links[id].device == d
    requires t'.links - {id} == t.links - {id}
    ensures Answering(t')
  {
    hide Answered, Occurrences;
    var request := |t.asked|;
    NobodyWaits();
    NoneWaitsYet(t);
    forall r: nat
      ensures Occurrences(t'.links[id].waiting, r) == Occurrences(before, r) + if r == request then 1 else 0
    {
      OccursAfter(before, request, r);
    }
    forall x | x != id ensures x in t'.links <==> x in t.links
      ensures x in t.links ==> t'.links[x] == t.links[x]
    {
      assert x in t'.links <==> x in t'.links - {id};
      assert x in t.links <==> x in t.links - {id};
      assert x in t.links ==> (t'.links - {id})[x] == (t.links - {id})[x];
    }
    forall r: nat, x ensures WaitsAt(t', r, x) <==> WaitsAt(t, r, x) || (r == request && x == id) {
    }
    forall r: nat | r < |t'.asked| && Answered(t'.answers, r) == 0 ensures exists x :: WaitsAt(t', r, x) {
      if r == request {
        assert WaitsAt(t', r, id);
      } else {
        var x :| WaitsAt(t, r, x);
        assert WaitsAt(t', r, x);
      }
    }
  }

  /** The next request number has never been used. */
  lemma NoneWaitsYet(t: Table)
    requires Answering(t)
    ensures Answered(t.answers, |t.asked|) == 0
    ensures forall id :: !WaitsAt(t, |t.asked|, id)
  {
    hide Answered, Occurrences;
  }

  lemma JoinKeepsInv(t: Table, d: Device, id: LinkId)
    requires Inv(t) && ActiveForPeripheral(t, d) == Some(id) && !t.links[id].opened_
    ensures
      var l := t.links[id].(waiting := t.links[id].waiting + [|t.asked|]);
      Inv(t.(asked := t.asked + [d], links := t.links[id := l]))
  {
    hide PhaseOf, Answered, Occurrences, Answering, Truthful;
    var l := t.links[id].(waiting := t.links[id].waiting + [|t.asked|]);
    var t' := t.(asked := t.asked + [d], links := t.links[id := l]);
    assert t'.links - {id} == t.links - {id};
    assert t.links[id].role == Central && t.links[id].device == d;
    JoiningAnswers(t, t', d, id, t.links[id].waiting);
    AskingTruthful(t, t', d);
    SameRoutes(t, t');
    SameRecords(t, t');
    assert forall x :: Standing(t', x) == Standing(t, x);
  }

  lemma AskingTruthful(t: Table, t': Table, d: Device)
    requires Truthful(t) && t'.asked == t.asked + [d] && t'.answers == t.answers && t'.born == t.born
    ensures Truthful(t')
  {
  }

  lemma DialRouted(t: Table, d: Device, waiting: seq<nat>)
    requires Routed(t) && Recorded(t) && d !in t.byPeripheral
    ensures Routed(Dial(t, d, waiting))
  {
    assert |t.born| !in t.links;
  }

  lemma DialRecorded(t: Table, d: Device, waiting: seq<nat>)
    requires Recorded(t)
    ensures Recorded(Dial(t, d, waiting))
  {
  }

  lemma DialTold(t: Table, d: Device, waiting: seq<nat>)
    requires Recorded(t) && Told(t)
    ensures Told(Dial(t, d, waiting))
  {
    hide PhaseOf;
    var id := |t.born|;
    var t' := Dial(t, d, waiting);
    assert id !in t.links;
    forall x ensures PhaseOf(t'.trace, x) == Standing(t', x) {
      PhaseAfter(t.trace, Connecting(id), x);
      assert PhaseOf(t.trace, x) == Standing(t, x);
    }
  }

  lemma DialKeepsShape(t: Table, d: Device, waiting: seq<nat>)
    requires Routed(t) && Recorded(t) && Told(t) && d !in t.byPeripheral
    ensures Routed(Dial(t, d, waiting)) && Recorded(Dial(t, d, waiting)) && Told(Dial(t, d, waiting))
  {
    hide Routed, Recorded, Told, Dial;
    DialRouted(t, d, waiting);
    DialRecorded(t, d, waiting);
    DialTold(t, d, waiting);
  }

  lemma DialTruthful(t: Table, d: Device, waiting: seq<nat>)
    requires Truthful(t)
    ensures Truthful(Dial(t, d, waiting)) && Truthful(t.(asked := t.asked + [d]))
  {
  }

  lemma RestoreKeepsInv(t: Table, d: Device)
    requires Inv(t) && d !in t.byPeripheral
    ensures Inv(Dial(t, d, []))
  {
    hide PhaseOf, Answered, Occurrences, Told, Routed;
    DialKeepsShape(t, d, []);
    DialTruthful(t, d, []);
    var t' := Dial(t, d, []);
    NobodyWaits();
    forall r: nat, x ensures WaitsAt(t', r, x) <==> WaitsAt(t, r, x) {
    }
  }

  lemma AskingKeepsShape(t: Table, d: Device)
    requires Routed(t) && Recorded(t) && Told(t)
    ensures
      var t1 := t.(asked := t.asked + [d]);
      Routed(t1) && Recorded(t1) && Told(t1)
  {
    hide PhaseOf, Routed, Recorded;
    var t1 := t.(asked := t.asked + [d]);
    SameRoutes(t, t1);
    assert Recorded(t1) by { SameRecordsWhole(t, t1); }
    assert forall x :: Standing(t1, x) == Standing(t, x);
  }

  lemma SameRecordsWhole(t: Table, t': Table)
    requires t'.links == t.links && t'.born == t.born
    ensures Recorded(t') == Recorded(t)
  {
  }

  lemma NewConnectKeepsInv(t: Table, d: Device)
    requires Inv(t) && d !in t.byPeripheral
    ensures Inv(Dial(t.(asked := t.asked + [d]), d, [|t.asked|]))
  {
    hide Routed, Told, Truthful, Answering;
    var t1 := t.(asked := t.asked + [d]);
    var id := |t.born|;
    AskingKeepsShape(t, d);
    AskingTruthful(t, t1, d);
    DialTruthful(t1, d, [|t.asked|]);
    DialKeepsShape(t1, d, [|t.asked|]);
    var t' := Dial(t1, d, [|t.asked|]);
    assert id !in t.links;
    assert t'.links - {id} == t.links - {id};
    assert [] + [|t.asked|] == [|t.asked|];
    JoiningAnswers(t, t', d, id, []);
  }

  lemma ConnectKeepsInv(t: Table, d: Device, ready: bool, known: bool)
    requires Inv(t)
    ensures Inv(Connect(t, d, ready, known))
  {
    hide Told, Answering, Truthful;
    var active := ActiveForPeripheral(t, d);
    if !ready {
      AnsweredAtOnce(t, d, None);
    } else if active.Some? {
      if t.links[active.value].opened_ {
        AnsweredAtOnce(t, d, Some(active.value));
      } else {
        JoinKeepsInv(t, d, active.value);
      }
    } else if !known {
      AnsweredAtOnce(t, d, None);
    } else {
      NewConnectKeepsInv(t, d);
    }
  }

  // -- being connected to ----------------------------------------------------

  lemma IncomingRouted(t: Table, d: Device, handle: nat, size: nat)
    requires Routed(t) && Recorded(t) && d !in t.byCentral
    ensures Routed(Incoming(t, d, handle, size))
  {
    assert |t.born| !in t.links;
  }

  lemma IncomingRecorded(t: Table, d: Device, handle: nat, size: nat)
    requires Recorded(t)
    ensures Recorded(Incoming(t, d, handle, size))
  {
  }

  lemma IncomingTold(t: Table, d: Device, handle: nat, size: nat)
    requires Recorded(t) && Told(t)
    ensures Told(Incoming(t, d, handle, size))
  {
    hide PhaseOf;
    var id := |t.born|;
    assert id !in t.links && PhaseOf(t.trace, id) == Standing(t, id);
    var t1 := t.(links := t.links[id := Entry(Peripheral, d, handle, false, 0, [])],
                 byCentral := t.byCentral[d := id], born := t.born + [Born(Peripheral, d)]);
    forall x | x != id ensures PhaseOf(t1.trace, x) == Standing(t1, x) {
      assert PhaseOf(t.trace, x) == Standing(t, x);
    }
    OpenTold(t1, id, size);
  }

  lemma IncomingKeepsInv(t: Table, d: Device, handle: nat, size: nat)
    requires Inv(t) && d !in t.byCentral
    ensures Inv(Incoming(t, d, handle, size))
  {
    hide Routed, Told, Truthful, Answering;
    IncomingRouted(t, d, handle, size);
    IncomingRecorded(t, d, handle, size);
    IncomingTold(t, d, handle, size);
    var id := |t.born|;
    var t' := Incoming(t, d, handle, size);
    assert t'.answers == t.answers + AnswerAll([], Some(id)) == t.answers;
    IncomingAnswering(t, t', id);
    IncomingTruthful(t, t', Born(Peripheral, d));
  }

  lemma IncomingAnswering(t: Table, t': Table, id: LinkId)
    requires Answering(t) && t'.answers == t.answers && t'.asked == t.asked && id !in t.links
    requires id in t'.links && t'.links[id].waiting == [] && t'.links == t.links[id := t'.links[id]]
    ensures Answering(t')
  {
    hide Answered, Occurrences;
    NobodyWaits();
    forall r: nat, x ensures WaitsAt(t', r, x) <==> WaitsAt(t, r, x) {
    }
  }

  lemma IncomingTruthful(t: Table, t': Table, b: Born)
    requires Truthful(t) && t'.answers == t.answers && t'.asked == t.asked && t'.born == t.born + [b]
    ensures Truthful(t')
  {
  }

  lemma SubscribeKeepsInv(t: Table, d: Device, handle: nat, size: nat)
    requires Inv(t)
    ensures Inv(Subscribe(t, d, handle, size))
  {
    hide Told, Answering, Truthful;
    var active := ActiveForCentral(t, d);
    if active.Some? {
      var id := active.value;
      if t.links[id].handle == handle {
        AnnounceKeepsInv(t, id, size);
      } else {
        CloseKeepsInv(t, id, false);
        IncomingKeepsInv(CloseLink(t, id, false), d, handle, size);
      }
    } else {
      IncomingKeepsInv(t, d, handle, size);
    }
  }
}
