/**
  The TCP transport with its tables updated in place, each callback refining TcpLinks.
  One table holds the links and another their metrics; a link object outlives its entry,
  so a callback may come for a link that the tables no longer know.
 */
module LocalNetworkTransport {
  import opened Wrappers
  import Spec = TcpLinks

  class LocalNetworkTransport {
    var isStarted: bool
    var peers: seq<Spec.Peer>
    var links: set<Spec.LinkId>
    var metricsByLink: set<Spec.LinkId>
    var asked: nat
    var sends: nat
    var events: seq<Spec.Signal>
    var answers: seq<Spec.Answer>
    var outcomes: seq<Spec.Outcome>

    ghost function Now(): Spec.Net
      reads this
    {
      Spec.Net(isStarted, peers, links, metricsByLink, asked, sends, events, answers, outcomes)
    }

    constructor ()
      ensures Now() == Spec.NEW_NET
    {
      isStarted, peers, links, metricsByLink, asked, sends := false, [], {}, {}, 0, 0;
      events, answers, outcomes := [], [], [];
    }

    method MakeLink(incoming: bool, completion: Option<nat>)
      modifies this
      ensures Now() == Spec.Make(old(Now()), incoming, completion)
    {
      links := links + {|peers|};
      metricsByLink := metricsByLink + {|peers|};
      peers := peers + [Spec.NewPeer(incoming, completion)];
    }

    method Connect(known: bool)
      modifies this
      ensures Now() == Spec.Connect(old(Now()), known)
    {
      var request := asked;
      asked := asked + 1;
      if !isStarted || !known || |links| >= Spec.MAX_CONCURRENT_LINKS {
        answers := answers + [Spec.Answer(request, None)];
        return;
      }
      MakeLink(false, Some(request));
    }

    method Accept()
      modifies this
      ensures Now() == Spec.Accept(old(Now()))
    {
      if !isStarted || |links| >= Spec.MAX_CONCURRENT_LINKS { return; }
      MakeLink(true, None);
    }

    method FinishConnect(id: Spec.LinkId, link: Option<Spec.LinkId>)
      requires id < |peers|
      modifies this
      ensures Now() == Spec.FinishConnect(old(Now()), id, link)
    {
      var completion := peers[id].connectCompletion;
      if completion.None? { return; }
      peers := peers[id := peers[id].(connectCompletion := None)];
      answers := answers + [Spec.Answer(completion.value, link)];
    }

    method ReportTerminal(id: Spec.LinkId, failed: bool)
      requires id < |peers|
      modifies this
      ensures Now() == Spec.ReportTerminal(old(Now()), id, failed)
    {
      if !peers[id].isOpen || peers[id].didReportTerminal { return; }
      peers := peers[id := peers[id].(didReportTerminal := true)];
      events := events + [Spec.Ended(id, failed)];
    }

    method Forget(id: Spec.LinkId)
      modifies this
      ensures Now() == Spec.Forget(old(Now()), id)
    {
      links := links - {id};
      metricsByLink := metricsByLink - {id};
    }

    /** The state handler's `.cancelled`. */
    method Cancelled(id: Spec.LinkId)
      requires id < |peers|
      modifies this
      ensures Now() == Spec.Exit(old(Now()), id, false)
    {
      hide Spec.FinishConnect, Spec.ReportTerminal, Spec.Forget;
      FinishConnect(id, None);
      SamePeerCount(old(Now()), id);
      ReportTerminal(id, false);
      Forget(id);
    }

    method Fail(id: Spec.LinkId, failed: bool)
      requires id < |peers|
      modifies this
      ensures Now() == Spec.Fail(old(Now()), id, failed)
    {
      hide Spec.FinishConnect, Spec.ReportTerminal, Spec.Forget;
      if id !in links { return; }
      FinishConnect(id, None);
      SamePeerCount(old(Now()), id);
      ReportTerminal(id, failed);
      Forget(id);
    }

    method Abandon(id: Spec.LinkId)
      requires id < |peers|
      modifies this
      ensures Now() == Spec.Abandon(old(Now()), id)
    {
      FinishConnect(id, None);
      Forget(id);
    }

    method Open(id: Spec.LinkId)
      requires id < |peers|
      modifies this
      ensures Now() == Spec.Open(old(Now()), id)
    {
      var link := peers[id];
      if link.isOpen || id !in links { return; }
      peers := peers[id := link.(isOpen := true, reading := Spec.ForHeader)];
      events := events + [Spec.LinkOpened(id, link.incoming), Spec.Connected(id)];
      FinishConnect(id, Some(id));
    }

    method Disconnect(id: Spec.LinkId)
      requires id < |peers|
      modifies this
      ensures Now() == Spec.Disconnect(old(Now()), id)
    {
      if id !in links { return; }
      var link := peers[id];
      if link.isOpen && !link.didReportTerminal { events := events + [Spec.Closing(id)]; }
      peers := peers[id := link.(closeWatchdog := true)];
      FinishConnect(id, None);
    }

    method Send(id: Spec.LinkId, size: nat, reliable: bool)
      modifies this
      ensures Now() == Spec.Send(old(Now()), id, size, reliable)
    {
      var send := sends;
      sends := sends + 1;
      if id !in links || id >= |peers| {
        outcomes := outcomes + [Spec.Outcome(send, false)];
        return;
      }
      var link := peers[id];
      if !link.isOpen || link.didReportTerminal || size > Spec.MAX_DATAGRAM_SIZE || size == 0 {
        outcomes := outcomes + [Spec.Outcome(send, false)];
        return;
      }
      if !reliable && link.queuedBytes > Spec.REALTIME_HIGH_WATER_MARK {
        outcomes := outcomes + [Spec.Outcome(send, true)];
        return;
      }
      if link.queuedBytes > Spec.SEND_QUEUE_HARD_LIMIT {
        outcomes := outcomes + [Spec.Outcome(send, false)];
        return;
      }
      var frame := Spec.FrameSize(size);
      peers := peers[id := link.(queuedBytes := link.queuedBytes + frame,
                                 inFlight := link.inFlight + [Spec.Frame(send, frame)])];
    }

    /** The completion of one socket send, which may find its link long forgotten. */
    method ContentProcessed(id: Spec.LinkId, k: nat, ok: bool)
      requires id < |peers| && k < |peers[id].inFlight|
      modifies this
      ensures Now() == Spec.Processed(old(Now()), id, k, ok)
    {
      hide Spec.Fail;
      var link := peers[id];
      var frame := link.inFlight[k];
      var left := if link.queuedBytes >= frame.size then link.queuedBytes - frame.size else 0;
      peers := peers[id := link.(queuedBytes := left, inFlight := link.inFlight[..k] + link.inFlight[k + 1..])];
      outcomes := outcomes + [Spec.Outcome(frame.send, ok)];
      if !ok { Fail(id, true); }
    }

    method LengthPrefixRead(id: Spec.LinkId, r: Spec.Read)
      requires id < |peers|
      modifies this
      ensures Now() == Spec.HeaderRead(old(Now()), id, r)
    {
      hide Spec.Fail;
      if id !in links || peers[id].didReportTerminal { return; }
      match r {
        case Errored => Fail(id, true);
        case Short(isComplete) => Fail(id, !isComplete);
        case Exact(length) =>
          if length > Spec.RECEIVE_HARD_LIMIT || length == 0 {
            Fail(id, true);
          } else {
            peers := peers[id := peers[id].(reading := Spec.ForBody(length))];
          }
      }
    }

    method BodyRead(id: Spec.LinkId, length: nat, r: Spec.Read)
      requires id < |peers|
      modifies this
      ensures Now() == Spec.BodyRead(old(Now()), id, length, r)
    {
      hide Spec.Fail;
      if id !in links || peers[id].didReportTerminal { return; }
      match r {
        case Errored => Fail(id, true);
        case Short(isComplete) => Fail(id, !isComplete);
        case Exact(_) =>
          events := events + [Spec.Received(id, length)];
          peers := peers[id := peers[id].(reading := Spec.ForHeader)];
      }
    }

    /** Reports every link in whatever order the dictionary gives them, then clears the tables. */
    method Teardown() returns (ghost order: seq<Spec.LinkId>)
      requires forall id :: id in links ==> id < |peers|
      modifies this
      ensures Spec.Covers(old(Now()), order)
      ensures Now() == Spec.CloseEach(old(Now()), order).(started := false, links := {}, metrics := {})
    {
      hide Spec.FinishConnect, Spec.ReportTerminal;
      var remaining := links;
      order := [];
      while remaining != {}
        invariant |peers| == |old(peers)| && remaining <= old(links)
        invariant forall i :: 0 <= i < |order| ==> order[i] < |peers| && order[i] in old(links)
        invariant forall id :: id in old(links) ==> id in remaining || id in order
        invariant Now() == Spec.CloseEach(old(Now()), order)
        decreases |remaining|
      {
        var id :| id in remaining;
        remaining := remaining - {id};
        SamePeerCount(Now(), id);
        CloseEachAppends(old(Now()), order, id);
        FinishConnect(id, None);
        ReportTerminal(id, false);
        order := order + [id];
      }
      links, metricsByLink := {}, {};
      isStarted := false;
    }
  }

  lemma SamePeerCount(n: Spec.Net, id: Spec.LinkId)
    requires id < |n.peers|
    ensures
      var n1 := Spec.FinishConnect(n, id, None);
      |n1.peers| == |n.peers| && |Spec.ReportTerminal(n1, id, false).peers| == |n.peers|
  {
  }

  lemma {:induction false} CloseEachAppends(n: Spec.Net, order: seq<Spec.LinkId>, id: Spec.LinkId)
    requires (forall i :: 0 <= i < |order| ==> order[i] < |n.peers|) && id < |n.peers|
    ensures
      var m := Spec.CloseEach(n, order);
      && |m.peers| == |n.peers|
      && Spec.CloseEach(n, order + [id]) == Spec.ReportTerminal(Spec.FinishConnect(m, id, None), id, false)
    decreases |order|
  {
    hide Spec.FinishConnect, Spec.ReportTerminal;
    if order == [] {
      SamePeerCount(n, id);
      var n1 := Spec.ReportTerminal(Spec.FinishConnect(n, id, None), id, false);
      assert (order + [id])[1..] == [];
      assert Spec.CloseEach(n1, []) == n1;
    } else {
      SamePeerCount(n, order[0]);
      assert (order + [id])[1..] == order[1..] + [id];
      CloseEachAppends(Spec.ReportTerminal(Spec.FinishConnect(n, order[0], None), order[0], false), order[1..], id);
    }
  }
}
