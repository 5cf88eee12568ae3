/** What one call does to a fast path: what it takes, when it writes, and when it must wait. */
module BleChannelService {
  import opened Wrappers
  import opened Bytes
  import opened BleFraming
  import opened BleL2CAP
  import opened BleLinkQueue
  import Order = BleLinkOrder
  import opened BleLinkService

  /** The session completed more datagrams, and settled exactly those, with success, in order. */
  ghost predicate Progressed(s: Session, s': Session) {
    && s.completed <= s'.completed
    && s'.settled == s.settled + Settlements(s'.completed[|s.completed|..], true)
  }

  lemma NoProgress(s: Session, s': Session)
    requires s'.completed == s.completed && s'.settled == s.settled
    ensures Progressed(s, s')
  {
    assert s.completed[|s.completed|..] == [];
  }

  lemma OneProgress(s: Session, s': Session)
    requires s.pending != [] && s'.completed == s.completed + [s.pending[0]]
    requires s'.settled == s.settled + [Settlement(s.pending[0].id, true)]
    ensures Progressed(s, s')
  {
    assert s'.completed[|s.completed|..] == [s.pending[0]];
  }

  lemma ProgressTwice(s: Session, s1: Session, s2: Session)
    requires Progressed(s, s1) && Progressed(s1, s2)
    ensures Progressed(s, s2)
  {
    hide Settlements;
    SuffixesJoin(s.completed, s1.completed, s2.completed);
    SettlementsJoin(s1.completed[|s.completed|..], s2.completed[|s1.completed|..], true);
  }

  lemma SuffixesJoin(a: seq<Item>, b: seq<Item>, c: seq<Item>)
    requires a <= b <= c
    ensures a <= c && c[|a|..] == b[|a|..] + c[|b|..]
  {
  }

  lemma WritingProgresses(s: Session, n: int)
    requires s.pending != [] && n <= Remaining(s)
    ensures Progressed(s, WriteOnce(s, n))
  {
    hide Progressed;
    if n > 0 && n == Remaining(s) {
      OneProgress(s, WriteOnce(s, n));
    } else {
      NoProgress(s, WriteOnce(s, n));
    }
  }

  /** With datagrams left and the channel open, the session waits for the channel to have space. */
  ghost predicate Rested(s: Session) {
    !s.closed && s.pending != [] ==> !s.canWrite
  }

  lemma {:induction false} PumpProgresses(s: Session, writes: seq<int>)
    ensures Progressed(s, Pump(s, writes)) && Rested(Pump(s, writes))
    decreases |s.pending|, s.canWrite
  {
    hide Progressed;
    NoProgress(s, s);
    if !s.closed && s.canWrite && s.pending != [] {
      if Remaining(s) <= 0 {
        OneProgress(s, Complete(s));
        PumpProgresses(Complete(s), writes);
        ProgressTwice(s, Complete(s), Pump(s, writes));
      } else {
        var n := Answer(writes, Remaining(s));
        WritingProgresses(s, n);
        PumpProgresses(WriteOnce(s, n), Tail(writes));
        ProgressTwice(s, WriteOnce(s, n), Pump(s, writes));
      }
    }
  }

  /** The channel is ready for each of these writes to the last byte. */
  ghost predicate Generous(s: Session, writes: seq<int>) {
    && |s.pending| <= |writes|
    && forall i, k :: 0 <= i < |writes| && 0 <= k < |s.pending| ==> |Framed(s.pending[k])| <= writes[i]
  }

  /** A channel that takes every byte offered is given everything there is, and each promise succeeds. */
  lemma {:induction false} ReadyChannelDrains(s: Session, writes: seq<int>)
    requires SessionInv(s) && !s.closed && s.canWrite && Generous(s, writes)
    ensures var s' := Pump(s, writes);
            s'.pending == [] && s'.completed == s.completed + s.pending && !s'.closed && s'.canWrite
    decreases |s.pending|
  {
    hide StreamIs;
    if s.pending != [] {
      HeadRemains(s);
      var n := Answer(writes, Remaining(s));
      WriteOnceKeepsInv(s, n);
      assert Generous(WriteOnce(s, n), Tail(writes)) by { StillGenerous(s, writes); }
      ReadyChannelDrains(WriteOnce(s, n), Tail(writes));
    }
  }

  lemma HeadRemains(s: Session)
    requires SessionInv(s) && !s.closed && s.pending != []
    ensures 0 < Remaining(s) <= |Framed(s.pending[0])|
  {
  }

  lemma StillGenerous(s: Session, writes: seq<int>)
    requires s.pending != [] && Generous(s, writes)
    ensures Generous(s.(pending := s.pending[1..]), writes[1..])
    ensures forall s': Session :: s'.pending == s.pending[1..] ==> Generous(s', writes[1..])
  {
  }

  // -- one send --------------------------------------------------------------

  /** The session has room for a framed datagram of this size. */
  ghost predicate Takes(s: Session, item: Item) {
    && !s.closed && |item.data| <= MAX_DATAGRAM_SIZE
    && FramedBytes(s.pending) - s.writeOffset + |Framed(item)| <= MAX_QUEUED_BYTES
  }

  /**
    A datagram goes behind everything the session has exactly when there is room for it; if
    not, its promise fails and the stream, the queue and what was written stay as they are.
   */
  lemma SendTakesExactly(s: Session, item: Item, writes: seq<int>)
    requires SessionInv(s)
    ensures
      var s' := Sending(s, item, writes);
      if Takes(s, item) then
        && s'.completed + Unsettled(s') == s.completed + Unsettled(s) + [item]
        && Progressed(s, s') && Rested(s')
      else
        && s' == s.(settled := s.settled + [Settlement(item.id, false)], refused := s'.refused)
        && s'.refused == s.refused + if s.closed then 1 else 0
  {
    hide Progressed, Rested, StreamIs;
    if Takes(s, item) {
      QueuedKeepsInv(s, item);
      PumpKeepsInv(Queued(s, item), writes);
      PumpProgresses(Queued(s, item), writes);
      assert Progressed(s, Pump(Queued(s, item), writes)) by {
        NoProgress(s, Queued(s, item));
        ProgressTwice(s, Queued(s, item), Pump(Queued(s, item), writes));
      }
      assert s.completed + (s.pending + [item]) == s.completed + s.pending + [item];
    }
  }

  // -- every run of a link ---------------------------------------------------

  lemma SessionCallsRest(s: Session, item: Item, writes: seq<int>)
    requires Rested(s)
    ensures Rested(Sending(s, item, writes)) && Rested(SpaceAvailable(s, writes)) && Rested(Shutdown(s))
  {
    hide Pump;
    PumpProgresses(Queued(s, item), writes);
    PumpProgresses(s.(canWrite := true), writes);
  }

  lemma RequeueKeepsChannel(l: Link, unsent: seq<Item>)
    ensures Requeue(l, unsent).channel == l.channel
  {
    hide Requeue;
    Order.RequeueFrame(l, unsent);
  }

  lemma PumpKeepsChannel(l: Link, credits: nat)
    ensures PumpOutbound(l, credits).channel == l.channel
  {
    hide PumpOutbound, Served;
    var k := PumpServes(l, credits);
  }

  lemma SendRests(l: Link, data: seq<byte>, reliable: bool, credits: nat, writes: seq<int>)
    requires Rested(l.channel)
    ensures Rested(Send(l, data, reliable, credits, writes).channel)
  {
    hide PumpOutbound, Sending;
    var item := Item(|l.sent|, data, reliable);
    PumpKeepsChannel(Enqueued(l.(sent := l.sent + [item]), item), credits);
    SessionCallsRest(l.channel, item, writes);
  }

  lemma ReportRests(l: Link, credits: nat)
    requires Rested(l.channel)
    ensures Rested(HandleFastPathClosed(l, credits).channel)
  {
    hide PumpOutbound, Requeue, SettleAll, Rested;
    AllFail(l.(owes := false), l.channel.handedBack);
    RequeueKeepsChannel(Dropped(l), l.channel.handedBack);
    PumpKeepsChannel(Requeue(Dropped(l), l.channel.handedBack), credits);
  }

  lemma OthersRest(l: Link, ok: bool, credits: nat)
    requires Rested(l.channel)
    ensures Rested(DidWrite(l, ok, credits).channel) && Rested(PumpOutbound(l, credits).channel)
    ensures Rested(Adopt(l, credits).channel) && Rested(Close(l).channel)
  {
    hide PumpOutbound, Close;
    var l1 := if l.reliableInFlight.Some? then Settle(l, l.reliableInFlight.value, ok) else l;
    PumpKeepsChannel(l1.(reliableInFlight := None), credits);
    PumpKeepsChannel(l, credits);
    PumpKeepsChannel(Holding(l), credits);
    if l.closed { CloseIsPrompt(l); } else { CloseFailsWhatWaits(l); }
  }

  lemma NextRests(l: Link, e: Event)
    requires Rested(l.channel)
    ensures Rested(Next(l, e).channel)
  {
    hide Rested, PumpOutbound, Send, DidWrite, Adopt, HandleFastPathClosed, Close, SpaceAvailable, Shutdown;
    match e
    case Sends(data, reliable, credits, writes) => SendRests(l, data, reliable, credits, writes);
    case Acknowledged(ok, credits) => OthersRest(l, ok, credits);
    case GattReady(credits) => OthersRest(l, true, credits);
    case ChannelOpens(credits) => OthersRest(l, true, credits);
    case ChannelHasSpace(writes) => SessionCallsRest(l.channel, Item(0, [], false), writes);
    case ChannelDies => SessionCallsRest(l.channel, Item(0, [], false), []);
    case ChannelReports(credits) => ReportRests(l, credits);
    case Closes => OthersRest(l, true, 0);
    case _ =>
  }

  lemma {:induction false} RunRests(l: Link, events: seq<Event>)
    requires Rested(l.channel)
    ensures Rested(Run(l, events).channel)
    decreases |events|
  {
    hide Rested, Next;
    if events != [] {
      NextRests(l, events[0]);
      RunRests(Next(l, events[0]), events[1..]);
    }
  }

  /** After any run a live channel with datagrams left is one that said it had no more space. */
  lemma ChannelIsNeverIdle(role: Role, size: nat, events: seq<Event>)
    ensures var s := Run(NewLink(role, size), events).channel;
            !s.closed && s.pending != [] ==> !s.canWrite
  {
    hide Run;
    RunRests(NewLink(role, size), events);
  }
}
