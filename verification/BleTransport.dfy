/**
  The transport's link table with its dictionaries updated in place, each call refining
  BleLinkTable.  Two routing dictionaries, one per role, send the stack's callbacks to the
  link that owns the device, and every link leaves all three by the same exit.
 */
module BleTransport {
  import opened Wrappers
  import Spec = BleLinkTable

  class BleTransport {
    var links: map<Spec.LinkId, Spec.Entry>
    var linkIdByPeripheral: map<Spec.Device, Spec.LinkId>
    var linkIdByCentral: map<Spec.Device, Spec.LinkId>
    var nextLinkNumber: nat
    ghost var born: seq<Spec.Born>
    ghost var asked: seq<Spec.Device>
    var requests: nat
    var events: seq<Spec.Signal>
    var answers: seq<Spec.Answer>
    var hangUps: seq<Spec.HangUp>

    ghost predicate Valid()
      reads this
    {
      nextLinkNumber == |born| && requests == |asked|
    }

    ghost function Now(): Spec.Table
      reads this
    {
      Spec.Table(links, linkIdByPeripheral, linkIdByCentral, born, asked, events, answers, hangUps)
    }

    constructor ()
      ensures Valid() && Now() == Spec.NEW_TABLE
    {
      links, linkIdByPeripheral, linkIdByCentral := map[], map[], map[];
      nextLinkNumber, requests, born, asked := 0, 0, [], [];
      events, answers, hangUps := [], [], [];
    }

    method MakeLink(entry: Spec.Entry) returns (id: Spec.LinkId)
      requires Valid()
      modifies this
      ensures Valid() && id == |old(born)|
      ensures Now() == old(Now()).(links := old(links)[id := entry],
                                   born := old(born) + [Spec.Born(entry.role, entry.device)])
    {
      id := nextLinkNumber;
      nextLinkNumber := nextLinkNumber + 1;
      links := links[id := entry];
      born := born + [Spec.Born(entry.role, entry.device)];
    }

    method Connect(device: Spec.Device, ready: bool, known: bool)
      requires Valid()
      modifies this
      ensures Valid() && Now() == Spec.Connect(old(Now()), device, ready, known)
    {
      var request := requests;
      requests := requests + 1;
      asked := asked + [device];
      if !ready {
        answers := answers + [Spec.Answer(request, None)];
        return;
      }
      if device in linkIdByPeripheral && linkIdByPeripheral[device] in links {
        var id := linkIdByPeripheral[device];
        if links[id].opened_ {
          answers := answers + [Spec.Answer(request, Some(id))];
        } else {
          links := links[id := links[id].(waiting := links[id].waiting + [request])];
        }
        return;
      }
      if !known {
        answers := answers + [Spec.Answer(request, None)];
        return;
      }
      var id := MakeLink(Spec.Entry(Spec.Central, device, 0, false, 0, [request]));
      linkIdByPeripheral := linkIdByPeripheral[device := id];
      events := events + [Spec.Connecting(id)];
    }

    method OpenLink(id: Spec.LinkId, size: nat)
      requires Valid() && id in links
      modifies this
      ensures Valid() && Now() == Spec.OpenLink(old(Now()), id, size)
    {
      var link := links[id];
      if link.opened_ { return; }
      links := links[id := link.(opened_ := true, size := size, waiting := [])];
      events := events + [Spec.LinkOpened(id, link.role == Spec.Peripheral, size), Spec.MtuChanged(id, size),
          Spec.Connected(id)];
      answers := answers + Spec.AnswerAll(link.waiting, Some(id));
    }

    method AnnounceDatagramSize(id: Spec.LinkId, size: nat)
      requires Valid() && id in links
      modifies this
      ensures Valid() && Now() == Spec.Announce(old(Now()), id, size)
    {
      var link := links[id];
      if !link.opened_ || size == link.size || size == 0 { return; }
      links := links[id := link.(size := size)];
      events := events + [Spec.MtuChanged(id, size)];
    }

    method CloseLink(id: Spec.LinkId, failed: bool)
      requires Valid()
      modifies this
      ensures Valid() && Now() == Spec.CloseLink(old(Now()), id, failed)
    {
      if id !in links { return; }
      var link := links[id];
      links := links - {id};
      match link.role {
        case Central =>
          var owner := if link.device in linkIdByPeripheral then Some(linkIdByPeripheral[link.device]) else None;
          if owner == Some(id) { linkIdByPeripheral := linkIdByPeripheral - {link.device}; }
          if owner.None? || owner == Some(id) { hangUps := hangUps + [Spec.HangUp(link.device, id)]; }
        case Peripheral =>
          if link.device in linkIdByCentral && linkIdByCentral[link.device] == id {
            linkIdByCentral := linkIdByCentral - {link.device};
          }
      }
      events := events + [Spec.Ended(id, failed)];
      answers := answers + Spec.AnswerAll(link.waiting, None);
    }

    /** `failConnect`: takes the completion out, closes, then rejects it. */
    method FailConnect(id: Spec.LinkId)
      requires Valid() && id in links
      modifies this
      ensures Valid() && Now() == Spec.CloseLink(old(Now()), id, true)
    {
      var waiting := links[id].waiting;
      links := links[id := links[id].(waiting := [])];
      ghost var t := Now();
      CloseLink(id, true);
      assert t.links - {id} == old(links) - {id};
      assert t.answers + Spec.AnswerAll([], None) == t.answers;
      answers := answers + Spec.AnswerAll(waiting, None);
    }

    /** Closes a snapshot of the links, in whatever order the dictionary gives them. */
    method CloseAll(role: Option<Spec.Role>, failed: bool) returns (ghost order: seq<Spec.LinkId>)
      requires Valid()
      modifies this
      ensures Valid() && Spec.Covers(old(Now()), role, order)
      ensures Now() == Spec.CloseEach(old(Now()), order, failed)
    {
      var remaining := set id | id in links && (role.None? || links[id].role == role.value);
      order := [];
      while remaining != {}
        invariant Valid() && Now() == Spec.CloseEach(old(Now()), order, failed)
        invariant forall id :: id in remaining || id in order <==>
          id in old(links) && (role.None? || old(links)[id].role == role.value)
        decreases |remaining|
      {
        var id :| id in remaining;
        remaining := remaining - {id};
        CloseEachAppends(old(Now()), order, id, failed);
        CloseLink(id, failed);
        order := order + [id];
      }
    }

    method HandleDisconnect(device: Spec.Device, fromProbe: bool)
      requires Valid()
      modifies this
      ensures Valid() && Now() == Spec.Next(old(Now()), Spec.Disconnected(device, fromProbe))
    {
      if device !in linkIdByPeripheral || linkIdByPeripheral[device] !in links { return; }
      var id := linkIdByPeripheral[device];
      if fromProbe && !links[id].opened_ { return; }
      if links[id].opened_ { CloseLink(id, false); } else { FailConnect(id); }
    }

    /** The same central object again refreshes its link; a different one replaces it. */
    method DidSubscribe(device: Spec.Device, handle: nat, size: nat)
      requires Valid()
      modifies this
      ensures Valid() && Now() == Spec.Subscribe(old(Now()), device, handle, size)
    {
      if device in linkIdByCentral && linkIdByCentral[device] in links && links[linkIdByCentral[device]].opened_ {
        var existing := linkIdByCentral[device];
        if links[existing].handle == handle {
          AnnounceDatagramSize(existing, size);
          return;
        }
        CloseLink(existing, false);
      }
      var id := MakeLink(Spec.Entry(Spec.Peripheral, device, handle, false, 0, []));
      linkIdByCentral := linkIdByCentral[device := id];
      OpenLink(id, size);
    }

    method DidUnsubscribe(device: Spec.Device)
      requires Valid()
      modifies this
      ensures Valid() && Now() == Spec.Next(old(Now()), Spec.Unsubscribes(device))
    {
      if device in linkIdByCentral && linkIdByCentral[device] in links { CloseLink(linkIdByCentral[device], false); }
    }

    /** Re-adopts what the system kept connected, skipping what is already routed. */
    method WillRestore(restored: seq<Spec.Device>)
      requires Valid()
      modifies this
      ensures Valid() && Now() == RestoreEach(old(Now()), restored)
    {
      for i := 0 to |restored|
        invariant Valid() && RestoreEach(Now(), restored[i..]) == RestoreEach(old(Now()), restored)
      {
        assert restored[i..][0] == restored[i] && restored[i..][1..] == restored[i + 1..];
        var device := restored[i];
        if device !in linkIdByPeripheral {
          var id := MakeLink(Spec.Entry(Spec.Central, device, 0, false, 0, []));
          linkIdByPeripheral := linkIdByPeripheral[device := id];
          events := events + [Spec.Connecting(id)];
        }
      }
    }

    method Stop() returns (ghost order: seq<Spec.LinkId>)
      requires Valid()
      modifies this
      ensures Valid() && Spec.Covers(old(Now()), None, order)
      ensures Now() == Spec.Next(old(Now()), Spec.Stops(order))
    {
      order := CloseAll(None, false);
      links, linkIdByPeripheral, linkIdByCentral := map[], map[], map[];
    }
  }

  ghost function RestoreEach(t: Spec.Table, restored: seq<Spec.Device>): Spec.Table
    decreases |restored|
  {
    if restored == [] then t else RestoreEach(Spec.Next(t, Spec.Restores(restored[0])), restored[1..])
  }

  lemma {:induction false} CloseEachAppends(t: Spec.Table, ids: seq<Spec.LinkId>, id: Spec.LinkId, failed: bool)
    ensures Spec.CloseEach(t, ids + [id], failed) == Spec.CloseLink(Spec.CloseEach(t, ids, failed), id, failed)
    decreases |ids|
  {
    hide Spec.CloseLink;
    if ids == [] {
      assert Spec.CloseEach(Spec.CloseLink(t, id, failed), [], failed) == Spec.CloseLink(t, id, failed);
    } else {
      assert (ids + [id])[1..] == ids[1..] + [id];
      CloseEachAppends(Spec.CloseLink(t, ids[0], failed), ids[1..], id, failed);
    }
  }
}
