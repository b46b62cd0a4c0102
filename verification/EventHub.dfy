/** The subscriber set of the live server: publishEvent, subscribeEvents,
    unsubscribeEvents and the sweep in Close, each a critical section of eventsMu,
    and the replay-gap mark with its compare-and-swap loop. */
module EventHub {
  import opened Wrappers
  import opened Records
  import Broker

  /** One connection's channel. Sending on or closing a closed channel panics, so
      both demand that it is open. */
  class Subscriber {
    var buf: seq<Rec>
    var closed: bool
    var overflowed: bool

    constructor ()
      ensures buf == [] && !closed && !overflowed
    {
      buf, closed, overflowed := [], false, false;
    }

    function View(): Broker.Channel
      reads this
    {
      Broker.Channel(buf, closed, overflowed, false)
    }

    /** The non-blocking send of a select with a default branch. */
    method TrySend(ev: Rec) returns (sent: bool)
      requires !closed
      modifies this`buf
      ensures sent <==> |old(buf)| < Broker.SUBSCRIBER_BUFFER
      ensures buf == if sent then old(buf) + [ev] else old(buf)
    {
      sent := |buf| < Broker.SUBSCRIBER_BUFFER;
      if sent {
        buf := buf + [ev];
      }
    }

    method CloseChannel()
      requires !closed
      modifies this`closed
      ensures closed
    {
      closed := true;
    }
  }

  class EventHub {
    var events: set<Subscriber>
    var lastPublishedID: nat
    var slowDropped: nat

    /** Registered channels are open; overflow and close go together. */
    ghost predicate Valid()
      reads this, events
    {
      && |events| <= Broker.MAX_SUBSCRIBERS
      && forall s :: s in events ==> !s.closed && !s.overflowed
    }

    constructor (lastID: nat)
      ensures Valid() && events == {} && lastPublishedID == lastID && slowDropped == 0
    {
      events, lastPublishedID, slowDropped := {}, lastID, 0;
    }

    /** publishEvent: advances the watermark and offers the event to every registered
        subscriber; one without room is marked, deleted from the set and closed. */
    method PublishEvent(ev: Rec)
      requires Valid()
      modifies this, events
      ensures Valid()
      ensures lastPublishedID == if ev.id > old(lastPublishedID) then ev.id else old(lastPublishedID)
      ensures forall s :: s in old(events) ==> s.View() == Broker.Offer(old(s.View()), ev)
      ensures forall s :: s in events <==> s in old(events) && old(Broker.HasRoom(s.View()))
      ensures slowDropped - old(slowDropped) == |old(events)| - |events|
    {
      if ev.id > lastPublishedID {
        lastPublishedID := ev.id;
      }
      var rest := events;
      ghost var all := events;
      while rest != {}
        invariant rest <= events <= all
        invariant forall s :: s in rest ==> s.View() == old(s.View())
        invariant forall s :: s in all - rest ==> s.View() == Broker.Offer(old(s.View()), ev)
        invariant forall s :: s in all - rest ==> (s in events <==> old(Broker.HasRoom(s.View())))
        invariant Valid() && slowDropped - old(slowDropped) == |all| - |events|
        invariant lastPublishedID == if ev.id > old(lastPublishedID) then ev.id else old(lastPublishedID)
        decreases rest
      {
        var sub :| sub in rest;
        rest := rest - {sub};
        OfferTo(sub, ev);
      }
    }

    /** One subscriber's turn. */
    method OfferTo(sub: Subscriber, ev: Rec)
      requires Valid() && sub in events
      modifies this`events, this`slowDropped, sub
      ensures Valid()
      ensures sub.View() == Broker.Offer(old(sub.View()), ev)
      ensures events == if old(Broker.HasRoom(sub.View())) then old(events) else old(events) - {sub}
      ensures slowDropped == old(slowDropped) + if old(Broker.HasRoom(sub.View())) then 0 else 1
    {
      var sent := sub.TrySend(ev);
      if !sent {
        sub.overflowed := true;
        events := events - {sub};
        sub.CloseChannel();
        slowDropped := slowDropped + 1;
      }
    }

    /** subscribeEvents: refused at the cap; otherwise registered with the watermark. */
    method SubscribeEvents(sub: Subscriber) returns (watermark: nat, admitted: bool)
      requires Valid() && sub !in events && !sub.closed && !sub.overflowed
      modifies this`events
      ensures Valid()
      ensures admitted <==> |old(events)| < Broker.MAX_SUBSCRIBERS
      ensures admitted ==> events == old(events) + {sub} && watermark == lastPublishedID
      ensures !admitted ==> events == old(events) && watermark == 0
    {
      if |events| >= Broker.MAX_SUBSCRIBERS {
        return 0, false;
      }
      events := events + {sub};
      return lastPublishedID, true;
    }

    /** unsubscribeEvents: closes the channel only while it is still registered. */
    method UnsubscribeEvents(sub: Subscriber)
      requires Valid()
      modifies this`events, sub`closed
      ensures Valid() && events == old(events) - {sub}
      ensures sub in old(events) ==> sub.closed
      ensures sub !in old(events) ==> sub.closed == old(sub.closed)
    {
      if sub in events {
        events := events - {sub};
        sub.CloseChannel();
      }
    }

    /** Close's sweep: every registered channel is closed once and the set emptied. */
    method CloseSubscribers()
      requires Valid()
      modifies this`events, events
      ensures Valid() && events == {}
      ensures forall s :: s in old(events) ==> s.View() == Broker.Close(old(s.View()))
    {
      ghost var all := events;
      while events != {}
        invariant events <= all && Valid()
        invariant forall s :: s in events ==> s.View() == old(s.View())
        invariant forall s :: s in all - events ==> s.View() == Broker.Close(old(s.View()))
        decreases events
      {
        var sub :| sub in events;
        sub.CloseChannel();
        events := events - {sub};
      }
    }
  }

  /** The atomic pointer holding the replay-gap mark. Other markers may act between
      any two operations, and only ever lower it. */
  class MarkCell {
    var cur: Option<Broker.Mark>

    ghost predicate Valid()
      reads this
    {
      cur.Some? ==> cur.value.id > 0
    }

    /** `after` is `before`, or a smaller mark than it. */
    static ghost predicate Lowered(before: Option<Broker.Mark>, after: Option<Broker.Mark>) {
      || after == before
      || (after.Some? && 0 < after.value.id && (before.Some? ==> after.value.id < before.value.id))
    }

    /** What concurrent markers may do: any number of successful swaps. */
    method Interfere()
      requires Valid()
      modifies this
      ensures Valid() && Lowered(old(cur), cur)
    {
      var act: bool := *;
      if act && (cur.None? || cur.value.id > 1) {
        var id: nat :| 0 < id && (cur.Some? ==> id < cur.value.id);
        cur := Some(Broker.Mark(id, Broker.PersistFailed));
      }
    }

    method CompareAndSwap(seen: Option<Broker.Mark>, next: Broker.Mark) returns (swapped: bool)
      modifies this
      ensures swapped <==> old(cur) == seen
      ensures cur == if swapped then Some(next) else old(cur)
    {
      swapped := cur == seen;
      if swapped {
        cur := Some(next);
      }
    }

    /** markReplayGap: whatever other markers do, it ends with a mark at or below id
        and never raises one, and it ends: every lost race has lowered the mark. */
    method MarkReplayGap(id: nat, reason: Broker.Reason)
      requires Valid()
      modifies this
      ensures Valid() && Lowered(old(cur), cur)
      ensures id > 0 ==> cur.Some? && cur.value.id <= id
      ensures id == 0 ==> cur == old(cur)
    {
      if id == 0 {
        return;
      }
      var done := false;
      while !done
        invariant Valid() && Lowered(old(cur), cur)
        invariant done ==> cur.Some? && cur.value.id <= id
        decreases !done, cur.None?, if cur.Some? then cur.value.id else 0
      {
        var seen := cur;
        if seen.Some? && seen.value.id != 0 && seen.value.id <= id {
          return;
        }
        Interfere();
        done := CompareAndSwap(seen, Broker.Mark(id, reason));
      }
    }

    /** replayGapInRange reads the mark once and reports it when it lies in (after, until]. */
    method ReplayGapInRange(after: nat, until: nat) returns (gap: Option<Broker.Mark>)
      requires Valid()
      ensures gap == Broker.GapInRange(cur, after, until)
      ensures gap.Some? ==> after < gap.value.id && (until > 0 ==> gap.value.id <= until)
    {
      var mark := cur;
      if mark.None? || mark.value.id == 0 || mark.value.id <= after {
        return None;
      }
      if until > 0 && mark.value.id > until {
        return None;
      }
      return mark;
    }
  }
}
