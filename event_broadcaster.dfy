/**
 * `EventBroadcaster` and `Event` (jarvis-web/backend/event_broadcaster.py):
 * out-of-band events fanned out to the subscribers whose auth level is
 * high enough, with delivery statistics and removal of subscribers whose
 * delivery failed.
 *
 * A subscriber's send function is not modelled; each delivery attempt
 * either succeeds, and the message is appended to `outbox`, or raises,
 * as the caller's `fails` says.
 */
module EventBroadcasting {
  import opened Common
  import opened Json
  import opened OrderedDicts

  /** `Event`: its type's string value, payload, timestamp and the least auth level that may see it. */
  datatype Event = Event(eventType: string, data: map<string, Json>, timestamp: string, minAuthLevel: int)

  /** `to_websocket_message`. */
  function ToWebsocketMessage(e: Event): (r: Json)
    ensures r.JObj? && r.fields.Keys == {"channel", "type", "data", "timestamp"}
    ensures r.fields["channel"] == JStr("oob") && r.fields["type"] == JStr(e.eventType)
    ensures r.fields["data"] == JObj(e.data) && r.fields["timestamp"] == JStr(e.timestamp)
  {
    JObj(map["channel" := JStr("oob"), "type" := JStr(e.eventType), "data" := JObj(e.data),
             "timestamp" := JStr(e.timestamp)])
  }

  /** One message handed to a subscriber's send function without error. */
  datatype Delivery = Delivery(subscriberId: string, message: Json)

  type Subscribers = ODict<string, int>

  /** The subscribers, in table order, that may receive an event needing `minAuth`. */
  function Eligible(ids: seq<string>, levels: map<string, int>, minAuth: int): (r: seq<string>)
    requires forall i :: 0 <= i < |ids| ==> ids[i] in levels
    ensures forall i :: 0 <= i < |r| ==> r[i] in ids && levels[r[i]] >= minAuth
    ensures forall i :: 0 <= i < |ids| && levels[ids[i]] >= minAuth ==> ids[i] in r
  {
    if |ids| == 0 then []
    else
      var init := Eligible(ids[..|ids| - 1], levels, minAuth);
      var id := ids[|ids| - 1];
      assert forall i :: 0 <= i < |ids| - 1 ==> ids[..|ids| - 1][i] == ids[i];
      if levels[id] >= minAuth then init + [id] else init
  }

  /** The eligible subscribers whose send raised. */
  function FailedIds(ids: seq<string>, levels: map<string, int>, minAuth: int, fails: set<string>): (r: seq<string>)
    requires forall i :: 0 <= i < |ids| ==> ids[i] in levels
    ensures forall k :: 0 <= k < |r| ==> r[k] in ids && levels[r[k]] >= minAuth && r[k] in fails
    ensures forall i :: 0 <= i < |ids| && levels[ids[i]] >= minAuth && ids[i] in fails ==> ids[i] in r
  {
    if |ids| == 0 then []
    else
      var init := FailedIds(ids[..|ids| - 1], levels, minAuth, fails);
      var id := ids[|ids| - 1];
      assert forall i :: 0 <= i < |ids| - 1 ==> ids[..|ids| - 1][i] == ids[i];
      if levels[id] >= minAuth && id in fails then init + [id] else init
  }

  /** The messages delivered, in table order. */
  function Sends(ids: seq<string>, levels: map<string, int>, minAuth: int, fails: set<string>, msg: Json)
    : (r: seq<Delivery>)
    requires forall i :: 0 <= i < |ids| ==> ids[i] in levels
    ensures forall k :: 0 <= k < |r| ==>
      r[k].subscriberId in ids && levels[r[k].subscriberId] >= minAuth && r[k].subscriberId !in fails &&
      r[k].message == msg
    ensures forall i :: 0 <= i < |ids| && levels[ids[i]] >= minAuth && ids[i] !in fails ==>
      Delivery(ids[i], msg) in r
  {
    if |ids| == 0 then []
    else
      var init := Sends(ids[..|ids| - 1], levels, minAuth, fails, msg);
      var id := ids[|ids| - 1];
      assert forall i :: 0 <= i < |ids| - 1 ==> ids[..|ids| - 1][i] == ids[i];
      if levels[id] >= minAuth && id !in fails then init + [Delivery(id, msg)] else init
  }

  /** Unsubscribing each of `ids` in turn. */
  function RemoveAll(d: Subscribers, ids: seq<string>): (r: Subscribers)
    ensures forall k :: k in r.m <==> k in d.m && k !in ids
    ensures forall k :: k in r.m ==> r.m[k] == d.m[k]
  {
    if |ids| == 0 then d
    else Remove(RemoveAll(d, ids[..|ids| - 1]), ids[|ids| - 1])
  }

  /** The send loop of `broadcast`: the deliveries made and the subscribers whose send raised. */
  method FanOut(subs: Subscribers, minAuth: int, fails: set<string>, msg: Json)
    returns (sent: seq<Delivery>, failed: seq<string>)
    ensures forall i :: 0 <= i < |subs.keys| ==> subs.keys[i] in subs.m
    ensures sent == Sends(subs.keys, subs.m, minAuth, fails, msg)
    ensures failed == FailedIds(subs.keys, subs.m, minAuth, fails)
  {
    var ids, levels := subs.keys, subs.m;
    assert forall i :: 0 <= i < |ids| ==> ids[i] in levels;
    sent, failed := [], [];
    var i := 0;
    while i < |ids|
      invariant 0 <= i <= |ids|
      invariant sent == Sends(ids[..i], levels, minAuth, fails, msg)
      invariant failed == FailedIds(ids[..i], levels, minAuth, fails)
    {
      var id := ids[i];
      assert ids[..i + 1][..i] == ids[..i];
      if levels[id] >= minAuth {
        if id in fails {
          failed := failed + [id];
        } else {
          sent := sent + [Delivery(id, msg)];
        }
      }
      i := i + 1;
    }
    assert ids[..i] == ids;
  }

  /** The clean-up loop of `broadcast`: each failed subscriber unsubscribed in turn. */
  method UnsubscribeAll(d: Subscribers, ids: seq<string>) returns (r: Subscribers)
    ensures r == RemoveAll(d, ids)
  {
    r := d;
    var j := 0;
    while j < |ids|
      invariant 0 <= j <= |ids|
      invariant r == RemoveAll(d, ids[..j])
    {
      assert ids[..j + 1][..j] == ids[..j];
      r := Remove(r, ids[j]);
      j := j + 1;
    }
    assert ids[..j] == ids;
  }

  /** `_count_by_auth_level` as a function of the levels in table order. */
  function CountLevels(levels: seq<int>): ODict<int, nat>
  {
    if |levels| == 0 then Empty()
    else
      CountOne(CountLevels(levels[..|levels| - 1]), levels[|levels| - 1])
  }

  /** `counts[l] = counts.get(l, 0) + 1`. */
  function CountOne(counts: ODict<int, nat>, l: int): ODict<int, nat>
  {
    Put(counts, l, GetOr(counts, l, 0) + 1)
  }

  function Occurrences(levels: seq<int>, l: int): nat
  {
    if |levels| == 0 then 0
    else Occurrences(levels[..|levels| - 1], l) + (if levels[|levels| - 1] == l then 1 else 0)
  }

  function SumNats(s: seq<nat>): nat
  {
    if |s| == 0 then 0 else s[0] + SumNats(s[1..])
  }

  /** `get_stats`. */
  datatype Stats = Stats(eventsSent: nat, eventsByType: map<string, nat>, failedDeliveries: nat,
                         activeSubscribers: nat, byAuthLevel: ODict<int, nat>)

  class EventBroadcaster {
    var subscribers: Subscribers
    var eventsSent: nat
    var eventsByType: map<string, nat>
    var failedDeliveries: nat
    var outbox: seq<Delivery>

    constructor()
      ensures subscribers == Empty() && eventsSent == 0 && eventsByType == map[] && failedDeliveries == 0
      ensures outbox == []
    {
      subscribers := Empty();
      eventsSent := 0;
      eventsByType := map[];
      failedDeliveries := 0;
      outbox := [];
    }

    /** `subscribe`: adds the subscriber, or replaces its level in place. */
    method Subscribe(subscriberId: string, authLevel: int)
      modifies this
      ensures subscribers == Put(old(subscribers), subscriberId, authLevel)
      ensures eventsSent == old(eventsSent) && eventsByType == old(eventsByType)
      ensures failedDeliveries == old(failedDeliveries) && outbox == old(outbox)
    {
      subscribers := Put(subscribers, subscriberId, authLevel);
    }

    /** `unsubscribe`: removes the subscriber if present, and otherwise does nothing. */
    method Unsubscribe(subscriberId: string)
      modifies this
      ensures subscribers == Remove(old(subscribers), subscriberId)
      ensures eventsSent == old(eventsSent) && eventsByType == old(eventsByType)
      ensures failedDeliveries == old(failedDeliveries) && outbox == old(outbox)
    {
      subscribers := Remove(subscribers, subscriberId);
    }

    /**
     * `broadcast`: counts the event once, sends its message to every
     * subscriber with a high enough level in table order, and afterwards
     * unsubscribes those whose send raised, counting each failure.
     */
    method Broadcast(e: Event, fails: set<string>)
      modifies this
      ensures var failed := FailedIds(old(subscribers).keys, old(subscribers).m, e.minAuthLevel, fails);
        failedDeliveries == old(failedDeliveries) + |failed| && subscribers == RemoveAll(old(subscribers), failed)
      ensures outbox == old(outbox) + Sends(old(subscribers).keys, old(subscribers).m, e.minAuthLevel, fails,
                                            ToWebsocketMessage(e))
      ensures eventsSent == old(eventsSent) + 1
      ensures eventsByType ==
        old(eventsByType)[e.eventType := (if e.eventType in old(eventsByType) then old(eventsByType)[e.eventType] else 0) + 1]
    {
      var subs := subscribers;
      var n := if e.eventType in eventsByType then eventsByType[e.eventType] else 0;
      var sent, failed := FanOut(subs, e.minAuthLevel, fails, ToWebsocketMessage(e));
      var rest := UnsubscribeAll(subs, failed);
      eventsSent := eventsSent + 1;
      eventsByType := eventsByType[e.eventType := n + 1];
      outbox := outbox + sent;
      failedDeliveries := failedDeliveries + |failed|;
      subscribers := rest;
    }

    /**
     * `send_to_subscriber`: nothing for an unknown or under-privileged
     * subscriber; otherwise one send, counted as sent or as failed, and
     * the subscriber stays either way.
     */
    method SendToSubscriber(subscriberId: string, e: Event, fails: bool)
      modifies this
      ensures subscribers == old(subscribers) && eventsByType == old(eventsByType)
      ensures subscriberId !in old(subscribers).m || old(subscribers).m[subscriberId] < e.minAuthLevel ==>
        eventsSent == old(eventsSent) && failedDeliveries == old(failedDeliveries) && outbox == old(outbox)
      ensures subscriberId in old(subscribers).m && old(subscribers).m[subscriberId] >= e.minAuthLevel ==>
        (fails ==> failedDeliveries == old(failedDeliveries) + 1 && eventsSent == old(eventsSent) &&
                   outbox == old(outbox)) &&
        (!fails ==> eventsSent == old(eventsSent) + 1 && failedDeliveries == old(failedDeliveries) &&
                    outbox == old(outbox) + [Delivery(subscriberId, ToWebsocketMessage(e))])
    {
      if subscriberId !in subscribers.m {
        return;
      }
      if subscribers.m[subscriberId] < e.minAuthLevel {
        return;
      }
      if fails {
        failedDeliveries := failedDeliveries + 1;
      } else {
        outbox := outbox + [Delivery(subscriberId, ToWebsocketMessage(e))];
        eventsSent := eventsSent + 1;
      }
    }

    /** `_count_by_auth_level`: how many subscribers hold each level, levels in first-seen order. */
    method CountByAuthLevel() returns (counts: ODict<int, nat>)
      ensures counts == CountLevels(Values(subscribers))
      ensures SumNats(Values(counts)) == |subscribers.keys|
    {
      var vs := Values(subscribers);
      counts := Empty();
      var i := 0;
      while i < |vs|
        invariant 0 <= i <= |vs|
        invariant counts == CountLevels(vs[..i])
      {
        assert vs[..i + 1][..i] == vs[..i];
        counts := CountOne(counts, vs[i]);
        i := i + 1;
      }
      assert vs[..i] == vs;
      CountLevelsSum(vs);
    }

    /** `get_stats`. */
    method GetStats() returns (s: Stats)
      ensures s.activeSubscribers == |subscribers.m|
      ensures s.byAuthLevel == CountLevels(Values(subscribers))
      ensures SumNats(Values(s.byAuthLevel)) == s.activeSubscribers
      ensures s.eventsSent == eventsSent && s.failedDeliveries == failedDeliveries && s.eventsByType == eventsByType
    {
      var counts := CountByAuthLevel();
      LengthIsCardinality(subscribers);
      s := Stats(eventsSent, eventsByType, failedDeliveries, |subscribers.keys|, counts);
    }
  }

  // ------------------------------------------------------------ lemmas

  lemma {:induction false} SumNatsReplaceAt(s: seq<nat>, i: nat, v: nat)
    requires i < |s|
    ensures SumNats(s[i := v]) == SumNats(s) - s[i] + v
  {
    if i == 0 {
      assert s[i := v][1..] == s[1..];
    } else {
      assert s[i := v][1..] == s[1..][i - 1 := v];
      SumNatsReplaceAt(s[1..], i - 1, v);
    }
  }

  lemma {:induction false} SumNatsAppend(a: seq<nat>, b: seq<nat>)
    ensures SumNats(a + b) == SumNats(a) + SumNats(b)
  {
    if |a| == 0 {
      assert a + b == b;
    } else {
      assert (a + b)[1..] == a[1..] + b;
      SumNatsAppend(a[1..], b);
    }
  }

  lemma SumPutExisting(d: ODict<int, nat>, l: int, v: nat)
    requires l in d.m
    ensures SumNats(Values(Put(d, l, v))) == SumNats(Values(d)) - d.m[l] + v
  {
    InKeys(d, l);
    var i :| 0 <= i < |d.keys| && d.keys[i] == l;
    SumNatsReplaceAt(Values(d), i, v);
    ValuesPutExisting(d, l, v, i);
  }

  lemma SumPutNew(d: ODict<int, nat>, l: int, v: nat)
    requires l !in d.m
    ensures SumNats(Values(Put(d, l, v))) == SumNats(Values(d)) + v
  {
    ValuesPutNew(d, l, v);
    SumNatsAppend(Values(d), [v]);
    assert SumNats([v]) == v;
  }

  /** Counting one more subscriber adds one to the total. */
  lemma CountOneSum(d: ODict<int, nat>, l: int)
    ensures SumNats(Values(CountOne(d, l))) == SumNats(Values(d)) + 1
  {
    if l in d.m {
      SumPutExisting(d, l, GetOr(d, l, 0) + 1);
    } else {
      SumPutNew(d, l, GetOr(d, l, 0) + 1);
    }
  }

  /** The per-level counts add up to the number of subscribers. */
  lemma {:induction false} CountLevelsSum(levels: seq<int>)
    ensures SumNats(Values(CountLevels(levels))) == |levels|
  {
    if |levels| > 0 {
      CountLevelsSum(levels[..|levels| - 1]);
      CountOneSum(CountLevels(levels[..|levels| - 1]), levels[|levels| - 1]);
    }
  }

  /** Each level present is counted exactly as often as it occurs, and only present levels appear. */
  lemma {:induction false} CountLevelsCounts(levels: seq<int>, l: int)
    ensures l in CountLevels(levels).m <==> Occurrences(levels, l) > 0
    ensures l in CountLevels(levels).m ==> CountLevels(levels).m[l] == Occurrences(levels, l)
  {
    if |levels| > 0 {
      CountLevelsCounts(levels[..|levels| - 1], l);
    }
  }

  /** Every eligible subscriber was either delivered to or failed, and no other. */
  lemma {:induction false} FanOutPartition(ids: seq<string>, levels: map<string, int>, minAuth: int,
                                           fails: set<string>, msg: Json)
    requires forall i :: 0 <= i < |ids| ==> ids[i] in levels
    ensures |Sends(ids, levels, minAuth, fails, msg)| + |FailedIds(ids, levels, minAuth, fails)| ==
            |Eligible(ids, levels, minAuth)|
  {
    if |ids| > 0 {
      FanOutPartition(ids[..|ids| - 1], levels, minAuth, fails, msg);
    }
  }
}
