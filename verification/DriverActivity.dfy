/** The sweep of `Ledger.peak` against the pointwise count of active drivers. */
module DriverActivity {
  import opened Basics
  import opened Outcomes
  import Sorting

  datatype Delivery = Delivery(driver: string, start: int, end: int)

  /** The drivers with a delivery in progress at instant t. */
  function ActiveDrivers(deliveries: map<string, Delivery>, t: int): set<string> {
    set id | id in deliveries && deliveries[id].start <= t < deliveries[id].end :: deliveries[id].driver
  }

  /** `peak` is the largest number of distinct active drivers at any instant of [from, to). */
  ghost predicate IsPeak(deliveries: map<string, Delivery>, from: int, to: int, peak: int) {
    && (forall t :: from <= t < to ==> |ActiveDrivers(deliveries, t)| <= peak)
    && (exists t :: from <= t < to && |ActiveDrivers(deliveries, t)| == peak)
  }

  datatype Event = Event(time: int, delta: int, driver: string)

  /** The order of the sweep: by time, departures before arrivals.  The source breaks further ties
      by driver; everything below holds for any order of those ties. */
  predicate EventLe(e: Event, f: Event) {
    e.time < f.time || (e.time == f.time && e.delta <= f.delta)
  }

  /** The running count of one driver after some events. */
  ghost function Net(events: seq<Event>, driver: string): int {
    if events == [] then 0
    else Net(events[..|events| - 1], driver) +
         var last := events[|events| - 1]; if last.driver == driver then last.delta else 0
  }

  /** The same count, over the events no later than t wherever they stand. */
  ghost function NetAt(events: seq<Event>, driver: string, t: int): int {
    if events == [] then 0
    else NetAt(events[1..], driver, t) + Contribution(events[0], driver, t)
  }

  ghost function Contribution(e: Event, driver: string, t: int): int {
    if e.driver == driver && e.time <= t then e.delta else 0
  }

  lemma {:induction false} NetAtConcat(a: seq<Event>, b: seq<Event>, driver: string, t: int)
    ensures NetAt(a + b, driver, t) == NetAt(a, driver, t) + NetAt(b, driver, t)
  {
    if a == [] {
      assert a + b == b;
    } else {
      assert (a + b)[1..] == a[1..] + b;
      NetAtConcat(a[1..], b, driver, t);
    }
  }

  lemma NetAtRemove(events: seq<Event>, i: nat, driver: string, t: int)
    requires i < |events|
    ensures NetAt(events, driver, t) ==
            NetAt(events[..i] + events[i + 1..], driver, t) + Contribution(events[i], driver, t)
  {
    var tail := events[i..];
    assert events == events[..i] + tail && tail[1..] == events[i + 1..];
    NetAtConcat(events[..i], tail, driver, t);
    NetAtConcat(events[..i], events[i + 1..], driver, t);
  }

  lemma {:induction false} NetAtPermutes(a: seq<Event>, b: seq<Event>, driver: string, t: int)
    requires multiset(a) == multiset(b)
    ensures NetAt(a, driver, t) == NetAt(b, driver, t)
    decreases |a|
  {
    if a == [] {
      assert |multiset(b)| == 0;
    } else {
      assert a[0] in multiset(b);
      var i :| 0 <= i < |b| && b[i] == a[0];
      var rest := b[..i] + b[i + 1..];
      Sorting.PermutationTail(a, b, i);
      NetAtRemove(b, i, driver, t);
      NetAtPermutes(a[1..], rest, driver, t);
    }
  }

  // ---------- Prefixes of the sorted events ----------

  /** How many leading events are no later than t. */
  ghost function Upto(events: seq<Event>, t: int): (k: nat)
    requires Sorting.Sorted(events, EventLe)
    ensures k <= |events|
    ensures forall i :: 0 <= i < k ==> events[i].time <= t
    ensures forall i :: k <= i < |events| ==> events[i].time > t
  {
    if events == [] then 0
    else if events[|events| - 1].time <= t then |events|
    else Upto(events[..|events| - 1], t)
  }

  lemma {:induction false} NetOfEarly(events: seq<Event>, driver: string, t: int)
    requires forall i :: 0 <= i < |events| ==> events[i].time <= t
    ensures Net(events, driver) == NetAt(events, driver, t)
  {
    if events == [] {
    } else {
      var front, last := events[..|events| - 1], events[|events| - 1];
      NetOfEarly(front, driver, t);
      NetAtConcat(front, [last], driver, t);
      assert front + [last] == events;
    }
  }

  lemma {:induction false} NetOfLate(events: seq<Event>, driver: string, t: int)
    requires forall i :: 0 <= i < |events| ==> events[i].time > t
    ensures NetAt(events, driver, t) == 0
  {
    if events == [] {
    } else {
      NetOfLate(events[1..], driver, t);
    }
  }

  lemma NetAtPrefix(events: seq<Event>, driver: string, t: int)
    requires Sorting.Sorted(events, EventLe)
    ensures Net(events[..Upto(events, t)], driver) == NetAt(events, driver, t)
  {
    var k := Upto(events, t);
    assert events == events[..k] + events[k..];
    NetAtConcat(events[..k], events[k..], driver, t);
    NetOfEarly(events[..k], driver, t);
    NetOfLate(events[k..], driver, t);
  }

  /** Between two prefixes, arrivals only raise a count and departures only lower it. */
  lemma {:induction false} NetMonotone(events: seq<Event>, j: nat, k: nat, driver: string)
    requires j <= k <= |events|
    ensures (forall i :: j <= i < k ==> events[i].delta >= 0) ==> Net(events[..j], driver) <= Net(events[..k], driver)
    ensures (forall i :: j <= i < k ==> events[i].delta <= 0) ==> Net(events[..j], driver) >= Net(events[..k], driver)
    decreases k - j
  {
    if j == k {
    } else {
      NetMonotone(events, j, k - 1, driver);
      assert events[..k][..k - 1] == events[..k - 1];
    }
  }

  // ---------- Events of a ledger ----------

  /** What the events built from `ids` say: at every instant of the window, a driver's count is
      positive exactly while one of those deliveries is in progress. */
  ghost predicate Describes(events: seq<Event>, deliveries: map<string, Delivery>, ids: set<string>, from: int,
                            to: int)
  {
    && ids <= deliveries.Keys
    && (forall e :: e in events ==> (e.delta == 1 && from <= e.time < to) || (e.delta == -1 && from < e.time <= to))
    && (forall driver, t :: from <= t < to ==> DescribesAt(events, deliveries, ids, driver, t))
  }

  ghost predicate DescribesAt(events: seq<Event>, deliveries: map<string, Delivery>, ids: set<string>,
                              driver: string, t: int)
    requires ids <= deliveries.Keys
  {
    && NetAt(events, driver, t) >= 0
    && (NetAt(events, driver, t) > 0 <==> exists id :: id in ids && InProgress(deliveries[id], driver, t))
  }

  predicate InProgress(d: Delivery, driver: string, t: int) {
    d.driver == driver && d.start <= t < d.end
  }

  function Max(a: int, b: int): int { if a < b then b else a }

  function Min(a: int, b: int): int { if b < a then b else a }

  /** The clipped pair of events of one delivery, if it meets the window. */
  function EventsOf(d: Delivery, from: int, to: int): seq<Event> {
    var a, b := Max(d.start, from), Min(d.end, to);
    if a < b then [Event(a, 1, d.driver), Event(b, -1, d.driver)] else []
  }

  lemma PairCounts(d: Delivery, from: int, to: int, driver: string, t: int)
    requires from <= t < to
    ensures NetAt(EventsOf(d, from, to), driver, t) == if InProgress(d, driver, t) then 1 else 0
  {
    var pair := EventsOf(d, from, to);
    if pair != [] {
      assert pair[1..][1..] == [];
      assert NetAt(pair, driver, t) == NetAt(pair[1..], driver, t) + Contribution(pair[0], driver, t);
      assert NetAt(pair[1..], driver, t) == 0 + Contribution(pair[1], driver, t);
    }
  }

  lemma DescribesMore(events: seq<Event>, deliveries: map<string, Delivery>, ids: set<string>, from: int, to: int,
                      id: string)
    requires Describes(events, deliveries, ids, from, to) && id in deliveries
    ensures Describes(events + EventsOf(deliveries[id], from, to), deliveries, ids + {id}, from, to)
  {
    var pair := EventsOf(deliveries[id], from, to);
    forall driver, t | from <= t < to ensures DescribesAt(events + pair, deliveries, ids + {id}, driver, t) {
      assert DescribesAt(events, deliveries, ids, driver, t);
      NetAtConcat(events, pair, driver, t);
      PairCounts(deliveries[id], from, to, driver, t);
      if InProgress(deliveries[id], driver, t) { assert id in ids + {id}; }
    }
  }

  // ---------- The sweep ----------

  ghost function Positive(events: seq<Event>): set<string> {
    set k | 0 <= k < |events| && Net(events, events[k].driver) > 0 :: events[k].driver
  }

  lemma {:induction false} NetOfStranger(events: seq<Event>, driver: string)
    requires forall k :: 0 <= k < |events| ==> events[k].driver != driver
    ensures Net(events, driver) == 0
  {
    if events == [] {
    } else {
      NetOfStranger(events[..|events| - 1], driver);
    }
  }

  lemma InPositive(events: seq<Event>, driver: string)
    ensures driver in Positive(events) <==> Net(events, driver) > 0
  {
    if Net(events, driver) > 0 && driver !in Positive(events) {
      NetOfStranger(events, driver);
    }
  }

  /** After all events up to instant t, the positive counts are exactly the active drivers. */
  lemma PositiveAtInstant(events: seq<Event>, deliveries: map<string, Delivery>, from: int, to: int, t: int)
    requires Sorting.Sorted(events, EventLe) && Describes(events, deliveries, deliveries.Keys, from, to) &&
             from <= t < to
    ensures Positive(events[..Upto(events, t)]) == ActiveDrivers(deliveries, t)
  {
    forall driver ensures driver in Positive(events[..Upto(events, t)]) <==> driver in ActiveDrivers(deliveries, t) {
      InPositive(events[..Upto(events, t)], driver);
      NetAtPrefix(events, driver, t);
      assert DescribesAt(events, deliveries, deliveries.Keys, driver, t);
    }
  }

  /** In the middle of the events of one instant the positive counts are among the drivers active
      at that instant, or at the one before if only departures have been seen. */
  lemma PrefixIsCovered(events: seq<Event>, deliveries: map<string, Delivery>, from: int, to: int, j: nat)
    returns (t: int)
    requires Sorting.Sorted(events, EventLe) && Describes(events, deliveries, deliveries.Keys, from, to)
    requires from < to && j <= |events|
    ensures from <= t < to && Positive(events[..j]) <= ActiveDrivers(deliveries, t)
  {
    if j == 0 {
      t := from;
    } else {
      var last := events[j - 1];
      assert last in events;
      t := if last.delta == 1 then last.time else last.time - 1;
      var k := Upto(events, t);
      forall i | j <= i < k ensures events[i].delta >= 0 {
        assert EventLe(events[j - 1], events[i]) && events[i] in events;
      }
      forall i | k <= i < j ensures events[i].delta <= 0 {
        assert i < j - 1 ==> EventLe(events[i], events[j - 1]);
      }
      PositiveAtInstant(events, deliveries, from, to, t);
      forall driver | driver in Positive(events[..j]) ensures driver in ActiveDrivers(deliveries, t) {
        InPositive(events[..j], driver);
        InPositive(events[..k], driver);
        if j <= k { NetMonotone(events, j, k, driver); } else { NetMonotone(events, k, j, driver); }
      }
    }
  }

  /** The counts dictionary of the sweep. */
  ghost predicate Counts(counts: map<string, int>, events: seq<Event>) {
    && (forall d :: d in counts ==> counts[d] == Net(events, d))
    && (forall d :: d !in counts ==> Net(events, d) == 0)
  }

  lemma CountsStep(counts: map<string, int>, events: seq<Event>, e: Event)
    requires Counts(counts, events)
    ensures Counts(counts[e.driver := (if e.driver in counts then counts[e.driver] else 0) + e.delta], events + [e])
  {
    assert (events + [e])[..|events|] == events;
  }

  lemma CountsPositive(counts: map<string, int>, events: seq<Event>)
    requires Counts(counts, events)
    ensures (set d | d in counts && counts[d] > 0) == Positive(events)
  {
    forall d ensures (d in counts && counts[d] > 0) <==> d in Positive(events) {
      InPositive(events, d);
    }
  }

  /** `maximum` is the largest number of positive counts after any of the first n events. */
  ghost predicate LargestSoFar(events: seq<Event>, n: nat, maximum: nat)
    requires n <= |events|
  {
    && (forall j :: 0 <= j <= n ==> |Positive(events[..j])| <= maximum)
    && (exists j :: 0 <= j <= n && |Positive(events[..j])| == maximum)
  }

  lemma LargestStep(events: seq<Event>, n: nat, maximum: nat, size: nat)
    requires n < |events| && LargestSoFar(events, n, maximum) && size == |Positive(events[..n + 1])|
    ensures LargestSoFar(events, n + 1, if maximum < size then size else maximum)
  {
    var j :| 0 <= j <= n && |Positive(events[..j])| == maximum;
    assert 0 <= j <= n + 1;
  }

  /** The loop over the sorted events. */
  method Sweep(events: seq<Event>) returns (maximum: nat)
    ensures LargestSoFar(events, |events|, maximum)
  {
    var counts: map<string, int> := map[];
    maximum := 0;
    for i := 0 to |events|
      invariant Counts(counts, events[..i])
      invariant LargestSoFar(events, i, maximum)
    {
      var e := events[i];
      CountsStep(counts, events[..i], e);
      counts := counts[e.driver := (if e.driver in counts then counts[e.driver] else 0) + e.delta];
      assert events[..i] + [e] == events[..i + 1];
      CountsPositive(counts, events[..i + 1]);
      var positive := set d | d in counts && counts[d] > 0;
      LargestStep(events, i, maximum, |positive|);
      maximum := if maximum < |positive| then |positive| else maximum;
    }
  }

  lemma SweepIsPeak(events: seq<Event>, deliveries: map<string, Delivery>, from: int, to: int, maximum: nat)
    requires from < to
    requires Sorting.Sorted(events, EventLe) && Describes(events, deliveries, deliveries.Keys, from, to)
    requires LargestSoFar(events, |events|, maximum)
    ensures IsPeak(deliveries, from, to, maximum)
  {
    forall t | from <= t < to ensures |ActiveDrivers(deliveries, t)| <= maximum {
      PositiveAtInstant(events, deliveries, from, to, t);
      assert |Positive(events[..Upto(events, t)])| <= maximum;
    }
    var j :| 0 <= j <= |events| && |Positive(events[..j])| == maximum;
    var t := PrefixIsCovered(events, deliveries, from, to, j);
    SubsetSize(Positive(events[..j]), ActiveDrivers(deliveries, t));
  }

  lemma DescribesSorted(events: seq<Event>, sorted: seq<Event>, deliveries: map<string, Delivery>, from: int, to: int)
    requires multiset(events) == multiset(sorted) && Describes(events, deliveries, deliveries.Keys, from, to)
    ensures Describes(sorted, deliveries, deliveries.Keys, from, to)
  {
    forall e | e in sorted ensures e in events {
      assert e in multiset(sorted);
      assert e in multiset(events);
    }
    forall driver, t | from <= t < to ensures DescribesAt(sorted, deliveries, deliveries.Keys, driver, t) {
      assert DescribesAt(events, deliveries, deliveries.Keys, driver, t);
      NetAtPermutes(events, sorted, driver, t);
    }
  }

  /** `peak`; None is its ValueError for an empty window. */
  method Peak(deliveries: map<string, Delivery>, from: int, to: int) returns (r: Option<int>)
    ensures r.Some? <==> from < to
    ensures r.Some? ==> IsPeak(deliveries, from, to, r.value)
  {
    if to <= from { return None; }
    var events: seq<Event> := [];
    var rest := deliveries.Keys;
    while rest != {}
      invariant rest <= deliveries.Keys
      invariant Describes(events, deliveries, deliveries.Keys - rest, from, to)
    {
      var id :| id in rest;
      DescribesMore(events, deliveries, deliveries.Keys - rest, from, to, id);
      events := events + EventsOf(deliveries[id], from, to);
      assert deliveries.Keys - (rest - {id}) == (deliveries.Keys - rest) + {id};
      rest := rest - {id};
    }
    assert deliveries.Keys - rest == deliveries.Keys;
    var sorted := Sorting.Sort(events, EventLe);
    Sorting.SortSorts(events, EventLe);
    DescribesSorted(events, sorted, deliveries, from, to);
    var maximum := Sweep(sorted);
    SweepIsPeak(sorted, deliveries, from, to, maximum);
    return Some(maximum);
  }
}
