/** The fixed-window rate limiter: one guarded upsert per check, and a background cleanup, against a
    limiter that simply counts the accepted checks of the window.  Clock readings are real numbers of
    seconds, which the limiter cuts down to whole ones. */
module RateLimit {
  /** The key as hashed by the source; the hash is injective. */
  type Key = string

  datatype Policy = Policy(limit: nat, window: nat)

  /** Each key is always checked with the same limit and window. */
  type Policies = Key -> Policy

  ghost predicate Configured(policies: Policies) {
    forall k :: policies(k).limit >= 1 && policies(k).window >= 1
  }

  datatype Counter = Counter(count: nat, expiresAt: int)

  type Rows = map<(Key, int), Counter>

  /** The start of the aligned window that holds instant t. */
  function Bucket(t: int, window: nat): (b: int)
    requires window >= 1
    ensures b <= t < b + window
  {
    Division(t, window);
    t / window * window
  }

  lemma Division(t: int, window: nat)
    requires window >= 1
    ensures t / window * window <= t < t / window * window + window
  {
    assert t == window * (t / window) + t % window;
  }

  lemma MultipleOrder(a: int, b: int, window: nat)
    requires a <= b
    ensures a * window <= b * window
  {
    assert (b - a) * window >= 0;
  }

  lemma QuotientIs(t: int, window: nat, q: int)
    requires window >= 1 && q * window <= t < q * window + window
    ensures t / window == q
  {
    Division(t, window);
    if t / window < q { MultipleOrder(t / window + 1, q, window); }
    if t / window > q { MultipleOrder(q + 1, t / window, window); }
  }

  /** Windows tile the time line: the instants of a window share its start, and the next window
      starts where it ends. */
  lemma WindowsTile(t: int, u: int, window: nat)
    requires window >= 1
    ensures var b := Bucket(t, window);
            && (b <= u < b + window ==> Bucket(u, window) == b)
            && (b + window <= u < b + 2 * window ==> Bucket(u, window) == b + window)
  {
    var q, b := t / window, Bucket(t, window);
    assert (q + 1) * window == q * window + window;
    if b <= u < b + window { QuotientIs(u, window, q); }
    if b + window <= u < b + 2 * window { QuotientIs(u, window, q + 1); }
  }

  // ---------- The statements ----------

  /** The upsert: insert at 1, else increment under the guard, else return no row. */
  predicate Accepts(rows: Rows, key: Key, bucket: int, limit: nat) {
    (key, bucket) !in rows || rows[(key, bucket)].count < limit
  }

  function Upserted(rows: Rows, key: Key, bucket: int, policy: Policy): Rows {
    if (key, bucket) !in rows then rows[(key, bucket) := Counter(1, bucket + policy.window)]
    else if rows[(key, bucket)].count < policy.limit
    then rows[(key, bucket) := rows[(key, bucket)].(count := rows[(key, bucket)].count + 1)]
    else rows
  }

  function Cleaned(rows: Rows, now: int): Rows {
    map k | k in rows && rows[k].expiresAt > now :: rows[k]
  }

  // ---------- The simple limiter ----------

  datatype Check = Check(key: Key, at: real, accepted: bool)

  /** How many checks of a key were accepted in the seconds from `from` to before `to`. */
  function AcceptedBetween(log: seq<Check>, key: Key, from: int, to: int): nat {
    if log == [] then 0
    else
      var last := log[|log| - 1];
      AcceptedBetween(log[..|log| - 1], key, from, to) +
        (if last.accepted && last.key == key && from <= last.at.Floor < to then 1 else 0)
  }

  /** How many checks of a key were accepted at instants in [from, to). */
  function AcceptedDuring(log: seq<Check>, key: Key, from: real, to: real): nat {
    if log == [] then 0
    else
      var last := log[|log| - 1];
      AcceptedDuring(log[..|log| - 1], key, from, to) +
        (if last.accepted && last.key == key && from <= last.at < to then 1 else 0)
  }

  /** A check is accepted while its window has accepted fewer than the limit. */
  predicate SimpleAccepts(log: seq<Check>, key: Key, now: int, policy: Policy)
    requires policy.window >= 1
  {
    var b := Bucket(now, policy.window);
    AcceptedBetween(log, key, b, b + policy.window) < policy.limit
  }

  datatype Event = Enforce(key: Key, now: real) | Cleanup(now: real)

  /** The simple limiter's log; it has no counters to clean up. */
  ghost function SimpleLog(policies: Policies, events: seq<Event>): seq<Check>
    requires Configured(policies)
  {
    if events == [] then []
    else
      var log, e := SimpleLog(policies, events[..|events| - 1]), events[|events| - 1];
      if e.Cleanup? then log else log + [Check(e.key, e.now, SimpleAccepts(log, e.key, e.now.Floor, policies(e.key)))]
  }

  // ---------- The real limiter ----------

  datatype World = World(rows: Rows, log: seq<Check>)

  ghost function Step(policies: Policies, w: World, e: Event): World
    requires Configured(policies)
  {
    match e
    case Enforce(key, now) =>
      var policy := policies(key);
      var bucket := Bucket(now.Floor, policy.window);
      World(Upserted(w.rows, key, bucket, policy),
            w.log + [Check(key, now, Accepts(w.rows, key, bucket, policy.limit))])
    case Cleanup(now) => w.(rows := Cleaned(w.rows, now.Floor))
  }

  ghost function Run(policies: Policies, events: seq<Event>): World
    requires Configured(policies)
  {
    if events == [] then World(map[], [])
    else Step(policies, Run(policies, events[..|events| - 1]), events[|events| - 1])
  }

  /** One clock that never goes back. */
  ghost predicate Nondecreasing(events: seq<Event>) {
    forall i, j :: 0 <= i < j < |events| ==> events[i].now <= events[j].now
  }

  /** Every counter that can still be asked for holds the number of accepted checks of its window. */
  ghost predicate Counting(policies: Policies, w: World, clock: int)
    requires Configured(policies)
  {
    && (forall k :: k in w.rows ==>
          w.rows[k].expiresAt == k.1 + policies(k.0).window && w.rows[k].count <= policies(k.0).limit)
    && (forall c :: c in w.log ==> c.at.Floor <= clock)
    && (forall key, t :: t >= clock ==> CountedAt(policies, w, key, t))
  }

  ghost predicate CountedAt(policies: Policies, w: World, key: Key, t: int)
    requires Configured(policies)
  {
    var b := Bucket(t, policies(key).window);
    AcceptedBetween(w.log, key, b, b + policies(key).window) == if (key, b) in w.rows then w.rows[(key, b)].count else 0
  }

  lemma EnforceCounts(policies: Policies, w: World, clock: int, key: Key, now: real)
    requires Configured(policies) && Counting(policies, w, clock) && clock <= now.Floor
    ensures Counting(policies, Step(policies, w, Enforce(key, now)), now.Floor)
  {
    var w' := Step(policies, w, Enforce(key, now));
    var policy := policies(key);
    assert CountedAt(policies, w, key, now.Floor);
    assert w'.log[..|w'.log| - 1] == w.log;
    forall k, t | t >= now.Floor ensures CountedAt(policies, w', k, t) {
      assert CountedAt(policies, w, k, t);
      if k == key { WindowsTile(t, now.Floor, policy.window); }
    }
  }

  lemma CleanupCounts(policies: Policies, w: World, clock: int, now: real)
    requires Configured(policies) && Counting(policies, w, clock) && clock <= now.Floor
    ensures Counting(policies, Step(policies, w, Cleanup(now)), now.Floor)
  {
    var w' := Step(policies, w, Cleanup(now));
    forall k, t | t >= now.Floor ensures CountedAt(policies, w', k, t) {
      assert CountedAt(policies, w, k, t);
    }
  }

  lemma FrontIsEarlier(events: seq<Event>)
    requires Nondecreasing(events) && events != []
    ensures forall e :: e in events[..|events| - 1] ==> e.now.Floor <= events[|events| - 1].now.Floor
  {
    forall e | e in events[..|events| - 1] ensures e.now.Floor <= events[|events| - 1].now.Floor {
      var i :| 0 <= i < |events| - 1 && events[i] == e;
      assert events[i].now <= events[|events| - 1].now;
    }
  }

  lemma {:induction false} RunCounts(policies: Policies, events: seq<Event>, clock: int)
    requires Configured(policies) && Nondecreasing(events) && forall e :: e in events ==> e.now.Floor <= clock
    ensures Counting(policies, Run(policies, events), clock)
  {
    if events == [] {
    } else {
      var front, last := events[..|events| - 1], events[|events| - 1];
      assert last in events;
      FrontIsEarlier(events);
      RunCounts(policies, front, last.now.Floor);
      match last {
        case Enforce(key, now) => EnforceCounts(policies, Run(policies, front), now.Floor, key, now);
        case Cleanup(now) => CleanupCounts(policies, Run(policies, front), now.Floor, now);
      }
    }
  }

  lemma SameDecision(policies: Policies, w: World, key: Key, now: int)
    requires Configured(policies) && Counting(policies, w, now)
    ensures Accepts(w.rows, key, Bucket(now, policies(key).window), policies(key).limit) <==>
            SimpleAccepts(w.log, key, now, policies(key))
  {
    assert CountedAt(policies, w, key, now);
  }

  /** Refinement: under a nondecreasing clock every decision of the stored counters, with cleanups
      anywhere in between, is the simple limiter's decision. */
  lemma {:induction false} RefinesSimpleLimiter(policies: Policies, events: seq<Event>)
    requires Configured(policies) && Nondecreasing(events)
    ensures Run(policies, events).log == SimpleLog(policies, events)
  {
    if events == [] {
    } else {
      var front, last := events[..|events| - 1], events[|events| - 1];
      RefinesSimpleLimiter(policies, front);
      if last.Enforce? {
        FrontIsEarlier(events);
        RunCounts(policies, front, last.now.Floor);
        SameDecision(policies, Run(policies, front), last.key, last.now.Floor);
      }
    }
  }

  // ---------- The bounds ----------

  lemma {:induction false} WindowBound(policies: Policies, events: seq<Event>, key: Key, t: int)
    requires Configured(policies)
    ensures var b := Bucket(t, policies(key).window);
            AcceptedBetween(SimpleLog(policies, events), key, b, b + policies(key).window) <= policies(key).limit
  {
    if events == [] {
    } else {
      var front, last := events[..|events| - 1], events[|events| - 1];
      WindowBound(policies, front, key, t);
      if last.Enforce? {
        var log := SimpleLog(policies, events);
        assert log[..|log| - 1] == SimpleLog(policies, front);
        if last.key == key { WindowsTile(t, last.now.Floor, policies(key).window); }
      }
    }
  }

  lemma {:induction false} SpanSplits(log: seq<Check>, key: Key, from: int, to: int, low: int, mid: int, high: int)
    requires low <= from <= to <= high && low <= mid <= high
    ensures AcceptedBetween(log, key, from, to) <=
            AcceptedBetween(log, key, low, mid) + AcceptedBetween(log, key, mid, high)
  {
    if log == [] {
    } else {
      SpanSplits(log[..|log| - 1], key, from, to, low, mid, high);
    }
  }

  /** A span of one window's length touches at most one second more than the window has. */
  lemma {:induction false} DuringWithinSeconds(log: seq<Check>, key: Key, start: real, window: nat)
    ensures AcceptedDuring(log, key, start, start + window as real) <=
            AcceptedBetween(log, key, start.Floor, start.Floor + window + 1)
  {
    if log == [] {
    } else {
      DuringWithinSeconds(log[..|log| - 1], key, start, window);
    }
  }

  lemma SecondsBound(policies: Policies, events: seq<Event>, key: Key, second: int)
    requires Configured(policies)
    ensures AcceptedBetween(SimpleLog(policies, events), key, second, second + policies(key).window + 1) <=
            2 * policies(key).limit
  {
    var w, log := policies(key).window, SimpleLog(policies, events);
    var b := Bucket(second, w);
    WindowBound(policies, events, key, second);
    WindowBound(policies, events, key, b + w);
    WindowsTile(second, b + w, w);
    SpanSplits(log, key, second, second + w + 1, b, b + w, b + 2 * w);
  }

  /** At most `limit` accepted checks in any aligned window, and at most twice that in any span of
      one window's length, at whatever instant it starts. */
  lemma AcceptanceBounds(policies: Policies, events: seq<Event>, key: Key, start: real)
    requires Configured(policies) && Nondecreasing(events)
    ensures var policy, log := policies(key), Run(policies, events).log;
            var b := Bucket(start.Floor, policy.window);
            && AcceptedBetween(log, key, b, b + policy.window) <= policy.limit
            && AcceptedDuring(log, key, start, start + policy.window as real) <= 2 * policy.limit
  {
    RefinesSimpleLimiter(policies, events);
    AlignedBound(policies, events, key, start.Floor, Run(policies, events).log);
    SpanBound(policies, events, key, start, Run(policies, events).log);
  }

  lemma AlignedBound(policies: Policies, events: seq<Event>, key: Key, second: int, log: seq<Check>)
    requires Configured(policies) && log == SimpleLog(policies, events)
    ensures var b := Bucket(second, policies(key).window);
            AcceptedBetween(log, key, b, b + policies(key).window) <= policies(key).limit
  {
    WindowBound(policies, events, key, second);
  }

  lemma SpanBound(policies: Policies, events: seq<Event>, key: Key, start: real, log: seq<Check>)
    requires Configured(policies) && log == SimpleLog(policies, events)
    ensures AcceptedDuring(log, key, start, start + policies(key).window as real) <= 2 * policies(key).limit
  {
    SecondsBound(policies, events, key, start.Floor);
    DuringWithinSeconds(log, key, start, policies(key).window);
  }

  /** `max(1, bucket + window - current)`, for the second `current`. */
  function RetryAfter(current: int, window: nat): int
    requires window >= 1
  {
    var left := Bucket(current, window) + window - current;
    if left < 1 then 1 else left
  }

  lemma SecondsLater(now: real, n: int)
    ensures (now + n as real).Floor == now.Floor + n
  {
  }

  /** Waiting out the retry hint lands in the first second of the next window; a second less, and every
      earlier instant, is still in the present one. */
  lemma RetryLandsOnNextWindow(now: real, window: nat)
    requires window >= 1
    ensures var b, retry := Bucket(now.Floor, window), RetryAfter(now.Floor, window);
            && retry >= 1
            && (now + retry as real).Floor == b + window == Bucket(b + window, window)
            && now + retry as real - 1.0 < (b + window) as real
            && forall u: real :: now <= u < (b + window) as real ==> Bucket(u.Floor, window) == b
  {
    var b, retry := Bucket(now.Floor, window), RetryAfter(now.Floor, window);
    WindowsTile(now.Floor, b + window, window);
    SecondsLater(now, retry);
    forall u: real | now <= u < (b + window) as real ensures Bucket(u.Floor, window) == b {
      WindowsTile(now.Floor, u.Floor, window);
    }
  }

  // ---------- The bound is reached ----------

  /** n checks of a key at the same instant. */
  function Burst(key: Key, t: real, n: nat): seq<Event> {
    if n == 0 then [] else Burst(key, t, n - 1) + [Enforce(key, t)]
  }

  function Accepted(key: Key, t: real, n: nat): seq<Check> {
    if n == 0 then [] else Accepted(key, t, n - 1) + [Check(key, t, true)]
  }

  lemma {:induction false} AcceptedAdds(log: seq<Check>, key: Key, t: real, n: nat, from: int, to: int)
    ensures AcceptedBetween(log + Accepted(key, t, n), key, from, to) ==
            AcceptedBetween(log, key, from, to) + if from <= t.Floor < to then n else 0
  {
    if n == 0 {
      assert log + Accepted(key, t, 0) == log;
    } else {
      var all := log + Accepted(key, t, n);
      assert all[..|all| - 1] == log + Accepted(key, t, n - 1);
      AcceptedAdds(log, key, t, n - 1, from, to);
    }
  }

  lemma {:induction false} AcceptedAddsDuring(log: seq<Check>, key: Key, t: real, n: nat, from: real, to: real)
    ensures AcceptedDuring(log + Accepted(key, t, n), key, from, to) ==
            AcceptedDuring(log, key, from, to) + if from <= t < to then n else 0
  {
    if n == 0 {
      assert log + Accepted(key, t, 0) == log;
    } else {
      var all := log + Accepted(key, t, n);
      assert all[..|all| - 1] == log + Accepted(key, t, n - 1);
      AcceptedAddsDuring(log, key, t, n - 1, from, to);
    }
  }

  /** The window of instant t has accepted n checks fewer than the limit allows, at least. */
  ghost predicate Fits(log: seq<Check>, key: Key, t: real, n: nat, policy: Policy)
    requires policy.window >= 1
  {
    var b := Bucket(t.Floor, policy.window);
    AcceptedBetween(log, key, b, b + policy.window) + n <= policy.limit
  }

  lemma RoomForOneMore(log: seq<Check>, key: Key, t: real, n: nat, policy: Policy)
    requires policy.window >= 1 && n > 0 && Fits(log, key, t, n, policy)
    ensures SimpleAccepts(log + Accepted(key, t, n - 1), key, t.Floor, policy) && Fits(log, key, t, n - 1, policy)
  {
    var b := Bucket(t.Floor, policy.window);
    AcceptedAdds(log, key, t, n - 1, b, b + policy.window);
  }

  lemma OneMoreAccepted(policies: Policies, events: seq<Event>, log: seq<Check>, key: Key, t: real)
    requires Configured(policies) && SimpleLog(policies, events) == log
    requires SimpleAccepts(log, key, t.Floor, policies(key))
    ensures SimpleLog(policies, events + [Enforce(key, t)]) == log + [Check(key, t, true)]
  {
    assert (events + [Enforce(key, t)])[..|events|] == events;
  }

  lemma BurstEnds(prior: seq<Event>, log: seq<Check>, key: Key, t: real, n: nat)
    ensures n == 0 ==> prior + Burst(key, t, n) == prior && log + Accepted(key, t, n) == log
    ensures n > 0 ==> prior + Burst(key, t, n) == prior + Burst(key, t, n - 1) + [Enforce(key, t)]
    ensures n > 0 ==> log + Accepted(key, t, n) == log + Accepted(key, t, n - 1) + [Check(key, t, true)]
  {
  }

  lemma LongerBurst(policies: Policies, prior: seq<Event>, log: seq<Check>, key: Key, t: real, n: nat)
    requires Configured(policies) && n > 0
    requires SimpleLog(policies, prior + Burst(key, t, n - 1)) == log + Accepted(key, t, n - 1)
    requires SimpleAccepts(log + Accepted(key, t, n - 1), key, t.Floor, policies(key))
    ensures SimpleLog(policies, prior + Burst(key, t, n)) == log + Accepted(key, t, n)
  {
    OneMoreAccepted(policies, prior + Burst(key, t, n - 1), log + Accepted(key, t, n - 1), key, t);
    BurstEnds(prior, log, key, t, n);
  }

  /** A burst that fits into what its window has left is accepted whole. */
  lemma {:induction false} BurstFills(policies: Policies, prior: seq<Event>, log: seq<Check>, key: Key, t: real, n: nat)
    requires Configured(policies) && SimpleLog(policies, prior) == log && Fits(log, key, t, n, policies(key))
    ensures SimpleLog(policies, prior + Burst(key, t, n)) == log + Accepted(key, t, n)
  {
    if n == 0 {
      BurstEnds(prior, log, key, t, n);
    } else {
      RoomForOneMore(log, key, t, n, policies(key));
      BurstFills(policies, prior, log, key, t, n - 1);
      LongerBurst(policies, prior, log, key, t, n);
    }
  }

  /** `limit` checks half a second before the end of a window, and `limit` more at its end. */
  function TwoBursts(key: Key, policy: Policy): seq<Event> {
    Burst(key, Late(policy), policy.limit) + Burst(key, policy.window as real, policy.limit)
  }

  function Late(policy: Policy): real {
    policy.window as real - 0.5
  }

  lemma {:induction false} BurstTimes(key: Key, t: real, n: nat)
    ensures |Burst(key, t, n)| == n && forall i :: 0 <= i < n ==> Burst(key, t, n)[i] == Enforce(key, t)
  {
    if n == 0 {
    } else {
      BurstTimes(key, t, n - 1);
    }
  }

  lemma TwoBurstsInOrder(key: Key, policy: Policy)
    ensures Nondecreasing(TwoBursts(key, policy))
  {
    BurstTimes(key, Late(policy), policy.limit);
    BurstTimes(key, policy.window as real, policy.limit);
    forall i | 0 <= i < 2 * policy.limit
      ensures TwoBursts(key, policy)[i].now == if i < policy.limit then Late(policy) else policy.window as real
    {
    }
  }

  lemma LateIsEarly(policy: Policy)
    ensures Late(policy).Floor == policy.window - 1
  {
  }

  lemma FirstWindows(policy: Policy)
    requires policy.window >= 1
    ensures Late(policy).Floor == policy.window - 1 && (policy.window as real).Floor == policy.window
    ensures Bucket(Late(policy).Floor, policy.window) == 0
    ensures Bucket((policy.window as real).Floor, policy.window) == policy.window
  {
    QuotientIs(policy.window - 1, policy.window, 0);
    QuotientIs(policy.window, policy.window, 1);
  }

  lemma FirstBurstFits(key: Key, policy: Policy)
    requires policy.window >= 1
    ensures Fits([], key, Late(policy), policy.limit, policy)
  {
  }

  lemma NoneInNextWindow(key: Key, policy: Policy)
    requires policy.window >= 1
    ensures var w := policy.window;
            AcceptedBetween(Accepted(key, Late(policy), policy.limit), key, w, w + w) == 0
  {
    LateIsEarly(policy);
    AcceptedAdds([], key, Late(policy), policy.limit, policy.window, policy.window + policy.window);
    assert [] + Accepted(key, Late(policy), policy.limit) == Accepted(key, Late(policy), policy.limit);
  }

  lemma SecondBurstFits(key: Key, policy: Policy)
    requires policy.window >= 1
    ensures Fits(Accepted(key, Late(policy), policy.limit), key, policy.window as real, policy.limit, policy)
  {
    FirstWindows(policy);
    NoneInNextWindow(key, policy);
  }

  /** Everything in the two bursts is accepted. */
  lemma TwoBurstsLog(policies: Policies, key: Key)
    requires Configured(policies)
    ensures var policy := policies(key);
            SimpleLog(policies, TwoBursts(key, policy)) ==
            Accepted(key, Late(policy), policy.limit) + Accepted(key, policy.window as real, policy.limit)
  {
    var policy := policies(key);
    var first, log := Burst(key, Late(policy), policy.limit), Accepted(key, Late(policy), policy.limit);
    FirstBurstFits(key, policy);
    BurstFills(policies, [], [], key, Late(policy), policy.limit);
    assert [] + first == first && [] + log == log;
    SecondBurstFits(key, policy);
    BurstFills(policies, first, log, key, policy.window as real, policy.limit);
  }

  lemma TwoBurstsStored(policies: Policies, key: Key)
    requires Configured(policies)
    ensures var policy := policies(key);
            Run(policies, TwoBursts(key, policy)).log ==
            Accepted(key, Late(policy), policy.limit) + Accepted(key, policy.window as real, policy.limit)
  {
    TwoBurstsInOrder(key, policies(key));
    RefinesSimpleLimiter(policies, TwoBursts(key, policies(key)));
    TwoBurstsLog(policies, key);
  }

  lemma TwoBurstsCount(key: Key, policy: Policy)
    requires policy.window >= 1
    ensures var t, w := Late(policy), policy.window as real;
            AcceptedDuring(Accepted(key, t, policy.limit) + Accepted(key, w, policy.limit), key, t, t + w) ==
            2 * policy.limit
  {
    BothWithin(key, Late(policy), policy.window as real, Late(policy) + policy.window as real, policy.limit);
  }

  lemma BothWithin(key: Key, t: real, u: real, end: real, n: nat)
    requires t <= u < end
    ensures AcceptedDuring(Accepted(key, t, n) + Accepted(key, u, n), key, t, end) == 2 * n
  {
    var log := Accepted(key, t, n);
    assert [] + log == log;
    AcceptedAddsDuring([], key, t, n, t, end);
    AcceptedAddsDuring(log, key, u, n, t, end);
  }

  /** The bound of twice the limit is reached, for every limit and every window: two bursts around the
      start of a window fall within one window's length, and all of them are accepted. */
  lemma DoubleLimitIsReached(policies: Policies, key: Key)
    requires Configured(policies)
    ensures var policy, events := policies(key), TwoBursts(key, policies(key));
            var start := Late(policy);
            && Nondecreasing(events)
            && AcceptedDuring(Run(policies, events).log, key, start, start + policy.window as real) == 2 * policy.limit
  {
    TwoBurstsInOrder(key, policies(key));
    TwoBurstsStored(policies, key);
    TwoBurstsCount(key, policies(key));
  }

  /** A cleanup at any point of a run changes no later decision. */
  lemma CleanupChangesNoDecision(policies: Policies, before: seq<Event>, now: real, after: seq<Event>)
    requires Configured(policies) && Nondecreasing(before + [Cleanup(now)] + after)
    ensures Run(policies, before + [Cleanup(now)] + after).log == Run(policies, before + after).log
  {
    var with, without := before + [Cleanup(now)] + after, before + after;
    forall i, j | 0 <= i < j < |without| ensures without[i].now <= without[j].now {
      var i', j' := if i < |before| then i else i + 1, if j < |before| then j else j + 1;
      assert with[i'] == without[i] && with[j'] == without[j];
    }
    RefinesSimpleLimiter(policies, with);
    RefinesSimpleLimiter(policies, without);
    SimplySkipped(policies, before, now, after);
  }

  lemma {:induction false} SimplySkipped(policies: Policies, before: seq<Event>, now: real, after: seq<Event>)
    requires Configured(policies)
    ensures SimpleLog(policies, before + [Cleanup(now)] + after) == SimpleLog(policies, before + after)
    decreases |after|
  {
    var with, without := before + [Cleanup(now)] + after, before + after;
    if after == [] {
      assert with[..|with| - 1] == before && without == before;
    } else {
      var front := after[..|after| - 1];
      assert with[..|with| - 1] == before + [Cleanup(now)] + front && without[..|without| - 1] == before + front;
      SimplySkipped(policies, before, now, front);
    }
  }

  // ---------- The functions over stored rows ----------

  /** What a check answers: nothing, 429 with a retry hint, or 503 for a bad configuration. */
  datatype Answer = Allowed | Limited(retryAfter: int) | Misconfigured

  class Limiter {
    var rows: Rows

    constructor ()
      ensures rows == map[]
    {
      rows := map[];
    }

    /** `enforce_rate_limit`, committed. */
    method Enforce(key: Key, policy: Policy, now: real) returns (answer: Answer)
      modifies this
      ensures answer == Misconfigured <==> policy.limit < 1 || policy.window < 1
      ensures answer == Misconfigured ==> rows == old(rows)
      ensures answer != Misconfigured ==> rows == Upserted(old(rows), key, Bucket(now.Floor, policy.window), policy)
      ensures answer != Misconfigured ==>
                answer == if Accepts(old(rows), key, Bucket(now.Floor, policy.window), policy.limit) then Allowed
                          else Limited(RetryAfter(now.Floor, policy.window))
    {
      if policy.limit < 1 || policy.window < 1 { return Misconfigured; }
      var current := now.Floor;
      var bucket := Bucket(current, policy.window);
      if (key, bucket) !in rows {
        rows := rows[(key, bucket) := Counter(1, bucket + policy.window)];
        return Allowed;
      }
      var counter := rows[(key, bucket)];
      if counter.count < policy.limit {
        rows := rows[(key, bucket) := counter.(count := counter.count + 1)];
        return Allowed;
      }
      var left := bucket + policy.window - current;
      return Limited(if left < 1 then 1 else left);
    }

    /** `cleanup_expired_counters`. */
    method Cleanup(now: real)
      modifies this
      ensures rows == Cleaned(old(rows), now.Floor)
    {
      rows := map k | k in rows && rows[k].expiresAt > now.Floor :: rows[k];
    }
  }
}
