/** The room `Scheduler`: the earliest gap and atomic reservation.  `find` is the code below its
    placeholder `raise`; its lock makes every call one atomic step. */
module RoomScheduler {
  import opened Outcomes
  import Sorting

  /** A half-open interval [start, end). */
  datatype Slot = Slot(start: int, end: int)

  predicate SlotLe(a: Slot, b: Slot) {
    a.start < b.start || (a.start == b.start && a.end <= b.end)
  }

  predicate Meets(a: Slot, b: Slot) {
    a.start < b.end && b.start < a.end
  }

  predicate During(t: int, a: Slot) {
    a.start <= t < a.end
  }

  /** Intervals that take time meet exactly if they share an instant. */
  lemma MeetsIffShared(a: Slot, b: Slot)
    requires a.start < a.end && b.start < b.end
    ensures Meets(a, b) <==> exists t :: During(t, a) && During(t, b)
  {
    if Meets(a, b) {
      var t := if a.start < b.start then b.start else a.start;
      assert During(t, a) && During(t, b);
    }
  }

  predicate Free(bookings: seq<Slot>, slot: Slot) {
    forall i :: 0 <= i < |bookings| ==> !Meets(slot, bookings[i])
  }

  predicate Disjoint(bookings: seq<Slot>) {
    forall i, j :: 0 <= i < j < |bookings| ==> !Meets(bookings[i], bookings[j])
  }

  predicate Positive(bookings: seq<Slot>) {
    forall i :: 0 <= i < |bookings| ==> bookings[i].start < bookings[i].end
  }

  datatype Request = Request(duration: int, earliest: int, latestEnd: int)

  predicate Invalid(q: Request) {
    q.latestEnd <= q.earliest || q.duration <= 0
  }

  /** `start` begins a free slot of the right length inside the window. */
  predicate Fits(bookings: seq<Slot>, q: Request, start: int) {
    q.earliest <= start && start + q.duration <= q.latestEnd && Free(bookings, Slot(start, start + q.duration))
  }

  /** A fitting start lies in the window with its whole duration, and every booking ends by then or
      begins after it. */
  lemma FitsBetweenBookings(bookings: seq<Slot>, q: Request, start: int)
    ensures Fits(bookings, q, start) <==>
            && q.earliest <= start <= q.latestEnd - q.duration
            && forall i :: 0 <= i < |bookings| ==>
                 bookings[i].end <= start || start + q.duration <= bookings[i].start
  {
  }

  /** What `find` must answer: the least fitting start, or None exactly when there is none. */
  ghost predicate Answers(bookings: seq<Slot>, q: Request, r: Option<Slot>) {
    match r
    case Some(slot) =>
      && slot.end == slot.start + q.duration
      && Fits(bookings, q, slot.start)
      && forall t :: Fits(bookings, q, t) ==> slot.start <= t
    case None => forall t :: !Fits(bookings, q, t)
  }

  lemma OneAnswer(bookings: seq<Slot>, q: Request, r: Option<Slot>, r': Option<Slot>)
    requires Answers(bookings, q, r) && Answers(bookings, q, r')
    ensures r == r'
  {
    if r.Some? && r'.Some? {
      assert r.value.start <= r'.value.start && r'.value.start <= r.value.start;
    }
  }

  // ---------- Runs of reservations ----------

  /** One reservation: an invalid or unanswerable request changes nothing, any other adds exactly
      the earliest gap and keeps the list sorted. */
  ghost predicate Reserves(before: seq<Slot>, q: Request, after: seq<Slot>) {
    if Invalid(q) || Answers(before, q, None) then after == before
    else exists slot :: Answers(before, q, Some(slot)) && Books(before, slot, after)
  }

  ghost predicate Books(before: seq<Slot>, slot: Slot, after: seq<Slot>) {
    multiset(after) == multiset(before) + multiset{slot} && Sorting.Sorted(after, SlotLe)
  }

  ghost predicate Calendar(bookings: seq<Slot>) {
    Sorting.Sorted(bookings, SlotLe) && Positive(bookings) && Disjoint(bookings)
  }

  lemma MeetsIsSymmetric(a: Slot, b: Slot)
    ensures Meets(a, b) <==> Meets(b, a)
  {
  }

  lemma DisjointAppend(bookings: seq<Slot>, slot: Slot)
    requires Disjoint(bookings) && Free(bookings, slot)
    ensures Disjoint(bookings + [slot])
  {
  }

  /** Disjointness of positive intervals does not depend on the order of the list. */
  lemma DisjointPermutes(a: seq<Slot>, b: seq<Slot>)
    requires multiset(a) == multiset(b) && Disjoint(a) && Positive(a)
    ensures Disjoint(b) && Positive(b)
  {
    forall i | 0 <= i < |b| ensures b[i].start < b[i].end {
      assert b[i] in multiset(b);
      assert b[i] in multiset(a);
    }
    forall i, j | 0 <= i < j < |b| ensures !Meets(b[i], b[j]) {
      assert b[i] in multiset(a) by { assert b[i] in multiset(b); }
      assert b[j] in multiset(a) by { assert b[j] in multiset(b); }
      if b[i] == b[j] {
        Sorting.RemoveAt(b, i);
        var rest := b[..i] + b[i + 1..];
        assert rest[j - 1] == b[j];
        assert multiset(a)[b[i]] >= 2 by { assert b[j] in multiset(rest); }
        TwicePlaced(a, b[i]);
        assert false;
      } else {
        var k :| 0 <= k < |a| && a[k] == b[i];
        var l :| 0 <= l < |a| && a[l] == b[j];
        MeetsIsSymmetric(b[i], b[j]);
        if k < l { assert !Meets(a[k], a[l]); } else { assert !Meets(a[l], a[k]); }
      }
    }
  }

  lemma TwicePlaced(a: seq<Slot>, x: Slot)
    requires multiset(a)[x] >= 2 && x.start < x.end
    ensures !Disjoint(a)
  {
    var i :| 0 <= i < |a| && a[i] == x;
    Sorting.RemoveAt(a, i);
    var rest := a[..i] + a[i + 1..];
    assert x in multiset(rest);
    var j :| 0 <= j < |rest| && rest[j] == x;
    var k := if j < i then j else j + 1;
    assert k != i && a[k] == x;
    if k < i { assert Meets(a[k], a[i]); } else { assert Meets(a[i], a[k]); }
  }

  lemma ReserveKeepsCalendar(before: seq<Slot>, q: Request, after: seq<Slot>)
    requires Calendar(before) && Reserves(before, q, after)
    ensures Calendar(after) && multiset(before) <= multiset(after)
  {
    if !(Invalid(q) || Answers(before, q, None)) {
      var slot :| Answers(before, q, Some(slot)) && Books(before, slot, after);
      DisjointAppend(before, slot);
      DisjointPermutes(before + [slot], after);
    }
  }

  ghost predicate Run(states: seq<seq<Slot>>, requests: seq<Request>) {
    |states| == |requests| + 1 && forall k :: 0 <= k < |requests| ==> Reserves(states[k], requests[k], states[k + 1])
  }

  /** Any sequence of reservations from a disjoint calendar keeps it sorted and pairwise disjoint,
      and keeps every earlier booking. */
  lemma {:induction false} ReservationsNeverOverlap(states: seq<seq<Slot>>, requests: seq<Request>, j: nat, k: nat)
    requires Run(states, requests) && Calendar(states[0]) && j <= k < |states|
    ensures Calendar(states[j]) && Calendar(states[k]) && multiset(states[j]) <= multiset(states[k])
    decreases k
  {
    if k == 0 {
    } else if j == k {
      ReservationsNeverOverlap(states, requests, k - 1, k - 1);
      ReserveKeepsCalendar(states[k - 1], requests[k - 1], states[k]);
    } else {
      ReservationsNeverOverlap(states, requests, j, k - 1);
      ReserveKeepsCalendar(states[k - 1], requests[k - 1], states[k]);
    }
  }

  // ---------- The class ----------

  class Scheduler {
    var bookings: seq<Slot>

    ghost predicate Valid()
      reads this
    {
      Sorting.Sorted(bookings, SlotLe) && Positive(bookings)
    }

    constructor (bookings: seq<Slot>)
      requires Positive(bookings)
      ensures Valid() && multiset(this.bookings) == multiset(bookings)
    {
      this.bookings := Sorting.Sort(bookings, SlotLe);
      new;
      Sorting.SortSorts(bookings, SlotLe);
      forall i | 0 <= i < |this.bookings| ensures this.bookings[i].start < this.bookings[i].end {
        assert this.bookings[i] in multiset(bookings) by { assert this.bookings[i] in multiset(this.bookings); }
      }
    }

    /** `__init__`; None is the ValueError for an interval that is not positive.  The given list may
        hold overlapping bookings. */
    static method Open(bookings: seq<Slot>) returns (r: Option<Scheduler>)
      ensures r.Some? <==> Positive(bookings)
      ensures r.Some? ==> fresh(r.value) && r.value.Valid() && multiset(r.value.bookings) == multiset(bookings)
    {
      if exists i :: 0 <= i < |bookings| && bookings[i].end <= bookings[i].start { return None; }
      var scheduler := new Scheduler(bookings);
      return Some(scheduler);
    }

    /** `find`; Err is its ValueError. */
    method Find(q: Request) returns (r: Result<Option<Slot>, ()>)
      requires Valid()
      ensures r.Err? <==> q.latestEnd <= q.earliest || q.duration <= 0
      ensures r.Ok? ==> Answers(bookings, q, r.value)
    {
      if q.latestEnd <= q.earliest || q.duration <= 0 { return Err(()); }
      var start := q.earliest;
      for i := 0 to |bookings|
        invariant start >= q.earliest
        invariant forall t :: Fits(bookings, q, t) ==> start <= t
        invariant forall j :: 0 <= j < i ==> bookings[j].end <= start || start + q.duration <= bookings[j].start
      {
        var b := bookings[i];
        if b.end <= start { continue; }
        if start + q.duration <= b.start && start + q.duration <= q.latestEnd {
          forall j | i <= j < |bookings| ensures b.start <= bookings[j].start {
            assert j > i ==> SlotLe(bookings[i], bookings[j]);
          }
          assert Fits(bookings, q, start);
          return Ok(Some(Slot(start, start + q.duration)));
        }
        if b.start < start + q.duration {
          forall j | 0 <= j < i ensures bookings[j].end <= start {
            assert SlotLe(bookings[j], bookings[i]);
          }
          forall t | Fits(bookings, q, t) ensures b.end <= t {
            assert !Meets(Slot(t, t + q.duration), bookings[i]);
          }
          start := if start < b.end then b.end else start;
        }
      }
      if start + q.duration <= q.latestEnd {
        assert Fits(bookings, q, start);
        return Ok(Some(Slot(start, start + q.duration)));
      }
      return Ok(None);
    }

    /** `reserve`: find and insert as one step. */
    method Reserve(q: Request) returns (r: Result<Option<Slot>, ()>)
      requires Valid()
      modifies this
      ensures Valid() && Reserves(old(bookings), q, bookings)
      ensures r.Err? <==> q.latestEnd <= q.earliest || q.duration <= 0
      ensures r.Ok? ==> Answers(old(bookings), q, r.value)
      ensures r.Ok? && r.value.Some? ==> Books(old(bookings), r.value.value, bookings)
      ensures !(r.Ok? && r.value.Some?) ==> bookings == old(bookings)
    {
      r := Find(q);
      if r.Ok? && r.value.Some? {
        var slot := r.value.value;
        var appended := bookings + [slot];
        assert Fits(bookings, q, slot.start);
        Sorting.SortSorts(appended, SlotLe);
        bookings := Sorting.Sort(appended, SlotLe);
        forall i | 0 <= i < |bookings| ensures bookings[i].start < bookings[i].end {
          assert bookings[i] in multiset(appended) by { assert bookings[i] in multiset(bookings); }
        }
        assert Answers(old(bookings), q, Some(slot)) && Books(old(bookings), slot, bookings);
      }
    }
  }
}
