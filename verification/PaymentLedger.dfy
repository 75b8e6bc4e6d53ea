/** The courier `Ledger`: recording deliveries, paying up to a cutoff, and what is still owed.  The
    cost of a delivery is an arbitrary fixed function; `pay_up_to` is the body below its placeholder
    `raise`. */
module PaymentLedger {
  import opened Outcomes
  import opened DriverActivity

  type Rates = map<string, int>

  type Cost = Delivery -> int

  datatype Book = Book(deliveries: map<string, Delivery>, paid: set<string>)

  const EMPTY: Book := Book(map[], {})

  /** The sum of the costs of some recorded deliveries, in whatever order they are added. */
  ghost function Owed(deliveries: map<string, Delivery>, ids: set<string>, cost: Cost): int
    requires ids <= deliveries.Keys
  {
    if ids == {} then 0
    else
      var id :| id in ids;
      cost(deliveries[id]) + Owed(deliveries, ids - {id}, cost)
  }

  lemma {:induction false} OwedPick(deliveries: map<string, Delivery>, ids: set<string>, cost: Cost, x: string)
    requires ids <= deliveries.Keys && x in ids
    ensures Owed(deliveries, ids, cost) == cost(deliveries[x]) + Owed(deliveries, ids - {x}, cost)
    decreases ids
  {
    var id :| id in ids && Owed(deliveries, ids, cost) == cost(deliveries[id]) + Owed(deliveries, ids - {id}, cost);
    if id != x {
      OwedPick(deliveries, ids - {id}, cost, x);
      OwedPick(deliveries, ids - {x}, cost, id);
      assert ids - {id} - {x} == ids - {x} - {id};
    }
  }

  lemma {:induction false} OwedSplit(deliveries: map<string, Delivery>, a: set<string>, b: set<string>, cost: Cost)
    requires a + b <= deliveries.Keys && a !! b
    ensures Owed(deliveries, a + b, cost) == Owed(deliveries, a, cost) + Owed(deliveries, b, cost)
    decreases a
  {
    if x :| x in a {
      OwedPick(deliveries, a + b, cost, x);
      OwedPick(deliveries, a, cost, x);
      OwedSplit(deliveries, a - {x}, b, cost);
      assert a + b - {x} == (a - {x}) + b;
    } else {
      assert a + b == b;
    }
  }

  lemma {:induction false} OwedGrows(before: map<string, Delivery>, after: map<string, Delivery>, ids: set<string>,
                                     cost: Cost)
    requires ids <= before.Keys && before.Keys <= after.Keys && forall id :: id in before ==> after[id] == before[id]
    ensures Owed(after, ids, cost) == Owed(before, ids, cost)
    decreases ids
  {
    if x :| x in ids {
      OwedPick(after, ids, cost, x);
      OwedPick(before, ids, cost, x);
      OwedGrows(before, after, ids - {x}, cost);
    }
  }

  // ---------- The operations on a book ----------

  predicate Consistent(book: Book) {
    book.paid <= book.deliveries.Keys
  }

  /** When `record` raises: an unknown driver, an empty interval, or an id already used for a
      different delivery. */
  predicate Rejected(rates: Rates, book: Book, id: string, item: Delivery) {
    item.driver !in rates || item.end <= item.start || (id in book.deliveries && book.deliveries[id] != item)
  }

  function Due(book: Book, cutoff: int): (due: set<string>)
    ensures due <= book.deliveries.Keys && due !! book.paid
  {
    set id | id in book.deliveries && id !in book.paid && book.deliveries[id].end <= cutoff
  }

  ghost function Total(book: Book, cost: Cost): int {
    Owed(book.deliveries, book.deliveries.Keys, cost)
  }

  ghost function Unpaid(book: Book, cost: Cost): int {
    Owed(book.deliveries, book.deliveries.Keys - book.paid, cost)
  }

  datatype Action = Record(id: string, item: Delivery) | PayUpTo(cutoff: int)

  function After(rates: Rates, book: Book, action: Action): Book {
    match action
    case Record(id, item) =>
      if Rejected(rates, book, id, item) then book else book.(deliveries := book.deliveries[id := item])
    case PayUpTo(cutoff) => book.(paid := book.paid + Due(book, cutoff))
  }

  /** The deliveries an action pays for. */
  function PaidBy(book: Book, action: Action): set<string> {
    match action
    case Record(_, _) => {}
    case PayUpTo(cutoff) => Due(book, cutoff)
  }

  function Run(rates: Rates, book: Book, actions: seq<Action>): Book {
    if actions == [] then book
    else After(rates, Run(rates, book, actions[..|actions| - 1]), actions[|actions| - 1])
  }

  /** All amounts returned by the payments of a run. */
  ghost function Received(rates: Rates, book: Book, actions: seq<Action>, cost: Cost): int {
    if actions == [] then 0
    else
      var front, last := actions[..|actions| - 1], actions[|actions| - 1];
      var now := Run(rates, book, front);
      Received(rates, book, front, cost) +
        (if last.PayUpTo? then Owed(now.deliveries, Due(now, last.cutoff), cost) else 0)
  }

  lemma {:induction false} RunConsistent(rates: Rates, book: Book, actions: seq<Action>)
    requires Consistent(book)
    ensures Consistent(Run(rates, book, actions))
    ensures book.paid <= Run(rates, book, actions).paid
    ensures forall id :: id in book.deliveries ==>
              id in Run(rates, book, actions).deliveries &&
                Run(rates, book, actions).deliveries[id] == book.deliveries[id]
  {
    if actions == [] {
    } else {
      RunConsistent(rates, book, actions[..|actions| - 1]);
    }
  }

  /** In every reachable book each delivery is of a known driver and takes time. */
  lemma {:induction false} RecordedIsValid(rates: Rates, actions: seq<Action>, id: string)
    requires id in Run(rates, EMPTY, actions).deliveries
    ensures var item := Run(rates, EMPTY, actions).deliveries[id]; item.driver in rates && item.start < item.end
  {
    var front := actions[..|actions| - 1];
    if id in Run(rates, EMPTY, front).deliveries { RecordedIsValid(rates, front, id); }
  }

  /** A record of a known driver's delivery that takes time is kept under a new id, changes nothing under
      its own, and is refused under another's; any other record changes nothing. */
  lemma RecordDecides(rates: Rates, book: Book, id: string, item: Delivery)
    ensures var book' := After(rates, book, Record(id, item));
            && book'.paid == book.paid
            && (item.driver in rates && item.start < item.end && id !in book.deliveries ==>
                  book'.deliveries == book.deliveries[id := item])
            && (item.driver !in rates || item.end <= item.start || id in book.deliveries ==> book' == book)
  {
  }

  /** Conservation: over any run, what the payments returned is exactly what the paid deliveries
      cost, so with what is still unpaid it makes up the total. */
  lemma {:induction false} PaymentsPlusUnpaidIsTotal(rates: Rates, actions: seq<Action>, cost: Cost)
    ensures var book := Run(rates, EMPTY, actions);
            && Consistent(book)
            && Received(rates, EMPTY, actions, cost) == Owed(book.deliveries, book.paid, cost)
            && Received(rates, EMPTY, actions, cost) + Unpaid(book, cost) == Total(book, cost)
  {
    var book := Run(rates, EMPTY, actions);
    RunConsistent(rates, EMPTY, actions);
    if actions == [] {
    } else {
      var front, last := actions[..|actions| - 1], actions[|actions| - 1];
      var before := Run(rates, EMPTY, front);
      PaymentsPlusUnpaidIsTotal(rates, front, cost);
      match last {
        case Record(id, item) => OwedGrows(before.deliveries, book.deliveries, book.paid, cost);
        case PayUpTo(cutoff) => OwedSplit(before.deliveries, before.paid, Due(before, cutoff), cost);
      }
    }
    OwedSplit(book.deliveries, book.paid, book.deliveries.Keys - book.paid, cost);
    assert book.paid + (book.deliveries.Keys - book.paid) == book.deliveries.Keys;
  }

  /** No delivery is paid by two actions of a run, whatever the cutoffs. */
  lemma PaidOnce(rates: Rates, actions: seq<Action>, j: nat, k: nat)
    requires j < k < |actions|
    ensures PaidBy(Run(rates, EMPTY, actions[..j]), actions[j]) !! PaidBy(Run(rates, EMPTY, actions[..k]), actions[k])
  {
    var paidThen := PaidBy(Run(rates, EMPTY, actions[..j]), actions[j]);
    assert actions[..j + 1][..j] == actions[..j];
    StaysPaid(rates, actions[..k], j);
    assert actions[..k][..j] == actions[..j];
  }

  lemma {:induction false} StaysPaid(rates: Rates, actions: seq<Action>, j: nat)
    requires j < |actions|
    ensures PaidBy(Run(rates, EMPTY, actions[..j]), actions[j]) <= Run(rates, EMPTY, actions).paid
  {
    var front := actions[..|actions| - 1];
    if j < |front| {
      StaysPaid(rates, front, j);
      assert front[..j] == actions[..j];
    }
  }

  /** The payment of action k covers the delivery. */
  ghost predicate Covers(rates: Rates, actions: seq<Action>, k: nat, id: string)
    requires k < |actions|
  {
    var book := Run(rates, EMPTY, actions[..k]);
    actions[k].PayUpTo? && id in book.deliveries && book.deliveries[id].end <= actions[k].cutoff
  }

  /** A delivery has been paid exactly when some payment came after its record with a cutoff at or
      after its end. */
  lemma {:induction false} PaidIffCovered(rates: Rates, actions: seq<Action>, id: string)
    ensures id in Run(rates, EMPTY, actions).paid <==> exists k :: 0 <= k < |actions| && Covers(rates, actions, k, id)
  {
    if actions == [] {
    } else {
      var n := |actions| - 1;
      var front := actions[..n];
      PaidIffCovered(rates, front, id);
      RunConsistent(rates, EMPTY, front);
      forall k | 0 <= k < n ensures Covers(rates, actions, k, id) <==> Covers(rates, front, k, id) {
        assert front[..k] == actions[..k];
      }
      if k :| 0 <= k < n && Covers(rates, front, k, id) { assert Covers(rates, actions, k, id); }
      assert id in Run(rates, EMPTY, actions).paid <==>
             id in Run(rates, EMPTY, front).paid || Covers(rates, actions, n, id);
    }
  }

  // ---------- The class ----------

  class Ledger {
    const rates: Rates
    const cost: Cost
    var deliveries: map<string, Delivery>
    var paid: set<string>

    function Contents(): Book
      reads this
    {
      Book(deliveries, paid)
    }

    constructor (rates: Rates, cost: Cost)
      ensures this.rates == rates && this.cost == cost && Contents() == EMPTY
    {
      this.rates, this.cost := rates, cost;
      deliveries, paid := map[], {};
    }

    /** `__init__`; None is its ValueError for a negative rate. */
    static method Open(rates: Rates, cost: Cost) returns (r: Option<Ledger>)
      ensures r.Some? <==> forall d :: d in rates ==> rates[d] >= 0
      ensures r.Some? ==> fresh(r.value) && r.value.Contents() == EMPTY
      ensures r.Some? ==> r.value.rates == rates && r.value.cost == cost
    {
      if exists d :: d in rates && rates[d] < 0 { return None; }
      var ledger := new Ledger(rates, cost);
      return Some(ledger);
    }

    /** `ok` is false where the source raises. */
    method Record(id: string, driver: string, start: int, end: int) returns (ok: bool)
      modifies this
      ensures ok <==> driver in rates && start < end &&
                      (id in old(deliveries) ==> old(deliveries)[id] == Delivery(driver, start, end))
      ensures Contents() == After(rates, old(Contents()), Action.Record(id, Delivery(driver, start, end)))
    {
      if driver !in rates || end <= start { return false; }
      var item := Delivery(driver, start, end);
      if id in deliveries && deliveries[id] != item { return false; }
      deliveries := deliveries[id := item];
      return true;
    }

    method SumOf(ids: set<string>) returns (amount: int)
      requires ids <= deliveries.Keys
      ensures amount == Owed(deliveries, ids, cost)
    {
      amount := 0;
      var rest := ids;
      while rest != {}
        invariant rest <= ids && amount + Owed(deliveries, rest, cost) == Owed(deliveries, ids, cost)
      {
        var id :| id in rest;
        OwedPick(deliveries, rest, cost, id);
        amount := amount + cost(deliveries[id]);
        rest := rest - {id};
      }
    }

    method GrandTotal() returns (amount: int)
      ensures amount == Total(Contents(), cost)
    {
      amount := SumOf(deliveries.Keys);
    }

    method StillUnpaid() returns (amount: int)
      ensures amount == Unpaid(Contents(), cost)
    {
      amount := SumOf(deliveries.Keys - paid);
    }

    method PayUpTo(cutoff: int) returns (amount: int)
      modifies this
      ensures Contents() == After(rates, old(Contents()), Action.PayUpTo(cutoff))
      ensures amount == Owed(deliveries, Due(old(Contents()), cutoff), cost)
    {
      var due := set id | id in deliveries && id !in paid && deliveries[id].end <= cutoff;
      amount := SumOf(due);
      paid := paid + due;
    }

    method PeakActivity(from: int, to: int) returns (r: Option<int>)
      ensures r.Some? <==> from < to
      ensures r.Some? ==> IsPeak(deliveries, from, to, r.value)
    {
      r := Peak(deliveries, from, to);
    }
  }
}
