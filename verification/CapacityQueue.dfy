/** Admission to the execution slots: `CapacityQueue` over an asyncio semaphore, and the release of a
    slot by `execute` in the broker.

    The semaphore is the library's (Python 3.12), taken as this contract: `locked` while no permit is
    free or anyone is in line; a release hands one permit to the first waiter in line that has none;
    a waiter that resumes or leaves hands on every permit that is free; waiters resume in the order
    they were granted; a waiter that leaves with a permit gives it back. */
module CapacityQueue {
  import opened Outcomes

  /** Requests are numbered in the order they arrive. */
  type Ticket = nat

  /** `line` holds the semaphore's waiters in order; the first `granted` of them have a permit but
      have not resumed yet.  `waiting` and `active` are the queue's own counters. */
  datatype Gate = Gate(slots: nat, maxWaiters: nat, waiting: int, active: int, free: nat, line: seq<Ticket>,
                       granted: nat)

  predicate Locked(g: Gate) {
    g.free == 0 || g.line != []
  }

  /** One free permit goes to the first waiter in line that has none. */
  function WakeOne(g: Gate): Gate {
    if g.free > 0 && g.granted < |g.line| then g.(free := g.free - 1, granted := g.granted + 1) else g
  }

  /** Free permits go to the waiters in line that have none. */
  function HandOut(g: Gate): Gate
    decreases g.free
  {
    if g.free > 0 && g.granted < |g.line| then HandOut(WakeOne(g)) else g
  }

  predicate Refuses(g: Gate) {
    Locked(g) && g.waiting >= g.maxWaiters
  }

  /** An acquire that finds a permit is admitted without waiting. */
  function AdmitAtOnce(g: Gate): Gate
    requires g.free > 0
  {
    g.(free := g.free - 1, active := g.active + 1)
  }

  function JoinLine(g: Gate, t: Ticket): Gate {
    g.(waiting := g.waiting + 1, line := g.line + [t])
  }

  /** The first waiter in line resumes with its permit. */
  function ResumeFirst(g: Gate): Gate
    requires g.granted > 0 && g.line != []
  {
    HandOut(g.(line := g.line[1..], granted := g.granted - 1, waiting := g.waiting - 1, active := g.active + 1))
  }

  /** A waiter times out or is cancelled, with or without a permit. */
  function Leave(g: Gate, i: nat): Gate
    requires i < |g.line|
  {
    var shorter := g.(line := g.line[..i] + g.line[i + 1..], waiting := g.waiting - 1);
    HandOut(if i < g.granted then shorter.(granted := g.granted - 1, free := g.free + 1) else shorter)
  }

  function Freed(g: Gate): Gate {
    WakeOne(g.(active := if g.active - 1 < 0 then 0 else g.active - 1, free := g.free + 1))
  }

  // ---------- Interleavings ----------

  /** The task around a worker thread: it ends when the thread has stopped, or by being cancelled
      itself, as when the event loop shuts down. */
  datatype Task = Pending | Finished | TaskCancelled

  /** The request behind an execution, which awaits a shield around the task. */
  datatype Caller = Awaiting | Answered | Gone

  /** An admitted execution: its worker thread, task and caller, and the `slot_released` flag of its
      closure. */
  datatype Execution = Execution(running: bool, task: Task, caller: Caller, slotReleased: bool)

  /** `admitted` and `released` record admissions and slot releases in order. */
  datatype World = World(
    gate: Gate,
    executions: map<Ticket, Execution>,
    admitted: seq<Ticket>,
    released: seq<Ticket>,
    next: Ticket)

  function Start(slots: nat, maxWaiters: nat): World {
    World(Gate(slots, maxWaiters, 0, 0, slots, [], 0), map[], [], [], 0)
  }

  datatype Event =
    | Arrive
    | Resume
    | GiveUp(index: nat)
    | Disconnect(ticket: Ticket)
    | ThreadStops(ticket: Ticket)
    | TaskEnds(ticket: Ticket)
    | CancelTask(ticket: Ticket)
    | Answer(ticket: Ticket)
    | Callback(ticket: Ticket)

  function Admit(w: World, gate: Gate, t: Ticket): World {
    w.(gate := gate,
       executions := w.executions[t := Execution(true, Pending, Awaiting, false)],
       admitted := w.admitted + [t])
  }

  /** What an event does to one execution, apart from the release.  Cancelling the caller cancels the
      outer future of the shield and leaves the task alone; cancelling the task leaves the thread
      alone. */
  function Advanced(x: Execution, e: Event): Execution {
    match e
    case Disconnect(_) => if x.caller == Awaiting then x.(caller := Gone) else x
    case ThreadStops(_) => x.(running := false)
    case TaskEnds(_) => if x.task == Pending && !x.running then x.(task := Finished) else x
    case CancelTask(_) => if x.task == Pending then x.(task := TaskCancelled) else x
    case Answer(_) => if x.task == Finished && x.caller == Awaiting then x.(caller := Answered) else x
    case _ => x
  }

  /** The done callback of a task, whichever way it ended. */
  predicate Releases(x: Execution) {
    x.task != Pending && !x.slotReleased
  }

  function Step(w: World, e: Event): World {
    match e
    case Arrive =>
      var w' := w.(next := w.next + 1);
      if Refuses(w.gate) then w'
      else if !Locked(w.gate) then Admit(w', AdmitAtOnce(w.gate), w.next)
      else w'.(gate := JoinLine(w.gate, w.next))
    case Resume =>
      if w.gate.granted == 0 || w.gate.line == [] then w else Admit(w, ResumeFirst(w.gate), w.gate.line[0])
    case GiveUp(i) =>
      if i >= |w.gate.line| then w else w.(gate := Leave(w.gate, i))
    case Callback(t) =>
      if t !in w.executions || !Releases(w.executions[t]) then w
      else w.(gate := Freed(w.gate),
              executions := w.executions[t := w.executions[t].(slotReleased := true)],
              released := w.released + [t])
    case _ =>
      var t := e.ticket;
      if t in w.executions then w.(executions := w.executions[t := Advanced(w.executions[t], e)]) else w
  }

  function Run(w: World, events: seq<Event>): World {
    if events == [] then w else Step(Run(w, events[..|events| - 1]), events[|events| - 1])
  }

  /** The executions that hold a slot. */
  function Holders(executions: map<Ticket, Execution>): set<Ticket> {
    set t | t in executions && !executions[t].slotReleased
  }

  ghost predicate Increasing(s: seq<nat>) {
    forall i, j :: 0 <= i < j < |s| ==> s[i] < s[j]
  }

  /** Conservation, the counters, the bounds, and no lost wake-up: while a permit is free and someone
      waits without one, a granted waiter is about to resume and hand it on. */
  ghost predicate Balanced(g: Gate, held: nat) {
    && g.free + g.granted + held == g.slots
    && g.active == held
    && g.waiting == |g.line| <= g.maxWaiters
    && g.granted <= |g.line|
    && (g.free > 0 && g.granted < |g.line| ==> g.granted > 0)
  }

  /** Arrival order: whoever was admitted arrived before whoever still waits. */
  ghost predicate Fair(w: World) {
    && Increasing(w.admitted + w.gate.line)
    && (forall k :: 0 <= k < |w.admitted + w.gate.line| ==> (w.admitted + w.gate.line)[k] < w.next)
  }

  /** A finished task's thread has stopped, a released slot's task has ended, and an answer is that of
      a finished task. */
  ghost predicate ExecutionOk(x: Execution) {
    && (x.task == Finished ==> !x.running)
    && (x.slotReleased ==> x.task != Pending)
    && (x.caller == Answered ==> x.task == Finished)
  }

  ghost predicate Accounted(w: World) {
    && (forall t :: t in w.executions <==> t in w.admitted)
    && (forall t :: t in w.released <==> t in w.executions && w.executions[t].slotReleased)
    && (forall t :: t in w.executions ==> ExecutionOk(w.executions[t]))
    && (forall i, j :: 0 <= i < j < |w.released| ==> w.released[i] != w.released[j])
  }

  ghost predicate Good(w: World) {
    Balanced(w.gate, |Holders(w.executions)|) && Fair(w) && Accounted(w)
  }

  ghost predicate Sums(g: Gate, held: nat) {
    && g.free + g.granted + held == g.slots
    && g.active == held
    && g.waiting == |g.line| <= g.maxWaiters
    && g.granted <= |g.line|
  }

  lemma {:induction false} HandOutBalances(g: Gate, held: nat)
    requires Sums(g, held)
    ensures Balanced(HandOut(g), held)
    ensures HandOut(g).line == g.line && HandOut(g).slots == g.slots && HandOut(g).maxWaiters == g.maxWaiters
    decreases g.free
  {
    if g.free > 0 && g.granted < |g.line| {
      HandOutBalances(WakeOne(g), held);
    }
  }

  lemma AdmitGood(w: World, gate: Gate, t: Ticket)
    requires Accounted(w) && Balanced(gate, |Holders(w.executions)| + 1)
    requires Increasing(w.admitted + [t] + gate.line)
    requires forall k :: 0 <= k < |w.admitted + [t] + gate.line| ==> (w.admitted + [t] + gate.line)[k] < w.next
    ensures Good(Admit(w, gate, t))
  {
    var w' := Admit(w, gate, t);
    var all := w.admitted + [t] + gate.line;
    forall k | 0 <= k < |w.admitted| ensures w.admitted[k] != t {
      assert all[k] < all[|w.admitted|];
    }
    assert Holders(w'.executions) == Holders(w.executions) + {t};
  }

  lemma ArriveGood(w: World)
    requires Good(w)
    ensures Good(Step(w, Arrive))
  {
    var t, all := w.next, w.admitted + w.gate.line;
    if !Refuses(w.gate) {
      if !Locked(w.gate) {
        assert w.admitted + [t] + AdmitAtOnce(w.gate).line == all + [t];
        AdmitGood(w.(next := w.next + 1), AdmitAtOnce(w.gate), t);
      } else {
        var w' := Step(w, Arrive);
        assert w'.admitted + w'.gate.line == all + [t];
      }
    }
  }

  lemma ResumeGood(w: World)
    requires Good(w)
    ensures Good(Step(w, Resume))
  {
    var g := w.gate;
    if g.granted > 0 {
      var t := g.line[0];
      assert w.admitted + [t] + g.line[1..] == w.admitted + g.line;
      HandOutBalances(g.(line := g.line[1..], granted := g.granted - 1, waiting := g.waiting - 1,
                         active := g.active + 1),
                      |Holders(w.executions)| + 1);
      AdmitGood(w, ResumeFirst(g), t);
    }
  }

  lemma LeaveGood(w: World, i: nat)
    requires Good(w) && i < |w.gate.line|
    ensures Good(Step(w, GiveUp(i)))
  {
    var g, held := w.gate, |Holders(w.executions)|;
    var line := g.line[..i] + g.line[i + 1..];
    var shorter := g.(line := line, waiting := g.waiting - 1);
    HandOutBalances(if i < g.granted then shorter.(granted := g.granted - 1, free := g.free + 1) else shorter, held);
    var w' := Step(w, GiveUp(i));
    assert w'.gate.line == line;
    var before, after := w.admitted + g.line, w.admitted + line;
    var cut := |w.admitted| + i;
    assert forall k :: 0 <= k < |after| ==> after[k] == before[if k < cut then k else k + 1];
  }

  lemma CallbackGood(w: World, t: Ticket)
    requires Good(w)
    ensures Good(Step(w, Callback(t)))
  {
    if t in w.executions && Releases(w.executions[t]) {
      var w' := Step(w, Callback(t));
      assert t in Holders(w.executions);
      assert Holders(w'.executions) == Holders(w.executions) - {t};
    }
  }

  lemma AdvanceGood(w: World, e: Event)
    requires Good(w) && !e.Arrive? && !e.Resume? && !e.GiveUp? && !e.Callback?
    ensures Good(Step(w, e))
  {
    var w' := Step(w, e);
    assert Holders(w'.executions) == Holders(w.executions);
    forall t | t in w'.executions ensures ExecutionOk(w'.executions[t]) { assert ExecutionOk(w.executions[t]); }
  }

  lemma StepGood(w: World, e: Event)
    requires Good(w)
    ensures Good(Step(w, e))
  {
    match e
    case Arrive => ArriveGood(w);
    case Resume => ResumeGood(w);
    case GiveUp(i) => if i < |w.gate.line| { LeaveGood(w, i); }
    case Callback(t) => CallbackGood(w, t);
    case _ => AdvanceGood(w, e);
  }

  lemma {:induction false} RunGood(slots: nat, maxWaiters: nat, events: seq<Event>)
    ensures Good(Run(Start(slots, maxWaiters), events))
  {
    if events == [] {
      assert Holders(Start(slots, maxWaiters).executions) == {};
    } else {
      RunGood(slots, maxWaiters, events[..|events| - 1]);
      StepGood(Run(Start(slots, maxWaiters), events[..|events| - 1]), events[|events| - 1]);
    }
  }

  lemma {:induction false} BoundsFixed(slots: nat, maxWaiters: nat, events: seq<Event>)
    ensures var g := Run(Start(slots, maxWaiters), events).gate; g.slots == slots && g.maxWaiters == maxWaiters
  {
    if events == [] {
    } else {
      BoundsFixed(slots, maxWaiters, events[..|events| - 1]);
      StepKeepsBounds(Run(Start(slots, maxWaiters), events[..|events| - 1]), events[|events| - 1]);
    }
  }

  lemma {:induction false} HandOutFixed(g: Gate)
    ensures HandOut(g).slots == g.slots && HandOut(g).maxWaiters == g.maxWaiters
    decreases g.free
  {
    if g.free > 0 && g.granted < |g.line| { HandOutFixed(WakeOne(g)); }
  }

  lemma StepKeepsBounds(w: World, e: Event)
    ensures Step(w, e).gate.slots == w.gate.slots && Step(w, e).gate.maxWaiters == w.gate.maxWaiters
  {
    var g := w.gate;
    if e.Resume? && g.granted > 0 && g.line != [] {
      HandOutFixed(g.(line := g.line[1..], granted := g.granted - 1, waiting := g.waiting - 1, active := g.active + 1));
    }
    if e.GiveUp? && e.index < |g.line| {
      var shorter := g.(line := g.line[..e.index] + g.line[e.index + 1..], waiting := g.waiting - 1);
      HandOutFixed(if e.index < g.granted then shorter.(granted := g.granted - 1, free := g.free + 1) else shorter);
    }
  }

  /** Slot conservation under any mix of arrivals, grants, timeouts, cancellations and finishing
      threads; the two bounds; no lost wake-up; admission in arrival order; one release per execution,
      after its thread has stopped unless its task was itself cancelled; and a caller answered only by
      an execution whose thread has stopped. */
  lemma SlotsAreConserved(slots: nat, maxWaiters: nat, events: seq<Event>)
    ensures var w := Run(Start(slots, maxWaiters), events);
            && w.gate.free + w.gate.granted + w.gate.active == slots
            && w.gate.active == |Holders(w.executions)| <= slots
            && 0 <= w.gate.waiting == |w.gate.line| <= maxWaiters
            && (w.gate.free > 0 && w.gate.granted < |w.gate.line| ==> w.gate.granted > 0)
            && Increasing(w.admitted + w.gate.line)
            && (forall i, j :: 0 <= i < j < |w.released| ==> w.released[i] != w.released[j])
            && (forall t :: t in w.released ==> t in w.admitted && t in w.executions)
            && (forall t :: t in w.released && w.executions[t].running ==> w.executions[t].task == TaskCancelled)
            && (forall t :: t in w.executions && w.executions[t].caller == Answered ==> !w.executions[t].running)
  {
    RunGood(slots, maxWaiters, events);
    BoundsFixed(slots, maxWaiters, events);
    var w := Run(Start(slots, maxWaiters), events);
    forall t | t in w.executions ensures ExecutionOk(w.executions[t]) {}
  }

  lemma {:induction false} OnlyCancelTaskCancels(slots: nat, maxWaiters: nat, events: seq<Event>, t: Ticket)
    requires forall k :: 0 <= k < |events| ==> events[k] != CancelTask(t)
    ensures var w := Run(Start(slots, maxWaiters), events); t in w.executions ==> w.executions[t].task != TaskCancelled
  {
    if events == [] {
    } else {
      OnlyCancelTaskCancels(slots, maxWaiters, events[..|events| - 1], t);
    }
  }

  /** However often its caller or others disconnect, time out or are cancelled, an execution whose task
      is not itself cancelled keeps its slot until its thread has stopped. */
  lemma SlotHeldUntilThreadStops(slots: nat, maxWaiters: nat, events: seq<Event>, t: Ticket)
    requires forall k :: 0 <= k < |events| ==> events[k] != CancelTask(t)
    ensures var w := Run(Start(slots, maxWaiters), events);
            t in w.executions && w.executions[t].running ==> t in Holders(w.executions) && t !in w.released
  {
    RunGood(slots, maxWaiters, events);
    OnlyCancelTaskCancels(slots, maxWaiters, events, t);
    var w := Run(Start(slots, maxWaiters), events);
    if t in w.executions { assert ExecutionOk(w.executions[t]); }
  }

  /** The shield is what makes it so: cancelling the task itself gives the slot back while the thread
      still runs. */
  lemma CancelledTaskReleasesEarly(w: World, t: Ticket)
    requires Good(w) && t in w.executions && w.executions[t].running && t in Holders(w.executions)
    ensures var w' := Step(Step(w, CancelTask(t)), Callback(t));
            t in w'.released && t in w'.executions && w'.executions[t].running
  {
    assert ExecutionOk(w.executions[t]);
    var w' := Step(Step(w, CancelTask(t)), Callback(t));
    assert w'.released[|w.released|] == t;
  }

  /** Every stopped thread's slot is returned once its task has ended and its callback has run, however
      often that runs. */
  lemma CallbackReleasesOnce(w: World, t: Ticket)
    requires Good(w) && t in w.executions && !w.executions[t].running
    ensures var ended := Step(w, TaskEnds(t));
            var w' := Step(ended, Callback(t));
            t in w'.released && t !in Holders(w'.executions) && Step(w', Callback(t)) == w'
  {
    var ended := Step(w, TaskEnds(t));
    var w' := Step(ended, Callback(t));
    if !w.executions[t].slotReleased { assert w'.released[|w.released|] == t; }
  }

  /** A waiter is passed over only by leaving: nobody who arrived later is admitted before it. */
  lemma NoOvertaking(slots: nat, maxWaiters: nat, events: seq<Event>, waiting: Ticket, admitted: Ticket)
    requires var w := Run(Start(slots, maxWaiters), events); waiting in w.gate.line && admitted in w.admitted
    ensures admitted < waiting
  {
    RunGood(slots, maxWaiters, events);
    var w := Run(Start(slots, maxWaiters), events);
    var all := w.admitted + w.gate.line;
    var i :| 0 <= i < |w.admitted| && w.admitted[i] == admitted;
    var j :| 0 <= j < |w.gate.line| && w.gate.line[j] == waiting;
    assert all[i] == admitted && all[|w.admitted| + j] == waiting;
  }

  // ---------- What each step decides ----------

  /** A new execution: its thread runs, its caller waits, its slot is its own. */
  ghost predicate Begins(w: World, t: Ticket) {
    t in w.executions && w.executions[t] == Execution(true, Pending, Awaiting, false)
  }

  lemma ArrivalIn(w: World)
    requires Good(w)
    ensures var w', t, atOnce := Step(w, Arrive), w.next, w.gate.free > 0 && w.gate.line == [];
            && (atOnce ==> w' == Admit(w.(next := t + 1), AdmitAtOnce(w.gate), t))
            && (!atOnce && |w.gate.line| < w.gate.maxWaiters ==> w' == w.(gate := JoinLine(w.gate, t), next := t + 1))
            && (!atOnce && |w.gate.line| == w.gate.maxWaiters ==> w' == w.(next := t + 1))
  {
  }

  /** In every reachable world an arrival is admitted at once exactly if a permit is free and nobody is
      in line, is refused exactly if the line is full and it could not be, and else goes to the end of
      the line. */
  lemma {:induction false} ArrivalDecides(slots: nat, maxWaiters: nat, events: seq<Event>)
    ensures var w := Run(Start(slots, maxWaiters), events);
            var w', t, atOnce := Step(w, Arrive), w.next, w.gate.free > 0 && w.gate.line == [];
            && w'.next == t + 1 && w'.released == w.released
            && (atOnce ==> w'.admitted == w.admitted + [t] && Begins(w', t) && w'.gate.line == w.gate.line)
            && (!atOnce && |w.gate.line| < maxWaiters ==>
                  w'.admitted == w.admitted && w'.gate.line == w.gate.line + [t])
            && (!atOnce && |w.gate.line| == maxWaiters ==> w' == w.(next := t + 1))
            && |w.gate.line| <= maxWaiters
  {
    RunGood(slots, maxWaiters, events);
    BoundsFixed(slots, maxWaiters, events);
    ArrivalIn(Run(Start(slots, maxWaiters), events));
  }

  lemma FreedIsGranted(g: Gate, held: nat)
    requires Balanced(g, held) && held > 0 && g.line != []
    ensures Freed(g).active == g.active - 1 && Freed(g).granted > 0 && Freed(g).line == g.line
    ensures Freed(g).waiting == g.waiting
    ensures g.granted < |g.line| ==> Freed(g).granted == g.granted + 1
  {
  }

  lemma GrantedResumes(w: World)
    requires w.gate.granted > 0 && w.gate.line != []
    ensures var resumed := Step(w, Resume);
            && resumed.admitted == w.admitted + [w.gate.line[0]] && resumed.gate.line == w.gate.line[1..]
            && resumed.gate.waiting == w.gate.waiting - 1 && Begins(resumed, w.gate.line[0])
  {
    HandOutKeepsLine(w.gate.(line := w.gate.line[1..], granted := w.gate.granted - 1,
                             waiting := w.gate.waiting - 1, active := w.gate.active + 1));
  }

  /** In every reachable world a released slot goes to the first waiter in line without a permit, and
      then the head of the line resumes and its execution begins. */
  lemma {:induction false} ReleasedSlotIsPassedOn(slots: nat, maxWaiters: nat, events: seq<Event>, t: Ticket)
    requires var w := Run(Start(slots, maxWaiters), events);
             t in Holders(w.executions) && w.executions[t].task != Pending && w.gate.line != []
    ensures var w := Run(Start(slots, maxWaiters), events);
            var freed := Step(w, Callback(t));
            var resumed := Step(freed, Resume);
            && freed.gate.active == w.gate.active - 1
            && (w.gate.granted < |w.gate.line| ==> freed.gate.granted == w.gate.granted + 1)
            && resumed.admitted == w.admitted + [w.gate.line[0]] && resumed.gate.line == w.gate.line[1..]
            && resumed.gate.waiting == w.gate.waiting - 1 && Begins(resumed, w.gate.line[0])
  {
    RunGood(slots, maxWaiters, events);
    var w := Run(Start(slots, maxWaiters), events);
    assert |Holders(w.executions)| > 0;
    FreedIsGranted(w.gate, |Holders(w.executions)|);
    GrantedResumes(Step(w, Callback(t)));
  }

  lemma {:induction false} HandOutKeepsLine(g: Gate)
    ensures HandOut(g).line == g.line && HandOut(g).waiting == g.waiting && HandOut(g).active == g.active
    decreases g.free
  {
    if g.free > 0 && g.granted < |g.line| { HandOutKeepsLine(WakeOne(g)); }
  }

  /** A caller is answered exactly by the answer of a finished task while it waits, and is gone exactly
      by disconnecting while it waits; either is its end.  No other step changes a caller. */
  lemma CallerEndsOnce(w: World, e: Event, t: Ticket)
    requires Good(w) && t in w.executions
    ensures var x, w' := w.executions[t], Step(w, e);
            && t in w'.executions
            && (x.caller == Awaiting ==>
                  && (w'.executions[t].caller == Answered <==> e == Answer(t) && x.task == Finished)
                  && (w'.executions[t].caller == Gone <==> e == Disconnect(t)))
            && (x.caller != Awaiting ==> w'.executions[t].caller == x.caller)
  {
    if e.Arrive? || e.Resume? { OnlyNewBegin(w, e, t); }
  }

  lemma OnlyNewBegin(w: World, e: Event, t: Ticket)
    requires Good(w) && t in w.executions && (e.Arrive? || e.Resume?)
    ensures t in Step(w, e).executions && Step(w, e).executions[t] == w.executions[t]
  {
    var all := w.admitted + w.gate.line;
    var i :| 0 <= i < |w.admitted| && w.admitted[i] == t;
    assert all[i] == t;
    if w.gate.line != [] { assert all[|w.admitted|] == w.gate.line[0]; }
  }

  // ---------- The classes ----------

  class Queue {
    const slots: nat
    const maxWaiters: nat
    var waiting: int
    var active: int
    /** The semaphore. */
    var free: nat
    var line: seq<Ticket>
    var granted: nat

    function Fields(): Gate
      reads this
    {
      Gate(slots, maxWaiters, waiting, active, free, line, granted)
    }

    constructor (slots: int, maxWaiters: int)
      ensures Fields() == Start(if slots < 1 then 1 else slots, if maxWaiters < 0 then 0 else maxWaiters).gate
    {
      this.slots := if slots < 1 then 1 else slots;
      this.maxWaiters := if maxWaiters < 0 then 0 else maxWaiters;
      waiting, active, line, granted := 0, 0, [], 0;
      free := if slots < 1 then 1 else slots;
    }

    /** The semaphore's hand-out of freed permits. */
    method WakeUp()
      modifies this`free, this`granted
      ensures Fields() == HandOut(old(Fields()))
    {
      while free > 0 && granted < |line|
        invariant HandOut(Fields()) == HandOut(old(Fields()))
      {
        free := free - 1;
        granted := granted + 1;
      }
    }

    /** `acquire` up to its wait: None is CapacityExceeded, true is an immediate admission. */
    method Acquire(t: Ticket) returns (r: Option<bool>)
      modifies this
      ensures r.None? <==> Refuses(old(Fields()))
      ensures r.None? ==> Fields() == old(Fields())
      ensures r == Some(true) ==> !Locked(old(Fields())) && Fields() == AdmitAtOnce(old(Fields()))
      ensures r == Some(false) ==> Locked(old(Fields())) && Fields() == JoinLine(old(Fields()), t)
    {
      var locked := free == 0 || line != [];
      if locked && waiting >= maxWaiters { return None; }
      waiting := waiting + 1;
      if !locked {
        free := free - 1;
        waiting := waiting - 1;
        active := active + 1;
        return Some(true);
      }
      line := line + [t];
      return Some(false);
    }

    /** The rest of `acquire` for the waiter at the head of the line. */
    method Resume()
      requires granted > 0 && line != []
      modifies this
      ensures Fields() == ResumeFirst(old(Fields()))
    {
      line := line[1..];
      granted := granted - 1;
      waiting := waiting - 1;
      active := active + 1;
      WakeUp();
    }

    /** A timeout or cancellation inside the wait. */
    method GiveUp(i: nat)
      requires i < |line|
      modifies this
      ensures Fields() == Leave(old(Fields()), i)
    {
      var hadPermit := i < granted;
      line := line[..i] + line[i + 1..];
      waiting := waiting - 1;
      if hadPermit {
        granted := granted - 1;
        free := free + 1;
      }
      WakeUp();
    }

    method Release()
      modifies this
      ensures Fields() == Freed(old(Fields()))
    {
      active := if active - 1 < 0 then 0 else active - 1;
      free := free + 1;
      if granted < |line| {
        free := free - 1;
        granted := granted + 1;
      }
    }
  }

  /** The closure of one `execute` call. */
  class SlotHolder {
    const queue: Queue
    var slotReleased: bool

    constructor (queue: Queue)
      ensures this.queue == queue && !slotReleased
    {
      this.queue, slotReleased := queue, false;
    }

    /** `release_once`, the task's done callback. */
    method ReleaseOnce()
      modifies this, queue
      ensures slotReleased
      ensures queue.Fields() == if old(slotReleased) then old(queue.Fields()) else Freed(old(queue.Fields()))
    {
      if !slotReleased {
        slotReleased := true;
        queue.Release();
      }
    }
  }
}
