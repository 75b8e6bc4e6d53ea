/** The rendezvous of the execution broker: `LegacyJob.forward` and `cancel` against `reply_legacy`.
    Each critical section, and each unlocked read, is one step; any number of threads may call
    `forward`, and replies, duplicates, timeouts and cancellations may come at any point. */
module RelayJob {
  import opened Outcomes

  /** `uuid4`: identities are compared for equality only. */
  type CallId = nat

  type ThreadId = nat

  datatype Call = Call(id: CallId, payload: string)

  /** A posted reply; `error` is its status code if it carries an error. */
  datatype Reply = Reply(id: CallId, result: Option<string>, error: Option<int>)

  /** How `forward` ends: the relayed result, or a RelayError with its status. */
  datatype Ending = Returned(result: string) | Refused(status: int)

  /** The fields that the threads share. */
  datatype Shared = Shared(call: Option<Call>, reply: Option<Reply>, lastReplyId: Option<CallId>, cancelled: bool,
                           event: bool, expires: int)

  // ---------- The critical sections ----------

  /** The first section of `forward`: the status it refuses with, if it does. */
  function EntryRefusal(s: Shared, now: int): Option<int> {
    if s.cancelled || now >= s.expires then Some(503)
    else if s.call.Some? then Some(429)
    else None
  }

  function Entered(s: Shared, call: Call): Shared {
    s.(event := false, reply := None, call := Some(call))
  }

  /** The section after a wait that timed out. */
  function Abandoned(s: Shared): Shared {
    s.(cancelled := true, call := None)
  }

  /** The section after a wait that was woken; the thread keeps `s.reply`. */
  function Collected(s: Shared): Shared {
    s.(call := None)
  }

  /** The final check, outside the lock. */
  function EndingOf(cancelled: bool, reply: Option<Reply>): Ending {
    if cancelled || reply.None? then Refused(503)
    else if reply.value.error.Some? then Refused(if reply.value.error.value == 429 then 429 else 502)
    else if reply.value.result.None? then Refused(502)
    else Returned(reply.value.result.value)
  }

  predicate IsRepeat(s: Shared, reply: Reply) {
    s.lastReplyId == Some(reply.id)
  }

  predicate Accepts(s: Shared, reply: Reply) {
    !IsRepeat(s, reply) && s.call.Some? && s.call.value.id == reply.id && !s.cancelled
  }

  function Replied(s: Shared, reply: Reply): Shared {
    if Accepts(s, reply) then s.(reply := Some(reply), lastReplyId := Some(reply.id), event := true) else s
  }

  function CancelledBy(s: Shared): Shared {
    s.(cancelled := true, event := true)
  }

  // ---------- Interleavings ----------

  /** Where a thread is inside `forward`. */
  datatype Phase =
    | Waiting(id: CallId)
    | Woken(id: CallId)
    | GivingUp(id: CallId)
    | Checking(id: CallId, reply: Option<Reply>)

  /** `accepted` records the reply first accepted for each call, `ended` how each call ended, and
      `issued` every identity handed out. */
  datatype World = World(shared: Shared, threads: map<ThreadId, Phase>, accepted: map<CallId, Reply>,
                         ended: map<CallId, Ending>, issued: set<CallId>)

  function Start(expires: int): World {
    World(Shared(None, None, None, false, false, expires), map[], map[], map[], {})
  }

  datatype Event =
    | Enter(thread: ThreadId, id: CallId, payload: string, now: int)
    | TimeOut(thread: ThreadId)
    | Wake(thread: ThreadId)
    | Abandon(thread: ThreadId)
    | Collect(thread: ThreadId)
    | Check(thread: ThreadId)
    | Post(reply: Reply)
    | Cancel

  function Step(w: World, e: Event): World {
    match e
    case Enter(t, id, payload, now) =>
      if t in w.threads || id in w.issued || EntryRefusal(w.shared, now).Some? then w
      else w.(shared := Entered(w.shared, Call(id, payload)), threads := w.threads[t := Waiting(id)],
              issued := w.issued + {id})
    case TimeOut(t) =>
      if t in w.threads && w.threads[t].Waiting? && !w.shared.event
      then w.(threads := w.threads[t := GivingUp(w.threads[t].id)]) else w
    case Wake(t) =>
      if t in w.threads && w.threads[t].Waiting? && w.shared.event
      then w.(threads := w.threads[t := Woken(w.threads[t].id)]) else w
    case Abandon(t) =>
      if t in w.threads && w.threads[t].GivingUp?
      then w.(shared := Abandoned(w.shared), threads := w.threads - {t},
              ended := w.ended[w.threads[t].id := Refused(504)])
      else w
    case Collect(t) =>
      if t in w.threads && w.threads[t].Woken?
      then w.(shared := Collected(w.shared), threads := w.threads[t := Checking(w.threads[t].id, w.shared.reply)])
      else w
    case Check(t) =>
      if t in w.threads && w.threads[t].Checking?
      then w.(threads := w.threads - {t},
              ended := w.ended[w.threads[t].id := EndingOf(w.shared.cancelled, w.threads[t].reply)]) else w
    case Post(reply) =>
      if Accepts(w.shared, reply)
      then w.(shared := Replied(w.shared, reply), accepted := w.accepted[reply.id := reply]) else w
    case Cancel => w.(shared := CancelledBy(w.shared))
  }

  function Run(w: World, events: seq<Event>): World {
    if events == [] then w else Step(Run(w, events[..|events| - 1]), events[|events| - 1])
  }

  // ---------- The invariant ----------

  predicate Outstanding(p: Phase) {
    !p.Checking?
  }

  ghost predicate Good(w: World) {
    // exactly the outstanding thread stands behind `call`
    && (forall t :: t in w.threads && Outstanding(w.threads[t]) ==>
          w.shared.call.Some? && w.shared.call.value.id == w.threads[t].id)
    && (w.shared.call.Some? ==> exists t :: t in w.threads && Outstanding(w.threads[t]))
    // every call belongs to one thread, and to none once it has ended
    && (forall t, u :: t in w.threads && u in w.threads && w.threads[t].id == w.threads[u].id ==> t == u)
    && (forall t :: t in w.threads ==> w.threads[t].id in w.issued && w.threads[t].id !in w.ended)
    && w.accepted.Keys <= w.issued && w.ended.Keys <= w.issued
    && (w.shared.lastReplyId.Some? ==> w.shared.lastReplyId.value in w.accepted)
    // replies are the first accepted for their own call
    && (forall id :: id in w.accepted ==> w.accepted[id].id == id)
    && (w.shared.call.Some? && w.shared.reply.Some? ==> w.shared.reply.value.id == w.shared.call.value.id)
    && (w.shared.reply.Some? ==>
          w.shared.reply.value.id in w.accepted && w.accepted[w.shared.reply.value.id] == w.shared.reply.value)
    && (w.shared.call.Some? && w.shared.call.value.id in w.accepted ==>
          w.shared.lastReplyId == Some(w.shared.call.value.id))
    && (forall t :: t in w.threads && w.threads[t].Checking? && w.threads[t].reply.Some? ==>
          w.threads[t].id in w.accepted && w.accepted[w.threads[t].id] == w.threads[t].reply.value)
    // what was returned was the result of that reply
    && (forall id :: id in w.ended && w.ended[id].Returned? ==>
          id in w.accepted && w.accepted[id].result == Some(w.ended[id].result))
  }

  lemma EnterGood(w: World, t: ThreadId, id: CallId, payload: string, now: int)
    requires Good(w)
    ensures Good(Step(w, Enter(t, id, payload, now)))
  {
    var w' := Step(w, Enter(t, id, payload, now));
    if w' != w {
      assert t in w'.threads && Outstanding(w'.threads[t]);
      forall u | u in w.threads ensures w.threads[u].Checking? && w.threads[u].id != id {
        assert w.threads[u].id in w.issued;
      }
    }
  }

  lemma MoveGood(w: World, t: ThreadId, p: Phase)
    requires Good(w) && t in w.threads && Outstanding(w.threads[t]) && Outstanding(p) && p.id == w.threads[t].id
    ensures Good(w.(threads := w.threads[t := p]))
  {
    var w' := w.(threads := w.threads[t := p]);
    assert t in w'.threads && Outstanding(w'.threads[t]);
    forall u | u in w'.threads ensures w'.threads[u].id == w.threads[u].id {}
  }

  lemma AbandonGood(w: World, t: ThreadId)
    requires Good(w) && t in w.threads && w.threads[t].GivingUp?
    ensures Good(Step(w, Abandon(t)))
  {
    forall u | u in w.threads && u != t ensures w.threads[u].Checking? && w.threads[u].id != w.threads[t].id {}
  }

  lemma CollectGood(w: World, t: ThreadId)
    requires Good(w) && t in w.threads && w.threads[t].Woken?
    ensures Good(Step(w, Collect(t)))
  {
    forall u | u in w.threads && u != t ensures w.threads[u].Checking? && w.threads[u].id != w.threads[t].id {}
  }

  lemma CheckGood(w: World, t: ThreadId)
    requires Good(w) && t in w.threads && w.threads[t].Checking?
    ensures Good(Step(w, Check(t)))
  {
    var w' := Step(w, Check(t));
    forall u | u in w.threads && u != t ensures w.threads[u].id != w.threads[t].id {}
    if w.shared.call.Some? {
      var u :| u in w.threads && Outstanding(w.threads[u]);
      assert u in w'.threads;
    }
  }

  lemma PostGood(w: World, reply: Reply)
    requires Good(w)
    ensures Good(Step(w, Post(reply)))
  {
    if Accepts(w.shared, reply) {
      var t :| t in w.threads && Outstanding(w.threads[t]);
      assert w.threads[t].id == reply.id;
      assert reply.id !in w.accepted;
      forall u | u in w.threads && w.threads[u].Checking? ensures w.threads[u].id != reply.id {}
    }
  }

  lemma StepGood(w: World, e: Event)
    requires Good(w)
    ensures Good(Step(w, e))
  {
    match e
    case Enter(t, id, payload, now) => EnterGood(w, t, id, payload, now);
    case TimeOut(t) =>
      if t in w.threads && w.threads[t].Waiting? && !w.shared.event { MoveGood(w, t, GivingUp(w.threads[t].id)); }
    case Wake(t) =>
      if t in w.threads && w.threads[t].Waiting? && w.shared.event { MoveGood(w, t, Woken(w.threads[t].id)); }
    case Post(reply) => PostGood(w, reply);
    case Abandon(t) => if t in w.threads && w.threads[t].GivingUp? { AbandonGood(w, t); }
    case Collect(t) => if t in w.threads && w.threads[t].Woken? { CollectGood(w, t); }
    case Check(t) => if t in w.threads && w.threads[t].Checking? { CheckGood(w, t); }
    case Cancel =>
  }

  lemma {:induction false} RunGood(expires: int, events: seq<Event>)
    ensures Good(Run(Start(expires), events))
  {
    if events == [] {
    } else {
      RunGood(expires, events[..|events| - 1]);
      StepGood(Run(Start(expires), events[..|events| - 1]), events[|events| - 1]);
    }
  }

  // ---------- What it means ----------

  /** At most one call is outstanding, it is the one `call` names, and a result that was returned is
      the result of the reply first accepted for that call's own id. */
  lemma RelayIsCorrect(expires: int, events: seq<Event>)
    ensures var w := Run(Start(expires), events);
            && (forall t, u ::
                  t in w.threads && u in w.threads && Outstanding(w.threads[t]) && Outstanding(w.threads[u]) ==> t == u)
            && (w.shared.call.Some? <==> exists t :: t in w.threads && Outstanding(w.threads[t]))
            && (forall id :: id in w.ended && w.ended[id].Returned? ==>
                  id in w.accepted && w.accepted[id].id == id && w.accepted[id].result == Some(w.ended[id].result))
  {
    RunGood(expires, events);
  }

  lemma NewReplyOnly(w: World, reply: Reply)
    requires Good(w) && Accepts(w.shared, reply)
    ensures reply.id !in w.accepted
  {
  }

  /** Later steps keep every accepted reply and every ending. */
  lemma StepKeepsReplies(w: World, e: Event, id: CallId)
    requires Good(w)
    ensures id in w.accepted ==> id in Step(w, e).accepted && Step(w, e).accepted[id] == w.accepted[id]
    ensures id in w.ended ==> id in Step(w, e).ended && Step(w, e).ended[id] == w.ended[id]
  {
    if e.Post? && Accepts(w.shared, e.reply) { NewReplyOnly(w, e.reply); }
  }

  /** The first accepted reply of a call, and how a call ended, are never replaced. */
  lemma {:induction false} FirstReplyStays(expires: int, events: seq<Event>, more: seq<Event>, id: CallId)
    ensures var w, later := Run(Start(expires), events), Run(Start(expires), events + more);
            && (id in w.accepted ==> id in later.accepted && later.accepted[id] == w.accepted[id])
            && (id in w.ended ==> id in later.ended && later.ended[id] == w.ended[id])
    decreases |more|
  {
    if more == [] {
      assert events + more == events;
    } else {
      var front := more[..|more| - 1];
      FirstReplyStays(expires, events, front, id);
      assert (events + more)[..|events + more| - 1] == events + front;
      RunGood(expires, events + front);
      StepKeepsReplies(Run(Start(expires), events + front), more[|more| - 1], id);
    }
  }

  /** Once a reply to a call has been accepted, posting for that call again changes nothing, in any
      later world and whatever the new reply says. */
  lemma RepeatChangesNothing(expires: int, events: seq<Event>, more: seq<Event>, again: Reply)
    requires again.id in Run(Start(expires), events).accepted
    ensures var later := Run(Start(expires), events + more); Step(later, Post(again)) == later
  {
    FirstReplyStays(expires, events, more, again.id);
    RunGood(expires, events + more);
    var later := Run(Start(expires), events + more);
    if Accepts(later.shared, again) { NewReplyOnly(later, again); }
  }

  /** Once cancelled, or once any call has timed out, the job stays cancelled, and every call still
      open ends without a result: only calls already ended can have returned one. */
  lemma {:induction false} NothingReturnsAfterCancel(w: World, events: seq<Event>, id: CallId)
    requires w.shared.cancelled
    ensures var later := Run(w, events);
            && later.shared.cancelled
            && (id in later.ended && later.ended[id].Returned? ==> id in w.ended && w.ended[id] == later.ended[id])
  {
    if events == [] {
    } else {
      NothingReturnsAfterCancel(w, events[..|events| - 1], id);
    }
  }

  ghost predicate TimeoutsCancelled(w: World) {
    forall id :: id in w.ended && w.ended[id] == Refused(504) ==> w.shared.cancelled
  }

  lemma StepKeepsTimeouts(w: World, e: Event)
    requires Good(w) && TimeoutsCancelled(w)
    ensures TimeoutsCancelled(Step(w, e))
  {
  }

  lemma {:induction false} TimeoutCancels(expires: int, events: seq<Event>)
    ensures TimeoutsCancelled(Run(Start(expires), events))
  {
    if events == [] {
    } else {
      RunGood(expires, events[..|events| - 1]);
      TimeoutCancels(expires, events[..|events| - 1]);
      StepKeepsTimeouts(Run(Start(expires), events[..|events| - 1]), events[|events| - 1]);
    }
  }

  lemma {:induction false} NothingEntersAfterCancel(w: World, events: seq<Event>)
    requires w.shared.cancelled
    ensures Run(w, events).shared.cancelled && Run(w, events).issued == w.issued
  {
    if events == [] {
    } else {
      NothingEntersAfterCancel(w, events[..|events| - 1]);
    }
  }

  /** A call that has timed out ends the job: whatever follows, no call is let in, every new one is
      refused with 503, and no call that was still open returns a result. */
  lemma TimedOutJobIsOver(expires: int, events: seq<Event>, more: seq<Event>, timedOut: CallId, id: CallId, now: int)
    requires var w := Run(Start(expires), events); timedOut in w.ended && w.ended[timedOut] == Refused(504)
    ensures var w := Run(Start(expires), events);
            var later := Run(w, more);
            && later.issued == w.issued && EntryRefusal(later.shared, now) == Some(503)
            && (id in later.ended && later.ended[id].Returned? ==> id in w.ended && w.ended[id] == later.ended[id])
  {
    TimeoutCancels(expires, events);
    NothingEntersAfterCancel(Run(Start(expires), events), more);
    NothingReturnsAfterCancel(Run(Start(expires), events), more, id);
  }

  // ---------- The relay delivers ----------

  /** How far an answered call has come: 0 still waiting, 1 woken, 2 at the final check with the
      reply, 3 ended as the reply says.  None if it is on none of these. */
  ghost function Progress(w: World, t: ThreadId, reply: Reply): Option<nat> {
    if w.shared.cancelled then None
    else if reply.id in w.ended then
      if w.ended[reply.id] == EndingOf(false, Some(reply)) then Some(3) else None
    else if t !in w.threads || w.threads[t].id != reply.id then None
    else if w.threads[t].Checking? then
      if w.threads[t].reply == Some(reply) then Some(2) else None
    else if w.shared.reply != Some(reply) || !w.shared.event then None
    else if w.threads[t].Waiting? then Some(0)
    else if w.threads[t].Woken? then Some(1)
    else None
  }

  /** The thread's own step at each stage. */
  ghost predicate Advances(e: Event, t: ThreadId, stage: nat) {
    e == (match stage case 0 => Wake(t) case 1 => Collect(t) case _ => Check(t))
  }

  predicate Disrupts(e: Event) {
    e.Cancel? || e.Abandon?
  }

  lemma StepAdvances(w: World, e: Event, t: ThreadId, reply: Reply)
    requires Good(w) && Progress(w, t, reply).Some? && !Disrupts(e)
    ensures var before, after := Progress(w, t, reply).value, Progress(Step(w, e), t, reply);
            after.Some? && after.value >= before && (before < 3 && Advances(e, t, before) ==> after.value > before)
  {
    var p := Progress(w, t, reply).value;
    if p < 2 { assert Outstanding(w.threads[t]); }
    if e.Post? && Accepts(w.shared, e.reply) { NewReplyOnly(w, e.reply); }
  }

  /** How far its own steps among the events take the thread, from 0 up to 3. */
  ghost function OwnSteps(events: seq<Event>, t: ThreadId): nat {
    if events == [] then 0
    else
      var stage := OwnSteps(events[..|events| - 1], t);
      if stage < 3 && Advances(events[|events| - 1], t, stage) then stage + 1 else stage
  }

  lemma {:induction false} RunAdvances(w: World, events: seq<Event>, t: ThreadId, reply: Reply)
    requires Good(w) && Progress(w, t, reply).Some? && forall k :: 0 <= k < |events| ==> !Disrupts(events[k])
    ensures Good(Run(w, events))
    ensures Progress(Run(w, events), t, reply).Some? && Progress(Run(w, events), t, reply).value >= OwnSteps(events, t)
  {
    if events == [] {
    } else {
      var front := events[..|events| - 1];
      RunAdvances(w, front, t, reply);
      StepAdvances(Run(w, front), events[|events| - 1], t, reply);
      StepGood(Run(w, front), events[|events| - 1]);
    }
  }

  lemma AcceptedReplyStarts(w: World, t: ThreadId, reply: Reply)
    requires Good(w) && t in w.threads && w.threads[t] == Waiting(reply.id) && Accepts(w.shared, reply)
    ensures Progress(Step(w, Post(reply)), t, reply) == Some(0)
  {
  }

  /** How a relayed reply ends its call: 429 for an error 429, 502 for any other error and for a reply
      without a result, and else the result. */
  ghost predicate EndsAs(reply: Reply, ending: Ending) {
    && (reply.error == Some(429) ==> ending == Refused(429))
    && (reply.error.Some? && reply.error.value != 429 ==> ending == Refused(502))
    && (reply.error.None? && reply.result.None? ==> ending == Refused(502))
    && (reply.error.None? && reply.result.Some? ==> ending == Returned(reply.result.value))
  }

  /** The relay does deliver: once a reply is posted for a waiting call, the call ends as the reply says as
      soon as its thread has taken its three steps, whatever all others do in between short of a
      cancellation or a timed-out call. */
  lemma AnsweredCallEnds(w: World, t: ThreadId, reply: Reply, events: seq<Event>)
    requires Good(w) && t in w.threads && w.threads[t] == Waiting(reply.id) && Accepts(w.shared, reply)
    requires OwnSteps(events, t) == 3 && forall k :: 0 <= k < |events| ==> !Disrupts(events[k])
    ensures var done := Run(Step(w, Post(reply)), events);
            reply.id in done.ended && EndsAs(reply, done.ended[reply.id])
  {
    AcceptedReplyStarts(w, t, reply);
    StepGood(w, Post(reply));
    RunAdvances(Step(w, Post(reply)), events, t, reply);
  }

  /** Who gets in, and with what: a call is refused with 503 exactly if the job is cancelled or has
      expired, else with 429 exactly if a call is outstanding; and one that gets in is outstanding,
      without a reply, and stays asleep until someone posts or cancels. */
  lemma EntryDecides(w: World, t: ThreadId, id: CallId, payload: string, now: int)
    requires Good(w) && t !in w.threads && id !in w.issued
    ensures var s, w' := w.shared, Step(w, Enter(t, id, payload, now));
            && (EntryRefusal(s, now) == Some(503) <==> s.cancelled || now >= s.expires)
            && (EntryRefusal(s, now) == Some(429) <==>
                  !s.cancelled && now < s.expires && exists u :: u in w.threads && Outstanding(w.threads[u]))
            && (EntryRefusal(s, now).Some? ==> EntryRefusal(s, now).value in {429, 503} && w' == w)
            && (EntryRefusal(s, now).None? ==>
                  && t in w'.threads && w'.threads[t] == Waiting(id) && id in w'.issued && id !in w'.accepted
                  && w'.shared.call == Some(Call(id, payload)) && w'.shared.reply.None?
                  && Step(w', Wake(t)) == w')
  {
  }

  /** A fresh job takes its first call before it expires, and delivers its reply. */
  lemma FreshJobDelivers(expires: int, t: ThreadId, id: CallId, payload: string, reply: Reply, now: int)
    requires now < expires && reply.id == id
    ensures var asked := Step(Start(expires), Enter(t, id, payload, now));
            var done := Step(Step(Step(Step(asked, Post(reply)), Wake(t)), Collect(t)), Check(t));
            && asked.shared.call == Some(Call(id, payload))
            && id in done.ended && EndsAs(reply, done.ended[id]) && done.shared.call.None?
  {
    var asked := Step(Start(expires), Enter(t, id, payload, now));
    var woken := Step(Step(asked, Post(reply)), Wake(t));
    assert woken.threads[t] == Woken(id) && woken.shared.reply == Some(reply);
    assert Step(woken, Collect(t)).threads[t] == Checking(id, Some(reply));
  }

  /** What a posted reply meets: it is taken exactly for the outstanding, unanswered call of a job that is
      not cancelled, and then it is the call's reply and wakes its thread. */
  lemma PostDecides(w: World, reply: Reply)
    requires Good(w)
    ensures var w' := Step(w, Post(reply));
            && (w' != w <==>
                  !w.shared.cancelled && reply.id !in w.accepted &&
                  exists t :: t in w.threads && Outstanding(w.threads[t]) && w.threads[t].id == reply.id)
            && (w' != w ==>
                  && w'.accepted == w.accepted[reply.id := reply] && w'.shared.reply == Some(reply)
                  && forall t :: t in w.threads && w.threads[t] == Waiting(reply.id) ==>
                       t in Step(w', Wake(t)).threads && Step(w', Wake(t)).threads[t] == Woken(reply.id))
  {
    var w' := Step(w, Post(reply));
    if w' != w {
      NewReplyOnly(w, reply);
      var t :| t in w.threads && Outstanding(w.threads[t]);
      assert w.threads[t].id == reply.id;
    }
    if t :| !w.shared.cancelled && reply.id !in w.accepted &&
            t in w.threads && Outstanding(w.threads[t]) && w.threads[t].id == reply.id {
      assert Accepts(w.shared, reply);
    }
  }

  /** Cancelling wakes whoever waits, and the call ends with 503 even if a reply is there. */
  lemma CancelledCallIsRefused(w: World, t: ThreadId)
    requires Good(w) && t in w.threads && w.threads[t].Waiting?
    ensures var id, w' := w.threads[t].id, Step(Step(Step(Step(w, Cancel), Wake(t)), Collect(t)), Check(t));
            id in w'.ended && w'.ended[id] == Refused(503) && t !in w'.threads
  {
    var w1 := Step(w, Cancel);
    var w2 := Step(w1, Wake(t));
    assert w2.threads[t].Woken?;
    var w3 := Step(w2, Collect(t));
    assert w3.threads[t].Checking? && w3.shared.cancelled;
  }

  /** A wait that times out before anyone posts or cancels ends with 504. */
  lemma UnansweredCallTimesOut(w: World, t: ThreadId)
    requires Good(w) && t in w.threads && w.threads[t].Waiting? && !w.shared.event
    ensures var id, w' := w.threads[t].id, Step(Step(w, TimeOut(t)), Abandon(t));
            id in w'.ended && w'.ended[id] == Refused(504) && w'.shared.cancelled && w'.shared.call.None?
  {
    assert Step(w, TimeOut(t)).threads[t].GivingUp?;
  }

  // ---------- The class ----------

  class LegacyJob {
    var call: Option<Call>
    var reply: Option<Reply>
    var lastReplyId: Option<CallId>
    var cancelled: bool
    var event: bool
    const expires: int

    function Fields(): Shared
      reads this
    {
      Shared(call, reply, lastReplyId, cancelled, event, expires)
    }

    constructor (expires: int)
      ensures Fields() == Start(expires).shared
    {
      this.expires := expires;
      call, reply, lastReplyId, cancelled, event := None, None, None, false, false;
    }

    /** First locked section of `forward`; `refusal` is the status it raises, if any. */
    method Enter(id: CallId, payload: string, now: int) returns (refusal: Option<int>)
      modifies this
      ensures refusal == EntryRefusal(old(Fields()), now)
      ensures Fields() == if refusal.Some? then old(Fields()) else Entered(old(Fields()), Call(id, payload))
    {
      if cancelled || now >= expires { return Some(503); }
      if call.Some? { return Some(429); }
      event := false;
      reply := None;
      call := Some(Call(id, payload));
      return None;
    }

    /** Locked section after a timed-out wait. */
    method Abandon()
      modifies this
      ensures Fields() == Abandoned(old(Fields()))
    {
      cancelled := true;
      call := None;
    }

    /** Locked section after a wake-up. */
    method Collect() returns (mine: Option<Reply>)
      modifies this
      ensures Fields() == Collected(old(Fields())) && mine == old(reply)
    {
      mine := reply;
      call := None;
    }

    /** The final check. */
    method Check(mine: Option<Reply>) returns (ending: Ending)
      ensures ending == EndingOf(cancelled, mine)
    {
      if cancelled || mine.None? { return Refused(503); }
      if mine.value.error.Some? { return Refused(if mine.value.error.value == 429 then 429 else 502); }
      if mine.value.result.None? { return Refused(502); }
      return Returned(mine.value.result.value);
    }

    /** `reply_legacy`: false is its 409. */
    method Post(posted: Reply) returns (ok: bool)
      modifies this
      ensures Fields() == Replied(old(Fields()), posted)
      ensures ok <==> IsRepeat(old(Fields()), posted) || Accepts(old(Fields()), posted)
    {
      if lastReplyId == Some(posted.id) { return true; }
      if call.None? || call.value.id != posted.id || cancelled { return false; }
      reply := Some(posted);
      lastReplyId := Some(posted.id);
      event := true;
      return true;
    }

    method Cancel()
      modifies this
      ensures Fields() == CancelledBy(old(Fields()))
    {
      cancelled := true;
      event := true;
    }
  }
}
