/** The queue functions as methods over stored rows.  Each takes its clock readings and fresh tokens
    as parameters and is proved to take the steps of `GradingLeases`: the ghost world `w` is the
    state of the rows, of every claim, and of the clock when the method starts. */
module GradingWorker {
  import opened Outcomes
  import opened GradingTables
  import opened GradingLeases

  /** What `_execute` came back with: an envelope, an exception or timeout, or a cancellation. */
  datatype Execution = Returned(envelope: Envelope) | Raised | Cancelled

  /** An envelope that is not genuine, or is for another submission or another token than the claim's. */
  ghost predicate Forged(envelope: Envelope, claim: Claim) {
    !envelope.genuine || envelope.payload.identity != claim.identity || envelope.payload.token != claim.token
  }

  ghost predicate IsOldest(jobs: Jobs, now: int, id: JobId) {
    && id in jobs && Claimable(jobs[id], now)
    && forall j :: j in jobs && Claimable(jobs[j], now) ==> jobs[id].createdAt <= jobs[j].createdAt
  }

  class GradingStore {
    var jobs: Jobs
    var assessments: Assessments
    const timeout: nat

    constructor (timeout: nat)
      ensures this.timeout == timeout && jobs == map[] && assessments == map[]
    {
      this.timeout, jobs, assessments := timeout, map[], map[];
    }

    ghost predicate Holds(w: World)
      reads this
    {
      jobs == w.jobs && assessments == w.assessments
    }

    /** `enqueue_grading_job`: Err is its ValueError. */
    method Enqueue(identity: Identity, id: JobId, now: int, ghost w: World) returns (r: Result<JobId, ()>)
      requires Holds(w) && Good(w) && id !in jobs && identity.job == id && now <= w.clock
      modifies this`jobs
      ensures r.Ok? ==> r.value in jobs && jobs[r.value].identity.session == identity.session
                        && jobs[r.value].identity.source == identity.source
      ensures r.Err? <==> exists j :: j in old(jobs) && old(jobs)[j].identity.session == identity.session
                                      && old(jobs)[j].identity.source != identity.source
      ensures Holds(Step(timeout, w, Event.Enqueue(id, identity, now)))
      ensures r.Ok? && r.value !in old(jobs) ==>
                jobs[r.value].identity == identity && jobs[r.value].maxAttempts == 3 && Claimable(jobs[r.value], now)
    {
      var existing := set j | j in jobs && jobs[j].identity.session == identity.session;
      if existing != {} {
        var j :| j in existing;
        if jobs[j].identity.source != identity.source { return Err(()); }
        return Ok(j);
      }
      forall j | j in jobs ensures jobs[j].identity.session != identity.session {
        assert j !in existing;
      }
      assert !HasJob(w.jobs, identity.session);
      jobs := jobs[id := NewJob(identity, now)];
      return Ok(id);
    }

    /** The candidate query: the oldest claimable row. */
    method Candidate(now: int) returns (r: Option<JobId>)
      ensures r.None? <==> forall j :: j in jobs ==> !Claimable(jobs[j], now)
      ensures r.Some? ==> IsOldest(jobs, now, r.value)
    {
      r := None;
      var rest := jobs.Keys;
      while rest != {}
        invariant rest <= jobs.Keys
        invariant r.None? ==> forall j :: j in jobs && j !in rest ==> !Claimable(jobs[j], now)
        invariant r.Some? ==> r.value in jobs && Claimable(jobs[r.value], now)
        invariant r.Some? ==>
                    forall j :: j in jobs && j !in rest && Claimable(jobs[j], now) ==>
                      jobs[r.value].createdAt <= jobs[j].createdAt
      {
        var j :| j in rest;
        rest := rest - {j};
        if Claimable(jobs[j], now) && (r.None? || jobs[j].createdAt < jobs[r.value].createdAt) { r := Some(j); }
      }
    }

    ghost function Swept(w: World, now: int): World {
      Step(timeout, Step(timeout, w, Expire(now)), Exhaust)
    }

    /** The two housekeeping statements of a claim: expire leases, then retire exhausted rows. */
    method Sweep(now: int, ghost w: World)
      requires Holds(w) && Good(w) && now <= w.clock
      modifies this`jobs
      ensures Holds(Swept(w, now)) && Good(Swept(w, now))
      ensures Swept(w, now).claims == w.claims && Swept(w, now).clock == w.clock
    {
      StepGood(timeout, w, Expire(now));
      StepGood(timeout, Step(timeout, w, Expire(now)), Exhaust);
      jobs := ExpireRows(jobs, now);
      jobs := ExhaustRows(jobs);
    }

    /** The guarded claim of one candidate. */
    method GrantTo(id: JobId, now: int, token: Token, ghost w: World) returns (ghost w': World)
      requires Holds(w) && Good(w) && now <= w.clock && token !in w.claims && id in jobs && Claimable(jobs[id], now)
      modifies this`jobs
      ensures w' == Step(timeout, w, Grant(id, token, now))
      ensures Holds(w') && Good(w') && token in w'.claims && id in jobs && jobs[id].token == Some(token)
    {
      StepGood(timeout, w, Grant(id, token, now));
      w' := Step(timeout, w, Grant(id, token, now));
      jobs := jobs[id := GrantRow(jobs[id], token, now, timeout)];
    }

    /** `claim_next_job` up to its commit, with no other participant between its statements: the
        guarded update claims the oldest claimable row after the sweep, and None exactly when there is
        none. */
    method ClaimNext(now: int, token: Token, ghost w: World)
      returns (claimed: Option<JobId>, ghost swept: World, ghost w': World)
      requires Holds(w) && Good(w) && now <= w.clock && token !in w.claims
      modifies this`jobs
      ensures Holds(w') && Good(w') && swept == Swept(w, now)
      ensures claimed.None? <==> forall j :: j in swept.jobs ==> !Claimable(swept.jobs[j], now)
      ensures claimed.None? ==> w' == swept
      ensures claimed.Some? ==> IsOldest(swept.jobs, now, claimed.value)
      ensures claimed.Some? ==> w' == Step(timeout, swept, Grant(claimed.value, token, now))
      ensures claimed.Some? ==> claimed.value in jobs && jobs[claimed.value].token == Some(token)
    {
      Sweep(now, w);
      swept := Swept(w, now);
      w' := swept;
      claimed := Candidate(now);
      if claimed.Some? { w' := GrantTo(claimed.value, now, token, swept); }
    }

    /** The last read of `claim_next_job`: the claimed row as it is after the commit, when others may
        have acted.  It is a copy issued before for the token now on the row, or none where the row
        carries no token, and then nothing done with the row's copy passes a guard. */
    method Reread(id: JobId, ghost w: World) returns (claim: Option<Claim>)
      requires Holds(w) && Good(w) && id in jobs
      ensures claim.Some? ==> claim.value.token in w.claims && w.claims[claim.value.token] == claim.value
      ensures claim.Some? ==> claim.value.identity.job == id && jobs[id].token == Some(claim.value.token)
      ensures claim.None? ==> PassesNoGuard(jobs[id])
    {
      RereadIsIssued(w, id);
      assert RowOk(w, id);
      return if jobs[id].token.None? then None else Some(ClaimOf(jobs[id], jobs[id].token.value));
    }

    /** `finish_job`: Err where it raises (an envelope that does not verify, or no evaluation row);
        `Ok(false)` where its guarded update finds nothing and it rolls back. */
    method FinishJob(claim: Claim, envelope: Envelope, now: int, ghost w: World) returns (r: Result<bool, ()>)
      requires Holds(w) && Good(w) && now <= w.clock && claim.token in w.claims && w.claims[claim.token] == claim
      modifies this
      ensures Holds(Step(timeout, w, Finish(claim.token, envelope, now)))
      ensures r == Ok(true) <==> FinishApplies(w, claim.token, envelope, now)
      ensures Forged(envelope, claim) ==> r.Err?
      ensures r.Err? <==> Forged(envelope, claim) ||
                          (claim.identity.session !in w.assessments &&
                           FinishGuard(w.jobs[claim.identity.job], claim, now))
      ensures r != Ok(true) ==> jobs == old(jobs) && assessments == old(assessments)
    {
      assert ClaimOk(w, claim.token);
      if !Verifies(envelope, claim) { return Err(()); }
      var id, session := claim.identity.job, claim.identity.session;
      if id !in jobs || !FinishGuard(jobs[id], claim, now) { return Ok(false); }
      if session !in assessments { return Err(()); }
      jobs := jobs[id := FinishRow(jobs[id], envelope)];
      var assessment := assessments[session];
      var evidence := Without(ExternalEvaluation, assessment.packet.evidence);
      evidence := evidence + [ExternalEntry(id, envelope)];
      var packet := assessment.packet.(evidence := evidence);
      assessment := assessment.(packet := packet, packetDigest := OfPacket(packet), executed := true);
      assessments := assessments[session := assessment];
      return Ok(true);
    }

    /** `fail_job`. */
    method FailJob(claim: Claim, now: int, ghost w: World)
      requires Holds(w) && Good(w) && now <= w.clock && claim.token in w.claims && w.claims[claim.token] == claim
      modifies this`jobs
      ensures Holds(Step(timeout, w, Fail(claim.token, now)))
    {
      var id := claim.identity.job;
      if id in jobs && FailGuard(jobs[id], claim) {
        jobs := jobs[id := FailRow(jobs[id], claim, now)];
      }
    }

    /** What `process_one_grading_job` does with what `_execute` came back with.  It publishes a verified
        envelope.  An exception, an envelope that does not verify, or a missing evaluation row once the
        guard has passed is `failing`: everything is rolled back, and `FailJob` follows as a step of
        its own, on a later clock reading and whatever others do in between.  A cancelled worker leaves
        its lease to expire. */
    method Conclude(claim: Claim, execution: Execution, now: int, ghost w: World) returns (failing: bool)
      requires Holds(w) && Good(w) && now <= w.clock && claim.token in w.claims && w.claims[claim.token] == claim
      modifies this
      ensures failing <==>
              execution.Raised? ||
              (execution.Returned? &&
               (Forged(execution.envelope, claim) ||
                (claim.identity.session !in w.assessments && FinishGuard(w.jobs[claim.identity.job], claim, now))))
      ensures Holds(if execution.Returned? then Step(timeout, w, Finish(claim.token, execution.envelope, now)) else w)
      ensures failing ==> Holds(w)
    {
      assert ClaimOk(w, claim.token);
      match execution
      case Cancelled => failing := false;
      case Raised => failing := true;
      case Returned(envelope) =>
        var done := FinishJob(claim, envelope, now, w);
        failing := done.Err?;
    }
  }
}
