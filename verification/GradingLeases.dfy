/** Every interleaving of enqueues, claims, crashes, expiries, finishes, failures, defense revisions
    and the reviewers' routes over the grading tables, with one nondecreasing clock. */
module GradingLeases {
  import opened Outcomes
  import opened GradingTables

  /** `claims` holds every copy ever handed to a worker, by token.  A crashed worker is one that
      never acts on its copy again; a worker may also act late, repeatedly, or out of order.
      `superseded` are the tokens issued before the latest operator retry of their job, and
      `captures` the packets that feedback requests have read and not yet written back. */
  datatype World = World(
    jobs: Jobs,
    assessments: Assessments,
    claims: map<Token, Claim>,
    superseded: set<Token>,
    captures: map<FeedbackId, Capture>,
    clock: int)

  type FeedbackId = nat

  datatype Capture = Capture(id: JobId, session: SessionId, assessment: Assessment)

  const START: World := World(map[], map[], map[], {}, map[], 0)

  /** `now` is a clock reading taken at or before the step.  The three statements of a claim are
      separate steps, so other workers may act between them. */
  datatype Event =
    | Tick(seconds: nat)
    | Submit(session: SessionId, evidence: seq<Evidence>)
    | Enqueue(id: JobId, identity: Identity, now: int)
    | Expire(now: int)
    | Exhaust
    | Grant(id: JobId, token: Token, now: int)
    | Finish(token: Token, envelope: Envelope, now: int)
    | Fail(token: Token, now: int)
    | Defend(session: SessionId, answers: Answers)
    | OperatorRetry(id: JobId, now: int)
    | Review(id: JobId)
    | CaptureReview(feedback: FeedbackId, id: JobId)
    | SaveReview(feedback: FeedbackId)

  /** The claims of a job since its latest operator retry. */
  ghost function ClaimsOf(w: World, id: JobId): set<Token> {
    set t | t in w.claims && t !in w.superseded && w.claims[t].identity.job == id
  }

  predicate FinishApplies(w: World, token: Token, envelope: Envelope, now: int) {
    && token in w.claims
    && Verifies(envelope, w.claims[token])
    && w.claims[token].identity.job in w.jobs
    && FinishGuard(w.jobs[w.claims[token].identity.job], w.claims[token], now)
    && w.claims[token].identity.session in w.assessments
  }

  predicate FailApplies(w: World, token: Token) {
    && token in w.claims
    && w.claims[token].identity.job in w.jobs
    && FailGuard(w.jobs[w.claims[token].identity.job], w.claims[token])
  }

  /** The guarded claim. */
  function Granted(timeout: nat, w: World, id: JobId, token: Token, now: int): World {
    if now > w.clock || token in w.claims || id !in w.jobs || !Claimable(w.jobs[id], now) then w
    else
      var row := GrantRow(w.jobs[id], token, now, timeout);
      w.(jobs := w.jobs[id := row], claims := w.claims[token := ClaimOf(row, token)])
  }

  /** `finish_job`: the guarded update and the publication, in one transaction. */
  function Finished(w: World, token: Token, envelope: Envelope, now: int): World {
    if now > w.clock || !FinishApplies(w, token, envelope, now) then w
    else
      var id, session := w.claims[token].identity.job, w.claims[token].identity.session;
      w.(jobs := w.jobs[id := FinishRow(w.jobs[id], envelope)],
         assessments := w.assessments[session := Publish(w.assessments[session], id, envelope)])
  }

  /** `retry_grading`. */
  ghost function Requeued(w: World, id: JobId, now: int): World {
    if now > w.clock || id !in w.jobs || w.jobs[id].status != Failed then w
    else w.(jobs := w.jobs[id := RequeueRow(w.jobs[id], now)],
            assessments := Reopened(w.assessments, w.jobs[id].identity.session),
            superseded := w.superseded + ClaimsOf(w, id))
  }

  /** The second write of the feedback route, under no lock: the packet goes back to what it was when
      the route last read it. */
  function Saved(w: World, f: FeedbackId): World {
    if f !in w.captures then w
    else w.(assessments := w.assessments[w.captures[f].session := w.captures[f].assessment],
            captures := w.captures - {f})
  }

  ghost function Step(timeout: nat, w: World, e: Event): World {
    match e
    case Tick(seconds) => w.(clock := w.clock + seconds)
    case Submit(session, evidence) =>
      if session in w.assessments then w
      else
        var packet := Packet(session, evidence);
        w.(assessments := w.assessments[session := Assessment(packet, OfPacket(packet), false)])
    case Enqueue(id, identity, now) =>
      if now > w.clock || id in w.jobs || identity.job != id || HasJob(w.jobs, identity.session) then w
      else w.(jobs := w.jobs[id := NewJob(identity, now)])
    case Expire(now) => if now > w.clock then w else w.(jobs := ExpireRows(w.jobs, now))
    case Exhaust => w.(jobs := ExhaustRows(w.jobs))
    case Grant(id, token, now) => Granted(timeout, w, id, token, now)
    case Finish(token, envelope, now) => Finished(w, token, envelope, now)
    case Fail(token, now) =>
      if now > w.clock || !FailApplies(w, token) then w
      else
        var id := w.claims[token].identity.job;
        w.(jobs := w.jobs[id := FailRow(w.jobs[id], w.claims[token], now)])
    case Defend(session, answers) =>
      if session !in w.assessments then w
      else w.(assessments := w.assessments[session := Revise(w.assessments[session], answers)])
    case OperatorRetry(id, now) => Requeued(w, id, now)
    case Review(id) =>
      if id !in w.jobs || !Reviewable(w.jobs[id]) || w.jobs[id].identity.session !in w.assessments then w
      else
        var job := w.jobs[id];
        var assessment := Reassembled(w.assessments[job.identity.session], job.identity.source, job.result.value);
        w.(assessments := w.assessments[job.identity.session := assessment])
    case CaptureReview(f, id) =>
      if id !in w.jobs || !Reviewable(w.jobs[id]) || w.jobs[id].identity.session !in w.assessments then w
      else
        var session := w.jobs[id].identity.session;
        w.(captures := w.captures[f := Capture(id, session, w.assessments[session])])
    case SaveReview(f) => Saved(w, f)
  }

  ghost function Run(timeout: nat, w: World, events: seq<Event>): World {
    if events == [] then w else Step(timeout, Run(timeout, w, events[..|events| - 1]), events[|events| - 1])
  }

  // ---------- The invariant ----------

  /** One row: its lease fields fit its status, a token on it was issued for it at its present
      attempt, and a result is the verified envelope of that token, published in the packet. */
  ghost predicate RowOk(w: World, id: JobId)
    requires id in w.jobs
  {
    var job := w.jobs[id];
    && job.identity.job == id
    && job.attempts <= job.maxAttempts
    && |ClaimsOf(w, id)| == job.attempts
    && (job.token.Some? <==> job.status == Running || job.status == Completed)
    && (job.leaseExpires.Some? <==> job.status == Running)
    && (job.token.Some? ==>
          job.token.value in ClaimsOf(w, id) && w.claims[job.token.value] == ClaimOf(job, job.token.value))
    && (job.result.Some? <==> job.status == Completed)
    && (job.result.Some? ==>
          && Verifies(job.result.value, w.claims[job.token.value])
          && job.identity.session in w.assessments
          && Graded(w.assessments[job.identity.session], id, job.result.value))
  }

  ghost predicate ClaimOk(w: World, token: Token)
    requires token in w.claims
  {
    w.claims[token].token == token && w.claims[token].identity.job in w.jobs &&
    w.claims[token].identity == w.jobs[w.claims[token].identity.job].identity
  }

  ghost predicate TablesOk(w: World) {
    && (forall id :: id in w.jobs ==> RowOk(w, id))
    && (forall t :: t in w.claims ==> ClaimOk(w, t))
    && (forall i, j :: i in w.jobs && j in w.jobs && w.jobs[i].identity.session == w.jobs[j].identity.session ==>
          i == j)
    && (forall s :: s in w.assessments ==> w.assessments[s].packetDigest == OfPacket(w.assessments[s].packet))
    && w.superseded <= w.claims.Keys
  }

  /** A captured packet is that of a completed job, and holds its result. */
  ghost predicate CaptureOk(w: World, c: Capture) {
    && c.id in w.jobs && w.jobs[c.id].identity.session == c.session && c.session in w.assessments
    && w.jobs[c.id].status == Completed && w.jobs[c.id].result.Some?
    && Graded(c.assessment, c.id, w.jobs[c.id].result.value)
  }

  ghost predicate Good(w: World) {
    TablesOk(w) && forall f :: f in w.captures ==> CaptureOk(w, w.captures[f])
  }

  /** What a step does to one row. */
  ghost function RowAfter(timeout: nat, w: World, e: Event, id: JobId): Job
    requires id in w.jobs
  {
    var job := w.jobs[id];
    match e
    case Expire(now) => if now > w.clock then job else ExpireRow(job, now)
    case Exhaust => ExhaustRow(job)
    case Grant(i, token, now) =>
      if i != id || now > w.clock || token in w.claims || !Claimable(job, now) then job
      else GrantRow(job, token, now, timeout)
    case Finish(token, envelope, now) =>
      if now > w.clock || !FinishApplies(w, token, envelope, now) || w.claims[token].identity.job != id then job
      else FinishRow(job, envelope)
    case Fail(token, now) =>
      if now > w.clock || !FailApplies(w, token) || w.claims[token].identity.job != id then job
      else FailRow(job, w.claims[token], now)
    case OperatorRetry(i, now) =>
      if i != id || now > w.clock || job.status != Failed then job else RequeueRow(job, now)
    case _ => job
  }

  lemma StepOnRow(timeout: nat, w: World, e: Event, id: JobId)
    requires id in w.jobs
    ensures id in Step(timeout, w, e).jobs && Step(timeout, w, e).jobs[id] == RowAfter(timeout, w, e, id)
  {
  }

  lemma RowUntouched(w: World, w': World, id: JobId)
    requires id in w.jobs && RowOk(w, id) && id in w'.jobs && w'.jobs[id] == w.jobs[id]
    requires ClaimsOf(w', id) == ClaimsOf(w, id)
    requires forall t :: t in w.claims ==> t in w'.claims && w'.claims[t] == w.claims[t]
    requires w.jobs[id].result.Some? ==>
               w.jobs[id].identity.session in w'.assessments &&
                 Graded(w'.assessments[w.jobs[id].identity.session], id, w.jobs[id].result.value)
    ensures RowOk(w', id)
  {
  }

  lemma EnqueueGood(timeout: nat, w: World, id: JobId, identity: Identity, now: int)
    requires TablesOk(w)
    ensures TablesOk(Step(timeout, w, Enqueue(id, identity, now)))
  {
    var w' := Step(timeout, w, Enqueue(id, identity, now));
    if w' != w {
      forall t | t in w.claims ensures w.claims[t].identity.job != id { assert ClaimOk(w, t); }
      assert ClaimsOf(w', id) == {};
      forall j | j in w'.jobs ensures RowOk(w', j) {
        if j != id { assert ClaimsOf(w', j) == ClaimsOf(w, j); RowUntouched(w, w', j); }
      }
      forall t | t in w'.claims ensures ClaimOk(w', t) { assert ClaimOk(w, t); }
    }
  }

  /** A statement that changes rows one by one, without a new claim or a new result. */
  lemma RowsGood(w: World, w': World)
    requires TablesOk(w) && w' == w.(jobs := w'.jobs) && w'.jobs.Keys == w.jobs.Keys
    requires forall j :: j in w.jobs ==>
               var a, b := w.jobs[j], w'.jobs[j];
               || b == a
               || (&& b.identity == a.identity && b.attempts == a.attempts && b.maxAttempts == a.maxAttempts
                   && b.token.None? && b.leaseExpires.None? && b.result.None?
                   && (b.status == Queued || b.status == Failed))
    ensures TablesOk(w')
  {
    forall j | j in w'.jobs ensures RowOk(w', j) {
      assert RowOk(w, j) && ClaimsOf(w', j) == ClaimsOf(w, j);
      if w'.jobs[j] == w.jobs[j] { RowUntouched(w, w', j); }
    }
    forall t | t in w'.claims ensures ClaimOk(w', t) { assert ClaimOk(w, t); }
  }

  lemma GrantedRow(timeout: nat, w: World, id: JobId, token: Token, now: int)
    requires id in w.jobs && RowOk(w, id) && token !in w.claims && Claimable(w.jobs[id], now) && now <= w.clock
    requires w.superseded <= w.claims.Keys
    ensures RowOk(Granted(timeout, w, id, token, now), id)
  {
    var w' := Granted(timeout, w, id, token, now);
    assert ClaimsOf(w', id) == ClaimsOf(w, id) + {token};
  }

  /** What changes from w to w' besides row `id` itself concerns that row alone: its claims, its
      packet, and which of its claims are superseded. */
  ghost predicate ConcernsOnly(w: World, w': World, id: JobId)
    requires id in w.jobs
  {
    && w'.jobs.Keys == w.jobs.Keys && w'.jobs[id].identity == w.jobs[id].identity
    && (forall j :: j in w.jobs && j != id ==> w'.jobs[j] == w.jobs[j])
    && (forall t :: t in w.claims ==> t in w'.claims && w'.claims[t] == w.claims[t])
    && (forall t :: t in w'.claims && t !in w.claims ==>
          w'.claims[t].token == t && w'.claims[t].identity == w.jobs[id].identity)
    && w.superseded <= w'.superseded <= w'.claims.Keys
    && (forall t :: t in w'.superseded && t !in w.superseded ==> w'.claims[t].identity.job == id)
    && w'.assessments.Keys == w.assessments.Keys
    && (forall s :: s in w.assessments && s != w.jobs[id].identity.session ==> w'.assessments[s] == w.assessments[s])
  }

  lemma OtherRowOk(w: World, w': World, id: JobId, j: JobId)
    requires TablesOk(w) && id in w.jobs && j in w.jobs && j != id && ConcernsOnly(w, w', id)
    ensures RowOk(w', j)
  {
    assert RowOk(w, id) && RowOk(w, j);
    assert ClaimsOf(w', j) == ClaimsOf(w, j);
    RowUntouched(w, w', j);
  }

  /** A step that changes one row, and issues claims or publishes for that row alone. */
  lemma OneRowGood(w: World, w': World, id: JobId)
    requires TablesOk(w) && id in w.jobs && ConcernsOnly(w, w', id) && RowOk(w', id)
    requires forall s :: s in w'.assessments ==> w'.assessments[s].packetDigest == OfPacket(w'.assessments[s].packet)
    ensures TablesOk(w')
  {
    forall j | j in w'.jobs ensures RowOk(w', j) {
      if j != id { OtherRowOk(w, w', id, j); }
    }
    forall t | t in w'.claims ensures ClaimOk(w', t) {
      if t in w.claims { assert ClaimOk(w, t); }
    }
  }

  lemma GrantConcerns(timeout: nat, w: World, id: JobId, token: Token, now: int)
    requires id in w.jobs && token !in w.claims && w.superseded <= w.claims.Keys
    ensures ConcernsOnly(w, Granted(timeout, w, id, token, now), id)
  {
  }

  lemma GrantGood(timeout: nat, w: World, id: JobId, token: Token, now: int)
    requires TablesOk(w)
    ensures TablesOk(Granted(timeout, w, id, token, now))
  {
    if now <= w.clock && token !in w.claims && id in w.jobs && Claimable(w.jobs[id], now) {
      assert RowOk(w, id);
      GrantedRow(timeout, w, id, token, now);
      GrantConcerns(timeout, w, id, token, now);
      OneRowGood(w, Granted(timeout, w, id, token, now), id);
    }
  }

  lemma FinishedRow(w: World, token: Token, envelope: Envelope, now: int)
    requires TablesOk(w) && now <= w.clock && FinishApplies(w, token, envelope, now)
    ensures RowOk(Finished(w, token, envelope, now), w.claims[token].identity.job)
  {
    var id, session := w.claims[token].identity.job, w.claims[token].identity.session;
    var w' := Finished(w, token, envelope, now);
    assert RowOk(w, id) && ClaimOk(w, token);
    PublishGrades(w.assessments[session], id, envelope, ExternalEvaluation);
    assert ClaimsOf(w', id) == ClaimsOf(w, id);
  }

  lemma FinishConcerns(w: World, token: Token, envelope: Envelope, now: int)
    requires w.superseded <= w.claims.Keys && now <= w.clock && FinishApplies(w, token, envelope, now)
    requires ClaimOk(w, token)
    ensures ConcernsOnly(w, Finished(w, token, envelope, now), w.claims[token].identity.job)
  {
  }

  lemma FinishGood(w: World, token: Token, envelope: Envelope, now: int)
    requires TablesOk(w)
    ensures TablesOk(Finished(w, token, envelope, now))
  {
    if now <= w.clock && FinishApplies(w, token, envelope, now) {
      assert ClaimOk(w, token);
      FinishedRow(w, token, envelope, now);
      FinishConcerns(w, token, envelope, now);
      OneRowGood(w, Finished(w, token, envelope, now), w.claims[token].identity.job);
    }
  }

  /** A write of one session's packet that keeps the external entry. */
  lemma PacketGood(w: World, session: SessionId, a: Assessment)
    requires TablesOk(w) && session in w.assessments && a.packetDigest == OfPacket(a.packet)
    requires forall j ::
               (j in w.jobs && w.jobs[j].identity.session == session && w.jobs[j].result.Some? &&
                Graded(w.assessments[session], j, w.jobs[j].result.value)) ==>
                 Graded(a, j, w.jobs[j].result.value)
    ensures TablesOk(w.(assessments := w.assessments[session := a]))
  {
    var w' := w.(assessments := w.assessments[session := a]);
    forall j | j in w'.jobs ensures RowOk(w', j) {
      assert RowOk(w, j) && ClaimsOf(w', j) == ClaimsOf(w, j);
      RowUntouched(w, w', j);
    }
    forall t | t in w'.claims ensures ClaimOk(w', t) { assert ClaimOk(w, t); }
  }

  lemma DefendGood(timeout: nat, w: World, session: SessionId, answers: Answers)
    requires TablesOk(w)
    ensures TablesOk(Step(timeout, w, Defend(session, answers)))
  {
    if session in w.assessments {
      ReviseKeepsGrade(w.assessments[session], answers, ExternalEvaluation);
      PacketGood(w, session, Revise(w.assessments[session], answers));
    }
  }

  lemma ReviewGood(timeout: nat, w: World, id: JobId)
    requires TablesOk(w)
    ensures TablesOk(Step(timeout, w, Review(id)))
  {
    if id in w.jobs && Reviewable(w.jobs[id]) && w.jobs[id].identity.session in w.assessments {
      var job, a := w.jobs[id], w.assessments[w.jobs[id].identity.session];
      ReassemblyGrades(a, job.identity.source, job.result.value, ExternalEvaluation);
      PacketGood(w, job.identity.session, Reassembled(a, job.identity.source, job.result.value));
    }
  }

  /** After an operator retry the job starts over, with no claim of its own. */
  lemma RetryGood(w: World, id: JobId, now: int)
    requires TablesOk(w)
    ensures TablesOk(Requeued(w, id, now))
  {
    if now <= w.clock && id in w.jobs && w.jobs[id].status == Failed {
      RequeuedRow(w, id, now);
      RequeueConcerns(w, id, now);
      OneRowGood(w, Requeued(w, id, now), id);
    }
  }

  lemma RequeuedRow(w: World, id: JobId, now: int)
    requires TablesOk(w) && now <= w.clock && id in w.jobs && w.jobs[id].status == Failed
    ensures RowOk(Requeued(w, id, now), id)
  {
    assert RowOk(w, id) && ClaimsOf(Requeued(w, id, now), id) == {};
  }

  lemma RequeueConcerns(w: World, id: JobId, now: int)
    requires w.superseded <= w.claims.Keys && now <= w.clock && id in w.jobs && w.jobs[id].status == Failed
    ensures ConcernsOnly(w, Requeued(w, id, now), id)
  {
  }

  lemma SubmitGood(timeout: nat, w: World, session: SessionId, evidence: seq<Evidence>)
    requires TablesOk(w)
    ensures TablesOk(Step(timeout, w, Submit(session, evidence)))
  {
    var w' := Step(timeout, w, Submit(session, evidence));
    forall j | j in w'.jobs ensures RowOk(w', j) {
      assert RowOk(w, j) && ClaimsOf(w', j) == ClaimsOf(w, j);
      RowUntouched(w, w', j);
    }
    forall t | t in w'.claims ensures ClaimOk(w', t) { assert ClaimOk(w, t); }
  }

  lemma TickGood(timeout: nat, w: World, seconds: nat)
    requires TablesOk(w)
    ensures TablesOk(Step(timeout, w, Tick(seconds)))
  {
    var w' := Step(timeout, w, Tick(seconds));
    forall j | j in w'.jobs ensures RowOk(w', j) {
      assert RowOk(w, j) && ClaimsOf(w', j) == ClaimsOf(w, j);
      RowUntouched(w, w', j);
    }
    forall t | t in w'.claims ensures ClaimOk(w', t) { assert ClaimOk(w, t); }
  }

  lemma SweepGood(timeout: nat, w: World, e: Event)
    requires TablesOk(w) && (e.Expire? || e.Exhaust?)
    ensures TablesOk(Step(timeout, w, e))
  {
    forall j | j in w.jobs ensures RowOk(w, j) {}
    if Step(timeout, w, e) != w { RowsGood(w, Step(timeout, w, e)); }
  }

  lemma FailGood(timeout: nat, w: World, token: Token, now: int)
    requires TablesOk(w)
    ensures TablesOk(Step(timeout, w, Fail(token, now)))
  {
    if now <= w.clock && FailApplies(w, token) {
      assert RowOk(w, w.claims[token].identity.job);
      RowsGood(w, Step(timeout, w, Fail(token, now)));
    }
  }

  /** Writing a captured packet back keeps the rows' results published: a result once written is the
      result of every later world. */
  lemma SaveGood(w: World, f: FeedbackId)
    requires TablesOk(w) && f in w.captures && CaptureOk(w, w.captures[f])
    ensures TablesOk(Saved(w, f))
  {
    var c := w.captures[f];
    forall j | j in w.jobs && w.jobs[j].identity.session == c.session ensures j == c.id {}
    PacketGood(w, c.session, c.assessment);
    CapturesAside(w.(assessments := w.assessments[c.session := c.assessment]), w.captures - {f});
  }

  lemma CapturesAside(w: World, captures: map<FeedbackId, Capture>)
    requires TablesOk(w)
    ensures TablesOk(w.(captures := captures))
  {
    var w' := w.(captures := captures);
    forall j | j in w'.jobs ensures RowOk(w', j) {
      assert RowOk(w, j) && ClaimsOf(w', j) == ClaimsOf(w, j);
      RowUntouched(w, w', j);
    }
    forall t | t in w'.claims ensures ClaimOk(w', t) { assert ClaimOk(w, t); }
  }

  lemma CompletedRowStays(timeout: nat, w: World, e: Event, id: JobId)
    requires id in w.jobs && w.jobs[id].status == Completed
    ensures RowAfter(timeout, w, e, id) == w.jobs[id]
  {
  }

  lemma CaptureStays(timeout: nat, w: World, e: Event, c: Capture)
    requires CaptureOk(w, c)
    ensures CaptureOk(Step(timeout, w, e), c)
  {
    StepOnRow(timeout, w, e, c.id);
    CompletedRowStays(timeout, w, e, c.id);
    SessionsStay(timeout, w, e, c.session);
  }

  lemma SessionsStay(timeout: nat, w: World, e: Event, session: SessionId)
    requires session in w.assessments
    ensures session in Step(timeout, w, e).assessments
  {
  }

  lemma NewCapture(timeout: nat, w: World, f: FeedbackId, id: JobId)
    requires TablesOk(w)
    ensures var w' := Step(timeout, w, CaptureReview(f, id));
            w' == w || (f in w'.captures && CaptureOk(w', w'.captures[f]))
  {
    if id in w.jobs { assert RowOk(w, id); }
  }

  lemma OtherCaptures(timeout: nat, w: World, e: Event, f: FeedbackId)
    requires f in Step(timeout, w, e).captures && !(e.CaptureReview? && e.feedback == f)
    ensures f in w.captures && Step(timeout, w, e).captures[f] == w.captures[f]
  {
  }

  lemma CapturesGood(timeout: nat, w: World, e: Event)
    requires Good(w)
    ensures var w' := Step(timeout, w, e); forall f :: f in w'.captures ==> CaptureOk(w', w'.captures[f])
  {
    var w' := Step(timeout, w, e);
    forall f | f in w'.captures ensures CaptureOk(w', w'.captures[f]) {
      if e.CaptureReview? && e.feedback == f && w' != w {
        NewCapture(timeout, w, f, e.id);
      } else if w' != w {
        OtherCaptures(timeout, w, e, f);
        CaptureStays(timeout, w, e, w.captures[f]);
      }
    }
  }

  /** Every step of every participant keeps the invariant. */
  lemma StepGood(timeout: nat, w: World, e: Event)
    requires Good(w)
    ensures Good(Step(timeout, w, e))
  {
    CapturesGood(timeout, w, e);
    TablesGood(timeout, w, e);
  }

  lemma TablesGood(timeout: nat, w: World, e: Event)
    requires Good(w)
    ensures TablesOk(Step(timeout, w, e))
  {
    match e
    case Tick(seconds) => TickGood(timeout, w, seconds);
    case Submit(session, evidence) => SubmitGood(timeout, w, session, evidence);
    case Enqueue(id, identity, now) => EnqueueGood(timeout, w, id, identity, now);
    case Expire(_) => SweepGood(timeout, w, e);
    case Exhaust => SweepGood(timeout, w, e);
    case Grant(id, token, now) => GrantGood(timeout, w, id, token, now);
    case Finish(token, envelope, now) => FinishGood(w, token, envelope, now);
    case Fail(token, now) => FailGood(timeout, w, token, now);
    case Defend(session, answers) => DefendGood(timeout, w, session, answers);
    case OperatorRetry(id, now) => RetryGood(w, id, now);
    case Review(id) => ReviewGood(timeout, w, id);
    case CaptureReview(_, _) => CapturesAside(w, Step(timeout, w, e).captures);
    case SaveReview(f) => if f in w.captures { SaveGood(w, f); }
  }

  lemma {:induction false} RunGood(timeout: nat, w: World, events: seq<Event>)
    requires Good(w)
    ensures Good(Run(timeout, w, events))
  {
    if events == [] {
    } else {
      RunGood(timeout, w, events[..|events| - 1]);
      StepGood(timeout, Run(timeout, w, events[..|events| - 1]), events[|events| - 1]);
    }
  }

  /** In every reachable world a job has been claimed exactly `attempts` times since its latest
      operator retry, at most `max_attempts` times, and a stored result is a genuine envelope for the job
      and its own token, in a packet with exactly one external entry, for that result, and a matching
      digest. */
  lemma {:induction false} Reachable(timeout: nat, events: seq<Event>, id: JobId)
    requires id in Run(timeout, START, events).jobs
    ensures var w := Run(timeout, START, events);
            var job := w.jobs[id];
            && |ClaimsOf(w, id)| == job.attempts <= job.maxAttempts
            && (job.result.Some? ==>
                  && job.result.value.genuine
                  && job.token.Some? && job.result.value.payload.token == job.token.value
                  && job.result.value.payload.identity == job.identity
                  && job.identity.session in w.assessments
                  && Graded(w.assessments[job.identity.session], id, job.result.value))
  {
    RunGood(timeout, START, events);
    assert RowOk(Run(timeout, START, events), id);
  }

  // ---------- Fencing ----------

  /** A request of the operator to run a job again; it has an effect on a failed job only. */
  predicate Requeues(e: Event, id: JobId) {
    e.OperatorRetry? && e.id == id
  }

  /** Nobody touches a completed row, and only an operator retry a failed one. */
  lemma TerminalStays(timeout: nat, w: World, e: Event, id: JobId)
    requires Good(w) && id in w.jobs
    requires w.jobs[id].status == Completed || (w.jobs[id].status == Failed && !Requeues(e, id))
    ensures id in Step(timeout, w, e).jobs && Step(timeout, w, e).jobs[id] == w.jobs[id]
  {
    StepOnRow(timeout, w, e, id);
  }

  /** A result, once written, is the result of every later world, so it is written at most once; a
      failed row stays failed as long as no operator asks for it again. */
  lemma {:induction false} ResultIsForever(timeout: nat, w: World, events: seq<Event>, id: JobId)
    requires Good(w) && id in w.jobs
    requires w.jobs[id].status == Completed ||
             (w.jobs[id].status == Failed && forall k :: 0 <= k < |events| ==> !Requeues(events[k], id))
    ensures id in Run(timeout, w, events).jobs && Run(timeout, w, events).jobs[id] == w.jobs[id]
  {
    if events == [] {
    } else {
      var front := events[..|events| - 1];
      ResultIsForever(timeout, w, front, id);
      RunGood(timeout, w, front);
      TerminalStays(timeout, Run(timeout, w, front), events[|events| - 1], id);
    }
  }

  lemma OnlyFinishWrites(timeout: nat, w: World, e: Event, id: JobId)
    requires id in w.jobs && w.jobs[id].result.None? && !e.Finish?
    ensures id in Step(timeout, w, e).jobs && Step(timeout, w, e).jobs[id].result.None?
  {
    StepOnRow(timeout, w, e, id);
  }

  /** A claimant that reads its row again after the claim's commit, whatever happened in between, gets
      a copy issued before for the token now on the row, or one without a token, on a row that no
      guard of a worker passes. */
  lemma RereadIsIssued(w: World, id: JobId)
    requires Good(w) && id in w.jobs
    ensures w.jobs[id].token.Some? ==>
              w.jobs[id].token.value in w.claims &&
                w.claims[w.jobs[id].token.value] == ClaimOf(w.jobs[id], w.jobs[id].token.value)
    ensures w.jobs[id].token.None? ==> PassesNoGuard(w.jobs[id])
  {
    assert RowOk(w, id);
    if w.jobs[id].token.None? { NoTokenNoGuard(w.jobs[id]); }
  }

  lemma NoTokenNoGuard(job: Job)
    requires job.token.None?
    ensures PassesNoGuard(job)
  {
  }

  ghost predicate PassesNoGuard(job: Job) {
    forall claim, now :: !FinishGuard(job, claim, now) && !FailGuard(job, claim)
  }

  lemma FinishWrites(timeout: nat, w: World, token: Token, envelope: Envelope, now: int, id: JobId)
    requires Good(w) && id in w.jobs && w.jobs[id].result.None?
    requires Step(timeout, w, Finish(token, envelope, now)).jobs[id].result.Some?
    ensures FinishApplies(w, token, envelope, now) && w.claims[token].identity.job == id
    ensures w.jobs[id].token == Some(token) && w.jobs[id].leaseExpires.Some? && now < w.jobs[id].leaseExpires.value
    ensures Step(timeout, w, Finish(token, envelope, now)).jobs[id].result == Some(envelope)
  {
  }

  /** Who wrote it: the step that stores a result is a finish by the holder of the row's current
      token, on a clock reading before the lease expires, and the same step publishes it. */
  lemma OnlyTheHolderWrites(timeout: nat, w: World, e: Event, id: JobId)
    requires Good(w) && id in w.jobs && w.jobs[id].result.None?
    requires id in Step(timeout, w, e).jobs && Step(timeout, w, e).jobs[id].result.Some?
    ensures e.Finish? && w.jobs[id].token == Some(e.token)
    ensures w.jobs[id].leaseExpires.Some? && e.now < w.jobs[id].leaseExpires.value
    ensures var w' := Step(timeout, w, e);
            && w'.jobs[id].result == Some(e.envelope) && e.envelope.genuine
            && e.envelope.payload.token == e.token && e.envelope.payload.identity == w.jobs[id].identity
            && w'.jobs[id].identity.session in w'.assessments
            && Graded(w'.assessments[w'.jobs[id].identity.session], id, e.envelope)
  {
    if !e.Finish? {
      OnlyFinishWrites(timeout, w, e, id);
    } else {
      FinishWrites(timeout, w, e.token, e.envelope, e.now, id);
      FinishedRow(w, e.token, e.envelope, e.now);
    }
  }

  /** A worker whose token is no longer on the row changes nothing at all. */
  lemma SupersededChangesNothing(timeout: nat, w: World, token: Token, envelope: Envelope, now: int)
    requires Good(w) && token in w.claims
    requires w.jobs[w.claims[token].identity.job].token != Some(token)
    ensures Step(timeout, w, Finish(token, envelope, now)) == w
    ensures Step(timeout, w, Fail(token, now)) == w
  {
    assert ClaimOk(w, token);
  }

  /** Nor does the holder once the lease has expired on its clock. */
  lemma ExpiredHolderCannotPublish(timeout: nat, w: World, token: Token, envelope: Envelope, now: int)
    requires Good(w) && token in w.claims
    requires var job := w.jobs[w.claims[token].identity.job]; job.leaseExpires.Some? && job.leaseExpires.value <= now
    ensures Step(timeout, w, Finish(token, envelope, now)) == w
  {
    assert ClaimOk(w, token);
  }

  /** Whenever `fail_job`'s token guard passes, its copy of `attempts` is the row's, so it gives up
      exactly when the row has used all its attempts. */
  lemma FailDecisionAgrees(timeout: nat, w: World, token: Token, now: int)
    requires Good(w) && now <= w.clock && FailApplies(w, token)
    ensures var id := w.claims[token].identity.job;
            && w.claims[token].attempts == w.jobs[id].attempts && w.claims[token].maxAttempts == w.jobs[id].maxAttempts
            && Step(timeout, w, Fail(token, now)).jobs[id].status ==
               (if w.jobs[id].attempts >= w.jobs[id].maxAttempts then Failed else Queued)
  {
    assert RowOk(w, w.claims[token].identity.job);
  }

  // ---------- Progress ----------

  /** What a row can still go through: two transitions for each unused attempt. */
  function Remaining(job: Job): nat
    requires job.attempts <= job.maxAttempts
  {
    match job.status
    case Queued => 2 * (job.maxAttempts - job.attempts) + 1
    case Running => 2 * (job.maxAttempts - job.attempts) + 2
    case _ => 0
  }

  /** The measure strictly decreases with every change of a row, short of an operator retry, which
      takes a row with nothing left to the start. */
  lemma EveryChangeUsesUp(timeout: nat, w: World, e: Event, id: JobId)
    requires Good(w) && id in w.jobs
    ensures var w' := Step(timeout, w, e); id in w'.jobs && w'.jobs[id].attempts <= w'.jobs[id].maxAttempts
    ensures var row, row' := w.jobs[id], Step(timeout, w, e).jobs[id];
            row' != row ==>
              if Requeues(e, id) then Remaining(row) == 0 && Remaining(row') == 2 * MAX_ATTEMPTS + 1
              else Remaining(row') < Remaining(row)
  {
    assert RowOk(w, id);
    StepOnRow(timeout, w, e, id);
  }

  /** How often a run changes a row. */
  ghost function Changes(timeout: nat, w: World, events: seq<Event>, id: JobId): nat {
    if events == [] then 0
    else
      var front := events[..|events| - 1];
      Changes(timeout, w, front, id) + OneIf(ChangesRow(timeout, Run(timeout, w, front), events[|events| - 1], id))
  }

  ghost predicate ChangesRow(timeout: nat, w: World, e: Event, id: JobId) {
    id in w.jobs && id in Step(timeout, w, e).jobs && Step(timeout, w, e).jobs[id] != w.jobs[id]
  }

  lemma {:induction false} RunKeepsJob(timeout: nat, w: World, events: seq<Event>, id: JobId)
    requires id in w.jobs && Good(w)
    ensures id in Run(timeout, w, events).jobs
  {
    if events == [] {
    } else {
      var front := events[..|events| - 1];
      RunKeepsJob(timeout, w, front, id);
      RunGood(timeout, w, front);
      EveryChangeUsesUp(timeout, Run(timeout, w, front), events[|events| - 1], id);
    }
  }

  function RetriesIn(events: seq<Event>, id: JobId): nat {
    if events == [] then 0
    else RetriesIn(events[..|events| - 1], id) + OneIf(Requeues(events[|events| - 1], id))
  }

  /** `Remaining` of a row that may be missing. */
  ghost function Left(w: World, id: JobId): nat {
    if id in w.jobs && w.jobs[id].attempts <= w.jobs[id].maxAttempts then Remaining(w.jobs[id]) else 0
  }

  function OneIf(b: bool): nat { if b then 1 else 0 }

  lemma StepLeft(timeout: nat, w: World, e: Event, id: JobId)
    requires Good(w) && id in w.jobs
    ensures OneIf(ChangesRow(timeout, w, e, id)) + Left(Step(timeout, w, e), id) <=
            Left(w, id) + 8 * OneIf(Requeues(e, id))
  {
    assert RowOk(w, id);
    EveryChangeUsesUp(timeout, w, e, id);
  }

  lemma LaterStepLeft(timeout: nat, w: World, events: seq<Event>, e: Event, id: JobId)
    requires Good(w) && id in w.jobs
    ensures var later := Run(timeout, w, events);
            OneIf(ChangesRow(timeout, later, e, id)) + Left(Step(timeout, later, e), id) <=
            Left(later, id) + 8 * OneIf(Requeues(e, id))
  {
    RunGood(timeout, w, events);
    RunKeepsJob(timeout, w, events, id);
    StepLeft(timeout, Run(timeout, w, events), e, id);
  }

  lemma LeftBound(w: World, id: JobId)
    requires Good(w) && id in w.jobs
    ensures Left(w, id) <= 2 * w.jobs[id].maxAttempts + 2
  {
    assert RowOk(w, id);
  }

  /** However long the run, a row changes at most 2 * max_attempts + 2 times, and at most 8 times more
      for each operator retry. */
  lemma {:induction false} BoundedTransitions(timeout: nat, w: World, events: seq<Event>, id: JobId)
    requires id in w.jobs && Good(w)
    ensures Changes(timeout, w, events, id) <= 2 * w.jobs[id].maxAttempts + 2 + 8 * RetriesIn(events, id)
  {
    ChangesUseUp(timeout, w, events, id);
    LeftBound(w, id);
  }

  lemma {:induction false} ChangesUseUp(timeout: nat, w: World, events: seq<Event>, id: JobId)
    requires id in w.jobs && Good(w)
    ensures Changes(timeout, w, events, id) + Left(Run(timeout, w, events), id) <=
            Left(w, id) + 8 * RetriesIn(events, id)
  {
    if events == [] {
    } else {
      var front, last := events[..|events| - 1], events[|events| - 1];
      ChangesUseUp(timeout, w, front, id);
      LaterStepLeft(timeout, w, front, last, id);
    }
  }

  /** All claims of a job, those before an operator retry included. */
  ghost function AllClaimsOf(w: World, id: JobId): set<Token> {
    set t | t in w.claims && w.claims[t].identity.job == id
  }

  /** A grant of row `id` that goes through. */
  ghost predicate Grants(w: World, e: Event, id: JobId)
    requires id in w.jobs
  {
    e.Grant? && e.id == id && e.now <= w.clock && e.token !in w.claims && Claimable(w.jobs[id], e.now)
  }

  lemma GrantIssues(timeout: nat, w: World, id: JobId, token: Token, now: int)
    requires id in w.jobs && RowOk(w, id) && Grants(w, Grant(id, token, now), id)
    ensures |AllClaimsOf(Granted(timeout, w, id, token, now), id)| == |AllClaimsOf(w, id)| + 1
  {
    assert AllClaimsOf(Granted(timeout, w, id, token, now), id) == AllClaimsOf(w, id) + {token};
  }

  lemma OtherGrant(timeout: nat, w: World, other: JobId, token: Token, now: int, id: JobId)
    requires TablesOk(w) && id in w.jobs && !Grants(w, Grant(other, token, now), id)
    ensures AllClaimsOf(Granted(timeout, w, other, token, now), id) == AllClaimsOf(w, id)
  {
    if other in w.jobs { assert RowOk(w, other); }
  }

  lemma OnlyGrantsIssue(timeout: nat, w: World, e: Event)
    requires !e.Grant?
    ensures Step(timeout, w, e).claims == w.claims
  {
  }

  lemma StepIssues(timeout: nat, w: World, e: Event, id: JobId)
    requires Good(w) && id in w.jobs && !Grants(w, e, id)
    ensures AllClaimsOf(Step(timeout, w, e), id) == AllClaimsOf(w, id)
  {
    if e.Grant? { OtherGrant(timeout, w, e.id, e.token, e.now, id); } else { OnlyGrantsIssue(timeout, w, e); }
  }

  lemma CountedClaims(timeout: nat, w: World, e: Event, id: JobId)
    requires Good(w) && id in w.jobs
    ensures |AllClaimsOf(Step(timeout, w, e), id)| == |AllClaimsOf(w, id)| + OneIf(Grants(w, e, id))
  {
    assert RowOk(w, id);
    if Grants(w, e, id) { GrantIssues(timeout, w, id, e.token, e.now); } else { StepIssues(timeout, w, e, id); }
  }

  /** The claims a job has had, and those it has left. */
  ghost function ClaimsInAll(w: World, id: JobId): int
    requires id in w.jobs
  {
    |AllClaimsOf(w, id)| + w.jobs[id].maxAttempts - w.jobs[id].attempts
  }

  lemma StepClaims(timeout: nat, w: World, e: Event, id: JobId)
    requires Good(w) && id in w.jobs
    ensures id in Step(timeout, w, e).jobs
    ensures ClaimsInAll(Step(timeout, w, e), id) <= ClaimsInAll(w, id) + if Requeues(e, id) then MAX_ATTEMPTS else 0
  {
    assert RowOk(w, id);
    StepOnRow(timeout, w, e, id);
    CountedClaims(timeout, w, e, id);
  }

  lemma EnqueuedClaims(timeout: nat, w: World, e: Event, id: JobId)
    requires Good(w) && id !in w.jobs && id in Step(timeout, w, e).jobs
    ensures var w' := Step(timeout, w, e);
            AllClaimsOf(w', id) == {} && w'.jobs[id].maxAttempts == MAX_ATTEMPTS && w'.jobs[id].attempts == 0
  {
    assert e.Enqueue?;
    forall t | t in w.claims ensures w.claims[t].identity.job != id { assert ClaimOk(w, t); }
  }

  /** Over any run a job is claimed at most three times, and three times more for each operator retry. */
  lemma {:induction false} ClaimsAreBounded(timeout: nat, events: seq<Event>, id: JobId)
    requires id in Run(timeout, START, events).jobs
    ensures var w := Run(timeout, START, events);
            && w.jobs[id].attempts <= w.jobs[id].maxAttempts
            && |AllClaimsOf(w, id)| <= ClaimsInAll(w, id) <= 3 * (1 + RetriesIn(events, id))
  {
    RunGood(timeout, START, events);
    assert RowOk(Run(timeout, START, events), id);
    var front := events[..|events| - 1];
    RunGood(timeout, START, front);
    var w, last := Run(timeout, START, front), events[|events| - 1];
    if id in w.jobs {
      ClaimsAreBounded(timeout, front, id);
      StepClaims(timeout, w, last, id);
    } else {
      EnqueuedClaims(timeout, w, last, id);
    }
  }

  /** A crashed worker's job is not lost: once its lease has expired, the sweep of any later claim
      makes it claimable at once if it has attempts left, and retires it otherwise. */
  lemma CrashIsRecovered(timeout: nat, w: World, id: JobId, now: int)
    requires Good(w) && now <= w.clock && id in w.jobs && w.jobs[id].status == Running &&
             w.jobs[id].leaseExpires.value <= now
    ensures RowOk(w, id)
    ensures var row := Step(timeout, Step(timeout, w, Expire(now)), Exhaust).jobs[id];
            && (if w.jobs[id].attempts < w.jobs[id].maxAttempts then Claimable(row, now) else row.status == Failed)
            && row.token.None? && row.attempts == w.jobs[id].attempts && row.availableAt == now
  {
    assert RowOk(w, id);
  }

  /** An operator retry goes through exactly for a failed job; it makes the job claimable at once, with
      three attempts and no claim of its own, and marks its packet as not executed. */
  lemma OperatorRetryStartsOver(timeout: nat, w: World, id: JobId, now: int)
    requires Good(w) && id in w.jobs && now <= w.clock
    ensures var w' := Step(timeout, w, OperatorRetry(id, now));
            var row, session := w'.jobs[id], w.jobs[id].identity.session;
            && (w' != w ==> w.jobs[id].status == Failed)
            && (w.jobs[id].status == Failed ==>
                  && Claimable(row, now) && row.availableAt == now && row.attempts == 0 && row.maxAttempts == 3
                  && ClaimsOf(w', id) == {} && w'.claims == w.claims && row.identity == w.jobs[id].identity
                  && (session in w.assessments ==>
                        w'.assessments[session] == w.assessments[session].(executed := false))
                  && forall s :: s in w.assessments && s != session ==> w'.assessments[s] == w.assessments[s])
  {
    assert RowOk(w, id);
    var w' := Step(timeout, w, OperatorRetry(id, now));
    if w.jobs[id].status == Failed { assert ClaimsOf(w', id) == {}; }
  }

  // ---------- The reviewers' routes, and the mark of an execution ----------

  /** A review goes through exactly for a completed job, and installs its stored result as the one external
      entry; for any other job it changes nothing. */
  lemma ReviewNeedsResult(timeout: nat, w: World, id: JobId)
    requires Good(w) && id in w.jobs
    ensures var w', session := Step(timeout, w, Review(id)), w.jobs[id].identity.session;
            if w.jobs[id].status != Completed then w' == w
            else
              && w.jobs[id].result.Some? && session in w'.assessments
              && Only(ExternalEvaluation, w'.assessments[session].packet.evidence) ==
                 [Evidence(Trusted, ExternalEvaluation, OfResult(w.jobs[id].result.value))]
  {
    assert RowOk(w, id);
    var session := w.jobs[id].identity.session;
    if w.jobs[id].status == Completed {
      ReassemblyGrades(w.assessments[session], w.jobs[id].identity.source, w.jobs[id].result.value, ExternalEvaluation);
    }
  }

  predicate Touches(e: Event, f: FeedbackId) {
    (e.CaptureReview? || e.SaveReview?) && e.feedback == f
  }

  lemma StepKeepsCapture(timeout: nat, w: World, e: Event, f: FeedbackId)
    requires f in w.captures && !Touches(e, f)
    ensures f in Step(timeout, w, e).captures && Step(timeout, w, e).captures[f] == w.captures[f]
  {
  }

  /** Others' steps leave a captured packet alone. */
  lemma {:induction false} CaptureIsKept(timeout: nat, w: World, events: seq<Event>, f: FeedbackId)
    requires f in w.captures && forall k :: 0 <= k < |events| ==> !Touches(events[k], f)
    ensures f in Run(timeout, w, events).captures && Run(timeout, w, events).captures[f] == w.captures[f]
  {
    if events == [] {
    } else {
      var front := events[..|events| - 1];
      CaptureIsKept(timeout, w, front, f);
      StepKeepsCapture(timeout, Run(timeout, w, front), events[|events| - 1], f);
    }
  }

  lemma CaptureTakes(timeout: nat, w: World, f: FeedbackId, id: JobId)
    requires Good(w) && id in w.jobs && w.jobs[id].status == Completed
    ensures var session, w' := w.jobs[id].identity.session, Step(timeout, w, CaptureReview(f, id));
            session in w.assessments && f in w'.captures &&
              w'.captures[f] == Capture(id, session, w.assessments[session])
  {
    assert RowOk(w, id);
  }

  /** What the feedback route's second write does: whatever was written to the packet since the route last
      read it is lost, and nothing else changes. */
  lemma {:induction false} SaveRestores(timeout: nat, w: World, f: FeedbackId, id: JobId, captured: World,
                                        events: seq<Event>)
    requires Good(w) && id in w.jobs && w.jobs[id].status == Completed
    requires captured == Step(timeout, w, CaptureReview(f, id))
    requires forall k :: 0 <= k < |events| ==> !Touches(events[k], f)
    ensures var session, later := w.jobs[id].identity.session, Run(timeout, captured, events);
            session in w.assessments &&
              Saved(later, f) == later.(assessments := later.assessments[session := w.assessments[session]],
                                        captures := later.captures - {f})
  {
    CaptureTakes(timeout, w, f, id);
    CaptureIsKept(timeout, captured, events, f);
  }

  ghost predicate HasResult(w: World, session: SessionId) {
    exists j :: j in w.jobs && w.jobs[j].identity.session == session && w.jobs[j].status == Completed
  }

  /** A packet is marked as executed exactly if its session's job is completed; so is every captured one. */
  ghost predicate MarksOk(w: World) {
    && (forall s :: s in w.assessments ==> (w.assessments[s].executed <==> HasResult(w, s)))
    && (forall f :: f in w.captures ==> w.captures[f].assessment.executed)
  }

  lemma CompletedBy(timeout: nat, w: World, e: Event, id: JobId)
    requires Good(w) && id in w.jobs
    ensures var w' := Step(timeout, w, e);
            && id in w'.jobs && w'.jobs[id].identity == w.jobs[id].identity
            && (w'.jobs[id].status == Completed <==>
                  w.jobs[id].status == Completed ||
                  (e.Finish? && e.now <= w.clock && FinishApplies(w, e.token, e.envelope, e.now) &&
                   w.claims[e.token].identity.job == id))
  {
    StepOnRow(timeout, w, e, id);
  }

  lemma NewJobsAreOpen(timeout: nat, w: World, e: Event, id: JobId)
    requires id in Step(timeout, w, e).jobs && id !in w.jobs
    ensures Step(timeout, w, e).jobs[id].status == Queued
  {
  }

  lemma ResultsBy(timeout: nat, w: World, e: Event, session: SessionId)
    requires Good(w)
    ensures HasResult(Step(timeout, w, e), session) <==>
            HasResult(w, session) ||
            (e.Finish? && e.now <= w.clock && FinishApplies(w, e.token, e.envelope, e.now) &&
             w.claims[e.token].identity.session == session)
  {
    var w' := Step(timeout, w, e);
    forall j | j in w'.jobs ensures j !in w.jobs ==> w'.jobs[j].status == Queued {
      if j !in w.jobs { NewJobsAreOpen(timeout, w, e, j); } else { CompletedBy(timeout, w, e, j); }
    }
    if e.Finish? && e.token in w.claims { assert ClaimOk(w, e.token); }
    if j :| j in w.jobs && w.jobs[j].identity.session == session && w.jobs[j].status == Completed {
      CompletedBy(timeout, w, e, j);
    }
    if e.Finish? && e.now <= w.clock && FinishApplies(w, e.token, e.envelope, e.now) {
      CompletedBy(timeout, w, e, w.claims[e.token].identity.job);
    }
    if j :| j in w'.jobs && w'.jobs[j].identity.session == session && w'.jobs[j].status == Completed {
      CompletedBy(timeout, w, e, j);
    }
  }

  lemma OtherMarks(timeout: nat, w: World, e: Event, session: SessionId)
    requires !e.Submit? && !e.Finish? && !e.OperatorRetry? && !e.SaveReview?
    requires session in Step(timeout, w, e).assessments
    ensures session in w.assessments
    ensures Step(timeout, w, e).assessments[session].executed == w.assessments[session].executed
  {
  }

  lemma FinishMarks(w: World, token: Token, envelope: Envelope, now: int, session: SessionId)
    requires session in Finished(w, token, envelope, now).assessments
    ensures session in w.assessments
    ensures Finished(w, token, envelope, now).assessments[session].executed <==>
            w.assessments[session].executed ||
            (now <= w.clock && FinishApplies(w, token, envelope, now) && w.claims[token].identity.session == session)
  {
  }

  lemma RetryMarks(w: World, id: JobId, now: int, session: SessionId)
    requires session in Requeued(w, id, now).assessments
    ensures session in w.assessments
    ensures Requeued(w, id, now).assessments[session].executed <==>
            w.assessments[session].executed &&
            !(now <= w.clock && id in w.jobs && w.jobs[id].status == Failed && w.jobs[id].identity.session == session)
  {
  }

  lemma SaveMarks(w: World, f: FeedbackId, session: SessionId)
    requires Good(w) && MarksOk(w) && session in Saved(w, f).assessments
    ensures session in w.assessments
    ensures Saved(w, f).assessments[session].executed == w.assessments[session].executed
  {
    if f in w.captures { assert CaptureOk(w, w.captures[f]); }
  }

  lemma SubmitMarks(timeout: nat, w: World, s: SessionId, evidence: seq<Evidence>, session: SessionId)
    requires Good(w) && session in Step(timeout, w, Submit(s, evidence)).assessments
    ensures if session in w.assessments
            then Step(timeout, w, Submit(s, evidence)).assessments[session] == w.assessments[session]
            else !Step(timeout, w, Submit(s, evidence)).assessments[session].executed && !HasResult(w, session)
  {
    if session !in w.assessments { NoResultYet(w, session); }
  }

  lemma MarkBy(timeout: nat, w: World, e: Event, session: SessionId)
    requires Good(w) && MarksOk(w) && session in Step(timeout, w, e).assessments
    ensures Step(timeout, w, e).assessments[session].executed <==> HasResult(Step(timeout, w, e), session)
  {
    ResultsBy(timeout, w, e, session);
    match e
    case Submit(s, evidence) => SubmitMarks(timeout, w, s, evidence, session);
    case Finish(token, envelope, now) => FinishMarks(w, token, envelope, now, session);
    case OperatorRetry(id, now) =>
      RetryMarks(w, id, now, session);
      if id in w.jobs && w.jobs[id].status == Failed { RetriedHasNoResult(w, id); }
    case SaveReview(f) => SaveMarks(w, f, session);
    case _ => OtherMarks(timeout, w, e, session);
  }

  lemma NoResultYet(w: World, session: SessionId)
    requires Good(w) && session !in w.assessments
    ensures !HasResult(w, session)
  {
    forall j | j in w.jobs && w.jobs[j].status == Completed ensures w.jobs[j].identity.session != session {
      assert RowOk(w, j);
    }
  }

  lemma RetriedHasNoResult(w: World, id: JobId)
    requires Good(w) && id in w.jobs && w.jobs[id].status != Completed
    ensures !HasResult(w, w.jobs[id].identity.session)
  {
  }

  lemma StepMarks(timeout: nat, w: World, e: Event)
    requires Good(w) && MarksOk(w)
    ensures MarksOk(Step(timeout, w, e))
  {
    var w' := Step(timeout, w, e);
    forall s | s in w'.assessments ensures w'.assessments[s].executed <==> HasResult(w', s) {
      MarkBy(timeout, w, e, s);
    }
    forall f | f in w'.captures ensures w'.captures[f].assessment.executed {
      if e.CaptureReview? && e.feedback == f && w' != w {
        assert w.jobs[e.id].status == Completed && HasResult(w, w.jobs[e.id].identity.session);
      } else if w' != w {
        OtherCaptures(timeout, w, e, f);
      }
    }
  }

  /** In every reachable world a session's packet is marked as executed exactly if its job is completed,
      whatever the feedback route wrote back. */
  lemma {:induction false} ExecutedIffCompleted(timeout: nat, events: seq<Event>)
    ensures MarksOk(Run(timeout, START, events))
  {
    if events == [] {
    } else {
      var front := events[..|events| - 1];
      ExecutedIffCompleted(timeout, front);
      RunGood(timeout, START, front);
      StepMarks(timeout, Run(timeout, START, front), events[|events| - 1]);
    }
  }

  // ---------- A prompt worker is never fenced out ----------

  ghost predicate ActsOn(e: Event, token: Token) {
    (e.Finish? && e.token == token) || (e.Fail? && e.token == token)
  }

  ghost predicate Holds(w: World, id: JobId, token: Token, expires: int) {
    && id in w.jobs && w.jobs[id].status == Running && w.jobs[id].token == Some(token) &&
       w.jobs[id].leaseExpires == Some(expires)
    && token in w.claims
  }

  lemma OthersActElsewhere(timeout: nat, w: World, e: Event, id: JobId, token: Token, expires: int)
    requires Good(w) && Holds(w, id, token, expires) && !ActsOn(e, token) && (e.Finish? || e.Fail?)
    ensures Holds(Step(timeout, w, e), id, token, expires)
  {
    assert RowOk(w, id);
    if e.token in w.claims { assert ClaimOk(w, e.token); }
  }

  lemma StepKeepsClaims(timeout: nat, w: World, e: Event, token: Token)
    requires token in w.claims
    ensures token in Step(timeout, w, e).claims && Step(timeout, w, e).claims[token] == w.claims[token]
    ensures w.assessments.Keys <= Step(timeout, w, e).assessments.Keys
    ensures w.clock <= Step(timeout, w, e).clock
  {
  }

  lemma LeaseStep(timeout: nat, w: World, e: Event, id: JobId, token: Token, expires: int)
    requires Good(w) && Holds(w, id, token, expires) && !ActsOn(e, token) && w.clock < expires
    ensures Holds(Step(timeout, w, e), id, token, expires)
  {
    StepOnRow(timeout, w, e, id);
    StepKeepsClaims(timeout, w, e, token);
    if e.Finish? || e.Fail? { OthersActElsewhere(timeout, w, e, id, token, expires); }
  }

  lemma {:induction false} RunKeepsClaims(timeout: nat, w: World, events: seq<Event>, token: Token)
    requires token in w.claims
    ensures token in Run(timeout, w, events).claims && Run(timeout, w, events).claims[token] == w.claims[token]
    ensures w.assessments.Keys <= Run(timeout, w, events).assessments.Keys
  {
    if events == [] {
    } else {
      RunKeepsClaims(timeout, w, events[..|events| - 1], token);
      StepKeepsClaims(timeout, Run(timeout, w, events[..|events| - 1]), events[|events| - 1], token);
    }
  }

  lemma {:induction false} LeaseIsKept(timeout: nat, w: World, events: seq<Event>, id: JobId, token: Token,
                                       expires: int)
    requires Good(w) && Holds(w, id, token, expires)
    requires forall k :: 0 <= k < |events| ==> !ActsOn(events[k], token)
    requires Run(timeout, w, events).clock < expires
    ensures Holds(Run(timeout, w, events), id, token, expires)
  {
    if events == [] {
    } else {
      var front, last := events[..|events| - 1], events[|events| - 1];
      RunKeepsClaims(timeout, w, front, token);
      StepKeepsClaims(timeout, Run(timeout, w, front), last, token);
      LeaseIsKept(timeout, w, front, id, token, expires);
      RunGood(timeout, w, front);
      LeaseStep(timeout, Run(timeout, w, front), last, id, token, expires);
    }
  }

  lemma HeldFinishApplies(timeout: nat, w: World, id: JobId, token: Token, expires: int, envelope: Envelope, now: int)
    requires Good(w) && Holds(w, id, token, expires) && now < expires && now <= w.clock
    requires Verifies(envelope, w.claims[token]) && w.jobs[id].identity.session in w.assessments
    ensures var done := Step(timeout, w, Finish(token, envelope, now));
            id in done.jobs && done.jobs[id].status == Completed && done.jobs[id].result == Some(envelope)
  {
    assert RowOk(w, id);
  }

  lemma GrantHolds(timeout: nat, w: World, id: JobId, token: Token, claimed: int)
    requires Good(w) && claimed <= w.clock && token !in w.claims && id in w.jobs && Claimable(w.jobs[id], claimed)
    ensures var granted := Step(timeout, w, Grant(id, token, claimed));
            && Good(granted) && Holds(granted, id, token, claimed + LeaseSeconds(timeout))
            && granted.jobs[id].identity == w.jobs[id].identity && granted.assessments == w.assessments
            && granted.claims[token].identity == w.jobs[id].identity && granted.claims[token].token == token
  {
    StepGood(timeout, w, Grant(id, token, claimed));
  }

  lemma HolderPublishes(timeout: nat, w: World, id: JobId, token: Token, expires: int, events: seq<Event>,
                        envelope: Envelope, now: int)
    requires Good(w) && Holds(w, id, token, expires) && Verifies(envelope, w.claims[token])
    requires w.jobs[id].identity.session in w.assessments
    requires forall k :: 0 <= k < |events| ==> !ActsOn(events[k], token)
    requires now <= Run(timeout, w, events).clock < expires
    ensures var done := Step(timeout, Run(timeout, w, events), Finish(token, envelope, now));
            id in done.jobs && done.jobs[id].status == Completed && done.jobs[id].result == Some(envelope)
  {
    var later := Run(timeout, w, events);
    LeaseIsKept(timeout, w, events, id, token, expires);
    RunKeepsClaims(timeout, w, events, token);
    RunGood(timeout, w, events);
    assert RowOk(w, id) && RowOk(later, id);
    HeldFinishApplies(timeout, later, id, token, expires, envelope, now);
  }

  /** A run claimed on clock reading `claimed` that publishes a verified result before twice the
      timeout has passed is accepted, whatever every other participant did meanwhile. */
  lemma PromptWorkerPublishes(timeout: nat, w: World, id: JobId, token: Token, claimed: int, granted: World,
                              events: seq<Event>, envelope: Envelope, now: int)
    requires Good(w) && claimed <= w.clock && token !in w.claims && id in w.jobs && Claimable(w.jobs[id], claimed)
    requires granted == Step(timeout, w, Grant(id, token, claimed))
    requires w.jobs[id].identity.session in w.assessments
    requires forall k :: 0 <= k < |events| ==> !ActsOn(events[k], token)
    requires envelope.genuine && envelope.payload.identity == w.jobs[id].identity && envelope.payload.token == token
    requires now <= Run(timeout, granted, events).clock < claimed + 2 * timeout
    ensures var done := Step(timeout, Run(timeout, granted, events), Finish(token, envelope, now));
            id in done.jobs && done.jobs[id].status == Completed && done.jobs[id].result == Some(envelope)
  {
    GrantHolds(timeout, w, id, token, claimed);
    LeaseBounds(timeout);
    HolderPublishes(timeout, granted, id, token, claimed + LeaseSeconds(timeout), events, envelope, now);
  }

  /** How long a publication may take: within twice the timeout after the claim it finds its lease
      unexpired exactly when it comes strictly before that instant, or the timeout is positive and
      below two minutes. */
  lemma PublishWindow(job: Job, token: Token, claimed: int, timeout: nat, elapsed: nat)
    requires elapsed <= 2 * timeout
    ensures var row := GrantRow(job, token, claimed, timeout);
            FinishGuard(row, ClaimOf(row, token), claimed + elapsed) <==> elapsed < 2 * timeout || 0 < timeout < 120
  {
    LeaseBounds(timeout);
  }

  /** With the default timeout of 600 seconds, publishing exactly 1200 seconds after the claim is
      refused. */
  lemma DefaultBoundaryIsRefused(job: Job, token: Token, claimed: int)
    ensures var row := GrantRow(job, token, claimed, 600); !FinishGuard(row, ClaimOf(row, token), claimed + 1200)
  {
    PublishWindow(job, token, claimed, 600, 1200);
  }
}
