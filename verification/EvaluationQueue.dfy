/** The evaluation queue of `workers/queue.py`.  Its rows carry no lease token: what keeps two workers
    off one job is timing alone.  Times are exact reals in seconds. */
module EvaluationQueue {
  import opened Basics
  import opened Outcomes

  type JobId = nat

  type RunId = nat

  datatype Status = Queued | Retry | Running | Completed | Failed

  datatype Job = Job(status: Status, attempts: nat, maxAttempts: nat, startedAt: Option<real>, availableAt: real)

  datatype Submission = Pending | InProgress | Evaluated | Broken

  // ---------- Formulas ----------

  function Larger(a: real, b: real): real { if a < b then b else a }

  /** `_evaluation_job_timeout_seconds`. */
  function JobTimeout(configured: real): (r: real)
    ensures r >= 60.0 && r >= configured && (r == 60.0 || r == configured)
  {
    Larger(60.0, configured)
  }

  /** `_stuck_job_recovery_seconds`. */
  function RecoverySeconds(timeout: real): real { Larger(timeout * 2.0, timeout + 300.0) }

  /** `_retry_backoff_seconds`. */
  function RetryBackoff(attempts: nat): nat {
    var p := Power2(if attempts < 1 then 1 else attempts);
    if p < 60 then p else 60
  }

  /** The backoff doubles with each attempt, from 2 seconds up to a minute. */
  lemma BackoffDoubles(attempts: nat)
    ensures 2 <= RetryBackoff(attempts) <= 60
    ensures attempts <= 1 ==> RetryBackoff(attempts) == 2
    ensures attempts >= 1 && 2 * RetryBackoff(attempts) <= 60 ==>
              RetryBackoff(attempts + 1) == 2 * RetryBackoff(attempts)
    ensures RetryBackoff(attempts) == 60 <==> attempts >= 6
  {
    if attempts >= 6 {
      PowerGrows(6, attempts);
    } else {
      assert Power2(1) == 2 && Power2(2) == 4 && Power2(3) == 8 && Power2(4) == 16 && Power2(5) == 32;
    }
  }

  lemma RecoverySlack(timeout: real)
    requires timeout >= 60.0
    ensures RecoverySeconds(timeout) - timeout >= 300.0
    ensures RecoverySeconds(timeout) - timeout == if timeout < 300.0 then 300.0 else timeout
  {
  }

  // ---------- Row changes ----------

  predicate Claimable(job: Job, now: real) {
    (job.status == Queued || job.status == Retry) && job.availableAt <= now
  }

  function ClaimRow(job: Job, now: real): Job {
    job.(status := Running, startedAt := Some(now), attempts := job.attempts + 1)
  }

  /** `_set_retry_or_failed`, deciding on the given attempts. */
  function RetryOrFailed(job: Job, attempts: nat, now: real): Job {
    if attempts >= job.maxAttempts then job.(status := Failed)
    else job.(status := Retry, availableAt := now + RetryBackoff(attempts) as real)
  }

  predicate Stuck(job: Job, now: real, timeout: real) {
    job.status == Running && job.startedAt.Some? && job.startedAt.value <= now - RecoverySeconds(timeout)
  }

  type Submissions = map<JobId, Submission>

  /** The job's submission, which may be missing. */
  function SubmissionOf(submissions: Submissions, job: JobId): Option<Submission> {
    if job in submissions then Some(submissions[job]) else None
  }

  function RecoverRow(job: Job, submission: Option<Submission>, now: real): Job {
    if submission == Some(Evaluated) then job.(status := Completed) else RetryOrFailed(job, job.attempts, now)
  }

  function RecoverSubmission(submission: Submission): Submission {
    if submission == InProgress then Broken else submission
  }

  /** What `_run_job` writes at its end, whatever the row says by then. */
  function ConcludeRow(job: Job, attempts: nat, succeeded: bool, submission: Option<Submission>, now: real): Job {
    if succeeded && submission == Some(Evaluated) then job.(status := Completed) else RetryOrFailed(job, attempts, now)
  }

  /** The recovery query: stuck rows, of one job if so asked, without those another worker has locked. */
  function StuckJobs(jobs: map<JobId, Job>, now: real, timeout: real, only: Option<JobId>,
                     locked: set<JobId>): set<JobId>
  {
    set j | j in jobs && Stuck(jobs[j], now, timeout) && (only == None || only == Some(j)) && j !in locked
  }

  function RecoverAll(jobs: map<JobId, Job>, submissions: Submissions, stuck: set<JobId>, now: real): map<JobId, Job>
  {
    map j | j in jobs :: if j in stuck then RecoverRow(jobs[j], SubmissionOf(submissions, j), now) else jobs[j]
  }

  function RecoverSubmissions(submissions: Submissions, stuck: set<JobId>): Submissions {
    map j | j in submissions :: if j in stuck then RecoverSubmission(submissions[j]) else submissions[j]
  }

  lemma OneMoreRecovered(jobs: map<JobId, Job>, submissions: Submissions, stuck: set<JobId>, id: JobId, now: real)
    requires id in jobs && id !in stuck
    ensures RecoverAll(jobs, submissions, stuck + {id}, now) ==
            RecoverAll(jobs, submissions, stuck, now)[id := RecoverRow(jobs[id], SubmissionOf(submissions, id), now)]
    ensures RecoverSubmissions(submissions, stuck + {id}) ==
            RecoverSubmissions(RecoverSubmissions(submissions, stuck), {id})
  {
  }

  // ---------- Interleavings ----------

  /** A live run: the job it works on, its claim time, and its copy of `attempts`. */
  datatype Worker = Worker(job: JobId, started: real, attempts: nat)

  datatype World = World(jobs: map<JobId, Job>, submissions: Submissions, runs: map<RunId, Worker>, clock: real)

  const START: World := World(map[], map[], map[], 0.0)

  /** `now` is a clock reading taken at or before the step. */
  datatype Event =
    | Tick(seconds: real)
    | Enqueue(job: JobId, maxAttempts: nat, now: real)
    | Evaluate(job: JobId, submission: Submission)
    | Claim(job: JobId, run: RunId, now: real)
    | Recover(job: JobId, now: real)
    | Conclude(run: RunId, succeeded: bool, now: real)
    | Crash(run: RunId)

  /** Time passes only as far as live runs allow: each is over `bound` seconds after its claim's clock
      reading, and so is the claim itself. */
  predicate MayTick(w: World, seconds: real, bound: real) {
    seconds >= 0.0 && forall r :: r in w.runs ==> w.clock + seconds <= w.runs[r].started + bound
  }

  predicate RecoverApplies(timeout: real, w: World, job: JobId, now: real) {
    now <= w.clock && job in w.jobs && Stuck(w.jobs[job], now, timeout)
  }

  function Step(timeout: real, bound: real, w: World, e: Event): World {
    match e
    case Tick(seconds) => if MayTick(w, seconds, bound) then w.(clock := w.clock + seconds) else w
    case Enqueue(job, maxAttempts, now) =>
      if now > w.clock || job in w.jobs then w
      else w.(jobs := w.jobs[job := Job(Queued, 0, maxAttempts, None, now)])
    case Evaluate(job, submission) => w.(submissions := w.submissions[job := submission])
    case Claim(job, run, now) =>
      if !(now <= w.clock <= now + bound) || run in w.runs || job !in w.jobs || !Claimable(w.jobs[job], now) then w
      else
        var row := ClaimRow(w.jobs[job], now);
        w.(jobs := w.jobs[job := row], runs := w.runs[run := Worker(job, now, row.attempts)])
    case Recover(job, now) =>
      if !RecoverApplies(timeout, w, job, now) then w
      else w.(jobs := w.jobs[job := RecoverRow(w.jobs[job], SubmissionOf(w.submissions, job), now)],
              submissions := RecoverSubmissions(w.submissions, {job}))
    case Conclude(run, succeeded, now) =>
      if now > w.clock || run !in w.runs || w.runs[run].job !in w.jobs then w
      else
        var job, submission := w.runs[run].job, SubmissionOf(w.submissions, w.runs[run].job);
        var row := ConcludeRow(w.jobs[job], w.runs[run].attempts, succeeded, submission, now);
        w.(jobs := w.jobs[job := row], runs := w.runs - {run})
    case Crash(run) => w.(runs := w.runs - {run})
  }

  function Run(timeout: real, bound: real, w: World, events: seq<Event>): World {
    if events == [] then w
    else Step(timeout, bound, Run(timeout, bound, w, events[..|events| - 1]), events[|events| - 1])
  }

  function MostAttempts(maxAttempts: nat): nat { if maxAttempts < 1 then 1 else maxAttempts }

  /** Each live run owns its row: the row is running, started when the run did, at the run's attempt,
      and no other run is live on it. */
  ghost predicate Exclusive(w: World, bound: real) {
    && (forall r :: r in w.runs ==> Owns(w, w.runs[r]) && w.clock <= w.runs[r].started + bound)
    && (forall r, s :: r in w.runs && s in w.runs && w.runs[r].job == w.runs[s].job ==> r == s)
    && (forall j :: j in w.jobs ==> WithinAttempts(w.jobs[j]))
  }

  predicate Owns(w: World, run: Worker) {
    run.job in w.jobs && w.jobs[run.job].status == Running && w.jobs[run.job].startedAt == Some(run.started) &&
    w.jobs[run.job].attempts == run.attempts
  }

  predicate WithinAttempts(job: Job) {
    && job.attempts <= MostAttempts(job.maxAttempts)
    && (job.status == Queued ==> job.attempts == 0)
    && (job.status == Retry ==> job.attempts < job.maxAttempts)
  }

  lemma ClaimExclusive(timeout: real, bound: real, w: World, job: JobId, run: RunId, now: real)
    requires bound >= 0.0 && Exclusive(w, bound)
    ensures Exclusive(Step(timeout, bound, w, Claim(job, run, now)), bound)
  {
    if job in w.jobs { assert WithinAttempts(w.jobs[job]); }
  }

  lemma RecoverExclusive(timeout: real, bound: real, w: World, job: JobId, now: real)
    requires 0.0 <= bound < RecoverySeconds(timeout) && Exclusive(w, bound)
    ensures Exclusive(Step(timeout, bound, w, Recover(job, now)), bound)
  {
    if RecoverApplies(timeout, w, job, now) {
      assert WithinAttempts(w.jobs[job]);
      RecoveredHasNoRun(timeout, bound, w, job, now);
    }
  }

  lemma ConcludeExclusive(timeout: real, bound: real, w: World, run: RunId, succeeded: bool, now: real)
    requires Exclusive(w, bound)
    ensures Exclusive(Step(timeout, bound, w, Conclude(run, succeeded, now)), bound)
  {
    if run in w.runs { assert Owns(w, w.runs[run]) && WithinAttempts(w.jobs[w.runs[run].job]); }
  }

  lemma OtherExclusive(timeout: real, bound: real, w: World, e: Event)
    requires Exclusive(w, bound) && (e.Tick? || e.Enqueue? || e.Evaluate? || e.Crash?)
    ensures Exclusive(Step(timeout, bound, w, e), bound)
  {
  }

  /** If every run is over less than the recovery time after its claim, every step keeps exclusion. */
  lemma StepExclusive(timeout: real, bound: real, w: World, e: Event)
    requires 0.0 <= bound < RecoverySeconds(timeout) && Exclusive(w, bound)
    ensures Exclusive(Step(timeout, bound, w, e), bound)
  {
    match e
    case Claim(job, run, now) => ClaimExclusive(timeout, bound, w, job, run, now);
    case Recover(job, now) => RecoverExclusive(timeout, bound, w, job, now);
    case Conclude(run, succeeded, now) => ConcludeExclusive(timeout, bound, w, run, succeeded, now);
    case _ => OtherExclusive(timeout, bound, w, e);
  }

  /** Recovery never touches a job that still has a live run. */
  lemma RecoveredHasNoRun(timeout: real, bound: real, w: World, job: JobId, now: real)
    requires bound < RecoverySeconds(timeout) && Exclusive(w, bound) && RecoverApplies(timeout, w, job, now)
    ensures forall r :: r in w.runs ==> w.runs[r].job != job
  {
    forall r | r in w.runs ensures w.runs[r].job != job {
      assert Owns(w, w.runs[r]);
    }
  }

  lemma {:induction false} RunExclusive(timeout: real, bound: real, events: seq<Event>)
    requires 0.0 <= bound < RecoverySeconds(timeout)
    ensures Exclusive(Run(timeout, bound, START, events), bound)
  {
    if events == [] {
    } else {
      RunExclusive(timeout, bound, events[..|events| - 1]);
      StepExclusive(timeout, bound, Run(timeout, bound, START, events[..|events| - 1]), events[|events| - 1]);
    }
  }

  /** Timed exclusion: runs cut off at the job timeout, plus any bookkeeping delay below 300 seconds,
      never overlap on one job, and no job is claimed more than max(1, max_attempts) times. */
  lemma NoTwoLiveRuns(configured: real, delay: real, events: seq<Event>, r: RunId, s: RunId)
    requires 0.0 <= delay < 300.0
    ensures var timeout := JobTimeout(configured);
            var w := Run(timeout, timeout + delay, START, events);
            && (r in w.runs && s in w.runs && w.runs[r].job == w.runs[s].job ==> r == s)
            && (forall j :: j in w.jobs ==> w.jobs[j].attempts <= 1 || w.jobs[j].attempts <= w.jobs[j].maxAttempts)
  {
    RecoverySlack(JobTimeout(configured));
    RunExclusive(JobTimeout(configured), JobTimeout(configured) + delay, events);
  }

  /** Under exclusion a completed or failed row is never written again. */
  lemma FinishedRowsStay(timeout: real, bound: real, w: World, e: Event, job: JobId)
    requires 0.0 <= bound < RecoverySeconds(timeout) && Exclusive(w, bound)
    requires job in w.jobs && (w.jobs[job].status == Completed || w.jobs[job].status == Failed)
    ensures job in Step(timeout, bound, w, e).jobs && Step(timeout, bound, w, e).jobs[job] == w.jobs[job]
  {
    if e.Conclude? && e.run in w.runs { assert Owns(w, w.runs[e.run]); }
  }

  /** In every reachable world of runs cut off in time, a run that ends without success decides on its
      own copy of `attempts` what the row's would have decided: its row fails exactly when it has used
      up its attempts, and otherwise can be claimed again after the backoff for the row's attempts. */
  lemma UnsuccessfulRunsDecideRightly(configured: real, delay: real, events: seq<Event>, run: RunId, now: real)
    requires 0.0 <= delay < 300.0
    requires var w := Run(JobTimeout(configured), JobTimeout(configured) + delay, START, events);
             run in w.runs && now <= w.clock
    ensures var timeout := JobTimeout(configured);
            var w := Run(timeout, timeout + delay, START, events);
            var job, w' := w.runs[run].job, Step(timeout, timeout + delay, w, Conclude(run, false, now));
            && job in w.jobs && job in w'.jobs && run !in w'.runs
            && (w'.jobs[job].status == Failed <==> w.jobs[job].attempts >= w.jobs[job].maxAttempts)
            && (forall later :: Claimable(w'.jobs[job], later) <==>
                  w.jobs[job].attempts < w.jobs[job].maxAttempts &&
                    later >= now + RetryBackoff(w.jobs[job].attempts) as real)
  {
    var timeout := JobTimeout(configured);
    RecoverySlack(timeout);
    RunExclusive(timeout, timeout + delay, events);
    var w := Run(timeout, timeout + delay, START, events);
    assert Owns(w, w.runs[run]);
  }

  /** In every reachable world of runs cut off in time, the end of a run leaves its row completed exactly
      if the run succeeded and its submission is evaluated; the attempts stay the row's. */
  lemma SuccessfulRunsComplete(configured: real, delay: real, events: seq<Event>,
                               run: RunId, succeeded: bool, now: real)
    requires 0.0 <= delay < 300.0
    requires var w := Run(JobTimeout(configured), JobTimeout(configured) + delay, START, events);
             run in w.runs && now <= w.clock
    ensures var timeout := JobTimeout(configured);
            var w := Run(timeout, timeout + delay, START, events);
            var job, w' := w.runs[run].job, Step(timeout, timeout + delay, w, Conclude(run, succeeded, now));
            && job in w.jobs && job in w'.jobs
            && (w'.jobs[job].status == Completed <==>
                  succeeded && job in w.submissions && w.submissions[job] == Evaluated)
            && w'.jobs[job].attempts == w.jobs[job].attempts && w'.submissions == w.submissions
  {
    var timeout := JobTimeout(configured);
    RecoverySlack(timeout);
    RunExclusive(timeout, timeout + delay, events);
    var w := Run(timeout, timeout + delay, START, events);
    assert Owns(w, w.runs[run]);
  }

  /** A completed or failed row is the same in every later world. */
  lemma {:induction false} FinishedForever(timeout: real, bound: real, w: World, events: seq<Event>, job: JobId)
    requires 0.0 <= bound < RecoverySeconds(timeout) && Exclusive(w, bound)
    requires job in w.jobs && (w.jobs[job].status == Completed || w.jobs[job].status == Failed)
    ensures var later := Run(timeout, bound, w, events);
            Exclusive(later, bound) && job in later.jobs && later.jobs[job] == w.jobs[job]
  {
    if events == [] {
    } else {
      var front := events[..|events| - 1];
      FinishedForever(timeout, bound, w, front, job);
      StepExclusive(timeout, bound, Run(timeout, bound, w, front), events[|events| - 1]);
      FinishedRowsStay(timeout, bound, Run(timeout, bound, w, front), events[|events| - 1], job);
    }
  }

  /** What recovery makes of a row: completed exactly if its submission is evaluated, and else failed or
      due for a retry, on the attempts it has. */
  predicate Recovered(row: Job, row': Job, evaluated: bool, now: real) {
    && (row'.status == Completed <==> evaluated)
    && (row'.status == Failed <==> !evaluated && row.attempts >= row.maxAttempts)
    && (row'.status == Retry <==> !evaluated && row.attempts < row.maxAttempts)
    && (row'.status == Retry ==> row'.availableAt == now + RetryBackoff(row.attempts) as real)
    && row'.attempts == row.attempts && row'.maxAttempts == row.maxAttempts
  }

  /** Which rows one recovery takes: those running for twice the timeout and for 300 seconds more than
      it, that are asked for and not locked.  No such row stays running, and every other row and its
      submission are untouched. */
  lemma RecoveryTakes(jobs: map<JobId, Job>, submissions: Submissions, now: real, configured: real,
                      only: Option<JobId>, locked: set<JobId>, j: JobId)
    requires j in jobs
    ensures var timeout, row := JobTimeout(configured), jobs[j];
            var stuck := StuckJobs(jobs, now, timeout, only, locked);
            var jobs' := RecoverAll(jobs, submissions, stuck, now);
            var submissions' := RecoverSubmissions(submissions, stuck);
            var taken := row.status == Running && row.startedAt.Some? && j !in locked &&
                           now - row.startedAt.value >= 2.0 * timeout &&
                           now - row.startedAt.value >= timeout + 300.0 &&
                           !(only.Some? && only.value != j);
            && j in jobs'
            && (!taken ==> jobs'[j] == row)
            && (taken ==> Recovered(row, jobs'[j], j in submissions && submissions[j] == Evaluated, now))
            && submissions'.Keys == submissions.Keys
            && (j in submissions ==>
                  submissions'[j] == if taken && submissions[j] == InProgress then Broken else submissions[j])
  {
  }

  /** What a recovery step does, in fields: its row is completed exactly if its submission is evaluated, and else
      fails or retries on its own attempts; its submission breaks exactly if it was in progress; and
      nothing else changes. */
  lemma RecoveryDecides(timeout: real, bound: real, w: World, job: JobId, now: real)
    requires RecoverApplies(timeout, w, job, now)
    ensures var w' := Step(timeout, bound, w, Recover(job, now));
            var row, row' := w.jobs[job], w'.jobs[job];
            && Recovered(row, row', job in w.submissions && w.submissions[job] == Evaluated, now)
            && w'.submissions.Keys == w.submissions.Keys
            && (forall j :: j in w.submissions ==>
                  w'.submissions[j] == if j == job && w.submissions[j] == InProgress then Broken else w.submissions[j])
            && (forall j :: j in w.jobs && j != job ==> w'.jobs[j] == w.jobs[j]) && w'.jobs.Keys == w.jobs.Keys
  {
  }

  // ---------- The bound is exact ----------

  /** Some run of events recovers a job whose worker is still live. */
  ghost predicate RecoversLiveJob(timeout: real, bound: real, events: seq<Event>, job: JobId, now: real) {
    var w := Run(timeout, bound, START, events);
    RecoverApplies(timeout, w, job, now) && exists r :: r in w.runs && w.runs[r].job == job
  }

  /** The timing assumption is exactly what is needed: a live job can be recovered if and only if a
      run may last as long as the recovery time. */
  lemma RecoveryIsSafeIff(timeout: real, bound: real)
    requires timeout >= 60.0 && bound >= 0.0
    ensures (exists events, job, now :: RecoversLiveJob(timeout, bound, events, job, now)) <==>
            bound >= RecoverySeconds(timeout)
  {
    if bound >= RecoverySeconds(timeout) {
      LiveJobRecovered(timeout, bound);
    } else {
      forall events, job, now ensures !RecoversLiveJob(timeout, bound, events, job, now) {
        RunExclusive(timeout, bound, events);
        var w := Run(timeout, bound, START, events);
        if RecoverApplies(timeout, w, job, now) { RecoveredHasNoRun(timeout, bound, w, job, now); }
      }
    }
  }

  lemma LiveJobRecovered(timeout: real, bound: real)
    requires timeout >= 60.0 && bound >= RecoverySeconds(timeout)
    ensures exists events, job, now :: RecoversLiveJob(timeout, bound, events, job, now)
  {
    var e0, e1, e2 := Enqueue(0, 3, 0.0), Claim(0, 0, 0.0), Tick(RecoverySeconds(timeout));
    assert [e0, e1][..1] == [e0] && [e0, e1, e2][..2] == [e0, e1];
    var none: seq<Event> := [];
    assert [e0][..|[e0]| - 1] == none;
    assert Run(timeout, bound, START, none) == START;
    var w1 := Run(timeout, bound, START, [e0]);
    assert w1 == Step(timeout, bound, START, e0);
    var w2 := Run(timeout, bound, START, [e0, e1]);
    assert w2 == Step(timeout, bound, w1, e1);
    assert 0 in w2.runs && w2.runs[0] == Worker(0, 0.0, 1);
    var w3 := Run(timeout, bound, START, [e0, e1, e2]);
    assert w3 == Step(timeout, bound, w2, e2);
    assert MayTick(w2, RecoverySeconds(timeout), bound);
    assert 0 in w3.runs && w3.runs[0].job == 0;
    assert RecoversLiveJob(timeout, bound, [e0, e1, e2], 0, RecoverySeconds(timeout));
  }

  // ---------- The functions over stored rows ----------

  class EvaluationStore {
    var jobs: map<JobId, Job>
    var submissions: Submissions

    constructor ()
      ensures jobs == map[] && submissions == map[]
    {
      jobs, submissions := map[], map[];
    }

    /** `_claim_job_by_id`: true when the guarded update found the row. */
    method ClaimById(id: JobId, now: real) returns (claimed: bool)
      modifies this`jobs
      ensures claimed <==> id in old(jobs) && Claimable(old(jobs)[id], now)
      ensures jobs == if claimed then old(jobs)[id := ClaimRow(old(jobs)[id], now)] else old(jobs)
    {
      if id !in jobs || !Claimable(jobs[id], now) { return false; }
      var job := jobs[id];
      jobs := jobs[id := job.(status := Running, startedAt := Some(now), attempts := job.attempts + 1)];
      return true;
    }

    /** `_set_retry_or_failed` on one row. */
    method SetRetryOrFailed(id: JobId, attempts: nat, now: real)
      requires id in jobs
      modifies this`jobs
      ensures jobs == old(jobs)[id := RetryOrFailed(old(jobs)[id], attempts, now)]
    {
      var job := jobs[id];
      if attempts >= job.maxAttempts {
        jobs := jobs[id := job.(status := Failed)];
      } else {
        jobs := jobs[id := job.(status := Retry, availableAt := now + RetryBackoff(attempts) as real)];
      }
    }

    /** One round of the recovery loop. */
    method RecoverOne(id: JobId, now: real)
      requires id in jobs
      modifies this
      ensures jobs == old(jobs)[id := RecoverRow(old(jobs)[id], SubmissionOf(old(submissions), id), now)]
      ensures submissions == RecoverSubmissions(old(submissions), {id})
    {
      if id in submissions && submissions[id] == Evaluated {
        jobs := jobs[id := jobs[id].(status := Completed)];
      } else {
        SetRetryOrFailed(id, jobs[id].attempts, now);
        if id in submissions && submissions[id] == InProgress { submissions := submissions[id := Broken]; }
      }
    }

    /** The recovery loop over the rows that the query returned. */
    method RecoverListed(stuck: set<JobId>, now: real) returns (recovered: nat)
      requires stuck <= jobs.Keys
      modifies this
      ensures jobs == RecoverAll(old(jobs), old(submissions), stuck, now)
      ensures submissions == RecoverSubmissions(old(submissions), stuck)
      ensures recovered == |stuck|
    {
      recovered := 0;
      var rest := stuck;
      ghost var done := {};
      while rest != {}
        invariant rest == stuck - done && done <= stuck && recovered == |done|
        invariant jobs == RecoverAll(old(jobs), old(submissions), done, now)
        invariant submissions == RecoverSubmissions(old(submissions), done)
      {
        var id :| id in rest;
        RecoverOne(id, now);
        recovered := recovered + 1;
        OneMoreRecovered(old(jobs), old(submissions), done, id, now);
        done, rest := done + {id}, rest - {id};
      }
      assert done == stuck;
    }

    /** `_recover_stuck_jobs`: every stuck row that is asked for and not locked is recovered, every
        other row is untouched. */
    method RecoverStuck(now: real, configured: real, only: Option<JobId>, locked: set<JobId>) returns (recovered: nat)
      modifies this
      ensures var stuck := StuckJobs(old(jobs), now, JobTimeout(configured), only, locked);
              && jobs == RecoverAll(old(jobs), old(submissions), stuck, now)
              && submissions == RecoverSubmissions(old(submissions), stuck)
              && recovered == |stuck|
    {
      recovered := RecoverListed(StuckJobs(jobs, now, JobTimeout(configured), only, locked), now);
    }

    /** The end of `_run_job`: no guard on the row's present status. */
    method ConcludeRun(id: JobId, attempts: nat, succeeded: bool, now: real)
      requires id in jobs
      modifies this`jobs
      ensures var row := ConcludeRow(old(jobs)[id], attempts, succeeded, SubmissionOf(submissions, id), now);
              jobs == old(jobs)[id := row]
      ensures jobs[id].status == Completed <==> succeeded && id in submissions && submissions[id] == Evaluated
    {
      if succeeded && id in submissions && submissions[id] == Evaluated {
        jobs := jobs[id := jobs[id].(status := Completed)];
      } else {
        SetRetryOrFailed(id, attempts, now);
      }
    }
  }
}
