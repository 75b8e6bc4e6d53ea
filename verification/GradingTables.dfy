/** The rows behind the interview-grading queue and the statements that change them.  Each function
    below is one guarded SQL statement (or one transaction of `finish_job`), applied atomically. */
module GradingTables {
  import opened Basics
  import opened Outcomes

  type JobId = nat

  type SessionId = nat

  /** `secrets.token_hex`: tokens are compared for equality only. */
  type Token = nat

  datatype Status = Queued | Running | Completed | Failed

  /** What identifies a submission; `verify_result` checks a payload against all of it. */
  datatype Identity = Identity(session: SessionId, job: JobId, slug: string, source: string, version: string)

  datatype Payload = Payload(identity: Identity, token: Token, body: string)

  /** `genuine` stands for a valid signature over a complete, consistent case inventory. */
  datatype Envelope = Envelope(payload: Payload, genuine: bool)

  /** Digests are modelled as injective: the digest of a value is that value, tagged. */
  datatype Digest =
    | OfPayload(payload: Payload)
    | OfResult(envelope: Envelope)
    | OfText(text: string)
    | OfSource(source: string)
    | OfPacket(packet: Packet)

  datatype Kind = ExternalEvaluation | SubmittedSource | CandidateStatement | Observation

  datatype EvidenceId =
    | External(job: JobId)
    | Trusted
    | Source
    | DefendedAnswer(index: nat)
    | Other(name: string)

  datatype Evidence = Evidence(id: EvidenceId, kind: Kind, digest: Digest)

  datatype Packet = Packet(session: SessionId, evidence: seq<Evidence>)

  datatype Assessment = Assessment(packet: Packet, packetDigest: Digest, executed: bool)

  datatype Job = Job(
    identity: Identity,
    status: Status,
    attempts: nat,
    maxAttempts: nat,
    token: Option<Token>,
    leaseExpires: Option<int>,
    availableAt: int,
    createdAt: int,
    result: Option<Envelope>)

  type Jobs = map<JobId, Job>

  type Assessments = map<SessionId, Assessment>

  /** The immutable copy a worker keeps of the row it claimed. */
  datatype Claim = Claim(identity: Identity, token: Token, attempts: nat, maxAttempts: nat)

  // ---------- Time ----------

  /** `_lease_seconds` for a job timeout of t seconds. */
  function LeaseSeconds(t: nat): nat {
    var outlast := if t * 2 < t + 120 then t + 120 else t * 2;
    if outlast < t * 4 then outlast else t * 4
  }

  function FailBackoff(attempts: nat): nat {
    if 5 * Power2(attempts) < 60 then 5 * Power2(attempts) else 60
  }

  /** The lease lies between twice and four times the timeout, and exceeds twice the timeout
      exactly for positive timeouts below two minutes: by two minutes less the timeout, or as far
      as four times the timeout where that is less. */
  lemma LeaseBounds(t: nat)
    ensures 2 * t <= LeaseSeconds(t) <= 4 * t
    ensures LeaseSeconds(t) > 2 * t <==> 0 < t < 120
    ensures t < 120 ==> LeaseSeconds(t) == t + 120 || (LeaseSeconds(t) == 4 * t && t < 40)
  {
  }

  // ---------- `enqueue_grading_job` ----------

  const MAX_ATTEMPTS := 3

  ghost predicate HasJob(jobs: Jobs, session: SessionId) {
    exists j :: j in jobs && jobs[j].identity.session == session
  }

  function NewJob(identity: Identity, now: int): Job {
    Job(identity, Queued, 0, MAX_ATTEMPTS, None, None, now, now, None)
  }

  // ---------- `claim_next_job` ----------

  function ExpireRow(job: Job, now: int): Job {
    if job.status == Running && job.leaseExpires.Some? && job.leaseExpires.value <= now
    then job.(status := Queued, token := None, leaseExpires := None, availableAt := now)
    else job
  }

  function ExhaustRow(job: Job): Job {
    if job.status == Queued && job.attempts >= job.maxAttempts then job.(status := Failed) else job
  }

  /** The WHERE clause of both the candidate query and the guarded claim. */
  predicate Claimable(job: Job, now: int) {
    job.status == Queued && job.availableAt <= now && job.attempts < job.maxAttempts
  }

  function GrantRow(job: Job, token: Token, now: int, timeout: nat): Job {
    job.(status := Running, token := Some(token), leaseExpires := Some(now + LeaseSeconds(timeout)),
         attempts := job.attempts + 1)
  }

  function ExpireRows(jobs: Jobs, now: int): Jobs {
    map j | j in jobs :: ExpireRow(jobs[j], now)
  }

  function ExhaustRows(jobs: Jobs): Jobs {
    map j | j in jobs :: ExhaustRow(jobs[j])
  }

  function ClaimOf(job: Job, token: Token): Claim {
    Claim(job.identity, token, job.attempts, job.maxAttempts)
  }

  // ---------- `finish_job` ----------

  /** `verify_result`. */
  predicate Verifies(envelope: Envelope, claim: Claim) {
    envelope.genuine && envelope.payload.identity == claim.identity && envelope.payload.token == claim.token
  }

  predicate FinishGuard(job: Job, claim: Claim, now: int) {
    job.status == Running && job.token == Some(claim.token) && job.leaseExpires.Some? && job.leaseExpires.value > now
  }

  function Without(kind: Kind, evidence: seq<Evidence>): seq<Evidence> {
    if evidence == [] then []
    else if evidence[0].kind == kind then Without(kind, evidence[1..])
    else [evidence[0]] + Without(kind, evidence[1..])
  }

  function Only(kind: Kind, evidence: seq<Evidence>): seq<Evidence> {
    if evidence == [] then []
    else if evidence[0].kind == kind then [evidence[0]] + Only(kind, evidence[1..])
    else Only(kind, evidence[1..])
  }

  function ExternalEntry(job: JobId, envelope: Envelope): Evidence {
    Evidence(External(job), ExternalEvaluation, OfPayload(envelope.payload))
  }

  function WithEvidence(a: Assessment, evidence: seq<Evidence>): Assessment {
    var packet := a.packet.(evidence := evidence);
    a.(packet := packet, packetDigest := OfPacket(packet))
  }

  function Publish(a: Assessment, job: JobId, envelope: Envelope): Assessment {
    WithEvidence(a, Without(ExternalEvaluation, a.packet.evidence) + [ExternalEntry(job, envelope)]).(executed := true)
  }

  function FinishRow(job: Job, envelope: Envelope): Job {
    job.(status := Completed, result := Some(envelope), leaseExpires := None)
  }

  // ---------- `fail_job` ----------

  predicate FailGuard(job: Job, claim: Claim) {
    job.status == Running && job.token == Some(claim.token)
  }

  /** The decision uses the claim's copy of `attempts`, not the row. */
  function FailRow(job: Job, claim: Claim, now: int): Job {
    job.(status := if claim.attempts >= claim.maxAttempts then Failed else Queued,
         availableAt := now + FailBackoff(claim.attempts), token := None, leaseExpires := None)
  }

  /** Failing an attempt of a row retires it if that was its last, and else keeps it from being claimed
      for exactly 10, 20 or 40 seconds after the first three attempts, and for a minute after any later
      one. */
  lemma FailureBacksOff(job: Job, claim: Claim, now: int, later: int)
    requires job.attempts == claim.attempts >= 1 && job.maxAttempts == claim.maxAttempts
    ensures Claimable(FailRow(job, claim, now), later) <==>
            && claim.attempts < claim.maxAttempts
            && later >= now + match claim.attempts
                              case 1 => 10
                              case 2 => 20
                              case 3 => 40
                              case _ => 60
    ensures FailRow(job, claim, now).status == Failed <==> claim.attempts >= claim.maxAttempts
    ensures FailRow(job, claim, now).token.None? && FailRow(job, claim, now).leaseExpires.None?
  {
    PowerGrows(1, claim.attempts);
    if claim.attempts >= 4 { PowerGrows(4, claim.attempts); }
    assert Power2(1) == 2 && Power2(2) == 4 && Power2(3) == 8 && Power2(4) == 16;
  }

  // ---------- The reviewer's routes ----------

  /** `retry_grading` on a failed row. */
  function RequeueRow(job: Job, now: int): Job {
    job.(status := Queued, attempts := 0, maxAttempts := MAX_ATTEMPTS, token := None, leaseExpires := None,
         result := None, availableAt := now)
  }

  /** The same route marks the assessment as not executed. */
  function Reopened(assessments: Assessments, session: SessionId): Assessments {
    if session in assessments then assessments[session := assessments[session].(executed := false)] else assessments
  }

  /** What `review_context` demands of the row. */
  predicate Reviewable(job: Job) {
    && job.status == Completed
    && job.result.Some?
    && job.result.value.genuine
    && job.result.value.payload.identity == job.identity
    && job.token == Some(job.result.value.payload.token)
  }

  function TrustedEntry(envelope: Envelope): Evidence {
    Evidence(Trusted, ExternalEvaluation, OfResult(envelope))
  }

  /** `review_context`, as the feedback route stores it: every external fact and submitted source is
      stripped, then the authenticated ones are installed. */
  function Reassembled(a: Assessment, source: string, envelope: Envelope): Assessment {
    var stripped := Without(SubmittedSource, Without(ExternalEvaluation, a.packet.evidence));
    WithEvidence(a, stripped + [Evidence(Source, SubmittedSource, OfSource(source)), TrustedEntry(envelope)])
  }

  // ---------- Defense answers (`revise_defense`) ----------

  /** The answers given, each with the index of its question, in order of the indices. */
  type Answers = seq<(nat, string)>

  function Statement(answer: (nat, string)): Evidence {
    Evidence(DefendedAnswer(answer.0), CandidateStatement, OfText(answer.1))
  }

  function Statements(answers: Answers): seq<Evidence> {
    seq(|answers|, k requires 0 <= k < |answers| => Statement(answers[k]))
  }

  function Revise(a: Assessment, answers: Answers): Assessment {
    WithEvidence(a, Without(CandidateStatement, a.packet.evidence) + Statements(answers))
  }

  // ---------- Exactly one external entry ----------

  /** The packet holds one external-evaluation entry, it is this job's with this result's digest (as
      the worker or as a review installs it), and the packet digest is the packet's. */
  ghost predicate Graded(a: Assessment, job: JobId, envelope: Envelope) {
    && (|| Only(ExternalEvaluation, a.packet.evidence) == [ExternalEntry(job, envelope)]
        || Only(ExternalEvaluation, a.packet.evidence) == [TrustedEntry(envelope)])
    && a.packetDigest == OfPacket(a.packet)
  }

  lemma {:induction false} OnlyConcat(kind: Kind, a: seq<Evidence>, b: seq<Evidence>)
    ensures Only(kind, a + b) == Only(kind, a) + Only(kind, b)
  {
    if a == [] {
      assert a + b == b;
    } else {
      assert (a + b)[0] == a[0] && (a + b)[1..] == a[1..] + b;
      OnlyConcat(kind, a[1..], b);
      assert Only(kind, a + b) == if a[0].kind == kind then [a[0]] + Only(kind, a[1..] + b) else Only(kind, a[1..] + b);
    }
  }

  lemma {:induction false} OnlyWithout(kind: Kind, removed: Kind, evidence: seq<Evidence>)
    ensures Only(kind, Without(removed, evidence)) == if kind == removed then [] else Only(kind, evidence)
  {
    if evidence == [] {
    } else {
      OnlyWithout(kind, removed, evidence[1..]);
      if evidence[0].kind != removed { assert Without(removed, evidence)[1..] == Without(removed, evidence[1..]); }
    }
  }

  lemma {:induction false} OnlyAbsent(kind: Kind, evidence: seq<Evidence>)
    requires forall k :: 0 <= k < |evidence| ==> evidence[k].kind != kind
    ensures Only(kind, evidence) == []
  {
    if evidence == [] {
    } else {
      OnlyAbsent(kind, evidence[1..]);
    }
  }

  /** Whatever the packet held before, publishing leaves exactly the new external entry, and every
      entry of another kind in its place. */
  lemma PublishGrades(a: Assessment, job: JobId, envelope: Envelope, kind: Kind)
    ensures Graded(Publish(a, job, envelope), job, envelope) && Publish(a, job, envelope).executed
    ensures Only(ExternalEvaluation, Publish(a, job, envelope).packet.evidence) ==
            [Evidence(External(job), ExternalEvaluation, OfPayload(envelope.payload))]
    ensures Publish(a, job, envelope).packet.session == a.packet.session
    ensures kind != ExternalEvaluation ==>
              Only(kind, Publish(a, job, envelope).packet.evidence) == Only(kind, a.packet.evidence)
  {
    OneEntryReplaced(a, job, envelope, ExternalEvaluation);
    OneEntryReplaced(a, job, envelope, kind);
  }

  lemma OneEntryReplaced(a: Assessment, job: JobId, envelope: Envelope, kind: Kind)
    ensures Only(kind, Publish(a, job, envelope).packet.evidence) ==
            if kind == ExternalEvaluation then [ExternalEntry(job, envelope)] else Only(kind, a.packet.evidence)
  {
    var entry := [ExternalEntry(job, envelope)];
    OnlyConcat(kind, Without(ExternalEvaluation, a.packet.evidence), entry);
    OnlyWithout(kind, ExternalEvaluation, a.packet.evidence);
    assert entry[1..] == [];
    assert Only(kind, entry) == if kind == ExternalEvaluation then entry else [];
  }

  /** A review replaces the external and source entries by the authenticated ones and keeps every
      other entry. */
  lemma ReassemblyGrades(a: Assessment, source: string, envelope: Envelope, kind: Kind)
    ensures Only(kind, Reassembled(a, source, envelope).packet.evidence) ==
            match kind
            case ExternalEvaluation => [Evidence(Trusted, ExternalEvaluation, OfResult(envelope))]
            case SubmittedSource => [Evidence(Source, SubmittedSource, OfSource(source))]
            case _ => Only(kind, a.packet.evidence)
    ensures var b := Reassembled(a, source, envelope);
            b.packetDigest == OfPacket(b.packet) && b.packet.session == a.packet.session && b.executed == a.executed
  {
    var kept := Without(ExternalEvaluation, a.packet.evidence);
    var first, second := Evidence(Source, SubmittedSource, OfSource(source)), TrustedEntry(envelope);
    OnlyWithout(kind, ExternalEvaluation, a.packet.evidence);
    OnlyWithout(kind, SubmittedSource, kept);
    OnlyConcat(kind, Without(SubmittedSource, kept), [first, second]);
    assert [first, second][1..] == [second] && [second][1..] == [];
    assert Only(kind, [second]) == if kind == ExternalEvaluation then [second] else [];
  }

  lemma {:induction false} OnlyPresent(kind: Kind, evidence: seq<Evidence>)
    requires forall k :: 0 <= k < |evidence| ==> evidence[k].kind == kind
    ensures Only(kind, evidence) == evidence
  {
    if evidence == [] {
    } else {
      OnlyPresent(kind, evidence[1..]);
    }
  }

  /** Revising the defense answers replaces the candidate's statements and keeps every other entry,
      the external one included. */
  lemma ReviseKeepsGrade(a: Assessment, answers: Answers, kind: Kind)
    ensures Only(kind, Revise(a, answers).packet.evidence) ==
            if kind == CandidateStatement then Statements(answers) else Only(kind, a.packet.evidence)
    ensures |Statements(answers)| == |answers|
    ensures forall k :: 0 <= k < |answers| ==>
              Statements(answers)[k] ==
              Evidence(DefendedAnswer(answers[k].0), CandidateStatement, OfText(answers[k].1))
    ensures var b := Revise(a, answers);
            b.packetDigest == OfPacket(b.packet) && b.packet.session == a.packet.session && b.executed == a.executed
  {
    OnlyConcat(kind, Without(CandidateStatement, a.packet.evidence), Statements(answers));
    OnlyWithout(kind, CandidateStatement, a.packet.evidence);
    if kind == CandidateStatement {
      OnlyPresent(kind, Statements(answers));
    } else {
      OnlyAbsent(kind, Statements(answers));
    }
  }

  // ---------- What a later write leaves of an earlier one ----------

  lemma {:induction false} WithoutConcat(kind: Kind, a: seq<Evidence>, b: seq<Evidence>)
    ensures Without(kind, a + b) == Without(kind, a) + Without(kind, b)
  {
    if a == [] {
      assert a + b == b;
    } else {
      assert (a + b)[0] == a[0] && (a + b)[1..] == a[1..] + b;
      WithoutConcat(kind, a[1..], b);
    }
  }

  lemma {:induction false} WithoutNone(kind: Kind, evidence: seq<Evidence>)
    requires Only(kind, evidence) == []
    ensures Without(kind, evidence) == evidence
  {
    if evidence == [] {
    } else {
      WithoutNone(kind, evidence[1..]);
    }
  }

  lemma {:induction false} WithoutAll(kind: Kind, evidence: seq<Evidence>)
    requires forall k :: 0 <= k < |evidence| ==> evidence[k].kind == kind
    ensures Without(kind, evidence) == []
  {
    if evidence == [] {
    } else {
      WithoutAll(kind, evidence[1..]);
    }
  }

  /** Of two revisions only the last counts: a packet revised to other answers and back is the packet
      revised once, which is the packet itself if a revision had made it. */
  lemma ReviseTwice(a: Assessment, between: Answers, answers: Answers)
    ensures Revise(Revise(a, between), answers) == Revise(a, answers)
  {
    var others := Without(CandidateStatement, a.packet.evidence);
    OnlyWithout(CandidateStatement, CandidateStatement, a.packet.evidence);
    WithoutNone(CandidateStatement, others);
    WithoutConcat(CandidateStatement, others, Statements(between));
    WithoutAll(CandidateStatement, Statements(between));
    assert Without(CandidateStatement, others + Statements(between)) == others;
  }

  /** A reassembly repeated changes nothing: no sequence of reviews alone returns a packet to a digest
      it has left. */
  lemma ReassembledTwice(a: Assessment, source: string, envelope: Envelope)
    ensures Reassembled(Reassembled(a, source, envelope), source, envelope) == Reassembled(a, source, envelope)
  {
    var kept := Without(SubmittedSource, Without(ExternalEvaluation, a.packet.evidence));
    var first, second := Evidence(Source, SubmittedSource, OfSource(source)), TrustedEntry(envelope);
    OnlyWithout(ExternalEvaluation, ExternalEvaluation, a.packet.evidence);
    OnlyWithout(ExternalEvaluation, SubmittedSource, Without(ExternalEvaluation, a.packet.evidence));
    OnlyWithout(SubmittedSource, SubmittedSource, Without(ExternalEvaluation, a.packet.evidence));
    WithoutNone(ExternalEvaluation, kept);
    WithoutNone(SubmittedSource, kept);
    InstalledStripped(kept, first, second);
  }

  lemma InstalledStripped(kept: seq<Evidence>, first: Evidence, second: Evidence)
    requires Without(ExternalEvaluation, kept) == kept && Without(SubmittedSource, kept) == kept
    requires first.kind == SubmittedSource && second.kind == ExternalEvaluation
    ensures Without(SubmittedSource, Without(ExternalEvaluation, kept + [first, second])) == kept
  {
    WithoutConcat(ExternalEvaluation, kept, [first, second]);
    assert [first, second][1..] == [second] && [second][1..] == [];
    assert Without(ExternalEvaluation, [second]) == [];
    assert Without(ExternalEvaluation, [first, second]) == [first];
    WithoutConcat(SubmittedSource, kept, [first]);
    assert [first][1..] == [] && Without(SubmittedSource, [first]) == [];
    assert kept + [] == kept;
  }

  /** Statements determine the answers they were made from. */
  lemma StatementsDiffer(a: Answers, b: Answers)
    requires a != b
    ensures Statements(a) != Statements(b)
  {
    if |a| == |b| {
      var k :| 0 <= k < |a| && a[k] != b[k];
      assert Statements(a)[k] == Statement(a[k]) && Statements(b)[k] == Statement(b[k]);
    }
  }
}
