/** The claim and publish protocol of automatic AI grading, on one evaluation row whose grading job has
    completed, interleaved with every other writer of that row: defense answers, with automatic
    grading on or off, the two writes of the reviewer's feedback route, and the owner's retry request.
    (A human review only adds a key of its own, under the locks that the others take.) */
module AiGrading {
  import opened Outcomes
  import Tables = GradingTables

  type Token = nat

  type Digest = Tables.Digest

  type FeedbackId = nat

  const LEASE_SECONDS := 360
  const MAX_ATTEMPTS := 2
  const RETRY_SECONDS := 60
  const MAX_HISTORY := 5

  datatype Status = Queued | WaitingDefense | Running | RetryPending | NeedsReview | Judged(outcome: string)

  /** A reading of the stored packet: its digest, and its position among the packets the row has had.
      Positions are annotations of the model; no guard looks at them. */
  datatype Reading = Reading(digest: Digest, at: nat)

  /** `packetDigest` is the label the worker writes.  `claimedAt`, `read` and `publishedAt` record the
      packet at the claim, the packet actually read into the judged bundle, and the packet the
      verdict was stored beside. */
  datatype Verdict = Verdict(
    packetDigest: Digest,
    rubric: string,
    prompt: string,
    claimedAt: nat,
    read: Reading,
    publishedAt: nat)

  /** `metrics["auto_grading"]`; absent numeric keys read as 0. */
  datatype Grading = Grading(
    status: Status,
    token: Option<Token>,
    leaseUntil: int,
    attempts: nat,
    nextAttemptAt: int,
    verdict: Option<Verdict>)

  /** The evaluation row.  All but `questions` are keys of its one column `metrics`, which every writer
      stores as a whole. */
  datatype Evaluation = Evaluation(
    questions: nat,
    answers: map<nat, string>,
    assessment: Tables.Assessment,
    grading: Option<Grading>,
    history: seq<Grading>,
    retries: nat)

  /** The verified result of the completed job, and the digest of its source. */
  datatype Grade = Grade(source: string, envelope: Tables.Envelope)

  /** An answer that is empty after stripping white space. */
  predicate Blank(s: string) {
    forall k :: 0 <= k < |s| ==> s[k] in " \t\n\r"
  }

  /** `defense_complete`. */
  predicate DefenseComplete(e: Evaluation) {
    e.questions > 0 && forall k: nat :: k < e.questions ==> k in e.answers && !Blank(e.answers[k])
  }

  /** Something other than white space is in it. */
  predicate Says(answer: string) {
    exists i :: 0 <= i < |answer| && answer[i] != ' ' && answer[i] != '\t' && answer[i] != '\n' && answer[i] != '\r'
  }

  /** There are questions, and every one has an answer that says something. */
  predicate EveryQuestionAnswered(e: Evaluation) {
    e.questions > 0 && forall k: nat :: k < e.questions ==> k in e.answers && Says(e.answers[k])
  }

  lemma BlankSaysNothing(answer: string)
    ensures Blank(answer) <==> !Says(answer)
  {
    var spaces := " \t\n\r";
    assert forall c: char :: c in spaces <==> c == spaces[0] || c == spaces[1] || c == spaces[2] || c == spaces[3];
    if !Blank(answer) {
      var i :| 0 <= i < |answer| && answer[i] !in spaces;
      assert Says(answer);
    }
  }

  lemma CompleteIffAnswered(e: Evaluation)
    ensures DefenseComplete(e) <==> EveryQuestionAnswered(e)
  {
    forall k | k in e.answers ensures Blank(e.answers[k]) <==> !Says(e.answers[k]) {
      BlankSaysNothing(e.answers[k]);
    }
  }

  /** The answers to the first n questions, in order of their indices. */
  function Listed(answers: map<nat, string>, n: nat): Tables.Answers {
    if n == 0 then []
    else Listed(answers, n - 1) + if n - 1 in answers then [(n - 1, answers[n - 1])] else []
  }

  /** `queue_state`. */
  function QueueState(e: Evaluation): Grading {
    Grading(if DefenseComplete(e) then Queued else WaitingDefense, None, 0, 0, 0, None)
  }

  function Attempts(e: Evaluation): nat {
    if e.grading.Some? then e.grading.value.attempts else 0
  }

  function LastFive(history: seq<Grading>): seq<Grading> {
    if |history| <= MAX_HISTORY then history else history[|history| - MAX_HISTORY..]
  }

  // ---------- The worker's transactions ----------

  predicate LeaseHeld(e: Evaluation, now: int) {
    e.grading.Some? && e.grading.value.status == Running && e.grading.value.leaseUntil > now
  }

  predicate BackedOff(e: Evaluation, now: int) {
    e.grading.Some? && e.grading.value.nextAttemptAt > now
  }

  predicate MayClaim(e: Evaluation, now: int) {
    !LeaseHeld(e, now) && !BackedOff(e, now) && DefenseComplete(e) && Attempts(e) < MAX_ATTEMPTS
  }

  /** A worker's locked visit to one candidate row. */
  function Visited(e: Evaluation, token: Token, now: int): Evaluation {
    if LeaseHeld(e, now) || BackedOff(e, now) then e
    else if !DefenseComplete(e) then e.(grading := Some(QueueState(e)))
    else if Attempts(e) >= MAX_ATTEMPTS then
      e.(grading := Some(e.grading.value.(status := NeedsReview)))
    else e.(grading := Some(Grading(Running, Some(token), now + LEASE_SECONDS, Attempts(e) + 1, 0, None)))
  }

  /** What a worker keeps of its claim, and the packet it read afterwards for judging. */
  datatype Claim = Claim(packet: Reading, attempts: nat, read: Option<Reading>)

  predicate MayPublish(e: Evaluation, token: Token, claim: Claim, now: int) {
    && e.grading.Some?
    && e.grading.value.token == Some(token)
    && e.grading.value.leaseUntil > now
    && e.assessment.packetDigest == claim.packet.digest
  }

  datatype Judgment = Judgment(outcome: string, rubric: string, prompt: string)

  /** The final state a worker computes, stored beside packet `at`: a verdict, or a retry when judging
      raised. */
  function Final(claim: Claim, judged: Option<Judgment>, now: int, at: nat): Grading {
    if judged.Some? && claim.read.Some? then
      var j := judged.value;
      Grading(Judged(j.outcome), None, 0, claim.attempts, 0,
              Some(Verdict(claim.packet.digest, j.rubric, j.prompt, claim.packet.at, claim.read.value, at)))
    else
      var status := if claim.attempts < MAX_ATTEMPTS then RetryPending else NeedsReview;
      Grading(status, None, 0, claim.attempts, now + RETRY_SECONDS, None)
  }

  function Published(e: Evaluation, final: Grading): Evaluation
    requires e.grading.Some?
  {
    var history := if e.grading.value.verdict.Some? then e.history + [e.grading.value] else e.history;
    e.(history := LastFive(history), grading := Some(final))
  }

  // ---------- The other writers ----------

  predicate AcceptsAnswer(e: Evaluation, index: nat, answer: string) {
    index < e.questions && !Blank(answer)
  }

  /** `post_defend_answer`: the packet's statements are replaced by the answers; with automatic grading
      on, the grading state starts over, and with it off, it stays, a worker's token included. */
  function Defended(e: Evaluation, index: nat, answer: string, auto: bool): Evaluation {
    var answers := e.answers[index := answer];
    var revised := e.(answers := answers, assessment := Tables.Revise(e.assessment, Listed(answers, e.questions)));
    if !auto then revised
    else
      var judged := e.grading.Some? && e.grading.value.verdict.Some?;
      revised.(history := if judged then LastFive(e.history + [e.grading.value]) else e.history,
               grading := Some(QueueState(revised)))
  }

  function Reviewed(a: Tables.Assessment, grade: Grade): Tables.Assessment {
    Tables.Reassembled(a, grade.source, grade.envelope)
  }

  /** A request of the feedback route: after its first write it keeps the digest it stored; after its
      last read, the row it read, which it will write back. */
  datatype Feedback = Storing(revision: Digest) | Captured(row: Evaluation)

  predicate MayRetry(e: Evaluation) {
    && DefenseComplete(e)
    && e.grading.Some?
    && (e.grading.value.status == NeedsReview || e.grading.value.status == RetryPending)
    && e.retries < 1
  }

  /** The owner's retry request. */
  function Retried(e: Evaluation): Evaluation
    requires e.grading.Some?
  {
    e.(history := LastFive(e.history + [e.grading.value]), retries := e.retries + 1, grading := Some(QueueState(e)))
  }

  /** `candidate_auto_assessment`: the verdict a candidate is shown, for the present versions. */
  function Shown(e: Evaluation, auto: bool, rubric: string, prompt: string): Option<Verdict> {
    if auto && e.grading.Some? && e.grading.value.verdict.Some? &&
       e.grading.value.verdict.value.packetDigest == e.assessment.packetDigest &&
       e.grading.value.verdict.value.rubric == rubric && e.grading.value.verdict.value.prompt == prompt
    then e.grading.value.verdict else None
  }

  // ---------- Interleavings ----------

  /** `digests` lists the digests of the packets the row has had, in order; `published` records which
      claims have published. */
  datatype World = World(
    row: Evaluation,
    digests: seq<Digest>,
    claims: map<Token, Claim>,
    published: seq<Token>,
    feedbacks: map<FeedbackId, Feedback>,
    clock: nat,
    grade: Grade)

  /** `auto` is what the serving process reads of its `grading_auto_enabled`.  A worker reads it once,
      before it visits, so a visit may come after it has been switched off.  `Store` is the feedback
      route's first write, under locks; `Reread` its last read and `Save` its second write are under
      none, and others may act between them. */
  datatype Event =
    | Tick(seconds: nat)
    | Visit(token: Token)
    | ReadBundle(token: Token)
    | Publish(token: Token, judged: Option<Judgment>, started: int)
    | Defend(index: nat, answer: string, auto: bool)
    | Store(feedback: FeedbackId)
    | Reread(feedback: FeedbackId)
    | Save(feedback: FeedbackId)
    | Retry

  function Present(w: World): Reading {
    Reading(w.row.assessment.packetDigest, if w.digests == [] then 0 else |w.digests| - 1)
  }

  /** The row replaced, with its packet noted if that is another one. */
  function Written(w: World, row: Evaluation): World {
    var digest := row.assessment.packetDigest;
    w.(row := row, digests := if digest == w.row.assessment.packetDigest then w.digests else w.digests + [digest])
  }

  predicate MaySave(w: World, f: FeedbackId) {
    f in w.feedbacks && w.feedbacks[f].Captured?
  }

  function Step(w: World, e: Event): World {
    match e
    case Tick(seconds) => w.(clock := w.clock + seconds)
    case Visit(token) =>
      if token in w.claims then w
      else if MayClaim(w.row, w.clock)
      then w.(row := Visited(w.row, token, w.clock),
              claims := w.claims[token := Claim(Present(w), Attempts(w.row) + 1, None)])
      else w.(row := Visited(w.row, token, w.clock))
    case ReadBundle(token) =>
      if token !in w.claims then w
      else w.(claims := w.claims[token := w.claims[token].(read := Some(Present(w)))])
    case Publish(token, judged, started) =>
      if token !in w.claims || started > w.clock || !MayPublish(w.row, token, w.claims[token], w.clock) then w
      else w.(row := Published(w.row, Final(w.claims[token], judged, started, Present(w).at)),
              published := w.published + [token])
    case Defend(index, answer, auto) =>
      if !AcceptsAnswer(w.row, index, answer) then w else Written(w, Defended(w.row, index, answer, auto))
    case Store(f) =>
      var stored := Reviewed(w.row.assessment, w.grade);
      Written(w, w.row.(assessment := stored)).(feedbacks := w.feedbacks[f := Storing(stored.packetDigest)])
    case Reread(f) =>
      if f in w.feedbacks && w.feedbacks[f] == Storing(Reviewed(w.row.assessment, w.grade).packetDigest)
      then w.(feedbacks := w.feedbacks[f := Captured(w.row)]) else w
    case Save(f) =>
      if MaySave(w, f) then Written(w, w.feedbacks[f].row).(feedbacks := w.feedbacks - {f}) else w
    case Retry => if MayRetry(w.row) then w.(row := Retried(w.row)) else w
  }

  function Run(w: World, events: seq<Event>): World {
    if events == [] then w else Step(Run(w, events[..|events| - 1]), events[|events| - 1])
  }

  // ---------- The invariant ----------

  ghost predicate ReadingOk(digests: seq<Digest>, r: Reading) {
    r.at < |digests| && digests[r.at] == r.digest
  }

  ghost predicate ClaimOk(digests: seq<Digest>, c: Claim) {
    ReadingOk(digests, c.packet) &&
      (c.read.Some? ==> ReadingOk(digests, c.read.value) && c.packet.at <= c.read.value.at)
  }

  /** A verdict was read between its claim and its publication, and is labelled with the digest the
      packet had at both. */
  ghost predicate VerdictOk(digests: seq<Digest>, v: Verdict) {
    && v.claimedAt <= v.read.at <= v.publishedAt < |digests|
    && digests[v.claimedAt] == v.packetDigest == digests[v.publishedAt]
    && digests[v.read.at] == v.read.digest
  }

  /** A token belongs to a claim at the attempt of the state, and a state with a token has no verdict. */
  ghost predicate GradingOk(w: World, g: Grading) {
    && g.attempts <= MAX_ATTEMPTS
    && (g.status == Running ==> g.token.Some?)
    && (g.token.Some? ==>
          && (g.status == Running || g.leaseUntil <= w.clock)
          && g.verdict.None?
          && g.token.value in w.claims && w.claims[g.token.value].attempts == g.attempts)
    && (g.verdict.Some? ==> VerdictOk(w.digests, g.verdict.value))
  }

  /** The packet's statements are the answers, and its digest is the packet's. */
  ghost predicate AssessmentOk(e: Evaluation) {
    && e.assessment.packetDigest == Tables.OfPacket(e.assessment.packet)
    && Tables.Only(Tables.CandidateStatement, e.assessment.packet.evidence) ==
       Tables.Statements(Listed(e.answers, e.questions))
  }

  /** A row, present or captured. */
  ghost predicate RowOk(w: World, e: Evaluation) {
    && e.questions == w.row.questions
    && |e.history| <= MAX_HISTORY
    && AssessmentOk(e)
    && (e.grading.Some? ==> GradingOk(w, e.grading.value))
    && (e.grading.Some? && e.grading.value.status == Queued ==> DefenseComplete(e))
  }

  ghost predicate Good(w: World) {
    && w.digests != [] && w.digests[|w.digests| - 1] == w.row.assessment.packetDigest
    && (forall t :: t in w.claims ==> ClaimOk(w.digests, w.claims[t]))
    && RowOk(w, w.row)
    && (forall f :: MaySave(w, f) ==> RowOk(w, w.feedbacks[f].row))
  }

  ghost predicate Initial(w: World) {
    && w.digests == [w.row.assessment.packetDigest] && w.claims == map[] && w.published == [] && w.feedbacks == map[]
    && w.row.grading.None? && w.row.history == [] && AssessmentOk(w.row)
  }

  /** What never shrinks. */
  ghost predicate Extends(w: World, w': World) {
    && w'.row.questions == w.row.questions
    && w.digests <= w'.digests && w.clock <= w'.clock
    && (forall t :: t in w.claims ==>
          t in w'.claims && w'.claims[t].packet == w.claims[t].packet && w'.claims[t].attempts == w.claims[t].attempts)
  }

  lemma RowStays(w: World, w': World, e: Evaluation)
    requires RowOk(w, e) && Extends(w, w')
    ensures RowOk(w', e)
  {
  }

  lemma ClaimStays(digests: seq<Digest>, digests': seq<Digest>, c: Claim)
    requires ClaimOk(digests, c) && digests <= digests'
    ensures ClaimOk(digests', c)
  {
  }

  lemma CapturesStay(w: World, w': World)
    requires Good(w) && Extends(w, w')
    requires forall f :: MaySave(w', f) ==> MaySave(w, f) && w'.feedbacks[f] == w.feedbacks[f]
    ensures forall f :: MaySave(w', f) ==> RowOk(w', w'.feedbacks[f].row)
  {
    forall f | MaySave(w', f) ensures RowOk(w', w'.feedbacks[f].row) {
      RowStays(w, w', w.feedbacks[f].row);
    }
  }

  /** A step that writes the row, with or without another packet, and issues no claim. */
  lemma WrittenGood(w: World, w': World, row: Evaluation)
    requires Good(w) && row.questions == w.row.questions
    requires w' == Written(w, row).(feedbacks := w'.feedbacks)
    requires forall f :: MaySave(w', f) ==> MaySave(w, f) && w'.feedbacks[f] == w.feedbacks[f]
    requires RowOk(Written(w, row), row)
    ensures Good(w')
  {
    forall t | t in w'.claims ensures ClaimOk(w'.digests, w'.claims[t]) {
      ClaimStays(w.digests, w'.digests, w.claims[t]);
    }
    CapturesStay(w, w');
  }

  lemma PublishGood(w: World, token: Token, judged: Option<Judgment>, started: int)
    requires Good(w)
    ensures Good(Step(w, Publish(token, judged, started)))
  {
    var w' := Step(w, Publish(token, judged, started));
    if w' != w {
      assert ClaimOk(w.digests, w.claims[token]);
      CapturesStay(w, w');
    }
  }

  lemma VisitClaims(w: World, token: Token)
    requires Good(w)
    ensures var w' := Step(w, Visit(token)); forall t :: t in w'.claims ==> ClaimOk(w'.digests, w'.claims[t])
  {
    var w' := Step(w, Visit(token));
    forall t | t in w'.claims ensures ClaimOk(w'.digests, w'.claims[t]) {
      if t in w.claims { assert ClaimOk(w.digests, w.claims[t]); }
    }
  }

  lemma VisitLeavesRowOk(w: World, token: Token)
    requires Good(w)
    ensures RowOk(Step(w, Visit(token)), Step(w, Visit(token)).row)
  {
    assert RowOk(w, w.row);
  }

  lemma VisitExtends(w: World, token: Token)
    ensures var w' := Step(w, Visit(token));
            && Extends(w, w') && w'.digests == w.digests && w'.feedbacks == w.feedbacks
            && w'.row.assessment == w.row.assessment
  {
  }

  lemma VisitGood(w: World, token: Token)
    requires Good(w)
    ensures Good(Step(w, Visit(token)))
  {
    VisitClaims(w, token);
    VisitLeavesRowOk(w, token);
    VisitExtends(w, token);
    CapturesStay(w, Step(w, Visit(token)));
  }

  lemma ReadGood(w: World, token: Token)
    requires Good(w)
    ensures Good(Step(w, ReadBundle(token)))
  {
    var w' := Step(w, ReadBundle(token));
    forall t | t in w'.claims ensures ClaimOk(w'.digests, w'.claims[t]) {
      assert ClaimOk(w.digests, w.claims[t]);
    }
    RowStays(w, w', w.row);
    CapturesStay(w, w');
  }

  lemma DefendGood(w: World, index: nat, answer: string, auto: bool)
    requires Good(w) && AcceptsAnswer(w.row, index, answer)
    ensures Good(Step(w, Defend(index, answer, auto)))
  {
    var row := Defended(w.row, index, answer, auto);
    Tables.ReviseKeepsGrade(w.row.assessment, Listed(row.answers, row.questions), Tables.CandidateStatement);
    var w' := Step(w, Defend(index, answer, auto));
    if !auto { RowStays(w, w', w.row); }
    WrittenGood(w, w', row);
  }

  lemma StoreGood(w: World, f: FeedbackId)
    requires Good(w)
    ensures Good(Step(w, Store(f)))
  {
    var row := w.row.(assessment := Reviewed(w.row.assessment, w.grade));
    Tables.ReassemblyGrades(w.row.assessment, w.grade.source, w.grade.envelope, Tables.CandidateStatement);
    RowStays(w, Written(w, row), w.row);
    WrittenGood(w, Step(w, Store(f)), row);
  }

  lemma RereadGood(w: World, f: FeedbackId)
    requires Good(w)
    ensures Good(Step(w, Reread(f)))
  {
    var w' := Step(w, Reread(f));
    RowStays(w, w', w.row);
    forall g | MaySave(w', g) ensures RowOk(w', w'.feedbacks[g].row) {
      if MaySave(w, g) { RowStays(w, w', w.feedbacks[g].row); }
    }
  }

  lemma SaveGood(w: World, f: FeedbackId)
    requires Good(w) && MaySave(w, f)
    ensures Good(Step(w, Save(f)))
  {
    var row := w.feedbacks[f].row;
    RowStays(w, Written(w, row), row);
    WrittenGood(w, Step(w, Save(f)), row);
  }

  lemma RetryGood(w: World)
    requires Good(w)
    ensures Good(Step(w, Retry))
  {
    if MayRetry(w.row) { CapturesStay(w, Step(w, Retry)); }
  }

  lemma TickGood(w: World, seconds: nat)
    requires Good(w)
    ensures Good(Step(w, Tick(seconds)))
  {
    RowStays(w, Step(w, Tick(seconds)), w.row);
    CapturesStay(w, Step(w, Tick(seconds)));
  }

  lemma StepGood(w: World, e: Event)
    requires Good(w)
    ensures Good(Step(w, e))
  {
    match e
    case Publish(token, judged, started) => PublishGood(w, token, judged, started);
    case Defend(index, answer, auto) => if AcceptsAnswer(w.row, index, answer) { DefendGood(w, index, answer, auto); }
    case Store(f) => StoreGood(w, f);
    case Reread(f) => RereadGood(w, f);
    case Save(f) => if MaySave(w, f) { SaveGood(w, f); }
    case Visit(token) => VisitGood(w, token);
    case ReadBundle(token) => ReadGood(w, token);
    case Tick(seconds) => TickGood(w, seconds);
    case Retry => RetryGood(w);
  }

  lemma {:induction false} RunGood(w: World, events: seq<Event>)
    requires Good(w)
    ensures Good(Run(w, events))
  {
    if events == [] {
    } else {
      RunGood(w, events[..|events| - 1]);
      StepGood(Run(w, events[..|events| - 1]), events[|events| - 1]);
    }
  }

  // ---------- What is queued, and that it is taken up ----------

  /** What a state that starts over says of the defense. */
  ghost predicate StartsOver(e: Evaluation) {
    && e.grading.Some? && e.grading.value.attempts == 0 && e.grading.value.token.None?
    && e.grading.value.leaseUntil == 0 && e.grading.value.verdict.None? && e.grading.value.nextAttemptAt == 0
    && (e.grading.value.status == Queued <==> EveryQuestionAnswered(e))
    && (e.grading.value.status == WaitingDefense <==> !EveryQuestionAnswered(e))
  }

  lemma QueueStateStartsOver(e: Evaluation)
    ensures StartsOver(e.(grading := Some(QueueState(e))))
  {
    CompleteIffAnswered(e);
    CompleteIffAnswered(e.(grading := Some(QueueState(e))));
  }

  lemma AnswerStartsOver(e: Evaluation, index: nat, answer: string)
    ensures StartsOver(Defended(e, index, answer, true))
  {
    var started := Defended(e, index, answer, true);
    QueueStateStartsOver(started);
    assert started == started.(grading := Some(QueueState(started)));
  }

  lemma RetryStartsOver(e: Evaluation)
    requires e.grading.Some?
    ensures StartsOver(Retried(e))
  {
    QueueStateStartsOver(Retried(e));
    assert Retried(e) == Retried(e).(grading := Some(QueueState(Retried(e))));
  }

  /** After an accepted answer under automatic grading, the owner's retry, or a worker's visit to a row
      without a complete defense, the state starts over: queued exactly if every question is answered,
      and else waiting for the defense. */
  lemma StartingOverTellsDefense(w: World, index: nat, answer: string, token: Token)
    ensures index < w.row.questions && Says(answer) ==> StartsOver(Step(w, Defend(index, answer, true)).row)
    ensures MayRetry(w.row) ==> StartsOver(Step(w, Retry).row)
    ensures token !in w.claims && !LeaseHeld(w.row, w.clock) && !BackedOff(w.row, w.clock) ==>
              EveryQuestionAnswered(w.row) || StartsOver(Step(w, Visit(token)).row)
  {
    BlankSaysNothing(answer);
    AnswerStartsOver(w.row, index, answer);
    if MayRetry(w.row) { RetryStartsOver(w.row); }
    CompleteIffAnswered(w.row);
    QueueStateStartsOver(w.row);
  }

  /** In every reachable world a queued row has every question answered. */
  lemma QueuedIsAnswered(start: World, events: seq<Event>)
    requires Initial(start)
    ensures var e := Run(start, events).row;
            e.grading.Some? && e.grading.value.status == Queued ==> EveryQuestionAnswered(e)
  {
    RunGood(start, events);
    CompleteIffAnswered(Run(start, events).row);
  }

  /** The worker's candidate query, on the status. */
  predicate IsCandidate(e: Evaluation) {
    e.grading.None? || e.grading.value.status in {Queued, Running, RetryPending}
  }

  /** An accepted answer that completes the defense under automatic grading leaves a row that the query
      lists and that the next visit claims, as its first attempt, with a lease of six minutes. */
  lemma CompletedDefenseIsTakenUp(w: World, index: nat, answer: string, seconds: nat, token: Token)
    requires index < w.row.questions && Says(answer) && token !in w.claims
    requires EveryQuestionAnswered(w.row.(answers := w.row.answers[index := answer]))
    ensures var waiting := Step(Step(w, Defend(index, answer, true)), Tick(seconds));
            var taken := Step(waiting, Visit(token));
            && IsCandidate(waiting.row) && token in taken.claims
            && taken.row.grading == Some(Grading(Running, Some(token), w.clock + seconds + 360, 1, 0, None))
            && taken.row.answers == w.row.answers[index := answer]
  {
    BlankSaysNothing(answer);
    CompleteIffAnswered(w.row.(answers := w.row.answers[index := answer]));
    var defended := Step(w, Defend(index, answer, true));
    assert DefenseComplete(defended.row);
    assert MayClaim(Step(defended, Tick(seconds)).row, w.clock + seconds);
  }

  /** A visit in fields: a row whose holder's lease has not run out, or that is put off, stays; else an
      answered defense is claimed while it has attempts left, and is given up to review after them. */
  lemma VisitDecides(w: World, token: Token)
    requires token !in w.claims
    ensures w.row.grading.None? && EveryQuestionAnswered(w.row) ==>
              Step(w, Visit(token)).row ==
              w.row.(grading := Some(Grading(Running, Some(token), w.clock + 360, 1, 0, None)))
    ensures w.row.grading.Some? ==>
            var g, w' := w.row.grading.value, Step(w, Visit(token));
            var busy := (g.status == Running && g.leaseUntil > w.clock) || g.nextAttemptAt > w.clock;
            && (busy ==> w' == w)
            && (!busy && EveryQuestionAnswered(w.row) && g.attempts < 2 ==>
                  w'.row.grading == Some(Grading(Running, Some(token), w.clock + 360, g.attempts + 1, 0, None)))
            && (!busy && EveryQuestionAnswered(w.row) && g.attempts >= 2 ==>
                  w'.row.grading == Some(g.(status := NeedsReview)) && !IsCandidate(w'.row))
            && (token in w'.claims <==> !busy && EveryQuestionAnswered(w.row) && g.attempts < 2)
            && w'.row == w.row.(grading := w'.row.grading)
  {
    CompleteIffAnswered(w.row);
  }

  // ---------- What the other writers keep ----------

  /** The history after a state is added to it: at most five, the latest ones. */
  ghost predicate Remembers(before: seq<Grading>, g: Grading, after: seq<Grading>) {
    && |after| == (if |before| < 5 then |before| + 1 else 5)
    && after[|after| - 1] == g
    && forall k :: 0 <= k < |after| - 1 ==> after[k] == before[|before| - |after| + 1 + k]
  }

  /** An answer is taken exactly if its question exists and it says something.  Then it replaces the
      question's answer alone; with automatic grading on, a judged state goes to the history, and with
      it off, grading and history stay. */
  lemma AnswerDecides(w: World, index: nat, answer: string, auto: bool)
    ensures var w' := Step(w, Defend(index, answer, auto));
            && (index >= w.row.questions || !Says(answer) ==> w' == w)
            && (index < w.row.questions && Says(answer) ==>
                  && w'.row.answers == w.row.answers[index := answer]
                  && w'.row.retries == w.row.retries && w'.claims == w.claims
                  && (auto && w.row.grading.Some? && w.row.grading.value.verdict.Some? ==>
                        Remembers(w.row.history, w.row.grading.value, w'.row.history))
                  && (auto && w.row.grading.Some? && w.row.grading.value.verdict.None? ==>
                        w'.row.history == w.row.history)
                  && (!auto ==> w'.row.grading == w.row.grading && w'.row.history == w.row.history))
  {
    BlankSaysNothing(answer);
  }

  /** The owner's retry is taken exactly if the defense is complete, the state is final without a verdict
      or waits for another attempt, and there was no retry before. */
  lemma RetryDecides(w: World)
    ensures var w' := Step(w, Retry);
            && (w' != w <==> EveryQuestionAnswered(w.row) && w.row.retries == 0 && w.row.grading.Some? &&
                               w.row.grading.value.status in {NeedsReview, RetryPending})
            && (w' != w ==>
                  && w'.row.retries == 1 && Remembers(w.row.history, w.row.grading.value, w'.row.history)
                  && w'.row.answers == w.row.answers && w'.row.assessment == w.row.assessment
                  && w'.claims == w.claims && IsCandidate(w'.row))
  {
    CompleteIffAnswered(w.row);
  }

  // ---------- When a feedback's second write is harmless ----------

  /** A save finds the row as the route's last read left it: no write fell in between, or the writes that
      did have cancelled out. */
  ghost predicate CleanStep(w: World, e: Event) {
    e.Save? && MaySave(w, e.feedback) ==> w.feedbacks[e.feedback].row == w.row
  }

  ghost predicate CleanRun(w: World, events: seq<Event>) {
    events == [] ||
    (CleanRun(w, events[..|events| - 1]) && CleanStep(Run(w, events[..|events| - 1]), events[|events| - 1]))
  }

  function WithoutSaves(events: seq<Event>): seq<Event> {
    if events == [] then []
    else
      var front, last := events[..|events| - 1], events[|events| - 1];
      if last.Save? then WithoutSaves(front) else WithoutSaves(front) + [last]
  }

  /** The same but for the state of feedback requests. */
  ghost predicate SameForOthers(w: World, w': World) {
    w' == w.(feedbacks := w'.feedbacks)
  }

  lemma OthersIgnoreFeedbacks(w: World, w': World, e: Event)
    requires SameForOthers(w, w') && !e.Save?
    ensures SameForOthers(Step(w, e), Step(w', e))
  {
  }

  lemma {:induction false} CleanSavesDrop(w: World, events: seq<Event>)
    requires CleanRun(w, events)
    ensures SameForOthers(Run(w, events), Run(w, WithoutSaves(events)))
  {
    if events == [] {
    } else {
      var front, last := events[..|events| - 1], events[|events| - 1];
      CleanSavesDrop(w, front);
      if !last.Save? {
        OthersIgnoreFeedbacks(Run(w, front), Run(w, WithoutSaves(front)), last);
        assert WithoutSaves(events)[..|WithoutSaves(events)| - 1] == WithoutSaves(front);
      }
    }
  }

  /** The row at every point of a run is what it would be without the feedbacks' second writes. */
  ghost predicate SavesInvisible(w: World, events: seq<Event>) {
    forall n :: 0 <= n <= |events| ==> Run(w, events[..n]).row == Run(w, WithoutSaves(events[..n])).row
  }

  lemma InvisibleFront(w: World, events: seq<Event>)
    requires events != [] && SavesInvisible(w, events)
    ensures SavesInvisible(w, events[..|events| - 1])
  {
    var front := events[..|events| - 1];
    forall n | 0 <= n <= |front| ensures Run(w, front[..n]).row == Run(w, WithoutSaves(front[..n])).row {
      assert front[..n] == events[..n];
    }
  }

  lemma {:induction false} InvisibleIsClean(w: World, events: seq<Event>)
    requires SavesInvisible(w, events)
    ensures CleanRun(w, events)
  {
    if events == [] {
    } else {
      var front, last := events[..|events| - 1], events[|events| - 1];
      InvisibleFront(w, events);
      InvisibleIsClean(w, front);
      if last.Save? {
        InvisibleEnd(w, events);
        InvisibleEnd(w, front);
        UnseenSaveIsClean(Run(w, front), last);
      }
    }
  }

  lemma InvisibleEnd(w: World, events: seq<Event>)
    requires SavesInvisible(w, events)
    ensures Run(w, events).row == Run(w, WithoutSaves(events)).row
  {
    assert events[..|events|] == events;
  }

  lemma UnseenSaveIsClean(w: World, e: Event)
    requires e.Save? && Step(w, e).row == w.row
    ensures CleanStep(w, e)
  {
  }

  lemma {:induction false} CleanPrefix(w: World, events: seq<Event>, n: nat)
    requires n <= |events| && CleanRun(w, events)
    ensures CleanRun(w, events[..n])
  {
    if n < |events| {
      CleanPrefix(w, events[..|events| - 1], n);
      assert events[..|events| - 1][..n] == events[..n];
    } else {
      assert events[..n] == events;
    }
  }

  /** Exactly when the feedback route loses no update: under every interleaving, a run shows the row it
      would show without the second writes, at every point, if and only if each of those writes finds
      the row as its last read left it. */
  lemma SavesInvisibleIffClean(w: World, events: seq<Event>)
    ensures SavesInvisible(w, events) <==> CleanRun(w, events)
  {
    if SavesInvisible(w, events) {
      InvisibleIsClean(w, events);
    }
    if CleanRun(w, events) {
      forall n | 0 <= n <= |events| ensures Run(w, events[..n]).row == Run(w, WithoutSaves(events[..n])).row {
        CleanPrefix(w, events, n);
        CleanSavesDrop(w, events[..n]);
      }
    }
  }

  // ---------- Fencing, while saves are clean ----------

  ghost predicate Held(e: Evaluation, token: Token, until: int) {
    && e.grading.Some? && e.grading.value.status == Running
    && e.grading.value.token == Some(token) && e.grading.value.leaseUntil == until
  }

  /** The steps that may end a hold early. */
  ghost predicate EndsHold(e: Event, token: Token) {
    (e.Defend? && e.auto) || (e.Publish? && e.token == token)
  }

  /** At every point of the run the row is held. */
  ghost predicate HeldThroughout(w: World, events: seq<Event>, token: Token, until: int) {
    Held(Run(w, events).row, token, until) &&
      (events == [] || HeldThroughout(w, events[..|events| - 1], token, until))
  }

  /** Every row that a save of the run writes back was held when it was read. */
  ghost predicate SavesHeld(w: World, events: seq<Event>, token: Token, until: int) {
    events == [] ||
    (var before, last := Run(w, events[..|events| - 1]), events[|events| - 1];
     SavesHeld(w, events[..|events| - 1], token, until) &&
       (last.Save? && MaySave(before, last.feedback) ==> Held(before.feedbacks[last.feedback].row, token, until)))
  }

  lemma StepKeepsHold(w: World, e: Event, token: Token, until: int)
    requires Held(w.row, token, until) && !EndsHold(e, token) && w.clock < until
    ensures Held(Step(w, e).row, token, until) <==>
            (e.Save? && MaySave(w, e.feedback) ==> Held(w.feedbacks[e.feedback].row, token, until))
    ensures Step(w, e).claims.Keys == w.claims.Keys
  {
  }

  lemma StepKeepsTime(w: World, e: Event)
    ensures w.clock <= Step(w, e).clock
  {
  }

  lemma {:induction false} HoldLastsIff(w: World, events: seq<Event>, token: Token, until: int)
    requires Held(w.row, token, until) && Run(w, events).clock < until
    requires forall k :: 0 <= k < |events| ==> !EndsHold(events[k], token)
    ensures HeldThroughout(w, events, token, until) <==> SavesHeld(w, events, token, until)
    ensures HeldThroughout(w, events, token, until) ==> Run(w, events).claims.Keys == w.claims.Keys
  {
    if events == [] {
    } else {
      var front, last := events[..|events| - 1], events[|events| - 1];
      StepKeepsTime(Run(w, front), last);
      HoldLastsIff(w, front, token, until);
      if HeldThroughout(w, front, token, until) {
        HeldAtEnd(w, front, token, until);
        StepKeepsHold(Run(w, front), last, token, until);
      }
    }
  }

  lemma HeldAtEnd(w: World, events: seq<Event>, token: Token, until: int)
    requires HeldThroughout(w, events, token, until)
    ensures Held(Run(w, events).row, token, until)
  {
  }

  /** From a claim until its lease runs out, short of a defense revision under automatic grading, the
      token stays on the row exactly if every row that a save writes back already carried the claim when
      it was read; and then nobody else claims. */
  lemma LeaseIsExclusiveIff(w: World, token: Token, events: seq<Event>)
    requires MayClaim(w.row, w.clock) && token !in w.claims
    requires Run(Step(w, Visit(token)), events).clock < w.clock + LEASE_SECONDS
    requires forall k :: 0 <= k < |events| ==> !EndsHold(events[k], token)
    ensures var claimed, until := Step(w, Visit(token)), w.clock + LEASE_SECONDS;
            && (HeldThroughout(claimed, events, token, until) <==> SavesHeld(claimed, events, token, until))
            && (SavesHeld(claimed, events, token, until) ==>
                  Run(claimed, events).claims.Keys == w.claims.Keys + {token})
  {
    HoldLastsIff(Step(w, Visit(token)), events, token, w.clock + LEASE_SECONDS);
  }

  /** Each claim has published at most once, and the token on the row not yet. */
  ghost predicate Once(w: World) {
    && (forall t :: t in w.published ==> t in w.claims)
    && (forall i, j :: 0 <= i < j < |w.published| ==> w.published[i] != w.published[j])
    && (w.row.grading.Some? && w.row.grading.value.token.Some? ==> w.row.grading.value.token.value !in w.published)
  }

  lemma StepOnce(w: World, e: Event)
    requires Once(w) && CleanStep(w, e)
    ensures Once(Step(w, e))
  {
    if e.Publish? && Step(w, e) != w {
      assert Step(w, e).published[..|w.published|] == w.published;
    }
  }

  lemma {:induction false} ClaimsPublishOnce(w: World, events: seq<Event>)
    requires Once(w) && CleanRun(w, events)
    ensures Once(Run(w, events))
  {
    if events == [] {
    } else {
      ClaimsPublishOnce(w, events[..|events| - 1]);
      StepOnce(Run(w, events[..|events| - 1]), events[|events| - 1]);
    }
  }

  ghost predicate Carries(e: Evaluation, token: Token) {
    e.grading.Some? && e.grading.value.token == Some(token)
  }

  /** At no point of the run the token is on the row. */
  ghost predicate OffThroughout(w: World, events: seq<Event>, token: Token) {
    !Carries(Run(w, events).row, token) && (events == [] || OffThroughout(w, events[..|events| - 1], token))
  }

  /** No row that a save of the run writes back carries the token. */
  ghost predicate SavesWithout(w: World, events: seq<Event>, token: Token) {
    events == [] ||
    (var before, last := Run(w, events[..|events| - 1]), events[|events| - 1];
     SavesWithout(w, events[..|events| - 1], token) &&
       (last.Save? && MaySave(before, last.feedback) ==> !Carries(before.feedbacks[last.feedback].row, token)))
  }

  lemma StepStaysOff(w: World, e: Event, token: Token)
    requires token in w.claims && !Carries(w.row, token)
    ensures token in Step(w, e).claims && (token in Step(w, e).published <==> token in w.published)
    ensures !Carries(Step(w, e).row, token) <==>
            (e.Save? && MaySave(w, e.feedback) ==> !Carries(w.feedbacks[e.feedback].row, token))
  {
  }

  lemma {:induction false} StaysOffIff(w: World, events: seq<Event>, token: Token)
    requires token in w.claims && !Carries(w.row, token)
    ensures OffThroughout(w, events, token) <==> SavesWithout(w, events, token)
    ensures OffThroughout(w, events, token) ==>
              token in Run(w, events).claims && (token in Run(w, events).published <==> token in w.published)
  {
    if events == [] {
    } else {
      var front, last := events[..|events| - 1], events[|events| - 1];
      StaysOffIff(w, front, token);
      if OffThroughout(w, front, token) {
        OffAtEnd(w, front, token);
        StepStaysOff(Run(w, front), last, token);
      }
    }
  }

  lemma OffAtEnd(w: World, events: seq<Event>, token: Token)
    requires OffThroughout(w, events, token)
    ensures !Carries(Run(w, events).row, token)
  {
  }

  /** With automatic grading on, a defense revision takes the token away from any worker in flight, and
      it stays off exactly if no save writes back a row that carries it; then nothing the worker does
      publishes, even if the packet returns to the digest it claimed. */
  lemma RevisionFencesOutIff(w: World, revision: Event, events: seq<Event>, token: Token)
    requires token in w.claims && revision.Defend? && revision.auto
    requires AcceptsAnswer(w.row, revision.index, revision.answer)
    ensures var revised := Step(w, revision);
            && (OffThroughout(revised, events, token) <==> SavesWithout(revised, events, token))
            && (SavesWithout(revised, events, token) ==>
                  (token in Run(revised, events).published <==> token in w.published))
  {
    StaysOffIff(Step(w, revision), events, token);
  }

  ghost predicate Restarts(e: Event) {
    (e.Defend? && e.auto) || e.Retry?
  }

  /** One step without a restart: as many new claims as new attempts, and the defense stays complete. */
  lemma StepUsesAttempts(w: World, e: Event)
    requires Good(w) && DefenseComplete(w.row) && !Restarts(e) && CleanStep(w, e)
    ensures |Step(w, e).claims| - |w.claims| == Attempts(Step(w, e).row) - Attempts(w.row)
    ensures DefenseComplete(Step(w, e).row)
  {
    if e.Visit? {
      VisitUsesAttempt(w, e.token);
    } else {
      OnlyVisitsClaim(w, e);
      SameKeysSameSize(Step(w, e).claims, w.claims);
      OthersKeepAttempts(w, e);
    }
  }

  lemma OthersKeepAttempts(w: World, e: Event)
    requires Good(w) && DefenseComplete(w.row) && !Restarts(e) && CleanStep(w, e) && !e.Visit?
    ensures Attempts(Step(w, e).row) == Attempts(w.row) && DefenseComplete(Step(w, e).row)
  {
  }

  lemma VisitUsesAttempt(w: World, token: Token)
    requires DefenseComplete(w.row)
    ensures var w' := Step(w, Visit(token));
            |w'.claims| - |w.claims| == Attempts(w'.row) - Attempts(w.row) && DefenseComplete(w'.row)
  {
  }

  lemma OnlyVisitsClaim(w: World, e: Event)
    requires !e.Visit?
    ensures Step(w, e).claims.Keys == w.claims.Keys
  {
  }

  /** A complete defense stays complete without a restart, and every claim uses up one attempt, so at
      most two claims are made between two restarts. */
  lemma {:induction false} ClaimsAreBounded(w: World, events: seq<Event>)
    requires Good(w) && DefenseComplete(w.row) && CleanRun(w, events)
    requires forall k :: 0 <= k < |events| ==> !Restarts(events[k])
    ensures var later := Run(w, events);
            && Good(later) && DefenseComplete(later.row)
            && |later.claims| - |w.claims| == Attempts(later.row) - Attempts(w.row) <= 2
  {
    if events == [] {
    } else {
      var front := events[..|events| - 1];
      ClaimsAreBounded(w, front);
      StepGood(Run(w, front), events[|events| - 1]);
      StepUsesAttempts(Run(w, front), events[|events| - 1]);
    }
  }

  lemma SameKeysSameSize(a: map<Token, Claim>, b: map<Token, Claim>)
    requires a.Keys == b.Keys
    ensures |a| == |b|
  {
    assert |a| == |a.Keys| && |b| == |b.Keys|;
  }

  /** After a retry no other is taken, over every run of clean saves. */
  lemma {:induction false} RetriedOnce(w: World, events: seq<Event>)
    requires w.row.retries >= 1 && CleanRun(w, events)
    ensures Run(w, events).row.retries >= 1 && Step(Run(w, events), Retry) == Run(w, events)
  {
    if events == [] {
    } else {
      RetriedOnce(w, events[..|events| - 1]);
    }
  }

  // ---------- What every run keeps ----------

  /** Publication is fenced: it needs the current token, an unexpired lease, and the packet digest of
      the claim; and everything else on the row stays, the history included, since a running state
      never carries a verdict. */
  lemma PublishIsFenced(w: World, token: Token, judged: Option<Judgment>, started: int)
    requires Good(w) && Step(w, Publish(token, judged, started)) != w
    ensures w.row.grading.Some? && w.row.grading.value.token == Some(token) && LeaseHeld(w.row, w.clock)
    ensures token in w.claims && w.claims[token].packet.digest == w.row.assessment.packetDigest
    ensures w.claims[token].packet.at <= Present(w).at
    ensures w.digests[w.claims[token].packet.at] == w.digests[Present(w).at]
    ensures var final := Final(w.claims[token], judged, started, Present(w).at);
            Step(w, Publish(token, judged, started)).row == w.row.(grading := Some(final))
  {
    assert ClaimOk(w.digests, w.claims[token]);
  }

  /** A publication goes through exactly if its token is on the row, its lease has not run out, and the
      packet has the digest it had at the claim; then the verdict is labelled with that digest, and
      its state carries neither token nor delay. */
  lemma JudgmentIsStored(w: World, token: Token, j: Judgment, started: int)
    requires token in w.claims && w.claims[token].read.Some? && started <= w.clock
    ensures var claim, w' := w.claims[token], Step(w, Publish(token, Some(j), started));
            && (w' != w <==> w.row.grading.Some? && w.row.grading.value.token == Some(token) &&
                               w.row.grading.value.leaseUntil > w.clock &&
                               w.row.assessment.packetDigest == claim.packet.digest)
            && (w' != w ==>
                  var g := w'.row.grading.value;
                  && g.status == Judged(j.outcome) && g.token.None? && g.leaseUntil == 0 && g.nextAttemptAt == 0
                  && g.attempts == claim.attempts && g.verdict.Some?
                  && g.verdict.value.packetDigest == claim.packet.digest
                  && g.verdict.value.rubric == j.rubric && g.verdict.value.prompt == j.prompt
                  && g.verdict.value.read == claim.read.value
                  && w'.published == w.published + [token])
  {
    if MayPublish(w.row, token, w.claims[token], w.clock) {
      assert |Step(w, Publish(token, Some(j), started)).published| == |w.published| + 1;
    }
  }

  /** The packet came back, by position `to`, to the digest it had at `from` after having another. */
  ghost predicate Returned(digests: seq<Digest>, from: nat, to: nat)
    requires from <= to < |digests|
  {
    exists j, k :: from < j < k <= to && digests[j] != digests[from] && digests[k] == digests[from]
  }

  lemma OtherReadingReturned(digests: seq<Digest>, v: Verdict)
    requires VerdictOk(digests, v)
    ensures v.read.digest != v.packetDigest ==> Returned(digests, v.claimedAt, v.publishedAt)
  {
    if v.read.digest != v.packetDigest {
      assert v.claimedAt < v.read.at < v.publishedAt;
    }
  }

  /** In every reachable world, whatever the feedback route wrote back, attempts are within bounds, and a
      verdict shown to a candidate carries the digest of the packet as it is now, as it was at the claim
      and as it was at the publication.  It was computed from that packet unless the packet had
      meanwhile returned to a digest it had left. */
  lemma ShownIsCurrent(start: World, events: seq<Event>, rubric: string, prompt: string)
    requires Initial(start)
    ensures var w := Run(start, events);
            && Attempts(w.row) <= MAX_ATTEMPTS
            && (Shown(w.row, true, rubric, prompt).Some? ==>
                  var v := Shown(w.row, true, rubric, prompt).value;
                  && VerdictOk(w.digests, v) && v.packetDigest == w.row.assessment.packetDigest
                  && v.rubric == rubric && v.prompt == prompt
                  && (!Returned(w.digests, v.claimedAt, v.publishedAt) ==>
                        v.read.digest == w.row.assessment.packetDigest))
  {
    RunGood(start, events);
    var w := Run(start, events);
    if Shown(w.row, true, rubric, prompt).Some? {
      OtherReadingReturned(w.digests, Shown(w.row, true, rubric, prompt).value);
    }
  }

  /** A failed attempt that publishes puts off the next one for a minute, unless it was the last. */
  lemma FailureBacksOff(w: World, token: Token, started: int, other: Token)
    requires Good(w) && Step(w, Publish(token, None, started)) != w
    ensures var w' := Step(w, Publish(token, None, started));
            && (w.claims[token].attempts < 2 <==> w'.row.grading.value.status == RetryPending)
            && (w.claims[token].attempts >= 2 <==> w'.row.grading.value.status == NeedsReview)
            && (w'.clock < started + 60 ==> Step(w', Visit(other)) == w')
            && (w'.clock >= started + 60 && w.claims[token].attempts < 2 ==> !BackedOff(w'.row, w'.clock))
            && (w.claims[token].attempts >= 2 ==> !MayClaim(w'.row, w'.clock))
            && w'.row.grading.value.token.None? && w'.row.grading.value.leaseUntil == 0
  {
  }

  // ---------- What a save can undo ----------

  /** A second answer to a question makes another packet. */
  lemma AnswerChangesPacket(e: Evaluation, index: nat, answer: string, auto: bool)
    requires AssessmentOk(e) && index < e.questions && (index in e.answers ==> e.answers[index] != answer)
    ensures Defended(e, index, answer, auto).assessment.packetDigest != e.assessment.packetDigest
  {
    var answers := e.answers[index := answer];
    Tables.ReviseKeepsGrade(e.assessment, Listed(answers, e.questions), Tables.CandidateStatement);
    ListedDiffer(e.answers, answers, e.questions, index);
    Tables.StatementsDiffer(Listed(e.answers, e.questions), Listed(answers, e.questions));
  }

  lemma {:induction false} InListed(answers: map<nat, string>, n: nat, index: nat, answer: string)
    ensures (index, answer) in Listed(answers, n) <==> index < n && index in answers && answers[index] == answer
  {
    if n == 0 {
    } else {
      InListed(answers, n - 1, index, answer);
    }
  }

  lemma ListedDiffer(before: map<nat, string>, after: map<nat, string>, n: nat, index: nat)
    requires index < n && index in after && (index in before ==> before[index] != after[index])
    ensures Listed(before, n) != Listed(after, n)
  {
    InListed(before, n, index, after[index]);
    InListed(after, n, index, after[index]);
  }

  ghost predicate ShowsStale(w: World, rubric: string, prompt: string) {
    var shown := Shown(w.row, true, rubric, prompt);
    shown.Some? && shown.value.read.digest != w.row.assessment.packetDigest
  }

  /** The worker's publication goes through and shows a verdict on another packet than the row's. */
  ghost predicate PublishesStale(w: World, token: Token, j: Judgment, started: int) {
    Step(w, Publish(token, Some(j), started)) != w &&
    ShowsStale(Step(w, Publish(token, Some(j), started)), j.rubric, j.prompt)
  }

  lemma PublishesStaleIff(w: World, token: Token, j: Judgment, started: int)
    requires token in w.claims && w.claims[token].read.Some? && started <= w.clock
    ensures PublishesStale(w, token, j, started) <==>
            MayPublish(w.row, token, w.claims[token], w.clock) &&
            w.claims[token].read.value.digest != w.claims[token].packet.digest
  {
    if MayPublish(w.row, token, w.claims[token], w.clock) {
      assert |Step(w, Publish(token, Some(j), started)).published| == |w.published| + 1;
    }
  }

  /** The feedback route has stored its packet and read the row again. */
  function FeedbackReads(w: World, f: FeedbackId): World {
    Step(Step(w, Store(f)), Reread(f))
  }

  lemma FeedbackCaptures(w: World, f: FeedbackId)
    ensures MaySave(FeedbackReads(w, f), f) && FeedbackReads(w, f).feedbacks[f].row == FeedbackReads(w, f).row
    ensures FeedbackReads(w, f).row == w.row.(assessment := Reviewed(w.row.assessment, w.grade))
    ensures FeedbackReads(w, f).claims == w.claims && FeedbackReads(w, f).clock == w.clock
  {
    Tables.ReassembledTwice(w.row.assessment, w.grade.source, w.grade.envelope);
  }

  /** From any row ready to claim: a feedback reads the row, a worker claims it, the feedback writes the
      row back, and a second worker claims it inside the first one's lease, on the same attempt. */
  lemma SaveLetsTwoClaim(w: World, f: FeedbackId, first: Token, second: Token)
    requires MayClaim(w.row, w.clock) && first !in w.claims && second !in w.claims && first != second
    ensures var claimed := Step(FeedbackReads(w, f), Visit(first));
            var again := Step(Step(claimed, Save(f)), Visit(second));
            && LeaseHeld(claimed.row, again.clock) && Carries(claimed.row, first) && Carries(again.row, second)
            && again.claims.Keys == w.claims.Keys + {first, second}
            && Attempts(again.row) == Attempts(claimed.row) == Attempts(w.row) + 1
  {
    FeedbackCaptures(w, f);
  }

  /** A row read while a worker held it, written back after an answer has fenced the worker out. */
  lemma CapturedHoldRevives(w: World, f: FeedbackId, token: Token, index: nat, answer: string, j: Judgment)
    requires Good(w) && MaySave(w, f) && w.feedbacks[f].row == w.row
    requires token in w.claims && MayPublish(w.row, token, w.claims[token], w.clock)
    requires AcceptsAnswer(w.row, index, answer) && (index in w.row.answers ==> w.row.answers[index] != answer)
    ensures var revised := Step(w, Defend(index, answer, true));
            var saved := Step(Step(revised, ReadBundle(token)), Save(f));
            !Carries(revised.row, token) && PublishesStale(saved, token, j, w.clock)
  {
    AnswerChangesPacket(w.row, index, answer, true);
    var saved := Step(Step(Step(w, Defend(index, answer, true)), ReadBundle(token)), Save(f));
    assert saved.row == w.row && saved.clock == w.clock;
    PublishesStaleIff(saved, token, j, w.clock);
  }

  /** From any row ready to claim, with automatic grading on throughout: a feedback stores its packet, a
      worker claims, the feedback reads the row again, another answer takes the token away, the worker
      reads the packet with that answer, the feedback writes the row back, and the worker publishes a
      verdict on a packet that is not the row's. */
  lemma SaveRevivesToken(w: World, f: FeedbackId, token: Token, index: nat, answer: string, j: Judgment)
    requires Good(w) && MayClaim(w.row, w.clock) && token !in w.claims
    requires AcceptsAnswer(w.row, index, answer) && w.row.answers[index] != answer
    ensures var read := Step(Step(Step(w, Store(f)), Visit(token)), Reread(f));
            var revised := Step(read, Defend(index, answer, true));
            var saved := Step(Step(revised, ReadBundle(token)), Save(f));
            !Carries(revised.row, token) && PublishesStale(saved, token, j, w.clock)
  {
    var read := Step(Step(Step(w, Store(f)), Visit(token)), Reread(f));
    StoreGood(w, f);
    VisitGood(Step(w, Store(f)), token);
    RereadGood(Step(Step(w, Store(f)), Visit(token)), f);
    StoredThenClaimed(w, f, token);
    CapturedHoldRevives(read, f, token, index, answer, j);
  }

  lemma StoredThenClaimed(w: World, f: FeedbackId, token: Token)
    requires MayClaim(w.row, w.clock) && token !in w.claims
    ensures var read := Step(Step(Step(w, Store(f)), Visit(token)), Reread(f));
            && MaySave(read, f) && read.feedbacks[f].row == read.row && read.clock == w.clock
            && read.row.answers == w.row.answers && read.row.questions == w.row.questions
            && token in read.claims && MayPublish(read.row, token, read.claims[token], read.clock)
  {
    Tables.ReassembledTwice(w.row.assessment, w.grade.source, w.grade.envelope);
  }

  // ---------- When a shown verdict is stale ----------

  /** The worker's own two steps. */
  ghost predicate Own(e: Event, token: Token) {
    (e.ReadBundle? || e.Publish?) && e.token == token
  }

  /** The same but for what the holder of `token` has read. */
  ghost predicate SameButRead(w: World, w': World, token: Token) {
    && token in w.claims && token in w'.claims
    && w' == w.(claims := w.claims[token := w.claims[token].(read := w'.claims[token].read)])
  }

  lemma OthersIgnoreReading(w: World, w': World, e: Event, token: Token)
    requires SameButRead(w, w', token) && !Own(e, token)
    ensures SameButRead(Step(w, e), Step(w', e), token)
    ensures Step(w', e).claims[token].read == w'.claims[token].read
    ensures Step(w, e).claims[token].packet == w.claims[token].packet
  {
  }

  lemma {:induction false} RunIgnoresReading(w: World, w': World, events: seq<Event>, token: Token)
    requires SameButRead(w, w', token) && forall k :: 0 <= k < |events| ==> !Own(events[k], token)
    ensures SameButRead(Run(w, events), Run(w', events), token)
    ensures Run(w', events).claims[token].read == w'.claims[token].read
    ensures Run(w, events).claims[token].packet == w.claims[token].packet
  {
    if events == [] {
    } else {
      var front := events[..|events| - 1];
      RunIgnoresReading(w, w', front, token);
      OthersIgnoreReading(Run(w, front), Run(w', front), events[|events| - 1], token);
    }
  }

  lemma {:induction false} RunSplits(w: World, events: seq<Event>, i: nat)
    requires i <= |events|
    ensures Run(w, events) == Run(Run(w, events[..i]), events[i..])
  {
    if i == |events| {
      assert events[..i] == events && events[i..] == [];
    } else {
      var front := events[..|events| - 1];
      RunSplits(w, front, i);
      assert front[..i] == events[..i] && events[i..][..|events[i..]| - 1] == front[i..];
    }
  }

  /** The run in which the worker reads the bundle after the first i of the others' events. */
  ghost function ReadAfter(w: World, token: Token, events: seq<Event>, i: nat): World
    requires i <= |events|
  {
    Run(Step(Run(w, events[..i]), ReadBundle(token)), events[i..])
  }

  lemma ReadAfterIs(w: World, token: Token, events: seq<Event>, i: nat)
    requires token in w.claims && i <= |events| && forall k :: 0 <= k < |events| ==> !Own(events[k], token)
    ensures SameButRead(Run(w, events), ReadAfter(w, token, events, i), token)
    ensures ReadAfter(w, token, events, i).claims[token].read == Some(Present(Run(w, events[..i])))
    ensures ReadAfter(w, token, events, i).claims[token].packet == w.claims[token].packet
  {
    var early := events[..i];
    RunIgnoresReading(w, w, early, token);
    var at := Run(w, early);
    RunIgnoresReading(at, Step(at, ReadBundle(token)), events[i..], token);
    RunSplits(w, events, i);
  }

  lemma ReadAfterStale(w: World, token: Token, events: seq<Event>, i: nat, j: Judgment, started: int)
    requires token in w.claims && started <= Run(w, events).clock
    requires i <= |events| && forall k :: 0 <= k < |events| ==> !Own(events[k], token)
    ensures var later := Run(w, events);
            PublishesStale(ReadAfter(w, token, events, i), token, j, started) <==>
            token in later.claims && MayPublish(later.row, token, w.claims[token], later.clock) &&
            Run(w, events[..i]).row.assessment.packetDigest != w.claims[token].packet.digest
  {
    ReadAfterIs(w, token, events, i);
    PublishesStaleIff(ReadAfter(w, token, events, i), token, j, started);
  }

  /** Exactly when the fence lets a stale verdict through, over every interleaving of everyone else's
      steps: for some moment of reading the bundle, if and only if at the end the token is on the row,
      unexpired, beside a packet of the claim's digest, and at some moment the packet had another. */
  lemma StaleIffReturned(w: World, token: Token, events: seq<Event>, j: Judgment, started: int)
    requires token in w.claims && started <= Run(w, events).clock
    requires forall k :: 0 <= k < |events| ==> !Own(events[k], token)
    ensures var later := Run(w, events);
            (exists i :: 0 <= i <= |events| && PublishesStale(ReadAfter(w, token, events, i), token, j, started)) <==>
            (MayPublish(later.row, token, w.claims[token], later.clock) &&
             exists i :: 0 <= i <= |events| &&
               Run(w, events[..i]).row.assessment.packetDigest != w.claims[token].packet.digest)
  {
    forall i | 0 <= i <= |events|
      ensures PublishesStale(ReadAfter(w, token, events, i), token, j, started) <==>
              MayPublish(Run(w, events).row, token, w.claims[token], Run(w, events).clock) &&
              Run(w, events[..i]).row.assessment.packetDigest != w.claims[token].packet.digest
    {
      ReadAfterIs(w, token, events, i);
      ReadAfterStale(w, token, events, i, j, started);
    }
  }

  /** The run by answers alone, from any row ready to claim whose statements stand last in its packet, as
      after any answer: with automatic grading off, an answer is changed after the claim, the bundle is
      read, and the answer is changed back before the publication. */
  lemma ReturnedAnswerShowsStale(w: World, token: Token, index: nat, other: string, j: Judgment)
    requires Good(w) && MayClaim(w.row, w.clock) && token !in w.claims
    requires AcceptsAnswer(w.row, index, other) && w.row.answers[index] != other
    requires w.row.assessment == Tables.Revise(w.row.assessment, Listed(w.row.answers, w.row.questions))
    ensures var changed := Step(Step(w, Visit(token)), Defend(index, other, false));
            var back := Step(Step(changed, ReadBundle(token)), Defend(index, w.row.answers[index], false));
            && back.row.assessment == w.row.assessment && back.row.answers == w.row.answers
            && PublishesStale(back, token, j, w.clock)
  {
    var first := w.row.answers[index];
    var changed := Step(Step(w, Visit(token)), Defend(index, other, false));
    AnswerChangesPacket(w.row, index, other, false);
    assert changed.row.answers[index := first] == w.row.answers;
    var n := w.row.questions;
    Tables.ReviseTwice(w.row.assessment, Listed(changed.row.answers, n), Listed(w.row.answers, n));
    var back := Step(Step(changed, ReadBundle(token)), Defend(index, first, false));
    assert back.row.assessment == w.row.assessment;
    PublishesStaleIff(back, token, j, w.clock);
  }

  // ---------- The claim loop ----------

  type SessionId = nat

  /** The first n candidates have been visited unless locked; no other row has changed. */
  ghost predicate AfterVisits(before: map<SessionId, Evaluation>, after: map<SessionId, Evaluation>,
                              ids: seq<SessionId>, locked: set<SessionId>, token: Token, now: int, n: nat)
    requires n <= |ids|
  {
    && after.Keys == before.Keys
    && (forall i :: 0 <= i < |ids| && ids[i] in before ==>
          after[ids[i]] == if i < n && ids[i] !in locked then Visited(before[ids[i]], token, now) else before[ids[i]])
    && (forall id :: id in before && id !in ids ==> after[id] == before[id])
  }

  lemma OneMoreVisit(before: map<SessionId, Evaluation>, after: map<SessionId, Evaluation>, ids: seq<SessionId>,
                     locked: set<SessionId>, token: Token, now: int, n: nat)
    requires n < |ids| && AfterVisits(before, after, ids, locked, token, now, n)
    requires forall i :: 0 <= i < |ids| ==> ids[i] in before
    requires forall i, j :: 0 <= i < j < |ids| ==> ids[i] != ids[j]
    ensures ids[n] in after && after[ids[n]] == before[ids[n]]
    ensures var next := if ids[n] in locked then after else after[ids[n] := Visited(before[ids[n]], token, now)];
            AfterVisits(before, next, ids, locked, token, now, n + 1)
  {
  }

  class GradingRows {
    var rows: map<SessionId, Evaluation>

    constructor (rows: map<SessionId, Evaluation>)
      ensures this.rows == rows
    {
      this.rows := rows;
    }

    /** The locked visit to one candidate; true when it claims. */
    method VisitRow(id: SessionId, token: Token, now: int) returns (claimed: bool)
      requires id in rows
      modifies this
      ensures claimed <==> MayClaim(old(rows)[id], now)
      ensures rows == old(rows)[id := Visited(old(rows)[id], token, now)]
      ensures !EveryQuestionAnswered(old(rows)[id]) ==>
                rows[id] == old(rows)[id] || (StartsOver(rows[id]) && rows[id].grading.value.status == WaitingDefense)
    {
      CompleteIffAnswered(rows[id]);
      var e := rows[id];
      if e.grading.Some? && e.grading.value.status == Running && e.grading.value.leaseUntil > now { return false; }
      if e.grading.Some? && e.grading.value.nextAttemptAt > now { return false; }
      if !DefenseComplete(e) {
        rows := rows[id := e.(grading := Some(QueueState(e)))];
        return false;
      }
      var attempts := Attempts(e);
      if attempts >= MAX_ATTEMPTS {
        rows := rows[id := e.(grading := Some(e.grading.value.(status := NeedsReview)))];
        return false;
      }
      var running := Grading(Running, Some(token), now + LEASE_SECONDS, attempts + 1, 0, None);
      rows := rows[id := e.(grading := Some(running))];
      return true;
    }

    /** The loop over the listed candidates: rows whose session another worker has locked are
        skipped, the others are visited in order up to the first that can be claimed. */
    method ClaimFirst(ids: seq<SessionId>, locked: set<SessionId>, token: Token, now: int) returns (k: nat)
      requires forall i :: 0 <= i < |ids| ==> ids[i] in rows
      requires forall i, j :: 0 <= i < j < |ids| ==> ids[i] != ids[j]
      modifies this
      ensures k <= |ids|
      ensures forall i :: 0 <= i < k ==> ids[i] in locked || !MayClaim(old(rows)[ids[i]], now)
      ensures k < |ids| ==> ids[k] !in locked && MayClaim(old(rows)[ids[k]], now)
      ensures AfterVisits(old(rows), rows, ids, locked, token, now, if k < |ids| then k + 1 else k)
    {
      k := 0;
      while k < |ids|
        invariant k <= |ids|
        invariant forall i :: 0 <= i < k ==> ids[i] in locked || !MayClaim(old(rows)[ids[i]], now)
        invariant AfterVisits(old(rows), rows, ids, locked, token, now, k)
      {
        OneMoreVisit(old(rows), rows, ids, locked, token, now, k);
        if ids[k] !in locked {
          var claimed := VisitRow(ids[k], token, now);
          if claimed { return k; }
        }
        k := k + 1;
      }
    }

    /** The last transaction of `process_one_ai_grade`; false when it rolls back. */
    method PublishRow(id: SessionId, token: Token, claim: Claim, final: Grading, now: int) returns (published: bool)
      requires id in rows
      modifies this
      ensures published <==> MayPublish(old(rows)[id], token, claim, now)
      ensures published ==> rows == old(rows)[id := Published(old(rows)[id], final)]
      ensures !published ==> rows == old(rows)
    {
      var e := rows[id];
      if e.grading.None? || e.grading.value.token != Some(token) || e.grading.value.leaseUntil <= now ||
         e.assessment.packetDigest != claim.packet.digest
      {
        return false;
      }
      var history := e.history;
      if e.grading.value.verdict.Some? { history := history + [e.grading.value]; }
      rows := rows[id := e.(history := LastFive(history), grading := Some(final))];
      return true;
    }
  }
}
