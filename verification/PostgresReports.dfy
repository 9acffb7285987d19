/** Which notifications start a report when the board is in PostgreSQL. */
module PostgresReports {
  import opened Domain
  import opened Board
  import opened BoardRuns
  import opened BoardTheorems
  import opened Reporter
  import P = Postgres
  import PI = PostgresInvariant

  /** Where PgPublish leaves the entry it returns. */
  lemma PgPublishedPosition(b: Board, t: Uuid, actor: Actor, request: PublishRequest, id: Uuid, now: int) returns (k: nat)
    requires request.CheckContract() && (t in b.tasks ==> BoardRuns.Gapless(b, t)) && (t !in b.tasks ==> b.Log(t) == [])
    requires P.PgPublish(b, t, actor, request, id, now).1.Ok?
    ensures var (b1, published) := P.PgPublish(b, t, actor, request, id, now);
            t in b1.tasks && k < |b1.Log(t)| && b1.Log(t)[k] == published.value && k + 1 == published.value.seqNo
  {
    var existing := FindKey(b.Log(t), actor.agentId, request.key);
    if existing.Some? {
      k :| 0 <= k < |b.Log(t)| && b.Log(t)[k] == existing.value;
    } else {
      k := |b.Log(t)|;
    }
  }

  lemma NoTaskNoLog(b: Board, t: Uuid)
    requires Inv(b) && t !in b.tasks
    ensures b.Log(t) == []
  {
  }

  lemma PgPublishedStands(b: Board, t: Uuid, actor: Actor, request: PublishRequest, id: Uuid, now: int) returns (k: nat)
    requires Inv(b) && PI.Legit(b, P.PublishTx(t, actor, request, id, now))
    requires P.PgPublish(b, t, actor, request, id, now).1.Ok?
    ensures var (b1, published) := P.PgPublish(b, t, actor, request, id, now);
            Inv(b1) && t in b1.tasks && k < |b1.Log(t)| && b1.Log(t)[k] == published.value && k + 1 == published.value.seqNo
  {
    PI.PgKeepsInv(b, P.PublishTx(t, actor, request, id, now));
    if t in b.tasks {
      InvGapless(b, t);
    } else {
      NoTaskNoLog(b, t);
    }
    k := PgPublishedPosition(b, t, actor, request, id, now);
  }

  /** Over PostgreSQL too, the hook of a published entry starts a report exactly when the entry is a final candidate. */
  lemma PgHookStartsReportIff(
    b: Board, t: Uuid, actor: Actor, request: PublishRequest, id: Uuid, now: int, rs: seq<P.Request>, job: Job, starts: nat)
    requires PI.PgReachable(b) && PI.Legit(b, P.PublishTx(t, actor, request, id, now))
    requires P.PgPublish(b, t, actor, request, id, now).1.Ok?
    requires PI.AllWellFormed(rs) && PI.AllLegit(P.PgPublish(b, t, actor, request, id, now).0, rs)
    ensures var (b1, published) := P.PgPublish(b, t, actor, request, id, now);
            HookFires(Desk(PI.PgRun(b1, rs), job, starts), t, published.value)
  {
    PI.PgReachableInv(b);
    var (b1, published) := P.PgPublish(b, t, actor, request, id, now);
    var k := PgPublishedStands(b, t, actor, request, id, now);
    PI.PgRunReadsBack(b1, rs, t, k);
    ReadHookFires(PI.PgRun(b1, rs), t, published.value, job, starts);
  }

  /** What PgAnswer returns: the new QA entry for a waiting question, whatever stands under the supervisor's key for an answered
      one. */
  lemma PgAnswered(
    b: Board, id: Uuid, answer: string, attachments: seq<Uuid>, user: Actor, key: string, entryId: Uuid,
    messageId: Uuid, now: int) returns (k: nat)
    requires Owned(b) && id in b.questions && BoardRuns.Gapless(b, b.questions[id].taskId)
    requires P.PgAnswer(b, id, answer, attachments, user, key, entryId, messageId, now).1.Ok?
    ensures var (b1, answered) := P.PgAnswer(b, id, answer, attachments, user, key, entryId, messageId, now);
            var t := b.questions[id].taskId;
      && t in b1.tasks && k < |b1.Log(t)| && b1.Log(t)[k] == answered.value && k + 1 == answered.value.seqNo
      && (!b.questions[id].answered ==> answered.value.kind == QA)
      && (b.questions[id].answered ==> b1 == b && FindKey(b.Log(t), SUPERVISOR_ID, key) == Some(answered.value))
  {
    var q := b.questions[id];
    if q.answered {
      var e := P.PgAnswer(b, id, answer, attachments, user, key, entryId, messageId, now).1.value;
      k :| 0 <= k < |b.Log(q.taskId)| && b.Log(q.taskId)[k] == e;
    } else {
      k := |b.Log(q.taskId)|;
    }
  }

  lemma PgAnsweredStands(
    b: Board, id: Uuid, answer: string, attachments: seq<Uuid>, user: Actor, key: string, entryId: Uuid,
    messageId: Uuid, now: int) returns (k: nat)
    requires Inv(b) && FreshEntryId(b, entryId)
    requires P.PgAnswer(b, id, answer, attachments, user, key, entryId, messageId, now).1.Ok?
    ensures var (b1, answered) := P.PgAnswer(b, id, answer, attachments, user, key, entryId, messageId, now);
            var t := b.questions[id].taskId;
      && Inv(b1) && t in b1.tasks && k < |b1.Log(t)| && b1.Log(t)[k] == answered.value && k + 1 == answered.value.seqNo
      && (!b.questions[id].answered ==> answered.value.kind == QA)
      && (b.questions[id].answered ==> FindKey(b.Log(t), SUPERVISOR_ID, key) == Some(answered.value))
  {
    PI.PgKeepsInv(b, P.AnswerTx(id, answer, attachments, user, key, entryId, messageId, now));
    InvGapless(b, b.questions[id].taskId);
    k := PgAnswered(b, id, answer, attachments, user, key, entryId, messageId, now);
  }

  /** Over PostgreSQL the notification of the answer endpoint starts a report if and only if the question had been answered
      before, the entry under the supervisor and the key is a final candidate, no report was started and the task is not
      terminal: an answer to a waiting question is always a QA entry. */
  lemma PgAnswerStartsReportIff(
    b: Board, id: Uuid, answer: string, attachments: seq<Uuid>, user: Actor, key: string, entryId: Uuid,
    messageId: Uuid, now: int, rs: seq<P.Request>, job: Job, starts: nat)
    requires PI.PgReachable(b) && FreshEntryId(b, entryId)
    requires P.PgAnswer(b, id, answer, attachments, user, key, entryId, messageId, now).1.Ok?
    requires PI.AllWellFormed(rs) && PI.AllLegit(P.PgAnswer(b, id, answer, attachments, user, key, entryId, messageId, now).0, rs)
    ensures var (b1, answered) := P.PgAnswer(b, id, answer, attachments, user, key, entryId, messageId, now);
            var t, q := b.questions[id].taskId, b.questions[id];
            var s := Desk(PI.PgRun(b1, rs), job, starts);
      && (!q.answered ==> answered.value.kind == QA)
      && (q.answered ==> FindKey(b.Log(t), SUPERVISOR_ID, key) == Some(answered.value))
      && (Hook(s, t, answered.value.seqNo) != s <==>
            q.answered && answered.value.kind == FinalCandidate && job.NotStarted?
            && t in s.board.tasks && !Terminal(s.board.tasks[t].state))
  {
    PI.PgReachableInv(b);
    var (b1, answered) := P.PgAnswer(b, id, answer, attachments, user, key, entryId, messageId, now);
    var k := PgAnsweredStands(b, id, answer, attachments, user, key, entryId, messageId, now);
    PI.PgRunReadsBack(b1, rs, b.questions[id].taskId, k);
    ReadHookFires(PI.PgRun(b1, rs), b.questions[id].taskId, answered.value, job, starts);
  }

  /* ---- a concrete run ---- */

  const ASKING := Actor(SUPERVISOR_ID, Supervisor)

  /** Agent names are self-declared: a worker may call itself supervisor. */
  const NAMESAKE := Actor(SUPERVISOR_ID, Worker)

  const EVIDENCE := ArtifactRef(7, "line 1", "log")

  const FOUND := PublishRequest(Finding, "facts", FactBody("claim", ""), [EVIDENCE], "f")

  const CANDIDATE := PublishRequest(FinalCandidate, "end", CandidateBody("conclusion", "rationale", [11]), [], "k")

  const FOUND_ENTRY := Entry(11, 0, 1, NAMESAKE, Finding, "facts", FOUND.body, "f", 0)

  const CANDIDATE_ENTRY := Entry(12, 0, 2, NAMESAKE, FinalCandidate, "end", CANDIDATE.body, "k", 0)

  /** A task with a finding. */
  function WithFinding(): Board {
    EMPTY.(tasks := map[0 := TaskRun(Created, 1, 0, None)], artifacts := map[7 := Artifact(7, 0, true)],
           entries := map[0 := [FOUND_ENTRY]], links := map[11 := [EVIDENCE]])
  }

  /** And with a final candidate that a namesake of the supervisor published under the key k. */
  function WithCandidate(): Board {
    WithFinding().(tasks := map[0 := TaskRun(Created, 2, 0, None)], entries := map[0 := [FOUND_ENTRY, CANDIDATE_ENTRY]])
  }

  function FindingRequests(): seq<P.Request> {
    [P.NewTask(0), P.AddArtifact(Artifact(7, 0, true)), P.PublishTx(0, NAMESAKE, FOUND, 11, 0)]
  }

  /** The candidate, a question, its answer under the key a; the task stays in a state that is not terminal. */
  function CandidateRequests(user: Actor): seq<P.Request> {
    [P.PublishTx(0, NAMESAKE, CANDIDATE, 12, 0), P.Ask(2, 0, "why", ASKING, ASKING),
     P.AnswerTx(2, "because", [], user, "a", 13, 14, 0)]
  }

  lemma PgRunFirst(b: Board, r: P.Request, rest: seq<P.Request>)
    requires r.WellFormed() && PI.AllWellFormed(rest)
    ensures PI.AllWellFormed([r] + rest)
    ensures PI.PgRun(b, [r] + rest) == PI.PgRun(P.PgApply(b, r).0, rest)
    ensures PI.AllLegit(b, [r] + rest) <==> PI.Legit(b, r) && PI.AllLegit(P.PgApply(b, r).0, rest)
  {
    assert ([r] + rest)[1..] == rest;
  }

  lemma PgRunThree(b: Board, r0: P.Request, r1: P.Request, r2: P.Request)
    requires r0.WellFormed() && r1.WellFormed() && r2.WellFormed()
    ensures PI.AllWellFormed([r0, r1, r2])
    ensures PI.PgRun(b, [r0, r1, r2]) == P.PgApply(P.PgApply(P.PgApply(b, r0).0, r1).0, r2).0
    ensures PI.AllLegit(b, [r0, r1, r2]) <==>
      PI.Legit(b, r0) && PI.Legit(P.PgApply(b, r0).0, r1) && PI.Legit(P.PgApply(P.PgApply(b, r0).0, r1).0, r2)
  {
    var b1 := P.PgApply(b, r0).0;
    var b2 := P.PgApply(b1, r1).0;
    assert [r2] == [r2] + [] && [r1, r2] == [r1] + [r2] && [r0, r1, r2] == [r0] + [r1, r2];
    PgRunFirst(b2, r2, []);
    PgRunFirst(b1, r1, [r2]);
    PgRunFirst(b, r0, [r1, r2]);
  }

  lemma FindingRun()
    ensures PI.AllWellFormed(FindingRequests()) && PI.AllLegit(EMPTY, FindingRequests())
    ensures PI.PgRun(EMPTY, FindingRequests()) == WithFinding()
  {
    var b1 := EMPTY.(tasks := map[0 := TaskRun(Created, 0, 0, None)]);
    var b2 := b1.(artifacts := map[7 := Artifact(7, 0, true)]);
    var publish := P.PublishTx(0, NAMESAKE, FOUND, 11, 0);
    assert P.PgApply(EMPTY, P.NewTask(0)).0 == b1;
    assert P.PgApply(b1, P.AddArtifact(Artifact(7, 0, true))).0 == b2;
    assert ArtifactUsable(b2, 0, EVIDENCE.artifactId) && b2.Log(0) == [] && P.DistinctRefs([EVIDENCE]);
    assert NewEntry(b2, 0, NAMESAKE, FOUND, 11, 0) == FOUND_ENTRY;
    assert P.PgApply(b2, publish).0 == Append(b2, 0, FOUND_ENTRY, [EVIDENCE]);
    assert b2.Log(0) + [FOUND_ENTRY] == [FOUND_ENTRY];
    assert Append(b2, 0, FOUND_ENTRY, [EVIDENCE]) == WithFinding();
    PgRunThree(EMPTY, P.NewTask(0), P.AddArtifact(Artifact(7, 0, true)), publish);
  }

  lemma CandidatePublished()
    ensures CANDIDATE.CheckContract() && PI.Legit(WithFinding(), P.PublishTx(0, NAMESAKE, CANDIDATE, 12, 0))
    ensures P.PgApply(WithFinding(), P.PublishTx(0, NAMESAKE, CANDIDATE, 12, 0)).0 == WithCandidate()
  {
    var b := WithFinding();
    assert b.Log(0)[0] == FOUND_ENTRY && IsFinding(b.Log(0), 11);
    assert NewEntry(b, 0, NAMESAKE, CANDIDATE, 12, 0) == CANDIDATE_ENTRY;
    assert FindKey(b.Log(0), SUPERVISOR_ID, "k").None?;
    assert P.PgApply(b, P.PublishTx(0, NAMESAKE, CANDIDATE, 12, 0)).0 == Append(b, 0, CANDIDATE_ENTRY, []);
    assert b.Log(0) + [CANDIDATE_ENTRY] == [FOUND_ENTRY, CANDIDATE_ENTRY];
  }

  /** The board after the answer, as far as a retry looks at it. */
  lemma CandidateAnswered(user: Actor)
    ensures PI.AllWellFormed(CandidateRequests(user)) && PI.AllLegit(WithFinding(), CandidateRequests(user))
    ensures var b := PI.PgRun(WithFinding(), CandidateRequests(user));
      && 2 in b.questions && b.questions[2].taskId == 0 && b.questions[2].answered
      && 0 in b.tasks && b.tasks[0].state == Created
      && |b.Log(0)| == 3 && b.Log(0)[0] == FOUND_ENTRY && b.Log(0)[1] == CANDIDATE_ENTRY
  {
    CandidatePublished();
    var b1 := WithCandidate();
    var ask, answer := P.Ask(2, 0, "why", ASKING, ASKING), P.AnswerTx(2, "because", [], user, "a", 13, 14, 0);
    var b2 := b1.(questions := map[2 := Question(0, "why", ASKING, ASKING, false)]);
    assert P.PgApply(b1, ask).0 == b2;
    assert b2.Log(0) == [FOUND_ENTRY, CANDIDATE_ENTRY];
    assert FindKey(b2.Log(0), SUPERVISOR_ID, "a").None?;
    PgRunThree(WithFinding(), P.PublishTx(0, NAMESAKE, CANDIDATE, 12, 0), ask, answer);
  }

  lemma FindsCandidate(log: seq<Entry>)
    requires |log| == 3 && log[0] == FOUND_ENTRY && log[1] == CANDIDATE_ENTRY
    ensures FindKey(log, SUPERVISOR_ID, "k") == Some(CANDIDATE_ENTRY)
  {
    assert log[1..][0] == CANDIDATE_ENTRY;
  }

  /** Whether a retry under the key k, and the hook after it, meet that candidate. */
  ghost predicate RetryMeetsCandidate(b: Board, user: Actor) {
    && P.PgAnswer(b, 2, "because", [], user, "k", 15, 16, 0) == (b, Ok(CANDIDATE_ENTRY))
    && Hook(Fresh(b), 0, CANDIDATE_ENTRY.seqNo).job == Started(2)
  }

  lemma RetryMeets(b: Board, user: Actor)
    requires 0 in b.tasks && BoardRuns.Gapless(b, 0) && b.tasks[0].state == Created
    requires 2 in b.questions && b.questions[2].taskId == 0 && b.questions[2].answered
    requires |b.Log(0)| == 3 && b.Log(0)[0] == FOUND_ENTRY && b.Log(0)[1] == CANDIDATE_ENTRY
    ensures RetryMeetsCandidate(b, user)
  {
    FindsCandidate(b.Log(0));
    ReadBack(b, 0, 1);
  }

  function NamesakeBoard(user: Actor): Board
    requires PI.AllWellFormed(CandidateRequests(user))
  {
    PI.PgRun(WithFinding(), CandidateRequests(user))
  }

  lemma NamesakeBoardReachable(user: Actor)
    ensures PI.AllWellFormed(CandidateRequests(user)) && PI.PgReachable(NamesakeBoard(user))
  {
    FindingRun();
    CandidateAnswered(user);
    PI.PgRunsJoin(EMPTY, FindingRequests(), CandidateRequests(user));
    assert PI.PgReachedBy(NamesakeBoard(user), FindingRequests() + CandidateRequests(user));
  }

  /** A concrete run over PostgreSQL: a retried answer under the namesake's key returns the final candidate, and where no report
      was started, as after a restart, its notification starts one. */
  lemma RetryStartsReport(user: Actor)
    ensures PI.AllWellFormed(CandidateRequests(user))
    ensures PI.PgReachable(NamesakeBoard(user)) && RetryMeetsCandidate(NamesakeBoard(user), user)
  {
    NamesakeBoardReachable(user);
    CandidateAnswered(user);
    PI.PgReachableInv(NamesakeBoard(user));
    InvGapless(NamesakeBoard(user), 0);
    RetryMeets(NamesakeBoard(user), user);
  }
}
