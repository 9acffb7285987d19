/** What each request stores over PostgreSQL, when it succeeds, and how long its records last. */
module PostgresEffects {
  import opened Domain
  import opened Board
  import opened BoardRuns
  import opened BoardInvariant
  import opened BoardTheorems
  import opened BoardEffects
  import opened Postgres
  import PI = PostgresInvariant

  /** Every reference names an available artifact of the task, and no two the same artifact and locator; here a blank locator
      is accepted. */
  ghost predicate RowsAccepted(b: Board, t: Uuid, refs: seq<ArtifactRef>) {
    && (forall k :: 0 <= k < |refs| ==>
          && refs[k].artifactId in b.artifacts
          && b.artifacts[refs[k].artifactId].taskId == t
          && b.artifacts[refs[k].artifactId].available)
    && (forall i, j :: 0 <= i < j < |refs| ==> (refs[i].artifactId, refs[i].locator) != (refs[j].artifactId, refs[j].locator))
  }

  lemma RowsAcceptedIff(b: Board, t: Uuid, refs: seq<ArtifactRef>)
    ensures RefsUsable(b, t, refs) && DistinctRefs(refs) <==> RowsAccepted(b, t, refs)
  {
    if RefsUsable(b, t, refs) {
      forall k | 0 <= k < |refs| ensures ArtifactUsable(b, t, refs[k].artifactId) {
      }
    }
  }

  /** A publish succeeds for a used key, or when task, artifacts, citations and the links' primary key allow it. */
  lemma PgPublishSucceedsIff(b: Board, t: Uuid, actor: Actor, request: PublishRequest, id: Uuid, now: int)
    requires request.CheckContract()
    ensures var (b1, r) := PgPublish(b, t, actor, request, id, now);
      && (r.Ok? <==> || KeyUsed(b.Log(t), actor.agentId, request.key)
                     || (t in b.tasks && RowsAccepted(b, t, request.artifactRefs) && CitationsStand(b.Log(t), request.body)))
      && (r.Err? ==> b1 == b)
  {
    KeyUsedIff(b.Log(t), actor.agentId, request.key);
    RowsAcceptedIff(b, t, request.artifactRefs);
    assert request.body.CandidateBody? <==> request.kind == FinalCandidate;
    if request.body.CandidateBody? {
      CitationsIff(b.Log(t), request.body);
    }
  }

  /** It appends one entry that carries the request, with exactly its references as rows of evidence. */
  lemma PgPublishStores(b: Board, t: Uuid, actor: Actor, request: PublishRequest, id: Uuid, now: int)
    requires t in b.tasks && BoardRuns.Gapless(b, t) && FreshEntryId(b, id)
    requires request.CheckContract() && PgPublish(b, t, actor, request, id, now).1.Ok?
    requires !KeyUsed(b.Log(t), actor.agentId, request.key)
    ensures var (b1, r) := PgPublish(b, t, actor, request, id, now);
      && Carries(r.value, t, |b.Log(t)| + 1, actor, request, id, now)
      && OnlyLogGrew(b, b1, t, r.value)
      && LinksOf(b1, id) == request.artifactRefs
  {
    KeyUsedIff(b.Log(t), actor.agentId, request.key);
  }

  /** An answered question is answered again only under a key of the supervisor; a waiting one needs a text, a task, and a key
      that the agent that asked has not used. */
  lemma PgAnswerSucceedsIff(
    b: Board, id: Uuid, answer: string, attachments: seq<Uuid>, user: Actor, key: string, entryId: Uuid, messageId: Uuid, now: int)
    requires id in b.questions
    ensures var (b1, r) := PgAnswer(b, id, answer, attachments, user, key, entryId, messageId, now);
            var q := b.questions[id];
      && (q.answered ==> b1 == b && (r.Ok? <==> KeyUsed(b.Log(q.taskId), "supervisor", key)) && (r.Err? ==> r.error == Conflict))
      && (!q.answered ==> (r.Ok? <==> answer != "" && q.taskId in b.tasks && !KeyUsed(b.Log(q.taskId), q.askedBy.agentId, key)))
      && (r.Err? ==> b1 == b)
  {
    var q := b.questions[id];
    KeyUsedIff(b.Log(q.taskId), "supervisor", key);
    KeyUsedIff(b.Log(q.taskId), q.askedBy.agentId, key);
  }

  /** What a recorded answer stores is what the in-memory storage stores. */
  lemma PgAnswerStores(
    b: Board, id: Uuid, answer: string, attachments: seq<Uuid>, user: Actor, key: string, entryId: Uuid, messageId: Uuid, now: int)
    requires id in b.questions && !b.questions[id].answered && b.questions[id].taskId in b.tasks
    requires PgAnswer(b, id, answer, attachments, user, key, entryId, messageId, now).1.Ok?
    ensures var (b1, r) := PgAnswer(b, id, answer, attachments, user, key, entryId, messageId, now);
            var q := b.questions[id];
            var t := q.taskId;
      && AnswersWith(r.value, q, answer, attachments, key, entryId, b.tasks[t].blackboardSeq + 1, now)
      && b1.Log(t) == b.Log(t) + [r.value]
      && |b1.Talk(t)| == |b.Talk(t)| + 1 && b.Talk(t) <= b1.Talk(t)
      && b1.Talk(t)[|b.Talk(t)|] == Message(messageId, t, b.tasks[t].dialogueSeq + 1, "supervisor", user, answer, Some(id))
      && id in b1.questions && b1.questions[id] == q.(answered := true)
      && t in b1.tasks && b1.tasks[t].blackboardSeq == r.value.seqNo && b1.tasks[t].dialogueSeq == b.tasks[t].dialogueSeq + 1
  {
  }

  /* ---- how long records last ---- */

  lemma PgKeepsRecords(b: Board, r: Request, t: Uuid)
    requires Inv(b) && r.WellFormed() && PI.Legit(b, r)
    ensures Keeps(b, PgApply(b, r).0, t)
  {
    if PgApply(b, r).0 == b {
      SameTaskItself(b, t);
      SameTaskKeeps(b, b, t);
    } else if r.PublishTx? {
      PgPublishKeepsRecords(b, r, t);
    } else {
      PI.OtherRequestsAreOps(b, r);
      OpKeepsRecords(b, PI.OpOf(r), t);
    }
  }

  lemma PgPublishKeepsRecords(b: Board, r: Request, t: Uuid)
    requires r.PublishTx? && r.WellFormed() && PI.Legit(b, r) && PgApply(b, r).0 != b
    ensures Keeps(b, PgApply(b, r).0, t)
  {
    PI.PgPublishAppends(b, r.t, r.actor, r.request, r.id, r.now);
    var e := NewEntry(b, r.t, r.actor, r.request, r.id, r.now);
    if r.t == t {
      AppendKeepsRecords(b, t, e, r.request.artifactRefs);
    } else {
      AppendKeepsOtherTasks(b, r.t, e, r.request.artifactRefs, t);
      SameTaskKeeps(b, PgApply(b, r).0, t);
    }
  }

  /** No request takes back or alters anything recorded about a task. */
  lemma {:induction false} PgRecordsLast(b: Board, rs: seq<Request>, t: Uuid)
    requires Inv(b) && PI.AllWellFormed(rs) && PI.AllLegit(b, rs)
    ensures Keeps(b, PI.PgRun(b, rs), t)
    decreases |rs|
  {
    if rs == [] {
      SameTaskItself(b, t);
      SameTaskKeeps(b, b, t);
    } else {
      PgKeepsRecords(b, rs[0], t);
      PI.PgKeepsInv(b, rs[0]);
      PgRecordsLast(PgApply(b, rs[0]).0, rs[1..], t);
      KeepsTwice(b, PgApply(b, rs[0]).0, PI.PgRun(b, rs), t);
    }
  }

  lemma PgPublishedEvidence(b: Board, t: Uuid, actor: Actor, request: PublishRequest, id: Uuid, now: int)
    requires Inv(b) && t in b.tasks && PI.Legit(b, PublishTx(t, actor, request, id, now))
    requires PgPublish(b, t, actor, request, id, now).1.Ok? && !KeyUsed(b.Log(t), actor.agentId, request.key)
    ensures var b1 := PgPublish(b, t, actor, request, id, now).0;
      && Inv(b1) && |b.Log(t)| < |b1.Log(t)|
      && b1.Log(t)[|b.Log(t)|].id == id && b1.Log(t)[|b.Log(t)|].kind == request.kind
      && LinksOf(b1, id) == request.artifactRefs
  {
    InvGapless(b, t);
    PgPublishStores(b, t, actor, request, id, now);
    PI.PgKeepsInv(b, PublishTx(t, actor, request, id, now));
  }

  /** Over PostgreSQL too, the evidence of a published entry stays exactly what its request referred to. */
  lemma PgEvidenceLasts(b: Board, t: Uuid, actor: Actor, request: PublishRequest, id: Uuid, now: int, rs: seq<Request>)
    requires PI.PgReachable(b) && t in b.tasks && PI.Legit(b, PublishTx(t, actor, request, id, now))
    requires PgPublish(b, t, actor, request, id, now).1.Ok? && !KeyUsed(b.Log(t), actor.agentId, request.key)
    requires PI.AllWellFormed(rs) && PI.AllLegit(PgPublish(b, t, actor, request, id, now).0, rs)
    ensures var b2 := PI.PgRun(PgPublish(b, t, actor, request, id, now).0, rs);
      && LinksOf(b2, id) == request.artifactRefs
      && (request.kind == Finding ==> FindingLinks(b2, t, id) == Ok(request.artifactRefs))
  {
    PI.PgReachableInv(b);
    PgPublishedEvidence(b, t, actor, request, id, now);
    var b1 := PgPublish(b, t, actor, request, id, now).0;
    PgRecordsLast(b1, rs, t);
    PI.PgRunKeepsInv(b1, rs);
    StoredEvidenceLasts(b1, PI.PgRun(b1, rs), t, |b.Log(t)|);
  }
}
