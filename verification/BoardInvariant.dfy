/** The board invariant holds in every reachable state. */
module BoardInvariant {
  import opened Domain
  import opened Board
  import opened BoardRuns

  /* ---- entries appended by publish ---- */

  lemma AppendKeepsCitations(log: seq<Entry>, e: Entry)
    requires CitesEarlierFindings(log)
    requires e.kind == FinalCandidate ==>
               e.body.CandidateBody? && e.body.findingIds != [] && CitesFindings(log, e.body.findingIds)
    ensures CitesEarlierFindings(log + [e])
  {
    forall i | 0 <= i < |log + [e]| && (log + [e])[i].kind == FinalCandidate
      ensures CitesFindings((log + [e])[..i], (log + [e])[i].body.findingIds)
    {
      assert (log + [e])[..i] == log[..i];
      assert log[..|log|] == log;
    }
  }

  lemma AppendKeepsEvidence(b: Board, t: Uuid, e: Entry, refs: seq<ArtifactRef>)
    requires t in b.tasks && FreshEntryId(b, e.id)
    requires Evidenced(b, t, b.Log(t)) && RefsUsable(b, t, refs) && (e.kind == Finding ==> refs != [])
    ensures Evidenced(Append(b, t, e, refs), t, b.Log(t) + [e])
  {
    var b1, log := Append(b, t, e, refs), b.Log(t) + [e];
    forall i, k | 0 <= i < |log| && log[i].id in b1.links && 0 <= k < |b1.links[log[i].id]|
      ensures ArtifactUsable(b1, t, b1.links[log[i].id][k].artifactId)
    {
      if i < |b.Log(t)| {
        assert log[i] == b.Log(t)[i];
        assert ArtifactUsable(b, t, b.links[log[i].id][k].artifactId);
      } else {
        assert ArtifactUsable(b, t, refs[k].artifactId);
      }
    }
  }

  lemma AppendKeepsQa(b: Board, t: Uuid, e: Entry, refs: seq<ArtifactRef>)
    requires t in b.tasks && QaMatched(b, t) && e.kind != QA
    ensures QaMatched(Append(b, t, e, refs), t)
  {
    var b1 := Append(b, t, e, refs);
    forall q | AnsweredIn(b1, t, q) ensures Recorded(b1, q) {
      assert AnsweredIn(b, t, q) && Recorded(b, q);
    }
    forall q, r | AnsweredIn(b1, t, q) && AnsweredIn(b1, t, r) && q != r
      ensures b1.answers[q].seqNo != b1.answers[r].seqNo
    {
      assert AnsweredIn(b, t, q) && AnsweredIn(b, t, r);
    }
    forall i | 0 <= i < |b1.Log(t)| && b1.Log(t)[i].kind == QA
      ensures AnswerOf(b1, t, b1.Log(t)[i])
    {
      assert b1.Log(t)[i] == b.Log(t)[i];
      var q :| AnsweredIn(b, t, q) && b.answers[q] == b.Log(t)[i];
      assert AnsweredIn(b1, t, q);
    }
  }

  lemma PublishKeepsTask(b: Board, t: Uuid, actor: Actor, request: PublishRequest, id: Uuid, now: int)
    requires t in b.tasks && TaskOk(b, t) && request.CheckContract() && FreshEntryId(b, id)
    ensures TaskOk(BoardPublish(b, t, actor, request, id, now).0, t)
  {
    var b1 := BoardPublish(b, t, actor, request, id, now).0;
    if b1 != b {
      var e := NewEntry(b, t, actor, request, id, now);
      assert b1 == Append(b, t, e, request.artifactRefs) && Gate(b, t, request);
      assert b1.Log(t) == b.Log(t) + [e];
      assert request.kind != QA;
      AppendKeepsCitations(b.Log(t), e);
      AppendKeepsEvidence(b, t, e, request.artifactRefs);
      AppendKeepsQa(b, t, e, request.artifactRefs);
    }
  }

  /* ---- the record of an answer ---- */

  lemma RecordKeepsQa(b: Board, id: Uuid, e: Entry, m: Message)
    requires id in b.questions && b.questions[id].taskId in b.tasks && !b.questions[id].answered
    requires QaMatched(b, b.questions[id].taskId) && e.seqNo == |b.Log(b.questions[id].taskId)| + 1
    requires e.kind == QA && e.actor == b.questions[id].askedBy && e.body.QABody?
    requires e.body.question == b.questions[id].question
    requires e.body.fromSupervisor == (b.questions[id].origin.role == Supervisor)
    requires e.body.originAgentId == b.questions[id].origin.agentId
    ensures QaMatched(RecordAnswer(b, id, b.questions[id], e, m), b.questions[id].taskId)
  {
    var t := b.questions[id].taskId;
    var b1 := RecordAnswer(b, id, b.questions[id], e, m);
    forall q | AnsweredIn(b1, t, q)
      ensures Recorded(b1, q)
      ensures q != id ==> AnsweredIn(b, t, q) && b1.answers[q].seqNo <= |b.Log(t)|
    {
      if q != id {
        assert AnsweredIn(b, t, q) && Recorded(b, q);
      }
    }
    forall i | 0 <= i < |b1.Log(t)| && b1.Log(t)[i].kind == QA
      ensures AnswerOf(b1, t, b1.Log(t)[i])
    {
      RecordCovers(b, id, e, m, i);
    }
  }

  lemma RecordCovers(b: Board, id: Uuid, e: Entry, m: Message, i: nat)
    requires id in b.questions && b.questions[id].taskId in b.tasks && !b.questions[id].answered
    requires QaMatched(b, b.questions[id].taskId) && i <= |b.Log(b.questions[id].taskId)|
    requires i < |b.Log(b.questions[id].taskId)| ==> b.Log(b.questions[id].taskId)[i].kind == QA
    ensures var b1 := RecordAnswer(b, id, b.questions[id], e, m);
            AnswerOf(b1, b.questions[id].taskId, b1.Log(b.questions[id].taskId)[i])
  {
    var t := b.questions[id].taskId;
    var b1 := RecordAnswer(b, id, b.questions[id], e, m);
    if i < |b.Log(t)| {
      assert AnswerOf(b, t, b.Log(t)[i]);
      var q :| AnsweredIn(b, t, q) && b.answers[q] == b.Log(t)[i];
      assert AnsweredIn(b1, t, q);
    } else {
      assert AnsweredIn(b1, t, id);
    }
  }

  lemma RecordKeepsEvidence(b: Board, id: Uuid, e: Entry, m: Message)
    requires id in b.questions && b.questions[id].taskId in b.tasks && e.kind == QA && FreshEntryId(b, e.id)
    requires Evidenced(b, b.questions[id].taskId, b.Log(b.questions[id].taskId))
    ensures Evidenced(RecordAnswer(b, id, b.questions[id], e, m), b.questions[id].taskId, b.Log(b.questions[id].taskId) + [e])
  {
    var t := b.questions[id].taskId;
    var b1, log := RecordAnswer(b, id, b.questions[id], e, m), b.Log(t) + [e];
    forall i, k | 0 <= i < |log| && log[i].id in b1.links && 0 <= k < |b1.links[log[i].id]|
      ensures ArtifactUsable(b1, t, b1.links[log[i].id][k].artifactId)
    {
      assert log[i] == b.Log(t)[i];
      assert ArtifactUsable(b, t, b.links[log[i].id][k].artifactId);
    }
  }

  lemma AnswerKeepsTask(b: Board, op: Op)
    requires op.OpAnswerQuestion? && FreshIds(b, op) && op.id in b.questions
    requires b.questions[op.id].taskId in b.tasks && TaskOk(b, b.questions[op.id].taskId)
    ensures TaskOk(Apply(b, op), b.questions[op.id].taskId)
  {
    var q := b.questions[op.id];
    var b1 := Apply(b, op);
    if b1 != b {
      var e := AnswerEntry(q, b.tasks[q.taskId], op.answer, op.attachments, op.key, op.entryId, op.now);
      var m := AnswerMessage(op.id, q, b.tasks[q.taskId], op.answer, op.user, op.messageId);
      assert b1 == RecordAnswer(b, op.id, q, e, m);
      assert b1.Log(q.taskId) == b.Log(q.taskId) + [e];
      AppendKeepsCitations(b.Log(q.taskId), e);
      RecordKeepsEvidence(b, op.id, e, m);
      RecordKeepsQa(b, op.id, e, m);
    }
  }

  /* ---- the remaining operations ---- */

  /** b1 has the entries, links and answers of b, and at most more artifacts and unanswered questions. */
  ghost predicate OnlyAdds(b: Board, b1: Board, t: Uuid) {
    && b1.Log(t) == b.Log(t) && b1.links == b.links && b1.answers == b.answers
    && (forall a :: a in b.artifacts ==> a in b1.artifacts && b1.artifacts[a] == b.artifacts[a])
    && (forall q :: q in b.questions ==> q in b1.questions && b1.questions[q] == b.questions[q])
    && (forall q :: q in b1.questions && q !in b.questions ==> !b1.questions[q].answered && q !in b1.answers)
  }

  lemma OnlyAddsKeepsTask(b: Board, b1: Board, t: Uuid)
    requires t in b.tasks && TaskOk(b, t) && OnlyAdds(b, b1, t) && t in b1.tasks && Gapless(b1, t)
    ensures TaskOk(b1, t)
  {
    assert Evidenced(b1, t, b1.Log(t)) by {
      forall i, k | 0 <= i < |b1.Log(t)| && b1.Log(t)[i].id in b1.links && 0 <= k < |b1.links[b1.Log(t)[i].id]|
        ensures ArtifactUsable(b1, t, b1.links[b1.Log(t)[i].id][k].artifactId)
      {
        assert ArtifactUsable(b, t, b.links[b.Log(t)[i].id][k].artifactId);
      }
    }
    assert QaMatched(b1, t) by {
      forall q | AnsweredIn(b1, t, q) ensures Recorded(b1, q) && AnsweredIn(b, t, q) {
        assert Recorded(b, q);
      }
      forall i | 0 <= i < |b1.Log(t)| && b1.Log(t)[i].kind == QA
        ensures AnswerOf(b1, t, b1.Log(t)[i])
      {
        var q :| AnsweredIn(b, t, q) && b.answers[q] == b.Log(t)[i];
        assert AnsweredIn(b1, t, q);
      }
    }
  }

  lemma OpKeepsItsTask(b: Board, op: Op, t: Uuid)
    requires Inv(b) && FreshIds(b, op) && Target(b, op) == Some(t) && t in Apply(b, op).tasks
    ensures TaskOk(Apply(b, op), t)
  {
    match op
    case OpPublish(_, actor, request, id, now) =>
      if request.CheckContract() && t in b.tasks {
        PublishKeepsTask(b, t, actor, request, id, now);
      }
    case OpAnswerQuestion(_, _, _, _, _, _, _, _) => AnswerKeepsTask(b, op);
    case OpDeleteTask(_) =>
    case OpCreateTask(_) => CreatedTaskOk(b, t);
    case OpUpdateTask(_, state, finalSeq) => UpdateKeepsTask(b, t, state, finalSeq);
    case OpRegisterArtifact(a) => RegisterKeepsTask(b, a);
    case OpAppendDialogue(_, actor, channel, text, id) => DialogueKeepsTask(b, t, actor, channel, text, id);
    case OpCreateQuestion(id, _, text, origin, askedBy) => QuestionKeepsTask(b, id, t, text, origin, askedBy);
    case OpSaveWriteup(_, snapshotSeq, id) => WriteupKeepsTask(b, t, snapshotSeq, id);
  }

  lemma UpdateKeepsTask(b: Board, t: Uuid, state: Option<RunState>, finalSeq: Option<nat>)
    requires t in b.tasks && TaskOk(b, t)
    ensures TaskOk(UpdateTask(b, t, state, finalSeq).0, t)
  {
    OnlyAddsKeepsTask(b, UpdateTask(b, t, state, finalSeq).0, t);
  }

  lemma RegisterKeepsTask(b: Board, a: Artifact)
    requires a.taskId in b.tasks && TaskOk(b, a.taskId)
    ensures TaskOk(RegisterArtifact(b, a).0, a.taskId)
  {
    OnlyAddsKeepsTask(b, RegisterArtifact(b, a).0, a.taskId);
  }

  lemma QuestionKeepsTask(b: Board, id: Uuid, t: Uuid, text: string, origin: Actor, askedBy: Actor)
    requires t in b.tasks && TaskOk(b, t) && b.answers.Keys <= b.questions.Keys
    ensures TaskOk(CreateQuestion(b, id, t, text, origin, askedBy).0, t)
  {
    OnlyAddsKeepsTask(b, CreateQuestion(b, id, t, text, origin, askedBy).0, t);
  }

  lemma DialogueKeepsTask(b: Board, t: Uuid, actor: Actor, channel: string, text: string, id: Uuid)
    requires t in b.tasks && TaskOk(b, t)
    ensures TaskOk(AppendDialogue(b, t, actor, channel, text, id).0, t)
  {
    var b1 := AppendDialogue(b, t, actor, channel, text, id).0;
    if b1 != b {
      assert b1 == AppendMessage(b, t, Message(id, t, b.tasks[t].dialogueSeq + 1, channel, actor, text, None));
      assert b1.Log(t) == b.Log(t);
      assert Gapless(b1, t);
      OnlyAddsKeepsTask(b, b1, t);
    }
  }

  lemma WriteupKeepsTask(b: Board, t: Uuid, snapshotSeq: nat, id: Uuid)
    requires t in b.tasks && TaskOk(b, t)
    ensures TaskOk(SaveWriteup(b, t, snapshotSeq, id).0, t)
  {
    OnlyAddsKeepsTask(b, SaveWriteup(b, t, snapshotSeq, id).0, t);
  }

  lemma CreatedTaskOk(b: Board, t: Uuid)
    requires Inv(b)
    ensures TaskOk(CreateTask(b, t).0, t)
  {
    var b1 := CreateTask(b, t).0;
    if t !in b.tasks {
      assert b1.Log(t) == [] && b1.Talk(t) == [];
      forall q | q in b1.questions ensures b1.questions[q].taskId != t {
        assert b.questions[q].taskId in b.tasks;
      }
    }
  }

  lemma OpKeepsOwned(b: Board, op: Op)
    requires Owned(b)
    ensures Owned(Apply(b, op))
  {
  }

  lemma OpKeepsIdsDistinct(b: Board, op: Op)
    requires EntryIdsDistinct(b) && FreshIds(b, op)
    ensures EntryIdsDistinct(Apply(b, op))
  {
    var b1 := Apply(b, op);
    forall t, i, u, j | 0 <= i < |b1.Log(t)| && 0 <= j < |b1.Log(u)| && b1.Log(t)[i].id == b1.Log(u)[j].id
      ensures t == u && i == j
    {
      LogStep(b, op, t);
      LogStep(b, op, u);
    }
  }

  /** One operation leaves a log as it is, empties it with its task, or appends one entry with a new identifier. */
  lemma LogStep(b: Board, op: Op, t: Uuid)
    requires FreshIds(b, op)
    ensures var log, log1 := b.Log(t), Apply(b, op).Log(t);
      || log1 == log
      || (op == OpDeleteTask(t) && log1 == [])
      || (|log1| == |log| + 1 && log1[..|log|] == log && FreshEntryId(b, log1[|log|].id)
          && Target(b, op) == Some(t) && log1[|log|].id == if op.OpPublish? then op.id else if op.OpAnswerQuestion? then op.entryId else 0)
  {
  }

  lemma OpKeepsInv(b: Board, op: Op)
    requires Inv(b) && FreshIds(b, op)
    ensures Inv(Apply(b, op))
  {
    OpKeepsOwned(b, op);
    OpKeepsIdsDistinct(b, op);
    forall t | t in Apply(b, op).tasks
      ensures TaskOk(Apply(b, op), t)
    {
      if Target(b, op) == Some(t) {
        OpKeepsItsTask(b, op, t);
      } else {
        OpKeepsOtherTasks(b, op, t);
        SameTaskKeepsOk(b, Apply(b, op), t);
      }
    }
  }

  lemma {:induction false} RunKeepsInv(b: Board, ops: seq<Op>)
    requires Inv(b) && FreshRun(b, ops)
    ensures Inv(Run(b, ops))
    decreases |ops|
  {
    if ops != [] {
      OpKeepsInv(b, ops[0]);
      RunKeepsInv(Apply(b, ops[0]), ops[1..]);
    }
  }

  lemma EmptyBoardInv()
    ensures Inv(EMPTY)
  {
  }
}
