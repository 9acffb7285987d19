/** What every run of storage operations keeps. */
module BoardRuns {
  import opened Domain
  import opened Board

  datatype Op =
    | OpCreateTask(t: Uuid)
    | OpDeleteTask(t: Uuid)
    | OpUpdateTask(t: Uuid, state: Option<RunState>, finalSeq: Option<nat>)
    | OpRegisterArtifact(a: Artifact)
    | OpPublish(t: Uuid, actor: Actor, request: PublishRequest, id: Uuid, now: int)
    | OpAppendDialogue(t: Uuid, actor: Actor, channel: string, text: string, id: Uuid)
    | OpCreateQuestion(id: Uuid, t: Uuid, text: string, origin: Actor, askedBy: Actor)
    | OpAnswerQuestion(id: Uuid, answer: string, attachments: seq<Uuid>, user: Actor, key: string,
                       entryId: Uuid, messageId: Uuid, now: int)
    | OpSaveWriteup(t: Uuid, snapshotSeq: nat, id: Uuid)

  function Apply(b: Board, op: Op): Board {
    match op
    case OpCreateTask(t) => CreateTask(b, t).0
    case OpDeleteTask(t) => DeleteTask(b, t).0
    case OpUpdateTask(t, state, finalSeq) => UpdateTask(b, t, state, finalSeq).0
    case OpRegisterArtifact(a) => RegisterArtifact(b, a).0
    case OpPublish(t, actor, request, id, now) =>
      if request.CheckContract() then BoardPublish(b, t, actor, request, id, now).0 else b
    case OpAppendDialogue(t, actor, channel, text, id) => AppendDialogue(b, t, actor, channel, text, id).0
    case OpCreateQuestion(id, t, text, origin, askedBy) => CreateQuestion(b, id, t, text, origin, askedBy).0
    case OpAnswerQuestion(id, answer, attachments, user, key, entryId, messageId, now) =>
      AnswerQuestion(b, id, answer, attachments, user, key, entryId, messageId, now).0
    case OpSaveWriteup(t, snapshotSeq, id) => SaveWriteup(b, t, snapshotSeq, id).0
  }

  function Run(b: Board, ops: seq<Op>): Board
    decreases |ops|
  {
    if ops == [] then b else Run(Apply(b, ops[0]), ops[1..])
  }

  /** uuid4 never repeats: the identifier belongs to no stored entry or writeup. */
  ghost predicate FreshEntryId(b: Board, id: Uuid) {
    id !in b.links && forall u, i :: 0 <= i < |b.Log(u)| ==> b.Log(u)[i].id != id
  }

  ghost predicate FreshIds(b: Board, op: Op) {
    match op
    case OpPublish(_, _, _, id, _) => FreshEntryId(b, id)
    case OpAnswerQuestion(_, _, _, _, _, entryId, _, _) => FreshEntryId(b, entryId)
    case OpSaveWriteup(_, _, id) => id !in b.writeups
    case _ => true
  }

  ghost predicate FreshRun(b: Board, ops: seq<Op>)
    decreases |ops|
  {
    ops == [] || (FreshIds(b, ops[0]) && FreshRun(Apply(b, ops[0]), ops[1..]))
  }

  predicate NeverDeletes(ops: seq<Op>, t: Uuid) {
    forall i :: 0 <= i < |ops| ==> ops[i] != OpDeleteTask(t)
  }

  /* ---- the invariant ---- */

  /** Sequence numbers are 1..n without a gap and the task counters are the lengths. */
  ghost predicate Gapless(b: Board, t: Uuid)
    requires t in b.tasks
  {
    && b.tasks[t].blackboardSeq == |b.Log(t)|
    && b.tasks[t].dialogueSeq == |b.Talk(t)|
    && (forall i :: 0 <= i < |b.Log(t)| ==> b.Log(t)[i].seqNo == i + 1 && b.Log(t)[i].taskId == t)
    && (forall i :: 0 <= i < |b.Talk(t)| ==> b.Talk(t)[i].seqNo == i + 1 && b.Talk(t)[i].taskId == t)
  }

  /** Each final candidate of a log cites findings that stand strictly before it, and at least one. */
  ghost predicate CitesEarlierFindings(log: seq<Entry>) {
    forall i :: 0 <= i < |log| && log[i].kind == FinalCandidate ==>
      log[i].body.CandidateBody? && log[i].body.findingIds != [] && CitesFindings(log[..i], log[i].body.findingIds)
  }

  /** Evidence: each finding has a link, and each link names an available artifact of the same task. */
  ghost predicate Evidenced(b: Board, t: Uuid, log: seq<Entry>) {
    forall i :: 0 <= i < |log| ==>
      && (log[i].kind == Finding ==> log[i].id in b.links && b.links[log[i].id] != [])
      && (log[i].id in b.links ==> RefsUsable(b, t, b.links[log[i].id]))
  }

  ghost predicate ReferenceClosed(b: Board, t: Uuid, log: seq<Entry>) {
    CitesEarlierFindings(log) && Evidenced(b, t, log)
  }

  /** Question q was answered by the log entry recorded for it. */
  ghost predicate Recorded(b: Board, q: Uuid)
    requires q in b.questions && q in b.answers
  {
    var e, p := b.answers[q], b.questions[q];
    && 1 <= e.seqNo <= |b.Log(p.taskId)|
    && b.Log(p.taskId)[e.seqNo - 1] == e
    && e.kind == QA
    && e.actor == p.askedBy
    && e.body.QABody?
    && e.body.question == p.question
    && e.body.fromSupervisor == (p.origin.role == Supervisor)
    && e.body.originAgentId == p.origin.agentId
  }

  predicate AnsweredIn(b: Board, t: Uuid, q: Uuid) {
    q in b.questions && b.questions[q].taskId == t && q in b.answers
  }

  /** Each answered question of the task has its own log entry. */
  ghost predicate AnswersRecorded(b: Board, t: Uuid) {
    && (forall q :: q in b.questions && b.questions[q].taskId == t ==> (b.questions[q].answered <==> q in b.answers))
    && (forall q :: AnsweredIn(b, t, q) ==> Recorded(b, q))
    && (forall q, r :: AnsweredIn(b, t, q) && AnsweredIn(b, t, r) && q != r ==> b.answers[q].seqNo != b.answers[r].seqNo)
  }

  ghost predicate AnswerOf(b: Board, t: Uuid, e: Entry) {
    exists q :: AnsweredIn(b, t, q) && b.answers[q] == e
  }

  /** Answered questions of the task and QA entries of its log are in one-to-one correspondence. */
  ghost predicate QaMatched(b: Board, t: Uuid) {
    && AnswersRecorded(b, t)
    && (forall i :: 0 <= i < |b.Log(t)| && b.Log(t)[i].kind == QA ==> AnswerOf(b, t, b.Log(t)[i]))
  }

  /** Every entry was allowed to its author's role, or is the record of an answer. */
  ghost predicate Authorized(log: seq<Entry>) {
    forall i :: 0 <= i < |log| ==> log[i].kind == QA || log[i].kind in WritePolicy(log[i].actor.role)
  }

  ghost predicate TaskOk(b: Board, t: Uuid)
    requires t in b.tasks
  {
    Gapless(b, t) && ReferenceClosed(b, t, b.Log(t)) && QaMatched(b, t) && Authorized(b.Log(t))
  }

  /** Records belong to existing tasks. */
  ghost predicate Owned(b: Board) {
    && b.entries.Keys <= b.tasks.Keys
    && b.dialogue.Keys <= b.tasks.Keys
    && b.answers.Keys <= b.questions.Keys
    && (forall a :: a in b.artifacts ==> b.artifacts[a].taskId in b.tasks)
    && (forall q :: q in b.questions ==> b.questions[q].taskId in b.tasks)
  }

  ghost predicate EntryIdsDistinct(b: Board) {
    forall t, i, u, j ::
      0 <= i < |b.Log(t)| && 0 <= j < |b.Log(u)| && b.Log(t)[i].id == b.Log(u)[j].id ==> t == u && i == j
  }

  ghost predicate Inv(b: Board) {
    Owned(b) && EntryIdsDistinct(b) && forall t :: t in b.tasks ==> TaskOk(b, t)
  }

  /* ---- other tasks are left alone ---- */

  ghost predicate SameLinks(b: Board, b1: Board, log: seq<Entry>) {
    forall i :: 0 <= i < |log| ==>
      && (log[i].id in b.links <==> log[i].id in b1.links)
      && (log[i].id in b.links ==> b.links[log[i].id] == b1.links[log[i].id])
  }

  ghost predicate SameArtifacts(b: Board, b1: Board, t: Uuid) {
    && (forall a :: a in b.artifacts && b.artifacts[a].taskId == t ==> a in b1.artifacts && b1.artifacts[a] == b.artifacts[a])
    && (forall a :: a in b1.artifacts && b1.artifacts[a].taskId == t ==> a in b.artifacts && b1.artifacts[a] == b.artifacts[a])
  }

  ghost predicate SameQuestions(b: Board, b1: Board, t: Uuid) {
    && QuestionsOf(b, t) == QuestionsOf(b1, t)
    && forall q :: q in QuestionsOf(b, t) ==>
         && b.questions[q] == b1.questions[q]
         && (q in b.answers <==> q in b1.answers)
         && (q in b.answers ==> b.answers[q] == b1.answers[q])
  }

  ghost predicate SameWriteups(b: Board, b1: Board, t: Uuid) {
    && (forall w :: w in b.writeups && b.writeups[w].taskId == t ==> w in b1.writeups && b1.writeups[w] == b.writeups[w])
    && (forall w :: w in b1.writeups && b1.writeups[w].taskId == t ==> w in b.writeups && b1.writeups[w] == b.writeups[w])
  }

  ghost predicate SameLog(b: Board, b1: Board, t: Uuid) {
    && (t in b.tasks <==> t in b1.tasks)
    && (t in b.tasks ==> b.tasks[t] == b1.tasks[t])
    && b.Log(t) == b1.Log(t)
    && b.Talk(t) == b1.Talk(t)
  }

  /** Everything stored about task t is the same on both boards. */
  ghost predicate SameTask(b: Board, b1: Board, t: Uuid) {
    && SameLog(b, b1, t)
    && SameLinks(b, b1, b.Log(t))
    && SameArtifacts(b, b1, t)
    && SameQuestions(b, b1, t)
    && SameWriteups(b, b1, t)
  }

  /** The task an operation is about; None when it names a question nobody asked. */
  function Target(b: Board, op: Op): Option<Uuid> {
    match op
    case OpCreateTask(t) => Some(t)
    case OpDeleteTask(t) => Some(t)
    case OpUpdateTask(t, _, _) => Some(t)
    case OpRegisterArtifact(a) => Some(a.taskId)
    case OpPublish(t, _, _, _, _) => Some(t)
    case OpAppendDialogue(t, _, _, _, _) => Some(t)
    case OpCreateQuestion(_, t, _, _, _) => Some(t)
    case OpAnswerQuestion(id, _, _, _, _, _, _, _) => if id in b.questions then Some(b.questions[id].taskId) else None
    case OpSaveWriteup(t, _, _) => Some(t)
  }

  /** Deleting a task changes no record of any other task. */
  lemma DeleteKeepsOtherTasks(b: Board, t: Uuid, u: Uuid)
    requires EntryIdsDistinct(b) && u != t
    ensures SameTask(b, DeleteTask(b, t).0, u)
  {
    if t in b.tasks {
      var b1 := Erase(b, t);
      assert SameLinks(b, b1, b.Log(u)) by {
        forall i | 0 <= i < |b.Log(u)| ensures b.Log(u)[i].id !in EntryIds(b.Log(t)) {
        }
      }
      assert QuestionsOf(b, u) == QuestionsOf(b1, u);
    }
  }

  lemma AppendKeepsOtherTasks(b: Board, t: Uuid, e: Entry, refs: seq<ArtifactRef>, u: Uuid)
    requires t in b.tasks && FreshEntryId(b, e.id) && u != t
    ensures SameTask(b, Append(b, t, e, refs), u)
  {
    assert QuestionsOf(b, u) == QuestionsOf(Append(b, t, e, refs), u);
  }

  lemma RecordKeepsOtherTasks(b: Board, id: Uuid, e: Entry, m: Message, u: Uuid)
    requires id in b.questions && b.questions[id].taskId in b.tasks && u != b.questions[id].taskId
    ensures SameTask(b, RecordAnswer(b, id, b.questions[id], e, m), u)
  {
    assert QuestionsOf(b, u) == QuestionsOf(RecordAnswer(b, id, b.questions[id], e, m), u);
  }

  lemma AddQuestionKeepsOtherTasks(b: Board, id: Uuid, q: Question, u: Uuid)
    requires u != q.taskId && id !in b.questions
    ensures SameTask(b, b.(questions := b.questions[id := q]), u)
  {
    assert QuestionsOf(b, u) == QuestionsOf(b.(questions := b.questions[id := q]), u);
  }

  lemma CreateQuestionKeepsOtherTasks(b: Board, id: Uuid, t: Uuid, text: string, origin: Actor, askedBy: Actor, u: Uuid)
    requires u != t
    ensures SameTask(b, CreateQuestion(b, id, t, text, origin, askedBy).0, u)
  {
    var b1 := CreateQuestion(b, id, t, text, origin, askedBy).0;
    if b1 == b {
      assert QuestionsOf(b, u) == QuestionsOf(b1, u);
    } else {
      AddQuestionKeepsOtherTasks(b, id, Question(t, text, origin, askedBy, false), u);
    }
  }

  lemma PublishKeepsOtherTasks(b: Board, t: Uuid, actor: Actor, request: PublishRequest, id: Uuid, now: int, u: Uuid)
    requires request.CheckContract() && FreshEntryId(b, id) && u != t
    ensures SameTask(b, BoardPublish(b, t, actor, request, id, now).0, u)
  {
    var b1 := BoardPublish(b, t, actor, request, id, now).0;
    if b1 != b {
      assert b1 == Append(b, t, NewEntry(b, t, actor, request, id, now), request.artifactRefs);
      AppendKeepsOtherTasks(b, t, NewEntry(b, t, actor, request, id, now), request.artifactRefs, u);
    }
  }

  lemma AnswerKeepsOtherTasks(b: Board, op: Op, u: Uuid)
    requires op.OpAnswerQuestion? && Target(b, op) != Some(u)
    ensures SameTask(b, Apply(b, op), u)
  {
    var b1 := Apply(b, op);
    if b1 != b {
      var q := b.questions[op.id];
      var e := AnswerEntry(q, b.tasks[q.taskId], op.answer, op.attachments, op.key, op.entryId, op.now);
      var m := AnswerMessage(op.id, q, b.tasks[q.taskId], op.answer, op.user, op.messageId);
      assert b1 == RecordAnswer(b, op.id, q, e, m);
      RecordKeepsOtherTasks(b, op.id, e, m, u);
    }
  }

  /** The operations that touch one row or one map only. */
  predicate RowOp(op: Op) {
    op.OpCreateTask? || op.OpUpdateTask? || op.OpRegisterArtifact? || op.OpAppendDialogue? || op.OpSaveWriteup?
  }

  lemma SetRowKeepsOtherTasks(b: Board, t: Uuid, run: TaskRun, u: Uuid)
    requires u != t
    ensures SameTask(b, b.(tasks := b.tasks[t := run]), u)
  {
    assert QuestionsOf(b, u) == QuestionsOf(b.(tasks := b.tasks[t := run]), u);
  }

  lemma AppendMessageKeepsOtherTasks(b: Board, t: Uuid, m: Message, u: Uuid)
    requires t in b.tasks && u != t
    ensures SameTask(b, AppendMessage(b, t, m), u)
  {
    assert QuestionsOf(b, u) == QuestionsOf(AppendMessage(b, t, m), u);
  }

  lemma AddArtifactKeepsOtherTasks(b: Board, a: Artifact, u: Uuid)
    requires u != a.taskId && a.id !in b.artifacts
    ensures SameTask(b, b.(artifacts := b.artifacts[a.id := a]), u)
  {
    assert QuestionsOf(b, u) == QuestionsOf(b.(artifacts := b.artifacts[a.id := a]), u);
  }

  lemma AddWriteupKeepsOtherTasks(b: Board, t: Uuid, snapshotSeq: nat, id: Uuid, u: Uuid)
    requires u != t && id !in b.writeups
    ensures SameTask(b, b.(writeups := b.writeups[id := Writeup(t, snapshotSeq)]), u)
  {
    assert QuestionsOf(b, u) == QuestionsOf(b.(writeups := b.writeups[id := Writeup(t, snapshotSeq)]), u);
  }

  lemma RowOpKeepsOtherTasks(b: Board, op: Op, u: Uuid)
    requires RowOp(op) && FreshIds(b, op) && Target(b, op) != Some(u)
    ensures SameTask(b, Apply(b, op), u)
  {
    var b1 := Apply(b, op);
    if b1 == b {
      assert QuestionsOf(b, u) == QuestionsOf(b1, u);
    } else if op.OpRegisterArtifact? {
      AddArtifactKeepsOtherTasks(b, op.a, u);
    } else if op.OpSaveWriteup? {
      AddWriteupKeepsOtherTasks(b, op.t, op.snapshotSeq, op.id, u);
    } else if op.OpAppendDialogue? {
      var m := AppendDialogue(b, op.t, op.actor, op.channel, op.text, op.id).1.value;
      assert b1 == AppendMessage(b, op.t, m);
      AppendMessageKeepsOtherTasks(b, op.t, m, u);
    } else {
      assert b1 == b.(tasks := b.tasks[op.t := b1.tasks[op.t]]);
      SetRowKeepsOtherTasks(b, op.t, b1.tasks[op.t], u);
    }
  }

  /** An operation changes the records of the task it is about and of no other. */
  lemma OpKeepsOtherTasks(b: Board, op: Op, u: Uuid)
    requires EntryIdsDistinct(b) && FreshIds(b, op) && Target(b, op) != Some(u)
    ensures SameTask(b, Apply(b, op), u)
  {
    match op
    case OpDeleteTask(t) => DeleteKeepsOtherTasks(b, t, u);
    case OpPublish(t, actor, request, id, now) =>
      if request.CheckContract() {
        PublishKeepsOtherTasks(b, t, actor, request, id, now, u);
      }
    case OpCreateQuestion(id, t, text, origin, askedBy) =>
      CreateQuestionKeepsOtherTasks(b, id, t, text, origin, askedBy, u);
    case OpAnswerQuestion(_, _, _, _, _, _, _, _) => AnswerKeepsOtherTasks(b, op, u);
    case _ => RowOpKeepsOtherTasks(b, op, u);
  }

  lemma SameTaskKeepsOk(b: Board, b1: Board, u: Uuid)
    requires u in b.tasks && TaskOk(b, u) && SameTask(b, b1, u)
    ensures TaskOk(b1, u)
  {
    assert Evidenced(b1, u, b1.Log(u)) by {
      forall i, k | 0 <= i < |b1.Log(u)| && b1.Log(u)[i].id in b1.links && 0 <= k < |b1.links[b1.Log(u)[i].id]|
        ensures ArtifactUsable(b1, u, b1.links[b1.Log(u)[i].id][k].artifactId)
      {
        assert ArtifactUsable(b, u, b.links[b.Log(u)[i].id][k].artifactId);
      }
    }
    SameTaskKeepsQa(b, b1, u);
  }

  lemma SameTaskKeepsQa(b: Board, b1: Board, u: Uuid)
    requires QaMatched(b, u) && SameLog(b, b1, u) && SameQuestions(b, b1, u)
    ensures QaMatched(b1, u)
  {
    forall q | q in b1.questions && b1.questions[q].taskId == u
      ensures b1.questions[q].answered <==> q in b1.answers
      ensures q in b1.answers ==> AnsweredIn(b, u, q) && Recorded(b1, q) && b1.answers[q] == b.answers[q]
    {
      assert q in QuestionsOf(b, u);
      assert AnsweredIn(b, u, q) <==> AnsweredIn(b1, u, q);
    }
    forall i | 0 <= i < |b1.Log(u)| && b1.Log(u)[i].kind == QA
      ensures AnswerOf(b1, u, b1.Log(u)[i])
    {
      var q :| AnsweredIn(b, u, q) && b.answers[q] == b.Log(u)[i];
      assert q in QuestionsOf(b, u);
      assert AnsweredIn(b1, u, q);
    }
  }
}
