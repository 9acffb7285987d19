/** What each operation stores, when it succeeds, and how long its records last; stated without the operations' own parts. */
module BoardEffects {
  import opened Domain
  import opened Board
  import opened BoardRuns
  import opened BoardInvariant
  import opened BoardTheorems

  /* ---- publishing ---- */

  /** An entry of the log has this agent and key. */
  ghost predicate KeyUsed(log: seq<Entry>, agentId: string, key: string) {
    exists i :: 0 <= i < |log| && log[i].actor.agentId == agentId && log[i].key == key
  }

  ghost predicate UsableAt(b: Board, t: Uuid, ref: ArtifactRef) {
    && ref.artifactId in b.artifacts
    && b.artifacts[ref.artifactId].taskId == t
    && b.artifacts[ref.artifactId].available
    && exists i :: 0 <= i < |ref.locator| && !IsSpace(ref.locator[i])
  }

  /** Every reference names an available artifact of the task at a locator that says something. */
  ghost predicate EvidenceUsable(b: Board, t: Uuid, refs: seq<ArtifactRef>) {
    forall k :: 0 <= k < |refs| ==> UsableAt(b, t, refs[k])
  }

  ghost predicate NamesFinding(log: seq<Entry>, id: Uuid) {
    exists i :: 0 <= i < |log| && log[i].kind == Finding && log[i].id == id
  }

  /** A conclusion cites findings of the log only. */
  ghost predicate CitationsStand(log: seq<Entry>, body: Body) {
    body.CandidateBody? ==> forall k :: 0 <= k < |body.findingIds| ==> NamesFinding(log, body.findingIds[k])
  }

  lemma EvidenceIff(b: Board, t: Uuid, refs: seq<ArtifactRef>)
    ensures RefsUsable(b, t, refs) && NoBlankLocator(refs) <==> EvidenceUsable(b, t, refs)
  {
    forall k | 0 <= k < |refs|
      ensures ArtifactUsable(b, t, refs[k].artifactId) && !Blank(refs[k].locator) <==> UsableAt(b, t, refs[k])
    {
    }
  }

  lemma CitationsIff(log: seq<Entry>, body: Body)
    requires body.CandidateBody?
    ensures CitesFindings(log, body.findingIds) <==> CitationsStand(log, body)
  {
    forall k | 0 <= k < |body.findingIds|
      ensures IsFinding(log, body.findingIds[k]) <==> NamesFinding(log, body.findingIds[k])
    {
    }
  }

  lemma GateIff(b: Board, t: Uuid, request: PublishRequest)
    requires request.CheckContract()
    ensures Gate(b, t, request) <==> EvidenceUsable(b, t, request.artifactRefs) && CitationsStand(b.Log(t), request.body)
  {
    EvidenceIff(b, t, request.artifactRefs);
    assert request.body.CandidateBody? <==> request.kind == FinalCandidate;
    if request.body.CandidateBody? {
      CitationsIff(b.Log(t), request.body);
    }
  }

  lemma KeyUsedIff(log: seq<Entry>, agentId: string, key: string)
    ensures KeyUsed(log, agentId, key) <==> FindKey(log, agentId, key).Some?
  {
  }

  /** The roles that may publish each kind. */
  lemma RolesOf(kind: EntryKind, role: Role)
    ensures kind in {UserPrompt, UserFile} ==> (kind in WritePolicy(role) <==> role in {Role.User, Role.System})
    ensures kind == SupervisorAdvice ==> (kind in WritePolicy(role) <==> role == Role.Supervisor)
    ensures kind in {Intel, Finding, FinalCandidate} ==> (kind in WritePolicy(role) <==> role == Role.Worker)
    ensures kind == QA ==> kind !in WritePolicy(role)
  {
  }

  /** The error a publish ends with: first the role, then the task, then a used key needs no further check, then the gates. */
  lemma PublishSucceedsIff(b: Board, t: Uuid, actor: Actor, request: PublishRequest, id: Uuid, now: int)
    requires request.CheckContract()
    ensures var r := BoardPublish(b, t, actor, request, id, now).1;
      && (r == Err(Contract) <==> request.kind !in WritePolicy(actor.role))
      && (r == Err(NotFound) <==> request.kind in WritePolicy(actor.role) && t !in b.tasks)
      && (r.Ok? <==> request.kind in WritePolicy(actor.role) && t in b.tasks
                     && (KeyUsed(b.Log(t), actor.agentId, request.key)
                         || (EvidenceUsable(b, t, request.artifactRefs) && CitationsStand(b.Log(t), request.body))))
      && (r.Err? ==> BoardPublish(b, t, actor, request, id, now).0 == b && r.error in {Contract, NotFound, FindingRejected})
  {
    GateIff(b, t, request);
    KeyUsedIff(b.Log(t), actor.agentId, request.key);
  }

  /** The entry has everything the request names, the next number, and its author. */
  ghost predicate Carries(e: Entry, t: Uuid, seqNo: nat, actor: Actor, request: PublishRequest, id: Uuid, now: int) {
    && e.id == id && e.taskId == t && e.seqNo == seqNo && e.actor == actor && e.createdAt == now
    && e.kind == request.kind && e.topic == request.topic && e.body == request.body && e.key == request.key
  }

  function LinksOf(b: Board, id: Uuid): seq<ArtifactRef> {
    if id in b.links then b.links[id] else []
  }

  /** Beyond task t's row, log, dialogue and the links of new entries nothing was touched. */
  ghost predicate OnlyLogGrew(b: Board, b1: Board, t: Uuid, e: Entry) {
    && b1.Log(t) == b.Log(t) + [e]
    && b1.Talk(t) == b.Talk(t) && b1.artifacts == b.artifacts && b1.questions == b.questions && b1.answers == b.answers
    && b1.writeups == b.writeups
    && t in b.tasks && t in b1.tasks
    && b1.tasks[t].state == b.tasks[t].state && b1.tasks[t].finalSnapshotSeq == b.tasks[t].finalSnapshotSeq
    && b1.tasks[t].blackboardSeq == |b1.Log(t)| && b1.tasks[t].dialogueSeq == b.tasks[t].dialogueSeq
  }

  /** A publish under a new key appends one entry that carries the request, with exactly its references as evidence. */
  lemma PublishStores(b: Board, t: Uuid, actor: Actor, request: PublishRequest, id: Uuid, now: int)
    requires t in b.tasks && BoardRuns.Gapless(b, t) && FreshEntryId(b, id)
    requires request.CheckContract() && BoardPublish(b, t, actor, request, id, now).1.Ok?
    requires !KeyUsed(b.Log(t), actor.agentId, request.key)
    ensures var (b1, r) := BoardPublish(b, t, actor, request, id, now);
      && Carries(r.value, t, |b.Log(t)| + 1, actor, request, id, now)
      && OnlyLogGrew(b, b1, t, r.value)
      && LinksOf(b1, id) == request.artifactRefs
  {
    KeyUsedIff(b.Log(t), actor.agentId, request.key);
  }

  /* ---- the other operations ---- */

  /** A message carries its author, channel and text and takes the next dialogue number. */
  lemma DialogueStores(b: Board, t: Uuid, actor: Actor, channel: string, text: string, id: Uuid)
    ensures var (b1, r) := AppendDialogue(b, t, actor, channel, text, id);
      && (r.Ok? <==> t in b.tasks && text != "")
      && (r.Err? ==> b1 == b && r.error == if t in b.tasks then Contract else NotFound)
      && (r.Ok? ==>
            && r.value.actor == actor && r.value.channel == channel && r.value.text == text && r.value.question.None?
            && r.value.id == id && r.value.taskId == t && r.value.seqNo == b.tasks[t].dialogueSeq + 1
            && b1.Talk(t) == b.Talk(t) + [r.value] && b1.entries == b.entries
            && t in b1.tasks && b1.tasks[t].dialogueSeq == r.value.seqNo
            && b1.tasks[t].blackboardSeq == b.tasks[t].blackboardSeq && b1.tasks[t].state == b.tasks[t].state)
  {
  }

  /** A question waits for its answer with the text and the agents it was created with. */
  lemma QuestionStores(b: Board, id: Uuid, t: Uuid, text: string, origin: Actor, askedBy: Actor)
    ensures var (b1, r) := CreateQuestion(b, id, t, text, origin, askedBy);
      && (r.Ok? <==> t in b.tasks && id !in b.questions)
      && (r.Err? ==> b1 == b && r.error == if t in b.tasks then Conflict else NotFound)
      && (r.Ok? ==>
            && id in b1.questions && !b1.questions[id].answered
            && b1.questions[id].taskId == t && b1.questions[id].question == text
            && b1.questions[id].origin == origin && b1.questions[id].askedBy == askedBy
            && b1.questions - {id} == b.questions && b1.entries == b.entries && b1.dialogue == b.dialogue && b1.tasks == b.tasks)
  {
  }

  /** The log entry that answers q. */
  ghost predicate AnswersWith(
    e: Entry, q: Question, answer: string, attachments: seq<Uuid>, key: string, entryId: Uuid, seqNo: nat, now: int)
  {
    && e.kind == QA && e.id == entryId && e.taskId == q.taskId && e.actor == q.askedBy && e.key == key && e.createdAt == now
    && e.seqNo == seqNo && e.topic == "q&a"
    && e.body == QABody(q.question, answer, q.origin.role == Role.Supervisor, q.origin.agentId, attachments)
  }

  /** An answer to a waiting question is stored twice: as the QA entry of the agent that asked, with the answer and its
      attachments, and as the user's message in the supervisor's channel; both take the next numbers. */
  lemma AnswerStores(
    b: Board, id: Uuid, answer: string, attachments: seq<Uuid>, user: Actor, key: string, entryId: Uuid, messageId: Uuid, now: int)
    requires id in b.questions && !b.questions[id].answered && b.questions[id].taskId in b.tasks
    ensures var (b1, r) := AnswerQuestion(b, id, answer, attachments, user, key, entryId, messageId, now);
            var q := b.questions[id];
            var t := q.taskId;
      && (r.Ok? <==> answer != "")
      && (r.Err? ==> b1 == b && r.error == Contract)
      && (r.Ok? ==>
            && AnswersWith(r.value, q, answer, attachments, key, entryId, b.tasks[t].blackboardSeq + 1, now)
            && b1.Log(t) == b.Log(t) + [r.value]
            && |b1.Talk(t)| == |b.Talk(t)| + 1 && b.Talk(t) <= b1.Talk(t)
            && b1.Talk(t)[|b.Talk(t)|] == Message(messageId, t, b.tasks[t].dialogueSeq + 1, "supervisor", user, answer, Some(id))
            && id in b1.questions && b1.questions[id] == q.(answered := true)
            && id in b1.answers && b1.answers[id] == r.value
            && t in b1.tasks && b1.tasks[t].blackboardSeq == r.value.seqNo && b1.tasks[t].dialogueSeq == b.tasks[t].dialogueSeq + 1
            && b1.tasks[t].state == b.tasks[t].state && b1.links == b.links)
  {
  }

  /** An update sets what it names and keeps the rest, the two counters in particular. */
  lemma UpdateStores(b: Board, t: Uuid, state: Option<RunState>, finalSeq: Option<nat>)
    ensures var (b1, r) := UpdateTask(b, t, state, finalSeq);
      && (r.Ok? <==> t in b.tasks)
      && (r.Err? ==> b1 == b && r.error == NotFound)
      && (r.Ok? ==>
            && t in b1.tasks && b1.tasks[t] == r.value
            && (state.Some? ==> r.value.state == state.value) && (state.None? ==> r.value.state == b.tasks[t].state)
            && (finalSeq.Some? ==> r.value.finalSnapshotSeq == finalSeq)
            && (finalSeq.None? ==> r.value.finalSnapshotSeq == b.tasks[t].finalSnapshotSeq)
            && r.value.blackboardSeq == b.tasks[t].blackboardSeq && r.value.dialogueSeq == b.tasks[t].dialogueSeq
            && b1.(tasks := b.tasks) == b && b1.tasks - {t} == b.tasks - {t})
  {
  }

  /** A new task has been created, with an empty log and dialogue ahead of it and no snapshot. */
  lemma CreationStores(b: Board, t: Uuid)
    ensures var (b1, r) := CreateTask(b, t);
      && (r.Ok? <==> t !in b.tasks)
      && (r.Err? ==> b1 == b && r.error == Conflict)
      && (r.Ok? ==> t in b1.tasks && b1.tasks[t] == r.value && b1.tasks - {t} == b.tasks && b1.(tasks := b.tasks) == b
                    && r.value.state == Created && r.value.blackboardSeq == r.value.dialogueSeq == 0 && r.value.finalSnapshotSeq.None?)
  {
  }

  /** An artifact is registered once, for an existing task. */
  lemma ArtifactStores(b: Board, a: Artifact)
    ensures var (b1, r) := RegisterArtifact(b, a);
      && (r.Ok? <==> a.taskId in b.tasks && a.id !in b.artifacts)
      && (r.Err? ==> b1 == b && r.error == if a.taskId in b.tasks then Conflict else NotFound)
      && (r.Ok? ==> a.id in b1.artifacts && b1.artifacts[a.id] == a && b1.artifacts - {a.id} == b.artifacts
                    && b1.(artifacts := b.artifacts) == b)
  {
  }

  /** A writeup belongs to its task and the number it was written for. */
  lemma WriteupStores(b: Board, t: Uuid, snapshotSeq: nat, id: Uuid)
    requires id !in b.writeups
    ensures var (b1, r) := SaveWriteup(b, t, snapshotSeq, id);
      && (r.Ok? <==> t in b.tasks)
      && (r.Err? ==> b1 == b && r.error == NotFound)
      && (r.Ok? ==> id in b1.writeups && b1.writeups[id].taskId == t && b1.writeups[id].snapshotSeq == snapshotSeq
                    && b1.writeups - {id} == b.writeups && b1.(writeups := b.writeups) == b)
  {
  }

  /** Nothing about task t is stored. */
  ghost predicate NothingAbout(b: Board, t: Uuid) {
    && t !in b.tasks && b.Log(t) == [] && b.Talk(t) == []
    && (forall a :: a in b.artifacts ==> b.artifacts[a].taskId != t)
    && (forall q :: q in b.questions ==> b.questions[q].taskId != t)
    && (forall w :: w in b.writeups ==> b.writeups[w].taskId != t)
  }

  /** Deletion leaves nothing of its task: no record, no answer to its questions and no evidence of its entries. */
  lemma DeletionLeavesNothing(b: Board, t: Uuid)
    ensures var (b1, r) := DeleteTask(b, t);
      && (r.Ok? <==> t in b.tasks)
      && (r.Err? ==> b1 == b && r.error == NotFound)
      && (r.Ok? ==> NothingAbout(b1, t)
                    && (forall q :: q in b.questions && b.questions[q].taskId == t ==> q !in b1.answers)
                    && (forall i :: 0 <= i < |b.Log(t)| ==> b.Log(t)[i].id !in b1.links))
  {
    if t in b.tasks {
      forall i | 0 <= i < |b.Log(t)| ensures b.Log(t)[i].id in EntryIds(b.Log(t)) {
      }
    }
  }

  /* ---- how long records last ---- */

  ghost predicate KeepsQuestions(b: Board, b1: Board, t: Uuid) {
    forall q :: q in b.questions && b.questions[q].taskId == t ==>
      && q in b1.questions
      && b1.questions[q].(answered := b.questions[q].answered) == b.questions[q]
      && (b.questions[q].answered ==> b1.questions[q].answered)
      && (q in b.answers ==> q in b1.answers && b1.answers[q] == b.answers[q])
  }

  ghost predicate KeepsArtifacts(b: Board, b1: Board, t: Uuid) {
    forall a :: a in b.artifacts && b.artifacts[a].taskId == t ==> a in b1.artifacts && b1.artifacts[a] == b.artifacts[a]
  }

  ghost predicate KeepsWriteups(b: Board, b1: Board, t: Uuid) {
    forall w :: w in b.writeups && b.writeups[w].taskId == t ==> w in b1.writeups && b1.writeups[w] == b.writeups[w]
  }

  /** Everything recorded about task t is still there: entries and messages in their places, evidence, artifacts, questions
      with their answers, writeups. */
  ghost predicate Keeps(b: Board, b1: Board, t: Uuid) {
    && (t in b.tasks ==> t in b1.tasks)
    && b.Log(t) <= b1.Log(t) && b.Talk(t) <= b1.Talk(t)
    && SameLinks(b, b1, b.Log(t))
    && KeepsQuestions(b, b1, t) && KeepsArtifacts(b, b1, t) && KeepsWriteups(b, b1, t)
  }

  lemma SameTaskKeeps(b: Board, b1: Board, t: Uuid)
    requires SameTask(b, b1, t)
    ensures Keeps(b, b1, t)
  {
    forall q | q in b.questions && b.questions[q].taskId == t ensures q in QuestionsOf(b, t) && q in QuestionsOf(b1, t) {
    }
  }

  lemma KeepsTwice(b: Board, b1: Board, b2: Board, t: Uuid)
    requires Keeps(b, b1, t) && Keeps(b1, b2, t)
    ensures Keeps(b, b2, t)
  {
    forall i | 0 <= i < |b.Log(t)| ensures b1.Log(t)[i] == b.Log(t)[i] {
    }
  }

  lemma AppendKeepsRecords(b: Board, t: Uuid, e: Entry, refs: seq<ArtifactRef>)
    requires t in b.tasks && FreshEntryId(b, e.id)
    ensures Keeps(b, Append(b, t, e, refs), t)
  {
  }

  lemma AnswerKeepsRecords(b: Board, id: Uuid, e: Entry, m: Message)
    requires id in b.questions && b.questions[id].taskId in b.tasks && id !in b.answers
    ensures Keeps(b, RecordAnswer(b, id, b.questions[id], e, m), b.questions[id].taskId)
  {
  }

  lemma SetRowKeepsRecords(b: Board, u: Uuid, run: TaskRun, t: Uuid)
    ensures Keeps(b, b.(tasks := b.tasks[u := run]), t)
  {
  }

  lemma AddMessageKeepsRecords(b: Board, u: Uuid, m: Message, t: Uuid)
    requires u in b.tasks
    ensures Keeps(b, AppendMessage(b, u, m), t)
  {
  }

  lemma AddArtifactKeepsRecords(b: Board, a: Artifact, t: Uuid)
    requires a.id !in b.artifacts
    ensures Keeps(b, b.(artifacts := b.artifacts[a.id := a]), t)
  {
  }

  lemma AddWriteupKeepsRecords(b: Board, w: Uuid, writeup: Writeup, t: Uuid)
    requires w !in b.writeups
    ensures Keeps(b, b.(writeups := b.writeups[w := writeup]), t)
  {
  }

  lemma AddQuestionKeepsRecords(b: Board, id: Uuid, q: Question, t: Uuid)
    requires id !in b.questions
    ensures Keeps(b, b.(questions := b.questions[id := q]), t)
  {
  }

  lemma RowKeepsRecords(b: Board, op: Op, t: Uuid)
    requires RowOp(op) && FreshIds(b, op) && Apply(b, op) != b
    ensures Keeps(b, Apply(b, op), t)
  {
    var b1 := Apply(b, op);
    if op.OpRegisterArtifact? {
      AddArtifactKeepsRecords(b, op.a, t);
    } else if op.OpSaveWriteup? {
      AddWriteupKeepsRecords(b, op.id, Writeup(op.t, op.snapshotSeq), t);
    } else if op.OpAppendDialogue? {
      AddMessageKeepsRecords(b, op.t, AppendDialogue(b, op.t, op.actor, op.channel, op.text, op.id).1.value, t);
    } else {
      assert b1 == b.(tasks := b.tasks[op.t := b1.tasks[op.t]]);
      SetRowKeepsRecords(b, op.t, b1.tasks[op.t], t);
    }
  }

  lemma PublishKeepsRecords(b: Board, op: Op)
    requires op.OpPublish? && FreshIds(b, op) && Apply(b, op) != b
    ensures Keeps(b, Apply(b, op), op.t)
  {
    var e := NewEntry(b, op.t, op.actor, op.request, op.id, op.now);
    assert Apply(b, op) == Append(b, op.t, e, op.request.artifactRefs);
    AppendKeepsRecords(b, op.t, e, op.request.artifactRefs);
  }

  lemma AnsweringKeepsRecords(b: Board, op: Op)
    requires Inv(b) && op.OpAnswerQuestion? && Apply(b, op) != b
    ensures op.id in b.questions && Keeps(b, Apply(b, op), b.questions[op.id].taskId)
  {
    WaitingIsUnanswered(b, op.id);
    var q := b.questions[op.id];
    AnswerKeepsRecords(b, op.id, AnswerEntry(q, b.tasks[q.taskId], op.answer, op.attachments, op.key, op.entryId, op.now),
                       AnswerMessage(op.id, q, b.tasks[q.taskId], op.answer, op.user, op.messageId));
  }

  lemma OpAboutKeepsRecords(b: Board, op: Op, t: Uuid)
    requires Inv(b) && FreshIds(b, op) && op != OpDeleteTask(t) && Target(b, op) == Some(t) && Apply(b, op) != b
    ensures Keeps(b, Apply(b, op), t)
  {
    if op.OpPublish? {
      PublishKeepsRecords(b, op);
    } else if op.OpAnswerQuestion? {
      AnsweringKeepsRecords(b, op);
    } else if op.OpCreateQuestion? {
      AddQuestionKeepsRecords(b, op.id, Question(op.t, op.text, op.origin, op.askedBy, false), t);
    } else {
      RowKeepsRecords(b, op, t);
    }
  }

  lemma WaitingIsUnanswered(b: Board, q: Uuid)
    requires Inv(b) && q in b.questions
    ensures b.questions[q].answered <==> q in b.answers
  {
    InvAnswers(b, b.questions[q].taskId);
  }

  lemma OpKeepsRecords(b: Board, op: Op, t: Uuid)
    requires Inv(b) && FreshIds(b, op) && op != OpDeleteTask(t)
    ensures Keeps(b, Apply(b, op), t)
  {
    if Apply(b, op) == b {
      SameTaskItself(b, t);
      SameTaskKeeps(b, b, t);
    } else if Target(b, op) == Some(t) {
      OpAboutKeepsRecords(b, op, t);
    } else {
      OpKeepsOtherTasks(b, op, t);
      SameTaskKeeps(b, Apply(b, op), t);
    }
  }

  /** Until a task is deleted, no operation takes back or alters anything recorded about it. */
  lemma {:induction false} RecordsLast(b: Board, ops: seq<Op>, t: Uuid)
    requires Inv(b) && FreshRun(b, ops) && NeverDeletes(ops, t)
    ensures Keeps(b, Run(b, ops), t)
    decreases |ops|
  {
    if ops == [] {
      SameTaskItself(b, t);
      SameTaskKeeps(b, b, t);
    } else {
      OpKeepsRecords(b, ops[0], t);
      OpKeepsInv(b, ops[0]);
      RecordsLast(Apply(b, ops[0]), ops[1..], t);
      KeepsTwice(b, Apply(b, ops[0]), Run(b, ops), t);
    }
  }

  lemma LinksOfFinding(b: Board, t: Uuid, k: nat)
    requires EntryIdsDistinct(b) && k < |b.Log(t)| && b.Log(t)[k].kind == Finding
    ensures FindingLinks(b, t, b.Log(t)[k].id) == Ok(LinksOf(b, b.Log(t)[k].id))
  {
  }

  lemma StoredEvidenceLasts(b1: Board, b2: Board, t: Uuid, k: nat)
    requires Keeps(b1, b2, t) && EntryIdsDistinct(b2) && k < |b1.Log(t)|
    ensures LinksOf(b2, b1.Log(t)[k].id) == LinksOf(b1, b1.Log(t)[k].id)
    ensures b1.Log(t)[k].kind == Finding ==> FindingLinks(b2, t, b1.Log(t)[k].id) == Ok(LinksOf(b2, b1.Log(t)[k].id))
  {
    assert b2.Log(t)[k] == b1.Log(t)[k];
    if b1.Log(t)[k].kind == Finding {
      LinksOfFinding(b2, t, k);
    }
  }

  /** Links are found exactly for the findings of the task. */
  lemma LinksFoundIff(b: Board, t: Uuid, id: Uuid)
    requires EntryIdsDistinct(b)
    ensures FindingLinks(b, t, id) == if NamesFinding(b.Log(t), id) then Ok(LinksOf(b, id)) else Err(NotFound)
  {
    if NamesFinding(b.Log(t), id) {
      var i :| 0 <= i < |b.Log(t)| && b.Log(t)[i].kind == Finding && b.Log(t)[i].id == id;
      LinksOfFinding(b, t, i);
    }
  }

  /** The published entry stands where its number says, with its evidence. */
  lemma PublishedEvidence(b: Board, t: Uuid, actor: Actor, request: PublishRequest, id: Uuid, now: int)
    requires Inv(b) && request.CheckContract() && FreshEntryId(b, id)
    requires BoardPublish(b, t, actor, request, id, now).1.Ok? && !KeyUsed(b.Log(t), actor.agentId, request.key)
    ensures var b1 := BoardPublish(b, t, actor, request, id, now).0;
      && Inv(b1) && |b.Log(t)| < |b1.Log(t)|
      && b1.Log(t)[|b.Log(t)|].id == id && b1.Log(t)[|b.Log(t)|].kind == request.kind
      && LinksOf(b1, id) == request.artifactRefs
  {
    InvGapless(b, t);
    PublishStores(b, t, actor, request, id, now);
    OpKeepsInv(b, OpPublish(t, actor, request, id, now));
  }

  /** However much later, the evidence of a published entry is exactly what its request referred to, in that order. */
  lemma EvidenceLasts(b: Board, t: Uuid, actor: Actor, request: PublishRequest, id: Uuid, now: int, ops: seq<Op>)
    requires Reachable(b) && request.CheckContract() && FreshEntryId(b, id) && NeverDeletes(ops, t)
    requires BoardPublish(b, t, actor, request, id, now).1.Ok? && !KeyUsed(b.Log(t), actor.agentId, request.key)
    requires FreshRun(BoardPublish(b, t, actor, request, id, now).0, ops)
    ensures var b2 := Run(BoardPublish(b, t, actor, request, id, now).0, ops);
      && LinksOf(b2, id) == request.artifactRefs
      && (request.kind == Finding ==> FindingLinks(b2, t, id) == Ok(request.artifactRefs))
  {
    ReachableInv(b);
    PublishedEvidence(b, t, actor, request, id, now);
    var b1 := BoardPublish(b, t, actor, request, id, now).0;
    RecordsLast(b1, ops, t);
    RunKeepsInv(b1, ops);
    StoredEvidenceLasts(b1, Run(b1, ops), t, |b.Log(t)|);
  }

  /* ---- the snapshot number ---- */

  /** No operation of the run names a snapshot number for task t. */
  predicate NamesNoSnapshot(ops: seq<Op>, t: Uuid) {
    forall i :: 0 <= i < |ops| ==> !(ops[i].OpUpdateTask? && ops[i].t == t && ops[i].finalSeq.Some?)
  }

  lemma OpKeepsSnapshot(b: Board, op: Op, t: Uuid)
    requires t in b.tasks && op != OpDeleteTask(t) && !(op.OpUpdateTask? && op.t == t && op.finalSeq.Some?)
    ensures t in Apply(b, op).tasks && Apply(b, op).tasks[t].finalSnapshotSeq == b.tasks[t].finalSnapshotSeq
  {
  }

  /** A task keeps its snapshot number until an update names another. */
  lemma {:induction false} SnapshotLasts(b: Board, ops: seq<Op>, t: Uuid)
    requires t in b.tasks && NeverDeletes(ops, t) && NamesNoSnapshot(ops, t)
    ensures t in Run(b, ops).tasks && Run(b, ops).tasks[t].finalSnapshotSeq == b.tasks[t].finalSnapshotSeq
    decreases |ops|
  {
    if ops != [] {
      OpKeepsSnapshot(b, ops[0], t);
      SnapshotLasts(Apply(b, ops[0]), ops[1..], t);
    }
  }
}
