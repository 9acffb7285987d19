/** What the storage operations do to the stored records (tga3/src/tga3/storage.py), as functions on values. */
module Board {
  import opened Domain

  /** The dictionaries of InMemoryStorage, or the tables of the PostgreSQL schema. */
  datatype Board = Board(
    tasks: map<Uuid, TaskRun>,
    artifacts: map<Uuid, Artifact>,
    entries: map<Uuid, seq<Entry>>,
    links: map<Uuid, seq<ArtifactRef>>,
    dialogue: map<Uuid, seq<Message>>,
    questions: map<Uuid, Question>,
    answers: map<Uuid, Entry>,
    writeups: map<Uuid, Writeup>)
  {
    function Log(t: Uuid): seq<Entry> {
      if t in entries then entries[t] else []
    }

    function Talk(t: Uuid): seq<Message> {
      if t in dialogue then dialogue[t] else []
    }
  }

  const EMPTY := Board(map[], map[], map[], map[], map[], map[], map[], map[])

  /* ---- reads ---- */

  /** The first entry of this agent under this idempotency key. */
  function FindKey(log: seq<Entry>, agentId: string, key: string): (r: Option<Entry>)
    ensures r.None? ==> forall i :: 0 <= i < |log| ==> !(log[i].actor.agentId == agentId && log[i].key == key)
    ensures r.Some? ==> exists i :: 0 <= i < |log| && log[i] == r.value && r.value.actor.agentId == agentId && r.value.key == key
  {
    if log == [] then None
    else if log[0].actor.agentId == agentId && log[0].key == key then Some(log[0])
    else FindKey(log[1..], agentId, key)
  }

  /** Entries with after < seq <= upTo in log order. */
  function Filtered(log: seq<Entry>, after: int, upTo: Option<int>): seq<Entry> {
    if log == [] then []
    else
      var rest := Filtered(log[1..], after, upTo);
      if after < log[0].seqNo && (upTo.Some? ==> log[0].seqNo <= upTo.value) then [log[0]] + rest else rest
  }

  function Take<T>(s: seq<T>, limit: nat): seq<T> {
    if |s| <= limit then s else s[..limit]
  }

  function ListEntries(b: Board, t: Uuid, after: int, upTo: Option<int>, limit: nat): Result<seq<Entry>> {
    if t !in b.tasks then Err(NotFound) else Ok(Take(Filtered(b.Log(t), after, upTo), limit))
  }

  function FindingLinks(b: Board, t: Uuid, finding: Uuid): Result<seq<ArtifactRef>> {
    if exists i :: 0 <= i < |b.Log(t)| && b.Log(t)[i].id == finding && b.Log(t)[i].kind == Finding
                && forall j :: 0 <= j < i ==> b.Log(t)[j].id != finding
    then Ok(if finding in b.links then b.links[finding] else [])
    else Err(NotFound)
  }

  /* ---- the gates of _validate_publish ---- */

  predicate IsSpace(c: char) {
    c in {'\t', '\n', '\U{0B}', '\U{0C}', '\r', '\U{1C}', '\U{1D}', '\U{1E}', '\U{1F}', ' ', '\U{85}', '\U{A0}',
          '\U{1680}', '\U{2028}', '\U{2029}', '\U{202F}', '\U{205F}', '\U{3000}'}
    || '\U{2000}' <= c <= '\U{200A}'
  }

  predicate Blank(s: string) {
    forall i :: 0 <= i < |s| ==> IsSpace(s[i])
  }

  predicate ArtifactUsable(b: Board, t: Uuid, artifact: Uuid) {
    artifact in b.artifacts && b.artifacts[artifact].taskId == t && b.artifacts[artifact].available
  }

  predicate RefsUsable(b: Board, t: Uuid, refs: seq<ArtifactRef>) {
    forall k :: 0 <= k < |refs| ==> ArtifactUsable(b, t, refs[k].artifactId)
  }

  predicate NoBlankLocator(refs: seq<ArtifactRef>) {
    forall k :: 0 <= k < |refs| ==> !Blank(refs[k].locator)
  }

  predicate IsFinding(log: seq<Entry>, id: Uuid) {
    exists i :: 0 <= i < |log| && log[i].id == id && log[i].kind == Finding
  }

  predicate CitesFindings(log: seq<Entry>, ids: seq<Uuid>) {
    forall k :: 0 <= k < |ids| ==> IsFinding(log, ids[k])
  }

  predicate Gate(b: Board, t: Uuid, request: PublishRequest)
    requires request.CheckContract()
  {
    && RefsUsable(b, t, request.artifactRefs)
    && NoBlankLocator(request.artifactRefs)
    && (request.kind == FinalCandidate ==> CitesFindings(b.Log(t), request.body.findingIds))
  }

  /* ---- writes ---- */

  function NewEntry(b: Board, t: Uuid, actor: Actor, request: PublishRequest, id: Uuid, now: int): Entry
    requires t in b.tasks
  {
    Entry(id, t, b.tasks[t].blackboardSeq + 1, actor, request.kind, request.topic, request.body, request.key, now)
  }

  /** Appends an entry with its evidence links and moves the task's sequence to it. */
  function Append(b: Board, t: Uuid, e: Entry, refs: seq<ArtifactRef>): Board
    requires t in b.tasks
  {
    b.(entries := b.entries[t := b.Log(t) + [e]],
       links := if refs != [] then b.links[e.id := refs] else b.links,
       tasks := b.tasks[t := b.tasks[t].(blackboardSeq := e.seqNo)])
  }

  function Publish(b: Board, t: Uuid, actor: Actor, request: PublishRequest, id: Uuid, now: int)
    : (r: (Board, Result<Entry>))
    requires request.CheckContract()
  {
    if t !in b.tasks then (b, Err(NotFound))
    else
      var existing := FindKey(b.Log(t), actor.agentId, request.key);
      if existing.Some? then (b, Ok(existing.value))
      else if !Gate(b, t, request) then (b, Err(FindingRejected))
      else
        var e := NewEntry(b, t, actor, request, id, now);
        (Append(b, t, e, request.artifactRefs), Ok(e))
  }

  /** The kinds each role may publish through the Blackboard interface; QA is in none. */
  function WritePolicy(role: Role): set<EntryKind> {
    match role
    case User => {UserPrompt, UserFile}
    case Supervisor => {SupervisorAdvice}
    case Worker => {Intel, Finding, FinalCandidate}
    case Reporter => {}
    case System => {UserPrompt, UserFile}
  }

  function BoardPublish(b: Board, t: Uuid, actor: Actor, request: PublishRequest, id: Uuid, now: int)
    : (r: (Board, Result<Entry>))
    requires request.CheckContract()
  {
    if request.kind !in WritePolicy(actor.role) then (b, Err(Contract))
    else Publish(b, t, actor, request, id, now)
  }

  function AppendMessage(b: Board, t: Uuid, m: Message): Board
    requires t in b.tasks
  {
    b.(dialogue := b.dialogue[t := b.Talk(t) + [m]], tasks := b.tasks[t := b.tasks[t].(dialogueSeq := m.seqNo)])
  }

  function AppendDialogue(b: Board, t: Uuid, actor: Actor, channel: string, text: string, id: Uuid)
    : (Board, Result<Message>)
  {
    if t !in b.tasks then (b, Err(NotFound))
    else if text == "" then (b, Err(Contract))
    else
      var m := Message(id, t, b.tasks[t].dialogueSeq + 1, channel, actor, text, None);
      (AppendMessage(b, t, m), Ok(m))
  }

  function CreateQuestion(b: Board, id: Uuid, t: Uuid, text: string, origin: Actor, askedBy: Actor)
    : (Board, Result<Question>)
  {
    if t !in b.tasks then (b, Err(NotFound))
    else if id in b.questions then (b, Err(Conflict))
    else
      var q := Question(t, text, origin, askedBy, false);
      (b.(questions := b.questions[id := q]), Ok(q))
  }

  /** The log entry that answering a question produces. */
  function AnswerEntry(q: Question, run: TaskRun, answer: string, attachments: seq<Uuid>, key: string, id: Uuid, now: int): Entry {
    Entry(id, q.taskId, run.blackboardSeq + 1, q.askedBy, QA, "q&a",
          QABody(q.question, answer, q.origin.role == Supervisor, q.origin.agentId, attachments), key, now)
  }

  function AnswerMessage(question: Uuid, q: Question, run: TaskRun, answer: string, user: Actor, id: Uuid): Message {
    Message(id, q.taskId, run.dialogueSeq + 1, SUPERVISOR_ID, user, answer, Some(question))
  }

  function RecordAnswer(b: Board, id: Uuid, q: Question, e: Entry, m: Message): Board
    requires q.taskId in b.tasks
  {
    var t := q.taskId;
    b.(entries := b.entries[t := b.Log(t) + [e]],
       dialogue := b.dialogue[t := b.Talk(t) + [m]],
       questions := b.questions[id := q.(answered := true)],
       answers := b.answers[id := e],
       tasks := b.tasks[t := b.tasks[t].(blackboardSeq := e.seqNo, dialogueSeq := m.seqNo)])
  }

  function AnswerQuestion(
    b: Board, id: Uuid, answer: string, attachments: seq<Uuid>, user: Actor, key: string,
    entryId: Uuid, messageId: Uuid, now: int): (Board, Result<Entry>)
  {
    if id !in b.questions then (b, Err(NotFound))
    else
      var q := b.questions[id];
      if q.answered then (b, if id in b.answers then Ok(b.answers[id]) else Err(NotFound))
      else if q.taskId !in b.tasks then (b, Err(NotFound))
      else if answer == "" then (b, Err(Contract))
      else
        var e := AnswerEntry(q, b.tasks[q.taskId], answer, attachments, key, entryId, now);
        var m := AnswerMessage(id, q, b.tasks[q.taskId], answer, user, messageId);
        (RecordAnswer(b, id, q, e, m), Ok(e))
  }

  function UpdateTask(b: Board, t: Uuid, state: Option<RunState>, finalSeq: Option<nat>): (Board, Result<TaskRun>) {
    if t !in b.tasks then (b, Err(NotFound))
    else
      var run := b.tasks[t];
      var run1 := run.(state := if state.Some? then state.value else run.state,
                       finalSnapshotSeq := if finalSeq.Some? then finalSeq else run.finalSnapshotSeq);
      (b.(tasks := b.tasks[t := run1]), Ok(run1))
  }

  function CreateTask(b: Board, t: Uuid): (Board, Result<TaskRun>) {
    if t in b.tasks then (b, Err(Conflict))
    else
      var run := TaskRun(Created, 0, 0, None);
      (b.(tasks := b.tasks[t := run]), Ok(run))
  }

  function RegisterArtifact(b: Board, a: Artifact): (Board, Result<Artifact>) {
    if a.taskId !in b.tasks then (b, Err(NotFound))
    else if a.id in b.artifacts then (b, Err(Conflict))
    else (b.(artifacts := b.artifacts[a.id := a]), Ok(a))
  }

  function SaveWriteup(b: Board, t: Uuid, snapshotSeq: nat, id: Uuid): (Board, Result<Uuid>) {
    if t !in b.tasks then (b, Err(NotFound))
    else (b.(writeups := b.writeups[id := Writeup(t, snapshotSeq)]), Ok(id))
  }

  function QuestionsOf(b: Board, t: Uuid): set<Uuid> {
    set q | q in b.questions && b.questions[q].taskId == t
  }

  function ArtifactsOf(b: Board, t: Uuid): set<Uuid> {
    set a | a in b.artifacts && b.artifacts[a].taskId == t
  }

  function WriteupsOf(b: Board, t: Uuid): set<Uuid> {
    set w | w in b.writeups && b.writeups[w].taskId == t
  }

  function EntryIds(log: seq<Entry>): set<Uuid> {
    set i | 0 <= i < |log| :: log[i].id
  }

  function Erase(b: Board, t: Uuid): Board {
    Board(
      b.tasks - {t},
      b.artifacts - ArtifactsOf(b, t),
      b.entries - {t},
      b.links - EntryIds(b.Log(t)),
      b.dialogue - {t},
      b.questions - QuestionsOf(b, t),
      b.answers - QuestionsOf(b, t),
      b.writeups - WriteupsOf(b, t))
  }

  function DeleteTask(b: Board, t: Uuid): (Board, Result<()>) {
    if t !in b.tasks then (b, Err(NotFound)) else (Erase(b, t), Ok(()))
  }
}
