/** PostgresStorage: publish, answer and dialogue transactions as steps that interleave under locks. */
module Postgres {
  import opened Domain
  import opened Board
  import opened BoardRuns

  /* ---- one transaction run alone ---- */

  datatype Request =
    | PublishTx(t: Uuid, actor: Actor, request: PublishRequest, id: Uuid, now: int)
    | AnswerTx(question: Uuid, answer: string, attachments: seq<Uuid>, user: Actor, key: string,
               entryId: Uuid, messageId: Uuid, now: int)
    | DialogueTx(t: Uuid, actor: Actor, channel: string, text: string, messageId: Uuid)
    | UpdateRow(t: Uuid, state: Option<RunState>, finalSeq: Option<nat>)
    | AddArtifact(a: Artifact)
    | Ask(question: Uuid, t: Uuid, text: string, origin: Actor, askedBy: Actor)
    | NewTask(t: Uuid)
    | KeepWriteup(t: Uuid, snapshotSeq: nat, writeup: Uuid)
  {
    predicate WellFormed() {
      PublishTx? ==> request.CheckContract()
    }

    /** Single statements that commit by themselves. */
    predicate Auto() {
      UpdateRow? || AddArtifact? || Ask? || NewTask? || KeepWriteup?
    }
  }

  datatype Outcome = EntryOut(entry: Result<Entry>) | MessageOut(message: Result<Message>) | StatementOut(done: bool)

  /** The primary key of blackboard_artifact_links within one entry. */
  predicate DistinctRefs(refs: seq<ArtifactRef>) {
    forall i, j :: 0 <= i < j < |refs| ==> !(refs[i].artifactId == refs[j].artifactId && refs[i].locator == refs[j].locator)
  }

  function PgPublish(b: Board, t: Uuid, actor: Actor, request: PublishRequest, id: Uuid, now: int): (Board, Result<Entry>)
    requires request.CheckContract()
  {
    var existing := FindKey(b.Log(t), actor.agentId, request.key);
    if existing.Some? then (b, Ok(existing.value))
    else if !RefsUsable(b, t, request.artifactRefs) then (b, Err(FindingRejected))
    else if request.kind == FinalCandidate && !CitesFindings(b.Log(t), request.body.findingIds) then (b, Err(FindingRejected))
    else if t !in b.tasks then (b, Err(NotFound))
    else if !DistinctRefs(request.artifactRefs) then (b, Err(UniqueViolation))
    else
      var e := NewEntry(b, t, actor, request, id, now);
      (Append(b, t, e, request.artifactRefs), Ok(e))
  }

  function PgAnswer(
    b: Board, id: Uuid, answer: string, attachments: seq<Uuid>, user: Actor, key: string,
    entryId: Uuid, messageId: Uuid, now: int): (Board, Result<Entry>)
  {
    if id !in b.questions then (b, Err(NotFound))
    else
      var q := b.questions[id];
      if q.answered then
        var existing := FindKey(b.Log(q.taskId), SUPERVISOR_ID, key);
        (b, if existing.Some? then Ok(existing.value) else Err(Conflict))
      else if answer == "" then (b, Err(Contract))
      else if q.taskId !in b.tasks then (b, Err(NotFound))
      else if FindKey(b.Log(q.taskId), q.askedBy.agentId, key).Some? then (b, Err(UniqueViolation))
      else
        var e := AnswerEntry(q, b.tasks[q.taskId], answer, attachments, key, entryId, now);
        (RecordAnswer(b, id, q, e, AnswerMessage(id, q, b.tasks[q.taskId], answer, user, messageId)), Ok(e))
  }

  /** A statement that commits by itself has the same effect in both storages. */
  function Statement(b: Board, r: Request): (Board, Outcome)
    requires r.Auto()
  {
    match r
    case UpdateRow(t, state, finalSeq) =>
      var u := UpdateTask(b, t, state, finalSeq); (u.0, StatementOut(u.1.Ok?))
    case AddArtifact(a) =>
      var u := RegisterArtifact(b, a); (u.0, StatementOut(u.1.Ok?))
    case Ask(question, t, text, origin, askedBy) =>
      var u := CreateQuestion(b, question, t, text, origin, askedBy); (u.0, StatementOut(u.1.Ok?))
    case NewTask(t) =>
      var u := CreateTask(b, t); (u.0, StatementOut(u.1.Ok?))
    case KeepWriteup(t, snapshotSeq, writeup) =>
      var u := SaveWriteup(b, t, snapshotSeq, writeup); (u.0, StatementOut(u.1.Ok?))
  }

  function PgApply(b: Board, r: Request): (Board, Outcome)
    requires r.WellFormed()
  {
    match r
    case PublishTx(t, actor, request, id, now) =>
      var u := PgPublish(b, t, actor, request, id, now); (u.0, EntryOut(u.1))
    case AnswerTx(question, answer, attachments, user, key, entryId, messageId, now) =>
      var u := PgAnswer(b, question, answer, attachments, user, key, entryId, messageId, now); (u.0, EntryOut(u.1))
    case DialogueTx(t, actor, channel, text, messageId) =>
      var u := AppendDialogue(b, t, actor, channel, text, messageId); (u.0, MessageOut(u.1))
    case _ => Statement(b, r)
  }

  /* ---- the interleaved machine ---- */

  datatype Pc =
    | Begin
    | QuestionLocked(q: Question)
    | AnswerLocked(q: Question)
    | AnswerBumped(q: Question, run: TaskRun)
    | AnswerInserted(q: Question, run: TaskRun, e: Entry)
    | Locked
    | KeyFree
    | RefsChecked
    | CitesChecked
    | Bumped(run: TaskRun)
    | Linking(run: TaskRun, e: Entry, linked: nat)
    | MessageInserted(run: TaskRun, m: Message)
    | Finished(out: Outcome)
    | Aborted

  datatype Tx = Tx(request: Request, pc: Pc)

  /** author: the transaction that did it; None for a statement that commits by itself. */
  datatype Serial = Serial(author: Option<nat>, request: Request, out: Outcome)

  /** committed: what every other session reads. The three maps say who holds the advisory lock of a task, the row
      lock of a task_runs row and the row lock of a question. history: the order in which effects became visible. */
  datatype Db = Db(
    committed: Board,
    txs: map<nat, Tx>,
    advisory: map<Uuid, nat>,
    rows: map<Uuid, nat>,
    questions: map<Uuid, nat>,
    history: seq<Serial>)

  datatype Event =
    | Open(tx: nat, request: Request)
    | Step(tx: nat)
    | Abort(tx: nat)
    | Execute(request: Request)

  predicate Holds(locks: map<Uuid, nat>, x: Uuid, tx: nat) {
    x in locks && locks[x] == tx
  }

  predicate Free(locks: map<Uuid, nat>, x: Uuid, tx: nat) {
    x !in locks || locks[x] == tx
  }

  function Release(locks: map<Uuid, nat>, tx: nat): map<Uuid, nat> {
    map x | x in locks && locks[x] != tx :: locks[x]
  }

  function Goto(db: Db, tx: nat, pc: Pc): Db
    requires tx in db.txs
  {
    db.(txs := db.txs[tx := Tx(db.txs[tx].request, pc)])
  }

  function Unlock(db: Db, tx: nat): Db {
    db.(advisory := Release(db.advisory, tx), rows := Release(db.rows, tx), questions := Release(db.questions, tx))
  }

  /** COMMIT, or the error that ends a transaction without effect: the outcome and the new state become visible. */
  function Finish(db: Db, tx: nat, b: Board, out: Outcome): Db
    requires tx in db.txs
  {
    Unlock(Goto(db, tx, Finished(out)).(committed := b, history := db.history + [Serial(Some(tx), db.txs[tx].request, out)]), tx)
  }

  function Reject(db: Db, tx: nat, error: Error): Db
    requires tx in db.txs
  {
    Finish(db, tx, db.committed, EntryOut(Err(error)))
  }

  function LockTask(db: Db, tx: nat, t: Uuid, pc: Pc): Db
    requires tx in db.txs
  {
    if Free(db.advisory, t, tx) then Goto(db, tx, pc).(advisory := db.advisory[t := tx]) else db
  }

  function PublishStep(db: Db, tx: nat): Db
    requires tx in db.txs && db.txs[tx].request.PublishTx? && db.txs[tx].request.WellFormed()
  {
    var r, b := db.txs[tx].request, db.committed;
    match db.txs[tx].pc
    case Begin => LockTask(db, tx, r.t, Locked)
    case Locked =>
      var existing := FindKey(b.Log(r.t), r.actor.agentId, r.request.key);
      if existing.Some? then Finish(db, tx, b, EntryOut(Ok(existing.value))) else Goto(db, tx, KeyFree)
    case KeyFree =>
      if RefsUsable(b, r.t, r.request.artifactRefs) then Goto(db, tx, RefsChecked) else Reject(db, tx, FindingRejected)
    case RefsChecked =>
      if r.request.kind == FinalCandidate && !CitesFindings(b.Log(r.t), r.request.body.findingIds)
      then Reject(db, tx, FindingRejected) else Goto(db, tx, CitesChecked)
    case CitesChecked =>
      if r.t !in b.tasks then Reject(db, tx, NotFound)
      else if !Free(db.rows, r.t, tx) then db
      else
        var run := b.tasks[r.t].(blackboardSeq := b.tasks[r.t].blackboardSeq + 1);
        Goto(db, tx, Bumped(run)).(rows := db.rows[r.t := tx])
    case Bumped(run) =>
      var e := Entry(r.id, r.t, run.blackboardSeq, r.actor, r.request.kind, r.request.topic, r.request.body, r.request.key, r.now);
      Goto(db, tx, Linking(run, e, 0))
    case Linking(run, e, linked) =>
      var refs := r.request.artifactRefs;
      if linked < |refs| then
        if DistinctRefs(refs[..linked + 1]) then Goto(db, tx, Linking(run, e, linked + 1)) else Reject(db, tx, UniqueViolation)
      else
        var links := if refs != [] then b.links[e.id := refs] else b.links;
        Finish(db, tx, b.(entries := b.entries[r.t := b.Log(r.t) + [e]], links := links, tasks := b.tasks[r.t := run]),
               EntryOut(Ok(e)))
    case _ => db
  }

  function AnswerStep(db: Db, tx: nat): Db
    requires tx in db.txs && db.txs[tx].request.AnswerTx?
  {
    var r, b := db.txs[tx].request, db.committed;
    match db.txs[tx].pc
    case Begin =>
      if r.question !in b.questions then Reject(db, tx, NotFound)
      else if !Free(db.questions, r.question, tx) then db
      else Goto(db, tx, QuestionLocked(b.questions[r.question])).(questions := db.questions[r.question := tx])
    case QuestionLocked(q) => LockTask(db, tx, q.taskId, AnswerLocked(q))
    case AnswerLocked(q) =>
      if q.answered then
        var existing := FindKey(b.Log(q.taskId), SUPERVISOR_ID, r.key);
        if existing.Some? then Finish(db, tx, b, EntryOut(Ok(existing.value))) else Reject(db, tx, Conflict)
      else if r.answer == "" then Reject(db, tx, Contract)
      else if q.taskId !in b.tasks then Reject(db, tx, NotFound)
      else if !Free(db.rows, q.taskId, tx) then db
      else
        var run := b.tasks[q.taskId];
        Goto(db, tx, AnswerBumped(q, run.(blackboardSeq := run.blackboardSeq + 1, dialogueSeq := run.dialogueSeq + 1)))
          .(rows := db.rows[q.taskId := tx])
    case AnswerBumped(q, run) =>
      if FindKey(b.Log(q.taskId), q.askedBy.agentId, r.key).Some? then Reject(db, tx, UniqueViolation)
      else
        var body := QABody(q.question, r.answer, q.origin.role == Supervisor, q.origin.agentId, r.attachments);
        Goto(db, tx, AnswerInserted(q, run, Entry(r.entryId, q.taskId, run.blackboardSeq, q.askedBy, QA, "q&a", body, r.key, r.now)))
    case AnswerInserted(q, run, e) =>
      var t := q.taskId;
      var m := Message(r.messageId, t, run.dialogueSeq, SUPERVISOR_ID, r.user, r.answer, Some(r.question));
      Finish(db, tx, b.(entries := b.entries[t := b.Log(t) + [e]], dialogue := b.dialogue[t := b.Talk(t) + [m]],
                        questions := b.questions[r.question := q.(answered := true)],
                        answers := b.answers[r.question := e], tasks := b.tasks[t := run]),
             EntryOut(Ok(e)))
    case _ => db
  }

  function DialogueStep(db: Db, tx: nat): Db
    requires tx in db.txs && db.txs[tx].request.DialogueTx?
  {
    var r, b := db.txs[tx].request, db.committed;
    match db.txs[tx].pc
    case Begin => LockTask(db, tx, r.t, Locked)
    case Locked =>
      if r.t !in b.tasks then Finish(db, tx, b, MessageOut(Err(NotFound)))
      else if !Free(db.rows, r.t, tx) then db
      else
        Goto(db, tx, Bumped(b.tasks[r.t].(dialogueSeq := b.tasks[r.t].dialogueSeq + 1))).(rows := db.rows[r.t := tx])
    case Bumped(run) =>
      if r.text == "" then Finish(db, tx, b, MessageOut(Err(Contract)))
      else Goto(db, tx, MessageInserted(run, Message(r.messageId, r.t, run.dialogueSeq, r.channel, r.actor, r.text, None)))
    case MessageInserted(run, m) =>
      Finish(db, tx, b.(dialogue := b.dialogue[r.t := b.Talk(r.t) + [m]], tasks := b.tasks[r.t := run]), MessageOut(Ok(m)))
    case _ => db
  }

  /** A statement on a task_runs row waits for the row lock; the others insert new rows and wait for nobody. */
  function ExecuteStatement(db: Db, r: Request): Db
    requires r.Auto()
  {
    if r.UpdateRow? && r.t in db.rows then db
    else db.(committed := Statement(db.committed, r).0, history := db.history + [Serial(None, r, Statement(db.committed, r).1)])
  }

  /** One event; an event that is not possible (a blocked or finished transaction, a used number) changes nothing. */
  function Next(db: Db, event: Event): Db {
    match event
    case Open(tx, request) =>
      if tx in db.txs || !request.WellFormed() || request.Auto() then db
      else db.(txs := db.txs[tx := Tx(request, Begin)])
    case Step(tx) =>
      if tx !in db.txs || !db.txs[tx].request.WellFormed() then db
      else if db.txs[tx].request.PublishTx? then PublishStep(db, tx)
      else if db.txs[tx].request.AnswerTx? then AnswerStep(db, tx)
      else if db.txs[tx].request.DialogueTx? then DialogueStep(db, tx)
      else db
    case Abort(tx) =>
      if tx !in db.txs || db.txs[tx].pc.Finished? then db else Unlock(Goto(db, tx, Aborted), tx)
    case Execute(request) =>
      if request.Auto() then ExecuteStatement(db, request) else db
  }

  function Exec(db: Db, events: seq<Event>): Db
    decreases |events|
  {
    if events == [] then db else Exec(Next(db, events[0]), events[1..])
  }

  function Initial(b: Board): Db {
    Db(b, map[], map[], map[], map[], [])
  }

  predicate WellFormed(history: seq<Serial>) {
    forall k :: 0 <= k < |history| ==> history[k].request.WellFormed()
  }

  /** The state after running the requests of a history one after the other. */
  function Replay(b: Board, history: seq<Serial>): Board
    requires WellFormed(history)
  {
    if history == [] then b else PgApply(Replay(b, history[..|history| - 1]), history[|history| - 1].request).0
  }

  predicate TruthfulAt(b: Board, history: seq<Serial>, k: nat)
    requires WellFormed(history) && k < |history|
  {
    history[k].out == PgApply(Replay(b, history[..k]), history[k].request).1
  }

  /** Every request of the history returned what it returns when run alone at its place. */
  predicate Truthful(b: Board, history: seq<Serial>) {
    WellFormed(history) && forall k :: 0 <= k < |history| ==> TruthfulAt(b, history, k)
  }
}
