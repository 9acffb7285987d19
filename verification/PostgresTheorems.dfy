/** Interleaved transactions commit what a serial run commits, and when that is what InMemoryStorage does. */
module PostgresTheorems {
  import opened Domain
  import opened Board
  import opened BoardRuns
  import opened Postgres

  /* ---- what an open transaction may rely on ---- */

  ghost predicate PublishOk(db: Db, tx: nat, r: Request, pc: Pc)
    requires r.PublishTx? && r.WellFormed()
  {
    var b, t, request := db.committed, r.t, r.request;
    match pc
    case Begin => true
    case Finished(_) => true
    case Aborted => true
    case Locked => Holds(db.advisory, t, tx)
    case KeyFree => Holds(db.advisory, t, tx) && KeyIsFree(b, r)
    case RefsChecked => Holds(db.advisory, t, tx) && KeyIsFree(b, r) && RefsUsable(b, t, request.artifactRefs)
    case CitesChecked => Holds(db.advisory, t, tx) && PublishGate(b, r)
    case Bumped(run) => Holds(db.advisory, t, tx) && PublishGate(b, r) && RowBumped(db, tx, t, run)
    case Linking(run, e, linked) =>
      && Holds(db.advisory, t, tx) && PublishGate(b, r) && RowBumped(db, tx, t, run)
      && e == NewEntry(b, t, r.actor, request, r.id, r.now)
      && linked <= |request.artifactRefs| && DistinctRefs(request.artifactRefs[..linked])
    case _ => false
  }

  ghost predicate KeyIsFree(b: Board, r: Request)
    requires r.PublishTx?
  {
    FindKey(b.Log(r.t), r.actor.agentId, r.request.key).None?
  }

  ghost predicate PublishGate(b: Board, r: Request)
    requires r.PublishTx? && r.WellFormed()
  {
    && KeyIsFree(b, r)
    && RefsUsable(b, r.t, r.request.artifactRefs)
    && (r.request.kind == FinalCandidate ==> CitesFindings(b.Log(r.t), r.request.body.findingIds))
  }

  ghost predicate RowBumped(db: Db, tx: nat, t: Uuid, run: TaskRun) {
    && Holds(db.rows, t, tx) && t in db.committed.tasks
    && run == db.committed.tasks[t].(blackboardSeq := db.committed.tasks[t].blackboardSeq + 1)
  }

  ghost predicate QuestionRead(db: Db, tx: nat, r: Request, q: Question)
    requires r.AnswerTx?
  {
    Holds(db.questions, r.question, tx) && r.question in db.committed.questions && db.committed.questions[r.question] == q
  }

  ghost predicate AnswerRowBumped(db: Db, tx: nat, r: Request, q: Question, run: TaskRun)
    requires r.AnswerTx?
  {
    && Holds(db.rows, q.taskId, tx) && q.taskId in db.committed.tasks && !q.answered && r.answer != ""
    && var row := db.committed.tasks[q.taskId];
       run == row.(blackboardSeq := row.blackboardSeq + 1, dialogueSeq := row.dialogueSeq + 1)
  }

  ghost predicate AnswerOk(db: Db, tx: nat, r: Request, pc: Pc)
    requires r.AnswerTx?
  {
    match pc
    case Begin => true
    case Finished(_) => true
    case Aborted => true
    case QuestionLocked(q) => QuestionRead(db, tx, r, q)
    case AnswerLocked(q) => QuestionRead(db, tx, r, q) && Holds(db.advisory, q.taskId, tx)
    case AnswerBumped(q, run) =>
      QuestionRead(db, tx, r, q) && Holds(db.advisory, q.taskId, tx) && AnswerRowBumped(db, tx, r, q, run)
    case AnswerInserted(q, run, e) =>
      && QuestionRead(db, tx, r, q) && Holds(db.advisory, q.taskId, tx) && AnswerRowBumped(db, tx, r, q, run)
      && FindKey(db.committed.Log(q.taskId), q.askedBy.agentId, r.key).None?
      && e == AnswerEntry(q, db.committed.tasks[q.taskId], r.answer, r.attachments, r.key, r.entryId, r.now)
    case _ => false
  }

  ghost predicate DialogueRowBumped(db: Db, tx: nat, t: Uuid, run: TaskRun) {
    && Holds(db.rows, t, tx) && t in db.committed.tasks
    && run == db.committed.tasks[t].(dialogueSeq := db.committed.tasks[t].dialogueSeq + 1)
  }

  ghost predicate DialogueOk(db: Db, tx: nat, r: Request, pc: Pc)
    requires r.DialogueTx?
  {
    match pc
    case Begin => true
    case Finished(_) => true
    case Aborted => true
    case Locked => Holds(db.advisory, r.t, tx)
    case Bumped(run) => Holds(db.advisory, r.t, tx) && DialogueRowBumped(db, tx, r.t, run)
    case MessageInserted(run, m) =>
      && Holds(db.advisory, r.t, tx) && DialogueRowBumped(db, tx, r.t, run) && r.text != ""
      && m == Message(r.messageId, r.t, run.dialogueSeq, r.channel, r.actor, r.text, None)
    case _ => false
  }

  ghost predicate TxOk(db: Db, tx: nat)
    requires tx in db.txs
  {
    var r, pc := db.txs[tx].request, db.txs[tx].pc;
    && r.WellFormed()
    && !r.Auto()
    && (r.PublishTx? ==> PublishOk(db, tx, r, pc))
    && (r.AnswerTx? ==> AnswerOk(db, tx, r, pc))
    && (r.DialogueTx? ==> DialogueOk(db, tx, r, pc))
    && (pc.Finished? ==> Serial(Some(tx), r, pc.out) in db.history)
  }

  /** Nothing a transaction can see under its locks has moved. */
  ghost predicate Unmoved(db: Db, db1: Db, tx: nat) {
    var b, b1 := db.committed, db1.committed;
    && tx in db.txs && tx in db1.txs && db1.txs[tx] == db.txs[tx]
    && (forall t :: Holds(db.advisory, t, tx) ==> Holds(db1.advisory, t, tx) && b1.Log(t) == b.Log(t))
    && (forall t :: Holds(db.rows, t, tx) ==> Holds(db1.rows, t, tx) && (t in b.tasks ==> t in b1.tasks && b1.tasks[t] == b.tasks[t]))
    && (forall q :: Holds(db.questions, q, tx) ==>
          Holds(db1.questions, q, tx) && (q in b.questions ==> q in b1.questions && b1.questions[q] == b.questions[q]))
    && (forall a :: a in b.artifacts ==> a in b1.artifacts && b1.artifacts[a] == b.artifacts[a])
    && (forall s :: s in db.history ==> s in db1.history)
  }

  lemma UnmovedKeepsOk(db: Db, db1: Db, tx: nat)
    requires Unmoved(db, db1, tx) && TxOk(db, tx)
    ensures TxOk(db1, tx)
  {
    var r := db.txs[tx].request;
    if r.PublishTx? && Holds(db.advisory, r.t, tx) && RefsUsable(db.committed, r.t, r.request.artifactRefs) {
      UnmovedKeepsRefs(db, db1, tx);
    }
  }

  lemma UnmovedKeepsRefs(db: Db, db1: Db, tx: nat)
    requires Unmoved(db, db1, tx) && db.txs[tx].request.PublishTx?
    requires RefsUsable(db.committed, db.txs[tx].request.t, db.txs[tx].request.request.artifactRefs)
    ensures RefsUsable(db1.committed, db.txs[tx].request.t, db.txs[tx].request.request.artifactRefs)
  {
    var r := db.txs[tx].request;
    forall k | 0 <= k < |r.request.artifactRefs|
      ensures ArtifactUsable(db1.committed, r.t, r.request.artifactRefs[k].artifactId)
    {
      assert ArtifactUsable(db.committed, r.t, r.request.artifactRefs[k].artifactId);
    }
  }

  /* ---- one step ---- */

  /** Other transactions keep their locks, and only what tx has locked may have changed. */
  ghost predicate OnlyTouches(db: Db, db1: Db, tx: nat) {
    var b, b1 := db.committed, db1.committed;
    && db1.txs.Keys == db.txs.Keys + {tx}
    && (forall o :: o in db.txs && o != tx ==> o in db1.txs && db1.txs[o] == db.txs[o])
    && (forall x, o :: o != tx && Holds(db.advisory, x, o) ==> Holds(db1.advisory, x, o))
    && (forall x, o :: o != tx && Holds(db.rows, x, o) ==> Holds(db1.rows, x, o))
    && (forall x, o :: o != tx && Holds(db.questions, x, o) ==> Holds(db1.questions, x, o))
    && (forall t :: !Holds(db.advisory, t, tx) ==> b1.Log(t) == b.Log(t))
    && (forall t :: !Holds(db.rows, t, tx) && t in b.tasks ==> t in b1.tasks && b1.tasks[t] == b.tasks[t])
    && (forall q :: !Holds(db.questions, q, tx) && q in b.questions ==> q in b1.questions && b1.questions[q] == b.questions[q])
    && b1.artifacts == b.artifacts
    && db.history <= db1.history
  }

  lemma OnlyTouchesIsUnmoved(db: Db, db1: Db, tx: nat, o: nat)
    requires OnlyTouches(db, db1, tx) && o in db.txs && o != tx
    ensures Unmoved(db, db1, o)
  {
    forall s | s in db.history ensures s in db1.history {
      var k :| 0 <= k < |db.history| && db.history[k] == s;
      assert db1.history[k] == s;
    }
  }

  /** The last entry of the history is the work of this transaction, which is now finished, or of a single statement. */
  ghost predicate Signed(db: Db, e: Serial, author: Option<nat>) {
    && e.author == author
    && (author.Some? ==> author.value in db.txs && db.txs[author.value] == Tx(e.request, Finished(e.out)))
    && (author.None? ==> e.request.Auto())
  }

  /** Nothing became visible, or exactly one request did, with the effect and outcome it has when run alone. */
  ghost predicate Advances(db: Db, db1: Db, author: Option<nat>) {
    || (db1.history == db.history && db1.committed == db.committed)
    || (&& |db1.history| == |db.history| + 1 && db1.history[..|db.history|] == db.history
        && db1.history[|db.history|].request.WellFormed()
        && Signed(db1, db1.history[|db.history|], author)
        && PgApply(db.committed, db1.history[|db.history|].request) == (db1.committed, db1.history[|db.history|].out))
  }

  lemma GotoStep(db: Db, tx: nat, pc: Pc, db1: Db)
    requires tx in db.txs
    requires db1 == Goto(db, tx, pc).(advisory := db1.advisory, rows := db1.rows, questions := db1.questions)
    requires forall x, o :: o != tx && Holds(db.advisory, x, o) ==> Holds(db1.advisory, x, o)
    requires forall x, o :: o != tx && Holds(db.rows, x, o) ==> Holds(db1.rows, x, o)
    requires forall x, o :: o != tx && Holds(db.questions, x, o) ==> Holds(db1.questions, x, o)
    ensures OnlyTouches(db, db1, tx) && Advances(db, db1, Some(tx))
  {
  }

  lemma FinishStep(db: Db, tx: nat, b1: Board, out: Outcome)
    requires tx in db.txs && db.txs[tx].request.WellFormed() && !db.txs[tx].request.Auto()
    requires PgApply(db.committed, db.txs[tx].request) == (b1, out)
    requires forall t :: !Holds(db.advisory, t, tx) ==> b1.Log(t) == db.committed.Log(t)
    requires forall t :: !Holds(db.rows, t, tx) && t in db.committed.tasks ==> t in b1.tasks && b1.tasks[t] == db.committed.tasks[t]
    requires forall q :: !Holds(db.questions, q, tx) && q in db.committed.questions ==>
               q in b1.questions && b1.questions[q] == db.committed.questions[q]
    requires b1.artifacts == db.committed.artifacts
    ensures OnlyTouches(db, Finish(db, tx, b1, out), tx) && Advances(db, Finish(db, tx, b1, out), Some(tx))
    ensures TxOk(Finish(db, tx, b1, out), tx)
  {
  }

  ghost predicate StepOk(db: Db, db1: Db, tx: nat) {
    tx in db1.txs && TxOk(db1, tx) && OnlyTouches(db, db1, tx) && Advances(db, db1, Some(tx))
  }

  lemma BlockedStep(db: Db, tx: nat)
    requires tx in db.txs && TxOk(db, tx)
    ensures StepOk(db, db, tx)
  {
  }

  lemma PublishChecksOk(db: Db, tx: nat)
    requires tx in db.txs && db.txs[tx].request.PublishTx? && TxOk(db, tx)
    requires var pc := db.txs[tx].pc; pc.Locked? || pc.KeyFree? || pc.RefsChecked?
    ensures StepOk(db, PublishStep(db, tx), tx)
  {
    var r, b := db.txs[tx].request, db.committed;
    var db1 := PublishStep(db, tx);
    if db1.history == db.history {
      GotoStep(db, tx, db1.txs[tx].pc, db1);
    } else {
      var out := db1.txs[tx].pc.out;
      assert db1 == Finish(db, tx, b, out);
      assert PgApply(b, r) == (b, out);
      FinishStep(db, tx, b, out);
    }
  }

  lemma PublishBumpOk(db: Db, tx: nat)
    requires tx in db.txs && db.txs[tx].request.PublishTx? && TxOk(db, tx) && db.txs[tx].pc.CitesChecked?
    ensures StepOk(db, PublishStep(db, tx), tx)
  {
    var r, b := db.txs[tx].request, db.committed;
    var db1 := PublishStep(db, tx);
    if r.t !in b.tasks {
      FinishStep(db, tx, b, EntryOut(Err(NotFound)));
    } else if Free(db.rows, r.t, tx) {
      GotoStep(db, tx, db1.txs[tx].pc, db1);
    } else {
      BlockedStep(db, tx);
    }
  }

  lemma LinkingStepOk(db: Db, tx: nat)
    requires tx in db.txs && db.txs[tx].request.PublishTx? && TxOk(db, tx) && db.txs[tx].pc.Linking?
    ensures StepOk(db, PublishStep(db, tx), tx)
  {
    var r, b, e := db.txs[tx].request, db.committed, db.txs[tx].pc.e;
    var refs, linked := r.request.artifactRefs, db.txs[tx].pc.linked;
    if linked < |refs| {
      if DistinctRefs(refs[..linked + 1]) {
        GotoStep(db, tx, Linking(db.txs[tx].pc.run, e, linked + 1), PublishStep(db, tx));
      } else {
        assert !DistinctRefs(refs);
        FinishStep(db, tx, b, EntryOut(Err(UniqueViolation)));
      }
    } else {
      assert refs[..linked] == refs;
      var b1 := Append(b, r.t, e, refs);
      assert PublishStep(db, tx) == Finish(db, tx, b1, EntryOut(Ok(e)));
      FinishStep(db, tx, b1, EntryOut(Ok(e)));
    }
  }

  lemma PublishStepOk(db: Db, tx: nat)
    requires tx in db.txs && db.txs[tx].request.PublishTx? && TxOk(db, tx)
    ensures StepOk(db, PublishStep(db, tx), tx)
  {
    var pc := db.txs[tx].pc;
    if pc.Begin? {
      LockTaskOk(db, tx, db.txs[tx].request.t, Locked);
    } else if pc.Locked? || pc.KeyFree? || pc.RefsChecked? {
      PublishChecksOk(db, tx);
    } else if pc.CitesChecked? {
      PublishBumpOk(db, tx);
    } else if pc.Bumped? {
      GotoStep(db, tx, PublishStep(db, tx).txs[tx].pc, PublishStep(db, tx));
    } else if pc.Linking? {
      LinkingStepOk(db, tx);
    } else {
      BlockedStep(db, tx);
    }
  }

  lemma LockTaskOk(db: Db, tx: nat, t: Uuid, pc: Pc)
    requires tx in db.txs && TxOk(db, tx)
    requires TxOk(Goto(db, tx, pc).(advisory := db.advisory[t := tx]), tx)
    ensures StepOk(db, LockTask(db, tx, t, pc), tx)
  {
    if Free(db.advisory, t, tx) {
      GotoStep(db, tx, pc, LockTask(db, tx, t, pc));
    }
  }

  /* ---- answers ---- */

  lemma AnswerBeginOk(db: Db, tx: nat)
    requires tx in db.txs && db.txs[tx].request.AnswerTx? && TxOk(db, tx) && db.txs[tx].pc.Begin?
    ensures StepOk(db, AnswerStep(db, tx), tx)
  {
    var r, b := db.txs[tx].request, db.committed;
    if r.question !in b.questions {
      FinishStep(db, tx, b, EntryOut(Err(NotFound)));
    } else if Free(db.questions, r.question, tx) {
      GotoStep(db, tx, QuestionLocked(b.questions[r.question]), AnswerStep(db, tx));
    } else {
      BlockedStep(db, tx);
    }
  }

  lemma AnswerLockedOk(db: Db, tx: nat)
    requires tx in db.txs && db.txs[tx].request.AnswerTx? && TxOk(db, tx) && db.txs[tx].pc.AnswerLocked?
    ensures StepOk(db, AnswerStep(db, tx), tx)
  {
    var r, b := db.txs[tx].request, db.committed;
    var db1 := AnswerStep(db, tx);
    if db1 == db {
      BlockedStep(db, tx);
    } else if db1.txs[tx].pc.Finished? {
      var out := db1.txs[tx].pc.out;
      assert db1 == Finish(db, tx, b, out);
      assert PgApply(b, r) == (b, out);
      FinishStep(db, tx, b, out);
    } else {
      GotoStep(db, tx, db1.txs[tx].pc, db1);
    }
  }

  lemma AnswerInsertOk(db: Db, tx: nat)
    requires tx in db.txs && db.txs[tx].request.AnswerTx? && TxOk(db, tx) && db.txs[tx].pc.AnswerBumped?
    ensures StepOk(db, AnswerStep(db, tx), tx)
  {
    var r, b, q := db.txs[tx].request, db.committed, db.txs[tx].pc.q;
    if FindKey(b.Log(q.taskId), q.askedBy.agentId, r.key).Some? {
      FinishStep(db, tx, b, EntryOut(Err(UniqueViolation)));
    } else {
      GotoStep(db, tx, AnswerStep(db, tx).txs[tx].pc, AnswerStep(db, tx));
    }
  }

  lemma AnswerCommitOk(db: Db, tx: nat)
    requires tx in db.txs && db.txs[tx].request.AnswerTx? && TxOk(db, tx) && db.txs[tx].pc.AnswerInserted?
    ensures StepOk(db, AnswerStep(db, tx), tx)
  {
    var r, b, q, e := db.txs[tx].request, db.committed, db.txs[tx].pc.q, db.txs[tx].pc.e;
    var b1 := RecordAnswer(b, r.question, q, e, AnswerMessage(r.question, q, b.tasks[q.taskId], r.answer, r.user, r.messageId));
    assert AnswerStep(db, tx) == Finish(db, tx, b1, EntryOut(Ok(e)));
    assert PgApply(b, r) == (b1, EntryOut(Ok(e)));
    FinishStep(db, tx, b1, EntryOut(Ok(e)));
  }

  lemma AnswerStepOk(db: Db, tx: nat)
    requires tx in db.txs && db.txs[tx].request.AnswerTx? && TxOk(db, tx)
    ensures StepOk(db, AnswerStep(db, tx), tx)
  {
    var pc := db.txs[tx].pc;
    if pc.Begin? {
      AnswerBeginOk(db, tx);
    } else if pc.QuestionLocked? {
      LockTaskOk(db, tx, pc.q.taskId, AnswerLocked(pc.q));
    } else if pc.AnswerLocked? {
      AnswerLockedOk(db, tx);
    } else if pc.AnswerBumped? {
      AnswerInsertOk(db, tx);
    } else if pc.AnswerInserted? {
      AnswerCommitOk(db, tx);
    } else {
      BlockedStep(db, tx);
    }
  }

  /* ---- dialogue ---- */

  lemma DialogueBumpOk(db: Db, tx: nat)
    requires tx in db.txs && db.txs[tx].request.DialogueTx? && TxOk(db, tx) && db.txs[tx].pc.Locked?
    ensures StepOk(db, DialogueStep(db, tx), tx)
  {
    var r, b := db.txs[tx].request, db.committed;
    if r.t !in b.tasks {
      FinishStep(db, tx, b, MessageOut(Err(NotFound)));
    } else if Free(db.rows, r.t, tx) {
      GotoStep(db, tx, DialogueStep(db, tx).txs[tx].pc, DialogueStep(db, tx));
    } else {
      BlockedStep(db, tx);
    }
  }

  lemma DialogueCommitOk(db: Db, tx: nat)
    requires tx in db.txs && db.txs[tx].request.DialogueTx? && TxOk(db, tx) && db.txs[tx].pc.MessageInserted?
    ensures StepOk(db, DialogueStep(db, tx), tx)
  {
    var r, b, m := db.txs[tx].request, db.committed, db.txs[tx].pc.m;
    var b1 := AppendMessage(b, r.t, m);
    assert DialogueStep(db, tx) == Finish(db, tx, b1, MessageOut(Ok(m)));
    assert PgApply(b, r) == (b1, MessageOut(Ok(m)));
    FinishStep(db, tx, b1, MessageOut(Ok(m)));
  }

  lemma DialogueStepOk(db: Db, tx: nat)
    requires tx in db.txs && db.txs[tx].request.DialogueTx? && TxOk(db, tx)
    ensures StepOk(db, DialogueStep(db, tx), tx)
  {
    var r, pc := db.txs[tx].request, db.txs[tx].pc;
    if pc.Begin? {
      LockTaskOk(db, tx, r.t, Locked);
    } else if pc.Locked? {
      DialogueBumpOk(db, tx);
    } else if pc.Bumped? {
      if r.text == "" {
        FinishStep(db, tx, db.committed, MessageOut(Err(Contract)));
      } else {
        GotoStep(db, tx, DialogueStep(db, tx).txs[tx].pc, DialogueStep(db, tx));
      }
    } else if pc.MessageInserted? {
      DialogueCommitOk(db, tx);
    } else {
      BlockedStep(db, tx);
    }
  }

  /* ---- any event, any run ---- */

  ghost predicate AllOk(db: Db) {
    forall tx :: tx in db.txs ==> TxOk(db, tx)
  }

  lemma StepKeepsAllOk(db: Db, db1: Db, tx: nat)
    requires AllOk(db) && StepOk(db, db1, tx)
    ensures AllOk(db1)
  {
    forall o | o in db1.txs && o != tx ensures TxOk(db1, o) {
      OnlyTouchesIsUnmoved(db, db1, tx, o);
      UnmovedKeepsOk(db, db1, o);
    }
  }

  function By(event: Event): Option<nat> {
    match event
    case Open(tx, _) => Some(tx)
    case Step(tx) => Some(tx)
    case Abort(tx) => Some(tx)
    case Execute(_) => None
  }

  lemma NextOk(db: Db, event: Event)
    requires AllOk(db)
    ensures AllOk(Next(db, event)) && Advances(db, Next(db, event), By(event))
  {
    var db1 := Next(db, event);
    match event
    case Open(tx, request) =>
      if db1 != db {
        StepKeepsAllOk(db, db1, tx);
      }
    case Step(tx) => RunStepOk(db, tx);
    case Abort(tx) =>
      if db1 != db {
        AbortOk(db, tx);
        StepKeepsAllOk(db, db1, tx);
      }
    case Execute(request) => ExecuteOk(db, request);
  }

  lemma RunStepOk(db: Db, tx: nat)
    requires AllOk(db)
    ensures AllOk(Next(db, Step(tx))) && Advances(db, Next(db, Step(tx)), Some(tx))
  {
    if tx in db.txs {
      assert TxOk(db, tx);
      StepIsOk(db, tx);
      StepKeepsAllOk(db, Next(db, Step(tx)), tx);
    }
  }

  lemma StepIsOk(db: Db, tx: nat)
    requires tx in db.txs && TxOk(db, tx)
    ensures StepOk(db, Next(db, Step(tx)), tx)
  {
    match db.txs[tx].request
    case PublishTx(_, _, _, _, _) => PublishStepOk(db, tx);
    case AnswerTx(_, _, _, _, _, _, _, _) => AnswerStepOk(db, tx);
    case DialogueTx(_, _, _, _, _) => DialogueStepOk(db, tx);
    case _ =>
  }

  lemma AbortOk(db: Db, tx: nat)
    requires tx in db.txs && TxOk(db, tx)
    ensures StepOk(db, Unlock(Goto(db, tx, Aborted), tx), tx)
  {
    GotoStep(db, tx, Aborted, Unlock(Goto(db, tx, Aborted), tx));
  }

  lemma ExecuteOk(db: Db, r: Request)
    requires AllOk(db)
    ensures AllOk(Next(db, Execute(r))) && Advances(db, Next(db, Execute(r)), None)
  {
    var db1 := Next(db, Execute(r));
    forall o | o in db1.txs ensures TxOk(db1, o) {
      if db1 != db {
        StatementUnmoved(db, r, o);
        UnmovedKeepsOk(db, db1, o);
      }
    }
  }

  lemma StatementUnmoved(db: Db, r: Request, o: nat)
    requires r.Auto() && o in db.txs && !(r.UpdateRow? && r.t in db.rows)
    ensures Unmoved(db, ExecuteStatement(db, r), o)
  {
    var db1 := ExecuteStatement(db, r);
    forall s | s in db.history ensures s in db1.history {
      var k :| 0 <= k < |db.history| && db.history[k] == s;
      assert db1.history[k] == s;
    }
  }

  /* ---- serializability ---- */

  lemma Prefixes(h: seq<Serial>, e: Serial, k: nat)
    requires k <= |h|
    ensures (h + [e])[..k] == h[..k]
  {
  }

  lemma ReplayAppended(b0: Board, h: seq<Serial>, e: Serial)
    requires Truthful(b0, h) && e.request.WellFormed() && e.out == PgApply(Replay(b0, h), e.request).1
    ensures Truthful(b0, h + [e]) && Replay(b0, h + [e]) == PgApply(Replay(b0, h), e.request).0
  {
    Prefixes(h, e, |h|);
    assert h[..|h|] == h;
    forall k | 0 <= k < |h + [e]| ensures TruthfulAt(b0, h + [e], k) {
      Prefixes(h, e, k);
      assert k < |h| ==> TruthfulAt(b0, h, k);
    }
  }

  lemma ReplayExtends(b0: Board, db: Db, db1: Db, author: Option<nat>)
    requires Truthful(b0, db.history) && db.committed == Replay(b0, db.history) && Advances(db, db1, author)
    ensures Truthful(b0, db1.history) && db1.committed == Replay(b0, db1.history)
  {
    if db1.history != db.history {
      var e := db1.history[|db.history|];
      assert db1.history == db.history + [e];
      ReplayAppended(b0, db.history, e);
    }
  }

  lemma {:induction false} ExecSerializable(b0: Board, db: Db, events: seq<Event>)
    requires AllOk(db) && Truthful(b0, db.history) && db.committed == Replay(b0, db.history)
    ensures var db1 := Exec(db, events);
            AllOk(db1) && Truthful(b0, db1.history) && db1.committed == Replay(b0, db1.history)
    decreases |events|
  {
    if events != [] {
      NextOk(db, events[0]);
      ReplayExtends(b0, db, Next(db, events[0]), By(events[0]));
      ExecSerializable(b0, Next(db, events[0]), events[1..]);
    }
  }

  /* who is in the history */

  /** Each entry stands for a single statement or for one finished transaction, with its request and outcome, and no
      transaction has two; so those that were aborted or are under way have none. */
  ghost predicate Attributed(db: Db) {
    && (forall k :: 0 <= k < |db.history| ==> Signed(db, db.history[k], db.history[k].author))
    && (forall j, k :: 0 <= j < k < |db.history| && db.history[j].author.Some? ==> db.history[j].author != db.history[k].author)
  }

  /** Every finished transaction is in the history. */
  ghost predicate Recorded(db: Db) {
    forall tx :: tx in db.txs && db.txs[tx].pc.Finished? ==> Serial(Some(tx), db.txs[tx].request, db.txs[tx].pc.out) in db.history
  }

  lemma FinishedStays(db: Db, tx: nat, event: Event)
    requires AllOk(db) && tx in db.txs && db.txs[tx].pc.Finished?
    ensures tx in Next(db, event).txs && Next(db, event).txs[tx] == db.txs[tx]
    ensures By(event) == Some(tx) ==> Next(db, event) == db
  {
    if By(event) == Some(tx) {
      assert Next(db, event) == db;
    } else {
      OthersStay(db, tx, event);
    }
  }

  lemma OthersStay(db: Db, o: nat, event: Event)
    requires AllOk(db) && o in db.txs && By(event) != Some(o)
    ensures o in Next(db, event).txs && Next(db, event).txs[o] == db.txs[o]
  {
    if event.Step? && event.tx in db.txs {
      assert TxOk(db, event.tx);
      StepIsOk(db, event.tx);
    }
  }

  lemma AppendAttributed(db: Db, db1: Db, e: Serial)
    requires Attributed(db) && db1.history == db.history + [e] && Signed(db1, e, e.author)
    requires forall tx :: tx in db.txs && db.txs[tx].pc.Finished? ==>
               tx in db1.txs && db1.txs[tx] == db.txs[tx] && e.author != Some(tx)
    ensures Attributed(db1)
  {
    forall k | 0 <= k < |db1.history| ensures Signed(db1, db1.history[k], db1.history[k].author) {
      if k < |db.history| {
        assert Signed(db, db.history[k], db.history[k].author);
      }
    }
  }

  lemma NextKeepsAttributed(db: Db, event: Event)
    requires AllOk(db) && Attributed(db)
    ensures Attributed(Next(db, event))
  {
    var db1 := Next(db, event);
    NextOk(db, event);
    forall tx | tx in db.txs && db.txs[tx].pc.Finished?
      ensures tx in db1.txs && db1.txs[tx] == db.txs[tx] && (db1 == db || By(event) != Some(tx))
    {
      FinishedStays(db, tx, event);
    }
    if db1.history != db.history {
      var e := db1.history[|db.history|];
      assert db1.history == db.history + [e];
      AppendAttributed(db, db1, e);
    } else {
      SameHistoryAttributed(db, db1);
    }
  }

  lemma SameHistoryAttributed(db: Db, db1: Db)
    requires Attributed(db) && db1.history == db.history
    requires forall tx :: tx in db.txs && db.txs[tx].pc.Finished? ==> tx in db1.txs && db1.txs[tx] == db.txs[tx]
    ensures Attributed(db1)
  {
    forall k | 0 <= k < |db1.history| ensures Signed(db1, db1.history[k], db1.history[k].author) {
      assert Signed(db, db.history[k], db.history[k].author);
    }
  }

  lemma {:induction false} ExecKeepsAttributed(db: Db, events: seq<Event>)
    requires AllOk(db) && Attributed(db)
    ensures AllOk(Exec(db, events)) && Attributed(Exec(db, events))
    decreases |events|
  {
    if events != [] {
      NextOk(db, events[0]);
      NextKeepsAttributed(db, events[0]);
      ExecKeepsAttributed(Next(db, events[0]), events[1..]);
    }
  }

  lemma OkIsRecorded(db: Db)
    requires AllOk(db)
    ensures Recorded(db)
  {
    forall tx | tx in db.txs && db.txs[tx].pc.Finished?
      ensures Serial(Some(tx), db.txs[tx].request, db.txs[tx].pc.out) in db.history
    {
      assert TxOk(db, tx);
    }
  }

  /** Every interleaving of transactions and statements commits the state of running the requests of its history one after
      the other, each with the outcome it has there. The history consists of single statements and of exactly the finished
      transactions, each once: transactions that were aborted or are under way leave no trace. */
  lemma Serializable(b0: Board, events: seq<Event>)
    ensures var db := Exec(Initial(b0), events);
      && Truthful(b0, db.history)
      && db.committed == Replay(b0, db.history)
      && Recorded(db)
      && Attributed(db)
  {
    ExecSerializable(b0, Initial(b0), events);
    ExecKeepsAttributed(Initial(b0), events);
    OkIsRecorded(Exec(Initial(b0), events));
  }

  /* ---- against the in-memory reference ---- */

  function MemApply(b: Board, r: Request): (Board, Outcome)
    requires r.WellFormed()
  {
    match r
    case PublishTx(t, actor, request, id, now) =>
      var u := Publish(b, t, actor, request, id, now); (u.0, EntryOut(u.1))
    case AnswerTx(question, answer, attachments, user, key, entryId, messageId, now) =>
      var u := AnswerQuestion(b, question, answer, attachments, user, key, entryId, messageId, now); (u.0, EntryOut(u.1))
    case DialogueTx(t, actor, channel, text, messageId) =>
      var u := AppendDialogue(b, t, actor, channel, text, messageId); (u.0, MessageOut(u.1))
    case _ => Statement(b, r)
  }

  /** When a publish means the same to both storages: the task exists or the request cites nothing, and a request that
      gets as far as inserting names no blank locator and no reference twice. */
  predicate PublishAgrees(b: Board, t: Uuid, actor: Actor, request: PublishRequest) {
    if t !in b.tasks then request.artifactRefs == [] && request.kind != FinalCandidate
    else
      || FindKey(b.Log(t), actor.agentId, request.key).Some?
      || !RefsUsable(b, t, request.artifactRefs)
      || (NoBlankLocator(request.artifactRefs) && DistinctRefs(request.artifactRefs))
  }

  /** When an answer does: a waiting question is answered under an unused key, an answered one is retried under a key
      that finds its own entry. */
  predicate AnswerAgrees(b: Board, id: Uuid, key: string, answer: string) {
    id in b.questions ==>
      var q := b.questions[id];
      if q.answered then id in b.answers && FindKey(b.Log(q.taskId), SUPERVISOR_ID, key) == Some(b.answers[id])
      else answer != "" ==> FindKey(b.Log(q.taskId), q.askedBy.agentId, key).None?
  }

  predicate Agrees(b: Board, r: Request) {
    && (r.PublishTx? ==> PublishAgrees(b, r.t, r.actor, r.request))
    && (r.AnswerTx? ==> AnswerAgrees(b, r.question, r.key, r.answer))
  }

  lemma PublishAgreesIff(b: Board, t: Uuid, actor: Actor, request: PublishRequest, id: Uuid, now: int)
    requires Owned(b) && request.CheckContract()
    ensures PgPublish(b, t, actor, request, id, now) == Publish(b, t, actor, request, id, now)
        <==> PublishAgrees(b, t, actor, request)
  {
    if t !in b.tasks {
      assert b.Log(t) == [];
      if request.artifactRefs != [] {
        assert !ArtifactUsable(b, t, request.artifactRefs[0].artifactId);
      } else if request.kind == FinalCandidate {
        assert !IsFinding(b.Log(t), request.body.findingIds[0]);
      }
    }
  }

  lemma AnswerAgreesIff(
    b: Board, id: Uuid, answer: string, attachments: seq<Uuid>, user: Actor, key: string,
    entryId: Uuid, messageId: Uuid, now: int)
    requires Owned(b)
    ensures PgAnswer(b, id, answer, attachments, user, key, entryId, messageId, now)
         == AnswerQuestion(b, id, answer, attachments, user, key, entryId, messageId, now)
        <==> AnswerAgrees(b, id, key, answer)
  {
  }

  /** The two storages do the same with a request, in state and outcome, exactly when Agrees holds. */
  lemma AgreesIff(b: Board, r: Request)
    requires Owned(b) && r.WellFormed()
    ensures PgApply(b, r) == MemApply(b, r) <==> Agrees(b, r)
  {
    match r
    case PublishTx(t, actor, request, id, now) => PublishAgreesIff(b, t, actor, request, id, now);
    case AnswerTx(question, answer, attachments, user, key, entryId, messageId, now) =>
      AnswerAgreesIff(b, question, answer, attachments, user, key, entryId, messageId, now);
    case _ =>
  }

  /** A concrete disagreement: an answered question is answered again under another key. The in-memory store returns the
      first answer, PostgreSQL refuses. */
  lemma RetryDisagrees(user: Actor)
    ensures var supervisor := Actor(SUPERVISOR_ID, Supervisor);
            var asked := Apply(Apply(EMPTY, OpCreateTask(0)), OpCreateQuestion(2, 0, "why", supervisor, supervisor));
            var answered := Apply(asked, OpAnswerQuestion(2, "because", [], user, "k", 3, 4, 0));
            var retry := AnswerTx(2, "because", [], user, "other", 5, 6, 0);
      && PgApply(answered, retry) == (answered, EntryOut(Err(Conflict)))
      && 2 in answered.answers && MemApply(answered, retry) == (answered, EntryOut(Ok(answered.answers[2])))
  {
    var supervisor := Actor(SUPERVISOR_ID, Supervisor);
    var asked := Apply(Apply(EMPTY, OpCreateTask(0)), OpCreateQuestion(2, 0, "why", supervisor, supervisor));
    var answered := Apply(asked, OpAnswerQuestion(2, "because", [], user, "k", 3, 4, 0));
    assert answered.questions[2].answered && 2 in answered.answers;
    assert answered.Log(0) == [answered.answers[2]];
    assert FindKey(answered.Log(0), SUPERVISOR_ID, "other").None?;
  }

  lemma PgKeepsOwned(b: Board, r: Request)
    requires Owned(b) && r.WellFormed()
    ensures Owned(PgApply(b, r).0)
  {
  }

  function MemReplay(b: Board, history: seq<Serial>): Board
    requires WellFormed(history)
  {
    if history == [] then b else MemApply(MemReplay(b, history[..|history| - 1]), history[|history| - 1].request).0
  }

  predicate AgreesAt(b: Board, history: seq<Serial>, k: nat)
    requires WellFormed(history) && k < |history|
  {
    Agrees(MemReplay(b, history[..k]), history[k].request)
  }

  /** Every request of the history stays inside what both storages promise, at its place. */
  predicate AllAgree(b: Board, history: seq<Serial>)
    requires WellFormed(history)
  {
    forall k :: 0 <= k < |history| ==> AgreesAt(b, history, k)
  }

  predicate MemTruthfulAt(b: Board, history: seq<Serial>, k: nat)
    requires WellFormed(history) && k < |history|
  {
    history[k].out == MemApply(MemReplay(b, history[..k]), history[k].request).1
  }

  /** Every request of the history returned what it returns on the in-memory store at its place. */
  predicate MemTruthful(b: Board, history: seq<Serial>) {
    WellFormed(history) && forall k :: 0 <= k < |history| ==> MemTruthfulAt(b, history, k)
  }

  lemma {:induction false} PrefixesAgree(b: Board, history: seq<Serial>, n: nat)
    requires Owned(b) && Truthful(b, history) && AllAgree(b, history) && n <= |history|
    ensures Owned(Replay(b, history[..n])) && Replay(b, history[..n]) == MemReplay(b, history[..n])
  {
    if n > 0 {
      PrefixesAgree(b, history, n - 1);
      assert TruthfulAt(b, history, n - 1) && AgreesAt(b, history, n - 1);
      assert history[..n][..n - 1] == history[..n - 1];
      AgreesIff(Replay(b, history[..n - 1]), history[n - 1].request);
      PgKeepsOwned(Replay(b, history[..n - 1]), history[n - 1].request);
    }
  }

  lemma ReplaysAgree(b: Board, history: seq<Serial>)
    requires Owned(b) && Truthful(b, history) && AllAgree(b, history)
    ensures Replay(b, history) == MemReplay(b, history) && MemTruthful(b, history)
  {
    forall k | 0 <= k < |history| ensures MemTruthfulAt(b, history, k) {
      PrefixesAgree(b, history, k);
      assert TruthfulAt(b, history, k) && AgreesAt(b, history, k);
      AgreesIff(Replay(b, history[..k]), history[k].request);
    }
    PrefixesAgree(b, history, |history|);
    assert history[..|history|] == history;
  }

  /** Under that condition the concurrent store is the in-memory reference run serially: same state, same outcomes. */
  lemma RefinesInMemory(b0: Board, events: seq<Event>)
    requires Owned(b0)
    ensures var db := Exec(Initial(b0), events);
      Truthful(b0, db.history) && Recorded(db) && Attributed(db) && (AllAgree(b0, db.history) ==>
        db.committed == MemReplay(b0, db.history) && MemTruthful(b0, db.history))
  {
    Serializable(b0, events);
    var db := Exec(Initial(b0), events);
    if AllAgree(b0, db.history) {
      ReplaysAgree(b0, db.history);
    }
  }
}
