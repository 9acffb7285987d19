/** Publish, answer and dialogue transactions never block each other for ever: locks are always taken in the order
    question, task, row. */
module PostgresProgress {
  import opened Domain
  import opened Board
  import opened BoardRuns
  import opened Postgres
  import opened PostgresTheorems

  predicate Active(db: Db, tx: nat) {
    tx in db.txs && !db.txs[tx].pc.Finished? && !db.txs[tx].pc.Aborted?
  }

  /** 3: may hold every lock and waits for none. 2: waits at most for a row. 1: at most for a task. 0: for a question. */
  function Level(tx: Tx): nat {
    match tx.pc
    case Begin => if tx.request.AnswerTx? then 0 else 1
    case QuestionLocked(_) => 1
    case AnswerLocked(_) => 2
    case Locked => 2
    case KeyFree => 2
    case RefsChecked => 2
    case CitesChecked => 2
    case _ => 3
  }

  /** How many steps the transaction still has to take at most. */
  function Rank(tx: Tx): int {
    var links := if tx.request.PublishTx? then |tx.request.request.artifactRefs| else 0;
    match tx.pc
    case Finished(_) => 0
    case Aborted => 0
    case Begin => 7 + links
    case Locked => 6 + links
    case KeyFree => 5 + links
    case RefsChecked => 4 + links
    case CitesChecked => 3 + links
    case Bumped(_) => 2 + links
    case Linking(_, _, linked) => 1 + links - linked
    case MessageInserted(_, _) => 1
    case QuestionLocked(_) => 4
    case AnswerLocked(_) => 3
    case AnswerBumped(_, _) => 2
    case AnswerInserted(_, _, _) => 1
  }

  predicate HeldFrom(db: Db, locks: map<Uuid, nat>, level: nat) {
    forall x :: x in locks ==> Active(db, locks[x]) && Level(db.txs[locks[x]]) >= level
  }

  /** Whoever holds a lock is under way and past the point of waiting for it. */
  predicate LocksOwned(db: Db) {
    HeldFrom(db, db.rows, 3) && HeldFrom(db, db.advisory, 2) && HeldFrom(db, db.questions, 1)
  }

  /** The states the steps of each kind of transaction go through. */
  predicate Shaped(tx: Tx) {
    match tx.request
    case PublishTx(_, _, request, _, _) =>
      && tx.request.WellFormed()
      && (tx.pc.Begin? || tx.pc.Locked? || tx.pc.KeyFree? || tx.pc.RefsChecked? || tx.pc.CitesChecked? || tx.pc.Bumped?
          || (tx.pc.Linking? && tx.pc.linked <= |request.artifactRefs|))
    case AnswerTx(_, _, _, _, _, _, _, _) =>
      tx.pc.Begin? || tx.pc.QuestionLocked? || tx.pc.AnswerLocked? || tx.pc.AnswerBumped? || tx.pc.AnswerInserted?
    case DialogueTx(_, _, _, _, _) => tx.pc.Begin? || tx.pc.Locked? || tx.pc.Bumped? || tx.pc.MessageInserted?
    case _ => false
  }

  lemma OkIsShaped(db: Db, tx: nat)
    requires Active(db, tx) && TxOk(db, tx)
    ensures Shaped(db.txs[tx])
  {
  }

  /** The lock this transaction waits for, if it waits, is free. */
  predicate Unblocked(db: Db, tx: nat)
    requires tx in db.txs
  {
    var r, pc := db.txs[tx].request, db.txs[tx].pc;
    match r
    case PublishTx(t, _, _, _, _) => (pc.Begin? ==> Free(db.advisory, t, tx)) && (pc.CitesChecked? ==> Free(db.rows, t, tx))
    case DialogueTx(t, _, _, _, _) => (pc.Begin? ==> Free(db.advisory, t, tx)) && (pc.Locked? ==> Free(db.rows, t, tx))
    case AnswerTx(question, _, _, _, _, _, _, _) =>
      && (pc.Begin? ==> Free(db.questions, question, tx))
      && (pc.QuestionLocked? ==> Free(db.advisory, pc.q.taskId, tx))
      && (pc.AnswerLocked? ==> Free(db.rows, pc.q.taskId, tx))
    case _ => true
  }

  /** The transaction is over and has given up its locks. */
  ghost predicate Over(db: Db, tx: nat, db1: Db)
    requires tx in db.txs
  {
    && tx in db1.txs && db1.txs == db.txs[tx := db1.txs[tx]] && (db1.txs[tx].pc.Finished? || db1.txs[tx].pc.Aborted?)
    && db1.rows == Release(db.rows, tx) && db1.advisory == Release(db.advisory, tx)
    && db1.questions == Release(db.questions, tx)
  }

  /** At most one new lock, for the transaction itself. */
  ghost predicate Takes(locks: map<Uuid, nat>, locks1: map<Uuid, nat>, tx: nat, may: bool) {
    locks1 == locks || (may && forall x :: x in locks1 ==> locks1[x] == tx || (x in locks && locks1[x] == locks[x]))
  }

  /** The transaction went on, nearer to its end, and took a lock only if it got past waiting for it. */
  ghost predicate WentOn(db: Db, tx: nat, db1: Db)
    requires tx in db.txs
  {
    && Active(db1, tx) && db1.txs == db.txs[tx := db1.txs[tx]]
    && Level(db.txs[tx]) <= Level(db1.txs[tx]) && Rank(db1.txs[tx]) < Rank(db.txs[tx])
    && Takes(db.rows, db1.rows, tx, Level(db1.txs[tx]) >= 3)
    && Takes(db.advisory, db1.advisory, tx, Level(db1.txs[tx]) >= 2)
    && Takes(db.questions, db1.questions, tx, Level(db1.txs[tx]) >= 1)
  }

  ghost predicate Moved(db: Db, tx: nat, db1: Db)
    requires tx in db.txs
  {
    || (db1 == db && !Unblocked(db, tx))
    || (Over(db, tx, db1) && Rank(db.txs[tx]) > 0)
    || WentOn(db, tx, db1)
  }

  lemma FinishIsOver(db: Db, tx: nat, b: Board, out: Outcome)
    requires tx in db.txs
    ensures Over(db, tx, Finish(db, tx, b, out))
  {
  }

  lemma RejectIsOver(db: Db, tx: nat, error: Error)
    requires tx in db.txs
    ensures Over(db, tx, Reject(db, tx, error))
  {
    FinishIsOver(db, tx, db.committed, EntryOut(Err(error)));
  }

  lemma GotoIsWentOn(db: Db, tx: nat, pc: Pc)
    requires tx in db.txs && Active(Goto(db, tx, pc), tx)
    requires Level(db.txs[tx]) <= Level(Tx(db.txs[tx].request, pc)) && Rank(Tx(db.txs[tx].request, pc)) < Rank(db.txs[tx])
    ensures WentOn(db, tx, Goto(db, tx, pc))
  {
  }

  lemma PublishWaits(db: Db, tx: nat)
    requires Active(db, tx) && Shaped(db.txs[tx]) && db.txs[tx].request.PublishTx?
    requires db.txs[tx].pc.Begin? || db.txs[tx].pc.CitesChecked?
    ensures Moved(db, tx, PublishStep(db, tx))
  {
  }

  lemma PublishChecks(db: Db, tx: nat)
    requires Active(db, tx) && Shaped(db.txs[tx]) && db.txs[tx].request.PublishTx?
    requires db.txs[tx].pc.Locked? || db.txs[tx].pc.KeyFree? || db.txs[tx].pc.RefsChecked?
    ensures Moved(db, tx, PublishStep(db, tx))
  {
    var r := db.txs[tx].request;
    var existing := FindKey(db.committed.Log(r.t), r.actor.agentId, r.request.key);
    match db.txs[tx].pc
    case Locked =>
      if existing.Some? {
        FinishIsOver(db, tx, db.committed, EntryOut(Ok(existing.value)));
      } else {
        GotoIsWentOn(db, tx, KeyFree);
      }
    case KeyFree =>
      RejectIsOver(db, tx, FindingRejected);
      GotoIsWentOn(db, tx, RefsChecked);
    case _ =>
      RejectIsOver(db, tx, FindingRejected);
      GotoIsWentOn(db, tx, CitesChecked);
  }

  lemma PublishWrites(db: Db, tx: nat)
    requires Active(db, tx) && Shaped(db.txs[tx]) && db.txs[tx].request.PublishTx?
    requires db.txs[tx].pc.Bumped? || db.txs[tx].pc.Linking?
    ensures Moved(db, tx, PublishStep(db, tx))
  {
  }

  lemma AnswerAsks(db: Db, tx: nat)
    requires Active(db, tx) && db.txs[tx].request.AnswerTx? && db.txs[tx].pc.Begin?
    ensures Moved(db, tx, AnswerStep(db, tx))
  {
  }

  lemma AnswerLocks(db: Db, tx: nat)
    requires Active(db, tx) && db.txs[tx].request.AnswerTx? && db.txs[tx].pc.QuestionLocked?
    ensures Moved(db, tx, AnswerStep(db, tx))
  {
  }

  lemma AnswerBumps(db: Db, tx: nat)
    requires Active(db, tx) && db.txs[tx].request.AnswerTx? && db.txs[tx].pc.AnswerLocked?
    ensures Moved(db, tx, AnswerStep(db, tx))
  {
    var r, b, q := db.txs[tx].request, db.committed, db.txs[tx].pc.q;
    if q.answered {
      var existing := FindKey(b.Log(q.taskId), SUPERVISOR_ID, r.key);
      if existing.Some? {
        FinishIsOver(db, tx, b, EntryOut(Ok(existing.value)));
      } else {
        RejectIsOver(db, tx, Conflict);
      }
    } else if r.answer == "" {
      RejectIsOver(db, tx, Contract);
    } else if q.taskId !in b.tasks {
      RejectIsOver(db, tx, NotFound);
    } else {
      AnswerTakesRow(db, tx);
    }
  }

  lemma AnswerTakesRow(db: Db, tx: nat)
    requires Active(db, tx) && db.txs[tx].request.AnswerTx? && db.txs[tx].pc.AnswerLocked?
    requires var q := db.txs[tx].pc.q; !q.answered && db.txs[tx].request.answer != "" && q.taskId in db.committed.tasks
    ensures Moved(db, tx, AnswerStep(db, tx))
  {
  }

  lemma AnswerWrites(db: Db, tx: nat)
    requires Active(db, tx) && Shaped(db.txs[tx]) && db.txs[tx].request.AnswerTx?
    requires db.txs[tx].pc.AnswerBumped? || db.txs[tx].pc.AnswerInserted?
    ensures Moved(db, tx, AnswerStep(db, tx))
  {
  }

  lemma DialogueMoves(db: Db, tx: nat)
    requires Active(db, tx) && Shaped(db.txs[tx]) && db.txs[tx].request.DialogueTx?
    ensures Moved(db, tx, DialogueStep(db, tx))
  {
  }

  lemma StepMoves(db: Db, tx: nat)
    requires Active(db, tx) && Shaped(db.txs[tx])
    ensures Moved(db, tx, Next(db, Step(tx)))
  {
    var pc := db.txs[tx].pc;
    match db.txs[tx].request
    case PublishTx(_, _, _, _, _) =>
      if pc.Begin? || pc.CitesChecked? {
        PublishWaits(db, tx);
      } else if pc.Bumped? || pc.Linking? {
        PublishWrites(db, tx);
      } else {
        PublishChecks(db, tx);
      }
    case AnswerTx(_, _, _, _, _, _, _, _) =>
      if pc.AnswerBumped? || pc.AnswerInserted? {
        AnswerWrites(db, tx);
      } else if pc.Begin? {
        AnswerAsks(db, tx);
      } else if pc.QuestionLocked? {
        AnswerLocks(db, tx);
      } else {
        AnswerBumps(db, tx);
      }
    case DialogueTx(_, _, _, _, _) => DialogueMoves(db, tx);
    case _ =>
  }

  lemma OverKeepsLocks(db: Db, tx: nat, db1: Db)
    requires tx in db.txs && LocksOwned(db) && Over(db, tx, db1)
    ensures LocksOwned(db1)
  {
  }

  lemma WentOnKeepsLocks(db: Db, tx: nat, db1: Db)
    requires tx in db.txs && LocksOwned(db) && WentOn(db, tx, db1)
    ensures LocksOwned(db1)
  {
  }

  lemma InactiveStep(db: Db, tx: nat)
    requires tx in db.txs && !Active(db, tx)
    ensures Next(db, Step(tx)) == db
  {
  }

  lemma StepKeepsLocks(db: Db, tx: nat)
    requires tx in db.txs && TxOk(db, tx) && LocksOwned(db)
    ensures LocksOwned(Next(db, Step(tx)))
  {
    if Active(db, tx) {
      OkIsShaped(db, tx);
      MovedKeepsLocks(db, tx);
    } else {
      InactiveStep(db, tx);
    }
  }

  lemma MovedKeepsLocks(db: Db, tx: nat)
    requires Active(db, tx) && Shaped(db.txs[tx]) && LocksOwned(db)
    ensures LocksOwned(Next(db, Step(tx)))
  {
    var db1 := Next(db, Step(tx));
    StepMoves(db, tx);
    if Over(db, tx, db1) {
      OverKeepsLocks(db, tx, db1);
    } else if WentOn(db, tx, db1) {
      WentOnKeepsLocks(db, tx, db1);
    }
  }

  lemma NextKeepsLocks(db: Db, event: Event)
    requires AllOk(db) && LocksOwned(db)
    ensures LocksOwned(Next(db, event))
  {
    var db1 := Next(db, event);
    match event
    case Open(tx, request) =>
    case Step(tx) =>
      if tx in db.txs {
        StepKeepsLocks(db, tx);
      }
    case Abort(tx) =>
      if db1 != db {
        OverKeepsLocks(db, tx, db1);
      }
    case Execute(request) =>
  }

  lemma {:induction false} ExecKeepsLocks(db: Db, events: seq<Event>)
    requires AllOk(db) && LocksOwned(db)
    ensures AllOk(Exec(db, events)) && LocksOwned(Exec(db, events))
    decreases |events|
  {
    if events != [] {
      NextOk(db, events[0]);
      NextKeepsLocks(db, events[0]);
      ExecKeepsLocks(Next(db, events[0]), events[1..]);
    }
  }

  /* ---- somebody can always go on ---- */

  /** The next step brings the transaction nearer to its end. */
  predicate CanGoOn(db: Db, tx: nat) {
    Active(db, tx) && tx in Next(db, Step(tx)).txs && Rank(Next(db, Step(tx)).txs[tx]) < Rank(db.txs[tx])
  }

  lemma UnblockedGoesOn(db: Db, tx: nat)
    requires Active(db, tx) && Shaped(db.txs[tx]) && Unblocked(db, tx)
    ensures CanGoOn(db, tx)
  {
    StepMoves(db, tx);
    MovedIsNearer(db, tx, Next(db, Step(tx)));
  }

  lemma MovedIsNearer(db: Db, tx: nat, db1: Db)
    requires tx in db.txs && Moved(db, tx, db1) && Unblocked(db, tx)
    ensures tx in db1.txs && Rank(db1.txs[tx]) < Rank(db.txs[tx])
  {
  }

  /** A blocked transaction waits for one that holds a later lock. */
  lemma Blocker(db: Db, tx: nat) returns (o: nat)
    requires Active(db, tx) && Shaped(db.txs[tx]) && LocksOwned(db) && !Unblocked(db, tx)
    ensures Active(db, o) && Level(db.txs[o]) > Level(db.txs[tx])
  {
    var r, pc := db.txs[tx].request, db.txs[tx].pc;
    match r
    case PublishTx(t, _, _, _, _) => o := if pc.Begin? then db.advisory[t] else db.rows[t];
    case DialogueTx(t, _, _, _, _) => o := if pc.Begin? then db.advisory[t] else db.rows[t];
    case AnswerTx(question, _, _, _, _, _, _, _) =>
      o := if pc.Begin? then db.questions[question]
           else if pc.QuestionLocked? then db.advisory[pc.q.taskId]
           else db.rows[pc.q.taskId];
  }

  lemma {:induction false} SomebodyGoesOn(db: Db, tx: nat) returns (o: nat)
    requires AllOk(db) && LocksOwned(db) && Active(db, tx)
    ensures CanGoOn(db, o)
    decreases 3 - Level(db.txs[tx])
  {
    OkIsShaped(db, tx);
    if Unblocked(db, tx) {
      UnblockedGoesOn(db, tx);
      o := tx;
    } else {
      var next := Blocker(db, tx);
      o := SomebodyGoesOn(db, next);
    }
  }

  /** No deadlock: in every reachable state in which some transaction is under way, one of them can take a step that
      brings it nearer to its end. */
  lemma DeadlockFree(b0: Board, events: seq<Event>)
    ensures var db := Exec(Initial(b0), events);
      (exists tx :: Active(db, tx)) ==> exists tx :: CanGoOn(db, tx)
  {
    ExecKeepsLocks(Initial(b0), events);
    var db := Exec(Initial(b0), events);
    if tx :| Active(db, tx) {
      var o := SomebodyGoesOn(db, tx);
    }
  }
}
