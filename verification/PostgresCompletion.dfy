/** From every reachable state all transactions under way can be brought to their end, and what opening, aborting and single
    statements do. */
module PostgresCompletion {
  import opened Domain
  import opened Board
  import opened Postgres
  import opened PostgresTheorems
  import opened PostgresProgress

  /* ---- the way to the end ---- */

  /** The steps that the transactions numbered below n still have to take at most. */
  function Remaining(txs: map<nat, Tx>, n: nat): int {
    if n == 0 then 0 else Remaining(txs, n - 1) + if n - 1 in txs then Rank(txs[n - 1]) else 0
  }

  lemma {:induction false} NearerIsLess(txs: map<nat, Tx>, o: nat, tx: Tx, n: nat)
    requires o in txs && Rank(tx) < Rank(txs[o])
    ensures o < n ==> Remaining(txs[o := tx], n) < Remaining(txs, n)
    ensures n <= o ==> Remaining(txs[o := tx], n) == Remaining(txs, n)
  {
    if n > 0 {
      NearerIsLess(txs, o, tx, n - 1);
    }
  }

  lemma {:induction false} RemainingIsNat(db: Db, n: nat)
    requires AllOk(db)
    ensures Remaining(db.txs, n) >= 0
  {
    if n > 0 {
      RemainingIsNat(db, n - 1);
      if n - 1 in db.txs && Active(db, n - 1) {
        assert TxOk(db, n - 1);
        OkIsShaped(db, n - 1);
      }
    }
  }

  predicate Numbered(db: Db, n: nat) {
    forall tx :: tx in db.txs ==> tx < n
  }

  lemma {:induction false} NumbersBounded(txs: set<nat>) returns (n: nat)
    ensures forall tx :: tx in txs ==> tx < n
  {
    if txs == {} {
      n := 0;
    } else {
      var x :| x in txs;
      var m := NumbersBounded(txs - {x});
      n := if m > x then m else x + 1;
      forall tx | tx in txs ensures tx < n {
        assert tx == x || tx in txs - {x};
      }
    }
  }

  predicate Alive(db: Db, tx: nat) {
    tx in db.txs && !db.txs[tx].pc.Aborted?
  }

  lemma FinishedIsAlive(db: Db, tx: nat, b: Board, out: Outcome)
    requires tx in db.txs
    ensures Alive(Finish(db, tx, b, out), tx)
  {
  }

  lemma RejectedIsAlive(db: Db, tx: nat, error: Error)
    requires tx in db.txs
    ensures Alive(Reject(db, tx, error), tx)
  {
    FinishedIsAlive(db, tx, db.committed, EntryOut(Err(error)));
  }

  lemma PublishDoesNotAbort(db: Db, tx: nat)
    requires Active(db, tx) && db.txs[tx].request.PublishTx? && db.txs[tx].request.WellFormed()
    ensures Alive(PublishStep(db, tx), tx)
  {
    var pc := db.txs[tx].pc;
    if pc.Locked? {
      LockedPublishIsAlive(db, tx);
    } else if pc.KeyFree? || pc.RefsChecked? || pc.CitesChecked? {
      RejectedIsAlive(db, tx, FindingRejected);
      RejectedIsAlive(db, tx, NotFound);
    } else if pc.Linking? {
      LinkingIsAlive(db, tx);
    }
  }

  lemma LockedPublishIsAlive(db: Db, tx: nat)
    requires Active(db, tx) && db.txs[tx].request.PublishTx? && db.txs[tx].request.WellFormed() && db.txs[tx].pc.Locked?
    ensures Alive(PublishStep(db, tx), tx)
  {
    var r := db.txs[tx].request;
    var existing := FindKey(db.committed.Log(r.t), r.actor.agentId, r.request.key);
    if existing.Some? {
      FinishedIsAlive(db, tx, db.committed, EntryOut(Ok(existing.value)));
    }
  }

  lemma LinkingIsAlive(db: Db, tx: nat)
    requires Active(db, tx) && db.txs[tx].request.PublishTx? && db.txs[tx].request.WellFormed() && db.txs[tx].pc.Linking?
    ensures Alive(PublishStep(db, tx), tx)
  {
    RejectedIsAlive(db, tx, UniqueViolation);
  }

  lemma AnswerDoesNotAbort(db: Db, tx: nat)
    requires Active(db, tx) && db.txs[tx].request.AnswerTx?
    ensures Alive(AnswerStep(db, tx), tx)
  {
    var pc := db.txs[tx].pc;
    if pc.AnswerLocked? {
      LockedAnswerIsAlive(db, tx);
    } else if pc.AnswerBumped? {
      RejectedIsAlive(db, tx, UniqueViolation);
    } else if pc.AnswerInserted? {
      InsertedIsAlive(db, tx);
    } else if pc.Begin? {
      RejectedIsAlive(db, tx, NotFound);
    }
  }

  lemma InsertedIsAlive(db: Db, tx: nat)
    requires Active(db, tx) && db.txs[tx].request.AnswerTx? && db.txs[tx].pc.AnswerInserted?
    ensures Alive(AnswerStep(db, tx), tx)
  {
  }

  lemma LockedAnswerIsAlive(db: Db, tx: nat)
    requires Active(db, tx) && db.txs[tx].request.AnswerTx? && db.txs[tx].pc.AnswerLocked?
    ensures Alive(AnswerStep(db, tx), tx)
  {
    var r, q := db.txs[tx].request, db.txs[tx].pc.q;
    RejectedIsAlive(db, tx, Conflict);
    RejectedIsAlive(db, tx, Contract);
    RejectedIsAlive(db, tx, NotFound);
    var existing := FindKey(db.committed.Log(q.taskId), SUPERVISOR_ID, r.key);
    if existing.Some? {
      FinishedIsAlive(db, tx, db.committed, EntryOut(Ok(existing.value)));
    }
  }

  lemma DialogueDoesNotAbort(db: Db, tx: nat)
    requires Active(db, tx) && db.txs[tx].request.DialogueTx?
    ensures Alive(DialogueStep(db, tx), tx)
  {
  }

  /** A step ends in an outcome, an error included, or goes on. */
  lemma StepDoesNotAbort(db: Db, tx: nat)
    requires Active(db, tx)
    ensures Alive(Next(db, Step(tx)), tx)
  {
    if db.txs[tx].request.WellFormed() {
      if db.txs[tx].request.PublishTx? {
        PublishDoesNotAbort(db, tx);
      } else if db.txs[tx].request.AnswerTx? {
        AnswerDoesNotAbort(db, tx);
      } else if db.txs[tx].request.DialogueTx? {
        DialogueDoesNotAbort(db, tx);
      }
    }
  }

  lemma StepTouchesOne(db: Db, tx: nat)
    requires Active(db, tx) && Shaped(db.txs[tx])
    ensures var db1 := Next(db, Step(tx)); tx in db1.txs && db1.txs == db.txs[tx := db1.txs[tx]]
  {
    StepMoves(db, tx);
  }

  predicate OnlySteps(events: seq<Event>) {
    forall i :: 0 <= i < |events| ==> events[i].Step?
  }

  /** Whatever was under way has an outcome. */
  ghost predicate Ends(db: Db, db1: Db) {
    && db1.txs.Keys == db.txs.Keys
    && (forall tx :: tx in db.txs ==> !Active(db1, tx))
    && (forall tx :: Active(db, tx) ==> db1.txs[tx].pc.Finished?)
    && (forall tx :: tx in db.txs && !Active(db, tx) ==> db1.txs[tx] == db.txs[tx])
  }

  lemma EndsFurther(db: Db, db1: Db, db2: Db, o: nat)
    requires Active(db, o) && o in db1.txs && db1.txs == db.txs[o := db1.txs[o]] && !db1.txs[o].pc.Aborted? && Ends(db1, db2)
    ensures Ends(db, db2)
  {
    forall tx | Active(db, tx) ensures db2.txs[tx].pc.Finished? {
      assert tx in db1.txs;
      if !Active(db1, tx) {
        assert db2.txs[tx] == db1.txs[tx];
        assert tx == o;
      }
    }
  }

  lemma {:induction false} CanEnd(db: Db, n: nat) returns (events: seq<Event>)
    requires AllOk(db) && LocksOwned(db) && Numbered(db, n)
    ensures OnlySteps(events) && Ends(db, Exec(db, events))
    decreases Remaining(db.txs, n)
  {
    RemainingIsNat(db, n);
    if tx :| Active(db, tx) {
      var o := SomebodyGoesOn(db, tx);
      var db1 := Next(db, Step(o));
      assert TxOk(db, o);
      OkIsShaped(db, o);
      StepTouchesOne(db, o);
      StepDoesNotAbort(db, o);
      NextOk(db, Step(o));
      NextKeepsLocks(db, Step(o));
      NearerIsLess(db.txs, o, db1.txs[o], n);
      var rest := CanEnd(db1, n);
      events := [Step(o)] + rest;
      assert events[1..] == rest;
      EndsFurther(db, db1, Exec(db1, rest), o);
    } else {
      events := [];
    }
  }

  ghost predicate BroughtToEnd(db: Db, events: seq<Event>) {
    OnlySteps(events) && Ends(db, Exec(db, events))
  }

  /** From every reachable state some order of steps, without any abort, gives every transaction under way its outcome and leaves
      the others alone. */
  lemma AllCanFinish(b0: Board, events: seq<Event>)
    ensures exists steps :: BroughtToEnd(Exec(Initial(b0), events), steps)
  {
    ExecKeepsLocks(Initial(b0), events);
    var db := Exec(Initial(b0), events);
    var n := NumbersBounded(db.txs.Keys);
    var steps := CanEnd(db, n);
    assert BroughtToEnd(db, steps);
  }

  /* ---- opening, aborting, single statements ---- */

  /** Under an unused number a transaction can be opened at any time; it is then under way. */
  lemma OpenStarts(db: Db, tx: nat, request: Request)
    requires tx !in db.txs && request.WellFormed() && (request.PublishTx? || request.AnswerTx? || request.DialogueTx?)
    ensures var db1 := Next(db, Open(tx, request));
      Active(db1, tx) && db1.txs[tx].request == request && db1.txs - {tx} == db.txs && db1.committed == db.committed
  {
  }

  /** A transaction that is aborted before its end leaves the committed state and the history alone and lets go of its locks. */
  lemma AbortLeavesNoTrace(db: Db, tx: nat)
    requires Active(db, tx)
    ensures var db1 := Next(db, Abort(tx));
      && tx in db1.txs && db1.txs[tx].pc.Aborted? && db1.committed == db.committed && db1.history == db.history
      && (forall x :: x in db1.advisory ==> db1.advisory[x] != tx)
      && (forall x :: x in db1.rows ==> db1.rows[x] != tx)
      && (forall x :: x in db1.questions ==> db1.questions[x] != tx)
      && (forall x :: x in db.advisory && db.advisory[x] != tx ==> x in db1.advisory && db1.advisory[x] == db.advisory[x])
  {
  }

  /** A single statement takes effect at once unless it updates a row that a transaction has locked. */
  lemma StatementTakesEffectIff(db: Db, r: Request)
    requires r.UpdateRow? || r.AddArtifact? || r.Ask? || r.NewTask? || r.KeepWriteup?
    ensures var db1 := Next(db, Execute(r));
      if r.UpdateRow? && r.t in db.rows then db1 == db
      else db1.committed == PgApply(db.committed, r).0 && |db1.history| == |db.history| + 1 && db1.txs == db.txs
  {
  }
}
