/** The one-shot reporter of one task, interleaved with any operations on the board, of either storage
    (_report and the candidate branch of changed in tga3/src/tga3/host_agents.py). */
module Reporter {
  import opened Domain
  import opened Board
  import opened BoardRuns
  import opened BoardInvariant
  import opened BoardTheorems
  import opened BoardEffects
  import opened Supervisor
  import P = Postgres
  import PI = PostgresInvariant

  /** How many entries the report asks for. */
  const REPORT_LIMIT := 10000

  /** Where the report job is suspended; candidate is the number of the entry that started it. */
  datatype Job =
    | NotStarted
    | Started(candidate: nat)
    | Grace(candidate: nat)
    | SeqRead(candidate: nat, snapshotSeq: nat)
    | Fixed(candidate: nat, snapshotSeq: nat)
    | Drafting(candidate: nat, snapshotSeq: nat, entries: seq<Entry>)
    | Saved(candidate: nat, snapshotSeq: nat, entries: seq<Entry>, writeup: Uuid)
    | Dead

  /** starts: how many report jobs were created since the last cancel. */
  datatype Desk = Desk(board: Board, job: Job, starts: nat)

  function Fresh(b: Board): Desk {
    Desk(b, NotStarted, 0)
  }

  datatype Event =
    | Operate(op: Op)
    | Commit(r: P.Request)
    | ChangedHook(seqNo: nat)
    | Advance(writeup: Uuid)
    | Fail
    | Cancel

  /** The entry changed() reads for a notified number. */
  function NotifiedEntry(b: Board, t: Uuid, seqNo: nat): Option<Entry> {
    var read := ListEntries(b, t, Max(0, seqNo - 1), None, 1);
    if read.Ok? && read.value != [] then Some(read.value[0]) else None
  }

  function Hook(s: Desk, t: Uuid, seqNo: nat): Desk {
    if t !in s.board.tasks || Terminal(s.board.tasks[t].state) then s
    else
      var e := NotifiedEntry(s.board, t, seqNo);
      if e.Some? && Classify(e.value) == StartReport && s.job.NotStarted? then s.(job := Started(e.value.seqNo), starts := s.starts + 1)
      else s
  }

  function Step(s: Desk, t: Uuid, writeup: Uuid): Desk
    requires t in s.board.tasks
  {
    match s.job
    case Started(c) => s.(board := UpdateTask(s.board, t, Some(Finalizing), None).0, job := Grace(c))
    case Grace(c) => s.(job := SeqRead(c, s.board.tasks[t].blackboardSeq))
    case SeqRead(c, snap) => s.(board := UpdateTask(s.board, t, Some(Reporting), Some(snap)).0, job := Fixed(c, snap))
    case Fixed(c, snap) => s.(job := Drafting(c, snap, ListEntries(s.board, t, 0, Some(snap), REPORT_LIMIT).value))
    case Drafting(c, snap, entries) =>
      if writeup in s.board.writeups then s
      else s.(board := SaveWriteup(s.board, t, snap, writeup).0, job := Saved(c, snap, entries, writeup))
    case _ => s
  }

  /** One event for the report of task t; the board changes in any way except that t itself is not deleted. */
  ghost function Next(s: Desk, t: Uuid, event: Event): Desk {
    match event
    case Operate(op) =>
      if FreshIds(s.board, op) && op != OpDeleteTask(t) then s.(board := Apply(s.board, op)) else s
    case Commit(r) => if r.WellFormed() && PI.Legit(s.board, r) then s.(board := P.PgApply(s.board, r).0) else s
    case ChangedHook(seqNo) => Hook(s, t, seqNo)
    case Advance(writeup) => if t in s.board.tasks then Step(s, t, writeup) else s
    case Fail => if s.job.NotStarted? then s else s.(job := Dead)
    case Cancel => s.(job := NotStarted, starts := 0)
  }

  ghost function Run(s: Desk, t: Uuid, events: seq<Event>): Desk
    decreases |events|
  {
    if events == [] then s else Run(Next(s, t, events[0]), t, events[1..])
  }

  /* ---- what every run keeps ---- */

  ghost predicate IsCandidate(log: seq<Entry>, candidate: nat) {
    1 <= candidate <= |log| && log[candidate - 1].kind == FinalCandidate
  }

  /** The entries handed to the reporting model: everything up to the fixed number, as far as the limit reaches. */
  ghost predicate SnapshotOf(log: seq<Entry>, candidate: nat, snapshotSeq: nat, entries: seq<Entry>) {
    candidate <= snapshotSeq <= |log| && entries == log[..Min(snapshotSeq, REPORT_LIMIT)]
  }

  ghost predicate JobOk(b: Board, t: Uuid, job: Job) {
    var log := b.Log(t);
    match job
    case NotStarted => true
    case Dead => true
    case Started(c) => IsCandidate(log, c)
    case Grace(c) => IsCandidate(log, c)
    case SeqRead(c, snap) => IsCandidate(log, c) && c <= snap <= |log|
    case Fixed(c, snap) => IsCandidate(log, c) && c <= snap <= |log|
    case Drafting(c, snap, entries) => IsCandidate(log, c) && SnapshotOf(log, c, snap, entries)
    case Saved(c, snap, entries, writeup) => IsCandidate(log, c) && SnapshotOf(log, c, snap, entries)
  }

  ghost predicate WriteupSaved(s: Desk, t: Uuid) {
    s.job.Saved? ==>
      s.job.writeup in s.board.writeups && s.board.writeups[s.job.writeup] == Writeup(t, s.job.snapshotSeq)
  }

  ghost predicate DeskOk(s: Desk, t: Uuid) {
    && Inv(s.board) && t in s.board.tasks && JobOk(s.board, t, s.job)
    && s.starts <= 1 && (s.job.NotStarted? <==> s.starts == 0)
    && WriteupSaved(s, t)
  }

  lemma GrownLogKeepsJob(b: Board, b1: Board, t: Uuid, job: Job)
    requires JobOk(b, t, job) && b.Log(t) <= b1.Log(t)
    ensures JobOk(b1, t, job)
  {
    match job
    case Drafting(_, snap, _) => assert b1.Log(t)[..Min(snap, REPORT_LIMIT)] == b.Log(t)[..Min(snap, REPORT_LIMIT)];
    case Saved(_, snap, _, _) => assert b1.Log(t)[..Min(snap, REPORT_LIMIT)] == b.Log(t)[..Min(snap, REPORT_LIMIT)];
    case _ =>
  }

  lemma WriteupsStay(b: Board, op: Op, t: Uuid, w: Uuid)
    requires FreshIds(b, op) && op != OpDeleteTask(t) && w in b.writeups && b.writeups[w].taskId == t
    ensures w in Apply(b, op).writeups && Apply(b, op).writeups[w] == b.writeups[w]
  {
  }

  lemma OperateOk(s: Desk, t: Uuid, op: Op)
    requires DeskOk(s, t)
    ensures DeskOk(Next(s, t, Operate(op)), t)
  {
    if FreshIds(s.board, op) && op != OpDeleteTask(t) {
      OpKeepsInv(s.board, op);
      OpGrowsLog(s.board, op, t);
      GrownLogKeepsJob(s.board, Apply(s.board, op), t, s.job);
      if s.job.Saved? {
        WriteupsStay(s.board, op, t, s.job.writeup);
      }
    }
  }

  lemma PgWriteupsStay(b: Board, r: P.Request, w: Uuid)
    requires r.WellFormed() && PI.Legit(b, r) && w in b.writeups
    ensures w in P.PgApply(b, r).0.writeups && P.PgApply(b, r).0.writeups[w] == b.writeups[w]
  {
  }

  lemma CommitOk(s: Desk, t: Uuid, r: P.Request)
    requires DeskOk(s, t) && r.WellFormed() && PI.Legit(s.board, r)
    ensures DeskOk(s.(board := P.PgApply(s.board, r).0), t)
  {
    PI.PgKeepsInv(s.board, r);
    PI.PgGrowsLog(s.board, r, t);
    GrownLogKeepsJob(s.board, P.PgApply(s.board, r).0, t, s.job);
    if s.job.Saved? {
      PgWriteupsStay(s.board, r, s.job.writeup);
    }
  }

  lemma HookOk(s: Desk, t: Uuid, seqNo: nat)
    requires DeskOk(s, t)
    ensures DeskOk(Hook(s, t, seqNo), t)
  {
    InvGapless(s.board, t);
    NotifiedIsPosition(s.board, t, seqNo);
    var s1 := Hook(s, t, seqNo);
    assert s1.board == s.board;
  }

  lemma NotifiedIsPosition(b: Board, t: Uuid, seqNo: nat)
    requires t in b.tasks && BoardRuns.Gapless(b, t)
    ensures var e := NotifiedEntry(b, t, seqNo);
            e.Some? ==> 1 <= e.value.seqNo <= |b.Log(t)| && b.Log(t)[e.value.seqNo - 1] == e.value
  {
    ListEntriesIsSlice(b, t, Max(0, seqNo - 1), None, 1);
  }

  /** A step that only writes the task's row. */
  lemma RowStepOk(s: Desk, t: Uuid, state: RunState, finalSeq: Option<nat>, job: Job)
    requires DeskOk(s, t) && !s.job.NotStarted? && !job.NotStarted? && !job.Saved? && JobOk(s.board, t, job)
    ensures DeskOk(s.(board := UpdateTask(s.board, t, Some(state), finalSeq).0, job := job), t)
  {
    OpKeepsInv(s.board, OpUpdateTask(t, Some(state), finalSeq));
    GrownLogKeepsJob(s.board, UpdateTask(s.board, t, Some(state), finalSeq).0, t, job);
  }

  /** A step that only moves the job. */
  lemma JobStepOk(s: Desk, t: Uuid, job: Job)
    requires DeskOk(s, t) && !s.job.NotStarted? && !job.NotStarted? && !job.Saved? && JobOk(s.board, t, job)
    ensures DeskOk(s.(job := job), t)
  {
  }

  lemma SaveStepOk(s: Desk, t: Uuid, writeup: Uuid)
    requires DeskOk(s, t) && s.job.Drafting? && writeup !in s.board.writeups
    ensures DeskOk(Step(s, t, writeup), t)
  {
    var b1 := SaveWriteup(s.board, t, s.job.snapshotSeq, writeup).0;
    OpKeepsInv(s.board, OpSaveWriteup(t, s.job.snapshotSeq, writeup));
    GrownLogKeepsJob(s.board, b1, t, s.job);
  }

  lemma ReadsSnapshot(b: Board, t: Uuid, c: nat, snap: nat)
    requires t in b.tasks && BoardRuns.Gapless(b, t) && JobOk(b, t, Fixed(c, snap))
    ensures JobOk(b, t, Drafting(c, snap, ListEntries(b, t, 0, Some(snap), REPORT_LIMIT).value))
  {
    ListEntriesIsSlice(b, t, 0, Some(snap), REPORT_LIMIT);
  }

  lemma StepOk(s: Desk, t: Uuid, writeup: Uuid)
    requires DeskOk(s, t)
    ensures DeskOk(Step(s, t, writeup), t)
  {
    match s.job
    case Started(c) => RowStepOk(s, t, Finalizing, None, Grace(c));
    case Grace(c) =>
      InvGapless(s.board, t);
      JobStepOk(s, t, SeqRead(c, s.board.tasks[t].blackboardSeq));
    case SeqRead(c, snap) => RowStepOk(s, t, Reporting, Some(snap), Fixed(c, snap));
    case Fixed(c, snap) =>
      InvGapless(s.board, t);
      ReadsSnapshot(s.board, t, c, snap);
      JobStepOk(s, t, Drafting(c, snap, ListEntries(s.board, t, 0, Some(snap), REPORT_LIMIT).value));
    case Drafting(_, _, _) =>
      if writeup !in s.board.writeups {
        SaveStepOk(s, t, writeup);
      }
    case _ =>
  }

  lemma NextOk(s: Desk, t: Uuid, event: Event)
    requires DeskOk(s, t)
    ensures DeskOk(Next(s, t, event), t)
  {
    match event
    case Operate(op) => OperateOk(s, t, op);
    case Commit(r) =>
      if r.WellFormed() && PI.Legit(s.board, r) {
        CommitOk(s, t, r);
      }
    case ChangedHook(seqNo) => HookOk(s, t, seqNo);
    case Advance(writeup) => StepOk(s, t, writeup);
    case _ =>
  }

  lemma {:induction false} RunOk(s: Desk, t: Uuid, events: seq<Event>)
    requires DeskOk(s, t)
    ensures DeskOk(Run(s, t, events), t)
    decreases |events|
  {
    if events != [] {
      NextOk(s, t, events[0]);
      RunOk(Next(s, t, events[0]), t, events[1..]);
    }
  }

  lemma FreshOk(b: Board, t: Uuid)
    requires Inv(b) && t in b.tasks
    ensures DeskOk(Fresh(b), t)
  {
  }

  /* ---- the promises ---- */

  /** The desks that some run leads to from a reachable board without reports. */
  ghost predicate ReachableDesk(s: Desk, t: Uuid) {
    exists b, events :: ReachedBy(s, t, b, events)
  }

  ghost predicate ReachedBy(s: Desk, t: Uuid, b: Board, events: seq<Event>) {
    (Reachable(b) || PI.PgReachable(b)) && t in b.tasks && s == Run(Fresh(b), t, events)
  }

  lemma ReachableOk(s: Desk, t: Uuid)
    requires ReachableDesk(s, t)
    ensures DeskOk(s, t)
  {
    var b, events :| ReachedBy(s, t, b, events);
    if Reachable(b) {
      ReachableInv(b);
    } else {
      PI.PgReachableInv(b);
    }
    FreshOk(b, t);
    RunOk(Fresh(b), t, events);
  }

  /** In every run the report reads exactly the entries up to the number it fixed, whatever is published afterwards,
      if and only if that number does not exceed its limit. */
  lemma SnapshotIsExactIff(s: Desk, t: Uuid)
    requires ReachableDesk(s, t) && s.job.Drafting?
    ensures s.job.snapshotSeq <= |s.board.Log(t)|
    ensures s.job.entries == s.board.Log(t)[..s.job.snapshotSeq] <==> s.job.snapshotSeq <= REPORT_LIMIT
  {
    ReachableOk(s, t);
    DraftingIsExactIff(s, t);
  }

  lemma DraftingIsExactIff(s: Desk, t: Uuid)
    requires JobOk(s.board, t, s.job) && s.job.Drafting?
    ensures s.job.snapshotSeq <= |s.board.Log(t)|
    ensures s.job.entries == s.board.Log(t)[..s.job.snapshotSeq] <==> s.job.snapshotSeq <= REPORT_LIMIT
  {
    if s.job.snapshotSeq > REPORT_LIMIT {
      assert |s.job.entries| == REPORT_LIMIT;
    }
  }

  /** The snapshot holds the candidate that started the report and every finding it cites. */
  lemma SnapshotHoldsItsGrounds(s: Desk, t: Uuid)
    requires ReachableDesk(s, t) && s.job.Drafting? && s.job.snapshotSeq <= REPORT_LIMIT
    ensures Grounded(s.job.entries, s.job.candidate)
  {
    ReachableOk(s, t);
    DraftingIsGrounded(s, t);
  }

  lemma DraftingIsGrounded(s: Desk, t: Uuid)
    requires DeskOk(s, t) && s.job.Drafting? && s.job.snapshotSeq <= REPORT_LIMIT
    ensures Grounded(s.job.entries, s.job.candidate)
  {
    InvCites(s.board, t);
    DraftGrounded(s.board, t, s.job);
  }

  lemma DraftGrounded(b: Board, t: Uuid, job: Job)
    requires JobOk(b, t, job) && CitesEarlierFindings(b.Log(t)) && job.Drafting? && job.snapshotSeq <= REPORT_LIMIT
    ensures Grounded(job.entries, job.candidate)
  {
    CandidateGrounded(b.Log(t), job.candidate, job.snapshotSeq);
  }

  ghost predicate Grounded(entries: seq<Entry>, candidate: nat) {
    && IsCandidate(entries, candidate)
    && entries[candidate - 1].body.CandidateBody?
    && entries[candidate - 1].body.findingIds != []
    && CitesFindings(entries[..candidate - 1], entries[candidate - 1].body.findingIds)
  }

  lemma InvCites(b: Board, t: Uuid)
    requires Inv(b) && t in b.tasks
    ensures CitesEarlierFindings(b.Log(t))
  {
    assert TaskOk(b, t);
  }

  lemma CandidateGrounded(log: seq<Entry>, candidate: nat, snapshotSeq: nat)
    requires CitesEarlierFindings(log) && IsCandidate(log, candidate) && candidate <= snapshotSeq <= |log|
    ensures Grounded(log[..snapshotSeq], candidate)
  {
    assert log[..snapshotSeq][..candidate - 1] == log[..candidate - 1];
  }

  /** The saved writeup carries the fixed number, and any number of candidates starts one report between cancels. */
  lemma OneReportPerCancel(s: Desk, t: Uuid)
    requires ReachableDesk(s, t)
    ensures s.starts <= 1
    ensures WriteupMatches(s, t)
  {
    ReachableOk(s, t);
    DeskKeepsPromises(s, t);
  }

  ghost predicate WriteupMatches(s: Desk, t: Uuid) {
    s.job.Saved? ==>
      WriteupSaved(s, t) && SnapshotOf(s.board.Log(t), s.job.candidate, s.job.snapshotSeq, s.job.entries)
  }

  lemma DeskKeepsPromises(s: Desk, t: Uuid)
    requires DeskOk(s, t)
    ensures s.starts <= 1 && WriteupMatches(s, t)
  {
    assert JobOk(s.board, t, s.job);
  }

  /* ---- failures and cancels ---- */

  /** The board moves as its storage does, whatever the report is doing. */
  lemma BoardMoves(s: Desk, t: Uuid, op: Op, r: P.Request)
    ensures FreshIds(s.board, op) && op != OpDeleteTask(t) ==>
      Next(s, t, Operate(op)).board == Apply(s.board, op) && Next(s, t, Operate(op)).job == s.job
    ensures r.WellFormed() && PI.Legit(s.board, r) ==>
      Next(s, t, Commit(r)).board == P.PgApply(s.board, r).0 && Next(s, t, Commit(r)).job == s.job
  {
  }

  lemma DeadStays(s: Desk, t: Uuid, event: Event)
    requires s.job.Dead? && !event.Cancel?
    ensures Next(s, t, event).job.Dead? && Next(s, t, event).starts == s.starts
  {
  }

  lemma {:induction false} RunDeadStays(s: Desk, t: Uuid, events: seq<Event>)
    requires s.job.Dead? && Event.Cancel !in events
    ensures Run(s, t, events).job.Dead? && Run(s, t, events).starts == s.starts
    decreases |events|
  {
    if events != [] {
      DeadStays(s, t, events[0]);
      RunDeadStays(Next(s, t, events[0]), t, events[1..]);
    }
  }

  /** A report that failed is not started again, whatever candidates follow, until it is cancelled; then the next notified
      candidate starts one. */
  lemma FailedReportIsFinal(s: Desk, t: Uuid, events: seq<Event>, seqNo: nat)
    requires !s.job.NotStarted? && Event.Cancel !in events
    ensures var s1 := Run(Next(s, t, Fail), t, events);
            var s2 := Next(s1, t, Event.Cancel);
            var e := NotifiedEntry(s1.board, t, seqNo);
      && s1.job.Dead? && s1.starts == s.starts
      && (t in s1.board.tasks && !Terminal(s1.board.tasks[t].state) && e.Some? && e.value.kind == FinalCandidate ==>
            Next(s2, t, ChangedHook(seqNo)).job == Started(e.value.seqNo) && Next(s2, t, ChangedHook(seqNo)).starts == 1)
  {
    RunDeadStays(Next(s, t, Fail), t, events);
  }

  /* ---- which number a report fixes ---- */

  /** The job reports on the first n entries, or has failed. */
  predicate ReportsOn(job: Job, candidate: nat, n: nat) {
    match job
    case SeqRead(c, snap) => c == candidate && snap == n
    case Fixed(c, snap) => c == candidate && snap == n
    case Drafting(c, snap, _) => c == candidate && snap == n
    case Saved(c, snap, _, _) => c == candidate && snap == n
    case Dead => true
    case _ => false
  }

  /** Another writer names a snapshot number for the task. */
  predicate NamesSnapshot(event: Event, t: Uuid) {
    || (event.Operate? && event.op.OpUpdateTask? && event.op.t == t && event.op.finalSeq.Some?)
    || (event.Commit? && event.r.UpdateRow? && event.r.t == t && event.r.finalSeq.Some?)
  }

  /** The task carries the number from the moment the report has set it. */
  predicate Marked(s: Desk, t: Uuid, n: nat) {
    (s.job.Fixed? || s.job.Drafting? || s.job.Saved?) ==> t in s.board.tasks && s.board.tasks[t].finalSnapshotSeq == Some(n)
  }

  /** The part of the invariant that the steps of the report need. */
  lemma DeskBasics(s: Desk, t: Uuid)
    requires DeskOk(s, t)
    ensures t in s.board.tasks && BoardRuns.Gapless(s.board, t) && JobOk(s.board, t, s.job)
  {
    InvGapless(s.board, t);
  }

  lemma ReadStepKeepsLog(s: Desk, t: Uuid, writeup: Uuid)
    requires t in s.board.tasks && !s.job.Started? && !s.job.SeqRead? && !s.job.Drafting?
    ensures Step(s, t, writeup).board == s.board
  {
  }

  lemma WriteStepKeepsLog(s: Desk, t: Uuid, writeup: Uuid)
    requires t in s.board.tasks && (s.job.Started? || s.job.SeqRead? || s.job.Drafting?)
    ensures Step(s, t, writeup).board.entries == s.board.entries && t in Step(s, t, writeup).board.tasks
  {
  }

  lemma StepKeepsLog(s: Desk, t: Uuid, writeup: Uuid)
    requires t in s.board.tasks
    ensures Step(s, t, writeup).board.entries == s.board.entries && t in Step(s, t, writeup).board.tasks
  {
    if s.job.Started? || s.job.SeqRead? || s.job.Drafting? {
      WriteStepKeepsLog(s, t, writeup);
    } else {
      ReadStepKeepsLog(s, t, writeup);
    }
  }

  lemma NextGrowsLog(s: Desk, t: Uuid, event: Event)
    requires t in s.board.tasks
    ensures s.board.Log(t) <= Next(s, t, event).board.Log(t) && t in Next(s, t, event).board.tasks
  {
    match event
    case Operate(op) =>
      if op != OpDeleteTask(t) {
        OpGrowsLog(s.board, op, t);
      }
    case Commit(r) =>
      if r.WellFormed() {
        PI.PgGrowsLog(s.board, r, t);
      }
    case Advance(writeup) => StepKeepsLog(s, t, writeup);
    case _ =>
  }

  lemma NextReportsOn(s: Desk, t: Uuid, event: Event, c: nat, n: nat)
    requires ReportsOn(s.job, c, n) && !event.Cancel?
    ensures ReportsOn(Next(s, t, event).job, c, n)
  {
  }

  lemma OperateKeepsMark(s: Desk, t: Uuid, op: Op, n: nat)
    requires t in s.board.tasks && Marked(s, t, n) && !NamesSnapshot(Operate(op), t) && op != OpDeleteTask(t)
    ensures Marked(s.(board := Apply(s.board, op)), t, n)
  {
    OpKeepsSnapshot(s.board, op, t);
  }

  lemma CommitKeepsMark(s: Desk, t: Uuid, r: P.Request, n: nat)
    requires t in s.board.tasks && Marked(s, t, n) && !NamesSnapshot(Commit(r), t) && r.WellFormed()
    ensures Marked(s.(board := P.PgApply(s.board, r).0), t, n)
  {
    if r.PublishTx? {
      PI.PgPublishAppends(s.board, r.t, r.actor, r.request, r.id, r.now);
    } else {
      PI.OtherRequestsAreOps(s.board, r);
      OpKeepsSnapshot(s.board, PI.OpOf(r), t);
    }
  }

  lemma StepMarks(s: Desk, t: Uuid, writeup: Uuid, c: nat, n: nat)
    requires t in s.board.tasks && ReportsOn(s.job, c, n) && Marked(s, t, n)
    ensures Marked(Step(s, t, writeup), t, n)
  {
  }

  lemma NextKeepsMark(s: Desk, t: Uuid, event: Event, c: nat, n: nat)
    requires t in s.board.tasks && ReportsOn(s.job, c, n) && Marked(s, t, n) && !event.Cancel? && !NamesSnapshot(event, t)
    ensures Marked(Next(s, t, event), t, n)
  {
    match event
    case Operate(op) =>
      if op != OpDeleteTask(t) {
        OperateKeepsMark(s, t, op, n);
      }
    case Commit(r) =>
      if r.WellFormed() {
        CommitKeepsMark(s, t, r, n);
      }
    case Advance(writeup) => StepMarks(s, t, writeup, c, n);
    case _ =>
  }

  lemma {:induction false} RunReportsOn(s: Desk, t: Uuid, events: seq<Event>, c: nat, n: nat)
    requires DeskOk(s, t) && ReportsOn(s.job, c, n) && Event.Cancel !in events
    ensures var s1 := Run(s, t, events); ReportsOn(s1.job, c, n) && s.board.Log(t) <= s1.board.Log(t) && DeskOk(s1, t)
    decreases |events|
  {
    if events != [] {
      NextOk(s, t, events[0]);
      DeskBasics(s, t);
      NextGrowsLog(s, t, events[0]);
      NextReportsOn(s, t, events[0], c, n);
      RunReportsOn(Next(s, t, events[0]), t, events[1..], c, n);
    }
  }

  lemma {:induction false} RunKeepsMark(s: Desk, t: Uuid, events: seq<Event>, c: nat, n: nat)
    requires t in s.board.tasks && ReportsOn(s.job, c, n) && Marked(s, t, n) && Event.Cancel !in events
    requires forall i :: 0 <= i < |events| ==> !NamesSnapshot(events[i], t)
    ensures Marked(Run(s, t, events), t, n)
    decreases |events|
  {
    if events != [] {
      NextGrowsLog(s, t, events[0]);
      NextReportsOn(s, t, events[0], c, n);
      NextKeepsMark(s, t, events[0], c, n);
      RunKeepsMark(Next(s, t, events[0]), t, events[1..], c, n);
    }
  }

  /** What the report hands over of a board as it was: all its entries, up to the limit. */
  predicate HandsOver(job: Job, log: seq<Entry>) {
    && (job.Drafting? ==> job.entries == log[..Min(|log|, REPORT_LIMIT)])
    && (job.Saved? ==> job.entries == log[..Min(|log|, REPORT_LIMIT)])
  }

  lemma ReportsOnAll(s: Desk, t: Uuid, log: seq<Entry>, c: nat)
    requires JobOk(s.board, t, s.job) && ReportsOn(s.job, c, |log|) && log <= s.board.Log(t)
    ensures HandsOver(s.job, log)
  {
    assert s.board.Log(t)[..Min(|log|, REPORT_LIMIT)] == log[..Min(|log|, REPORT_LIMIT)];
  }

  lemma GraceReads(s: Desk, t: Uuid, writeup: Uuid)
    requires t in s.board.tasks && BoardRuns.Gapless(s.board, t) && s.job.Grace?
    ensures Next(s, t, Advance(writeup)) == s.(job := SeqRead(s.job.candidate, |s.board.Log(t)|))
  {
  }

  /** When the grace period is over, whatever was published during it is in the report: the number fixed is that of the last
      entry then on the board, whatever happens later the report hands over all entries up to it, within the limit,
      and the task keeps that number as long as nobody names another. */
  lemma GraceFixesBoard(s: Desk, t: Uuid, writeup: Uuid, events: seq<Event>)
    requires ReachableDesk(s, t) && s.job.Grace? && Event.Cancel !in events
    ensures var s1 := Run(Next(s, t, Advance(writeup)), t, events);
            var log := s.board.Log(t);
      && ReportsOn(s1.job, s.job.candidate, |log|)
      && log <= s1.board.Log(t)
      && HandsOver(s1.job, log)
      && ((forall i :: 0 <= i < |events| ==> !NamesSnapshot(events[i], t)) ==> Marked(s1, t, |log|))
  {
    ReachableOk(s, t);
    DeskBasics(s, t);
    GraceReads(s, t, writeup);
    var s0, log := Next(s, t, Advance(writeup)), s.board.Log(t);
    NextOk(s, t, Advance(writeup));
    RunReportsOn(s0, t, events, s.job.candidate, |log|);
    DeskBasics(Run(s0, t, events), t);
    ReportsOnAll(Run(s0, t, events), t, log, s.job.candidate);
    if forall i :: 0 <= i < |events| ==> !NamesSnapshot(events[i], t) {
      RunKeepsMark(s0, t, events, s.job.candidate, |log|);
    }
  }

  lemma RunStep(s: Desk, t: Uuid, e: Event, rest: seq<Event>)
    ensures Run(s, t, [e] + rest) == Run(Next(s, t, e), t, rest)
  {
    assert ([e] + rest)[1..] == rest;
  }

  lemma RunThree(s: Desk, t: Uuid, e: Event)
    ensures Run(s, t, [e, e, e]) == Next(Next(Next(s, t, e), t, e), t, e)
  {
    RunStep(s, t, e, [e, e]);
    RunStep(Next(s, t, e), t, e, [e]);
    RunStep(Next(Next(s, t, e), t, e), t, e, []);
    assert [e, e, e] == [e] + [e, e] && [e, e] == [e] + [e] && [e] == [e] + [];
  }

  lemma StartedStep(s: Desk, t: Uuid, writeup: Uuid)
    requires t in s.board.tasks && s.job.Started?
    ensures var s1 := Next(s, t, Advance(writeup));
      && s1.job == Grace(s.job.candidate)
      && t in s1.board.tasks && s1.board.tasks[t] == s.board.tasks[t].(state := Finalizing)
      && s1.board.Log(t) == s.board.Log(t)
  {
  }

  /** A started report first marks the task as being finalized. */
  lemma ReportFinalizes(s: Desk, t: Uuid, writeup: Uuid)
    requires ReachableDesk(s, t) && s.job.Started?
    ensures var s1 := Next(s, t, Advance(writeup));
      && s1.job == Grace(s.job.candidate)
      && t in s.board.tasks && t in s1.board.tasks && s1.board.tasks[t] == s.board.tasks[t].(state := Finalizing)
      && s1.board.Log(t) == s.board.Log(t)
  {
    ReachableOk(s, t);
    DeskBasics(s, t);
    StartedStep(s, t, writeup);
  }

  lemma SeqReadStep(s: Desk, t: Uuid, writeup: Uuid)
    requires t in s.board.tasks && BoardRuns.Gapless(s.board, t) && s.job.SeqRead?
    ensures var s1 := Next(s, t, Advance(writeup));
            var n := s.job.snapshotSeq;
      && t in s1.board.tasks && s1.board.tasks[t] == s.board.tasks[t].(state := Reporting, finalSnapshotSeq := Some(n))
      && s1.job == Fixed(s.job.candidate, n) && s1.board.Log(t) == s.board.Log(t) && s1.board.writeups == s.board.writeups
      && BoardRuns.Gapless(s1.board, t)
  {
  }

  lemma FixedStep(s: Desk, t: Uuid, writeup: Uuid)
    requires t in s.board.tasks && BoardRuns.Gapless(s.board, t) && s.job.Fixed? && s.job.snapshotSeq <= |s.board.Log(t)|
    ensures var n := s.job.snapshotSeq;
      Next(s, t, Advance(writeup)) == s.(job := Drafting(s.job.candidate, n, s.board.Log(t)[..Min(n, REPORT_LIMIT)]))
  {
    ListEntriesIsSlice(s.board, t, 0, Some(s.job.snapshotSeq), REPORT_LIMIT);
  }

  lemma DraftingStep(s: Desk, t: Uuid, writeup: Uuid)
    requires t in s.board.tasks && s.job.Drafting? && writeup !in s.board.writeups
    ensures var s1 := Next(s, t, Advance(writeup));
      && s1.job == Saved(s.job.candidate, s.job.snapshotSeq, s.job.entries, writeup)
      && writeup in s1.board.writeups && s1.board.writeups[writeup] == Writeup(t, s.job.snapshotSeq)
  {
  }

  /** The task is reporting, with its number; then the entries up to it are read, and a writeup for it is saved. */
  predicate Reports(s: Desk, s1: Desk, s3: Desk, t: Uuid, writeup: Uuid)
    requires s.job.SeqRead?
  {
    var n := s.job.snapshotSeq;
    && t in s.board.tasks && t in s1.board.tasks
    && s1.board.tasks[t] == s.board.tasks[t].(state := Reporting, finalSnapshotSeq := Some(n))
    && n <= |s.board.Log(t)|
    && s3.job == Saved(s.job.candidate, n, s.board.Log(t)[..Min(n, REPORT_LIMIT)], writeup)
    && writeup in s3.board.writeups && s3.board.writeups[writeup] == Writeup(t, n)
  }

  /** A report that has read its number sets it on the task, which is then reporting, and, when nothing intervenes, saves a
      writeup for that number. */
  lemma ReportReports(s: Desk, t: Uuid, writeup: Uuid)
    requires ReachableDesk(s, t) && s.job.SeqRead? && writeup !in s.board.writeups
    ensures Reports(s, Next(s, t, Advance(writeup)), Run(s, t, [Advance(writeup), Advance(writeup), Advance(writeup)]), t, writeup)
  {
    ReachableOk(s, t);
    DeskBasics(s, t);
    RunThree(s, t, Advance(writeup));
    var s1 := Next(s, t, Advance(writeup));
    SeqReadStep(s, t, writeup);
    FixedStep(s1, t, writeup);
    DraftingStep(Next(s1, t, Advance(writeup)), t, writeup);
  }

  ghost predicate HookFires(s: Desk, t: Uuid, e: Entry) {
    Hook(s, t, e.seqNo) ==
      if e.kind == FinalCandidate && s.job.NotStarted? && t in s.board.tasks && !Terminal(s.board.tasks[t].state)
      then s.(job := Started(e.seqNo), starts := s.starts + 1)
      else s
  }

  /** A hook that reads the entry it was notified about decides on that entry's kind. */
  lemma ReadHookFires(b: Board, t: Uuid, e: Entry, job: Job, starts: nat)
    requires ListEntries(b, t, Max(0, e.seqNo - 1), None, 1) == Ok([e])
    ensures HookFires(Desk(b, job, starts), t, e)
  {
  }

  /** Across publish, hook and changed(): the hook for a published entry starts a report exactly when the entry is a
      final candidate, no report was started before and the task is not terminal, however the board moved meanwhile. */
  lemma HookStartsReportIff(
    b: Board, t: Uuid, actor: Actor, request: PublishRequest, id: Uuid, now: int, ops: seq<Op>, job: Job, starts: nat)
    requires Reachable(b) && request.CheckContract() && FreshEntryId(b, id) && NeverDeletes(ops, t)
    requires BoardPublish(b, t, actor, request, id, now).1.Ok?
    requires FreshRun(BoardPublish(b, t, actor, request, id, now).0, ops)
    ensures var (b1, published) := BoardPublish(b, t, actor, request, id, now);
            HookFires(Desk(BoardRuns.Run(b1, ops), job, starts), t, published.value)
  {
    NotifiedEntryIsRead(b, t, actor, request, id, now, ops);
    var (b1, published) := BoardPublish(b, t, actor, request, id, now);
    ReadHookFires(BoardRuns.Run(b1, ops), t, published.value, job, starts);
  }

  /** With the in-memory storage the answer endpoint notifies the number of the answer's entry, also when the question had been
      answered before: no such notification starts a report. */
  lemma AnswerStartsNoReport(
    b: Board, id: Uuid, answer: string, attachments: seq<Uuid>, user: Actor, key: string, entryId: Uuid,
    messageId: Uuid, now: int, ops: seq<Op>, job: Job, starts: nat)
    requires Reachable(b) && FreshEntryId(b, entryId)
    requires AnswerQuestion(b, id, answer, attachments, user, key, entryId, messageId, now).1.Ok?
    requires FreshRun(AnswerQuestion(b, id, answer, attachments, user, key, entryId, messageId, now).0, ops)
    requires NeverDeletes(ops, b.questions[id].taskId)
    ensures var (b1, answered) := AnswerQuestion(b, id, answer, attachments, user, key, entryId, messageId, now);
            var s := Desk(BoardRuns.Run(b1, ops), job, starts);
            Hook(s, b.questions[id].taskId, answered.value.seqNo) == s
  {
    AnsweredEntryIsRead(b, id, answer, attachments, user, key, entryId, messageId, now, ops);
    var (b1, answered) := AnswerQuestion(b, id, answer, attachments, user, key, entryId, messageId, now);
    ReadHookFires(BoardRuns.Run(b1, ops), b.questions[id].taskId, answered.value, job, starts);
  }
}
