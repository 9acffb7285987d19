/** The PostgreSQL store keeps the board invariant too, and unlike the in-memory store it keeps idempotency keys unique. */
module PostgresInvariant {
  import opened Domain
  import opened Board
  import opened BoardRuns
  import opened BoardInvariant
  import opened BoardTheorems
  import opened Postgres
  import T = PostgresTheorems

  /** What stands before the storage: fresh identifiers, and the role policy in front of publish. */
  ghost predicate Legit(b: Board, r: Request) {
    match r
    case PublishTx(_, actor, request, id, _) =>
      request.CheckContract() && request.kind in WritePolicy(actor.role) && FreshEntryId(b, id)
    case AnswerTx(_, _, _, _, _, entryId, _, _) => FreshEntryId(b, entryId)
    case KeepWriteup(_, _, writeup) => writeup !in b.writeups
    case _ => true
  }

  /** The storage operation that a request other than a publish amounts to, wherever it changes something. */
  function OpOf(r: Request): Op
    requires !r.PublishTx?
  {
    match r
    case AnswerTx(question, answer, attachments, user, key, entryId, messageId, now) =>
      OpAnswerQuestion(question, answer, attachments, user, key, entryId, messageId, now)
    case DialogueTx(t, actor, channel, text, messageId) => OpAppendDialogue(t, actor, channel, text, messageId)
    case UpdateRow(t, state, finalSeq) => OpUpdateTask(t, state, finalSeq)
    case AddArtifact(a) => OpRegisterArtifact(a)
    case Ask(question, t, text, origin, askedBy) => OpCreateQuestion(question, t, text, origin, askedBy)
    case NewTask(t) => OpCreateTask(t)
    case KeepWriteup(t, snapshotSeq, writeup) => OpSaveWriteup(t, snapshotSeq, writeup)
  }

  lemma OtherRequestsAreOps(b: Board, r: Request)
    requires !r.PublishTx?
    ensures PgApply(b, r).0 == b || PgApply(b, r).0 == Apply(b, OpOf(r))
  {
  }

  /* ---- publish, whose gates differ from the in-memory ones ---- */

  /** What the gates of PostgreSQL leave to be appended. */
  ghost predicate Admitted(b: Board, t: Uuid, request: PublishRequest)
    requires request.CheckContract()
  {
    t in b.tasks && RefsUsable(b, t, request.artifactRefs)
    && (request.kind == FinalCandidate ==> CitesFindings(b.Log(t), request.body.findingIds))
  }

  lemma PgPublishAppends(b: Board, t: Uuid, actor: Actor, request: PublishRequest, id: Uuid, now: int)
    requires request.CheckContract()
    ensures var b1 := PgPublish(b, t, actor, request, id, now).0;
      b1 == b || (Admitted(b, t, request) && FindKey(b.Log(t), actor.agentId, request.key).None?
                  && b1 == Append(b, t, NewEntry(b, t, actor, request, id, now), request.artifactRefs))
  {
  }

  lemma AppendKeepsTask(b: Board, t: Uuid, actor: Actor, request: PublishRequest, id: Uuid, now: int)
    requires request.CheckContract() && Admitted(b, t, request) && TaskOk(b, t) && FreshEntryId(b, id)
    requires request.kind in WritePolicy(actor.role)
    ensures TaskOk(Append(b, t, NewEntry(b, t, actor, request, id, now), request.artifactRefs), t)
  {
    var e := NewEntry(b, t, actor, request, id, now);
    assert Append(b, t, e, request.artifactRefs).Log(t) == b.Log(t) + [e];
    assert request.kind != QA;
    AppendKeepsCitations(b.Log(t), e);
    AppendKeepsEvidence(b, t, e, request.artifactRefs);
    AppendKeepsQa(b, t, e, request.artifactRefs);
  }

  lemma AppendKeepsOwned(b: Board, t: Uuid, e: Entry, refs: seq<ArtifactRef>)
    requires Owned(b) && t in b.tasks
    ensures Owned(Append(b, t, e, refs))
  {
  }

  lemma AppendKeepsIdsDistinct(b: Board, t: Uuid, e: Entry, refs: seq<ArtifactRef>)
    requires EntryIdsDistinct(b) && t in b.tasks && FreshEntryId(b, e.id)
    ensures EntryIdsDistinct(Append(b, t, e, refs))
  {
    var b1 := Append(b, t, e, refs);
    forall u, i, v, j | 0 <= i < |b1.Log(u)| && 0 <= j < |b1.Log(v)| && b1.Log(u)[i].id == b1.Log(v)[j].id
      ensures u == v && i == j
    {
      assert b1.Log(u) == if u == t then b.Log(t) + [e] else b.Log(u);
      assert b1.Log(v) == if v == t then b.Log(t) + [e] else b.Log(v);
    }
  }

  lemma AppendKeepsInv(b: Board, t: Uuid, actor: Actor, request: PublishRequest, id: Uuid, now: int)
    requires Inv(b) && request.CheckContract() && Admitted(b, t, request) && FreshEntryId(b, id)
    requires request.kind in WritePolicy(actor.role)
    ensures Inv(Append(b, t, NewEntry(b, t, actor, request, id, now), request.artifactRefs))
  {
    var e := NewEntry(b, t, actor, request, id, now);
    var b1 := Append(b, t, e, request.artifactRefs);
    AppendKeepsOwned(b, t, e, request.artifactRefs);
    AppendKeepsIdsDistinct(b, t, e, request.artifactRefs);
    forall u | u in b1.tasks ensures TaskOk(b1, u) {
      if u == t {
        AppendKeepsTask(b, t, actor, request, id, now);
      } else {
        AppendKeepsOtherTasks(b, t, e, request.artifactRefs, u);
        SameTaskKeepsOk(b, b1, u);
      }
    }
  }

  /* ---- every request, every run ---- */

  lemma PgKeepsInv(b: Board, r: Request)
    requires Inv(b) && r.WellFormed() && Legit(b, r)
    ensures Inv(PgApply(b, r).0)
  {
    if r.PublishTx? {
      PgPublishAppends(b, r.t, r.actor, r.request, r.id, r.now);
      if PgApply(b, r).0 != b {
        AppendKeepsInv(b, r.t, r.actor, r.request, r.id, r.now);
      }
    } else {
      OtherRequestsAreOps(b, r);
      OpKeepsInv(b, OpOf(r));
    }
  }

  lemma PgPublishKeepsKeys(b: Board, r: Request, t: Uuid)
    requires r.PublishTx? && r.WellFormed() && KeysUnique(b.Log(t))
    ensures KeysUnique(PgApply(b, r).0.Log(t))
  {
    PgPublishAppends(b, r.t, r.actor, r.request, r.id, r.now);
    if r.t == t && PgApply(b, r).0 != b {
      var e := NewEntry(b, t, r.actor, r.request, r.id, r.now);
      assert PgApply(b, r).0.Log(t) == b.Log(t) + [e];
      AppendUnique(b.Log(t), e);
    }
  }

  lemma PgAnswerKeepsKeys(b: Board, r: Request, t: Uuid)
    requires r.AnswerTx? && KeysUnique(b.Log(t))
    ensures KeysUnique(PgApply(b, r).0.Log(t))
  {
    var b1 := PgApply(b, r).0;
    if b1 != b && b.questions[r.question].taskId == t {
      var q := b.questions[r.question];
      var e := AnswerEntry(q, b.tasks[t], r.answer, r.attachments, r.key, r.entryId, r.now);
      assert b1.Log(t) == b.Log(t) + [e];
      AppendUnique(b.Log(t), e);
    }
  }

  /** The unique index on (task, agent, key) needs no help from the callers. */
  lemma PgKeepsKeysUnique(b: Board, r: Request, t: Uuid)
    requires r.WellFormed() && KeysUnique(b.Log(t))
    ensures KeysUnique(PgApply(b, r).0.Log(t))
  {
    if r.PublishTx? {
      PgPublishKeepsKeys(b, r, t);
    } else if r.AnswerTx? {
      PgAnswerKeepsKeys(b, r, t);
    } else {
      assert PgApply(b, r).0.Log(t) == b.Log(t);
    }
  }

  predicate AllWellFormed(rs: seq<Request>) {
    forall i :: 0 <= i < |rs| ==> rs[i].WellFormed()
  }

  /** The requests one after the other. */
  function PgRun(b: Board, rs: seq<Request>): Board
    requires AllWellFormed(rs)
    decreases |rs|
  {
    if rs == [] then b else PgRun(PgApply(b, rs[0]).0, rs[1..])
  }

  ghost predicate AllLegit(b: Board, rs: seq<Request>)
    requires AllWellFormed(rs)
    decreases |rs|
  {
    rs == [] || (Legit(b, rs[0]) && AllLegit(PgApply(b, rs[0]).0, rs[1..]))
  }

  lemma {:induction false} PgRunsJoin(b: Board, rs: seq<Request>, more: seq<Request>)
    requires AllWellFormed(rs) && AllWellFormed(more) && AllLegit(b, rs) && AllLegit(PgRun(b, rs), more)
    ensures AllWellFormed(rs + more) && AllLegit(b, rs + more) && PgRun(b, rs + more) == PgRun(PgRun(b, rs), more)
    decreases |rs|
  {
    if rs == [] {
      assert rs + more == more;
    } else {
      assert (rs + more)[1..] == rs[1..] + more;
      PgRunsJoin(PgApply(b, rs[0]).0, rs[1..], more);
    }
  }

  lemma {:induction false} PgRunKeepsInv(b: Board, rs: seq<Request>)
    requires Inv(b) && AllWellFormed(rs) && AllLegit(b, rs)
    ensures Inv(PgRun(b, rs))
    decreases |rs|
  {
    if rs != [] {
      PgKeepsInv(b, rs[0]);
      PgRunKeepsInv(PgApply(b, rs[0]).0, rs[1..]);
    }
  }

  lemma {:induction false} PgRunKeepsKeysUnique(b: Board, rs: seq<Request>, t: Uuid)
    requires AllWellFormed(rs) && KeysUnique(b.Log(t))
    ensures KeysUnique(PgRun(b, rs).Log(t))
    decreases |rs|
  {
    if rs != [] {
      PgKeepsKeysUnique(b, rs[0], t);
      PgRunKeepsKeysUnique(PgApply(b, rs[0]).0, rs[1..], t);
    }
  }

  lemma PgGrowsLog(b: Board, r: Request, t: Uuid)
    requires r.WellFormed()
    ensures b.Log(t) <= PgApply(b, r).0.Log(t)
    ensures t in b.tasks ==> t in PgApply(b, r).0.tasks
  {
    if r.PublishTx? {
      PgPublishAppends(b, r.t, r.actor, r.request, r.id, r.now);
    } else {
      OtherRequestsAreOps(b, r);
      OpGrowsLog(b, OpOf(r), t);
    }
  }

  lemma {:induction false} PgRunGrowsLog(b: Board, rs: seq<Request>, t: Uuid)
    requires AllWellFormed(rs)
    ensures b.Log(t) <= PgRun(b, rs).Log(t)
    ensures t in b.tasks ==> t in PgRun(b, rs).tasks
    decreases |rs|
  {
    if rs != [] {
      PgGrowsLog(b, rs[0], t);
      PgRunGrowsLog(PgApply(b, rs[0]).0, rs[1..], t);
    }
  }

  /** Whatever is requested later, reading after seq - 1 with limit 1 gives the entry that stood there. */
  lemma PgRunReadsBack(b: Board, rs: seq<Request>, t: Uuid, k: nat)
    requires Inv(b) && AllWellFormed(rs) && AllLegit(b, rs) && t in b.tasks && k < |b.Log(t)|
    ensures ListEntries(PgRun(b, rs), t, k, None, 1) == Ok([b.Log(t)[k]])
  {
    PgRunKeepsInv(b, rs);
    PgRunGrowsLog(b, rs, t);
    InvGapless(PgRun(b, rs), t);
    ReadBack(PgRun(b, rs), t, k);
  }

  /* ---- the interleaved transactions ---- */

  function Requests(history: seq<Serial>): seq<Request> {
    seq(|history|, i requires 0 <= i < |history| => history[i].request)
  }

  lemma {:induction false} PgRunAppended(b: Board, rs: seq<Request>, r: Request)
    requires AllWellFormed(rs) && r.WellFormed()
    ensures AllWellFormed(rs + [r]) && PgRun(b, rs + [r]) == PgApply(PgRun(b, rs), r).0
    decreases |rs|
  {
    if rs == [] {
      assert rs + [r] == [r] && [r][1..] == [];
      assert PgRun(b, [r]) == PgRun(PgApply(b, r).0, [r][1..]);
    } else {
      assert AllWellFormed(rs[1..]);
      PgRunAppended(PgApply(b, rs[0]).0, rs[1..], r);
      assert (rs + [r])[1..] == rs[1..] + [r];
    }
  }

  lemma ReplayAppended(b: Board, h: seq<Serial>, e: Serial)
    requires WellFormed(h) && e.request.WellFormed()
    ensures WellFormed(h + [e]) && Replay(b, h + [e]) == PgApply(Replay(b, h), e.request).0
  {
    assert (h + [e])[..|h|] == h;
  }

  lemma RequestsAppended(h: seq<Serial>, e: Serial)
    ensures Requests(h + [e]) == Requests(h) + [e.request]
  {
  }

  lemma {:induction false} ReplayIsRunTo(b: Board, history: seq<Serial>, n: nat)
    requires WellFormed(history) && n <= |history|
    ensures WellFormed(history[..n]) && AllWellFormed(Requests(history[..n]))
    ensures Replay(b, history[..n]) == PgRun(b, Requests(history[..n]))
  {
    if n > 0 {
      ReplayIsRunTo(b, history, n - 1);
      assert history[..n] == history[..n - 1] + [history[n - 1]];
      ReplayAppended(b, history[..n - 1], history[n - 1]);
      RequestsAppended(history[..n - 1], history[n - 1]);
      PgRunAppended(b, Requests(history[..n - 1]), history[n - 1].request);
    }
  }

  lemma ReplayIsRun(b: Board, history: seq<Serial>)
    requires WellFormed(history)
    ensures AllWellFormed(Requests(history)) && Replay(b, history) == PgRun(b, Requests(history))
  {
    ReplayIsRunTo(b, history, |history|);
    assert history[..|history|] == history;
  }

  /** The boards that some legitimate requests lead to from an empty store. */
  ghost predicate PgReachable(b: Board) {
    exists rs :: PgReachedBy(b, rs)
  }

  ghost predicate PgReachedBy(b: Board, rs: seq<Request>) {
    AllWellFormed(rs) && AllLegit(EMPTY, rs) && b == PgRun(EMPTY, rs)
  }

  /** Every interleaving of transactions and statements commits such a board, whichever of them were aborted, as long as
      those that finished were legitimate when they became visible. */
  lemma CommittedIsReachable(events: seq<Event>)
    requires var rs := Requests(Exec(Initial(EMPTY), events).history); AllWellFormed(rs) && AllLegit(EMPTY, rs)
    ensures PgReachable(Exec(Initial(EMPTY), events).committed)
  {
    var db := Exec(Initial(EMPTY), events);
    T.Serializable(EMPTY, events);
    ReplayIsRun(EMPTY, db.history);
    assert PgReachedBy(db.committed, Requests(db.history));
  }

  lemma PgReachableInv(b: Board)
    requires PgReachable(b)
    ensures Inv(b) && forall t :: KeysUnique(b.Log(t))
  {
    var rs :| PgReachedBy(b, rs);
    EmptyBoardInv();
    PgRunKeepsInv(EMPTY, rs);
    forall t ensures KeysUnique(b.Log(t)) {
      PgRunKeepsKeysUnique(EMPTY, rs, t);
    }
  }

  /** On every such board the logs are gapless, every prefix is reference-closed, QA entries and answered questions are one to
      one, and (agent, key) is unique without a condition on answer keys. */
  lemma PgBoardSound(b: Board, t: Uuid, n: nat)
    requires PgReachable(b) && t in b.tasks && n <= |b.Log(t)|
    ensures Gapless(b, t)
    ensures ReferenceClosed(b, t, b.Log(t)[..n])
    ensures |QaPositions(b.Log(t))| == |AnsweredQuestions(b, t)|
    ensures KeysUnique(b.Log(t))
  {
    PgReachableInv(b);
    InvGapless(b, t);
    InvReferenceClosed(b, t);
    PrefixReferenceClosed(b, t, b.Log(t), n);
    QaCounts(b, t);
  }
}
