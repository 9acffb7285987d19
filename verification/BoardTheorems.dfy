/** What the board invariant and append-only growth give to the readers and writers of the log. */
module BoardTheorems {
  import opened Domain
  import opened Board
  import opened BoardRuns
  import opened BoardInvariant

  /** The boards that some run of operations leads to from an empty store. */
  ghost predicate Reachable(b: Board) {
    exists ops :: FreshRun(EMPTY, ops) && b == Run(EMPTY, ops)
  }

  lemma ReachableInv(b: Board)
    requires Reachable(b)
    ensures Inv(b)
  {
    var ops :| FreshRun(EMPTY, ops) && b == Run(EMPTY, ops);
    EmptyBoardInv();
    RunKeepsInv(EMPTY, ops);
  }

  /* ---- the log only grows ---- */

  lemma OpGrowsLog(b: Board, op: Op, t: Uuid)
    requires op != OpDeleteTask(t)
    ensures b.Log(t) <= Apply(b, op).Log(t)
    ensures t in b.tasks ==> t in Apply(b, op).tasks
  {
  }

  /** Until the task is deleted, what its log once held stays where it was. */
  lemma {:induction false} RunGrowsLog(b: Board, ops: seq<Op>, t: Uuid)
    requires NeverDeletes(ops, t)
    ensures b.Log(t) <= Run(b, ops).Log(t)
    ensures t in b.tasks ==> t in Run(b, ops).tasks
    decreases |ops|
  {
    if ops != [] {
      OpGrowsLog(b, ops[0], t);
      RunGrowsLog(Apply(b, ops[0]), ops[1..], t);
    }
  }

  /* ---- terminal states ---- */

  /** An update that puts task t into a state that is not terminal. */
  predicate Revives(op: Op, t: Uuid) {
    op.OpUpdateTask? && op.t == t && op.state.Some? && !Terminal(op.state.value)
  }

  /** A terminal task leaves its terminal states by such an update and by no other operation. */
  lemma OpLeavesTerminalIff(b: Board, op: Op, t: Uuid)
    requires t in b.tasks && Terminal(b.tasks[t].state) && op != OpDeleteTask(t)
    ensures t in Apply(b, op).tasks && (!Terminal(Apply(b, op).tasks[t].state) <==> Revives(op, t))
  {
    OpKeepsState(b, op, t);
  }

  lemma OpKeepsState(b: Board, op: Op, t: Uuid)
    requires t in b.tasks && op != OpDeleteTask(t)
    ensures t in Apply(b, op).tasks
    ensures Apply(b, op).tasks[t].state ==
            if op.OpUpdateTask? && op.t == t && op.state.Some? then op.state.value else b.tasks[t].state
  {
  }

  /** A task in a terminal state is found in another state after a run of operations only if the run revives it. */
  lemma {:induction false} TerminalStays(b: Board, ops: seq<Op>, t: Uuid)
    requires t in b.tasks && Terminal(b.tasks[t].state) && NeverDeletes(ops, t)
    requires forall i :: 0 <= i < |ops| ==> !Revives(ops[i], t)
    ensures t in Run(b, ops).tasks && Terminal(Run(b, ops).tasks[t].state)
    decreases |ops|
  {
    if ops != [] {
      OpLeavesTerminalIff(b, ops[0], t);
      TerminalStays(Apply(b, ops[0]), ops[1..], t);
    }
  }

  /** The two operations of the answer endpoint on a completed task with a waiting question. */
  function AnswerEndpoint(question: Uuid, t: Uuid, user: Actor): seq<Op> {
    [OpAnswerQuestion(question, "because", [], user, "k", 3, 4, 0), OpUpdateTask(t, Some(Running), None)]
  }

  /** A concrete run: a question is answered after its task was completed, and the completed task is running again. */
  lemma AnswerRevivesTask(user: Actor)
    ensures var b := Run(EMPTY, [OpCreateTask(0), OpCreateQuestion(2, 0, "why", ASKER, ASKER), OpUpdateTask(0, Some(Completed), None)]);
            var b1 := Run(b, AnswerEndpoint(2, 0, user));
      && 0 in b.tasks && b.tasks[0].state == Completed
      && 0 in b1.tasks && b1.tasks[0].state == Running
  {
    var create, ask := OpCreateTask(0), OpCreateQuestion(2, 0, "why", ASKER, ASKER);
    var complete := OpUpdateTask(0, Some(Completed), None);
    var b1 := Apply(EMPTY, create);
    var b2 := Apply(b1, ask);
    var b := Apply(b2, complete);
    RunTwo(EMPTY, create, ask);
    OpFirst(b2, complete, []);
    RunSplit(EMPTY, [create, ask], [complete]);
    assert [create, ask, complete] == [create, ask] + [complete] && [complete] == [complete] + [];
    assert b.tasks[0].state == Completed;
    var answer, revive := AnswerEndpoint(2, 0, user)[0], AnswerEndpoint(2, 0, user)[1];
    RunTwo(b, answer, revive);
    OpKeepsState(b, answer, 0);
    OpKeepsState(Apply(b, answer), revive, 0);
  }

  lemma OpFirst(b: Board, op: Op, rest: seq<Op>)
    ensures Run(b, [op] + rest) == Run(Apply(b, op), rest)
  {
    assert ([op] + rest)[1..] == rest;
  }

  lemma RunTwo(b: Board, op0: Op, op1: Op)
    ensures Run(b, [op0, op1]) == Apply(Apply(b, op0), op1)
  {
    OpFirst(b, op0, [op1]);
    OpFirst(Apply(b, op0), op1, []);
    assert [op0, op1] == [op0] + [op1] && [op1] == [op1] + [];
  }

  lemma {:induction false} RunSplit(b: Board, ops: seq<Op>, more: seq<Op>)
    ensures Run(b, ops + more) == Run(Run(b, ops), more)
    decreases |ops|
  {
    if ops == [] {
      assert ops + more == more;
    } else {
      assert (ops + more)[1..] == ops[1..] + more;
      RunSplit(Apply(b, ops[0]), ops[1..], more);
    }
  }

  /* ---- tasks do not disturb each other ---- */

  /** No operation of the run is about task u. */
  ghost predicate NeverAbout(b: Board, ops: seq<Op>, u: Uuid)
    decreases |ops|
  {
    ops == [] || (Target(b, ops[0]) != Some(u) && NeverAbout(Apply(b, ops[0]), ops[1..], u))
  }

  lemma SameQuestionsTwice(b: Board, b1: Board, b2: Board, u: Uuid)
    requires SameQuestions(b, b1, u) && SameQuestions(b1, b2, u)
    ensures SameQuestions(b, b2, u)
  {
  }

  lemma SameTaskTwice(b: Board, b1: Board, b2: Board, u: Uuid)
    requires SameTask(b, b1, u) && SameTask(b1, b2, u)
    ensures SameTask(b, b2, u)
  {
    SameQuestionsTwice(b, b1, b2, u);
  }

  lemma SameTaskItself(b: Board, u: Uuid)
    ensures SameTask(b, b, u)
  {
    assert QuestionsOf(b, u) == QuestionsOf(b, u);
  }

  /** Whatever a run does to other tasks, deletions included, leaves every record of this one as it was. */
  lemma {:induction false} RunKeepsOtherTasks(b: Board, ops: seq<Op>, u: Uuid)
    requires Inv(b) && FreshRun(b, ops) && NeverAbout(b, ops, u)
    ensures SameTask(b, Run(b, ops), u)
    decreases |ops|
  {
    if ops == [] {
      SameTaskItself(b, u);
    } else {
      OpKeepsOtherTasks(b, ops[0], u);
      OpKeepsInv(b, ops[0]);
      RunKeepsOtherTasks(Apply(b, ops[0]), ops[1..], u);
      SameTaskTwice(b, Apply(b, ops[0]), Run(b, ops), u);
    }
  }

  /* ---- reference closure ---- */

  lemma InvReferenceClosed(b: Board, t: Uuid)
    requires Inv(b) && t in b.tasks
    ensures ReferenceClosed(b, t, b.Log(t))
  {
    assert TaskOk(b, t);
  }

  lemma PrefixReferenceClosed(b: Board, t: Uuid, log: seq<Entry>, n: nat)
    requires ReferenceClosed(b, t, log) && n <= |log|
    ensures ReferenceClosed(b, t, log[..n])
  {
    forall i | 0 <= i < n ensures log[..n][..i] == log[..i] {
    }
  }

  /** In every reachable state, whatever was deleted on the way, every prefix of every log is reference-closed. */
  lemma EveryPrefixReferenceClosed(ops: seq<Op>, t: Uuid, n: nat)
    requires FreshRun(EMPTY, ops) && t in Run(EMPTY, ops).tasks && n <= |Run(EMPTY, ops).Log(t)|
    ensures ReferenceClosed(Run(EMPTY, ops), t, Run(EMPTY, ops).Log(t)[..n])
  {
    EmptyBoardInv();
    RunKeepsInv(EMPTY, ops);
    InvReferenceClosed(Run(EMPTY, ops), t);
    PrefixReferenceClosed(Run(EMPTY, ops), t, Run(EMPTY, ops).Log(t), n);
  }

  /* ---- idempotency ---- */

  predicate Matches(e: Entry, agentId: string, key: string) {
    e.actor.agentId == agentId && e.key == key
  }

  lemma {:induction false} FindKeyAppend(log: seq<Entry>, more: seq<Entry>, agentId: string, key: string)
    ensures FindKey(log + more, agentId, key)
         == if FindKey(log, agentId, key).Some? then FindKey(log, agentId, key) else FindKey(more, agentId, key)
  {
    if log == [] {
      assert log + more == more;
    } else {
      assert (log + more)[1..] == log[1..] + more;
      FindKeyAppend(log[1..], more, agentId, key);
    }
  }

  lemma FindKeyStable(log: seq<Entry>, longer: seq<Entry>, agentId: string, key: string)
    requires log <= longer && FindKey(log, agentId, key).Some?
    ensures FindKey(longer, agentId, key) == FindKey(log, agentId, key)
  {
    assert longer == log + longer[|log|..];
    FindKeyAppend(log, longer[|log|..], agentId, key);
  }

  /** Publishing again under the same agent and key, however much later, returns the first entry and changes nothing. */
  lemma RepublishReturnsOriginal(
    b: Board, t: Uuid, actor: Actor, request: PublishRequest, id: Uuid, now: int, ops: seq<Op>,
    actor1: Actor, request1: PublishRequest, id1: Uuid, now1: int)
    requires request.CheckContract() && request1.CheckContract() && NeverDeletes(ops, t)
    requires actor1.agentId == actor.agentId && request1.key == request.key
    requires Publish(b, t, actor, request, id, now).1.Ok?
    ensures var (b1, first) := Publish(b, t, actor, request, id, now);
            Publish(Run(b1, ops), t, actor1, request1, id1, now1) == (Run(b1, ops), first)
  {
    var (b1, first) := Publish(b, t, actor, request, id, now);
    assert FindKey(b1.Log(t), actor.agentId, request.key) == Some(first.value) by {
      if FindKey(b.Log(t), actor.agentId, request.key).None? {
        assert b1.Log(t) == b.Log(t) + [first.value];
        FindKeyAppend(b.Log(t), [first.value], actor.agentId, request.key);
      }
    }
    RunGrowsLog(b1, ops, t);
    FindKeyStable(b1.Log(t), Run(b1, ops).Log(t), actor.agentId, request.key);
  }

  ghost predicate KeysUnique(log: seq<Entry>) {
    forall i, j :: 0 <= i < j < |log| ==> !Matches(log[j], log[i].actor.agentId, log[i].key)
  }

  /** No entry of the asking agent uses the key a waiting question is being answered with. */
  ghost predicate AnswerKeyFresh(b: Board, op: Op) {
    op.OpAnswerQuestion? && op.id in b.questions && !b.questions[op.id].answered ==>
      FindKey(b.Log(b.questions[op.id].taskId), b.questions[op.id].askedBy.agentId, op.key).None?
  }

  ghost predicate AnswerKeysFresh(b: Board, ops: seq<Op>)
    decreases |ops|
  {
    ops == [] || (AnswerKeyFresh(b, ops[0]) && AnswerKeysFresh(Apply(b, ops[0]), ops[1..]))
  }

  lemma AppendUnique(log: seq<Entry>, e: Entry)
    requires KeysUnique(log)
    ensures KeysUnique(log + [e]) <==> FindKey(log, e.actor.agentId, e.key).None?
  {
    var log1 := log + [e];
    if FindKey(log, e.actor.agentId, e.key).None? {
      forall i, j | 0 <= i < j < |log1| ensures !Matches(log1[j], log1[i].actor.agentId, log1[i].key) {
        if j < |log| {
          assert !Matches(log[j], log[i].actor.agentId, log[i].key);
        }
      }
    } else {
      var i :| 0 <= i < |log| && log[i].actor.agentId == e.actor.agentId && log[i].key == e.key;
      assert log1[i] == log[i] && log1[|log|] == e;
      assert Matches(e, log[i].actor.agentId, log[i].key);
    }
  }

  /** InMemoryStorage does not check the key of an answer: uniqueness survives a recorded answer exactly when the key is fresh. */
  lemma AnswerKeepsKeysUniqueIff(b: Board, op: Op)
    requires Owned(b) && op.OpAnswerQuestion? && op.id in b.questions && !b.questions[op.id].answered && op.answer != ""
    requires KeysUnique(b.Log(b.questions[op.id].taskId))
    ensures KeysUnique(Apply(b, op).Log(b.questions[op.id].taskId)) <==> AnswerKeyFresh(b, op)
  {
    var q := b.questions[op.id];
    var e := AnswerEntry(q, b.tasks[q.taskId], op.answer, op.attachments, op.key, op.entryId, op.now);
    assert Apply(b, op).Log(q.taskId) == b.Log(q.taskId) + [e];
    AppendUnique(b.Log(q.taskId), e);
  }

  const ASKER := Actor(SUPERVISOR_ID, Supervisor)

  const ADVICE := PublishRequest(SupervisorAdvice, "advice", AdviceBody("look again", 0), [], "k")

  /** A task with one advice, and a question of the supervisor. */
  function Asked(): Board {
    var e := Entry(1, 0, 1, ASKER, SupervisorAdvice, "advice", ADVICE.body, "k", 0);
    EMPTY.(tasks := map[0 := TaskRun(Created, 1, 0, None)], entries := map[0 := [e]],
           questions := map[2 := Question(0, "why", ASKER, ASKER, false)])
  }

  lemma AskedIsReachable()
    ensures Run(EMPTY, [OpCreateTask(0), OpPublish(0, ASKER, ADVICE, 1, 0), OpCreateQuestion(2, 0, "why", ASKER, ASKER)]) == Asked()
  {
    var publish, ask := OpPublish(0, ASKER, ADVICE, 1, 0), OpCreateQuestion(2, 0, "why", ASKER, ASKER);
    var b1 := EMPTY.(tasks := map[0 := TaskRun(Created, 0, 0, None)]);
    var b2 := Asked().(questions := map[]);
    assert Apply(EMPTY, OpCreateTask(0)) == b1;
    var e := Entry(1, 0, 1, ASKER, SupervisorAdvice, "advice", ADVICE.body, "k", 0);
    assert Gate(b1, 0, ADVICE) && NewEntry(b1, 0, ASKER, ADVICE, 1, 0) == e;
    assert Apply(b1, publish) == Append(b1, 0, e, []);
    assert b1.Log(0) + [e] == [e] && b2.entries == b1.entries[0 := [e]];
    assert Append(b1, 0, e, []) == b2;
    assert Apply(b2, ask) == Asked();
    OpFirst(EMPTY, OpCreateTask(0), [publish, ask]);
    OpFirst(b1, publish, [ask]);
    OpFirst(b2, ask, []);
    assert [OpCreateTask(0), publish, ask] == [OpCreateTask(0)] + [publish, ask] && [publish, ask] == [publish] + [ask];
    assert [ask] == [ask] + [];
  }

  /** A concrete run: the answer to that question reuses the key of the advice, and the key stands for two entries. */
  lemma AnswerReusesKey(user: Actor)
    ensures var b := Run(EMPTY, [OpCreateTask(0), OpPublish(0, ASKER, ADVICE, 1, 0), OpCreateQuestion(2, 0, "why", ASKER, ASKER)]);
      KeysUnique(b.Log(0)) && !KeysUnique(Apply(b, OpAnswerQuestion(2, "because", [], user, "k", 3, 4, 0)).Log(0))
  {
    AskedIsReachable();
    var b := Asked();
    var log := Apply(b, OpAnswerQuestion(2, "because", [], user, "k", 3, 4, 0)).Log(0);
    assert |log| == 2 && log[0] == b.Log(0)[0];
    assert Matches(log[1], log[0].actor.agentId, log[0].key);
  }

  lemma PublishKeepsKeysUnique(b: Board, op: Op)
    requires op.OpPublish? && KeysUnique(b.Log(op.t))
    ensures KeysUnique(Apply(b, op).Log(op.t))
  {
    if Apply(b, op).Log(op.t) != b.Log(op.t) {
      var e := NewEntry(b, op.t, op.actor, op.request, op.id, op.now);
      assert Apply(b, op).Log(op.t) == b.Log(op.t) + [e];
      AppendUnique(b.Log(op.t), e);
    }
  }

  lemma OpKeepsKeysUnique(b: Board, op: Op, t: Uuid)
    requires Owned(b) && FreshIds(b, op) && AnswerKeyFresh(b, op) && KeysUnique(b.Log(t))
    ensures KeysUnique(Apply(b, op).Log(t))
  {
    LogStep(b, op, t);
    if Apply(b, op).Log(t) != b.Log(t) && Target(b, op) == Some(t) {
      match op
      case OpAnswerQuestion(_, answer, _, _, _, _, _, _) => AnswerKeepsKeysUniqueIff(b, op);
      case OpPublish(_, _, _, _, _) => PublishKeepsKeysUnique(b, op);
      case _ =>
    }
  }

  /** With fresh answer keys, (agent, key) identifies at most one entry of each log in every reachable state. */
  lemma {:induction false} RunKeepsKeysUnique(b: Board, ops: seq<Op>, t: Uuid)
    requires Inv(b) && FreshRun(b, ops) && AnswerKeysFresh(b, ops) && KeysUnique(b.Log(t))
    ensures KeysUnique(Run(b, ops).Log(t))
    decreases |ops|
  {
    if ops != [] {
      OpKeepsInv(b, ops[0]);
      OpKeepsKeysUnique(b, ops[0], t);
      RunKeepsKeysUnique(Apply(b, ops[0]), ops[1..], t);
    }
  }

  /* ---- questions and answers ---- */

  lemma {:induction false} AnswerStays(b: Board, ops: seq<Op>, id: Uuid)
    requires id in b.questions && NeverDeletes(ops, b.questions[id].taskId)
    requires b.questions[id].answered && id in b.answers
    ensures var b1 := Run(b, ops);
            id in b1.questions && b1.questions[id] == b.questions[id] && id in b1.answers && b1.answers[id] == b.answers[id]
    decreases |ops|
  {
    if ops != [] {
      OpKeepsAnswer(b, ops[0], id);
      AnswerStays(Apply(b, ops[0]), ops[1..], id);
    }
  }

  lemma OpKeepsAnswer(b: Board, op: Op, id: Uuid)
    requires id in b.questions && op != OpDeleteTask(b.questions[id].taskId)
    requires b.questions[id].answered && id in b.answers
    ensures var b1 := Apply(b, op);
            id in b1.questions && b1.questions[id] == b.questions[id] && id in b1.answers && b1.answers[id] == b.answers[id]
  {
  }

  /** Answering a question again, however much later and with whatever text and key, returns the recorded entry. */
  lemma AnswerAgainReturnsOriginal(
    b: Board, id: Uuid, answer: string, attachments: seq<Uuid>, user: Actor, key: string, entryId: Uuid,
    messageId: Uuid, now: int, ops: seq<Op>,
    answer1: string, attachments1: seq<Uuid>, user1: Actor, key1: string, entryId1: Uuid, messageId1: Uuid, now1: int)
    requires AnswerQuestion(b, id, answer, attachments, user, key, entryId, messageId, now).1.Ok?
    requires NeverDeletes(ops, b.questions[id].taskId)
    ensures var (b1, first) := AnswerQuestion(b, id, answer, attachments, user, key, entryId, messageId, now);
            AnswerQuestion(Run(b1, ops), id, answer1, attachments1, user1, key1, entryId1, messageId1, now1)
              == (Run(b1, ops), first)
  {
    var b1 := AnswerQuestion(b, id, answer, attachments, user, key, entryId, messageId, now).0;
    AnswerStays(b1, ops, id);
  }

  function QaPositions(log: seq<Entry>): set<int> {
    set i | 0 <= i < |log| && log[i].kind == QA
  }

  function AnsweredQuestions(b: Board, t: Uuid): set<Uuid> {
    set q | q in b.questions && AnsweredIn(b, t, q)
  }

  lemma {:induction false} InjectionSize<A>(s: set<A>, f: map<A, int>)
    requires s == f.Keys && forall x, y :: x in s && y in s && x != y ==> f[x] != f[y]
    ensures |s| == |f.Values|
  {
    if s == {} {
      assert f == map[];
    } else {
      var x :| x in s;
      var g := f - {x};
      InjectionSize(s - {x}, g);
      assert f.Values == g.Values + {f[x]} by {
        forall v | v in f.Values ensures v in g.Values + {f[x]} {
          var k :| k in f && f[k] == v;
          if k != x {
            assert k in g && g[k] == v;
          }
        }
      }
      assert f[x] !in g.Values;
    }
  }

  /** Where the record of each answered question stands in the log. */
  ghost function Places(b: Board, t: Uuid): map<Uuid, int> {
    map q | q in AnsweredQuestions(b, t) :: b.answers[q].seqNo - 1
  }

  lemma PlacesAreQaPositions(b: Board, t: Uuid)
    requires t in b.tasks && QaMatched(b, t) && Gapless(b, t)
    ensures Places(b, t).Values == QaPositions(b.Log(t))
  {
    var place := Places(b, t);
    forall q | q in place ensures place[q] in QaPositions(b.Log(t)) {
      assert Recorded(b, q);
    }
    forall i | i in QaPositions(b.Log(t)) ensures i in place.Values {
      assert AnswerOf(b, t, b.Log(t)[i]);
      var q :| AnsweredIn(b, t, q) && b.answers[q] == b.Log(t)[i];
      assert q in place && place[q] == i;
    }
  }

  lemma PlacesDistinct(b: Board, t: Uuid)
    requires AnswersRecorded(b, t)
    ensures Places(b, t).Keys == AnsweredQuestions(b, t)
    ensures forall q, r :: q in Places(b, t) && r in Places(b, t) && q != r ==> Places(b, t)[q] != Places(b, t)[r]
  {
    forall q, r | q in Places(b, t) && r in Places(b, t) && q != r ensures Places(b, t)[q] != Places(b, t)[r] {
      assert AnsweredIn(b, t, q) && AnsweredIn(b, t, r);
    }
  }

  /** On every reachable board a log holds as many QA entries as its task has answered questions, each answered question
      has its entry with its text and origin, and no other entry has a kind its author's role may not publish. */
  lemma QaConservation(b: Board, t: Uuid)
    requires Reachable(b) && t in b.tasks
    ensures |QaPositions(b.Log(t))| == |AnsweredQuestions(b, t)|
    ensures forall q :: AnsweredIn(b, t, q) ==> Recorded(b, q)
    ensures Authorized(b.Log(t))
  {
    ReachableInv(b);
    QaCounts(b, t);
  }

  lemma QaCounts(b: Board, t: Uuid)
    requires Inv(b) && t in b.tasks
    ensures |QaPositions(b.Log(t))| == |AnsweredQuestions(b, t)|
    ensures forall q :: AnsweredIn(b, t, q) ==> Recorded(b, q)
    ensures Authorized(b.Log(t))
  {
    assert TaskOk(b, t);
    PlacesAreQaPositions(b, t);
    PlacesDistinct(b, t);
    InjectionSize(AnsweredQuestions(b, t), Places(b, t));
  }

  /* ---- reading by sequence number ---- */

  function Min(x: int, y: int): int { if x <= y then x else y }

  function Max(x: int, y: int): int { if x >= y then x else y }

  /** Where the numbers beyond after begin in a log of n entries numbered from base + 1. */
  function Lo(n: nat, base: nat, after: int): nat {
    Min(n, Max(0, after - base))
  }

  function Hi(n: nat, base: nat, after: int, upTo: Option<int>): nat {
    Max(Lo(n, base, after), if upTo.Some? then Min(n, upTo.value - base) else n)
  }

  lemma {:induction false} FilteredIsSlice(log: seq<Entry>, base: nat, after: int, upTo: Option<int>)
    requires forall i :: 0 <= i < |log| ==> log[i].seqNo == base + i + 1
    ensures Filtered(log, after, upTo) == log[Lo(|log|, base, after)..Hi(|log|, base, after, upTo)]
  {
    if log != [] {
      var rest := log[1..];
      FilteredIsSlice(rest, base + 1, after, upTo);
      var lo, hi := Lo(|rest|, base + 1, after), Hi(|rest|, base + 1, after, upTo);
      assert rest[lo..hi] == log[lo + 1..hi + 1];
      if after < base + 1 && (upTo.Some? ==> base + 1 <= upTo.value) {
        assert lo == 0 && Lo(|log|, base, after) == 0 && Hi(|log|, base, after, upTo) == hi + 1;
        assert log[0..hi + 1] == [log[0]] + log[1..hi + 1];
      } else if after < base + 1 {
        assert lo == hi == 0 && Lo(|log|, base, after) == Hi(|log|, base, after, upTo) == 0;
      } else {
        assert Lo(|log|, base, after) == lo + 1 && Hi(|log|, base, after, upTo) == hi + 1;
      }
    }
  }

  /** On a gapless log, reading after a sequence number up to another with a limit is exactly the slice of the log. */
  lemma ListEntriesIsSlice(b: Board, t: Uuid, after: int, upTo: Option<int>, limit: nat)
    requires t in b.tasks && Gapless(b, t)
    ensures var log := b.Log(t);
            var lo, hi := Lo(|log|, 0, after), Hi(|log|, 0, after, upTo);
            ListEntries(b, t, after, upTo, limit) == Ok(log[lo..Min(hi, lo + limit)])
  {
    ReadIsSlice(b.Log(t), after, upTo, limit);
  }

  lemma ReadIsSlice(log: seq<Entry>, after: int, upTo: Option<int>, limit: nat)
    requires forall i :: 0 <= i < |log| ==> log[i].seqNo == i + 1
    ensures var lo, hi := Lo(|log|, 0, after), Hi(|log|, 0, after, upTo);
            Take(Filtered(log, after, upTo), limit) == log[lo..Min(hi, lo + limit)]
  {
    FilteredIsSlice(log, 0, after, upTo);
    TakeSlice(log, Lo(|log|, 0, after), Hi(|log|, 0, after, upTo), limit);
  }

  lemma TakeSlice(log: seq<Entry>, lo: nat, hi: nat, limit: nat)
    requires lo <= hi <= |log|
    ensures Take(log[lo..hi], limit) == log[lo..Min(hi, lo + limit)]
  {
  }

  /** What Automation.changed reads for a notified sequence number is the entry that was published under it. */
  lemma NotifiedEntryIsRead(b: Board, t: Uuid, actor: Actor, request: PublishRequest, id: Uuid, now: int, ops: seq<Op>)
    requires Reachable(b) && request.CheckContract() && FreshEntryId(b, id) && NeverDeletes(ops, t)
    requires BoardPublish(b, t, actor, request, id, now).1.Ok?
    requires FreshRun(BoardPublish(b, t, actor, request, id, now).0, ops)
    ensures var (b1, published) := BoardPublish(b, t, actor, request, id, now);
            ListEntries(Run(b1, ops), t, Max(0, published.value.seqNo - 1), None, 1) == Ok([published.value])
  {
    ReachableInv(b);
    var (b1, published) := BoardPublish(b, t, actor, request, id, now);
    var k := PublishedPosition(b, t, actor, request, id, now);
    RunReadsBack(b1, ops, t, k);
  }

  /** With the in-memory storage, the same for the entry that the answer endpoint notifies, which is an old one when the answer
      is retried. */
  lemma AnsweredEntryIsRead(
    b: Board, id: Uuid, answer: string, attachments: seq<Uuid>, user: Actor, key: string, entryId: Uuid,
    messageId: Uuid, now: int, ops: seq<Op>)
    requires Reachable(b) && FreshEntryId(b, entryId)
    requires AnswerQuestion(b, id, answer, attachments, user, key, entryId, messageId, now).1.Ok?
    requires FreshRun(AnswerQuestion(b, id, answer, attachments, user, key, entryId, messageId, now).0, ops)
    requires NeverDeletes(ops, b.questions[id].taskId)
    ensures var (b1, answered) := AnswerQuestion(b, id, answer, attachments, user, key, entryId, messageId, now);
            answered.value.kind == QA
            && ListEntries(Run(b1, ops), b.questions[id].taskId, Max(0, answered.value.seqNo - 1), None, 1) == Ok([answered.value])
  {
    ReachableInv(b);
    var (b1, answered) := AnswerQuestion(b, id, answer, attachments, user, key, entryId, messageId, now);
    AnsweredPosition(b, id, answer, attachments, user, key, entryId, messageId, now);
    RunReadsBack(b1, ops, b.questions[id].taskId, answered.value.seqNo - 1);
  }

  lemma AnsweredPosition(
    b: Board, id: Uuid, answer: string, attachments: seq<Uuid>, user: Actor, key: string, entryId: Uuid,
    messageId: Uuid, now: int)
    requires Inv(b) && FreshEntryId(b, entryId)
    requires AnswerQuestion(b, id, answer, attachments, user, key, entryId, messageId, now).1.Ok?
    ensures var (b1, answered) := AnswerQuestion(b, id, answer, attachments, user, key, entryId, messageId, now);
            var t := b.questions[id].taskId;
            Inv(b1) && t in b1.tasks && StandsAt(b1.Log(t), answered.value)
  {
    var b1 := AnswerQuestion(b, id, answer, attachments, user, key, entryId, messageId, now).0;
    OpKeepsInv(b, OpAnswerQuestion(id, answer, attachments, user, key, entryId, messageId, now));
    assert b1 == Apply(b, OpAnswerQuestion(id, answer, attachments, user, key, entryId, messageId, now));
    AnswerIsOnBoard(b, id, answer, attachments, user, key, entryId, messageId, now);
    InvRecorded(b1, id);
  }

  /** A QA entry of the log, at the place its number says. */
  ghost predicate StandsAt(log: seq<Entry>, e: Entry) {
    e.kind == QA && 1 <= e.seqNo <= |log| && log[e.seqNo - 1] == e
  }

  lemma AnswerIsOnBoard(
    b: Board, id: Uuid, answer: string, attachments: seq<Uuid>, user: Actor, key: string, entryId: Uuid,
    messageId: Uuid, now: int)
    requires Owned(b) && AnswerQuestion(b, id, answer, attachments, user, key, entryId, messageId, now).1.Ok?
    ensures var (b1, answered) := AnswerQuestion(b, id, answer, attachments, user, key, entryId, messageId, now);
            id in b1.questions && b1.questions[id].taskId == b.questions[id].taskId
            && id in b1.answers && b1.answers[id] == answered.value
  {
  }

  lemma InvRecorded(b: Board, q: Uuid)
    requires Inv(b) && q in b.questions && q in b.answers
    ensures b.questions[q].taskId in b.tasks && StandsAt(b.Log(b.questions[q].taskId), b.answers[q])
  {
    InvAnswers(b, b.questions[q].taskId);
    RecordedStands(b, b.questions[q].taskId, q);
  }

  lemma InvAnswers(b: Board, t: Uuid)
    requires Inv(b) && t in b.tasks
    ensures AnswersRecorded(b, t)
  {
    assert TaskOk(b, t);
  }

  lemma RecordedStands(b: Board, t: Uuid, q: Uuid)
    requires AnswersRecorded(b, t) && AnsweredIn(b, t, q)
    ensures StandsAt(b.Log(t), b.answers[q])
  {
    assert Recorded(b, q);
  }

  lemma RunReadsBack(b: Board, ops: seq<Op>, t: Uuid, k: nat)
    requires Inv(b) && FreshRun(b, ops) && NeverDeletes(ops, t) && t in b.tasks && k < |b.Log(t)|
    ensures ListEntries(Run(b, ops), t, k, None, 1) == Ok([b.Log(t)[k]])
  {
    RunKeepsInv(b, ops);
    RunGrowsLog(b, ops, t);
    InvGapless(Run(b, ops), t);
    ReadBack(Run(b, ops), t, k);
  }

  lemma InvGapless(b: Board, t: Uuid)
    requires Inv(b) && t in b.tasks
    ensures Gapless(b, t)
  {
    assert TaskOk(b, t);
  }

  lemma ReadBack(b: Board, t: Uuid, k: nat)
    requires t in b.tasks && Gapless(b, t) && k < |b.Log(t)|
    ensures ListEntries(b, t, k, None, 1) == Ok([b.Log(t)[k]])
  {
    ListEntriesIsSlice(b, t, k, None, 1);
    assert b.Log(t)[k..k + 1] == [b.Log(t)[k]];
  }

  lemma PublishedPosition(b: Board, t: Uuid, actor: Actor, request: PublishRequest, id: Uuid, now: int) returns (k: nat)
    requires Inv(b) && FreshEntryId(b, id)
    requires request.CheckContract() && BoardPublish(b, t, actor, request, id, now).1.Ok?
    ensures var (b1, published) := BoardPublish(b, t, actor, request, id, now);
            Inv(b1) && t in b1.tasks && k < |b1.Log(t)| && b1.Log(t)[k] == published.value && k + 1 == published.value.seqNo
  {
    OpKeepsInv(b, OpPublish(t, actor, request, id, now));
    InvGapless(b, t);
    k := StandsInLog(b, t, actor, request, id, now);
  }

  lemma StandsInLog(b: Board, t: Uuid, actor: Actor, request: PublishRequest, id: Uuid, now: int) returns (k: nat)
    requires t in b.tasks && Gapless(b, t)
    requires request.CheckContract() && BoardPublish(b, t, actor, request, id, now).1.Ok?
    ensures var (b1, published) := BoardPublish(b, t, actor, request, id, now);
            t in b1.tasks && k < |b1.Log(t)| && b1.Log(t)[k] == published.value && k + 1 == published.value.seqNo
  {
    var existing := FindKey(b.Log(t), actor.agentId, request.key);
    if existing.Some? {
      k :| 0 <= k < |b.Log(t)| && b.Log(t)[k] == existing.value;
    } else {
      k := |b.Log(t)|;
    }
  }
}
