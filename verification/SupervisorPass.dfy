/** What one pass of the supervisor does: when it starts reading, what it reviews, and when its advice is written. */
module SupervisorPass {
  import opened Domain
  import opened Board
  import opened BoardTheorems
  import opened Supervisor
  import opened SupervisorInvariant
  import opened SupervisorLiveness
  import opened SupervisorAdvice

  /* ---- advice by its place in the log ---- */

  /** Where the advice after a place stands. */
  function LaterAdvice(log: seq<Entry>, i: nat): set<nat> {
    set j: nat | i < j < |log| && log[j].kind == SupervisorAdvice
  }

  lemma LaterAdviceAppend(log: seq<Entry>, i: nat)
    requires i + 1 < |log|
    ensures var init := log[..|log| - 1];
      |LaterAdvice(log, i)| == |LaterAdvice(init, i)| + if log[|log| - 1].kind == SupervisorAdvice then 1 else 0
  {
    var init := log[..|log| - 1];
    var n: nat := |log| - 1;
    if log[n].kind == SupervisorAdvice {
      assert LaterAdvice(log, i) == LaterAdvice(init, i) + {n};
      assert n !in LaterAdvice(init, i);
    } else {
      assert LaterAdvice(log, i) == LaterAdvice(init, i);
    }
  }

  /** The k-th advice of a log stands at place i: as much advice follows. */
  ghost predicate IsAdviceAt(log: seq<Entry>, k: nat, i: nat) {
    var a := AdviceOf(log);
    && k < |a| && i < |log| && log[i].kind == SupervisorAdvice && log[i] == a[k]
    && |LaterAdvice(log, i)| == |a| - 1 - k
  }

  lemma LastStands(log: seq<Entry>)
    requires log != [] && log[|log| - 1].kind == SupervisorAdvice
    ensures IsAdviceAt(log, |AdviceOf(log)| - 1, |log| - 1)
  {
    assert LaterAdvice(log, |log| - 1) == {};
  }

  lemma StandsInLonger(log: seq<Entry>, k: nat, i: nat)
    requires log != [] && IsAdviceAt(log[..|log| - 1], k, i)
    ensures IsAdviceAt(log, k, i)
  {
    LaterAdviceAppend(log, i);
  }

  lemma {:induction false} AdviceStands(log: seq<Entry>, k: nat)
    requires k < |AdviceOf(log)|
    ensures exists i: nat :: IsAdviceAt(log, k, i)
  {
    var init := log[..|log| - 1];
    if k < |AdviceOf(init)| {
      AdviceStands(init, k);
      var i: nat :| IsAdviceAt(init, k, i);
      StandsInLonger(log, k, i);
    } else {
      LastStands(log);
    }
  }

  lemma {:induction false} PlaceIsAdvice(log: seq<Entry>, i: nat)
    requires i < |log| && log[i].kind == SupervisorAdvice
    ensures exists k: nat :: IsAdviceAt(log, k, i)
  {
    var init := log[..|log| - 1];
    if i < |log| - 1 {
      PlaceIsAdvice(init, i);
      var k: nat :| IsAdviceAt(init, k, i);
      StandsInLonger(log, k, i);
    } else {
      LastStands(log);
    }
  }

  /* ---- when advice is written ---- */

  /** No advice that fewer than twenty others follow is similar. */
  ghost predicate Unlike(cfg: Config, entries: seq<Entry>, text: string) {
    forall i: nat :: i < |entries| && entries[i].kind == SupervisorAdvice && |LaterAdvice(entries, i)| < RECENT_ADVICE
                ==> !cfg.similar(text, AdviceText(entries[i]))
  }

  ghost predicate LastAdviceAt(entries: seq<Entry>, i: nat) {
    i < |entries| && entries[i].kind == SupervisorAdvice && LaterAdvice(entries, i) == {}
  }

  /** There is no advice yet, or a prompt or a finding is new, or the last advice is an interval old. */
  ghost predicate Seasonable(cfg: Config, entries: seq<Entry>, last: nat, now: int) {
    || (forall i :: 0 <= i < |entries| ==> entries[i].kind != SupervisorAdvice)
    || (exists i :: last <= i < |entries| && entries[i].kind in {UserPrompt, Finding})
    || (exists i: nat :: LastAdviceAt(entries, i) && now - entries[i].createdAt >= cfg.adviceInterval)
  }

  lemma UnlikeIff(cfg: Config, entries: seq<Entry>, text: string)
    ensures var recent := LastOf(AdviceOf(entries), RECENT_ADVICE);
      Unlike(cfg, entries, text) <==> !exists i :: 0 <= i < |recent| && cfg.similar(text, AdviceText(recent[i]))
  {
    var recent := LastOf(AdviceOf(entries), RECENT_ADVICE);
    if Unlike(cfg, entries, text) {
      forall j | 0 <= j < |recent| ensures !cfg.similar(text, AdviceText(recent[j])) {
        var i := RecentStands(entries, j);
      }
    } else {
      var i: nat :| i < |entries| && entries[i].kind == SupervisorAdvice && |LaterAdvice(entries, i)| < RECENT_ADVICE
                    && cfg.similar(text, AdviceText(entries[i]));
      var j := PlaceIsRecent(entries, i);
    }
  }

  lemma RecentStands(entries: seq<Entry>, j: nat) returns (i: nat)
    requires j < |LastOf(AdviceOf(entries), RECENT_ADVICE)|
    ensures i < |entries| && entries[i].kind == SupervisorAdvice && |LaterAdvice(entries, i)| < RECENT_ADVICE
    ensures LastOf(AdviceOf(entries), RECENT_ADVICE)[j] == entries[i]
  {
    var k := |AdviceOf(entries)| - |LastOf(AdviceOf(entries), RECENT_ADVICE)| + j;
    AdviceStands(entries, k);
    i :| IsAdviceAt(entries, k, i);
  }

  lemma PlaceIsRecent(entries: seq<Entry>, i: nat) returns (j: nat)
    requires i < |entries| && entries[i].kind == SupervisorAdvice && |LaterAdvice(entries, i)| < RECENT_ADVICE
    ensures j < |LastOf(AdviceOf(entries), RECENT_ADVICE)| && LastOf(AdviceOf(entries), RECENT_ADVICE)[j] == entries[i]
  {
    PlaceIsAdvice(entries, i);
    var k: nat :| IsAdviceAt(entries, k, i);
    j := k - (|AdviceOf(entries)| - |LastOf(AdviceOf(entries), RECENT_ADVICE)|);
  }

  lemma BypassesIff(entries: seq<Entry>, last: nat)
    requires Gapless(entries)
    ensures Bypasses(Delta(entries, last)) <==> exists i :: last <= i < |entries| && entries[i].kind in {UserPrompt, Finding}
  {
    if Bypasses(Delta(entries, last)) {
      DeltaBypass(entries, last);
    }
    if i :| last <= i < |entries| && entries[i].kind in {UserPrompt, Finding} {
      DeltaIsSuffix(entries, last);
      var rest := entries[last..];
      NonAdviceMembers(rest);
      assert rest[i - last] == entries[i];
      var k :| 0 <= k < |Delta(entries, last)| && Delta(entries, last)[k] == entries[i];
      assert Delta(entries, last)[k].kind in {UserPrompt, Finding};
    }
  }

  lemma NoneIff(entries: seq<Entry>)
    ensures AdviceOf(entries) == [] <==> forall i :: 0 <= i < |entries| ==> entries[i].kind != SupervisorAdvice
  {
    if AdviceOf(entries) != [] {
      AdviceStands(entries, 0);
    }
    if i :| 0 <= i < |entries| && entries[i].kind == SupervisorAdvice {
      PlaceIsAdvice(entries, i);
    }
  }

  /** The place of the last advice. */
  lemma LastAdviceIs(entries: seq<Entry>, i: nat)
    requires LastAdviceAt(entries, i)
    ensures AdviceOf(entries) != [] && AdviceOf(entries)[|AdviceOf(entries)| - 1] == entries[i]
  {
    PlaceIsAdvice(entries, i);
    var k: nat :| IsAdviceAt(entries, k, i);
  }

  lemma LastAdviceStands(entries: seq<Entry>) returns (i: nat)
    requires AdviceOf(entries) != []
    ensures LastAdviceAt(entries, i)
  {
    AdviceStands(entries, |AdviceOf(entries)| - 1);
    i :| IsAdviceAt(entries, |AdviceOf(entries)| - 1, i);
  }

  lemma OldEnoughIff(cfg: Config, entries: seq<Entry>, now: int)
    requires AdviceOf(entries) != []
    ensures var a := AdviceOf(entries);
      now - a[|a| - 1].createdAt >= cfg.adviceInterval
      <==> exists i: nat :: LastAdviceAt(entries, i) && now - entries[i].createdAt >= cfg.adviceInterval
  {
    var i := LastAdviceStands(entries);
    LastAdviceIs(entries, i);
    if j: nat :| LastAdviceAt(entries, j) && now - entries[j].createdAt >= cfg.adviceInterval {
      LastAdviceIs(entries, j);
    }
  }

  lemma SeasonableIff(cfg: Config, entries: seq<Entry>, last: nat, now: int)
    requires Gapless(entries)
    ensures var a := AdviceOf(entries);
      Seasonable(cfg, entries, last, now)
      <==> Bypasses(Delta(entries, last)) || a == [] || now - a[|a| - 1].createdAt >= cfg.adviceInterval
  {
    BypassesIff(entries, last);
    NoneIff(entries);
    if AdviceOf(entries) != [] {
      OldEnoughIff(cfg, entries, now);
    }
  }

  lemma SuppressedIff(cfg: Config, text: string, entries: seq<Entry>, last: nat, now: int)
    requires Gapless(entries)
    ensures Suppressed(cfg, text, LastOf(AdviceOf(entries), RECENT_ADVICE), Bypasses(Delta(entries, last)), now)
       <==> !(Unlike(cfg, entries, text) && Seasonable(cfg, entries, last, now))
  {
    UnlikeIff(cfg, entries, text);
    SeasonableIff(cfg, entries, last, now);
    var a := AdviceOf(entries);
    var recent := LastOf(a, RECENT_ADVICE);
    if a != [] {
      assert recent[|recent| - 1] == a[|a| - 1];
    }
  }

  /** The key stands for no entry of the supervisor. */
  ghost predicate KeyFree(log: seq<Entry>, key: string) {
    forall i :: 0 <= i < |log| ==> !(log[i].actor.agentId == SUPERVISOR_ID && log[i].key == key)
  }

  /** The model's decision is written. */
  ghost predicate Written(cfg: Config, s: State, advice: Option<string>) {
    s.phase.Advising? && s.phase.stage.Judging? &&
    var st := s.phase.stage;
    && advice.Some? && advice.value != ""
    && Unlike(cfg, st.entries, advice.value) && Seasonable(cfg, st.entries, st.last, s.now)
    && KeyFree(s.log, cfg.adviceKey(st.latest, advice.value))
  }

  lemma JudgedIff(cfg: Config, s: State)
    requires s.phase.Advising? && s.phase.stage.Judging? && Gapless(s.phase.stage.entries)
    ensures var st := s.phase.stage;
      JudgeAdvice(cfg, s) ==
        if st.advice.Some? && st.advice.value != "" && Unlike(cfg, st.entries, st.advice.value)
           && Seasonable(cfg, st.entries, st.last, s.now)
        then s.(phase := s.phase.(stage := Writing(st.last, st.latest, st.entries, st.advice.value, s.now)))
        else s.(phase := s.phase.(stage := Asking(st.latest)))
  {
    var st := s.phase.stage;
    if st.advice.Some? {
      SuppressedIff(cfg, st.advice.value, st.entries, st.last, s.now);
    }
  }

  /** The entry that advice becomes. */
  function AdviceBecomes(cfg: Config, log: seq<Entry>, id: Uuid, text: string, latest: nat, now: int): Entry {
    Entry(id, 0, |log| + 1, Actor("supervisor", Role.Supervisor), SupervisorAdvice, "advice",
          AdviceBody(text, latest), cfg.adviceKey(latest, text), now)
  }

  lemma WritesIff(cfg: Config, s: State, id: Uuid)
    requires s.phase.Advising? && s.phase.stage.Writing?
    ensures var st := s.phase.stage;
            var s1 := WriteAdvice(cfg, s, id);
      && s1.log == (if KeyFree(s.log, cfg.adviceKey(st.latest, st.text))
                    then s.log + [AdviceBecomes(cfg, s.log, id, st.text, st.latest, s.now)] else s.log)
      && s1.phase == s.phase.(stage := Asking(st.latest))
  {
  }

  lemma JudgementIsWritten(cfg: Config, s: State, id: Uuid)
    requires s.phase.Advising? && s.phase.stage.Judging? && Gapless(s.phase.stage.entries)
    ensures var st := s.phase.stage;
            var s2 := Next(cfg, Next(cfg, s, Judge), Write(id));
      && (Written(cfg, s, st.advice) ==> s2.log == s.log + [AdviceBecomes(cfg, s.log, id, st.advice.value, st.latest, s.now)])
      && (!Written(cfg, s, st.advice) ==> s2.log == s.log)
      && s2.phase == s.phase.(stage := Asking(st.latest))
  {
    JudgedIff(cfg, s);
    var s1 := Next(cfg, s, Judge);
    if s1.phase.stage.Writing? {
      WritesIff(cfg, s1, id);
    }
  }

  /** In every run, the pass that judges a decision writes it, with its text, the number it is based on and the supervisor as
      author, if and only if it has a text, no recent advice is similar, it is seasonable and its key is free. */
  lemma AdviceWrittenIff(cfg: Config, now: int, log: seq<Entry>, events: seq<Event>, id: Uuid)
    requires Startable(now, log)
    requires var s := Run(cfg, Initial(now, log), events); s.phase.Advising? && s.phase.stage.Judging?
    ensures var s := Run(cfg, Initial(now, log), events);
            var st := s.phase.stage;
            var s2 := Next(cfg, Next(cfg, s, Judge), Write(id));
      && (Written(cfg, s, st.advice) <==> s2.log != s.log)
      && (Written(cfg, s, st.advice) ==> s2.log == s.log + [AdviceBecomes(cfg, s.log, id, st.advice.value, st.latest, s.now)])
  {
    InitialInv(cfg, now, log);
    RunKeepsInv(cfg, Initial(now, log), events);
    JudgingIsGapless(cfg, Run(cfg, Initial(now, log), events));
    JudgementIsWritten(cfg, Run(cfg, Initial(now, log), events), id);
  }

  lemma JudgingIsGapless(cfg: Config, s: State)
    requires Inv(cfg, s) && s.phase.Advising? && s.phase.stage.Judging?
    ensures Gapless(s.phase.stage.entries)
  {
  }

  /* ---- a whole pass ---- */

  lemma RunThree(cfg: Config, s: State, e0: Event, e1: Event, e2: Event)
    ensures Run(cfg, s, [e0, e1, e2]) == Next(cfg, Next(cfg, Next(cfg, s, e0), e1), e2)
  {
    RunFirst(cfg, s, e0, [e1, e2]);
    RunFirst(cfg, Next(cfg, s, e0), e1, [e2]);
    RunFirst(cfg, Next(cfg, Next(cfg, s, e0), e1), e2, []);
    assert [e0, e1, e2] == [e0] + [e1, e2] && [e1, e2] == [e1] + [e2] && [e2] == [e2] + [];
  }

  lemma RunFour(cfg: Config, s: State, e0: Event, e1: Event, e2: Event, e3: Event)
    ensures Run(cfg, s, [e0, e1, e2, e3]) == Next(cfg, Next(cfg, Next(cfg, Next(cfg, s, e0), e1), e2), e3)
  {
    RunFirst(cfg, s, e0, [e1, e2, e3]);
    RunThree(cfg, Next(cfg, s, e0), e1, e2, e3);
    assert [e0, e1, e2, e3] == [e0] + [e1, e2, e3];
  }

  function Reading(decision: Option<string>): seq<Event> {
    [Prepared, TaskSynced, EntriesRead, Decide(decision)]
  }

  function Concluding(id: Uuid): seq<Event> {
    [Judge, Write(id), Answered]
  }

  /** The state in which an undisturbed pass judges its decision: it has read the whole board. */
  function Judged(s: State, decision: Option<string>): State
    requires s.phase.Advising?
  {
    var entries := Take(s.log, SYNC_LIMIT);
    s.(phase := s.phase.(stage := Judging(s.last, |s.log|, entries, decision)),
       deltas := s.deltas + [Delta(entries, s.last)], decided := s.decided + [Delta(entries, s.last)])
  }

  lemma PassReadsBoard(cfg: Config, s: State, decision: Option<string>)
    requires s.phase.Advising? && s.phase.stage == Preparing(s.last)
    ensures Run(cfg, s, Reading(decision)) == Judged(s, decision)
  {
    RunFour(cfg, s, Prepared, TaskSynced, EntriesRead, Decide(decision));
    var s1 := Next(cfg, s, Prepared);
    assert s1 == s.(phase := s.phase.(stage := SyncTask(s.last)));
    var s2 := Next(cfg, s1, TaskSynced);
    assert s2 == s.(phase := s.phase.(stage := SyncEntries(s.last, |s.log|)));
    var s3 := Next(cfg, s2, EntriesRead);
    assert s3 == s.(phase := s.phase.(stage := Thinking(s.last, |s.log|, Take(s.log, SYNC_LIMIT))),
                    deltas := s.deltas + [Delta(Take(s.log, SYNC_LIMIT), s.last)]);
  }

  /** A pass that nobody disturbs reviews the board up to its last entry, leaves nothing pending unless it is a silent one, and
      writes what it decided if that is to be written. */
  ghost predicate Reviewed(cfg: Config, s: State, s1: State, decision: Option<string>, id: Uuid)
    requires s.phase.Advising?
  {
    && s1.phase == Head && s1.last == |s.log| && s1.freeAt == s.now
    && (s1.pending.latestSeq == if s.phase.silent then s.pending.latestSeq else 0)
    && s1.deltas == s.deltas + [Delta(Take(s.log, SYNC_LIMIT), s.last)]
    && (!Written(cfg, Judged(s, decision), decision) ==> s1.log == s.log)
    && (Written(cfg, Judged(s, decision), decision) ==>
          s1.log == s.log + [AdviceBecomes(cfg, s.log, id, decision.value, |s.log|, s.now)])
  }

  lemma AnsweredReturns(cfg: Config, s: State, latest: nat)
    requires s.phase.Advising? && s.phase.stage == Asking(latest) && s.pending.latestSeq <= latest
    ensures var s1 := Next(cfg, s, Answered);
      && s1.phase == Head && s1.last == latest && s1.freeAt == s.now && s1.log == s.log && s1.deltas == s.deltas
      && s1.pending.latestSeq == if s.phase.silent then s.pending.latestSeq else 0
  {
  }

  lemma JudgeKeeps(cfg: Config, s: State)
    requires s.phase.Advising? && s.phase.stage.Judging?
    ensures var s1 := Next(cfg, s, Judge); s1 == s.(phase := s1.phase) && s1.phase.Advising?
  {
  }

  lemma WriteKeeps(cfg: Config, s: State, id: Uuid)
    requires s.phase.Advising?
    ensures var s1 := Next(cfg, s, Write(id)); s1.deltas == s.deltas && s1.now == s.now && s1.pending == s.pending
  {
  }

  lemma JudgementKeeps(cfg: Config, s: State, id: Uuid)
    requires s.phase.Advising? && s.phase.stage.Judging?
    ensures var s2 := Next(cfg, Next(cfg, s, Judge), Write(id)); s2.deltas == s.deltas && s2.now == s.now && s2.pending == s.pending
  {
    JudgeKeeps(cfg, s);
    WriteKeeps(cfg, Next(cfg, s, Judge), id);
  }

  lemma PassReviewsBoard(cfg: Config, s: State, decision: Option<string>, id: Uuid)
    requires Gapless(s.log) && s.pending.latestSeq <= |s.log|
    requires s.phase.Advising? && s.phase.stage == Preparing(s.last)
    ensures Reviewed(cfg, s, Run(cfg, s, Reading(decision) + Concluding(id)), decision, id)
  {
    RunConcat(cfg, s, Reading(decision), Concluding(id));
    PassReadsBoard(cfg, s, decision);
    var j := Judged(s, decision);
    RunThree(cfg, j, Judge, Write(id), Answered);
    JudgementIsWritten(cfg, j, id);
    JudgementKeeps(cfg, j, id);
    AnsweredReturns(cfg, Next(cfg, Next(cfg, j, Judge), Write(id)), |s.log|);
  }

  /** In every run, a pass reads the board if and only if the task is not terminal and its batch is new, or it is silent; and
      read without a disturbance it reviews all of it. */
  lemma PassReadsIff(cfg: Config, now: int, log: seq<Entry>, events: seq<Event>, state: RunState, decision: Option<string>, id: Uuid)
    requires Startable(now, log)
    requires var s := Run(cfg, Initial(now, log), events); s.phase.Advising? && s.phase.stage.Entered?
    ensures var s := Run(cfg, Initial(now, log), events);
            var s1 := Next(cfg, s, TaskRead(state));
      && (s1.phase.Advising? <==> !Terminal(state) && (s.phase.silent || s.phase.trigger > s.last))
      && (s1.phase.Advising? ==> Reviewed(cfg, s1, Run(cfg, s1, Reading(decision) + Concluding(id)), decision, id))
      && (!s1.phase.Advising? ==> s1.phase == Head && s1.log == s.log && s1.last == s.last)
  {
    InitialInv(cfg, now, log);
    RunKeepsInv(cfg, Initial(now, log), events);
    EnteredPass(cfg, Run(cfg, Initial(now, log), events), state);
    var s1 := Next(cfg, Run(cfg, Initial(now, log), events), TaskRead(state));
    if s1.phase.Advising? {
      PassReviewsBoard(cfg, s1, decision, id);
    }
  }

  lemma EnteredPass(cfg: Config, s: State, state: RunState)
    requires Inv(cfg, s) && s.phase.Advising? && s.phase.stage.Entered?
    ensures var s1 := Next(cfg, s, TaskRead(state));
      && (s1.phase.Advising? <==> !Terminal(state) && (s.phase.silent || s.phase.trigger > s.last))
      && (s1.phase.Advising? ==>
            s1 == s.(phase := s.phase.(stage := Preparing(s.last))) && Gapless(s1.log) && s1.pending.latestSeq <= |s1.log|)
      && (!s1.phase.Advising? ==> s1.phase == Head && s1.log == s.log && s1.last == s.last)
  {
  }

  /** A concrete run: a finding opens the board, and the advice of the pass it starts becomes the second entry. */
  lemma AdviceIsWritten(cfg: Config, finding: Entry, text: string, id: Uuid)
    requires finding.kind == Finding && finding.seqNo == 1 && finding.actor.agentId != SUPERVISOR_ID && text != ""
    ensures var s := Next(cfg, Run(cfg, Initial(1, [finding]), [Changed(1), Turn]), TaskRead(Running));
      Run(cfg, s, Reading(Some(text)) + Concluding(id)).log == [finding, AdviceBecomes(cfg, [finding], id, text, 1, 1)]
  {
    FindingTaken(cfg, finding);
    var s0 := Run(cfg, Initial(1, [finding]), [Changed(1), Turn]);
    FirstPass(cfg, s0);
    var s := Next(cfg, s0, TaskRead(Running));
    assert Gapless(s.log);
    PassReviewsBoard(cfg, s, Some(text), id);
    assert s.log[0] == finding;
    assert Written(cfg, Judged(s, Some(text)), Some(text));
  }

  lemma FirstPass(cfg: Config, s: State)
    requires s.phase == Advising(1, false, Entered) && s.last == 0
    ensures Next(cfg, s, TaskRead(Running)) == s.(phase := Advising(1, false, Preparing(0)))
  {
  }

  /* ---- cancelling ---- */

  /** A cancel ends the loop and forgets what was pending and reviewed: the next change is the first of a new loop. The board
      stays. */
  lemma CancelForgets(cfg: Config, s: State)
    ensures var s1 := Next(cfg, s, Cancel);
      && s1.phase.Off? && s1.last == 0
      && s1.pending.latestSeq == 0 && s1.pending.firstIntelAt.None? && !s1.pending.immediate && !s1.pending.event
      && s1.log == s.log && s1.now == s.now
  {
  }

  /* ---- what is noted, and silence ---- */

  /** Every Intel, finding, answer and user file is noted, and every prompt that is not the scene; nothing else is. */
  lemma ReviewableIsNoted(cfg: Config, s: State, seqNo: nat)
    requires 1 <= seqNo <= |s.log|
    ensures var e := s.log[seqNo - 1];
            var s1 := Next(cfg, s, Changed(seqNo));
      match e.kind
      case Intel => IsNoted(s, s1, seqNo)
      case Finding => IsNoted(s, s1, seqNo)
      case QA => IsNoted(s, s1, seqNo)
      case UserFile => IsNoted(s, s1, seqNo)
      case UserPrompt => if e.topic == "scene" then s1 == s else IsNoted(s, s1, seqNo)
      case SupervisorAdvice => s1 == s
      case FinalCandidate => s1 == s
  {
  }

  /** The number is in the history and pending, and a loop runs. */
  ghost predicate IsNoted(s: State, s1: State, seqNo: nat)
    requires 1 <= seqNo <= |s.log|
  {
    && s1.notes == s.notes + [Noted(seqNo, s.log[seqNo - 1].kind, s.now)]
    && seqNo in s1.noted && seqNo <= s1.pending.latestSeq && s1.pending.event && !s1.phase.Off?
    && s1.log == s.log && s1.last == s.last && s1.starts == s.starts
  }

  /** A loop with nothing to do waits for the silence interval. */
  lemma IdleLoopWaits(cfg: Config, s: State)
    requires s.phase.Head? && s.pending.latestSeq == 0
    ensures Next(cfg, s, Turn).phase == SilenceWait(s.now + cfg.silence) && !Next(cfg, s, Turn).pending.event
  {
  }

  /** When nothing is noted until the interval is over, the loop looks at the task: a running one gets a pass over the whole
      board, though nothing is pending; a terminal one ends the loop. */
  lemma SilenceStartsPassIff(cfg: Config, s: State, state: RunState)
    requires s.phase.SilenceWait? && !s.pending.event && s.now <= s.phase.deadline
    ensures var s1 := Run(cfg, s, [Tick(s.phase.deadline - s.now), Timeout, TaskRead(state)]);
      && (s1.phase == Advising(|s.log|, true, Entered) <==> state == Running)
      && (s1.phase.Off? <==> Terminal(state))
      && (s1.phase.Head? <==> state != Running && !Terminal(state))
      && s1.now == s.phase.deadline && s1.pending == s.pending && s1.log == s.log
  {
    RunThree(cfg, s, Tick(s.phase.deadline - s.now), Timeout, TaskRead(state));
  }
}
