/** What the passes of a run read and what advice they leave on the board. */
module SupervisorAdvice {
  import opened Domain
  import opened Board
  import opened BoardTheorems
  import opened Supervisor
  import opened SupervisorInvariant
  import opened SupervisorLiveness

  /* ---- filtering a growing log ---- */

  lemma {:induction false} NonAdviceConcat(a: seq<Entry>, b: seq<Entry>)
    ensures NonAdvice(a + b) == NonAdvice(a) + NonAdvice(b)
  {
    if b == [] {
      assert a + b == a;
    } else {
      assert (a + b)[..|a + b| - 1] == a + b[..|b| - 1];
      NonAdviceConcat(a, b[..|b| - 1]);
    }
  }

  lemma {:induction false} NonAdviceMembers(log: seq<Entry>)
    ensures forall e :: e in NonAdvice(log) <==> e in log && e.kind != SupervisorAdvice
  {
    if log != [] {
      NonAdviceMembers(log[..|log| - 1]);
      assert log == log[..|log| - 1] + [log[|log| - 1]];
    }
  }

  ghost predicate Gapless(log: seq<Entry>) {
    forall i :: 0 <= i < |log| ==> log[i].seqNo == i + 1
  }

  lemma DeltaIsSuffix(entries: seq<Entry>, last: nat)
    requires Gapless(entries)
    ensures Delta(entries, last) == NonAdvice(entries[Min(last, |entries|)..])
  {
    FilteredIsSlice(entries, 0, last, None);
    assert entries[Min(last, |entries|)..|entries|] == entries[Min(last, |entries|)..];
  }

  /** A pass's new entries leave nothing out between two board numbers exactly when everything the sync limit cuts off
      there is advice. */
  lemma DeltaCompleteIff(log: seq<Entry>, last: nat, latest: nat)
    requires Gapless(log) && last <= latest <= |log|
    ensures (forall i :: last <= i < latest && log[i].kind != SupervisorAdvice ==> log[i] in Delta(Take(log, SYNC_LIMIT), last))
       <==> (forall i :: Max(last, SYNC_LIMIT) <= i < latest ==> log[i].kind == SupervisorAdvice)
  {
    var entries := Take(log, SYNC_LIMIT);
    DeltaIsSuffix(entries, last);
    NonAdviceMembers(entries[Min(last, |entries|)..]);
    forall i | last <= i < latest && log[i].kind != SupervisorAdvice
      ensures log[i] in Delta(entries, last) <==> i < SYNC_LIMIT
    {
      if i < SYNC_LIMIT {
        assert entries[Min(last, |entries|)..][i - last] == log[i];
      }
    }
  }

  /* ---- every entry reaches a pass ---- */

  function Concat(deltas: seq<seq<Entry>>): seq<Entry> {
    if deltas == [] then [] else Concat(deltas[..|deltas| - 1]) + deltas[|deltas| - 1]
  }

  /** The board number up to which the passes have read: that of the pass in flight once it has read, else the reviewed one. */
  function ReadUpTo(s: State): nat {
    if !s.phase.Advising? then s.last
    else
      match s.phase.stage
      case Thinking(_, latest, _) => latest
      case Judging(_, latest, _, _) => latest
      case Writing(_, latest, _, _, _) => latest
      case Asking(latest) => latest
      case Failing(processed) => processed
      case _ => s.last
  }

  /** As long as both reads of every pass saw the same board: each non-advice entry was delivered once, in log order. */
  ghost predicate DeliveredOnce(s: State) {
    ReadUpTo(s) <= |s.log| && (s.torn || Concat(s.deltas) == NonAdvice(s.log[..ReadUpTo(s)]))
  }

  predicate InSome(deltas: seq<seq<Entry>>, e: Entry) {
    exists k :: 0 <= k < |deltas| && e in deltas[k]
  }

  ghost predicate Delivered(s: State) {
    ReadUpTo(s) <= |s.log| && forall i :: 0 <= i < ReadUpTo(s) && s.log[i].kind != SupervisorAdvice ==> InSome(s.deltas, s.log[i])
  }

  /** The new entries of a pass that read the whole log continue what earlier passes got up to last. */
  lemma DeltaContinues(log: seq<Entry>, deltas: seq<seq<Entry>>, last: nat)
    requires Gapless(log) && last <= |log| && Concat(deltas) == NonAdvice(log[..last])
    ensures Concat(deltas + [Delta(log, last)]) == NonAdvice(log)
  {
    DeltaIsSuffix(log, last);
    NonAdviceConcat(log[..last], log[last..]);
    assert log[..last] + log[last..] == log;
    assert (deltas + [Delta(log, last)])[..|deltas|] == deltas;
  }

  lemma ReadContinues(s: State, s1: State, last: nat)
    requires DeliveredOnce(s) && !s.torn && ReadUpTo(s) == last && Gapless(s.log) && last <= |s.log|
    requires s1.log == s.log && s1.deltas == s.deltas + [Delta(s.log, last)] && ReadUpTo(s1) == |s.log|
    ensures DeliveredOnce(s1)
  {
    DeltaContinues(s.log, s.deltas, last);
    assert s.log[..|s.log|] == s.log;
  }

  lemma ReadDeliversOnce(s: State)
    requires s.phase.Advising? && s.phase.stage.SyncEntries? && DeliveredOnce(s)
    requires Gapless(s.log) && |s.log| <= SYNC_LIMIT && s.phase.stage.last == s.last <= s.phase.stage.latest <= |s.log|
    ensures DeliveredOnce(ReadEntries(s))
  {
    if !ReadEntries(s).torn {
      ReadContinues(s, ReadEntries(s), s.last);
    }
  }

  lemma ReadDelivers(s: State)
    requires s.phase.Advising? && s.phase.stage.SyncEntries? && Delivered(s)
    requires Gapless(s.log) && |s.log| <= SYNC_LIMIT && s.phase.stage.last == s.last <= s.phase.stage.latest <= |s.log|
    ensures Delivered(ReadEntries(s))
  {
    var s1 := ReadEntries(s);
    DeltaIsSuffix(s.log, s.last);
    NonAdviceMembers(s.log[s.last..]);
    forall i | 0 <= i < ReadUpTo(s1) && s1.log[i].kind != SupervisorAdvice
      ensures InSome(s1.deltas, s1.log[i])
    {
      if i < s.last {
        assert InSome(s.deltas, s.log[i]);
        var k :| 0 <= k < |s.deltas| && s.log[i] in s.deltas[k];
        assert s1.deltas[k] == s.deltas[k];
      } else {
        assert s.log[s.last..][i - s.last] == s.log[i];
        assert s1.deltas[|s.deltas|] == Delta(s.log, s.last);
      }
    }
  }

  lemma LogGrows(cfg: Config, s: State, event: Event)
    ensures s.log <= Next(cfg, s, event).log
  {
  }

  lemma {:induction false} RunLogGrows(cfg: Config, s: State, events: seq<Event>)
    ensures s.log <= Run(cfg, s, events).log
    decreases |events|
  {
    if events != [] {
      LogGrows(cfg, s, events[0]);
      RunLogGrows(cfg, Next(cfg, s, events[0]), events[1..]);
    }
  }

  ghost predicate SamePosition(s: State, s1: State) {
    s1.deltas == s.deltas && s1.torn == s.torn && ReadUpTo(s1) == ReadUpTo(s)
  }

  lemma ProgressKeepsPosition(cfg: Config, s: State, event: Event)
    requires s.phase.Advising? && event != FailSync && !(event == EntriesRead && s.phase.stage.SyncEntries?)
    ensures SamePosition(s, Progress(cfg, s, event))
  {
    match s.phase.stage
    case Asking(latest) => assert event.Answered? ==> !ReturnFrom(s.(last := latest), latest).phase.Advising?;
    case Returning(processed) => assert event.Answered? ==> !ReturnFrom(s, processed).phase.Advising?;
    case _ =>
  }

  /** Apart from the entry-reading step, the passes' reading position moves only with what has been delivered. */
  lemma OtherStepsKeepPosition(cfg: Config, s: State, event: Event)
    requires event != FailSync && event != Raise && event != Cancel
    requires !(event == EntriesRead && s.phase.Advising? && s.phase.stage.SyncEntries?)
    ensures SamePosition(s, Next(cfg, s, event))
  {
    match event
    case Tick(_) =>
    case Publish(_) =>
    case Changed(_) =>
    case Turn =>
    case Wake =>
    case Timeout =>
    case TaskRead(_) =>
    case _ =>
      if s.phase.Advising? {
        ProgressKeepsPosition(cfg, s, event);
      }
  }

  lemma ReadUpToBounded(cfg: Config, s: State)
    requires Inv(cfg, s)
    ensures s.last <= ReadUpTo(s) <= |s.log|
  {
  }

  lemma NextDeliversOnce(cfg: Config, s: State, event: Event)
    requires Inv(cfg, s) && DeliveredOnce(s) && |s.log| <= SYNC_LIMIT && event != FailSync && event != Raise
    ensures DeliveredOnce(Next(cfg, s, event))
  {
    if event == Cancel {
    } else if event == EntriesRead && s.phase.Advising? && s.phase.stage.SyncEntries? {
      ReadDeliversOnce(s);
    } else {
      OtherStepsKeepPosition(cfg, s, event);
      LogGrows(cfg, s, event);
      var s1 := Next(cfg, s, event);
      assert s1.log[..ReadUpTo(s)] == s.log[..ReadUpTo(s)];
    }
  }

  lemma NextDelivers(cfg: Config, s: State, event: Event)
    requires Inv(cfg, s) && Delivered(s) && |s.log| <= SYNC_LIMIT && event != FailSync
    ensures Delivered(Next(cfg, s, event))
  {
    var s1 := Next(cfg, s, event);
    if event == Cancel {
    } else if event == Raise {
      ReadUpToBounded(cfg, s);
    } else if event == EntriesRead && s.phase.Advising? && s.phase.stage.SyncEntries? {
      ReadDelivers(s);
    } else {
      OtherStepsKeepPosition(cfg, s, event);
      LogGrows(cfg, s, event);
      forall i | 0 <= i < ReadUpTo(s1) && s1.log[i].kind != SupervisorAdvice ensures InSome(s1.deltas, s1.log[i]) {
        assert s1.log[i] == s.log[i];
      }
    }
  }

  /** While the board fits the sync limit and no read of a pass fails, every non-advice entry up to the reviewed number
      is in the new entries of some pass, whatever the interleaving. */
  lemma {:induction false} EveryEntryReachesAPass(cfg: Config, s: State, events: seq<Event>)
    requires Inv(cfg, s) && Delivered(s) && |Run(cfg, s, events).log| <= SYNC_LIMIT
    requires forall i :: 0 <= i < |events| ==> events[i] != FailSync
    ensures Delivered(Run(cfg, s, events))
    decreases |events|
  {
    if events != [] {
      RunLogGrows(cfg, s, events);
      NextKeepsInv(cfg, s, events[0]);
      NextDelivers(cfg, s, events[0]);
      EveryEntryReachesAPass(cfg, Next(cfg, s, events[0]), events[1..]);
    }
  }

  /** If besides no pass dies of an exception and both reads of each saw the same board, each is delivered exactly once
      and in order: the passes' new entries concatenate to the log without its advice. */
  lemma {:induction false} EveryEntryReachesOnePass(cfg: Config, s: State, events: seq<Event>)
    requires Inv(cfg, s) && DeliveredOnce(s) && |Run(cfg, s, events).log| <= SYNC_LIMIT
    requires forall i :: 0 <= i < |events| ==> events[i] != FailSync && events[i] != Raise
    ensures DeliveredOnce(Run(cfg, s, events))
    decreases |events|
  {
    if events != [] {
      RunLogGrows(cfg, s, events);
      NextKeepsInv(cfg, s, events[0]);
      NextDeliversOnce(cfg, s, events[0]);
      EveryEntryReachesOnePass(cfg, Next(cfg, s, events[0]), events[1..]);
    }
  }

  /** A failed read marks the batch reviewed without anybody having seen it: delivery survives it exactly when the batch
      was all advice. */
  lemma FailedSyncSkipsIff(cfg: Config, s: State)
    requires Inv(cfg, s) && DeliveredOnce(s) && !s.torn
    requires s.phase.Advising? && (s.phase.stage.SyncTask? || s.phase.stage.SyncEntries?)
    ensures DeliveredOnce(Next(cfg, Next(cfg, s, FailSync), Answered))
       <==> forall i :: s.last <= i < s.phase.trigger ==> s.log[i].kind == SupervisorAdvice
  {
    var s1 := Next(cfg, Next(cfg, s, FailSync), Answered);
    assert s1.log == s.log && s1.deltas == s.deltas && s1.torn == s.torn && ReadUpTo(s1) == s.phase.trigger;
    assert ReadUpTo(s) == s.last <= s.phase.trigger <= |s.log|;
    SkippedIff(s.log, s.last, s.phase.trigger);
  }

  lemma RunFive(cfg: Config, s: State, e0: Event, e1: Event, e2: Event, e3: Event, e4: Event)
    ensures Run(cfg, s, [e0, e1, e2, e3, e4]) == Next(cfg, Next(cfg, Next(cfg, Next(cfg, Next(cfg, s, e0), e1), e2), e3), e4)
  {
    var s1 := Next(cfg, s, e0);
    var s2 := Next(cfg, s1, e1);
    var s3 := Next(cfg, s2, e2);
    var s4 := Next(cfg, s3, e3);
    RunFirst(cfg, s, e0, [e1, e2, e3, e4]);
    RunFirst(cfg, s1, e1, [e2, e3, e4]);
    RunFirst(cfg, s2, e2, [e3, e4]);
    RunFirst(cfg, s3, e3, [e4]);
    RunFirst(cfg, s4, e4, []);
    assert [e0, e1, e2, e3, e4] == [e0] + [e1, e2, e3, e4] && [e1, e2, e3, e4] == [e1] + [e2, e3, e4];
    assert [e2, e3, e4] == [e2] + [e3, e4] && [e3, e4] == [e3] + [e4] && [e4] == [e4] + [];
  }

  lemma FailedSyncPath(cfg: Config, s: State)
    requires s.phase == Advising(1, false, Entered) && s.last == 0 && s.deltas == [] && !s.torn
    ensures var s1 := Next(cfg, Next(cfg, Next(cfg, Next(cfg, Next(cfg, s, TaskRead(Running)), Prepared), FailSync), Answered), Answered);
      s1.phase.Head? && s1.last == 1 && s1.log == s.log && s1.deltas == [] && !s1.torn
  {
    var s1 := Next(cfg, s, TaskRead(Running));
    assert s1 == s.(phase := Advising(1, false, Preparing(0)));
    var s2 := Next(cfg, s1, Prepared);
    assert s2 == s.(phase := Advising(1, false, SyncTask(0)));
    var s3 := Next(cfg, s2, FailSync);
    assert s3 == s.(phase := Advising(1, false, Failing(1)));
    assert Next(cfg, s3, Answered) == s.(phase := Advising(1, false, Returning(1)), last := 1);
  }

  /** A concrete run: a finding is noted, the blackboard cannot be read, and the finding counts as reviewed although no pass
      has had it among its new entries. */
  lemma FailedSyncSkipsFinding(cfg: Config, finding: Entry)
    requires finding.kind == Finding && finding.seqNo == 1
    ensures var s := Run(cfg, Run(cfg, Initial(1, [finding]), [Changed(1), Turn]),
                         [TaskRead(Running), Prepared, FailSync, Answered, Answered]);
      s.phase.Head? && s.last == 1 && !Delivered(s) && !DeliveredOnce(s)
  {
    FindingTaken(cfg, finding);
    var s := Run(cfg, Initial(1, [finding]), [Changed(1), Turn]);
    FailedSyncPath(cfg, s);
    RunFive(cfg, s, TaskRead(Running), Prepared, FailSync, Answered, Answered);
    SkippedFinding(Run(cfg, s, [TaskRead(Running), Prepared, FailSync, Answered, Answered]), finding);
  }

  /** Reviewed up to the finding, with no new entries ever shown. */
  lemma SkippedFinding(s: State, finding: Entry)
    requires finding.kind == Finding && s.log == [finding] && s.deltas == [] && !s.torn && ReadUpTo(s) == 1
    ensures !Delivered(s) && !DeliveredOnce(s)
  {
    assert s.log[0] == finding && !InSome(s.deltas, s.log[0]);
    NonAdviceMembers(s.log[..1]);
    assert finding in s.log[..1];
  }

  lemma SkippedIff(log: seq<Entry>, last: nat, trigger: nat)
    requires last <= trigger <= |log|
    ensures NonAdvice(log[..last]) == NonAdvice(log[..trigger])
       <==> forall i :: last <= i < trigger ==> log[i].kind == SupervisorAdvice
  {
    var skipped := log[last..trigger];
    NonAdviceConcat(log[..last], skipped);
    assert log[..last] + skipped == log[..trigger];
    NonAdviceMembers(skipped);
    if NonAdvice(skipped) == [] {
      forall i | last <= i < trigger ensures log[i].kind == SupervisorAdvice {
        assert skipped[i - last] == log[i];
      }
    } else {
      var e := NonAdvice(skipped)[0];
      assert e in skipped;
    }
  }

  /* ---- advice ---- */

  lemma AdviceOfAppend(log: seq<Entry>, e: Entry)
    ensures AdviceOf(log + [e]) == if e.kind == SupervisorAdvice then AdviceOf(log) + [e] else AdviceOf(log)
  {
    assert (log + [e])[..|log|] == log;
  }

  /** Advice number n was based on a part of the log that held a new user prompt or finding. */
  ghost predicate Bypassed(s: State, n: nat) {
    n in s.grounds && n > 0 && s.grounds[n].1 <= |s.log|
    && exists i :: s.grounds[n].0 <= i < s.grounds[n].1 && s.log[i].kind in {UserPrompt, Finding}
  }

  /** Consecutive advice is an interval apart unless the later one answers a prompt or a finding. */
  ghost predicate Spaced(cfg: Config, s: State) {
    var a := AdviceOf(s.log);
    forall j :: 1 <= j < |a| ==> a[j].createdAt - a[j - 1].createdAt >= cfg.adviceInterval || Bypassed(s, a[j].seqNo)
  }

  /** No advice is similar to one of the twenty before it. */
  ghost predicate Novel(cfg: Config, log: seq<Entry>) {
    var a := AdviceOf(log);
    forall i, j :: 0 <= i < j < |a| && j - i <= RECENT_ADVICE ==> !cfg.similar(AdviceText(a[j]), AdviceText(a[i]))
  }

  /** What a pass that is going to write advice still knows about the advice already on the board. */
  ghost predicate JudgedOk(cfg: Config, s: State, text: string, last: nat, entries: seq<Entry>, judgedAt: int) {
    var a := AdviceOf(s.log);
    && (forall i :: 0 <= i < |a| && |a| - i <= RECENT_ADVICE ==> !cfg.similar(text, AdviceText(a[i])))
    && (a == [] || judgedAt - a[|a| - 1].createdAt >= cfg.adviceInterval || Bypasses(Delta(entries, last)))
  }

  ghost predicate AdviceStageOk(cfg: Config, s: State) {
    s.phase.Advising? ==>
      match s.phase.stage
      case Thinking(_, _, entries) => AdviceOf(entries) == AdviceOf(s.log)
      case Judging(_, _, entries, _) => AdviceOf(entries) == AdviceOf(s.log)
      case Writing(last, _, entries, text, judgedAt) =>
        AdviceOf(entries) == AdviceOf(s.log) && JudgedOk(cfg, s, text, last, entries, judgedAt)
      case _ => true
  }

  ghost predicate GroundsOk(s: State) {
    forall n :: n in s.grounds ==> n <= |s.log|
  }

  ghost predicate AdviceOk(cfg: Config, s: State) {
    Spaced(cfg, s) && Novel(cfg, s.log) && AdviceStageOk(cfg, s) && GroundsOk(s)
  }

  lemma BypassedStays(s: State, s1: State, n: nat)
    requires Bypassed(s, n) && s.log <= s1.log && n in s1.grounds && s1.grounds[n] == s.grounds[n]
    ensures Bypassed(s1, n)
  {
    var i :| s.grounds[n].0 <= i < s.grounds[n].1 && s.log[i].kind in {UserPrompt, Finding};
    assert s1.log[i] == s.log[i];
  }

  lemma ForeignKeepsAdvice(cfg: Config, s: State, e: Entry)
    requires AdviceOk(cfg, s) && Foreign(s, e)
    ensures AdviceOk(cfg, s.(log := s.log + [e]))
  {
    var s1 := s.(log := s.log + [e]);
    AdviceOfAppend(s.log, e);
    forall n | Bypassed(s, n) ensures Bypassed(s1, n) {
      BypassedStays(s, s1, n);
    }
  }

  lemma UnsuppressedIsJudged(cfg: Config, s: State, text: string, last: nat, entries: seq<Entry>)
    requires AdviceOf(entries) == AdviceOf(s.log)
    requires !Suppressed(cfg, text, LastOf(AdviceOf(entries), RECENT_ADVICE), Bypasses(Delta(entries, last)), s.now)
    ensures JudgedOk(cfg, s, text, last, entries, s.now)
  {
    var a := AdviceOf(s.log);
    var recent := LastOf(a, RECENT_ADVICE);
    forall i | 0 <= i < |a| && |a| - i <= RECENT_ADVICE ensures !cfg.similar(text, AdviceText(a[i])) {
      assert a[i] == recent[i - (|a| - |recent|)];
    }
  }

  lemma JudgeKeepsAdvice(cfg: Config, s: State)
    requires AdviceOk(cfg, s) && s.phase.Advising? && s.phase.stage.Judging?
    ensures AdviceOk(cfg, JudgeAdvice(cfg, s))
  {
    var s1, st := JudgeAdvice(cfg, s), s.phase.stage;
    if s1.phase.stage.Writing? {
      UnsuppressedIsJudged(cfg, s, st.advice.value, st.last, st.entries);
    }
    SameBoardKeepsAdvice(cfg, s, s1);
  }

  lemma DeltaBypass(entries: seq<Entry>, last: nat)
    requires Gapless(entries) && Bypasses(Delta(entries, last))
    ensures exists i :: last <= i < |entries| && entries[i].kind in {UserPrompt, Finding}
  {
    DeltaIsSuffix(entries, last);
    var rest := entries[Min(last, |entries|)..];
    NonAdviceMembers(rest);
    var i :| 0 <= i < |Delta(entries, last)| && Delta(entries, last)[i].kind in {UserPrompt, Finding};
    var e := Delta(entries, last)[i];
    assert e in rest;
    var k :| 0 <= k < |rest| && rest[k] == e;
    assert entries[last + k] == e;
  }

  lemma WrittenIsNovel(cfg: Config, s: State, id: Uuid)
    requires Novel(cfg, s.log) && s.phase.Advising? && s.phase.stage.Writing?
    requires var st := s.phase.stage; JudgedOk(cfg, s, st.text, st.last, st.entries, st.judgedAt)
    ensures Novel(cfg, WriteAdvice(cfg, s, id).log)
  {
    if WriteAdvice(cfg, s, id).log != s.log {
      AdviceOfAppend(s.log, AdviceEntry(cfg, s, id, s.phase.stage.latest, s.phase.stage.text));
    }
  }

  lemma WriteKeepsAdvice(cfg: Config, s: State, id: Uuid)
    requires Inv(cfg, s) && AdviceOk(cfg, s) && s.phase.Advising? && s.phase.stage.Writing?
    ensures AdviceOk(cfg, WriteAdvice(cfg, s, id))
  {
    WrittenIsNovel(cfg, s, id);
    if WriteAdvice(cfg, s, id).log != s.log {
      WrittenIsSpaced(cfg, s, id);
    } else {
      SameBoardKeepsAdvice(cfg, s, WriteAdvice(cfg, s, id));
    }
  }

  lemma SpacedAppend(cfg: Config, s: State, s1: State, e: Entry)
    requires AdviceOf(s1.log) == AdviceOf(s.log) + [e] && Spaced(cfg, s)
    requires forall n :: Bypassed(s, n) ==> Bypassed(s1, n)
    requires var a := AdviceOf(s.log);
             a == [] || e.createdAt - a[|a| - 1].createdAt >= cfg.adviceInterval || Bypassed(s1, e.seqNo)
    ensures Spaced(cfg, s1)
  {
  }

  lemma WriteKeepsBypassed(cfg: Config, s: State, id: Uuid, n: nat)
    requires s.phase.Advising? && s.phase.stage.Writing? && GroundsOk(s) && Bypassed(s, n)
    ensures Bypassed(WriteAdvice(cfg, s, id), n)
  {
    BypassedStays(s, WriteAdvice(cfg, s, id), n);
  }

  lemma WrittenIsSpaced(cfg: Config, s: State, id: Uuid)
    requires Inv(cfg, s) && Spaced(cfg, s) && GroundsOk(s) && s.phase.Advising? && s.phase.stage.Writing?
    requires var st := s.phase.stage; JudgedOk(cfg, s, st.text, st.last, st.entries, st.judgedAt)
    requires WriteAdvice(cfg, s, id).log != s.log
    ensures Spaced(cfg, WriteAdvice(cfg, s, id))
  {
    var s1, st := WriteAdvice(cfg, s, id), s.phase.stage;
    var e := AdviceEntry(cfg, s, id, st.latest, st.text);
    AdviceOfAppend(s.log, e);
    forall n | Bypassed(s, n) ensures Bypassed(s1, n) {
      WriteKeepsBypassed(cfg, s, id, n);
    }
    if Bypasses(Delta(st.entries, st.last)) {
      WrittenIsGrounded(cfg, s, id);
    }
    SpacedAppend(cfg, s, s1, e);
  }

  lemma WrittenIsGrounded(cfg: Config, s: State, id: Uuid)
    requires Inv(cfg, s) && s.phase.Advising? && s.phase.stage.Writing?
    requires Bypasses(Delta(s.phase.stage.entries, s.phase.stage.last)) && WriteAdvice(cfg, s, id).log != s.log
    ensures Bypassed(WriteAdvice(cfg, s, id), |s.log| + 1)
  {
    var s1, st := WriteAdvice(cfg, s, id), s.phase.stage;
    DeltaBypass(st.entries, st.last);
    var i :| st.last <= i < |st.entries| && st.entries[i].kind in {UserPrompt, Finding};
    assert s1.log[i] == st.entries[i];
  }

  /** The steps that change neither the log nor what a pass knows about it. */
  lemma SameBoardKeepsAdvice(cfg: Config, s: State, s1: State)
    requires AdviceOk(cfg, s) && s1.log == s.log && s1.grounds == s.grounds && AdviceStageOk(cfg, s1)
    ensures AdviceOk(cfg, s1)
  {
    assert forall n :: Bypassed(s, n) ==> Bypassed(s1, n);
  }

  lemma ProgressKeepsStage(cfg: Config, s: State, event: Event)
    requires Inv(cfg, s) && AdviceStageOk(cfg, s) && |s.log| <= SYNC_LIMIT && s.phase.Advising?
    requires !event.Judge? && !event.Write?
    ensures var s1 := Progress(cfg, s, event); AdviceStageOk(cfg, s1) && s1.log == s.log && s1.grounds == s.grounds
  {
  }

  lemma QuietStepKeepsStage(cfg: Config, s: State, event: Event)
    requires Inv(cfg, s) && AdviceStageOk(cfg, s) && |s.log| <= SYNC_LIMIT
    requires !event.Publish? && !event.Judge? && !event.Write?
    ensures var s1 := Next(cfg, s, event); AdviceStageOk(cfg, s1) && s1.log == s.log && s1.grounds == s.grounds
  {
    if event.Tick? || event.Changed? || event.Turn? || event.Wake? || event.Timeout? {
      LoopStepKeepsStage(cfg, s, event);
    } else if event.TaskRead? || event.Raise? || event.Cancel? {
    } else if s.phase.Advising? {
      ProgressKeepsStage(cfg, s, event);
    }
  }

  lemma LoopStepKeepsStage(cfg: Config, s: State, event: Event)
    requires AdviceStageOk(cfg, s) && (event.Tick? || event.Changed? || event.Turn? || event.Wake? || event.Timeout?)
    ensures var s1 := Next(cfg, s, event); AdviceStageOk(cfg, s1) && s1.log == s.log && s1.grounds == s.grounds
  {
  }

  lemma NextKeepsAdvice(cfg: Config, s: State, event: Event)
    requires Inv(cfg, s) && AdviceOk(cfg, s) && |s.log| <= SYNC_LIMIT
    ensures AdviceOk(cfg, Next(cfg, s, event))
  {
    if event.Publish? {
      if Foreign(s, event.entry) {
        ForeignKeepsAdvice(cfg, s, event.entry);
      }
    } else if event.Judge? {
      if s.phase.Advising? && s.phase.stage.Judging? {
        JudgeKeepsAdvice(cfg, s);
      }
    } else if event.Write? {
      if s.phase.Advising? && s.phase.stage.Writing? {
        WriteKeepsAdvice(cfg, s, event.id);
      }
    } else {
      QuietStepKeepsStage(cfg, s, event);
      SameBoardKeepsAdvice(cfg, s, Next(cfg, s, event));
    }
  }

  /** Over whole runs, cancels and failures included: advice is spaced by the configured interval unless based on a new
      prompt or finding, and never similar to one of the twenty advices before it. */
  lemma {:induction false} AdviceSpacedAndNovel(cfg: Config, s: State, events: seq<Event>)
    requires Inv(cfg, s) && AdviceOk(cfg, s) && |Run(cfg, s, events).log| <= SYNC_LIMIT
    ensures AdviceOk(cfg, Run(cfg, s, events))
    decreases |events|
  {
    if events != [] {
      RunLogGrows(cfg, s, events);
      NextKeepsInv(cfg, s, events[0]);
      NextKeepsAdvice(cfg, s, events[0]);
      AdviceSpacedAndNovel(cfg, Next(cfg, s, events[0]), events[1..]);
    }
  }

  /* ---- from the start of a run ---- */

  lemma NoAdviceYet(log: seq<Entry>)
    requires forall i :: 0 <= i < |log| ==> log[i].kind != SupervisorAdvice
    ensures AdviceOf(log) == []
  {
    if log != [] {
      NoAdviceYet(log[..|log| - 1]);
    }
  }

  /** Every run that starts on a board without advice keeps its advice spaced and novel, and every entry reaches the reads of
      a pass, as long as the board fits the sync limit and (for the last) no read fails. SupervisorDecision says which
      entries reach a decision. */
  lemma RunIsSound(cfg: Config, now: int, log: seq<Entry>, events: seq<Event>)
    requires Startable(now, log) && forall i :: 0 <= i < |log| ==> log[i].kind != SupervisorAdvice
    requires |Run(cfg, Initial(now, log), events).log| <= SYNC_LIMIT
    ensures var s := Run(cfg, Initial(now, log), events);
      && Spaced(cfg, s)
      && Novel(cfg, s.log)
      && ((forall i :: 0 <= i < |events| ==> events[i] != FailSync) ==> Delivered(s))
      && ((forall i :: 0 <= i < |events| ==> events[i] != FailSync && events[i] != Raise) ==> DeliveredOnce(s))
  {
    var s0 := Initial(now, log);
    InitialInv(cfg, now, log);
    NoAdviceYet(log);
    AdviceSpacedAndNovel(cfg, s0, events);
    if forall i :: 0 <= i < |events| ==> events[i] != FailSync {
      EveryEntryReachesAPass(cfg, s0, events);
    }
    if forall i :: 0 <= i < |events| ==> events[i] != FailSync && events[i] != Raise {
      EveryEntryReachesOnePass(cfg, s0, events);
    }
  }
}
