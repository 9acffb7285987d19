/** Which entries reached a pass that decided on them: being read is not enough when the model then fails. */
module SupervisorDecision {
  import opened Domain
  import opened Board
  import opened BoardTheorems
  import opened Supervisor
  import opened SupervisorInvariant
  import opened SupervisorLiveness
  import opened SupervisorAdvice

  /** The board number up to which passes have decided: that of the pass in flight once its model has returned, else the
      reviewed one. */
  function DecidedUpTo(s: State): nat {
    if !s.phase.Advising? then s.last
    else
      match s.phase.stage
      case Judging(_, latest, _, _) => latest
      case Writing(_, latest, _, _, _) => latest
      case Asking(latest) => latest
      case _ => s.last
  }

  /** Every entry up to there that is not advice was among the new entries of a pass that decided. */
  ghost predicate Decided(s: State) {
    DecidedUpTo(s) <= |s.log|
    && forall i :: 0 <= i < DecidedUpTo(s) && s.log[i].kind != SupervisorAdvice ==> InSome(s.decided, s.log[i])
  }

  /** And, as long as both reads of every pass saw the same board, once and in log order. */
  ghost predicate DecidedOnce(s: State) {
    DecidedUpTo(s) <= |s.log| && (s.torn || Concat(s.decided) == NonAdvice(s.log[..DecidedUpTo(s)]))
  }

  /** What the model is thinking about is the log up to the number its pass has read. */
  ghost predicate ThinksOnAll(s: State) {
    s.phase.Advising? && s.phase.stage.Thinking? && !s.torn ==>
      |s.phase.stage.entries| == s.phase.stage.latest
  }

  predicate InThought(s: State) {
    s.phase.Advising? && s.phase.stage.Thinking?
  }

  lemma ReadLimits(cfg: Config, s: State)
    requires Inv(cfg, s) && InThought(s) && |s.log| <= SYNC_LIMIT
    ensures var st := s.phase.stage;
      st.last == s.last <= st.latest <= |st.entries| && st.entries <= s.log && Gapless(st.entries) && DecidedUpTo(s) == s.last
  {
  }

  /** A decision on everything read reaches what lies between the reviewed number and the one its pass has read. */
  lemma DecisionReaches(s: State, s1: State, entries: seq<Entry>, last: nat)
    requires Gapless(entries) && last <= DecidedUpTo(s1) <= |entries| && entries <= s.log && DecidedUpTo(s) == last && Decided(s)
    requires s1.log == s.log && s1.decided == s.decided + [Delta(entries, last)]
    ensures Decided(s1)
  {
    DeltaIsSuffix(entries, last);
    NonAdviceMembers(entries[last..]);
    forall i | 0 <= i < DecidedUpTo(s1) && s1.log[i].kind != SupervisorAdvice ensures InSome(s1.decided, s1.log[i]) {
      if i < last {
        var k :| 0 <= k < |s.decided| && s.log[i] in s.decided[k];
        assert s1.decided[k] == s.decided[k];
      } else {
        assert entries[last..][i - last] == s.log[i];
        assert s1.decided[|s.decided|] == Delta(entries, last);
      }
    }
  }

  lemma DecideDelivers(cfg: Config, s: State, advice: Option<string>)
    requires Inv(cfg, s) && Decided(s) && InThought(s) && |s.log| <= SYNC_LIMIT
    ensures Decided(Next(cfg, s, Decide(advice)))
  {
    ReadLimits(cfg, s);
    DecisionReaches(s, Next(cfg, s, Decide(advice)), s.phase.stage.entries, s.phase.stage.last);
  }

  lemma DecisionContinues(s: State, s1: State, entries: seq<Entry>, last: nat)
    requires Gapless(entries) && last <= |entries| && entries <= s.log && DecidedUpTo(s) == last && DecidedOnce(s) && !s.torn
    requires s1.log == s.log && s1.decided == s.decided + [Delta(entries, last)] && DecidedUpTo(s1) == |entries|
    ensures DecidedOnce(s1)
  {
    assert entries == s.log[..|entries|] && entries[..last] == s.log[..last];
    DeltaContinues(entries, s.decided, last);
  }

  lemma DecideDeliversOnce(cfg: Config, s: State, advice: Option<string>)
    requires Inv(cfg, s) && DecidedOnce(s) && ThinksOnAll(s) && InThought(s) && |s.log| <= SYNC_LIMIT
    ensures DecidedOnce(Next(cfg, s, Decide(advice)))
  {
    ReadLimits(cfg, s);
    if !s.torn {
      DecisionContinues(s, Next(cfg, s, Decide(advice)), s.phase.stage.entries, s.phase.stage.last);
    }
  }

  /** The steps other than a decision leave the decided entries and where they reach. */
  ghost predicate SameDecisions(s: State, s1: State) {
    s1.decided == s.decided && DecidedUpTo(s1) == DecidedUpTo(s) && (s.torn ==> s1.torn)
  }

  lemma ProgressKeepsDecisions(cfg: Config, s: State, event: Event)
    requires s.phase.Advising? && !event.FailSync? && !event.FailModel? && !(event.Decide? && InThought(s))
    requires !s.phase.stage.Failing?
    ensures SameDecisions(s, Progress(cfg, s, event))
  {
    match s.phase.stage
    case Asking(latest) => assert event.Answered? ==> !ReturnFrom(s.(last := latest), latest).phase.Advising?;
    case Returning(processed) => assert event.Answered? ==> !ReturnFrom(s, processed).phase.Advising?;
    case _ =>
  }

  /** No pass has failed: none is on its way out of the handler. */
  predicate NotFailing(s: State) {
    s.phase.Advising? ==> !s.phase.stage.Failing?
  }

  lemma StepKeepsDecisions(cfg: Config, s: State, event: Event)
    requires NotFailing(s) && !event.FailSync? && !event.FailModel? && !event.Raise? && !event.Cancel?
    requires !(event.Decide? && InThought(s))
    ensures SameDecisions(s, Next(cfg, s, event))
  {
    match event
    case Tick(_) =>
    case Publish(_) =>
    case Changed(_) =>
    case Turn =>
    case Wake =>
    case Timeout =>
    case TaskRead(_) =>
    case _ =>
      if s.phase.Advising? {
        ProgressKeepsDecisions(cfg, s, event);
      }
  }

  lemma ProgressDoesNotFail(cfg: Config, s: State, event: Event)
    requires s.phase.Advising? && !s.phase.stage.Failing? && !event.FailSync? && !event.FailModel?
    ensures NotFailing(Progress(cfg, s, event))
  {
  }

  lemma StepDoesNotFail(cfg: Config, s: State, event: Event)
    requires NotFailing(s) && !event.FailSync? && !event.FailModel?
    ensures NotFailing(Next(cfg, s, event))
  {
    match event
    case Tick(_) =>
    case Publish(_) =>
    case Changed(_) =>
    case Turn =>
    case Wake =>
    case Timeout =>
    case TaskRead(_) =>
    case Raise =>
    case Cancel =>
    case _ =>
      if s.phase.Advising? {
        ProgressDoesNotFail(cfg, s, event);
      }
  }

  lemma NextDecides(cfg: Config, s: State, event: Event)
    requires Inv(cfg, s) && Decided(s) && NotFailing(s) && |s.log| <= SYNC_LIMIT && !event.FailSync? && !event.FailModel?
    ensures Decided(Next(cfg, s, event)) && NotFailing(Next(cfg, s, event))
  {
    StepDoesNotFail(cfg, s, event);
    if event.Decide? && InThought(s) {
      DecideDelivers(cfg, s, event.advice);
    } else if event.Raise? {
      assert DecidedUpTo(Next(cfg, s, event)) <= DecidedUpTo(s) by {
        LastIsDecided(cfg, s);
      }
    } else if !event.Cancel? {
      StepKeepsDecisions(cfg, s, event);
      GrownLogKeepsDecided(cfg, s, event);
    }
  }

  lemma LastIsDecided(cfg: Config, s: State)
    requires Inv(cfg, s)
    ensures s.last <= DecidedUpTo(s)
  {
  }

  lemma GrownLogKeepsDecided(cfg: Config, s: State, event: Event)
    requires Decided(s) && SameDecisions(s, Next(cfg, s, event))
    ensures Decided(Next(cfg, s, event))
  {
    LogGrows(cfg, s, event);
    var s1 := Next(cfg, s, event);
    forall i | 0 <= i < DecidedUpTo(s1) && s1.log[i].kind != SupervisorAdvice ensures InSome(s1.decided, s1.log[i]) {
      assert s1.log[i] == s.log[i];
    }
  }

  lemma ProgressKeepsThinking(cfg: Config, s: State, event: Event)
    requires Inv(cfg, s) && ThinksOnAll(s) && s.phase.Advising? && |s.log| <= SYNC_LIMIT
    ensures ThinksOnAll(Progress(cfg, s, event))
  {
  }

  lemma NextKeepsThinking(cfg: Config, s: State, event: Event)
    requires Inv(cfg, s) && ThinksOnAll(s) && |s.log| <= SYNC_LIMIT
    ensures ThinksOnAll(Next(cfg, s, event))
  {
    match event
    case Tick(_) =>
    case Publish(_) =>
    case Changed(_) =>
    case Turn =>
    case Wake =>
    case Timeout =>
    case TaskRead(_) =>
    case Raise =>
    case Cancel =>
    case _ =>
      if s.phase.Advising? {
        ProgressKeepsThinking(cfg, s, event);
      }
  }

  lemma NextDecidesOnce(cfg: Config, s: State, event: Event)
    requires Inv(cfg, s) && DecidedOnce(s) && ThinksOnAll(s) && NotFailing(s) && |s.log| <= SYNC_LIMIT
    requires !event.FailSync? && !event.FailModel? && !event.Raise?
    ensures DecidedOnce(Next(cfg, s, event))
  {
    if event.Decide? && InThought(s) {
      DecideDeliversOnce(cfg, s, event.advice);
    } else if !event.Cancel? {
      StepKeepsDecisions(cfg, s, event);
      LogGrows(cfg, s, event);
      assert Next(cfg, s, event).log[..DecidedUpTo(s)] == s.log[..DecidedUpTo(s)];
    }
  }

  predicate NoFailure(event: Event) {
    !event.FailSync? && !event.FailModel?
  }

  /** While the board fits the sync limit and no read and no model call fails, every entry up to the reviewed number that is not
      advice was among the new entries of a pass that decided, in every interleaving. */
  lemma {:induction false} EveryEntryIsDecided(cfg: Config, s: State, events: seq<Event>)
    requires Inv(cfg, s) && Decided(s) && NotFailing(s) && |Run(cfg, s, events).log| <= SYNC_LIMIT
    requires forall i :: 0 <= i < |events| ==> NoFailure(events[i])
    ensures Decided(Run(cfg, s, events))
    decreases |events|
  {
    if events != [] {
      RunLogGrows(cfg, s, events);
      NextKeepsInv(cfg, s, events[0]);
      NextDecides(cfg, s, events[0]);
      EveryEntryIsDecided(cfg, Next(cfg, s, events[0]), events[1..]);
    }
  }

  /** If besides no pass dies of an exception: exactly once and in order, when both reads of every pass saw the same board. */
  lemma {:induction false} EveryEntryIsDecidedOnce(cfg: Config, s: State, events: seq<Event>)
    requires Inv(cfg, s) && DecidedOnce(s) && ThinksOnAll(s) && NotFailing(s) && |Run(cfg, s, events).log| <= SYNC_LIMIT
    requires forall i :: 0 <= i < |events| ==> NoFailure(events[i]) && !events[i].Raise?
    ensures DecidedOnce(Run(cfg, s, events)) && ThinksOnAll(Run(cfg, s, events))
    decreases |events|
  {
    if events != [] {
      RunLogGrows(cfg, s, events);
      NextKeepsInv(cfg, s, events[0]);
      NextDecidesOnce(cfg, s, events[0]);
      NextKeepsThinking(cfg, s, events[0]);
      StepDoesNotFail(cfg, s, events[0]);
      EveryEntryIsDecidedOnce(cfg, Next(cfg, s, events[0]), events[1..]);
    }
  }

  /** The same from the start of a run. */
  lemma RunIsDecided(cfg: Config, now: int, log: seq<Entry>, events: seq<Event>)
    requires Startable(now, log) && |Run(cfg, Initial(now, log), events).log| <= SYNC_LIMIT
    requires forall i :: 0 <= i < |events| ==> NoFailure(events[i])
    ensures var s := Run(cfg, Initial(now, log), events);
      Decided(s) && ((forall i :: 0 <= i < |events| ==> !events[i].Raise?) ==> DecidedOnce(s))
  {
    InitialInv(cfg, now, log);
    EveryEntryIsDecided(cfg, Initial(now, log), events);
    if forall i :: 0 <= i < |events| ==> !events[i].Raise? {
      EveryEntryIsDecidedOnce(cfg, Initial(now, log), events);
    }
  }

  /** A pass that failed, in a read or in the model, leaves its batch reviewed although nobody decided on it: decisions stay
      complete exactly when that was all advice. */
  lemma FailedPassSkipsIff(cfg: Config, s: State)
    requires Inv(cfg, s) && DecidedOnce(s) && !s.torn && s.phase.Advising? && s.phase.stage.Failing?
    ensures DecidedOnce(Next(cfg, s, Answered))
       <==> forall i :: s.last <= i < s.phase.stage.processed ==> s.log[i].kind == SupervisorAdvice
  {
    var processed := s.phase.stage.processed;
    var s1 := Next(cfg, s, Answered);
    assert s1.log == s.log && s1.decided == s.decided && s1.torn == s.torn && DecidedUpTo(s1) == processed;
    assert DecidedUpTo(s) == s.last <= processed <= |s.log|;
    SkippedIff(s.log, s.last, processed);
  }

  /** For a model call: the batch is what the pass has read. */
  lemma FailedModelSkipsIff(cfg: Config, s: State)
    requires Inv(cfg, s) && DecidedOnce(s) && !s.torn && InThought(s)
    ensures DecidedOnce(Next(cfg, Next(cfg, s, FailModel), Answered))
       <==> forall i :: s.last <= i < s.phase.stage.latest ==> s.log[i].kind == SupervisorAdvice
  {
    NextKeepsInv(cfg, s, FailModel);
    FailedPassSkipsIff(cfg, Next(cfg, s, FailModel));
  }

  /** A concrete run: a finding is noted and read, the model call fails, and the finding counts as reviewed undecided. */
  lemma FailedModelSkipsFinding(cfg: Config, finding: Entry)
    requires finding.kind == Finding && finding.seqNo == 1
    ensures var s := Run(cfg, Run(cfg, Initial(1, [finding]), [Changed(1), Turn]),
                         [TaskRead(Running), Prepared, TaskSynced, EntriesRead, FailModel]);
            var s1 := Next(cfg, s, Answered);
      s1.last == 1 && !Decided(s1) && !DecidedOnce(s1)
  {
    FindingTaken(cfg, finding);
    var s := Run(cfg, Initial(1, [finding]), [Changed(1), Turn]);
    RunFive(cfg, s, TaskRead(Running), Prepared, TaskSynced, EntriesRead, FailModel);
    FailedModelPath(cfg, s, finding);
    UndecidedFinding(Next(cfg, Run(cfg, s, [TaskRead(Running), Prepared, TaskSynced, EntriesRead, FailModel]), Answered), finding);
  }

  lemma FailedModelPath(cfg: Config, s: State, finding: Entry)
    requires s.phase == Advising(1, false, Entered) && s.last == 0 && s.log == [finding] && s.decided == [] && !s.torn
    ensures var s1 := Next(cfg, Next(cfg, Next(cfg, Next(cfg, Next(cfg, s, TaskRead(Running)), Prepared), TaskSynced), EntriesRead), FailModel);
            var s2 := Next(cfg, s1, Answered);
      s2.last == 1 && DecidedUpTo(s2) == 1 && s2.log == [finding] && s2.decided == [] && !s2.torn
  {
    var s1 := Next(cfg, s, TaskRead(Running));
    assert s1 == s.(phase := Advising(1, false, Preparing(0)));
    var s2 := Next(cfg, s1, Prepared);
    assert s2 == s.(phase := Advising(1, false, SyncTask(0)));
    var s3 := Next(cfg, s2, TaskSynced);
    assert s3 == s.(phase := Advising(1, false, SyncEntries(0, 1)));
    var s4 := Next(cfg, s3, EntriesRead);
    assert s4.phase == Advising(1, false, Thinking(0, 1, [finding])) && s4.last == 0 && s4.log == [finding] && !s4.torn;
    var s5 := Next(cfg, s4, FailModel);
    assert s5.phase == Advising(1, false, Failing(1));
  }

  lemma UndecidedFinding(s: State, finding: Entry)
    requires finding.kind == Finding && s.log == [finding] && s.decided == [] && !s.torn && DecidedUpTo(s) == 1
    ensures !Decided(s) && !DecidedOnce(s)
  {
    assert s.log[0] == finding && !InSome(s.decided, s.log[0]);
    NonAdviceMembers(s.log[..1]);
    assert finding in s.log[..1];
  }
}
