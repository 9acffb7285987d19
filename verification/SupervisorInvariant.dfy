/** What every step of the supervisor keeps. */
module SupervisorInvariant {
  import opened Domain
  import opened Board
  import opened BoardTheorems
  import opened Supervisor

  ghost predicate LogOk(s: State) {
    forall i :: 0 <= i < |s.log| ==> s.log[i].seqNo == i + 1 && s.log[i].createdAt <= s.now
  }

  ghost predicate PendingOk(s: State) {
    var p := s.pending;
    && p.latestSeq <= |s.log|
    && (p.latestSeq == 0 ==> p.firstIntelAt.None? && !p.immediate)
    && (p.firstIntelAt.Some? ==> 0 < p.firstIntelAt.value <= s.now)
    && p.lastChangeAt <= s.now
    && s.freeAt <= s.now
  }

  /** A pass past its early exits works on behalf of a trigger it has not reviewed yet. */
  ghost predicate StageOk(s: State, trigger: nat, silent: bool, stage: Stage) {
    match stage
    case Entered => silent ==> s.last <= trigger
    case Preparing(last) => last == s.last <= trigger
    case SyncTask(last) => last == s.last <= trigger
    case SyncEntries(last, latest) => last == s.last <= trigger <= latest <= |s.log|
    case Thinking(last, latest, entries) => ReadOk(s, trigger, last, latest, entries)
    case Judging(last, latest, entries, _) => ReadOk(s, trigger, last, latest, entries)
    case Writing(last, latest, entries, _, judgedAt) => ReadOk(s, trigger, last, latest, entries) && judgedAt <= s.now
    case Asking(latest) => s.last <= trigger <= latest <= |s.log|
    case Failing(processed) => s.last <= trigger <= processed <= |s.log|
    case Returning(processed) => trigger <= processed == s.last
  }

  ghost predicate ReadOk(s: State, trigger: nat, last: nat, latest: nat, entries: seq<Entry>) {
    && last == s.last <= trigger <= latest <= |s.log|
    && entries <= s.log
    && |entries| <= SYNC_LIMIT
    && (|entries| == SYNC_LIMIT || latest <= |entries|)
  }

  ghost predicate PhaseOk(cfg: Config, s: State) {
    match s.phase
    case SilenceWait(_) => !s.pending.event ==> s.pending.latestSeq == 0
    case DebounceWait(deadline) =>
      && s.pending.latestSeq != 0
      && (!s.pending.event ==> !s.pending.immediate && deadline == ReadyAt(cfg, s.pending, s.now))
      && (s.pending.event ==> s.pending.lastChangeAt == s.now)
    case Advising(trigger, silent, stage) => trigger <= |s.log| && StageOk(s, trigger, silent, stage)
    case _ => true
  }

  ghost predicate Inv(cfg: Config, s: State) {
    s.now > 0 && LogOk(s) && s.last <= |s.log| && PendingOk(s) && PhaseOk(cfg, s)
  }

  /** What a run starts from: a clock above zero and a gapless log of the past. */
  predicate Startable(now: int, log: seq<Entry>) {
    now > 0 && forall i :: 0 <= i < |log| ==> log[i].seqNo == i + 1 && log[i].createdAt <= now
  }

  lemma InitialInv(cfg: Config, now: int, log: seq<Entry>)
    requires Startable(now, log)
    ensures Inv(cfg, Initial(now, log))
  {
  }

  lemma PublishKeepsInv(cfg: Config, s: State, e: Entry)
    requires Inv(cfg, s)
    ensures Inv(cfg, Next(cfg, s, Publish(e)))
  {
  }

  lemma ChangedKeepsInv(cfg: Config, s: State, seqNo: nat)
    requires Inv(cfg, s)
    ensures Inv(cfg, Next(cfg, s, Changed(seqNo)))
  {
  }

  lemma ReturnKeepsInv(cfg: Config, s: State, processed: nat)
    requires s.now > 0 && LogOk(s) && s.last <= |s.log| && PendingOk(s) && s.phase.Advising?
    ensures Inv(cfg, ReturnFrom(s, processed))
  {
  }

  lemma LoopKeepsInv(cfg: Config, s: State, event: Event)
    requires Inv(cfg, s) && (event.Tick? || event.Turn? || event.Wake? || event.Timeout? || event.Raise? || event.Cancel?)
    ensures Inv(cfg, Next(cfg, s, event))
  {
  }

  lemma TaskReadKeepsInv(cfg: Config, s: State, state: RunState)
    requires Inv(cfg, s)
    ensures Inv(cfg, ReadTask(s, state))
  {
    if s.phase.Advising? && s.phase.stage.Entered? {
      ReturnKeepsInv(cfg, s, |s.log|);
      ReturnKeepsInv(cfg, s, s.last);
    }
  }

  lemma StageKeepsInv(cfg: Config, s: State, stage: Stage)
    requires Inv(cfg, s) && s.phase.Advising? && StageOk(s, s.phase.trigger, s.phase.silent, stage)
    ensures Inv(cfg, At(s, stage))
  {
  }

  lemma AskingKeepsInv(cfg: Config, s: State, e: Entry, grounds: map<nat, (nat, nat)>)
    requires Inv(cfg, s) && s.phase.Advising? && s.phase.stage.Asking? && e.seqNo == |s.log| + 1 && e.createdAt <= s.now
    ensures Inv(cfg, s.(log := s.log + [e], grounds := grounds))
  {
  }

  lemma WriteKeepsInv(cfg: Config, s: State, id: Uuid)
    requires Inv(cfg, s) && s.phase.Advising? && s.phase.stage.Writing?
    ensures Inv(cfg, WriteAdvice(cfg, s, id))
  {
    var st := s.phase.stage;
    StageKeepsInv(cfg, s, Asking(st.latest));
    AskingKeepsInv(cfg, At(s, Asking(st.latest)), AdviceEntry(cfg, s, id, st.latest, st.text),
                   s.grounds[|s.log| + 1 := (st.last, |st.entries|)]);
  }

  lemma ReadEntriesKeepsInv(cfg: Config, s: State)
    requires Inv(cfg, s) && s.phase.Advising? && s.phase.stage.SyncEntries?
    ensures Inv(cfg, ReadEntries(s))
  {
    var st := s.phase.stage;
    StageKeepsInv(cfg, s, Thinking(st.last, st.latest, Take(s.log, SYNC_LIMIT)));
  }

  lemma JudgeKeepsInv(cfg: Config, s: State)
    requires Inv(cfg, s) && s.phase.Advising? && s.phase.stage.Judging?
    ensures Inv(cfg, JudgeAdvice(cfg, s))
  {
    var st := s.phase.stage;
    StageKeepsInv(cfg, s, Asking(st.latest));
    if st.advice.Some? {
      StageKeepsInv(cfg, s, Writing(st.last, st.latest, st.entries, st.advice.value, s.now));
    }
  }

  predicate ReadingStage(stage: Stage) {
    stage.Entered? || stage.Preparing? || stage.SyncTask? || stage.SyncEntries? || stage.Thinking?
  }

  lemma ReadingKeepsInv(cfg: Config, s: State, event: Event)
    requires Inv(cfg, s) && s.phase.Advising? && ReadingStage(s.phase.stage)
    ensures Inv(cfg, Progress(cfg, s, event))
  {
    match s.phase.stage
    case Preparing(last) => StageKeepsInv(cfg, s, SyncTask(last));
    case SyncTask(last) =>
      StageKeepsInv(cfg, s, SyncEntries(last, |s.log|));
      StageKeepsInv(cfg, s, Failing(s.phase.trigger));
    case SyncEntries(_, _) =>
      ReadEntriesKeepsInv(cfg, s);
      StageKeepsInv(cfg, s, Failing(s.phase.trigger));
    case Thinking(last, latest, entries) =>
      if event.Decide? {
        StageKeepsInv(cfg, s, Judging(last, latest, entries, event.advice));
      }
      StageKeepsInv(cfg, s, Failing(latest));
    case _ =>
  }

  lemma ConcludingKeepsInv(cfg: Config, s: State, event: Event)
    requires Inv(cfg, s) && s.phase.Advising? && !ReadingStage(s.phase.stage)
    ensures Inv(cfg, Progress(cfg, s, event))
  {
    match s.phase.stage
    case Judging(_, _, _, _) => JudgeKeepsInv(cfg, s);
    case Writing(_, _, _, _, _) =>
      if event.Write? {
        WriteKeepsInv(cfg, s, event.id);
      }
    case Asking(latest) => ReturnKeepsInv(cfg, s.(last := latest), latest);
    case Failing(processed) =>
    case Returning(processed) => ReturnKeepsInv(cfg, s, processed);
  }

  lemma ProgressKeepsInv(cfg: Config, s: State, event: Event)
    requires Inv(cfg, s) && s.phase.Advising?
    ensures Inv(cfg, Progress(cfg, s, event))
  {
    if ReadingStage(s.phase.stage) {
      ReadingKeepsInv(cfg, s, event);
    } else {
      ConcludingKeepsInv(cfg, s, event);
    }
  }

  lemma NextKeepsInv(cfg: Config, s: State, event: Event)
    requires Inv(cfg, s)
    ensures Inv(cfg, Next(cfg, s, event))
  {
    match event
    case Publish(e) => PublishKeepsInv(cfg, s, e);
    case Changed(seqNo) => ChangedKeepsInv(cfg, s, seqNo);
    case TaskRead(state) => TaskReadKeepsInv(cfg, s, state);
    case Tick(_) => LoopKeepsInv(cfg, s, event);
    case Turn => LoopKeepsInv(cfg, s, event);
    case Wake => LoopKeepsInv(cfg, s, event);
    case Timeout => LoopKeepsInv(cfg, s, event);
    case Raise => LoopKeepsInv(cfg, s, event);
    case Cancel => LoopKeepsInv(cfg, s, event);
    case _ =>
      if s.phase.Advising? {
        ProgressKeepsInv(cfg, s, event);
      }
  }

  lemma {:induction false} RunKeepsInv(cfg: Config, s: State, events: seq<Event>)
    requires Inv(cfg, s)
    ensures Inv(cfg, Run(cfg, s, events))
    decreases |events|
  {
    if events != [] {
      NextKeepsInv(cfg, s, events[0]);
      RunKeepsInv(cfg, Next(cfg, s, events[0]), events[1..]);
    }
  }
}
