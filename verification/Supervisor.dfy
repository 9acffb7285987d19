/** The supervisor of one task: what Automation.changed notes, when _supervise starts a pass and what _advise does
    (tga3/src/tga3/host_agents.py). Each event is the code between two suspension points. */
module Supervisor {
  import opened Domain
  import opened Board
  import opened BoardTheorems

  /** How many entries Blackboard.sync returns when the caller names no limit. */
  const SYNC_LIMIT := 500

  /** How many recent advice entries new advice is compared with. */
  const RECENT_ADVICE := 20

  /** The cadence settings, in clock units, and the two library functions the advice gate calls. */
  datatype Config = Config(
    debounce: nat, intelMaxWait: nat, silence: nat, adviceInterval: nat,
    similar: (string, string) -> bool, adviceKey: (nat, string) -> string)

  /* ---- _SupervisorPending ---- */

  datatype Pending = Pending(
    latestSeq: nat, firstIntelAt: Option<int>, lastChangeAt: int, immediate: bool, event: bool)

  const NOTHING_PENDING := Pending(0, None, 0, false, false)

  datatype Change = StartReport | Ignore | Review

  /** What changed() does with the entry it was notified about. */
  function Classify(e: Entry): Change {
    if e.kind == FinalCandidate then StartReport
    else if e.kind == SupervisorAdvice || (e.kind == UserPrompt && e.topic == "scene") then Ignore
    else Review
  }

  /** A reviewable entry is noted; a first-intel time of zero counts as unset, as in the source. */
  function Note(p: Pending, seqNo: nat, kind: EntryKind, now: int): Pending {
    Pending(
      Max(p.latestSeq, seqNo),
      if kind == Intel then (if p.firstIntelAt.Some? && p.firstIntelAt.value != 0 then p.firstIntelAt else Some(now)) else p.firstIntelAt,
      now,
      p.immediate || kind in {Finding, QA},
      true)
  }

  function Cleared(p: Pending): Pending {
    p.(latestSeq := 0, firstIntelAt := None, immediate := false)
  }

  /** When the batch is due: at once, after a quiet interval, or when its first Intel has waited long enough. */
  function ReadyAt(cfg: Config, p: Pending, now: int): int {
    if p.immediate then now
    else
      var quiet := p.lastChangeAt + cfg.debounce;
      if p.firstIntelAt.Some? then Min(quiet, p.firstIntelAt.value + cfg.intelMaxWait) else quiet
  }

  /** After a pass that processed everything up to a sequence number. */
  function AfterPass(p: Pending, processed: nat): Pending {
    if p.latestSeq != 0 && p.latestSeq <= processed then Cleared(p) else p
  }

  /* ---- what _advise reads ---- */

  function AdviceOf(log: seq<Entry>): seq<Entry> {
    if log == [] then []
    else
      var init := AdviceOf(log[..|log| - 1]);
      if log[|log| - 1].kind == SupervisorAdvice then init + [log[|log| - 1]] else init
  }

  function NonAdvice(log: seq<Entry>): seq<Entry> {
    if log == [] then []
    else
      var init := NonAdvice(log[..|log| - 1]);
      if log[|log| - 1].kind == SupervisorAdvice then init else init + [log[|log| - 1]]
  }

  function After(log: seq<Entry>, seqNo: nat): seq<Entry> {
    Filtered(log, seqNo, None)
  }

  /** The new entries of a pass: everything it read beyond the last reviewed number, except advice. */
  function Delta(entries: seq<Entry>, last: nat): seq<Entry> {
    NonAdvice(After(entries, last))
  }

  function LastOf<T>(s: seq<T>, n: nat): seq<T> {
    if |s| <= n then s else s[|s| - n..]
  }

  function AdviceText(e: Entry): string {
    if e.body.AdviceBody? then e.body.advice else ""
  }

  predicate Bypasses(delta: seq<Entry>) {
    exists i :: 0 <= i < |delta| && delta[i].kind in {UserPrompt, Finding}
  }

  /** _advice_suppression: repeated advice never, early advice only for a prompt or a finding. */
  predicate Suppressed(cfg: Config, advice: string, recent: seq<Entry>, bypass: bool, now: int) {
    || (exists i :: 0 <= i < |recent| && cfg.similar(advice, AdviceText(recent[i])))
    || (!bypass && recent != [] && now - recent[|recent| - 1].createdAt < cfg.adviceInterval)
  }

  /* ---- the machine ---- */

  /** Where a pass is suspended. last: the reviewed number it started from; latest: the board's number it read. */
  datatype Stage =
    | Entered
    | Preparing(last: nat)
    | SyncTask(last: nat)
    | SyncEntries(last: nat, latest: nat)
    | Thinking(last: nat, latest: nat, entries: seq<Entry>)
    | Judging(last: nat, latest: nat, entries: seq<Entry>, advice: Option<string>)
    | Writing(last: nat, latest: nat, entries: seq<Entry>, text: string, judgedAt: int)
    | Asking(latest: nat)
    | Failing(processed: nat)
    | Returning(processed: nat)

  datatype Phase =
    | Off
    | Head
    | SilenceWait(deadline: int)
    | SilenceCheck
    | DebounceWait(deadline: int)
    | Advising(trigger: nat, silent: bool, stage: Stage)

  /** changed() was called for a reviewable entry: its number and kind, and when. */
  datatype Noted = Noted(seqNo: nat, kind: EntryKind, at: int)

  /** A started pass: when it started and when the loop had last become free, the number reviewed by then, and its batch,
      which are the notes from..upTo. */
  datatype Start = Start(trigger: nat, at: int, freeAt: int, last: nat, from: nat, upTo: nat)

  /** now..last are the state of the source; the rest is its history since the last cancel (log, grounds, notes and starts
      since ever): what was noted, when the loop became free, what each pass took and read, and which part of the
      log each advice entry was based on. from: where the notes begin that neither a pass has taken nor its return
      has covered. torn: some pass saw the board grow between its two reads. decided: the new entries of the passes
      whose model returned a decision. */
  datatype State = State(
    now: int, log: seq<Entry>, pending: Pending, phase: Phase, last: nat,
    noted: set<nat>, notes: seq<Noted>, from: nat, freeAt: int, starts: seq<Start>,
    deltas: seq<seq<Entry>>, decided: seq<seq<Entry>>, torn: bool, grounds: map<nat, (nat, nat)>)

  datatype Event =
    | Tick(dt: nat)
    | Publish(entry: Entry)
    | Changed(seqNo: nat)
    | Turn
    | Wake
    | Timeout
    | TaskRead(state: RunState)
    | Prepared
    | TaskSynced
    | EntriesRead
    | Decide(advice: Option<string>)
    | FailSync
    | FailModel
    | Judge
    | Write(id: Uuid)
    | Answered
    | Raise
    | Cancel

  function Initial(now: int, log: seq<Entry>): State {
    State(now, log, NOTHING_PENDING, Off, 0, {}, [], 0, now, [], [], [], false, map[])
  }

  /** Timers are exact and a runnable loop runs: time does not pass a deadline or a set event. */
  predicate MayTick(s: State, dt: nat) {
    match s.phase
    case Head => false
    case SilenceWait(deadline) => !s.pending.event && s.now + dt <= deadline
    case DebounceWait(deadline) => !s.pending.event && s.now + dt <= deadline
    case _ => true
  }

  /** The role policy: no other agent writes supervisor advice. */
  predicate Foreign(s: State, e: Entry) {
    e.kind != SupervisorAdvice && e.seqNo == |s.log| + 1 && e.createdAt == s.now
  }

  function NoteChange(s: State, seqNo: nat): State
    requires 1 <= seqNo <= |s.log|
  {
    var kind := s.log[seqNo - 1].kind;
    var s1 := s.(
      pending := Note(s.pending, seqNo, kind, s.now),
      noted := s.noted + {seqNo},
      notes := s.notes + [Noted(seqNo, kind, s.now)]);
    if s.phase.Off? then s1.(phase := Head, freeAt := s.now) else s1
  }

  function StartPass(s: State): State {
    s.(phase := Advising(s.pending.latestSeq, false, Entered),
       pending := Cleared(s.pending),
       from := |s.notes|,
       starts := s.starts + [Start(s.pending.latestSeq, s.now, s.freeAt, s.last, s.from, |s.notes|)])
  }

  /** From the head of the loop to its next suspension. */
  function TurnHead(cfg: Config, s: State): State {
    if s.pending.latestSeq == 0 then
      s.(pending := s.pending.(event := false), phase := SilenceWait(s.now + cfg.silence))
    else if ReadyAt(cfg, s.pending, s.now) > s.now then
      s.(pending := s.pending.(event := false), phase := DebounceWait(ReadyAt(cfg, s.pending, s.now)))
    else StartPass(s)
  }

  /** _advise returned to the loop. */
  function ReturnFrom(s: State, processed: nat): State
    requires s.phase.Advising?
  {
    s.(phase := Head, freeAt := s.now,
       pending := if s.phase.silent then s.pending else AfterPass(s.pending, processed),
       from := if !s.phase.silent && forall i :: s.from <= i < |s.notes| ==> s.notes[i].seqNo <= processed then |s.notes| else s.from)
  }

  function At(s: State, stage: Stage): State
    requires s.phase.Advising?
  {
    s.(phase := s.phase.(stage := stage))
  }

  function ReadTask(s: State, state: RunState): State {
    match s.phase
    case SilenceCheck =>
      if Terminal(state) then s.(phase := Off)
      else if state == Running then s.(phase := Advising(|s.log|, true, Entered))
      else s.(phase := Head, freeAt := s.now)
    case Advising(trigger, silent, Entered) =>
      if Terminal(state) then ReturnFrom(s, |s.log|)
      else if trigger <= s.last && !silent then ReturnFrom(s, s.last)
      else At(s, Preparing(s.last))
    case _ => s
  }

  function ReadEntries(s: State): State
    requires s.phase.Advising? && s.phase.stage.SyncEntries?
  {
    var st, entries := s.phase.stage, Take(s.log, SYNC_LIMIT);
    At(s, Thinking(st.last, st.latest, entries))
      .(deltas := s.deltas + [Delta(entries, st.last)], torn := s.torn || |s.log| != st.latest)
  }

  function JudgeAdvice(cfg: Config, s: State): State
    requires s.phase.Advising? && s.phase.stage.Judging?
  {
    var st := s.phase.stage;
    var recent := LastOf(AdviceOf(st.entries), RECENT_ADVICE);
    if st.advice.None? || st.advice.value == ""
       || Suppressed(cfg, st.advice.value, recent, Bypasses(Delta(st.entries, st.last)), s.now)
    then At(s, Asking(st.latest))
    else At(s, Writing(st.last, st.latest, st.entries, st.advice.value, s.now))
  }

  const SUPERVISOR := Actor(SUPERVISOR_ID, Supervisor)

  function AdviceEntry(cfg: Config, s: State, id: Uuid, latest: nat, advice: string): Entry {
    Entry(id, 0, |s.log| + 1, SUPERVISOR, SupervisorAdvice, "advice", AdviceBody(advice, latest), cfg.adviceKey(latest, advice), s.now)
  }

  function WriteAdvice(cfg: Config, s: State, id: Uuid): State
    requires s.phase.Advising? && s.phase.stage.Writing?
  {
    var st := s.phase.stage;
    if FindKey(s.log, SUPERVISOR_ID, cfg.adviceKey(st.latest, st.text)).Some? then At(s, Asking(st.latest))
    else
      At(s, Asking(st.latest))
        .(log := s.log + [AdviceEntry(cfg, s, id, st.latest, st.text)],
          grounds := s.grounds[|s.log| + 1 := (st.last, |st.entries|)])
  }

  /** Events inside a pass after its early exits. */
  function Progress(cfg: Config, s: State, event: Event): State
    requires s.phase.Advising?
  {
    match s.phase.stage
    case Entered => s
    case Preparing(last) => if event.Prepared? then At(s, SyncTask(last)) else s
    case SyncTask(last) =>
      if event.TaskSynced? then At(s, SyncEntries(last, |s.log|))
      else if event.FailSync? then At(s, Failing(s.phase.trigger))
      else s
    case SyncEntries(_, _) =>
      if event.EntriesRead? then ReadEntries(s)
      else if event.FailSync? then At(s, Failing(s.phase.trigger))
      else s
    case Thinking(last, latest, entries) =>
      if event.Decide? then At(s, Judging(last, latest, entries, event.advice)).(decided := s.decided + [Delta(entries, last)])
      else if event.FailModel? then At(s, Failing(latest))
      else s
    case Judging(_, _, _, _) => if event.Judge? then JudgeAdvice(cfg, s) else s
    case Writing(_, _, _, _, _) => if event.Write? then WriteAdvice(cfg, s, event.id) else s
    case Asking(latest) => if event.Answered? then ReturnFrom(s.(last := latest), latest) else s
    case Failing(processed) => if event.Answered? then At(s, Returning(processed)).(last := processed) else s
    case Returning(processed) => if event.Answered? then ReturnFrom(s, processed) else s
  }

  /** One event; an event that is not possible in the state changes nothing. */
  function Next(cfg: Config, s: State, event: Event): State {
    match event
    case Tick(dt) => if MayTick(s, dt) then s.(now := s.now + dt) else s
    case Publish(e) => if Foreign(s, e) then s.(log := s.log + [e]) else s
    case Changed(seqNo) =>
      if 1 <= seqNo <= |s.log| && Classify(s.log[seqNo - 1]) == Review then NoteChange(s, seqNo) else s
    case Turn => if s.phase.Head? then TurnHead(cfg, s) else s
    case Wake => if (s.phase.SilenceWait? || s.phase.DebounceWait?) && s.pending.event then s.(phase := Head) else s
    case Timeout =>
      if s.phase.SilenceWait? && s.now >= s.phase.deadline then s.(phase := SilenceCheck)
      else if s.phase.DebounceWait? && s.now >= s.phase.deadline then StartPass(s)
      else s
    case TaskRead(state) => ReadTask(s, state)
    case Raise => if s.phase.Advising? || s.phase.SilenceCheck? then s.(phase := Off) else s
    case Cancel =>
      s.(phase := Off, pending := NOTHING_PENDING, last := 0, noted := {}, from := |s.notes|, deltas := [], decided := [], torn := false)
    case _ => if s.phase.Advising? then Progress(cfg, s, event) else s
  }

  function Run(cfg: Config, s: State, events: seq<Event>): State
    decreases |events|
  {
    if events == [] then s else Run(cfg, Next(cfg, s, events[0]), events[1..])
  }
}
