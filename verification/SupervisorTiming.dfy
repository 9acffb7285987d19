/** Passes start on time, measured against the history of what was noted when. */
module SupervisorTiming {
  import opened Domain
  import opened Board
  import opened BoardTheorems
  import opened Supervisor
  import opened SupervisorInvariant
  import opened SupervisorLiveness

  const URGENT: set<EntryKind> := {Finding, QA}

  /* ---- what the pending record knows of its batch ---- */

  function Highest(batch: seq<Noted>): nat {
    if batch == [] then 0 else Max(Highest(batch[..|batch| - 1]), batch[|batch| - 1].seqNo)
  }

  /** When the first entry of one of these kinds was noted. */
  function FirstOf(batch: seq<Noted>, kinds: set<EntryKind>): Option<int> {
    if batch == [] then None
    else
      var before := FirstOf(batch[..|batch| - 1], kinds);
      if before.Some? then before else if batch[|batch| - 1].kind in kinds then Some(batch[|batch| - 1].at) else None
  }

  ghost predicate Sorted(batch: seq<Noted>) {
    forall i, j :: 0 <= i < j < |batch| ==> batch[i].at <= batch[j].at
  }

  ghost predicate Tracks(p: Pending, batch: seq<Noted>) {
    && p.latestSeq == Highest(batch)
    && p.firstIntelAt == FirstOf(batch, {Intel})
    && (p.immediate <==> FirstOf(batch, URGENT).Some?)
    && (batch != [] ==> p.lastChangeAt == batch[|batch| - 1].at)
  }

  ghost predicate NoteTrue(s: State, x: Noted) {
    1 <= x.seqNo <= |s.log| && x.kind == s.log[x.seqNo - 1].kind && x.at <= s.now
  }

  /** The history is true: every note names an entry of the log, its kind and a time that has passed. */
  ghost predicate NotesTrue(s: State) {
    && Sorted(s.notes)
    && forall i :: 0 <= i < |s.notes| ==> NoteTrue(s, s.notes[i])
  }

  ghost predicate BatchOk(s: State) {
    s.from <= |s.notes| && Tracks(s.pending, s.notes[s.from..])
  }

  lemma {:induction false} HighestIs(batch: seq<Noted>, n: nat)
    ensures Highest(batch) <= n <==> forall i :: 0 <= i < |batch| ==> batch[i].seqNo <= n
  {
    if batch != [] {
      HighestIs(batch[..|batch| - 1], n);
    }
  }

  lemma {:induction false} HighestIsReached(batch: seq<Noted>)
    requires batch != []
    ensures exists i :: 0 <= i < |batch| && batch[i].seqNo == Highest(batch)
  {
    if |batch| > 1 && Highest(batch) != batch[|batch| - 1].seqNo {
      HighestIsReached(batch[..|batch| - 1]);
      var i :| 0 <= i < |batch| - 1 && batch[..|batch| - 1][i].seqNo == Highest(batch[..|batch| - 1]);
      assert batch[i].seqNo == Highest(batch);
    } else {
      assert Highest([]) == 0;
      assert batch[|batch| - 1].seqNo == Highest(batch);
    }
  }

  lemma {:induction false} FirstOfIsEarliest(batch: seq<Noted>, kinds: set<EntryKind>)
    requires Sorted(batch)
    ensures FirstOf(batch, kinds).None? ==> forall i :: 0 <= i < |batch| ==> batch[i].kind !in kinds
    ensures FirstOf(batch, kinds).Some? ==> exists i :: 0 <= i < |batch| && batch[i].kind in kinds && batch[i].at == FirstOf(batch, kinds).value
    ensures FirstOf(batch, kinds).Some? ==> forall i :: 0 <= i < |batch| && batch[i].kind in kinds ==> FirstOf(batch, kinds).value <= batch[i].at
  {
    if batch != [] {
      var init := batch[..|batch| - 1];
      FirstOfIsEarliest(init, kinds);
      if FirstOf(init, kinds).Some? {
        var i :| 0 <= i < |init| && init[i].kind in kinds && init[i].at == FirstOf(init, kinds).value;
        assert batch[i] == init[i];
      } else {
        assert forall i :: 0 <= i < |init| ==> init[i] == batch[i];
      }
    }
  }

  lemma NoteTracks(p: Pending, batch: seq<Noted>, x: Noted)
    requires Tracks(p, batch) && (p.firstIntelAt.Some? ==> p.firstIntelAt.value != 0)
    ensures Tracks(Note(p, x.seqNo, x.kind, x.at), batch + [x])
  {
    assert (batch + [x])[..|batch|] == batch;
  }

  lemma NotedIsTrue(s: State, s1: State, x: Noted)
    requires NotesTrue(s) && NoteTrue(s, x) && x.at == s.now && s1.notes == s.notes + [x] && s1.log == s.log && s1.now == s.now
    ensures NotesTrue(s1)
  {
  }

  lemma NotedIsTracked(s: State, s1: State, x: Noted)
    requires BatchOk(s) && (s.pending.firstIntelAt.Some? ==> s.pending.firstIntelAt.value != 0)
    requires s1.notes == s.notes + [x] && s1.from == s.from && s1.pending == Note(s.pending, x.seqNo, x.kind, x.at)
    ensures BatchOk(s1)
  {
    NoteTracks(s.pending, s.notes[s.from..], x);
    assert s1.notes[s1.from..] == s.notes[s.from..] + [x];
  }

  lemma ChangedTracks(cfg: Config, s: State, seqNo: nat)
    requires Inv(cfg, s) && NotesTrue(s) && BatchOk(s) && 1 <= seqNo <= |s.log|
    ensures NotesTrue(NoteChange(s, seqNo)) && BatchOk(NoteChange(s, seqNo))
  {
    var x := Noted(seqNo, s.log[seqNo - 1].kind, s.now);
    NotedIsTrue(s, NoteChange(s, seqNo), x);
    NotedIsTracked(s, NoteChange(s, seqNo), x);
  }

  /** A step that notes nothing: it leaves the batch alone, or lets go of all of it. */
  ghost predicate SameNotes(s: State, s1: State) {
    && s1.notes == s.notes && s.log <= s1.log && s.now <= s1.now
    && (|| (s1.from == s.from && s1.pending.(event := s.pending.event) == s.pending)
        || (s1.from == |s.notes| && s1.pending.latestSeq == 0 && s1.pending.firstIntelAt.None? && !s1.pending.immediate))
  }

  lemma SameNotesTrack(s: State, s1: State)
    requires NotesTrue(s) && BatchOk(s) && SameNotes(s, s1)
    ensures NotesTrue(s1) && BatchOk(s1)
  {
    assert s.notes[|s.notes|..] == [];
  }

  /** The pending record says when a return covers the whole batch. */
  lemma CoveredIff(s: State, processed: nat)
    requires NotesTrue(s) && BatchOk(s)
    ensures s.pending.latestSeq <= processed <==> forall i :: s.from <= i < |s.notes| ==> s.notes[i].seqNo <= processed
    ensures s.pending.latestSeq == 0 <==> s.from == |s.notes|
  {
    var batch := s.notes[s.from..];
    HighestIs(batch, processed);
    HighestIs(batch, 0);
    assert forall i :: s.from <= i < |s.notes| ==> batch[i - s.from] == s.notes[i];
    assert forall i :: 0 <= i < |batch| ==> batch[i] == s.notes[s.from + i];
    if batch != [] {
      assert batch[0] == s.notes[s.from];
    }
  }

  lemma ReturnSameNotes(s: State, processed: nat)
    requires s.phase.Advising? && s.from <= |s.notes| && Tracks(s.pending, s.notes[s.from..])
    requires s.pending.latestSeq <= processed <==> forall i :: s.from <= i < |s.notes| ==> s.notes[i].seqNo <= processed
    requires s.pending.latestSeq == 0 <==> s.from == |s.notes|
    ensures SameNotes(s, ReturnFrom(s, processed))
  {
  }

  lemma ReturnTracks(s: State, processed: nat)
    requires NotesTrue(s) && BatchOk(s) && s.phase.Advising?
    ensures SameNotes(s, ReturnFrom(s, processed))
  {
    CoveredIff(s, processed);
    ReturnSameNotes(s, processed);
  }

  lemma ProgressSameNotes(cfg: Config, s: State, event: Event)
    requires s.phase.Advising? && !s.phase.stage.Asking? && !s.phase.stage.Returning?
    ensures SameNotes(s, Progress(cfg, s, event))
  {
  }

  lemma AskingSameNotes(s: State, latest: nat)
    requires NotesTrue(s) && BatchOk(s) && s.phase.Advising?
    ensures SameNotes(s, ReturnFrom(s.(last := latest), latest))
  {
    ReturnTracks(s, latest);
    assert ReturnFrom(s.(last := latest), latest) == ReturnFrom(s, latest).(last := latest);
  }

  lemma ProgressTracks(cfg: Config, s: State, event: Event)
    requires NotesTrue(s) && BatchOk(s) && s.phase.Advising?
    ensures SameNotes(s, Progress(cfg, s, event))
  {
    match s.phase.stage
    case Asking(latest) => AskingSameNotes(s, latest);
    case Returning(processed) => ReturnTracks(s, processed);
    case _ => ProgressSameNotes(cfg, s, event);
  }

  lemma LoopTracks(cfg: Config, s: State, event: Event)
    requires event.Turn? || event.Timeout? || event.Tick? || event.Wake? || event.Publish? || event.Raise? || event.Cancel?
    ensures SameNotes(s, Next(cfg, s, event))
  {
  }

  lemma TaskReadTracks(s: State, state: RunState)
    requires NotesTrue(s) && BatchOk(s)
    ensures SameNotes(s, ReadTask(s, state))
  {
    if s.phase.Advising? && s.phase.stage.Entered? {
      ReturnTracks(s, |s.log|);
      ReturnTracks(s, s.last);
    }
  }

  /** Only a change adds to the notes. */
  lemma OthersTrack(cfg: Config, s: State, event: Event)
    requires NotesTrue(s) && BatchOk(s) && !event.Changed?
    ensures SameNotes(s, Next(cfg, s, event))
  {
    match event
    case Publish(_) => LoopTracks(cfg, s, event);
    case TaskRead(state) => TaskReadTracks(s, state);
    case Cancel => LoopTracks(cfg, s, event);
    case Raise => LoopTracks(cfg, s, event);
    case Tick(_) => LoopTracks(cfg, s, event);
    case Turn => LoopTracks(cfg, s, event);
    case Wake => LoopTracks(cfg, s, event);
    case Timeout => LoopTracks(cfg, s, event);
    case _ =>
      if s.phase.Advising? {
        ProgressTracks(cfg, s, event);
      }
  }

  lemma NextTracks(cfg: Config, s: State, event: Event)
    requires Inv(cfg, s) && NotesTrue(s) && BatchOk(s)
    ensures NotesTrue(Next(cfg, s, event)) && BatchOk(Next(cfg, s, event))
  {
    if event.Changed? {
      if 1 <= event.seqNo <= |s.log| {
        ChangedTracks(cfg, s, event.seqNo);
      }
    } else {
      OthersTrack(cfg, s, event);
      SameNotesTrack(s, Next(cfg, s, event));
    }
  }

  /* ---- the bounds ---- */

  /** An Intel waits no longer than intelMaxWait, a finding or an answer not at all, and anything no longer than one quiet
      interval after the last note; or else until the loop became free. */
  ghost predicate WithinBounds(cfg: Config, batch: seq<Noted>, at: int, freeAt: int) {
    && (forall i :: 0 <= i < |batch| && batch[i].kind == Intel ==> at <= Max(batch[i].at + cfg.intelMaxWait, freeAt))
    && (forall i :: 0 <= i < |batch| && batch[i].kind in URGENT ==> at <= Max(batch[i].at, freeAt))
    && (batch != [] ==> at <= Max(batch[|batch| - 1].at + cfg.debounce, freeAt))
  }

  /** There is a reason to start with this batch: an urgent note, a quiet interval, or an Intel that has waited its time. */
  ghost predicate Ripe(cfg: Config, batch: seq<Noted>, at: int) {
    batch != [] &&
    (|| (exists i :: 0 <= i < |batch| && batch[i].kind in URGENT)
     || at >= batch[|batch| - 1].at + cfg.debounce
     || (exists i :: 0 <= i < |batch| && batch[i].kind == Intel && at >= batch[i].at + cfg.intelMaxWait))
  }

  /** The batch was ripe with its first j notes, and the others came at that very instant. */
  ghost predicate RipeWith(cfg: Config, batch: seq<Noted>, j: nat, at: int) {
    j <= |batch| && Ripe(cfg, batch[..j], at) && forall i :: j <= i < |batch| ==> batch[i].at == at
  }

  function BatchOf(notes: seq<Noted>, p: Start): seq<Noted>
    requires p.from <= p.upTo <= |notes|
  {
    notes[p.from..p.upTo]
  }

  /** A started pass took the highest number of its batch, kept every bound and was not early. */
  ghost predicate OnTime(cfg: Config, notes: seq<Noted>, p: Start) {
    && p.from < p.upTo <= |notes|
    && (forall i :: p.from <= i < p.upTo ==> notes[i].seqNo <= p.trigger)
    && (exists i :: p.from <= i < p.upTo && notes[i].seqNo == p.trigger)
    && WithinBounds(cfg, BatchOf(notes, p), p.at, p.freeAt)
    && exists j: nat :: RipeWith(cfg, BatchOf(notes, p), j, p.at)
  }

  ghost predicate StartsOnTime(cfg: Config, s: State) {
    forall i :: 0 <= i < |s.starts| ==> OnTime(cfg, s.notes, s.starts[i])
  }

  predicate Waiting(s: State) {
    s.phase.Head? || s.phase.SilenceWait? || s.phase.DebounceWait?
  }

  /** While the loop is free, no batch has outwaited its bounds. */
  ghost predicate Timely(cfg: Config, s: State) {
    Waiting(s) && s.from <= |s.notes| ==> WithinBounds(cfg, s.notes[s.from..], s.now, s.freeAt)
  }

  /** The timer was set for a time at which the batch, as it was then, is ripe; what was noted since has set the event. */
  ghost predicate ArmedWith(cfg: Config, s: State, j: nat)
    requires s.phase.DebounceWait? && s.from <= |s.notes|
  {
    var batch := s.notes[s.from..];
    && j <= |batch| && Ripe(cfg, batch[..j], s.phase.deadline)
    && (forall i :: j <= i < |batch| ==> batch[i].at == s.now)
    && (j < |batch| ==> s.pending.event)
  }

  ghost predicate Armed(cfg: Config, s: State) {
    s.phase.DebounceWait? && s.from <= |s.notes| ==> exists j: nat :: ArmedWith(cfg, s, j)
  }

  /* the two ways of saying it, by the pending record and by the notes */

  /** What the pending record knows of the bounds. */
  ghost predicate PendingWithin(cfg: Config, p: Pending, urgentAt: Option<int>, at: int, freeAt: int) {
    && (p.firstIntelAt.Some? ==> at <= Max(p.firstIntelAt.value + cfg.intelMaxWait, freeAt))
    && (urgentAt.Some? ==> at <= Max(urgentAt.value, freeAt))
    && (p.latestSeq != 0 ==> at <= Max(p.lastChangeAt + cfg.debounce, freeAt))
  }

  lemma PendingSaysBounds(cfg: Config, p: Pending, batch: seq<Noted>, at: int, freeAt: int)
    requires Tracks(p, batch) && Sorted(batch) && forall i :: 0 <= i < |batch| ==> batch[i].seqNo > 0
    ensures WithinBounds(cfg, batch, at, freeAt) <==> PendingWithin(cfg, p, FirstOf(batch, URGENT), at, freeAt)
  {
    FirstOfIsEarliest(batch, {Intel});
    FirstOfIsEarliest(batch, URGENT);
    HighestIs(batch, 0);
    if batch != [] {
      assert batch[0].seqNo > 0;
    }
  }

  lemma PendingSaysRipe(cfg: Config, p: Pending, batch: seq<Noted>, now: int, at: int)
    requires Tracks(p, batch) && Sorted(batch) && batch != [] && (p.immediate || ReadyAt(cfg, p, now) <= at)
    ensures Ripe(cfg, batch, at)
  {
    FirstOfIsEarliest(batch, {Intel});
    FirstOfIsEarliest(batch, URGENT);
  }

  /* ---- no batch outwaits its bounds ---- */

  ghost predicate BatchWithin(cfg: Config, s: State) {
    s.from <= |s.notes| && (Waiting(s) ==> PendingWithin(cfg, s.pending, FirstOf(s.notes[s.from..], URGENT), s.now, s.freeAt))
  }

  lemma BatchNumbered(s: State)
    requires NotesTrue(s) && BatchOk(s)
    ensures Sorted(s.notes[s.from..]) && forall i :: 0 <= i < |s.notes[s.from..]| ==> s.notes[s.from..][i].seqNo > 0
  {
    assert forall i :: 0 <= i < |s.notes[s.from..]| ==> s.notes[s.from..][i] == s.notes[s.from + i];
  }

  lemma WithinIsTimely(cfg: Config, s: State)
    requires NotesTrue(s) && BatchOk(s)
    ensures BatchWithin(cfg, s) <==> Timely(cfg, s)
  {
    BatchNumbered(s);
    PendingSaysBounds(cfg, s.pending, s.notes[s.from..], s.now, s.freeAt);
  }

  lemma NotedWithin(cfg: Config, p: Pending, batch: seq<Noted>, x: Noted, freeAt: int)
    requires Tracks(p, batch) && (p.firstIntelAt.Some? ==> p.firstIntelAt.value != 0)
    requires PendingWithin(cfg, p, FirstOf(batch, URGENT), x.at, freeAt)
    ensures PendingWithin(cfg, Note(p, x.seqNo, x.kind, x.at), FirstOf(batch + [x], URGENT), x.at, freeAt)
  {
    assert (batch + [x])[..|batch|] == batch;
  }

  lemma ChangedWithin(cfg: Config, s: State, seqNo: nat)
    requires Inv(cfg, s) && BatchOk(s) && BatchWithin(cfg, s) && 1 <= seqNo <= |s.log|
    ensures BatchWithin(cfg, NoteChange(s, seqNo))
  {
    var batch, x := s.notes[s.from..], Noted(seqNo, s.log[seqNo - 1].kind, s.now);
    assert NoteChange(s, seqNo).notes[s.from..] == batch + [x];
    if Waiting(s) {
      NotedWithin(cfg, s.pending, batch, x, s.freeAt);
    }
  }

  /** Time passes only for a loop that waits for its timer. */
  lemma TickWithin(cfg: Config, s: State, dt: nat)
    requires Inv(cfg, s) && BatchOk(s) && BatchWithin(cfg, s)
    ensures BatchWithin(cfg, Next(cfg, s, Tick(dt)))
  {
  }

  /** Any other step of the loop keeps the time, and a loop that becomes free does so now. */
  lemma StepWithin(cfg: Config, s: State, event: Event)
    requires BatchWithin(cfg, s) && SameNotes(s, Next(cfg, s, event)) && !event.Changed? && !event.Tick?
    requires var s1 := Next(cfg, s, event); Waiting(s1) ==> s1.freeAt == s1.now || (Waiting(s) && s1.freeAt == s.freeAt)
    requires Next(cfg, s, event).now == s.now
    ensures BatchWithin(cfg, Next(cfg, s, event))
  {
    assert s.notes[|s.notes|..] == [];
  }

  lemma ProgressFrees(cfg: Config, s: State, event: Event)
    requires s.phase.Advising?
    ensures var s1 := Progress(cfg, s, event); s1.now == s.now && (Waiting(s1) ==> s1.freeAt == s1.now)
  {
  }

  /** The time at which the loop became free is that of a pass's return, of a silence check or of a new loop. */
  lemma Frees(cfg: Config, s: State, event: Event)
    requires !event.Tick?
    ensures var s1 := Next(cfg, s, event);
      s1.now == s.now && (Waiting(s1) ==> s1.freeAt == if Waiting(s) then s.freeAt else s1.now)
  {
    match event
    case Publish(_) =>
    case Changed(_) =>
    case TaskRead(_) =>
    case Cancel =>
    case Raise =>
    case Turn =>
    case Wake =>
    case Timeout =>
    case _ =>
      if s.phase.Advising? {
        ProgressFrees(cfg, s, event);
      }
  }

  lemma NextWithin(cfg: Config, s: State, event: Event)
    requires Inv(cfg, s) && NotesTrue(s) && BatchOk(s) && BatchWithin(cfg, s)
    ensures BatchWithin(cfg, Next(cfg, s, event))
  {
    if event.Changed? {
      if 1 <= event.seqNo <= |s.log| {
        ChangedWithin(cfg, s, event.seqNo);
      }
    } else if event.Tick? {
      TickWithin(cfg, s, event.dt);
    } else {
      OthersTrack(cfg, s, event);
      Frees(cfg, s, event);
      StepWithin(cfg, s, event);
    }
  }

  /* ---- no pass starts early ---- */

  lemma LaterIsRipe(cfg: Config, batch: seq<Noted>, at: int, at1: int)
    requires Ripe(cfg, batch, at) && at <= at1
    ensures Ripe(cfg, batch, at1)
  {
  }

  lemma TurnArms(cfg: Config, s: State)
    requires NotesTrue(s) && BatchOk(s) && s.phase.Head? && TurnHead(cfg, s).phase.DebounceWait?
    ensures ArmedWith(cfg, TurnHead(cfg, s), |s.notes| - s.from)
  {
    var batch := s.notes[s.from..];
    BatchNumbered(s);
    HighestIs(batch, 0);
    PendingSaysRipe(cfg, s.pending, batch, s.now, ReadyAt(cfg, s.pending, s.now));
    assert batch[..|batch|] == batch;
  }

  lemma ChangedKeepsArmed(cfg: Config, s: State, seqNo: nat)
    requires s.phase.DebounceWait? && s.from <= |s.notes| && Armed(cfg, s) && 1 <= seqNo <= |s.log|
    ensures Armed(cfg, NoteChange(s, seqNo))
  {
    var j: nat :| ArmedWith(cfg, s, j);
    var batch, x := s.notes[s.from..], Noted(seqNo, s.log[seqNo - 1].kind, s.now);
    assert (s.notes + [x])[s.from..] == batch + [x];
    assert (batch + [x])[..j] == batch[..j];
    assert ArmedWith(cfg, NoteChange(s, seqNo), j);
  }

  lemma TickKeepsArmed(cfg: Config, s: State, dt: nat)
    requires s.phase.DebounceWait? && s.from <= |s.notes| && Armed(cfg, s)
    ensures Armed(cfg, Next(cfg, s, Tick(dt)))
  {
    var j: nat :| ArmedWith(cfg, s, j);
    assert ArmedWith(cfg, Next(cfg, s, Tick(dt)), j);
  }

  lemma ProgressDoesNotArm(cfg: Config, s: State, event: Event)
    requires s.phase.Advising?
    ensures !Progress(cfg, s, event).phase.DebounceWait?
  {
  }

  lemma OtherStepsKeepArmed(cfg: Config, s: State, event: Event)
    requires !event.Changed? && !event.Tick? && !event.Turn?
    ensures var s1 := Next(cfg, s, event);
      s1.phase.DebounceWait? ==>
        s.phase == s1.phase && s.notes == s1.notes && s.from == s1.from && s.now == s1.now && s.pending == s1.pending
  {
    match event
    case Publish(_) =>
    case TaskRead(_) =>
    case Cancel =>
    case Raise =>
    case Wake =>
    case Timeout =>
    case _ =>
      if s.phase.Advising? {
        ProgressDoesNotArm(cfg, s, event);
      }
  }

  lemma NextKeepsArmed(cfg: Config, s: State, event: Event)
    requires Inv(cfg, s) && NotesTrue(s) && BatchOk(s) && Armed(cfg, s)
    ensures Armed(cfg, Next(cfg, s, event))
  {
    if event.Changed? {
      if s.phase.DebounceWait? && 1 <= event.seqNo <= |s.log| {
        ChangedKeepsArmed(cfg, s, event.seqNo);
      }
    } else if event.Tick? {
      if s.phase.DebounceWait? {
        TickKeepsArmed(cfg, s, event.dt);
      }
    } else if event.Turn? {
      if s.phase.Head? && TurnHead(cfg, s).phase.DebounceWait? {
        TurnArms(cfg, s);
      }
    } else {
      OtherStepsKeepArmed(cfg, s, event);
      if Next(cfg, s, event).phase.DebounceWait? {
        var j: nat :| ArmedWith(cfg, s, j);
        assert ArmedWith(cfg, Next(cfg, s, event), j);
      }
    }
  }

  /* ---- every start ---- */

  /** The loop is at one of the two places where it starts a pass. */
  predicate Due(cfg: Config, s: State) {
    || (s.phase.Head? && s.pending.latestSeq != 0 && ReadyAt(cfg, s.pending, s.now) <= s.now)
    || (s.phase.DebounceWait? && s.now >= s.phase.deadline)
  }

  lemma OnlyDuePassesStart(cfg: Config, s: State, event: Event)
    ensures Next(cfg, s, event).starts == s.starts || (Due(cfg, s) && Next(cfg, s, event) == StartPass(s))
  {
  }

  lemma DueIsRipe(cfg: Config, s: State)
    requires Inv(cfg, s) && NotesTrue(s) && BatchOk(s) && Armed(cfg, s) && Due(cfg, s)
    ensures exists j: nat :: RipeWith(cfg, s.notes[s.from..], j, s.now)
  {
    var batch := s.notes[s.from..];
    if s.phase.Head? {
      BatchNumbered(s);
      HighestIs(batch, 0);
      PendingSaysRipe(cfg, s.pending, batch, s.now, s.now);
      assert batch[..|batch|] == batch;
      assert RipeWith(cfg, batch, |batch|, s.now);
    } else {
      var j: nat :| ArmedWith(cfg, s, j);
      LaterIsRipe(cfg, batch[..j], s.phase.deadline, s.now);
      assert RipeWith(cfg, batch, j, s.now);
    }
  }

  lemma TriggerIsHighest(s: State)
    requires NotesTrue(s) && BatchOk(s) && s.pending.latestSeq != 0
    ensures s.from < |s.notes|
    ensures forall i :: s.from <= i < |s.notes| ==> s.notes[i].seqNo <= s.pending.latestSeq
    ensures exists i :: s.from <= i < |s.notes| && s.notes[i].seqNo == s.pending.latestSeq
  {
    CoveredIff(s, s.pending.latestSeq);
    var batch := s.notes[s.from..];
    HighestIsReached(batch);
    var i :| 0 <= i < |batch| && batch[i].seqNo == Highest(batch);
    assert s.notes[s.from + i] == batch[i];
  }

  lemma StartIsOnTime(cfg: Config, s: State)
    requires Inv(cfg, s) && NotesTrue(s) && BatchOk(s) && Armed(cfg, s) && Timely(cfg, s) && Due(cfg, s)
    ensures OnTime(cfg, s.notes, Start(s.pending.latestSeq, s.now, s.freeAt, s.last, s.from, |s.notes|))
  {
    DueIsRipe(cfg, s);
    TriggerIsHighest(s);
    assert s.notes[s.from..|s.notes|] == s.notes[s.from..];
  }

  lemma GrownNotesKeepOnTime(cfg: Config, notes: seq<Noted>, notes1: seq<Noted>, p: Start)
    requires OnTime(cfg, notes, p) && notes <= notes1
    ensures OnTime(cfg, notes1, p)
  {
    assert notes1[p.from..p.upTo] == notes[p.from..p.upTo];
    var i :| p.from <= i < p.upTo && notes[i].seqNo == p.trigger;
    assert notes1[i] == notes[i];
  }

  lemma NotesGrow(cfg: Config, s: State, event: Event)
    ensures s.notes <= Next(cfg, s, event).notes
  {
    if event.Changed? {
    } else if event.TaskRead? || event.Publish? || event.Tick? || event.Turn? || event.Wake? || event.Timeout? {
    } else if event.Raise? || event.Cancel? {
    } else if s.phase.Advising? {
      ProgressKeepsNotes(cfg, s, event);
    }
  }

  lemma ProgressKeepsNotes(cfg: Config, s: State, event: Event)
    requires s.phase.Advising?
    ensures Progress(cfg, s, event).notes == s.notes
  {
  }

  lemma NextKeepsStarts(cfg: Config, s: State, event: Event)
    requires Inv(cfg, s) && NotesTrue(s) && BatchOk(s) && Armed(cfg, s) && Timely(cfg, s) && StartsOnTime(cfg, s)
    ensures StartsOnTime(cfg, Next(cfg, s, event))
  {
    var s1 := Next(cfg, s, event);
    OnlyDuePassesStart(cfg, s, event);
    NotesGrow(cfg, s, event);
    forall i | 0 <= i < |s1.starts| ensures OnTime(cfg, s1.notes, s1.starts[i]) {
      if i < |s.starts| {
        GrownNotesKeepOnTime(cfg, s.notes, s1.notes, s.starts[i]);
      } else {
        StartIsOnTime(cfg, s);
      }
    }
  }

  ghost predicate TimingOk(cfg: Config, s: State) {
    NotesTrue(s) && BatchOk(s) && Timely(cfg, s) && Armed(cfg, s) && StartsOnTime(cfg, s)
  }

  lemma NextKeepsTiming(cfg: Config, s: State, event: Event)
    requires Inv(cfg, s) && TimingOk(cfg, s)
    ensures TimingOk(cfg, Next(cfg, s, event))
  {
    WithinIsTimely(cfg, s);
    NextTracks(cfg, s, event);
    NextWithin(cfg, s, event);
    WithinIsTimely(cfg, Next(cfg, s, event));
    NextKeepsArmed(cfg, s, event);
    NextKeepsStarts(cfg, s, event);
  }

  /** Under any storm of further changes every pass of every run took the highest number of its batch, started within the
      bounds of each of its notes and not early; no batch that still waits has outwaited them. */
  lemma {:induction false} PassesStartOnTime(cfg: Config, s: State, events: seq<Event>)
    requires Inv(cfg, s) && TimingOk(cfg, s)
    ensures TimingOk(cfg, Run(cfg, s, events))
    decreases |events|
  {
    if events != [] {
      NextKeepsInv(cfg, s, events[0]);
      NextKeepsTiming(cfg, s, events[0]);
      PassesStartOnTime(cfg, Next(cfg, s, events[0]), events[1..]);
    }
  }

  /** The same from the start of every run. */
  lemma RunStartsPassesOnTime(cfg: Config, now: int, log: seq<Entry>, events: seq<Event>)
    requires Startable(now, log)
    ensures var s := Run(cfg, Initial(now, log), events);
      NotesTrue(s) && StartsOnTime(cfg, s) && Timely(cfg, s)
  {
    InitialInv(cfg, now, log);
    PassesStartOnTime(cfg, Initial(now, log), events);
  }

  /* ---- every note ---- */

  function TakenUpTo(starts: seq<Start>, k: nat): nat
    requires k <= |starts|
  {
    if k == 0 then 0 else starts[k - 1].upTo
  }

  /** The notes between two batches had been reviewed when the second was taken. */
  ghost predicate SkipsReviewed(s: State, k: nat)
    requires k < |s.starts|
  {
    forall i :: TakenUpTo(s.starts, k) <= i < s.starts[k].from && i < |s.notes| ==> s.notes[i].seqNo <= s.starts[k].last
  }

  ghost predicate Settled(s: State) {
    && TakenUpTo(s.starts, |s.starts|) <= s.from <= |s.notes|
    && (forall i :: TakenUpTo(s.starts, |s.starts|) <= i < s.from ==> s.notes[i].seqNo <= s.last)
    && (forall k :: 0 <= k < |s.starts| ==> s.starts[k].from <= s.starts[k].upTo <= |s.notes| && SkipsReviewed(s, k))
  }

  /** A step lets go of the batch only when all of it is reviewed. */
  ghost predicate LetsGo(s: State, s1: State) {
    && s1.starts == s.starts && s.notes <= s1.notes && s.last <= s1.last
    && (s1.from == s.from
        || (s1.from == |s.notes| && forall i :: s.from <= i < |s.notes| ==> s.notes[i].seqNo <= s1.last))
  }

  lemma LetGoSettles(s: State, s1: State)
    requires Settled(s) && LetsGo(s, s1)
    ensures Settled(s1)
  {
    forall k | 0 <= k < |s1.starts| ensures SkipsReviewed(s1, k) {
      assert SkipsReviewed(s, k);
    }
  }

  lemma StartSettles(s: State)
    requires Settled(s)
    ensures Settled(StartPass(s))
  {
    var s1 := StartPass(s);
    forall k | 0 <= k < |s1.starts|
      ensures s1.starts[k].from <= s1.starts[k].upTo <= |s1.notes| && SkipsReviewed(s1, k)
    {
      if k < |s.starts| {
        assert SkipsReviewed(s, k) && s1.starts[k] == s.starts[k];
        assert TakenUpTo(s1.starts, k) == TakenUpTo(s.starts, k);
      }
    }
  }

  lemma ReturnLetsGo(s: State, processed: nat)
    requires s.phase.Advising? && processed <= s.last
    ensures LetsGo(s, ReturnFrom(s, processed))
  {
  }

  lemma ProgressLetsGo(cfg: Config, s: State, event: Event)
    requires Inv(cfg, s) && s.phase.Advising?
    ensures LetsGo(s, Progress(cfg, s, event))
  {
    match s.phase.stage
    case Asking(latest) => ReturnLetsGo(s.(last := latest), latest);
    case Returning(processed) => ReturnLetsGo(s, processed);
    case _ => StageLetsGo(cfg, s, event);
  }

  lemma StageLetsGo(cfg: Config, s: State, event: Event)
    requires Inv(cfg, s) && s.phase.Advising? && !s.phase.stage.Asking? && !s.phase.stage.Returning?
    ensures LetsGo(s, Progress(cfg, s, event))
  {
  }

  lemma BenignTaskReadLetsGo(s: State, state: RunState)
    requires !Terminal(state)
    ensures LetsGo(s, ReadTask(s, state))
  {
    if s.phase.Advising? && s.phase.stage.Entered? {
      ReturnLetsGo(s, s.last);
    }
  }

  lemma LoopLetsGo(cfg: Config, s: State, event: Event)
    requires event.Tick? || event.Publish? || event.Changed? || event.Turn? || event.Wake? || event.Timeout?
    requires Next(cfg, s, event).starts == s.starts
    ensures LetsGo(s, Next(cfg, s, event))
  {
  }

  lemma NextSettles(cfg: Config, s: State, event: Event)
    requires Inv(cfg, s) && Settled(s) && Benign(event) && event != Cancel
    ensures Settled(Next(cfg, s, event))
  {
    OnlyDuePassesStart(cfg, s, event);
    if Next(cfg, s, event).starts != s.starts {
      StartSettles(s);
      return;
    }
    if event.Tick? || event.Publish? || event.Changed? || event.Turn? || event.Wake? || event.Timeout? {
      LoopLetsGo(cfg, s, event);
    } else if event.TaskRead? {
      BenignTaskReadLetsGo(s, event.state);
    } else if s.phase.Advising? {
      ProgressLetsGo(cfg, s, event);
    }
    LetGoSettles(s, Next(cfg, s, event));
  }

  lemma {:induction false} RunSettles(cfg: Config, s: State, events: seq<Event>)
    requires Inv(cfg, s) && Settled(s) && Cancel !in events
    requires forall i :: 0 <= i < |events| ==> Benign(events[i])
    ensures Settled(Run(cfg, s, events))
    decreases |events|
  {
    if events != [] {
      NextKeepsInv(cfg, s, events[0]);
      NextSettles(cfg, s, events[0]);
      RunSettles(cfg, Next(cfg, s, events[0]), events[1..]);
    }
  }

  /** Note i was made since the start before the k-th and was not reviewed when that one was made. */
  predicate NewTo(s: State, k: nat, i: nat) {
    k < |s.starts| && TakenUpTo(s.starts, k) <= i < s.starts[k].upTo && i < |s.notes| && s.notes[i].seqNo > s.starts[k].last
  }

  /** The pass reaches the note and starts within its bound. */
  predicate NoteOnTime(cfg: Config, n: Noted, p: Start) {
    && n.seqNo <= p.trigger
    && (n.kind == Intel ==> p.at <= Max(n.at + cfg.intelMaxWait, p.freeAt))
    && (n.kind in URGENT ==> p.at <= Max(n.at, p.freeAt))
  }

  lemma TakenOnTime(cfg: Config, notes: seq<Noted>, p: Start, i: nat)
    requires p.from <= i < p.upTo <= |notes| && WithinBounds(cfg, BatchOf(notes, p), p.at, p.freeAt) && notes[i].seqNo <= p.trigger
    ensures NoteOnTime(cfg, notes[i], p)
  {
    assert BatchOf(notes, p)[i - p.from] == notes[i];
  }

  lemma NewNoteOnTime(cfg: Config, s: State, k: nat, i: nat)
    requires k < |s.starts| && OnTime(cfg, s.notes, s.starts[k]) && SkipsReviewed(s, k) && NewTo(s, k, i)
    ensures NoteOnTime(cfg, s.notes[i], s.starts[k])
  {
    TakenOnTime(cfg, s.notes, s.starts[k], i);
  }

  lemma RunSettled(cfg: Config, now: int, log: seq<Entry>, events: seq<Event>)
    requires Startable(now, log) && Cancel !in events && forall j :: 0 <= j < |events| ==> Benign(events[j])
    ensures Settled(Run(cfg, Initial(now, log), events)) && TimingOk(cfg, Run(cfg, Initial(now, log), events))
  {
    InitialInv(cfg, now, log);
    PassesStartOnTime(cfg, Initial(now, log), events);
    RunSettles(cfg, Initial(now, log), events);
  }

  /** In every run that drops nothing, for each start and each entry noted since the previous start that was not reviewed by
      then: the pass reaches that entry, and starts within its bound. */
  lemma EveryNoteOnTime(cfg: Config, now: int, log: seq<Entry>, events: seq<Event>, k: nat, i: nat)
    requires Startable(now, log) && Cancel !in events && forall j :: 0 <= j < |events| ==> Benign(events[j])
    requires NewTo(Run(cfg, Initial(now, log), events), k, i)
    ensures var s := Run(cfg, Initial(now, log), events); NoteOnTime(cfg, s.notes[i], s.starts[k])
  {
    RunSettled(cfg, now, log, events);
    assert SkipsReviewed(Run(cfg, Initial(now, log), events), k);
    NewNoteOnTime(cfg, Run(cfg, Initial(now, log), events), k, i);
  }

  /** Note i was made since the last start and is not reviewed. */
  predicate StillWaits(s: State, i: nat) {
    Waiting(s) && TakenUpTo(s.starts, |s.starts|) <= i < |s.notes| && s.notes[i].seqNo > s.last
  }

  lemma StillWaitingIsInBatch(s: State, i: nat)
    requires Settled(s) && StillWaits(s, i)
    ensures s.from <= i
  {
  }

  lemma WaitingNoteInTime(cfg: Config, s: State, i: nat)
    requires NotesTrue(s) && BatchOk(s) && Timely(cfg, s) && Waiting(s) && s.from <= i < |s.notes|
    ensures NoteOnTime(cfg, s.notes[i], Start(s.pending.latestSeq, s.now, s.freeAt, s.last, s.from, |s.notes|))
  {
    assert s.notes[s.from..][i - s.from] == s.notes[i];
    CoveredIff(s, s.pending.latestSeq);
  }

  /** The same for an entry that still waits: it is pending, and a pass that started now would be within its bound. */
  lemma EveryWaitingNoteInTime(cfg: Config, now: int, log: seq<Entry>, events: seq<Event>, i: nat)
    requires Startable(now, log) && Cancel !in events && forall j :: 0 <= j < |events| ==> Benign(events[j])
    requires StillWaits(Run(cfg, Initial(now, log), events), i)
    ensures var s := Run(cfg, Initial(now, log), events);
      NoteOnTime(cfg, s.notes[i], Start(s.pending.latestSeq, s.now, s.freeAt, s.last, s.from, |s.notes|))
  {
    RunSettled(cfg, now, log, events);
    StillWaitingIsInBatch(Run(cfg, Initial(now, log), events), i);
    WaitingNoteInTime(cfg, Run(cfg, Initial(now, log), events), i);
  }

  /** Every re-arming of the debounce timer keeps its deadline at or below the cap of each Intel in the batch. */
  lemma DeadlineBelowCap(cfg: Config, s: State, i: nat)
    requires NotesTrue(s) && BatchOk(s) && s.phase.Head? && TurnHead(cfg, s).phase.DebounceWait?
    requires s.from <= i < |s.notes| && s.notes[i].kind == Intel
    ensures s.now < TurnHead(cfg, s).phase.deadline <= s.notes[i].at + cfg.intelMaxWait
  {
    var batch := s.notes[s.from..];
    BatchNumbered(s);
    FirstOfIsEarliest(batch, {Intel});
    assert batch[i - s.from] == s.notes[i];
  }

  /* ---- a waiting batch is taken ---- */

  /** Time until a moment, or none. */
  function Until(now: int, at: int): nat {
    if at > now then at - now else 0
  }

  predicate LoopStep(event: Event) {
    event.Tick? || event.Turn? || event.Wake? || event.Timeout?
  }

  /** The loop, left alone, takes the whole batch. */
  ghost predicate TakesBatch(cfg: Config, s: State, events: seq<Event>) {
    && (forall i :: 0 <= i < |events| ==> LoopStep(events[i]))
    && var s1 := Run(cfg, s, events);
       s1.phase == Advising(s.pending.latestSeq, false, Entered) && |s1.starts| == |s.starts| + 1 && s1.from == |s1.notes| == |s.notes|
  }

  lemma TimerTakesBatch(cfg: Config, s: State)
    requires s.phase.DebounceWait? && !s.pending.event && s.from <= |s.notes|
    ensures exists events :: TakesBatch(cfg, s, events)
  {
    var wait := Tick(Until(s.now, s.phase.deadline));
    if s.now >= s.phase.deadline {
      RunFirst(cfg, s, Timeout, []);
      assert [Timeout] == [Timeout] + [];
      assert TakesBatch(cfg, s, [Timeout]);
    } else {
      RunFirst(cfg, s, wait, [Timeout]);
      RunFirst(cfg, Next(cfg, s, wait), Timeout, []);
      assert [wait, Timeout] == [wait] + [Timeout] && [Timeout] == [Timeout] + [];
      assert TakesBatch(cfg, s, [wait, Timeout]);
    }
  }

  lemma TurnTakesBatch(cfg: Config, s: State)
    requires s.phase.Head? && s.pending.latestSeq != 0 && s.from <= |s.notes|
    ensures exists events :: TakesBatch(cfg, s, events)
  {
    var s1 := Next(cfg, s, Turn);
    if s1.phase.DebounceWait? {
      TimerTakesBatch(cfg, s1);
      var rest :| TakesBatch(cfg, s1, rest);
      RunFirst(cfg, s, Turn, rest);
      assert TakesBatch(cfg, s, [Turn] + rest);
    } else {
      RunFirst(cfg, s, Turn, []);
      assert [Turn] == [Turn] + [];
      assert TakesBatch(cfg, s, [Turn]);
    }
  }

  /** From every state of every run in which the loop is free and a batch waits, the loop's own steps and the passing of time
      lead to a pass that takes the batch. */
  lemma WaitingBatchIsTaken(cfg: Config, now: int, log: seq<Entry>, events: seq<Event>)
    requires Startable(now, log)
    requires var s := Run(cfg, Initial(now, log), events); Waiting(s) && s.pending.latestSeq != 0
    ensures exists steps :: TakesBatch(cfg, Run(cfg, Initial(now, log), events), steps)
  {
    var s := Run(cfg, Initial(now, log), events);
    InitialInv(cfg, now, log);
    RunKeepsInv(cfg, Initial(now, log), events);
    PassesStartOnTime(cfg, Initial(now, log), events);
    if s.phase.Head? {
      TurnTakesBatch(cfg, s);
    } else if s.phase.DebounceWait? && !s.pending.event {
      TimerTakesBatch(cfg, s);
    } else {
      TurnTakesBatch(cfg, Next(cfg, s, Wake));
      var rest :| TakesBatch(cfg, Next(cfg, s, Wake), rest);
      RunFirst(cfg, s, Wake, rest);
      assert TakesBatch(cfg, s, [Wake] + rest);
    }
  }
}
