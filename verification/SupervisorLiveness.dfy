/** No update is lost. */
module SupervisorLiveness {
  import opened Domain
  import opened Board
  import opened BoardTheorems
  import opened Supervisor
  import opened SupervisorInvariant

  /* ---- no lost update ---- */

  /** Each noted number is reviewed, pending, or the business of the pass in flight. */
  ghost predicate Covered(s: State) {
    forall n :: n in s.noted ==>
      || n <= s.last
      || n <= s.pending.latestSeq
      || (s.phase.Advising? && !s.phase.silent && n <= s.phase.trigger)
  }

  /** The two events under which the source drops a batch: an exception outside the handler of _advise, and a task
      that has meanwhile reached a terminal state. */
  predicate Benign(event: Event) {
    !event.Raise? && !(event.TaskRead? && Terminal(event.state))
  }

  lemma ProgressKeepsCovered(cfg: Config, s: State, event: Event)
    requires Inv(cfg, s) && Covered(s) && s.phase.Advising?
    ensures Covered(Progress(cfg, s, event))
  {
  }

  lemma NextKeepsCovered(cfg: Config, s: State, event: Event)
    requires Inv(cfg, s) && Covered(s) && Benign(event)
    ensures Covered(Next(cfg, s, event))
  {
    match event
    case Changed(_) =>
    case Turn =>
    case Timeout =>
    case TaskRead(_) =>
    case Cancel =>
    case Tick(_) =>
    case Publish(_) =>
    case Wake =>
    case _ =>
      if s.phase.Advising? {
        ProgressKeepsCovered(cfg, s, event);
      }
  }

  /** In every interleaving of changed() with the loop, every noted number stays covered. */
  lemma {:induction false} NoLostUpdate(cfg: Config, s: State, events: seq<Event>)
    requires Inv(cfg, s) && Covered(s)
    requires forall i :: 0 <= i < |events| ==> Benign(events[i])
    ensures Covered(Run(cfg, s, events))
    decreases |events|
  {
    if events != [] {
      NextKeepsInv(cfg, s, events[0]);
      NextKeepsCovered(cfg, s, events[0]);
      NoLostUpdate(cfg, Next(cfg, s, events[0]), events[1..]);
    }
  }

  /** When the loop has gone quiet after such a run, everything noted has been reviewed. */
  lemma QuietMeansReviewed(cfg: Config, now: int, log: seq<Entry>, events: seq<Event>, n: nat)
    requires Startable(now, log)
    requires forall i :: 0 <= i < |events| ==> Benign(events[i])
    requires var s := Run(cfg, Initial(now, log), events); s.phase.SilenceWait? && !s.pending.event && n in s.noted
    ensures n <= Run(cfg, Initial(now, log), events).last
  {
    InitialInv(cfg, now, log);
    NoLostUpdate(cfg, Initial(now, log), events);
    RunKeepsInv(cfg, Initial(now, log), events);
    NotedPositive(cfg, Initial(now, log), events, n);
  }

  lemma NextNotesPositive(cfg: Config, s: State, event: Event)
    requires 0 !in s.noted
    ensures 0 !in Next(cfg, s, event).noted
  {
  }

  lemma {:induction false} NotedPositive(cfg: Config, s: State, events: seq<Event>, n: nat)
    requires n in Run(cfg, s, events).noted && 0 !in s.noted
    ensures n > 0
    decreases |events|
  {
    if events != [] {
      NextNotesPositive(cfg, s, events[0]);
      NotedPositive(cfg, Next(cfg, s, events[0]), events[1..], n);
    }
  }

  lemma LastKept(cfg: Config, s: State, event: Event)
    requires Inv(cfg, s) && event != Cancel
    ensures s.last <= Next(cfg, s, event).last
  {
  }

  /** The reviewed number never decreases between cancels. */
  lemma {:induction false} LastNeverDecreases(cfg: Config, s: State, events: seq<Event>)
    requires Inv(cfg, s) && Cancel !in events
    ensures s.last <= Run(cfg, s, events).last
    decreases |events|
  {
    if events != [] {
      LastKept(cfg, s, events[0]);
      NextKeepsInv(cfg, s, events[0]);
      LastNeverDecreases(cfg, Next(cfg, s, events[0]), events[1..]);
    }
  }

  /* ---- exactly when a batch is dropped ---- */

  /** The numbers a pass or the pending record work for were noted. */
  ghost predicate TriggersNoted(s: State) {
    && (s.pending.latestSeq != 0 ==> s.pending.latestSeq in s.noted)
    && (s.phase.Advising? && !s.phase.silent ==> s.phase.trigger in s.noted)
  }

  lemma ProgressKeepsTriggersNoted(cfg: Config, s: State, event: Event)
    requires TriggersNoted(s) && s.phase.Advising?
    ensures TriggersNoted(Progress(cfg, s, event))
  {
  }

  lemma NextKeepsTriggersNoted(cfg: Config, s: State, event: Event)
    requires Inv(cfg, s) && TriggersNoted(s)
    ensures TriggersNoted(Next(cfg, s, event))
  {
    match event
    case Changed(_) =>
    case Turn =>
    case Timeout =>
    case TaskRead(_) =>
    case Cancel =>
    case Tick(_) =>
    case Publish(_) =>
    case Wake =>
    case Raise =>
    case _ =>
      if s.phase.Advising? {
        ProgressKeepsTriggersNoted(cfg, s, event);
      }
  }

  lemma {:induction false} RunKeepsTriggersNoted(cfg: Config, s: State, events: seq<Event>)
    requires Inv(cfg, s) && TriggersNoted(s)
    ensures TriggersNoted(Run(cfg, s, events))
    decreases |events|
  {
    if events != [] {
      NextKeepsInv(cfg, s, events[0]);
      NextKeepsTriggersNoted(cfg, s, events[0]);
      RunKeepsTriggersNoted(cfg, Next(cfg, s, events[0]), events[1..]);
    }
  }

  lemma RaiseLoses(cfg: Config, s: State)
    requires Inv(cfg, s) && Covered(s) && TriggersNoted(s) && s.phase.Advising?
    ensures Covered(Next(cfg, s, Raise))
       <==> s.phase.silent || s.phase.trigger <= s.last || s.phase.trigger <= s.pending.latestSeq
  {
    if !s.phase.silent {
      assert s.phase.trigger in s.noted;
    }
  }

  lemma TerminalLoses(cfg: Config, s: State, state: RunState)
    requires Inv(cfg, s) && Covered(s) && TriggersNoted(s) && Terminal(state)
    requires s.phase.Advising? && s.phase.stage.Entered?
    ensures Covered(Next(cfg, s, TaskRead(state)))
       <==> s.phase.silent || (s.phase.trigger <= s.last && s.pending.latestSeq <= s.last)
  {
    if !s.phase.silent {
      assert s.phase.trigger in s.noted;
    }
  }

  /** A pending batch has a loop that watches it. */
  ghost predicate Watched(s: State) {
    s.phase.Off? ==> s.pending.latestSeq == 0 && s.noted == {}
  }

  lemma ProgressKeepsLoop(cfg: Config, s: State, event: Event)
    requires s.phase.Advising?
    ensures !Progress(cfg, s, event).phase.Off?
  {
  }

  lemma NextKeepsWatched(cfg: Config, s: State, event: Event)
    requires Watched(s) && Benign(event)
    ensures Watched(Next(cfg, s, event))
  {
    match event
    case Changed(_) =>
    case Turn =>
    case Timeout =>
    case TaskRead(_) =>
    case Cancel =>
    case Tick(_) =>
    case Publish(_) =>
    case Wake =>
    case _ =>
      if s.phase.Advising? {
        ProgressKeepsLoop(cfg, s, event);
      }
  }

  lemma {:induction false} RunKeepsWatched(cfg: Config, s: State, events: seq<Event>)
    requires Watched(s) && forall i :: 0 <= i < |events| ==> Benign(events[i])
    ensures Watched(Run(cfg, s, events))
    decreases |events|
  {
    if events != [] {
      NextKeepsWatched(cfg, s, events[0]);
      RunKeepsWatched(cfg, Next(cfg, s, events[0]), events[1..]);
    }
  }

  /** A loop that has ended stays ended, and its pending record as it was, until changed() notes another entry. */
  lemma {:induction false} OffStaysOff(cfg: Config, s: State, events: seq<Event>)
    requires s.phase.Off?
    requires forall i :: 0 <= i < |events| ==> !events[i].Changed? && !events[i].Cancel?
    ensures var s1 := Run(cfg, s, events); s1.phase.Off? && s1.pending == s.pending && s1.last == s.last
    decreases |events|
  {
    if events != [] {
      OffStaysOff(cfg, Next(cfg, s, events[0]), events[1..]);
    }
  }

  /** What every run that has dropped nothing so far keeps. */
  lemma BenignRun(cfg: Config, now: int, log: seq<Entry>, events: seq<Event>)
    requires Startable(now, log) && forall i :: 0 <= i < |events| ==> Benign(events[i])
    ensures var s := Run(cfg, Initial(now, log), events); Inv(cfg, s) && Covered(s) && TriggersNoted(s) && Watched(s)
  {
    RunKeepsWatched(cfg, Initial(now, log), events);
    InitialInv(cfg, now, log);
    RunKeepsInv(cfg, Initial(now, log), events);
    NoLostUpdate(cfg, Initial(now, log), events);
    RunKeepsTriggersNoted(cfg, Initial(now, log), events);
  }

  /** In every run that has dropped nothing so far, an exception that escapes the pass in flight loses its batch exactly when
      the batch is new and nothing later is pending. The loop ends with it: what is pending, the batch in the other case
      included, then waits until changed() notes another entry, whatever happens until then (later). */
  lemma RaiseLosesIff(cfg: Config, now: int, log: seq<Entry>, events: seq<Event>, later: seq<Event>)
    requires Startable(now, log) && forall i :: 0 <= i < |events| ==> Benign(events[i])
    requires Run(cfg, Initial(now, log), events).phase.Advising?
    requires forall i :: 0 <= i < |later| ==> !later[i].Changed? && !later[i].Cancel?
    ensures var s := Run(cfg, Initial(now, log), events);
            var s1 := Next(cfg, s, Raise);
      && (Covered(s1) <==> s.phase.silent || s.phase.trigger <= s.last || s.phase.trigger <= s.pending.latestSeq)
      && Run(cfg, s1, later).phase.Off?
      && Run(cfg, s1, later).pending == s.pending
      && Run(cfg, s1, later).last == s.last
  {
    BenignRun(cfg, now, log, events);
    RaiseLoses(cfg, Run(cfg, Initial(now, log), events));
    OffStaysOff(cfg, Next(cfg, Run(cfg, Initial(now, log), events), Raise), later);
  }

  /** In every run that has dropped nothing, whatever is pending has a live loop. */
  lemma PendingIsWatched(cfg: Config, now: int, log: seq<Entry>, events: seq<Event>)
    requires forall i :: 0 <= i < |events| ==> Benign(events[i])
    ensures Watched(Run(cfg, Initial(now, log), events))
  {
    RunKeepsWatched(cfg, Initial(now, log), events);
  }

  /** In every such run a pass that finds the task terminal drops its batch and the pending one unless both were reviewed
      already. */
  lemma TerminalLosesIff(cfg: Config, now: int, log: seq<Entry>, events: seq<Event>, state: RunState)
    requires Startable(now, log) && (forall i :: 0 <= i < |events| ==> Benign(events[i])) && Terminal(state)
    requires var s := Run(cfg, Initial(now, log), events); s.phase.Advising? && s.phase.stage.Entered?
    ensures var s := Run(cfg, Initial(now, log), events);
      Covered(Next(cfg, s, TaskRead(state))) <==> s.phase.silent || (s.phase.trigger <= s.last && s.pending.latestSeq <= s.last)
  {
    BenignRun(cfg, now, log, events);
    TerminalLoses(cfg, Run(cfg, Initial(now, log), events), state);
  }

  /* concrete runs */

  lemma RunFirst(cfg: Config, s: State, e: Event, rest: seq<Event>)
    ensures Run(cfg, s, [e] + rest) == Run(cfg, Next(cfg, s, e), rest)
  {
    assert ([e] + rest)[1..] == rest;
  }

  lemma {:induction false} RunConcat(cfg: Config, s: State, a: seq<Event>, b: seq<Event>)
    ensures Run(cfg, s, a + b) == Run(cfg, Run(cfg, s, a), b)
    decreases |a|
  {
    if a == [] {
      assert a + b == b;
    } else {
      assert (a + b)[1..] == a[1..] + b;
      RunConcat(cfg, Next(cfg, s, a[0]), a[1..], b);
    }
  }

  /** A finding is noted and a pass takes it. */
  lemma FindingTaken(cfg: Config, finding: Entry)
    requires finding.kind == Finding && finding.seqNo == 1
    ensures var s := Run(cfg, Initial(1, [finding]), [Changed(1), Turn]);
      && s.phase == Advising(1, false, Entered) && s.noted == {1} && s.last == 0
      && s.pending.latestSeq == 0 && s.log == [finding] && s.deltas == s.decided == [] && !s.torn
  {
    var s0 := Initial(1, [finding]);
    var s1 := Next(cfg, s0, Changed(1));
    RunFirst(cfg, s0, Changed(1), [Turn]);
    RunFirst(cfg, s1, Turn, []);
    assert [Changed(1), Turn] == [Changed(1)] + [Turn] && [Turn] == [Turn] + [];
  }

  /** Its pass dies of an exception, and the finding is neither reviewed nor pending. */
  lemma RaiseDropsFinding(cfg: Config, finding: Entry)
    requires finding.kind == Finding && finding.seqNo == 1
    ensures !Covered(Next(cfg, Run(cfg, Initial(1, [finding]), [Changed(1), Turn]), Raise))
  {
    FindingTaken(cfg, finding);
    var s := Next(cfg, Run(cfg, Initial(1, [finding]), [Changed(1), Turn]), Raise);
    assert 1 in s.noted && s.last == 0 && s.pending.latestSeq == 0 && s.phase.Off?;
  }

  /** Or the task is completed when the pass looks at it. */
  lemma TerminalDropsFinding(cfg: Config, finding: Entry)
    requires finding.kind == Finding && finding.seqNo == 1
    ensures !Covered(Next(cfg, Run(cfg, Initial(1, [finding]), [Changed(1), Turn]), TaskRead(Completed)))
  {
    FindingTaken(cfg, finding);
    var s := Next(cfg, Run(cfg, Initial(1, [finding]), [Changed(1), Turn]), TaskRead(Completed));
    assert 1 in s.noted && s.last == 0 && s.pending.latestSeq == 0 && s.phase.Head?;
  }
}
