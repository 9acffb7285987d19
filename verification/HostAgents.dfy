/** Automation as an object: its dictionaries of jobs and pending records, shared with the running loops. */
module HostAgents {
  import opened Domain
  import opened Supervisor

  class SupervisorPending {
    var latestSeq: nat
    var firstIntelAt: Option<int>
    var lastChangeAt: int
    var immediate: bool
    var event: bool

    function Value(): Pending
      reads this
    {
      Pending(latestSeq, firstIntelAt, lastChangeAt, immediate, event)
    }

    constructor ()
      ensures Value() == NOTHING_PENDING
    {
      latestSeq, firstIntelAt, lastChangeAt, immediate, event := 0, None, 0, false, false;
    }

    /** A reviewable entry of some kind was published under a number. */
    method Record(seqNo: nat, kind: EntryKind, now: int)
      modifies this
      ensures Value() == Note(old(Value()), seqNo, kind, now)
    {
      latestSeq := if latestSeq >= seqNo then latestSeq else seqNo;
      lastChangeAt := now;
      if kind == Intel {
        if firstIntelAt.None? || firstIntelAt.value == 0 {
          firstIntelAt := Some(now);
        }
      }
      if kind in {Finding, QA} {
        immediate := true;
      }
      event := true;
    }
  }

  /** The asyncio task of one _supervise call; it holds the pending record it was started with. */
  class SuperviseJob {
    const pending: SupervisorPending
    var done: bool

    constructor (pending: SupervisorPending)
      ensures this.pending == pending && !done
    {
      this.pending := pending;
      done := false;
    }

    /** The head of the loop: clear the event and wait, or take the batch. Returns where the loop suspends next. */
    method Turn(cfg: Config, now: int) returns (phase: Phase)
      modifies pending
      ensures var s := TurnHead(cfg, Initial(now, []).(pending := old(pending.Value())));
              s.pending == pending.Value() && s.phase == phase
    {
      if pending.latestSeq == 0 {
        pending.event := false;
        return SilenceWait(now + cfg.silence);
      }
      var readyAt := now;
      if !pending.immediate {
        readyAt := pending.lastChangeAt + cfg.debounce;
        if pending.firstIntelAt.Some? && pending.firstIntelAt.value + cfg.intelMaxWait < readyAt {
          readyAt := pending.firstIntelAt.value + cfg.intelMaxWait;
        }
      }
      if readyAt > now {
        pending.event := false;
        return DebounceWait(readyAt);
      }
      phase := TakeBatch();
    }

    /** The batch leaves the pending record and becomes the trigger of a pass. */
    method TakeBatch() returns (phase: Phase)
      modifies pending
      ensures pending.Value() == Cleared(old(pending.Value()))
      ensures phase == Advising(old(pending.latestSeq), false, Entered)
    {
      phase := Advising(pending.latestSeq, false, Entered);
      pending.latestSeq := 0;
      pending.firstIntelAt := None;
      pending.immediate := false;
    }

    /** A pass came back having processed the board up to a number. */
    method PassReturned(processed: nat)
      modifies pending
      ensures pending.Value() == AfterPass(old(pending.Value()), processed)
    {
      if pending.latestSeq != 0 && pending.latestSeq <= processed {
        pending.latestSeq := 0;
        pending.firstIntelAt := None;
        pending.immediate := false;
      }
    }
  }

  class ReportJob {
    constructor () {}
  }

  class Automation {
    var supervisorJobs: map<Uuid, SuperviseJob>
    var reporterJobs: map<Uuid, ReportJob>
    var lastSupervisorSeq: map<Uuid, nat>
    var supervisorPending: map<Uuid, SupervisorPending>

    constructor ()
      ensures Valid() && supervisorJobs == map[] && reporterJobs == map[] && supervisorPending == map[]
    {
      supervisorJobs, reporterJobs, lastSupervisorSeq, supervisorPending := map[], map[], map[], map[];
    }

    /** Tasks never share a pending record. */
    ghost predicate Valid()
      reads this
    {
      forall t, u :: t in supervisorPending && u in supervisorPending && t != u ==> supervisorPending[t] != supervisorPending[u]
    }

    predicate Live(t: Uuid)
      reads this, if t in supervisorJobs then {supervisorJobs[t]} else {}
    {
      t in supervisorJobs && !supervisorJobs[t].done
    }

    /** The live loop of the task, if there is one, watches the record that changed() writes to. */
    ghost predicate Connected(t: Uuid)
      reads this, if t in supervisorJobs then {supervisorJobs[t]} else {}
    {
      Live(t) ==> t in supervisorPending && supervisorJobs[t].pending == supervisorPending[t]
    }

    function Noted(t: Uuid): Pending
      reads this, if t in supervisorPending then {supervisorPending[t]} else {}
    {
      if t in supervisorPending then supervisorPending[t].Value() else NOTHING_PENDING
    }

    /** The last segment of changed(): the task was not terminal and e is the entry it was notified about. */
    method Changed(t: Uuid, seqNo: nat, e: Entry, now: int)
      requires Valid()
      modifies this, if t in supervisorPending then {supervisorPending[t]} else {}
      ensures Valid()
      ensures lastSupervisorSeq == old(lastSupervisorSeq)
      // a final candidate starts the one reporter and nothing else
      ensures Classify(e) == StartReport ==>
        && t in reporterJobs && reporterJobs == old(reporterJobs)[t := reporterJobs[t]]
        && (t in old(reporterJobs) ==> reporterJobs == old(reporterJobs))
      ensures Classify(e) != StartReport ==> reporterJobs == old(reporterJobs)
      // other entries change nothing, or are noted for a live loop, of which there is never a second
      ensures Classify(e) != Review ==>
        supervisorJobs == old(supervisorJobs) && supervisorPending == old(supervisorPending) && Noted(t) == old(Noted(t))
      ensures Classify(e) == Review ==>
        && Noted(t) == Note(old(Noted(t)), seqNo, e.kind, now)
        && Live(t)
        && supervisorJobs == old(supervisorJobs)[t := supervisorJobs[t]]
        && (old(Live(t)) ==> supervisorJobs == old(supervisorJobs))
        && t in supervisorPending && supervisorPending == old(supervisorPending)[t := supervisorPending[t]]
        && (t in old(supervisorPending) ==> supervisorPending == old(supervisorPending))
        && (t !in old(supervisorPending) ==> fresh(supervisorPending[t]))
      ensures Connected(t) <==> old(Connected(t))
      // which entries these are
      ensures e.kind in {Intel, Finding, QA, UserFile} || (e.kind == UserPrompt && e.topic != "scene") ==>
        Live(t) && Noted(t).latestSeq >= seqNo && Noted(t).event
      ensures e.kind == SupervisorAdvice || (e.kind == UserPrompt && e.topic == "scene") || e.kind == FinalCandidate ==>
        supervisorJobs == old(supervisorJobs) && Noted(t) == old(Noted(t))
    {
      if e.kind == FinalCandidate {
        if t !in reporterJobs {
          var job := new ReportJob();
          reporterJobs := reporterJobs[t := job];
        }
        return;
      }
      if e.kind == SupervisorAdvice || (e.kind == UserPrompt && e.topic == "scene") {
        return;
      }
      if t !in supervisorPending {
        var created := new SupervisorPending();
        supervisorPending := supervisorPending[t := created];
      }
      var pending := supervisorPending[t];
      pending.Record(seqNo, e.kind, now);
      if t !in supervisorJobs || supervisorJobs[t].done {
        var job := new SuperviseJob(pending);
        supervisorJobs := supervisorJobs[t := job];
      }
    }

    /** cancel(), up to the point where it waits for the jobs it has cancelled. */
    method CancelBegin(t: Uuid)
      requires Valid()
      modifies this
      ensures Valid()
      ensures supervisorJobs == old(supervisorJobs) - {t} && reporterJobs == old(reporterJobs) - {t}
      ensures supervisorPending == old(supervisorPending) && lastSupervisorSeq == old(lastSupervisorSeq)
    {
      supervisorJobs := supervisorJobs - {t};
      reporterJobs := reporterJobs - {t};
    }

    /** The rest of cancel(), after the cancelled jobs have ended. */
    method CancelEnd(t: Uuid)
      requires Valid()
      modifies this
      ensures Valid()
      ensures supervisorJobs == old(supervisorJobs) && reporterJobs == old(reporterJobs)
      ensures supervisorPending == old(supervisorPending) - {t} && lastSupervisorSeq == old(lastSupervisorSeq) - {t}
      ensures Connected(t) <==> !Live(t)
    {
      lastSupervisorSeq := lastSupervisorSeq - {t};
      supervisorPending := supervisorPending - {t};
    }

    /** The entries changed() is called for while cancel() is waiting. When one of them is reviewable it starts a loop on
        the record that cancel() is about to drop: from then on changed() writes to a record no live loop watches.
        Exactly then. */
    method CancelDuring(t: Uuid, arrivals: seq<Entry>, now: int)
      requires Valid()
      modifies this, if t in supervisorPending then {supervisorPending[t]} else {}
      ensures Valid()
      ensures Connected(t) <==> forall i :: 0 <= i < |arrivals| ==> Classify(arrivals[i]) != Review
      ensures t !in supervisorPending
    {
      CancelBegin(t);
      var i := 0;
      while i < |arrivals|
        invariant 0 <= i <= |arrivals|
        invariant Valid()
        invariant Live(t) <==> exists k :: 0 <= k < i && Classify(arrivals[k]) == Review
        invariant t in old(supervisorPending) ==> supervisorPending == old(supervisorPending)
        invariant t !in old(supervisorPending) && t in supervisorPending ==> fresh(supervisorPending[t])
      {
        Changed(t, arrivals[i].seqNo, arrivals[i], now);
        i := i + 1;
      }
      CancelEnd(t);
    }
  }

  /** A concrete run: a loop is live, a finding arrives while it is being cancelled, and from then on the loop that the
      finding started watches a record that changed() no longer writes to. */
  method CancelOrphansLoop(t: Uuid, finding: Entry, later: Entry, now: int) returns (a: Automation)
    requires finding.kind == Finding && later.kind == Finding
    ensures fresh(a) && a.Live(t) && !a.Connected(t)
    ensures t in a.supervisorPending && a.Noted(t).latestSeq == later.seqNo
  {
    a := new Automation();
    a.Changed(t, finding.seqNo, finding, now);
    a.CancelDuring(t, [finding], now);
    assert !a.Connected(t) by {
      assert [finding][0] == finding;
    }
    a.Changed(t, later.seqNo, later, now);
  }
}
