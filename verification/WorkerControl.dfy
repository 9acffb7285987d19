/** What the control messages of a worker session do over whole runs: pausing, resuming, stopping, and the order of the queue. */
module WorkerControl {
  import opened Worker

  /* ---- pausing and resuming ---- */

  datatype Switch = Never | ToPause | ToResume

  /** The last pause or resume that a listening receiver read. */
  function LastSwitch(s: Session, events: seq<Event>): Switch
    decreases |events|
  {
    if events == [] then Never
    else
      var later := LastSwitch(Next(s, events[0]), events[1..]);
      if later != Never then later
      else if s.receiver.Listening? && events[0] == Deliver(Pause) then ToPause
      else if s.receiver.Listening? && events[0] == Deliver(Resume) then ToResume
      else Never
  }

  lemma WorkKeepsFlags(s: Session, event: Event)
    requires event.Handle? || event.TearDown? || event.SendFails? || event.Take?
    ensures Next(s, event).paused == s.paused && Next(s, event).stop == s.stop
  {
    if event.TearDown? {
      assert TornDown(s).paused == s.paused && TornDown(s).stop == s.stop;
    } else if event.Handle? && s.worker.CycleOver? {
      var s1 := AfterCycle(s, s.worker.p, s.worker.outcome);
      assert s1.paused == s.paused && s1.stop == s.stop;
    }
  }

  lemma HandledKeepsFlags(s: Session, event: Event)
    requires !event.Deliver?
    ensures Next(s, event).paused == s.paused && Next(s, event).stop == s.stop
  {
    if event.Handle? || event.TearDown? || event.SendFails? || event.Take? {
      WorkKeepsFlags(s, event);
    }
  }

  lemma NextPaused(s: Session, event: Event)
    ensures Next(s, event).paused
       <==> (s.paused && !(s.receiver.Listening? && event == Deliver(Resume))) || (s.receiver.Listening? && event == Deliver(Pause))
  {
    if !event.Deliver? {
      HandledKeepsFlags(s, event);
    }
  }

  lemma {:induction false} PausedByLastSwitch(s: Session, events: seq<Event>)
    ensures Run(s, events).paused <==> LastSwitch(s, events) == ToPause || (LastSwitch(s, events) == Never && s.paused)
    decreases |events|
  {
    if events != [] {
      NextPaused(s, events[0]);
      PausedByLastSwitch(Next(s, events[0]), events[1..]);
    }
  }

  /** In every run the session is paused if and only if the last pause or resume that was read is a pause. */
  lemma PausedIff(events: seq<Event>)
    ensures Run(FRESH, events).paused <==> LastSwitch(FRESH, events) == ToPause
  {
    PausedByLastSwitch(FRESH, events);
  }

  lemma RunTwo(s: Session, e0: Event, e1: Event)
    ensures Run(s, [e0, e1]) == Next(Next(s, e0), e1)
  {
    RunFirst(s, e0, [e1]);
    RunFirst(Next(s, e0), e1, []);
    assert [e0, e1] == [e0] + [e1] && [e1] == [e1] + [];
  }

  /** A worker at its pause check goes on to its cycle if and only if the session is not paused. */
  lemma HeldPromptStartsIff(s: Session)
    requires s.worker.Holding? && !s.worker.gated
    ensures Run(s, [PassGate, StartCycle]).worker == if s.paused then s.worker else Cycling(s.worker.p)
  {
    RunTwo(s, PassGate, StartCycle);
  }

  /** In every run, a prompt that is held at the pause check starts its cycle after a resume is read. */
  lemma ResumeStartsHeldPrompt(events: seq<Event>)
    requires var s := Run(FRESH, events); s.worker.Holding? && s.receiver.Listening?
    ensures var s := Run(FRESH, events);
            var s1 := Run(Next(s, Deliver(Resume)), [PassGate, StartCycle]);
      s1.worker == Cycling(s.worker.p) && Working(s1) && !s1.paused
  {
    var s := Next(Run(FRESH, events), Deliver(Resume));
    RunTwo(s, PassGate, StartCycle);
  }

  /** A concrete run: the startup prompt meets a pause, is held, and runs after the resume. */
  lemma ResumedPromptRuns(startup: string)
    ensures var s := Run(FRESH, [Begin(startup), Deliver(Pause), Take]);
      && s.worker == Holding(Text(startup), false) && s.paused
      && Run(s, [PassGate, StartCycle]).worker == s.worker
      && Run(Next(s, Deliver(Resume)), [PassGate, StartCycle]).worker == Cycling(Text(startup))
  {
    var s1 := FRESH.(worker := Getting, queue := [Queued(Text(startup))], created := [Text(startup)]);
    var s2 := s1.(paused := true);
    var s3 := FRESH.(paused := true, worker := Holding(Text(startup), false), created := [Text(startup)]);
    assert Next(FRESH, Begin(startup)) == s1;
    assert Next(s1, Deliver(Pause)) == s2;
    assert Next(s2, Take) == s3;
    RunFirst(FRESH, Begin(startup), [Deliver(Pause), Take]);
    RunTwo(s1, Deliver(Pause), Take);
    assert [Begin(startup), Deliver(Pause), Take] == [Begin(startup)] + [Deliver(Pause), Take];
    HeldPromptStartsIff(s3);
    HeldPromptStartsIff(Next(s3, Deliver(Resume)));
  }

  /* ---- stopping ---- */

  /** The session is stopping if and only if a stop was read. */
  lemma {:induction false} StoppingIff(s: Session, events: seq<Event>)
    ensures Run(s, events).stop <==> s.stop || HearsStop(s, events)
    decreases |events|
  {
    if events != [] {
      if events[0].Deliver? {
        if s.receiver.Listening? {
          ReceivedKeeps(s, events[0].message);
        }
      } else {
        HandledKeepsFlags(s, events[0]);
      }
      StoppingIff(Next(s, events[0]), events[1..]);
    }
  }

  lemma StoppedLoopEnds(s: Session, event: Event)
    requires s.stop && !s.worker.Getting?
    ensures Next(s, event).stop && !Next(s, event).worker.Getting?
  {
    if event.Deliver? {
      if s.receiver.Listening? {
        ReceivedKeeps(s, event.message);
      }
    } else {
      HandledKeepsFlags(s, event);
      if event.Handle? {
        HandleDoesNotGet(s);
      } else if event.TearDown? {
        TearDownDoesNotGet(s);
      }
    }
  }

  lemma HandleDoesNotGet(s: Session)
    requires s.stop && !s.worker.Getting?
    ensures !Next(s, Handle).worker.Getting?
  {
  }

  lemma TearDownDoesNotGet(s: Session)
    requires s.stop && !s.worker.Getting?
    ensures !Next(s, TearDown).worker.Getting?
  {
  }

  lemma {:induction false} StoppedNeverGets(s: Session, events: seq<Event>)
    requires s.stop && !s.worker.Getting?
    ensures !Run(s, events).worker.Getting?
    decreases |events|
  {
    if events != [] {
      StoppedLoopEnds(s, events[0]);
      StoppedNeverGets(Next(s, events[0]), events[1..]);
    }
  }

  /** A worker that waits for its queue when the stop is read will find the stop there. */
  predicate StopIsQueued(s: Session) {
    s.stop && s.worker.Getting? ==> Stop in s.queue
  }

  lemma ReceivedQueuesStop(s: Session, message: Message)
    requires StopIsQueued(s) && s.receiver.Listening?
    ensures StopIsQueued(Received(s, message))
  {
    var s1 := Received(s, message);
    if s.queue != s1.queue {
      assert s.queue <= s1.queue;
      if message.StopSession? {
        assert s1.queue[|s.queue|] == Stop;
      }
    }
  }

  lemma NextQueuesStop(s: Session, event: Event)
    requires StopIsQueued(s)
    ensures StopIsQueued(Next(s, event))
  {
    if event.Deliver? {
      if s.receiver.Listening? {
        ReceivedQueuesStop(s, event.message);
      }
    } else if !s.worker.Getting? {
      if s.stop {
        StoppedLoopEnds(s, event);
      } else {
        HandledKeepsFlags(s, event);
      }
    } else if event.CycleAwaited? {
      assert s.queue <= Next(s, event).queue;
    }
  }

  lemma {:induction false} RunQueuesStop(s: Session, events: seq<Event>)
    requires StopIsQueued(s)
    ensures StopIsQueued(Run(s, events))
    decreases |events|
  {
    if events != [] {
      NextQueuesStop(s, events[0]);
      RunQueuesStop(Next(s, events[0]), events[1..]);
    }
  }

  /** In every run in which a stop was read, a worker that waits for its queue has the stop in it; and once it has taken anything
      more from the queue, the stop or one last prompt, it never waits there again, whatever happens. */
  lemma StopAllowsOneMore(events: seq<Event>, later: seq<Event>)
    requires HearsStop(FRESH, events) && Run(FRESH, events).worker.Getting?
    ensures var s := Run(FRESH, events);
      Stop in s.queue && !Run(Next(s, Take), later).worker.Getting?
  {
    StoppingIff(FRESH, events);
    RunQueuesStop(FRESH, events);
    var s := Run(FRESH, events);
    HandledKeepsFlags(s, Take);
    StoppedNeverGets(Next(s, Take), later);
  }

  /* ---- what a control message does to a running cycle ---- */

  predicate CancelsCycle(message: Message) {
    message.Pause? || message.SetModel? || message.StopSession?
  }

  /** The receiver waits for the cycle it has cancelled. */
  predicate Awaits(s: Session, p: Prompt, stopping: bool) {
    s.worker == Cycling(p) && s.receiver == AwaitingCycle(stopping, false)
  }

  lemma AwaitingStep(s: Session, event: Event, p: Prompt, stopping: bool)
    requires Awaits(s, p, stopping) && !event.CycleEnds?
    ensures Awaits(Next(s, event), p, stopping) && Next(s, event).queue == s.queue
  {
  }

  lemma {:induction false} AwaitingRun(s: Session, events: seq<Event>, p: Prompt, stopping: bool)
    requires Awaits(s, p, stopping) && forall i :: 0 <= i < |events| ==> !events[i].CycleEnds?
    ensures Awaits(Run(s, events), p, stopping) && Run(s, events).queue == s.queue
    decreases |events|
  {
    if events != [] {
      AwaitingStep(s, events[0], p, stopping);
      AwaitingRun(Next(s, events[0]), events[1..], p, stopping);
    }
  }

  /** A pause, a model change or a stop that meets a cycle cancels it: no further message is read and nothing is queued until
      that cycle is over; then the receiver goes on, and a stop is queued exactly for a stop. */
  lemma CancelledCycleIsAwaited(s: Session, message: Message, events: seq<Event>, outcome: Outcome)
    requires s.worker.Cycling? && s.receiver.Listening? && CancelsCycle(message)
    requires forall i :: 0 <= i < |events| ==> !events[i].CycleEnds?
    ensures var s1 := Run(Next(s, Deliver(message)), events);
            var s2 := Run(s1, [CycleEnds(outcome), CycleAwaited]);
      && Awaits(s1, s.worker.p, message.StopSession?) && s1.queue == s.queue
      && s2.receiver.Listening? && s2.worker == CycleOver(s.worker.p, outcome)
      && s2.queue == s.queue + if message.StopSession? then [Stop] else []
  {
    CancelAwaits(s, message);
    AwaitingRun(Next(s, Deliver(message)), events, s.worker.p, message.StopSession?);
    AwaitingEnds(Run(Next(s, Deliver(message)), events), s.worker.p, message.StopSession?, outcome);
  }

  lemma CancelAwaits(s: Session, message: Message)
    requires s.worker.Cycling? && s.receiver.Listening? && CancelsCycle(message)
    ensures Awaits(Next(s, Deliver(message)), s.worker.p, message.StopSession?) && Next(s, Deliver(message)).queue == s.queue
  {
  }

  lemma AwaitingEnds(s: Session, p: Prompt, stopping: bool, outcome: Outcome)
    requires Awaits(s, p, stopping)
    ensures var s2 := Run(s, [CycleEnds(outcome), CycleAwaited]);
      s2.receiver.Listening? && s2.worker == CycleOver(p, outcome) && s2.queue == s.queue + if stopping then [Stop] else []
  {
    RunTwo(s, CycleEnds(outcome), CycleAwaited);
    assert Next(s, CycleEnds(outcome)) == s.(worker := CycleOver(p, outcome), receiver := AwaitingCycle(stopping, true));
  }

  /** Every other message is read while the cycle goes on. */
  lemma OtherMessagesLetCycleRun(s: Session, message: Message)
    requires s.worker.Cycling? && s.receiver.Listening? && !CancelsCycle(message)
    ensures Working(Next(s, Deliver(message))) && Next(s, Deliver(message)).worker == s.worker
  {
  }

  /** A cycle with output is completed and one that raised has failed, and the worker goes back to its queue unless it stops. */
  lemma CycleIsSettled(s: Session)
    requires s.worker.CycleOver? && s.worker.outcome != Cancelled
    ensures var s1 := Run(s, [Handle, if s.worker.outcome == Output then Told else Slept]);
      && (s.worker.outcome == Output ==> s1.completed == s.completed + [s.worker.p] && s1.failed == s.failed)
      && (s.worker.outcome == Raised ==> s1.failed == s.failed + [s.worker.p] && s1.completed == s.completed)
      && (s1.worker.Getting? <==> !s.stop) && (s1.worker.Ended? <==> s.stop)
      && s1.queue == s.queue && s1.abandoned == s.abandoned
  {
    RunTwo(s, Handle, if s.worker.outcome == Output then Told else Slept);
  }

  /** A prompt whose completion cannot be told has failed; one that cannot be announced before its cycle, or whose failure cannot
      be told, ends the worker. */
  lemma FailedSendSettles(s: Session)
    ensures var s1 := Next(s, SendFails);
      && (s.worker.Telling? ==> s1.worker == Failing(s.worker.p) && Next(s1, Slept).failed == s.failed + [s.worker.p]
                                && Next(s1, Slept).completed == s.completed)
      && (s.worker.Holding? ==> s1.worker.Ended? && s1.abandoned == s.abandoned + [s.worker.p])
      && (s.worker.Failing? ==> s1.worker.Ended? && s1.failed == s.failed + [s.worker.p])
      && (!s.worker.Telling? && !s.worker.Holding? && !s.worker.Failing? ==> s1 == s)
      && s1.queue == s.queue
  {
  }

  /** When the session is torn down, a prompt whose cycle is over is queued again or, once stopping, given up; one that has not
      begun is given up; one that raised has failed; and a running cycle goes on to its end. */
  lemma TearDownSettles(s: Session)
    ensures var s1 := Next(s, TearDown);
      && s1.broken
      && (s.worker.Telling? ==> if s.stop then s1.abandoned == s.abandoned + [s.worker.p] && s1.worker.Ended?
                                else s1.queue == s.queue + [Queued(s.worker.p)] && s1.worker.Getting?)
      && (s.worker.Holding? ==> s1.abandoned == s.abandoned + [s.worker.p] && s1.worker.Ended?)
      && (s.worker.Failing? ==> s1.failed == s.failed + [s.worker.p] && s1.worker.Ended?)
      && (s.worker.Getting? ==> s1.worker.Ended?)
      && (s.worker.Cycling? || s.worker.CycleOver? ==> s1 == s.(broken := true))
  {
  }

  /* ---- the queue ---- */

  /** What an event puts at the end of the queue. */
  function Puts(s: Session, event: Event): seq<Item> {
    match event
    case Begin(startup) => if s.worker.Unborn? then [Queued(Text(startup))] else []
    case Deliver(message) =>
      if !s.receiver.Listening? then []
      else (
        match message
        case SessionStart(prompt) => [Queued(Text(prompt))]
        case AddPrompt(text) => [Queued(Text(text))]
        case StopSession => if s.worker.Cycling? then [] else [Stop]
        case BlackboardChanged(_) => if s.wakeQueued then [] else [Wake]
        case _ => [])
    case CycleAwaited => if s.receiver == AwaitingCycle(true, true) then [Stop] else []
    case Handle => if s.worker.CycleOver? && s.worker.outcome == Cancelled && !s.stop then [Queued(s.worker.p)] else []
    case TearDown => if s.worker.Telling? && !s.stop then [Queued(s.worker.p)] else []
    case _ => []
  }

  /** What the worker takes in an event. */
  function Takes(s: Session, event: Event): seq<Item> {
    if event.Take? && s.worker.Getting? && s.queue != [] then [s.queue[0]] else []
  }

  function AllPuts(s: Session, events: seq<Event>): seq<Item>
    decreases |events|
  {
    if events == [] then [] else Puts(s, events[0]) + AllPuts(Next(s, events[0]), events[1..])
  }

  function AllTakes(s: Session, events: seq<Event>): seq<Item>
    decreases |events|
  {
    if events == [] then [] else Takes(s, events[0]) + AllTakes(Next(s, events[0]), events[1..])
  }

  lemma ReceivedQueue(s: Session, message: Message)
    requires s.receiver.Listening?
    ensures Received(s, message).queue == s.queue + Puts(s, Deliver(message))
  {
  }

  lemma NextQueue(s: Session, event: Event)
    ensures s.queue + Puts(s, event) == Takes(s, event) + Next(s, event).queue
  {
    if event.Deliver? {
      if s.receiver.Listening? {
        ReceivedQueue(s, event.message);
      }
    } else if event.Take? {
      if s.worker.Getting? && s.queue != [] {
        assert s.queue == [s.queue[0]] + s.queue[1..];
        assert TakeHead(s).queue == s.queue[1..];
      }
    } else if event.Handle? {
      HandleQueue(s);
    } else if event.TearDown? {
      TearDownQueue(s);
    }
  }

  lemma HandleQueue(s: Session)
    ensures Next(s, Handle).queue == s.queue + Puts(s, Handle)
  {
  }

  lemma TearDownQueue(s: Session)
    ensures Next(s, TearDown).queue == s.queue + Puts(s, TearDown)
  {
  }

  /** First in, first out: what was in the queue and what joined it is what was taken, in that order, and what is still there. */
  lemma {:induction false} QueueIsFifo(s: Session, events: seq<Event>)
    ensures s.queue + AllPuts(s, events) == AllTakes(s, events) + Run(s, events).queue
    decreases |events|
  {
    if events != [] {
      var s1 := Next(s, events[0]);
      NextQueue(s, events[0]);
      QueueIsFifo(s1, events[1..]);
      Rearrange(s.queue, Puts(s, events[0]), Takes(s, events[0]), s1.queue, AllPuts(s1, events[1..]), AllTakes(s1, events[1..]),
                Run(s, events).queue);
    }
  }

  lemma Rearrange(q: seq<Item>, p: seq<Item>, t: seq<Item>, q1: seq<Item>, ps: seq<Item>, ts: seq<Item>, q2: seq<Item>)
    requires q + p == t + q1 && q1 + ps == ts + q2
    ensures q + (p + ps) == (t + ts) + q2
  {
    calc {
      q + (p + ps);
      (q + p) + ps;
      (t + q1) + ps;
      t + (q1 + ps);
      t + (ts + q2);
      (t + ts) + q2;
    }
  }

  /** What was taken is what the worker holds: a prompt as it was queued, a stop ends the loop, and a wake marker becomes a prompt
      for the highest number noted since the last one. */
  lemma TakenIsHeld(s: Session)
    requires s.worker.Getting? && s.queue != []
    ensures var s1 := Next(s, Take);
      match s.queue[0]
      case Queued(p) => s1.worker == Holding(p, false) && s1.created == s.created
      case Stop => s1.worker.Ended? && s1.created == s.created
      case Wake => s1.worker == Holding(Update(s.pendingSeq), false) && !s1.wakeQueued && s1.created == s.created + [Update(s.pendingSeq)]
  {
  }

  /** A worker whose queue stays empty for the sync interval takes the periodic prompt, and runs it unless paused. */
  lemma IdleWorkerIsPrompted(s: Session, periodic: string)
    requires s.worker.Getting?
    ensures var s1 := Next(s, Timeout(periodic));
      && s1.worker == Holding(Text(periodic), false) && s1.created == s.created + [Text(periodic)] && s1.queue == s.queue
      && (!s.paused ==> Run(s1, [PassGate, StartCycle]).worker == Cycling(Text(periodic)))
  {
    HeldPromptStartsIff(Next(s, Timeout(periodic)));
  }

  /* ---- the numbers the worker is told ---- */

  /** A number pending behind a marker was notified, and so was every number the worker was told. */
  ghost predicate ToldNotified(s: Session) {
    && (s.wakeQueued ==> s.pendingSeq in s.notified)
    && (!s.wakeQueued ==> s.pendingSeq == 0)
    && forall m :: Update(m) in s.created ==> m in s.notified
  }

  lemma NextToldNotified(s: Session, event: Event)
    requires ToldNotified(s) && OneWake(s)
    ensures ToldNotified(Next(s, event))
  {
    if event.Deliver? {
      if s.receiver.Listening? {
        ReceivedToldNotified(s, event.message);
      }
    } else if event.Take? {
      if s.worker.Getting? && s.queue != [] {
        TakeToldNotified(s);
      }
    } else if event.TearDown? || event.Handle? || event.SendFails? {
      SettlingToldNotified(s, event);
    }
  }

  lemma SettlingToldNotified(s: Session, event: Event)
    requires ToldNotified(s) && (event.TearDown? || event.Handle? || event.SendFails?)
    ensures ToldNotified(Next(s, event))
  {
    if event.TearDown? {
      assert TornDown(s).created == s.created && TornDown(s).notified == s.notified;
    } else if event.Handle? && s.worker.CycleOver? {
      assert AfterCycle(s, s.worker.p, s.worker.outcome).created == s.created;
    }
  }

  lemma ReceivedToldNotified(s: Session, message: Message)
    requires ToldNotified(s)
    ensures ToldNotified(Received(s, message))
  {
    assert forall m :: Update(m) in Received(s, message).created ==> Update(m) in s.created;
  }

  lemma TakeToldNotified(s: Session)
    requires ToldNotified(s) && OneWake(s) && s.queue != []
    ensures ToldNotified(TakeHead(s))
  {
    if s.queue[0].Wake? {
      assert Wakes(s.queue) > 0;
      assert forall m :: Update(m) in TakeHead(s).created ==> Update(m) in s.created || m == s.pendingSeq;
    }
  }

  lemma {:induction false} RunToldNotified(s: Session, events: seq<Event>)
    requires ToldNotified(s) && Inv(s)
    ensures ToldNotified(Run(s, events))
    decreases |events|
  {
    if events != [] {
      NextToldNotified(s, events[0]);
      NextOk(s, events[0]);
      RunToldNotified(Next(s, events[0]), events[1..]);
    }
  }

  /** In every run the worker is told only numbers that were notified. */
  lemma OnlyNotifiedIsTold(events: seq<Event>)
    ensures ToldNotified(Run(FRESH, events))
  {
    RunToldNotified(FRESH, events);
  }
}
