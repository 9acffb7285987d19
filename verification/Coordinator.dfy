/** Stopping the workers of a task while their disconnects are being handled, and launching them
    (tga3/src/tga3/coordinator.py). */
module Coordinator {
  import opened Domain

  predicate StopWanted(state: AgentState) {
    state == Stopping || state == Stopped
  }

  /** What a disconnect makes of the actual state, given the desired state that the handler has read. */
  function AfterDisconnect(desired: AgentState): AgentState {
    if StopWanted(desired) then Stopped else AgentFailed
  }

  function Names(workers: seq<string>): set<string> {
    set i | 0 <= i < |workers| :: workers[i]
  }

  /* ---- the interleaving ---- */

  /** A session.disconnected event being handled: it has read the desired state, and then perhaps the row that
      update_agent merges its change into. InMemoryStorage does both reads and the write without suspending. */
  datatype Handler = Reading(agent: string, seen: AgentState) | Merging(agent: string, seen: AgentState, row: AgentRun)

  /** finish_task_workers and stop_task: mark each worker and notify it, stop the containers, then write the final states.
      RaisedOut: notifying worker i raised. */
  datatype Pc =
    | Marking(i: nat)
    | MarkMerging(i: nat, row: AgentRun)
    | Notifying(i: nat)
    | StoppingContainers
    | Finishing(i: nat)
    | Returned
    | RaisedOut(i: nat)

  /** finals: the agents of the last loop, which are the workers again or every agent of the task. told and asked are history:
      the workers that were sent session.stop, and those whose containers were asked to stop. */
  datatype State = State(
    agents: map<string, AgentRun>, workers: seq<string>, finals: seq<string>, pc: Pc, handlers: seq<Handler>,
    told: seq<string>, asked: set<string>)

  datatype Event =
    | Step
    | NotifyFails
    | Disconnected(agent: string)
    | Start(agent: string)
    | ReadRow(h: nat)
    | WriteRow(h: nat)

  function Set(s: State, agent: string, run: AgentRun): State {
    s.(agents := s.agents[agent := run])
  }

  function Proceed(s: State): State {
    match s.pc
    case Marking(i) =>
      if i < |s.workers| && s.workers[i] in s.agents then s.(pc := MarkMerging(i, s.agents[s.workers[i]]))
      else s.(pc := StoppingContainers)
    case MarkMerging(i, row) =>
      if i < |s.workers| then Set(s, s.workers[i], row.(desired := Stopping)).(pc := Notifying(i)) else s
    case Notifying(i) => s.(pc := Marking(i + 1), told := if i < |s.workers| then s.told + [s.workers[i]] else s.told)
    case StoppingContainers => s.(pc := Finishing(0), asked := Names(s.workers))
    case Finishing(i) =>
      if i < |s.finals| then Set(s, s.finals[i], AgentRun(Stopped, Stopped)).(pc := Finishing(i + 1))
      else s.(pc := Returned)
    case _ => s
  }

  function Remove(handlers: seq<Handler>, h: nat): seq<Handler>
    requires h < |handlers|
  {
    handlers[..h] + handlers[h + 1..]
  }

  function Next(s: State, event: Event): State {
    match event
    case Step => Proceed(s)
    case NotifyFails => if s.pc.Notifying? then s.(pc := RaisedOut(s.pc.i)) else s
    case Disconnected(a) =>
      if a in s.agents then Set(s, a, s.agents[a].(actual := AfterDisconnect(s.agents[a].desired))) else s
    case Start(a) => if a in s.agents then s.(handlers := s.handlers + [Reading(a, s.agents[a].desired)]) else s
    case ReadRow(h) =>
      if h < |s.handlers| && s.handlers[h].Reading? && s.handlers[h].agent in s.agents
      then s.(handlers := s.handlers[h := Merging(s.handlers[h].agent, s.handlers[h].seen, s.agents[s.handlers[h].agent])])
      else s
    case WriteRow(h) =>
      if h < |s.handlers| && s.handlers[h].Merging?
      then Set(s, s.handlers[h].agent, s.handlers[h].row.(actual := AfterDisconnect(s.handlers[h].seen)))
             .(handlers := Remove(s.handlers, h))
      else s
  }

  function Run(s: State, events: seq<Event>): State
    decreases |events|
  {
    if events == [] then s else Run(Next(s, events[0]), events[1..])
  }

  /* ---- when an agent is safe from FAILED ---- */

  /** The handler will not turn its agent to FAILED, and will not take its wish to stop back. */
  predicate Harmless(h: Handler) {
    StopWanted(h.seen) && (h.Merging? ==> StopWanted(h.row.desired))
  }

  predicate NoStaleHandler(s: State, agent: string) {
    forall h :: 0 <= h < |s.handlers| && s.handlers[h].agent == agent ==> Harmless(s.handlers[h])
  }

  /** The coordinator has written the mark of this worker, or never will. */
  predicate Marked(s: State, agent: string) {
    match s.pc
    case Marking(i) => forall j :: i <= j < |s.workers| ==> s.workers[j] != agent
    case MarkMerging(i, _) => forall j :: i <= j < |s.workers| ==> s.workers[j] != agent
    case Notifying(i) => forall j :: i < j < |s.workers| ==> s.workers[j] != agent
    case _ => true
  }

  predicate Safe(s: State, agent: string) {
    agent in s.agents && StopWanted(s.agents[agent].desired) && NoStaleHandler(s, agent) && Marked(s, agent)
  }

  lemma ProceedKeepsSafe(s: State, agent: string)
    requires Safe(s, agent)
    ensures Safe(Proceed(s), agent)
    ensures s.agents[agent].actual != AgentFailed ==> Proceed(s).agents[agent].actual != AgentFailed
    ensures s.agents[agent].actual == Stopped ==> Proceed(s).agents[agent].actual == Stopped
  {
    assert Proceed(s).handlers == s.handlers;
  }

  lemma HandlerKeepsSafe(s: State, event: Event, agent: string)
    requires Safe(s, agent) && (event.ReadRow? || event.WriteRow?)
    ensures Safe(Next(s, event), agent)
    ensures s.agents[agent].actual != AgentFailed ==> Next(s, event).agents[agent].actual != AgentFailed
    ensures s.agents[agent].actual == Stopped ==> Next(s, event).agents[agent].actual == Stopped
  {
    if event.h < |s.handlers| {
      assert s.handlers[event.h].agent == agent ==> Harmless(s.handlers[event.h]);
    }
    assert Marked(Next(s, event), agent);
  }

  lemma NextKeepsSafe(s: State, event: Event, agent: string)
    requires Safe(s, agent)
    ensures Safe(Next(s, event), agent)
    ensures s.agents[agent].actual != AgentFailed ==> Next(s, event).agents[agent].actual != AgentFailed
    ensures s.agents[agent].actual == Stopped ==> Next(s, event).agents[agent].actual == Stopped
  {
    if event.Step? {
      ProceedKeepsSafe(s, agent);
    } else if event.ReadRow? || event.WriteRow? {
      HandlerKeepsSafe(s, event, agent);
    }
  }

  lemma {:induction false} SafeNeverFails(s: State, agent: string, events: seq<Event>)
    requires Safe(s, agent) && s.agents[agent].actual != AgentFailed
    ensures Safe(Run(s, events), agent) && Run(s, events).agents[agent].actual != AgentFailed
    decreases |events|
  {
    if events != [] {
      NextKeepsSafe(s, events[0], agent);
      SafeNeverFails(Next(s, events[0]), agent, events[1..]);
    }
  }

  /** Once its final state is written such an agent is reported stopped ever after, also by handlers that read late. */
  lemma {:induction false} SafeStaysStopped(s: State, agent: string, events: seq<Event>)
    requires Safe(s, agent) && s.agents[agent].actual == Stopped
    ensures agent in Run(s, events).agents && Run(s, events).agents[agent].actual == Stopped
    decreases |events|
  {
    if events != [] {
      NextKeepsSafe(s, events[0], agent);
      SafeStaysStopped(Next(s, events[0]), agent, events[1..]);
    }
  }

  ghost predicate CanFail(s: State, agent: string) {
    exists events :: FailsAfter(s, agent, events)
  }

  predicate FailsAfter(s: State, agent: string, events: seq<Event>) {
    var s1 := Run(s, events);
    agent in s1.agents && s1.agents[agent].actual == AgentFailed
  }

  lemma RunTwo(s: State, e0: Event, e1: Event)
    ensures Run(s, [e0, e1]) == Next(Next(s, e0), e1)
  {
    var s1 := Next(s, e0);
    assert [e0, e1][1..] == [e1];
    assert Run(s1, [e1]) == Run(Next(s1, e1), [e1][1..]) == Next(s1, e1);
  }

  /** A handler that saw the agent wanted running writes FAILED within two steps. */
  lemma StaleReadFails(s: State, agent: string, h: nat)
    requires agent in s.agents && h < |s.handlers| && s.handlers[h].agent == agent && !StopWanted(s.handlers[h].seen)
    ensures CanFail(s, agent)
  {
    RunTwo(s, ReadRow(h), WriteRow(h));
    assert FailsAfter(s, agent, [ReadRow(h), WriteRow(h)]);
  }

  /** A handler that merges into a row read before the mark takes the wish to stop back; the next disconnect then fails. */
  lemma StaleRowFails(s: State, agent: string, h: nat)
    requires agent in s.agents && h < |s.handlers| && s.handlers[h].agent == agent
    requires s.handlers[h].Merging? && !StopWanted(s.handlers[h].row.desired)
    ensures CanFail(s, agent)
  {
    RunTwo(s, WriteRow(h), Disconnected(agent));
    assert FailsAfter(s, agent, [WriteRow(h), Disconnected(agent)]);
  }

  /** A handler writes once: it merges what the desired state it saw makes of the disconnect into the row it read, and is gone. */
  lemma HandlerWritesOnce(s: State, h: nat)
    requires h < |s.handlers| && s.handlers[h].Merging?
    ensures var s1 := Next(s, WriteRow(h));
            var a := s.handlers[h].agent;
      && s1.handlers == s.handlers[..h] + s.handlers[h + 1..]
      && a in s1.agents && s1.agents[a].desired == s.handlers[h].row.desired
      && s1.agents[a].actual == (if s.handlers[h].seen in {Stopping, Stopped} then Stopped else AgentFailed)
      && s1.agents - {a} == s.agents - {a} && s1.pc == s.pc
  {
  }

  /** The exact condition of an orderly stop: after the coordinator has marked a worker, no continuation turns it to
      FAILED if and only if no disconnect handler of that worker is in flight that read its state before the mark. */
  lemma OrderlyIff(s: State, agent: string)
    requires agent in s.agents && s.agents[agent].actual != AgentFailed && s.agents[agent].desired == Stopping
    requires Marked(s, agent)
    ensures !CanFail(s, agent) <==> NoStaleHandler(s, agent)
  {
    if NoStaleHandler(s, agent) {
      forall events ensures !FailsAfter(s, agent, events) {
        SafeNeverFails(s, agent, events);
      }
    } else {
      var h :| 0 <= h < |s.handlers| && s.handlers[h].agent == agent && !Harmless(s.handlers[h]);
      if StopWanted(s.handlers[h].seen) {
        StaleRowFails(s, agent, h);
      } else {
        StaleReadFails(s, agent, h);
      }
    }
  }

  /** Steps of the coordinator alone. */
  function Proceeds(s: State, n: nat): State
    decreases n
  {
    if n == 0 then s else Proceeds(Proceed(s), n - 1)
  }

  lemma {:induction false} StepsProceed(s: State, n: nat)
    ensures Run(s, seq(n, _ => Step)) == Proceeds(s, n)
    decreases n
  {
    if n > 0 {
      assert seq(n, _ => Step)[1..] == seq(n - 1, _ => Step);
      StepsProceed(Proceed(s), n - 1);
    }
  }

  lemma {:induction false} RunConcat(s: State, a: seq<Event>, b: seq<Event>)
    ensures Run(s, a + b) == Run(Run(s, a), b)
    decreases |a|
  {
    if a == [] {
      assert a + b == b;
    } else {
      assert (a + b)[1..] == a[1..] + b;
      RunConcat(Next(s, a[0]), a[1..], b);
    }
  }

  /** One running worker, whose disconnect handler has read its state when the stop begins. */
  function Surprised(w: string): State {
    State(map[w := AgentRun(AgentRunning, AgentRunning)], [w], [w], Marking(0), [Reading(w, AgentRunning)], [], {})
  }

  lemma SurpriseStarts(w: string)
    ensures Run(Initial(map[w := AgentRun(AgentRunning, AgentRunning)], [w], [w]), [Start(w)]) == Surprised(w)
  {
    var s := Initial(map[w := AgentRun(AgentRunning, AgentRunning)], [w], [w]);
    assert Run(s, [Start(w)]) == Run(Next(s, Start(w)), [Start(w)][1..]);
  }

  /** A concrete run: the worker is marked while the handler is in flight, so it is not safe. */
  lemma MarkedUnderStaleHandler(w: string)
    ensures var s := Proceeds(Surprised(w), 2);
      && w in s.agents && s.agents[w] == AgentRun(Stopping, AgentRunning) && Marked(s, w) && !NoStaleHandler(s, w)
  {
    var s := Proceed(Proceed(Surprised(w)));
    assert Proceeds(Surprised(w), 2) == s;
    assert s.handlers[0] == Reading(w, AgentRunning);
  }

  /** And to its end: the stop returns, then the handler merges its change, and the stopped worker is FAILED. */
  lemma StoppedWorkerFails(w: string)
    ensures var s := Run(Initial(map[w := AgentRun(AgentRunning, AgentRunning)], [w], [w]),
                         [Start(w)] + seq(7, _ => Step) + [ReadRow(0), WriteRow(0)]);
      s.pc.Returned? && w in s.agents && s.agents[w] == AgentRun(Stopped, AgentFailed)
  {
    var s0 := Initial(map[w := AgentRun(AgentRunning, AgentRunning)], [w], [w]);
    RunConcat(s0, [Start(w)] + seq(7, _ => Step), [ReadRow(0), WriteRow(0)]);
    RunConcat(s0, [Start(w)], seq(7, _ => Step));
    SurpriseStarts(w);
    StepsProceed(Surprised(w), 7);
    StopReturns(w);
    RunTwo(Proceeds(Surprised(w), 7), ReadRow(0), WriteRow(0));
  }

  lemma StopReturns(w: string)
    ensures Proceeds(Surprised(w), 7) ==
      State(map[w := AgentRun(Stopped, Stopped)], [w], [w], Returned, [Reading(w, AgentRunning)], [w], {w})
  {
    var s1 := Proceed(Surprised(w));
    var s2 := Proceed(s1);
    var s3 := Proceed(s2);
    var s4 := Proceed(s3);
    var s5 := Proceed(s4);
    var s6 := Proceed(s5);
    assert s6.agents == map[w := AgentRun(Stopped, Stopped)];
    assert Proceeds(Surprised(w), 7) == Proceeds(s3, 4) == Proceeds(s6, 1) == Proceed(s6);
  }

  /* ---- the whole stop over InMemoryStorage: handlers never suspend ---- */

  predicate HandledAtOnce(events: seq<Event>) {
    forall i :: 0 <= i < |events| ==> events[i].Step? || events[i].NotifyFails? || events[i].Disconnected?
  }

  function Initial(agents: map<string, AgentRun>, workers: seq<string>, finals: seq<string>): State {
    State(agents, workers, finals, Marking(0), [], [], {})
  }

  predicate Distinct(names: seq<string>) {
    forall i, j :: 0 <= i < j < |names| ==> names[i] != names[j]
  }

  /** How many workers have been marked by now. */
  function MarkedCount(s: State): nat {
    match s.pc
    case Marking(i) => i
    case MarkMerging(i, _) => i
    case Notifying(i) => i + 1
    case RaisedOut(i) => i + 1
    case _ => |s.workers|
  }

  function FinishedCount(s: State): nat {
    match s.pc
    case Finishing(i) => i
    case Returned => |s.finals|
    case _ => 0
  }

  predicate StopInv(s: State) {
    && s.handlers == [] && Distinct(s.workers)
    && (forall i :: 0 <= i < |s.workers| ==> s.workers[i] in s.agents)
    && (forall i :: 0 <= i < |s.finals| ==> s.finals[i] in s.agents)
    && (s.pc.MarkMerging? || s.pc.Notifying? ==> s.pc.i < |s.workers|)
    && (s.pc.Finishing? ==> s.pc.i <= |s.finals|)
    && MarkedCount(s) <= |s.workers|
    && (forall i :: 0 <= i < MarkedCount(s) ==> StopWanted(s.agents[s.workers[i]].desired))
    && (forall i :: 0 <= i < FinishedCount(s) ==> s.agents[s.finals[i]] == AgentRun(Stopped, Stopped))
  }

  lemma StopStep(s: State)
    requires StopInv(s)
    ensures StopInv(Proceed(s))
  {
    var s1 := Proceed(s);
    if s.pc.Finishing? && s.pc.i < |s.finals| {
      forall i | 0 <= i < |s.workers| ensures StopWanted(s1.agents[s.workers[i]].desired) {
      }
    }
  }

  lemma {:induction false} StopRun(s: State, events: seq<Event>)
    requires StopInv(s) && HandledAtOnce(events)
    ensures StopInv(Run(s, events)) && Run(s, events).workers == s.workers && Run(s, events).finals == s.finals
    decreases |events|
  {
    if events != [] {
      if events[0].Step? {
        StopStep(s);
      }
      StopRun(Next(s, events[0]), events[1..]);
    }
  }

  /** How many workers have been sent session.stop by now. */
  function ToldCount(s: State): nat {
    match s.pc
    case Marking(i) => i
    case MarkMerging(i, _) => i
    case Notifying(i) => i
    case RaisedOut(i) => i
    case _ => |s.workers|
  }

  /** The workers were told in order, and their containers are asked to stop after all of them were. */
  predicate ToldInv(s: State) {
    && ToldCount(s) <= |s.workers| && s.told == s.workers[..ToldCount(s)]
    && s.asked == if s.pc.Finishing? || s.pc.Returned? then Names(s.workers) else {}
  }

  lemma NextTells(s: State, event: Event)
    requires StopInv(s) && ToldInv(s) && (event.Step? || event.NotifyFails? || event.Disconnected?)
    ensures ToldInv(Next(s, event))
  {
    if event.Step? && s.pc.Notifying? {
      assert s.workers[..s.pc.i + 1] == s.workers[..s.pc.i] + [s.workers[s.pc.i]];
    }
  }

  lemma {:induction false} RunTells(s: State, events: seq<Event>)
    requires StopInv(s) && ToldInv(s) && HandledAtOnce(events)
    ensures ToldInv(Run(s, events)) && Run(s, events).workers == s.workers
    decreases |events|
  {
    if events != [] {
      NextTells(s, events[0]);
      if events[0].Step? {
        StopStep(s);
      }
      RunTells(Next(s, events[0]), events[1..]);
    }
  }

  /** Steps the coordinator still has to take. */
  function StepsLeft(s: State): int {
    var last := 2 + |s.finals|;
    match s.pc
    case Marking(i) => 3 * (|s.workers| - i) + 1 + last
    case MarkMerging(i, _) => 3 * (|s.workers| - i) + last
    case Notifying(i) => 3 * (|s.workers| - i) - 1 + last
    case StoppingContainers => last
    case Finishing(i) => 1 + |s.finals| - i
    case _ => 0
  }

  lemma ProceedIsNearer(s: State)
    requires StopInv(s) && !s.pc.Returned? && !s.pc.RaisedOut?
    ensures 0 <= StepsLeft(Proceed(s)) < StepsLeft(s) && !Proceed(s).pc.RaisedOut?
  {
  }

  /** From every state of the stop in which no notification has raised, the coordinator's own steps lead to its return. */
  lemma {:induction false} StopCanReturn(s: State) returns (n: nat)
    requires StopInv(s) && !s.pc.RaisedOut?
    ensures Proceeds(s, n).pc.Returned?
    decreases StepsLeft(s)
  {
    if s.pc.Returned? {
      n := 0;
    } else {
      ProceedIsNearer(s);
      StopStep(s);
      var m := StopCanReturn(Proceed(s));
      n := m + 1;
    }
  }

  /** With the in-memory storage: when the stop returns, every agent of its last loop is wanted stopped and is stopped, every
      worker was told to stop, in order, and every worker's container was asked to, whatever disconnects were handled in
      between. */
  lemma AllStoppedOnReturn(agents: map<string, AgentRun>, workers: seq<string>, finals: seq<string>, events: seq<Event>)
    requires StopInv(Initial(agents, workers, finals)) && HandledAtOnce(events)
    requires Run(Initial(agents, workers, finals), events).pc.Returned?
    ensures forall i :: 0 <= i < |finals| ==>
      finals[i] in Run(Initial(agents, workers, finals), events).agents
      && Run(Initial(agents, workers, finals), events).agents[finals[i]] == AgentRun(Stopped, Stopped)
    ensures Run(Initial(agents, workers, finals), events).told == workers
    ensures Run(Initial(agents, workers, finals), events).asked == Names(workers)
  {
    StopRun(Initial(agents, workers, finals), events);
    RunTells(Initial(agents, workers, finals), events);
  }

  /** With the in-memory storage: a worker that was not FAILED when it was marked never becomes FAILED. */
  lemma MarkedNeverFails(s: State, i: nat, events: seq<Event>)
    requires StopInv(s) && HandledAtOnce(events) && i < MarkedCount(s) && s.agents[s.workers[i]].actual != AgentFailed
    ensures s.workers[i] in Run(s, events).agents && Run(s, events).agents[s.workers[i]].actual != AgentFailed
  {
    SafeNeverFails(s, s.workers[i], events);
  }

  /* ---- a stop that raises ---- */

  /** Up to the containers, the desired states of the workers that are not yet marked are the ones of the beginning. */
  predicate UnmarkedKept(s: State, agents: map<string, AgentRun>) {
    && (forall j :: MarkedCount(s) <= j < |s.workers| ==>
          s.workers[j] in s.agents && s.workers[j] in agents && s.agents[s.workers[j]].desired == agents[s.workers[j]].desired)
    && (s.pc.Marking? || s.pc.MarkMerging? || s.pc.Notifying? || s.pc.StoppingContainers? || s.pc.RaisedOut? ==> s.asked == {})
  }

  lemma NextKeepsUnmarked(s: State, event: Event, agents: map<string, AgentRun>)
    requires StopInv(s) && UnmarkedKept(s, agents) && (event.Step? || event.NotifyFails? || event.Disconnected?)
    ensures UnmarkedKept(Next(s, event), agents)
  {
    var s1 := Next(s, event);
    forall j | MarkedCount(s1) <= j < |s1.workers|
      ensures s1.workers[j] in s1.agents && s1.workers[j] in agents
      ensures s1.agents[s1.workers[j]].desired == agents[s1.workers[j]].desired
    {
      assert MarkedCount(s) <= j;
    }
  }

  lemma {:induction false} RunKeepsUnmarked(s: State, events: seq<Event>, agents: map<string, AgentRun>)
    requires StopInv(s) && UnmarkedKept(s, agents) && HandledAtOnce(events)
    ensures StopInv(Run(s, events)) && UnmarkedKept(Run(s, events), agents) && Run(s, events).workers == s.workers
    decreases |events|
  {
    if events != [] {
      NextKeepsUnmarked(s, events[0], agents);
      if events[0].Step? {
        StopStep(s);
      }
      RunKeepsUnmarked(Next(s, events[0]), events[1..], agents);
    }
  }

  /** A stop whose notification of worker i raises ends there, with the in-memory storage: of the workers nobody wanted stopped
      before, exactly those after i are still not wanted stopped; only those before i were told, and no container has been
      asked to stop. */
  lemma RaisedStopLeavesIff(
    agents: map<string, AgentRun>, workers: seq<string>, finals: seq<string>, events: seq<Event>, j: nat)
    requires StopInv(Initial(agents, workers, finals)) && HandledAtOnce(events)
    requires Run(Initial(agents, workers, finals), events).pc.RaisedOut?
    requires j < |workers| && !StopWanted(agents[workers[j]].desired)
    ensures var s := Run(Initial(agents, workers, finals), events);
      && s.pc.i < |workers| && s.asked == {} && workers[j] in s.agents
      && (!StopWanted(s.agents[workers[j]].desired) <==> j > s.pc.i)
      && s.told == workers[..s.pc.i]
  {
    RunTells(Initial(agents, workers, finals), events);
    RunKeepsUnmarked(Initial(agents, workers, finals), events, agents);
  }

  /** A concrete run: telling the first of two running workers raises, and the second keeps running, wanted running. */
  lemma RaisedStopLeavesWorker(w0: string, w1: string)
    requires w0 != w1
    ensures var running := AgentRun(AgentRunning, AgentRunning);
            var s := Run(Initial(map[w0 := running, w1 := running], [w0, w1], [w0, w1]), [Step, Step, NotifyFails]);
      s.pc == RaisedOut(0) && s.asked == {} && s.told == [] && s.agents == map[w0 := AgentRun(Stopping, AgentRunning), w1 := running]
  {
    var s0 := Initial(map[w0 := AgentRun(AgentRunning, AgentRunning), w1 := AgentRun(AgentRunning, AgentRunning)], [w0, w1], [w0, w1]);
    var s2 := Proceed(Proceed(s0));
    assert s2.pc == Notifying(0);
    assert s2.agents == map[w0 := AgentRun(Stopping, AgentRunning), w1 := AgentRun(AgentRunning, AgentRunning)];
    assert [Step, Step, NotifyFails] == [Step, Step] + [NotifyFails];
    RunTwo(s0, Step, Step);
    RunConcat(s0, [Step, Step], [NotifyFails]);
    assert Run(s2, [NotifyFails]) == Run(Next(s2, NotifyFails), [NotifyFails][1..]);
  }

  /* ---- launching ---- */

  /** How starting one worker went: which of its steps raised, if any. */
  datatype Launch = Fine | NotMarked | NotLaunched | NotRecorded

  /** The index of the first worker that could not be started, or the number of workers. */
  function FirstFailure(launches: seq<Launch>): (k: nat)
    ensures k <= |launches| && (forall i :: 0 <= i < k ==> launches[i].Fine?) && (k < |launches| ==> !launches[k].Fine?)
  {
    if launches == [] || !launches[0].Fine? then 0 else 1 + FirstFailure(launches[1..])
  }

  /** These workers are marked as starting, and the others are as they were. */
  function WithStarting(before: map<string, AgentState>, started: set<string>): map<string, AgentState> {
    map w | w in before.Keys + started :: if w in started then AgentStarting else before[w]
  }

  lemma StartingAppended(before: map<string, AgentState>, started: set<string>, worker: string)
    ensures WithStarting(before, started)[worker := AgentStarting] == WithStarting(before, started + {worker})
  {
  }

  lemma StartedAmong(workers: seq<string>, k: nat)
    requires k <= |workers|
    ensures Names(workers[..k]) <= Names(workers)
  {
    forall w | w in Names(workers[..k]) ensures w in Names(workers) {
      var i :| 0 <= i < k && workers[..k][i] == w;
      assert workers[i] == w;
    }
  }

  class TaskCoordinator {
    var state: RunState
    var actual: map<string, AgentState>
    /** Containers that were started, and those a stop was issued for, since the coordinator was made. */
    var launched: set<string>
    var stops: set<string>

    constructor ()
      ensures state == Created && launched == {} && stops == {} && actual == map[]
    {
      state, actual, launched, stops := Created, map[], {}, {};
    }

    /** The try block of create_and_start. finalOk: the write of RUNNING succeeds; failureOk: the write of FAILED does.
        A stop is issued for every worker, whichever worker failed, exactly when the failure itself could be written. */
    method LaunchWorkers(workers: seq<string>, launches: seq<Launch>, finalOk: bool, failureOk: bool) returns (ok: bool)
      requires |launches| == |workers|
      modifies this
      ensures ok <==> finalOk && forall i :: 0 <= i < |launches| ==> launches[i].Fine?
      ensures state == if ok then Running else if failureOk then Failed else old(state)
      ensures stops == if !ok && failureOk then old(stops) + Names(workers) else old(stops)
      ensures var k := FirstFailure(launches);
        launched == old(launched) + Names(workers[..k]) + if k < |workers| && launches[k].NotRecorded? then {workers[k]} else {}
      ensures !ok && failureOk ==> launched - old(launched) <= stops
      ensures var k := FirstFailure(launches);
        actual == WithStarting(old(actual), Names(workers[..k]) + if k < |workers| && !launches[k].NotMarked? then {workers[k]} else {})
    {
      ok := StartAll(workers, launches);
      if ok && finalOk {
        state := Running;
        return;
      }
      ok := false;
      if failureOk {
        state := Failed;
        IssueStops(workers);
        StartedAmong(workers, FirstFailure(launches));
      }
    }

    /** The launching loop: each worker is marked as starting and its container is launched, until a step raises. */
    method StartAll(workers: seq<string>, launches: seq<Launch>) returns (ok: bool)
      requires |launches| == |workers|
      modifies this`actual, this`launched
      ensures var k := FirstFailure(launches);
        && (ok <==> k == |workers|)
        && launched == old(launched) + Names(workers[..k]) + (if k < |workers| && launches[k].NotRecorded? then {workers[k]} else {})
        && actual == WithStarting(old(actual), Names(workers[..k]) + if k < |workers| && !launches[k].NotMarked? then {workers[k]} else {})
    {
      var n := FirstFailure(launches);
      var i := 0;
      while i < |workers|
        invariant 0 <= i <= n <= |workers|
        invariant launched == old(launched) + Names(workers[..i])
        invariant actual == WithStarting(old(actual), Names(workers[..i]))
      {
        if launches[i].NotMarked? {
          return false;
        }
        StartingAppended(old(actual), Names(workers[..i]), workers[i]);
        actual := actual[workers[i] := AgentStarting];
        if launches[i].NotLaunched? {
          return false;
        }
        launched := launched + {workers[i]};
        if launches[i].NotRecorded? {
          return false;
        }
        assert workers[..i + 1] == workers[..i] + [workers[i]];
        NamesAppended(workers[..i], workers[i]);
        i := i + 1;
      }
      return true;
    }

    method IssueStops(workers: seq<string>)
      modifies this`stops
      ensures stops == old(stops) + Names(workers)
    {
      var k := 0;
      while k < |workers|
        invariant 0 <= k <= |workers|
        invariant stops == old(stops) + Names(workers[..k])
      {
        assert workers[..k + 1] == workers[..k] + [workers[k]];
        NamesAppended(workers[..k], workers[k]);
        stops := stops + {workers[k]};
        k := k + 1;
      }
      assert workers[..k] == workers;
    }
  }

  lemma NamesAppended(workers: seq<string>, worker: string)
    ensures Names(workers + [worker]) == Names(workers) + {worker}
  {
    var more := workers + [worker];
    forall w | w in Names(workers) + {worker} ensures w in Names(more) {
      if w == worker {
        assert more[|workers|] == w;
      } else {
        var i :| 0 <= i < |workers| && workers[i] == w;
        assert more[i] == w;
      }
    }
  }
}
