/** One worker session: the prompt queue that _receive fills and _work empties
    (tga3/src/tga3/workers/runtime.py). Each event is the code between two suspension points. */
module Worker {

  /** What a cycle is run with; Update is the blackboard prompt formatted with a sequence number. */
  datatype Prompt = Text(text: string) | Update(latestSeq: nat)

  datatype Item = Queued(prompt: Prompt) | Wake | Stop

  /** The control messages that reach the queue, the flags or the running cycle. */
  datatype Message =
    | SessionStart(prompt: string)
    | AddPrompt(text: string)
    | Pause
    | Resume
    | StopSession
    | SetModel
    | BlackboardChanged(latestSeq: nat)

  datatype Outcome = Output | Cancelled | Raised

  /** _receive reads the next message, or waits for a cycle it has cancelled; over says that this cycle has ended. */
  datatype Receiver = Listening | AwaitingCycle(stopping: bool, over: bool)

  /** _work, with the prompt it holds. CycleOver: the cycle task has ended and _work has not yet resumed. */
  datatype Work =
    | Unborn
    | Getting
    | Holding(p: Prompt, gated: bool)
    | Cycling(p: Prompt)
    | CycleOver(p: Prompt, outcome: Outcome)
    | Telling(p: Prompt)
    | Failing(p: Prompt)
    | Ended
  {
    predicate Holds(q: Prompt) {
      !Unborn? && !Getting? && !Ended? && p == q
    }
  }

  /** queue..broken are the session; the rest is its history. broken: the socket failed at a send, or the session was torn down. */
  datatype Session = Session(
    queue: seq<Item>, paused: bool, stop: bool, pendingSeq: nat, wakeQueued: bool,
    receiver: Receiver, worker: Work, broken: bool,
    notified: set<nat>, created: seq<Prompt>,
    completed: seq<Prompt>, failed: seq<Prompt>, abandoned: seq<Prompt>)

  const FRESH := Session(
    [], false, false, 0, false, Listening, Unborn, false, {}, [], [], [], [])

  datatype Event =
    | Begin(startup: string)
    | Deliver(message: Message)
    | CycleAwaited
    | Take
    | Timeout(periodic: string)
    | PassGate
    | StartCycle
    | CycleEnds(outcome: Outcome)
    | Handle
    | Told
    | Slept
    | SendFails
    | TearDown

  /* ---- _receive ---- */

  function Put(s: Session, p: Prompt): Session {
    s.(queue := s.queue + [Queued(p)])
  }

  function Create(s: Session, p: Prompt): Session {
    Put(s, p).(created := s.created + [p])
  }

  /** _queue_blackboard_update: one wake marker stands for every number noted since the last one was taken. */
  function QueueUpdate(s: Session, latestSeq: nat): Session {
    s.(pendingSeq := if s.pendingSeq >= latestSeq then s.pendingSeq else latestSeq,
       queue := if s.wakeQueued then s.queue else s.queue + [Wake],
       wakeQueued := true,
       notified := s.notified + {latestSeq})
  }

  /** Cancel the running cycle and wait for it, or go straight on. */
  function CancelCycle(s: Session, stopping: bool): Session {
    if s.worker.Cycling? then s.(receiver := AwaitingCycle(stopping, false))
    else if stopping then s.(queue := s.queue + [Stop])
    else s
  }

  function Received(s: Session, message: Message): Session {
    match message
    case SessionStart(prompt) => Create(s, Text(prompt))
    case AddPrompt(text) => Create(s, Text(text))
    case Pause => CancelCycle(s.(paused := true), false)
    case Resume => s.(paused := false)
    case StopSession => CancelCycle(s.(stop := true), true)
    case SetModel => CancelCycle(s, false)
    case BlackboardChanged(latestSeq) => QueueUpdate(s, latestSeq)
  }

  /* ---- _work ---- */

  function LoopTop(s: Session): Session {
    s.(worker := if s.stop then Ended else Getting)
  }

  function TakeHead(s: Session): Session
    requires s.queue != []
  {
    var s1 := s.(queue := s.queue[1..]);
    match s.queue[0]
    case Queued(p) => s1.(worker := Holding(p, false))
    case Stop => s1.(worker := Ended)
    case Wake =>
      s1.(worker := Holding(Update(s.pendingSeq), false), created := s.created + [Update(s.pendingSeq)],
          pendingSeq := 0, wakeQueued := false)
  }

  /** A cancelled prompt goes back to the end of the queue, unless the session is stopping. */
  function Requeue(s: Session, p: Prompt): Session {
    LoopTop(if s.stop then s.(abandoned := s.abandoned + [p]) else Put(s, p))
  }

  function AfterCycle(s: Session, p: Prompt, outcome: Outcome): Session {
    match outcome
    case Output => s.(worker := Telling(p))
    case Cancelled => Requeue(s, p)
    case Raised => s.(worker := Failing(p))
  }

  /** A send fails: before the cycle the exception ends _work, after it the exception is reported as a failure. */
  function SendFailed(s: Session): Session {
    match s.worker
    case Holding(p, _) => s.(worker := Ended, broken := true, abandoned := s.abandoned + [p])
    case Telling(p) => s.(worker := Failing(p), broken := true)
    case Failing(p) => s.(worker := Ended, broken := true, failed := s.failed + [p])
    case _ => s
  }

  /** _receive has ended and _work is cancelled where it is suspended; a running cycle takes the cancellation instead. */
  function TornDown(s: Session): Session {
    var s1 := s.(broken := true);
    match s.worker
    case Getting => s1.(worker := Ended)
    case Holding(p, _) => s1.(worker := Ended, abandoned := s.abandoned + [p])
    case Telling(p) => Requeue(s1, p)
    case Failing(p) => s1.(worker := Ended, failed := s.failed + [p])
    case _ => s1
  }

  /** One event; an event that is not possible in the state changes nothing. */
  function Next(s: Session, event: Event): Session {
    match event
    case Begin(startup) => if s.worker.Unborn? then LoopTop(Create(s, Text(startup))) else s
    case Deliver(message) => if s.receiver.Listening? then Received(s, message) else s
    case CycleAwaited =>
      if s.receiver.AwaitingCycle? && s.receiver.over
      then s.(receiver := Listening, queue := if s.receiver.stopping then s.queue + [Stop] else s.queue)
      else s
    case Take => if s.worker.Getting? && s.queue != [] then TakeHead(s) else s
    case Timeout(periodic) =>
      if s.worker.Getting?
      then s.(worker := Holding(Text(periodic), false), created := s.created + [Text(periodic)])
      else s
    case PassGate => if s.worker.Holding? && !s.paused then s.(worker := s.worker.(gated := true)) else s
    case StartCycle => if s.worker.Holding? && s.worker.gated then s.(worker := Cycling(s.worker.p)) else s
    case CycleEnds(outcome) =>
      if s.worker.Cycling?
      then s.(worker := CycleOver(s.worker.p, outcome),
              receiver := if s.receiver.AwaitingCycle? then s.receiver.(over := true) else s.receiver)
      else s
    case Handle => if s.worker.CycleOver? then AfterCycle(s, s.worker.p, s.worker.outcome) else s
    case Told => if s.worker.Telling? then LoopTop(s.(completed := s.completed + [s.worker.p])) else s
    case Slept => if s.worker.Failing? then LoopTop(s.(failed := s.failed + [s.worker.p])) else s
    case SendFails => SendFailed(s)
    case TearDown => TornDown(s)
  }

  function Run(s: Session, events: seq<Event>): Session
    decreases |events|
  {
    if events == [] then s else Run(Next(s, events[0]), events[1..])
  }

  /* ---- what every run keeps ---- */

  function Count(prompts: seq<Prompt>, p: Prompt): nat {
    if prompts == [] then 0 else (if prompts[0] == p then 1 else 0) + Count(prompts[1..], p)
  }

  function CountQueued(queue: seq<Item>, p: Prompt): nat {
    if queue == [] then 0 else (if queue[0] == Queued(p) then 1 else 0) + CountQueued(queue[1..], p)
  }

  function Wakes(queue: seq<Item>): nat {
    if queue == [] then 0 else (if queue[0].Wake? then 1 else 0) + Wakes(queue[1..])
  }

  /** As often as a prompt was made, so often is it queued, held, completed, failed or abandoned. */
  predicate Conserved(s: Session, p: Prompt) {
    Count(s.created, p) ==
      CountQueued(s.queue, p) + (if s.worker.Holds(p) then 1 else 0)
      + Count(s.completed, p) + Count(s.failed, p) + Count(s.abandoned, p)
  }

  /** A prompt is given up only when the session was told to stop or its socket is gone. */
  predicate NothingGivenUp(s: Session) {
    s.abandoned != [] ==> s.stop || s.broken
  }

  /** At most one wake marker is in the queue and the flag says when. */
  predicate OneWake(s: Session) {
    Wakes(s.queue) == if s.wakeQueued then 1 else 0
  }

  ghost predicate Carried(s: Session, n: nat) {
    exists m :: n <= m && Update(m) in s.created
  }

  /** Each notified number is still pending behind a wake marker, or a prompt at least as new was made from one. */
  ghost predicate NoneLost(s: Session) {
    forall n :: n in s.notified ==> (s.wakeQueued && n <= s.pendingSeq) || Carried(s, n)
  }

  ghost predicate Inv(s: Session) {
    (forall p :: Conserved(s, p)) && NothingGivenUp(s) && OneWake(s) && NoneLost(s)
  }

  lemma {:induction false} PutItem(queue: seq<Item>, item: Item)
    ensures Wakes(queue + [item]) == Wakes(queue) + if item.Wake? then 1 else 0
  {
    if queue == [] {
      assert queue + [item] == [item];
    } else {
      PutItem(queue[1..], item);
      assert (queue + [item])[1..] == queue[1..] + [item];
    }
  }

  ghost predicate Within(prompts: seq<Prompt>, prompts1: seq<Prompt>) {
    forall p :: p in prompts ==> p in prompts1
  }

  /** Numbers stay accounted for while nothing leaves the pending number or the prompts made. */
  lemma StillNoneLost(s: Session, s1: Session)
    requires NoneLost(s) && s1.notified == s.notified && Within(s.created, s1.created)
    requires s.wakeQueued ==> s1.wakeQueued && s1.pendingSeq == s.pendingSeq
    ensures NoneLost(s1)
  {
    forall n | n in s.notified && Carried(s, n) ensures Carried(s1, n) {
      var m :| n <= m && Update(m) in s.created;
      assert Update(m) in s1.created;
    }
  }

  lemma QueueUpdateOk(s: Session, latestSeq: nat)
    requires OneWake(s) && NoneLost(s)
    ensures OneWake(QueueUpdate(s, latestSeq)) && NoneLost(QueueUpdate(s, latestSeq))
  {
    PutItem(s.queue, Wake);
    var s1 := QueueUpdate(s, latestSeq);
    forall n | n in s1.notified && !(n <= s1.pendingSeq) ensures Carried(s1, n) {
      var m :| n <= m && Update(m) in s.created;
    }
  }

  lemma TakeKeepsWakes(s: Session)
    requires OneWake(s) && NoneLost(s) && s.queue != []
    ensures OneWake(TakeHead(s)) && NoneLost(TakeHead(s))
  {
    var s1 := TakeHead(s);
    if !s.queue[0].Wake? {
      StillNoneLost(s, s1);
      return;
    }
    forall n | n in s1.notified ensures Carried(s1, n) {
      if Carried(s, n) {
        var m :| n <= m && Update(m) in s.created;
        assert Update(m) in s1.created;
      } else {
        assert Update(s.pendingSeq) in s1.created;
      }
    }
  }

  /** The markers after an item other than a wake marker was added to the queue. */
  lemma PutKeepsOneWake(s: Session, s1: Session, item: Item)
    requires OneWake(s) && !item.Wake? && s1.queue == s.queue + [item] && s1.wakeQueued == s.wakeQueued
    ensures OneWake(s1)
  {
    PutItem(s.queue, item);
  }

  lemma ReceivedKeepsWakes(s: Session, message: Message)
    requires OneWake(s) && NoneLost(s)
    ensures OneWake(Received(s, message)) && NoneLost(Received(s, message))
  {
    var s1 := Received(s, message);
    match message
    case BlackboardChanged(latestSeq) => QueueUpdateOk(s, latestSeq);
    case SessionStart(prompt) =>
      PutKeepsOneWake(s, s1, Queued(Text(prompt)));
      StillNoneLost(s, s1);
    case AddPrompt(text) =>
      PutKeepsOneWake(s, s1, Queued(Text(text)));
      StillNoneLost(s, s1);
    case StopSession =>
      if !s.worker.Cycling? {
        PutKeepsOneWake(s, s1, Stop);
      }
      StillNoneLost(s, s1);
    case _ =>
      StillNoneLost(s, s1);
  }

  lemma RequeueKeepsWakes(s: Session, p: Prompt)
    requires OneWake(s) && NoneLost(s)
    ensures OneWake(Requeue(s, p)) && NoneLost(Requeue(s, p))
  {
    if !s.stop {
      PutKeepsOneWake(s, Requeue(s, p), Queued(p));
    }
    StillNoneLost(s, Requeue(s, p));
  }

  lemma QueueSameKeepsWakes(s: Session, s1: Session)
    requires OneWake(s) && NoneLost(s) && s1.notified == s.notified && Within(s.created, s1.created)
    requires s1.queue == s.queue && s1.wakeQueued == s.wakeQueued && s1.pendingSeq == s.pendingSeq
    ensures OneWake(s1) && NoneLost(s1)
  {
    StillNoneLost(s, s1);
  }

  lemma AppendKeepsWakes(s: Session, s1: Session, item: Item)
    requires OneWake(s) && NoneLost(s) && s1.notified == s.notified && Within(s.created, s1.created)
    requires s1.queue == s.queue + [item] && !item.Wake? && s1.wakeQueued == s.wakeQueued && s1.pendingSeq == s.pendingSeq
    ensures OneWake(s1) && NoneLost(s1)
  {
    PutKeepsOneWake(s, s1, item);
    StillNoneLost(s, s1);
  }

  lemma TearDownKeepsWakes(s: Session)
    requires OneWake(s) && NoneLost(s)
    ensures OneWake(TornDown(s)) && NoneLost(TornDown(s))
  {
    if s.worker.Telling? {
      QueueSameKeepsWakes(s, s.(broken := true));
      RequeueKeepsWakes(s.(broken := true), s.worker.p);
    } else {
      QueueSameKeepsWakes(s, TornDown(s));
    }
  }

  lemma HandleKeepsWakes(s: Session)
    requires OneWake(s) && NoneLost(s) && s.worker.CycleOver?
    ensures var s1 := AfterCycle(s, s.worker.p, s.worker.outcome); OneWake(s1) && NoneLost(s1)
  {
    if s.worker.outcome == Cancelled {
      RequeueKeepsWakes(s, s.worker.p);
    } else {
      QueueSameKeepsWakes(s, AfterCycle(s, s.worker.p, s.worker.outcome));
    }
  }

  lemma NextKeepsWakes(s: Session, event: Event)
    requires OneWake(s) && NoneLost(s)
    ensures OneWake(Next(s, event)) && NoneLost(Next(s, event))
  {
    var s1 := Next(s, event);
    if s1 == s {
      return;
    }
    match event
    case Begin(startup) => AppendKeepsWakes(s, s1, Queued(Text(startup)));
    case Deliver(message) => ReceivedKeepsWakes(s, message);
    case CycleAwaited =>
      if s.receiver.stopping {
        AppendKeepsWakes(s, s1, Stop);
      } else {
        QueueSameKeepsWakes(s, s1);
      }
    case Take => TakeKeepsWakes(s);
    case Handle => HandleKeepsWakes(s);
    case SendFails => QueueSameKeepsWakes(s, SendFailed(s));
    case TearDown => TearDownKeepsWakes(s);
    case _ => QueueSameKeepsWakes(s, s1);
  }

  /* where prompts are */

  lemma {:induction false} CountAppended(prompts: seq<Prompt>, q: Prompt, p: Prompt)
    ensures Count(prompts + [q], p) == Count(prompts, p) + if q == p then 1 else 0
  {
    if prompts == [] {
      assert prompts + [q] == [q];
    } else {
      CountAppended(prompts[1..], q, p);
      assert (prompts + [q])[1..] == prompts[1..] + [q];
    }
  }

  lemma {:induction false} CountPut(queue: seq<Item>, item: Item, p: Prompt)
    ensures CountQueued(queue + [item], p) == CountQueued(queue, p) + if item == Queued(p) then 1 else 0
  {
    if queue == [] {
      assert queue + [item] == [item];
    } else {
      CountPut(queue[1..], item, p);
      assert (queue + [item])[1..] == queue[1..] + [item];
    }
  }

  lemma CreateConserves(s: Session, q: Prompt, p: Prompt)
    requires Conserved(s, p)
    ensures Conserved(Create(s, q), p)
  {
    CountPut(s.queue, Queued(q), p);
    CountAppended(s.created, q, p);
  }

  /** No prompt moves: at most a marker joins the queue. */
  predicate Unmoved(s: Session, s1: Session, p: Prompt) {
    && s1.worker.Holds(p) == s.worker.Holds(p) && s1.created == s.created
    && s1.completed == s.completed && s1.failed == s.failed && s1.abandoned == s.abandoned
    && (s1.queue == s.queue || s1.queue == s.queue + [Wake] || s1.queue == s.queue + [Stop])
  }

  lemma UnmovedConserves(s: Session, s1: Session, p: Prompt)
    requires Conserved(s, p) && Unmoved(s, s1, p)
    ensures Conserved(s1, p)
  {
    CountPut(s.queue, Wake, p);
    CountPut(s.queue, Stop, p);
  }

  lemma ReceivedConserves(s: Session, message: Message, p: Prompt)
    requires Conserved(s, p)
    ensures Conserved(Received(s, message), p)
  {
    match message
    case SessionStart(prompt) => CreateConserves(s, Text(prompt), p);
    case AddPrompt(text) => CreateConserves(s, Text(text), p);
    case _ => UnmovedConserves(s, Received(s, message), p);
  }

  lemma TakeConserves(s: Session, p: Prompt)
    requires Conserved(s, p) && s.worker.Getting? && s.queue != []
    ensures Conserved(TakeHead(s), p)
  {
    match s.queue[0]
    case Wake => TakeWakeConserves(s, p);
    case Stop => TakeStopConserves(s, p);
    case Queued(q) => TakePromptConserves(s, q, p);
  }

  lemma TakePromptConserves(s: Session, q: Prompt, p: Prompt)
    requires Conserved(s, p) && s.worker.Getting? && s.queue != [] && s.queue[0] == Queued(q)
    ensures Conserved(s.(queue := s.queue[1..], worker := Holding(q, false)), p)
  {
  }

  lemma TakeStopConserves(s: Session, p: Prompt)
    requires Conserved(s, p) && s.worker.Getting? && s.queue != [] && s.queue[0].Stop?
    ensures Conserved(s.(queue := s.queue[1..], worker := Ended), p)
  {
  }

  lemma TakeWakeConserves(s: Session, p: Prompt)
    requires Conserved(s, p) && s.worker.Getting? && s.queue != [] && s.queue[0].Wake?
    ensures Conserved(TakeHead(s), p)
  {
    CountAppended(s.created, Update(s.pendingSeq), p);
    assert TakeHead(s).created == s.created + [Update(s.pendingSeq)];
  }

  lemma RequeueConserves(s: Session, q: Prompt, p: Prompt)
    requires Conserved(s, p) && s.worker.Holds(q)
    ensures Conserved(Requeue(s, q), p)
  {
    CountPut(s.queue, Queued(q), p);
    CountAppended(s.abandoned, q, p);
  }

  /** The prompt at hand is settled: it moves to exactly one of the three final lists. */
  predicate Settles(s: Session, s1: Session, q: Prompt) {
    && s.worker.Holds(q) && (s1.worker.Getting? || s1.worker.Ended?)
    && s1.queue == s.queue && s1.created == s.created
    && (|| (s1.completed == s.completed + [q] && s1.failed == s.failed && s1.abandoned == s.abandoned)
        || (s1.completed == s.completed && s1.failed == s.failed + [q] && s1.abandoned == s.abandoned)
        || (s1.completed == s.completed && s1.failed == s.failed && s1.abandoned == s.abandoned + [q]))
  }

  lemma SettledConserves(s: Session, s1: Session, q: Prompt, p: Prompt)
    requires Conserved(s, p) && Settles(s, s1, q)
    ensures Conserved(s1, p)
  {
    CountAppended(s.completed, q, p);
    CountAppended(s.failed, q, p);
    CountAppended(s.abandoned, q, p);
  }

  lemma BrokenRequeueConserves(s: Session, q: Prompt, p: Prompt)
    requires Conserved(s, p) && s.worker.Holds(q)
    ensures Conserved(Requeue(s.(broken := true), q), p)
  {
    UnmovedConserves(s, s.(broken := true), p);
    RequeueConserves(s.(broken := true), q, p);
  }

  lemma TearDownConserves(s: Session, p: Prompt)
    requires Conserved(s, p)
    ensures Conserved(TornDown(s), p)
  {
    if s.worker.Telling? {
      BrokenRequeueConserves(s, s.worker.p, p);
    } else if s.worker.Holding? || s.worker.Failing? {
      SettledConserves(s, TornDown(s), s.worker.p, p);
    } else {
      UnmovedConserves(s, TornDown(s), p);
    }
  }

  lemma SendFailedConserves(s: Session, p: Prompt)
    requires Conserved(s, p)
    ensures Conserved(SendFailed(s), p)
  {
    match s.worker
    case Holding(q, _) => SettledConserves(s, SendFailed(s), q, p);
    case Failing(q) => SettledConserves(s, SendFailed(s), q, p);
    case _ => UnmovedConserves(s, SendFailed(s), p);
  }

  lemma BeginConserves(s: Session, q: Prompt, p: Prompt)
    requires Conserved(s, p) && s.worker.Unborn?
    ensures Conserved(LoopTop(Create(s, q)), p)
  {
    CreateConserves(s, q, p);
    UnmovedConserves(Create(s, q), LoopTop(Create(s, q)), p);
  }

  lemma TimeoutConserves(s: Session, periodic: string, p: Prompt)
    requires Conserved(s, p)
    ensures Conserved(Next(s, Timeout(periodic)), p)
  {
    CountAppended(s.created, Text(periodic), p);
  }

  lemma HandleConserves(s: Session, p: Prompt)
    requires Conserved(s, p) && s.worker.CycleOver?
    ensures Conserved(AfterCycle(s, s.worker.p, s.worker.outcome), p)
  {
    if s.worker.outcome == Cancelled {
      RequeueConserves(s, s.worker.p, p);
    } else {
      UnmovedConserves(s, AfterCycle(s, s.worker.p, s.worker.outcome), p);
    }
  }

  lemma NextConserves(s: Session, event: Event, p: Prompt)
    requires Conserved(s, p)
    ensures Conserved(Next(s, event), p)
  {
    var s1 := Next(s, event);
    if s1 == s {
      return;
    }
    match event
    case Begin(startup) => BeginConserves(s, Text(startup), p);
    case Deliver(message) => ReceivedConserves(s, message, p);
    case Take => TakeConserves(s, p);
    case Timeout(periodic) => TimeoutConserves(s, periodic, p);
    case Handle => HandleConserves(s, p);
    case Told => SettledConserves(s, s1, s.worker.p, p);
    case Slept => SettledConserves(s, s1, s.worker.p, p);
    case SendFails => SendFailedConserves(s, p);
    case TearDown => TearDownConserves(s, p);
    case _ => UnmovedConserves(s, s1, p);
  }

  lemma NextOk(s: Session, event: Event)
    requires Inv(s)
    ensures Inv(Next(s, event))
  {
    forall p ensures Conserved(Next(s, event), p) {
      NextConserves(s, event, p);
    }
    NextKeepsWakes(s, event);
    OnlyThenGivenUp(s, event);
  }

  lemma OnlyThenGivenUp(s: Session, event: Event)
    requires NothingGivenUp(s)
    ensures NothingGivenUp(Next(s, event))
  {
    match event
    case Deliver(message) => ReceivedKeeps(s, message);
    case Take =>
      if s.queue != [] {
        assert TakeHead(s).abandoned == s.abandoned;
      }
    case Handle =>
    case SendFails => assert s == SendFailed(s) || SendFailed(s).broken;
    case TearDown => assert TornDown(s).broken;
    case _ =>
  }

  lemma {:induction false} RunOk(s: Session, events: seq<Event>)
    requires Inv(s)
    ensures Inv(Run(s, events))
    decreases |events|
  {
    if events != [] {
      NextOk(s, events[0]);
      RunOk(Next(s, events[0]), events[1..]);
    }
  }

  lemma {:induction false} CountIsMembership(prompts: seq<Prompt>, p: Prompt)
    ensures Count(prompts, p) > 0 <==> p in prompts
  {
    if prompts != [] {
      CountIsMembership(prompts[1..], p);
    }
  }

  /* ---- the promises ---- */

  /** In every run every prompt is accounted for exactly once and is given up only after a stop or a broken socket. */
  lemma PromptsConserved(events: seq<Event>)
    ensures (forall p :: Conserved(Run(FRESH, events), p)) && NothingGivenUp(Run(FRESH, events))
  {
    RunOk(FRESH, events);
  }

  /** In every run at most one wake marker is outstanding, the flag says exactly when, and no notified number is lost. */
  lemma WakesCoalesced(events: seq<Event>)
    ensures OneWake(Run(FRESH, events)) && NoneLost(Run(FRESH, events))
  {
    RunOk(FRESH, events);
  }

  /** When the worker waits on an empty queue, and the session neither stopped nor broke, each notified number was
      covered by a cycle that was told at least that number and ran to its end. */
  lemma QuietMeansRun(events: seq<Event>, n: nat)
    requires var s := Run(FRESH, events); s.worker.Getting? && s.queue == [] && !s.stop && !s.broken && n in s.notified
    ensures var s := Run(FRESH, events); exists m :: n <= m && (Update(m) in s.completed || Update(m) in s.failed)
  {
    RunOk(FRESH, events);
    var s := Run(FRESH, events);
    assert Wakes(s.queue) == 0;
    var m :| n <= m && Update(m) in s.created;
    assert Conserved(s, Update(m));
    CountIsMembership(s.created, Update(m));
    CountIsMembership(s.completed, Update(m));
    CountIsMembership(s.failed, Update(m));
  }

  /* ---- what a pause or a model change does to the prompt at hand ---- */

  /** The receiver reads a stop somewhere in the run. */
  predicate HearsStop(s: Session, events: seq<Event>)
    decreases |events|
  {
    events != [] &&
    ((s.receiver.Listening? && events[0] == Deliver(StopSession)) || HearsStop(Next(s, events[0]), events[1..]))
  }

  /** _work is in the cycle of p, or has not yet resumed after it. */
  predicate InCycle(s: Session, p: Prompt) {
    s.worker == Cycling(p) || (s.worker.CycleOver? && s.worker.p == p)
  }

  /** What reading a message leaves alone. */
  lemma ReceivedKeeps(s: Session, message: Message)
    ensures var s1 := Received(s, message);
      && s1.worker == s.worker && s1.abandoned == s.abandoned && s1.broken == s.broken
      && (s1.stop <==> s.stop || message.StopSession?)
  {
  }

  lemma CycleStep(s: Session, event: Event, p: Prompt)
    requires InCycle(s, p) && event != Handle
    ensures var s1 := Next(s, event);
      && InCycle(s1, p) && s1.abandoned == s.abandoned
      && (s1.stop <==> s.stop || (s.receiver.Listening? && event == Deliver(StopSession)))
  {
    match event
    case Deliver(message) =>
      if s.receiver.Listening? {
        ReceivedKeeps(s, message);
      }
    case SendFails => assert SendFailed(s) == s;
    case TearDown => assert TornDown(s) == s.(broken := true);
    case _ =>
  }

  /** Until _work resumes, the prompt stays at hand, nothing is given up, and the stop flag says whether a stop was read. */
  lemma {:induction false} CycleRun(s: Session, events: seq<Event>, p: Prompt)
    requires InCycle(s, p) && Handle !in events
    ensures var s1 := Run(s, events);
      InCycle(s1, p) && s1.abandoned == s.abandoned && (s1.stop <==> s.stop || HearsStop(s, events))
    decreases |events|
  {
    if events != [] {
      CycleStep(s, events[0], p);
      CycleRun(Next(s, events[0]), events[1..], p);
    }
  }

  /** A pause or a model change meets the cycle of p, and any events follow until _work resumes: if the cycle ended
      cancelled, p goes back to the end of the queue if and only if no stop was read in between, and only after such a stop
      is it given up; a cycle that ended otherwise gives nothing up. */
  lemma CancelledCycleRequeuedIff(s: Session, message: Message, events: seq<Event>, p: Prompt)
    requires s.worker == Cycling(p) && s.receiver.Listening? && !s.stop && (message.Pause? || message.SetModel?)
    requires Handle !in events && Run(Next(s, Deliver(message)), events).worker.CycleOver?
    ensures var s0 := Next(s, Deliver(message));
            var s1 := Run(s0, events);
            var s2 := Next(s1, Handle);
      && s1.worker.p == p
      && (s1.worker.outcome == Cancelled ==> (s2.queue == s1.queue + [Queued(p)] <==> !HearsStop(s0, events)))
      && s2.abandoned == if s1.worker.outcome == Cancelled && HearsStop(s0, events) then s.abandoned + [p] else s.abandoned
  {
    var s0 := Next(s, Deliver(message));
    CycleRun(s0, events, p);
    assert |Run(s0, events).queue + [Queued(p)]| == |Run(s0, events).queue| + 1;
  }

  /** A pause is in force: no cycle runs, except one that the receiver has cancelled and waits for. */
  predicate Halted(s: Session) {
    && s.paused
    && !(s.worker.Holding? && s.worker.gated)
    && (s.worker.Cycling? ==> s.receiver.AwaitingCycle? && !s.receiver.over)
  }

  lemma NextKeepsHalted(s: Session, event: Event)
    requires Halted(s) && event != Deliver(Resume)
    ensures Halted(Next(s, event))
  {
    match event
    case Deliver(message) => assert s.receiver.Listening? ==> !s.worker.Cycling?;
    case Handle => assert s.worker.CycleOver? ==> !AfterCycle(s, s.worker.p, s.worker.outcome).worker.Cycling?;
    case _ =>
  }

  lemma {:induction false} RunKeepsHalted(s: Session, events: seq<Event>)
    requires Halted(s) && Deliver(Resume) !in events
    ensures Halted(Run(s, events))
    decreases |events|
  {
    if events != [] {
      NextKeepsHalted(s, events[0]);
      RunKeepsHalted(Next(s, events[0]), events[1..]);
    }
  }

  /** A cycle runs that nobody has cancelled. */
  predicate Working(s: Session) {
    s.worker.Cycling? && s.receiver.Listening?
  }

  ghost predicate WorksBeforeResume(s: Session, events: seq<Event>) {
    Deliver(Resume) !in events && Working(Run(s, events))
  }

  /** After a pause some continuation without a resume runs a cycle that nobody has cancelled, if and only if the pause met
      the worker between its pause check and the start of the cycle. */
  lemma PauseMissesCycleIff(s: Session)
    requires s.receiver.Listening?
    ensures (exists events :: WorksBeforeResume(Next(s, Deliver(Pause)), events)) <==> s.worker.Holding? && s.worker.gated
  {
    var s1 := Next(s, Deliver(Pause));
    if s.worker.Holding? && s.worker.gated {
      assert Run(s1, [StartCycle]) == Run(Next(s1, StartCycle), [StartCycle][1..]) == Next(s1, StartCycle);
      assert WorksBeforeResume(s1, [StartCycle]);
    } else {
      forall events | Deliver(Resume) !in events ensures !Working(Run(s1, events)) {
        RunKeepsHalted(s1, events);
      }
    }
  }

  lemma RunFirst(s: Session, e: Event, rest: seq<Event>)
    ensures Run(s, [e] + rest) == Run(Next(s, e), rest)
  {
    assert ([e] + rest)[1..] == rest;
  }

  /** The worker has taken the startup prompt and passed its pause check. */
  function StartupAtHand(startup: string): Session {
    FRESH.(worker := Holding(Text(startup), true), created := [Text(startup)])
  }

  lemma StartupTaken(startup: string)
    ensures Run(FRESH, [Begin(startup), Take, PassGate]) == StartupAtHand(startup)
  {
    var s1 := FRESH.(worker := Getting, queue := [Queued(Text(startup))], created := [Text(startup)]);
    var s2 := FRESH.(worker := Holding(Text(startup), false), created := [Text(startup)]);
    assert Next(FRESH, Begin(startup)) == s1;
    assert Next(s1, Take) == s2;
    assert Next(s2, PassGate) == StartupAtHand(startup);
    RunFirst(FRESH, Begin(startup), [Take, PassGate]);
    RunFirst(s1, Take, [PassGate]);
    RunFirst(s2, PassGate, []);
    assert [Begin(startup), Take, PassGate] == [Begin(startup)] + [Take, PassGate];
    assert [Take, PassGate] == [Take] + [PassGate] && [PassGate] == [PassGate] + [];
  }

  /** A concrete run: a pause meets the startup prompt there, and its cycle begins in the paused session. */
  lemma CycleStartsWhilePaused(startup: string)
    ensures var s := Run(Run(FRESH, [Begin(startup), Take, PassGate]), [Deliver(Pause), StartCycle]);
      s.paused && Working(s) && s.worker.p == Text(startup)
  {
    StartupTaken(startup);
    var s := StartupAtHand(startup);
    RunFirst(s, Deliver(Pause), [StartCycle]);
    RunFirst(Next(s, Deliver(Pause)), StartCycle, []);
    assert [Deliver(Pause), StartCycle] == [Deliver(Pause)] + [StartCycle] && [StartCycle] == [StartCycle] + [];
  }

  /* ---- the session as an object ---- */

  class WorkerSession {
    var queue: seq<Item>
    var paused: bool
    var stop: bool
    var pendingBlackboardSeq: nat
    var blackboardWakeQueued: bool
    var receiver: Receiver
    var worker: Work
    ghost var broken: bool
    ghost var notified: set<nat>
    ghost var created: seq<Prompt>
    ghost var completed: seq<Prompt>
    ghost var failed: seq<Prompt>
    ghost var abandoned: seq<Prompt>

    ghost function Value(): Session
      reads this
    {
      Session(queue, paused, stop, pendingBlackboardSeq, blackboardWakeQueued, receiver, worker, broken,
              notified, created, completed, failed, abandoned)
    }

    constructor ()
      ensures Value() == FRESH
    {
      queue, paused, stop, pendingBlackboardSeq, blackboardWakeQueued := [], false, false, 0, false;
      receiver, worker, broken := Listening, Unborn, false;
      notified, created, completed, failed, abandoned := {}, [], [], [], [];
    }

    method QueueBlackboardUpdate(latestSeq: nat)
      modifies this
      ensures Value() == QueueUpdate(old(Value()), latestSeq)
    {
      if pendingBlackboardSeq < latestSeq {
        pendingBlackboardSeq := latestSeq;
      }
      if !blackboardWakeQueued {
        blackboardWakeQueued := true;
        queue := queue + [Wake];
      }
      notified := notified + {latestSeq};
    }

    method Put(text: string)
      modifies this
      ensures Value() == Create(old(Value()), Text(text))
    {
      queue := queue + [Queued(Text(text))];
      created := created + [Text(text)];
    }

    method Receive(message: Message)
      requires receiver.Listening?
      modifies this
      ensures Value() == Received(old(Value()), message)
    {
      match message
      case SessionStart(prompt) => Put(prompt);
      case AddPrompt(text) => Put(text);
      case Pause =>
        paused := true;
        if worker.Cycling? {
          receiver := AwaitingCycle(false, false);
        }
      case Resume =>
        paused := false;
      case StopSession =>
        stop := true;
        if worker.Cycling? {
          receiver := AwaitingCycle(true, false);
        } else {
          queue := queue + [Stop];
        }
      case SetModel =>
        if worker.Cycling? {
          receiver := AwaitingCycle(false, false);
        }
      case BlackboardChanged(latestSeq) => QueueBlackboardUpdate(latestSeq);
    }

    /** _work takes the head of the queue: a wake marker becomes a prompt for everything noted so far. */
    method TakeItem()
      requires worker.Getting? && queue != []
      modifies this
      ensures Value() == TakeHead(old(Value()))
    {
      var item := queue[0];
      queue := queue[1..];
      if item.Stop? {
        worker := Ended;
        return;
      }
      var prompt: Prompt;
      if item.Wake? {
        prompt := Update(pendingBlackboardSeq);
        created := created + [prompt];
        pendingBlackboardSeq := 0;
        blackboardWakeQueued := false;
      } else {
        prompt := item.prompt;
      }
      worker := Holding(prompt, false);
    }

    /** _work resumes after the cycle: the three ways out of the try block. */
    method ResumeAfterCycle()
      requires worker.CycleOver?
      modifies this
      ensures Value() == AfterCycle(old(Value()), old(worker.p), old(worker.outcome))
    {
      var prompt := worker.p;
      match worker.outcome
      case Output => worker := Telling(prompt);
      case Raised => worker := Failing(prompt);
      case Cancelled =>
        if !stop {
          queue := queue + [Queued(prompt)];
          worker := Getting;
        } else {
          abandoned := abandoned + [prompt];
          worker := Ended;
        }
    }
  }
}
