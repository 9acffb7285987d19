/** The registry of worker connections and the requests pending on each of them (tga3/src/tga3/gateway.py). */
module Gateway {
  import opened Domain

  /** A connection belongs to one agent of one task. */
  type Key = (Uuid, string)

  /* ---- the registry: C is a connection, as an object or as a number ---- */

  function AttachTo<C>(connections: map<Key, C>, key: Key, c: C): map<Key, C> {
    connections[key := c]
  }

  predicate Current<C(==)>(connections: map<Key, C>, key: Key, c: C) {
    key in connections && connections[key] == c
  }

  /** The teardown of a connection removes its own registration and nobody else's. */
  function Leave<C(==)>(connections: map<Key, C>, key: Key, c: C): map<Key, C> {
    if Current(connections, key, c) then connections - {key} else connections
  }

  function DropTask<C>(connections: map<Key, C>, t: Uuid): map<Key, C> {
    map k | k in connections && k.0 != t :: connections[k]
  }

  /* ---- all interleavings of attach, teardown and disconnect_task ---- */

  /** attach() closes the connection it replaced, serves its socket, has left the loop, is about to report the disconnect,
      or has ended. Stranded: closing the replaced socket raised, and attach() ended before its try block. */
  datatype Phase = Opening | Serving | Leaving | Firing | Gone | Stranded

  datatype Conn = Conn(key: Key, phase: Phase, replaced: bool, detached: bool)

  /** Connections are numbered in the order they attach; fired lists those that reported session.disconnected. */
  datatype Registry = Registry(conns: seq<Conn>, connections: map<Key, nat>, fired: seq<nat>)

  const NOBODY := Registry([], map[], [])

  datatype Event =
    | Attach(key: Key)
    | OldClosed(id: nat)
    | OldCloseFails(id: nat)
    | SocketEnds(id: nat)
    | Teardown(id: nat)
    | Fire(id: nat)
    | DisconnectTask(t: Uuid)

  function MoveTo(conns: seq<Conn>, id: nat, phase: Phase): seq<Conn>
    requires id < |conns|
  {
    conns[id := conns[id].(phase := phase)]
  }

  function Replace(s: Registry, key: Key): seq<Conn> {
    if key in s.connections && s.connections[key] < |s.conns|
    then s.conns[s.connections[key] := s.conns[s.connections[key]].(replaced := true)]
    else s.conns
  }

  function Detach(s: Registry, t: Uuid): seq<Conn> {
    seq(|s.conns|, i requires 0 <= i < |s.conns| =>
      if s.conns[i].key.0 == t && Current(s.connections, s.conns[i].key, i) then s.conns[i].(detached := true) else s.conns[i])
  }

  function Next(s: Registry, event: Event): Registry {
    match event
    case Attach(key) =>
      Registry(Replace(s, key) + [Conn(key, if key in s.connections then Opening else Serving, false, false)],
               AttachTo(s.connections, key, |s.conns|), s.fired)
    case OldClosed(id) =>
      if id < |s.conns| && s.conns[id].phase.Opening? then s.(conns := MoveTo(s.conns, id, Serving)) else s
    case OldCloseFails(id) =>
      if id < |s.conns| && s.conns[id].phase.Opening? then s.(conns := MoveTo(s.conns, id, Stranded)) else s
    case SocketEnds(id) =>
      if id < |s.conns| && s.conns[id].phase.Serving? then s.(conns := MoveTo(s.conns, id, Leaving)) else s
    case Teardown(id) =>
      if id < |s.conns| && s.conns[id].phase.Leaving? then
        s.(connections := Leave(s.connections, s.conns[id].key, id),
           conns := MoveTo(s.conns, id, if Current(s.connections, s.conns[id].key, id) then Firing else Gone))
      else s
    case Fire(id) =>
      if id < |s.conns| && s.conns[id].phase.Firing?
      then s.(conns := MoveTo(s.conns, id, Gone), fired := s.fired + [id])
      else s
    case DisconnectTask(t) => s.(conns := Detach(s, t), connections := DropTask(s.connections, t))
  }

  function Run(s: Registry, events: seq<Event>): Registry
    decreases |events|
  {
    if events == [] then s else Run(Next(s, events[0]), events[1..])
  }

  /** The connections that no teardown, newer attach or task disconnect has unregistered. */
  predicate Live(c: Conn) {
    !c.phase.Firing? && !c.phase.Gone? && !c.replaced && !c.detached
  }

  /** The registered connections are exactly the live ones, each under its own key. */
  predicate RegisteredIffLive(s: Registry) {
    && (forall k :: k in s.connections ==> s.connections[k] < |s.conns| && s.conns[s.connections[k]].key == k)
    && (forall i :: 0 <= i < |s.conns| ==> (Current(s.connections, s.conns[i].key, i) <==> Live(s.conns[i])))
  }

  /** Whoever reports a disconnect was neither replaced nor detached, and reports it once. */
  predicate FiredOnce(s: Registry) {
    && (forall i :: 0 <= i < |s.conns| && s.conns[i].phase.Firing? ==> !s.conns[i].replaced && !s.conns[i].detached)
    && (forall i :: 0 <= i < |s.conns| ==>
          (i in s.fired <==> s.conns[i].phase.Gone? && !s.conns[i].replaced && !s.conns[i].detached))
    && (forall i, j :: 0 <= i < j < |s.fired| ==> s.fired[i] != s.fired[j])
    && (forall id :: id in s.fired ==> id < |s.conns|)
  }

  predicate Inv(s: Registry) {
    RegisteredIffLive(s) && FiredOnce(s)
  }

  lemma AttachOk(s: Registry, key: Key)
    requires Inv(s)
    ensures Inv(Next(s, Attach(key)))
  {
    var s1 := Next(s, Attach(key));
    forall i | 0 <= i < |s1.conns|
      ensures Current(s1.connections, s1.conns[i].key, i) <==> Live(s1.conns[i])
    {
      if i < |s.conns| {
        assert Current(s.connections, s.conns[i].key, i) <==> Live(s.conns[i]);
      }
    }
  }

  lemma TeardownOk(s: Registry, id: nat)
    requires Inv(s)
    ensures Inv(Next(s, Teardown(id)))
  {
    var s1 := Next(s, Teardown(id));
    if s1 != s {
      forall i | 0 <= i < |s1.conns|
        ensures Current(s1.connections, s1.conns[i].key, i) <==> Live(s1.conns[i])
      {
        assert Current(s.connections, s.conns[i].key, i) <==> Live(s.conns[i]);
      }
    }
  }

  lemma DisconnectOk(s: Registry, t: Uuid)
    requires Inv(s)
    ensures Inv(Next(s, DisconnectTask(t)))
  {
    var s1 := Next(s, DisconnectTask(t));
    forall i | 0 <= i < |s1.conns|
      ensures Current(s1.connections, s1.conns[i].key, i) <==> Live(s1.conns[i])
    {
      assert Current(s.connections, s.conns[i].key, i) <==> Live(s.conns[i]);
    }
  }

  lemma NextOk(s: Registry, event: Event)
    requires Inv(s)
    ensures Inv(Next(s, event))
  {
    match event
    case Attach(key) => AttachOk(s, key);
    case Teardown(id) => TeardownOk(s, id);
    case DisconnectTask(t) => DisconnectOk(s, t);
    case _ =>
      forall i | 0 <= i < |s.conns| ensures Current(s.connections, s.conns[i].key, i) <==> Live(s.conns[i]) {
      }
  }

  lemma {:induction false} RunOk(s: Registry, events: seq<Event>)
    requires Inv(s)
    ensures Inv(Run(s, events))
    decreases |events|
  {
    if events != [] {
      NextOk(s, events[0]);
      RunOk(Next(s, events[0]), events[1..]);
    }
  }

  /** In every interleaving: a key has at most one registered connection, the one that is live; a connection that ran its
      teardown reported its disconnect if and only if it was neither replaced nor detached with its task, and only once. */
  lemma DisconnectReportedIff(events: seq<Event>, id: nat)
    requires id < |Run(NOBODY, events).conns|
    ensures var s := Run(NOBODY, events);
      && (Current(s.connections, s.conns[id].key, id) <==> Live(s.conns[id]))
      && (s.conns[id].phase.Gone? ==> (id in s.fired <==> !s.conns[id].replaced && !s.conns[id].detached))
      && (id in s.fired ==> s.conns[id].phase.Gone?)
      && (forall i, j :: 0 <= i < j < |s.fired| ==> s.fired[i] != s.fired[j])
  {
    RunOk(NOBODY, events);
  }

  /** In every interleaving a connection whose attach() has ended is still registered if and only if closing the socket it
      replaced raised and nothing has displaced it since: that path skips the teardown. */
  lemma EndedButRegisteredIff(events: seq<Event>, id: nat)
    requires id < |Run(NOBODY, events).conns|
    requires Run(NOBODY, events).conns[id].phase in {Gone, Stranded}
    ensures var s := Run(NOBODY, events);
      Current(s.connections, s.conns[id].key, id) <==>
        s.conns[id].phase == Stranded && !s.conns[id].replaced && !s.conns[id].detached
  {
    RunOk(NOBODY, events);
  }

  /** A concrete run: a worker reconnects, closing its old socket raises, and the new connection stays registered although
      nobody serves it. */
  lemma ReconnectStrands(key: Key)
    ensures var s := Run(NOBODY, [Attach(key), Attach(key), OldCloseFails(1)]);
      |s.conns| == 2 && Current(s.connections, key, 1) && s.conns[1].phase == Stranded && s.conns[0].replaced
  {
    var s1 := Next(NOBODY, Attach(key));
    var s2 := Next(s1, Attach(key));
    var s3 := Next(s2, OldCloseFails(1));
    assert [Attach(key), Attach(key), OldCloseFails(1)][1..] == [Attach(key), OldCloseFails(1)];
    assert [Attach(key), OldCloseFails(1)][1..] == [OldCloseFails(1)];
    assert Run(s2, [OldCloseFails(1)]) == Run(s3, [OldCloseFails(1)][1..]) == s3;
    assert Run(s1, [Attach(key), OldCloseFails(1)]) == Run(s2, [OldCloseFails(1)]);
  }

  /** Left alone, a served connection leaves the registry when its socket ends, and reports the disconnect if it was live. */
  lemma EndingReports(events: seq<Event>, id: nat)
    requires id < |Run(NOBODY, events).conns| && Run(NOBODY, events).conns[id].phase.Serving?
    ensures var s := Run(NOBODY, events);
            var s1 := Run(s, [SocketEnds(id), Teardown(id), Fire(id)]);
      && id < |s1.conns| && s1.conns[id].phase.Gone?
      && !Current(s1.connections, s.conns[id].key, id)
      && (id in s1.fired <==> !s.conns[id].replaced && !s.conns[id].detached)
      && (forall k :: k in s.connections && k != s.conns[id].key ==> k in s1.connections && s1.connections[k] == s.connections[k])
  {
    RunOk(NOBODY, events);
    var s := Run(NOBODY, events);
    RunOk(s, [SocketEnds(id), Teardown(id), Fire(id)]);
    RunThree(s, SocketEnds(id), Teardown(id), Fire(id));
    assert Current(s.connections, s.conns[id].key, id) <==> Live(s.conns[id]);
  }

  lemma RunThree(s: Registry, e0: Event, e1: Event, e2: Event)
    ensures Run(s, [e0, e1, e2]) == Next(Next(Next(s, e0), e1), e2)
  {
    var s1 := Next(s, e0);
    var s2 := Next(s1, e1);
    assert [e0, e1, e2][1..] == [e1, e2] && [e1, e2][1..] == [e2];
    assert Run(s2, [e2]) == Run(Next(s2, e2), [e2][1..]) == Next(s2, e2);
    assert Run(s1, [e1, e2]) == Run(s2, [e2]);
  }

  /** A new connection is served at once, or as soon as the socket it replaced is closed; the replaced one stays registered no
      longer. */
  lemma AttachServes(events: seq<Event>, key: Key)
    ensures var s := Run(NOBODY, events);
            var s1 := Next(s, Attach(key));
            var id := |s.conns|;
      && |s1.conns| == id + 1 && s1.conns[id].key == key && Current(s1.connections, key, id)
      && (key !in s.connections ==> s1.conns[id].phase.Serving?)
      && (key in s.connections ==> s1.conns[id].phase.Opening? && Next(s1, OldClosed(id)).conns[id].phase.Serving?
                                   && s.connections[key] < id && s1.conns[s.connections[key]].replaced)
  {
    RunOk(NOBODY, events);
  }

  /** Disconnecting a task unregisters its connections and no others; those that were registered never report a disconnect. */
  lemma DisconnectedNeverReports(events: seq<Event>, t: Uuid, id: nat, later: seq<Event>)
    requires id < |Run(NOBODY, events).conns| && Run(NOBODY, events).conns[id].key.0 == t
    requires Live(Run(NOBODY, events).conns[id])
    ensures var s := Run(NOBODY, events);
            var s1 := Next(s, DisconnectTask(t));
      && (forall k :: k in s1.connections ==> k.0 != t)
      && (forall k :: k in s.connections && k.0 != t ==> k in s1.connections && s1.connections[k] == s.connections[k])
      && id !in Run(s1, later).fired
  {
    var s := Run(NOBODY, events);
    RunOk(NOBODY, events);
    assert Current(s.connections, s.conns[id].key, id) <==> Live(s.conns[id]);
    DisconnectOk(s, t);
    DetachedNeverReports(Next(s, DisconnectTask(t)), id, later);
  }

  lemma DetachedStays(s: Registry, event: Event, id: nat)
    requires id < |s.conns| && s.conns[id].detached
    ensures id < |Next(s, event).conns| && Next(s, event).conns[id].detached
  {
  }

  lemma {:induction false} DetachedNeverReports(s: Registry, id: nat, events: seq<Event>)
    requires Inv(s) && id < |s.conns| && s.conns[id].detached
    ensures id !in Run(s, events).fired
    decreases |events|
  {
    if events != [] {
      DetachedStays(s, events[0], id);
      NextOk(s, events[0]);
      DetachedNeverReports(Next(s, events[0]), id, events[1..]);
    }
  }

  /** The events that may end the registration of connection id under key. */
  predicate Displaces(event: Event, key: Key, id: nat) {
    event == Attach(key) || event == Teardown(id) || event == DisconnectTask(key.0)
  }

  /** An old teardown never unregisters a replacement: once attached, a connection stays registered until a newer one
      attaches, its own teardown runs or its task is disconnected, whatever older connections of the key do. */
  lemma {:induction false} ReplacementStays(s: Registry, key: Key, events: seq<Event>)
    requires Inv(s) && forall i :: 0 <= i < |events| ==> !Displaces(events[i], key, |s.conns|)
    ensures Current(Run(Next(s, Attach(key)), events).connections, key, |s.conns|)
  {
    AttachOk(s, key);
    StaysRegistered(Next(s, Attach(key)), key, |s.conns|, events);
  }

  lemma {:induction false} StaysRegistered(s: Registry, key: Key, id: nat, events: seq<Event>)
    requires Inv(s) && Current(s.connections, key, id)
    requires forall i :: 0 <= i < |events| ==> !Displaces(events[i], key, id)
    ensures Current(Run(s, events).connections, key, id)
    decreases |events|
  {
    if events != [] {
      NextOk(s, events[0]);
      assert Current(Next(s, events[0]).connections, key, id);
      StaysRegistered(Next(s, events[0]), key, id, events[1..]);
    }
  }

  /* ---- requests and responses on one connection ---- */

  datatype Reply = Success(result: int) | Failure(message: string)

  datatype Future = Waiting | Answered(reply: Reply)

  datatype Outcome = Returned(reply: Reply) | TimedOut | NotSent

  /** counter and pending are the connection; the rest is its history: the responses read from the socket, how many had
      been read when a request was made, and how each request ended. */
  datatype Calls = Calls(
    counter: nat, pending: map<nat, Future>,
    responses: seq<(nat, Reply)>, madeAt: map<nat, nat>, outcomes: map<nat, Outcome>)

  const NO_CALLS := Calls(0, map[], [], map[], map[])

  datatype CallEvent =
    | Request
    | Response(n: nat, reply: Reply)
    | Resumes(n: nat)
    | Expires(n: nat)
    | SendFails(n: nat)

  function Begin(c: Calls): Calls {
    c.(counter := c.counter + 1, pending := c.pending[c.counter + 1 := Waiting],
       madeAt := c.madeAt[c.counter + 1 := |c.responses|])
  }

  /** Only the pending request with this number is completed, and only if it is not yet done. */
  function Respond(c: Calls, n: nat, reply: Reply): Calls {
    c.(responses := c.responses + [(n, reply)],
       pending := if n in c.pending && c.pending[n].Waiting? then c.pending[n := Answered(reply)] else c.pending)
  }

  function Finish(c: Calls, n: nat, outcome: Outcome): Calls {
    c.(pending := c.pending - {n}, outcomes := c.outcomes[n := outcome])
  }

  function NextCall(c: Calls, event: CallEvent): Calls {
    match event
    case Request => Begin(c)
    case Response(n, reply) => Respond(c, n, reply)
    case Resumes(n) =>
      if n in c.pending && c.pending[n].Answered? then Finish(c, n, Returned(c.pending[n].reply)) else c
    case Expires(n) => if n in c.pending && c.pending[n].Waiting? then Finish(c, n, TimedOut) else c
    case SendFails(n) => if n in c.pending then Finish(c, n, NotSent) else c
  }

  function RunCalls(c: Calls, events: seq<CallEvent>): Calls
    decreases |events|
  {
    if events == [] then c else RunCalls(NextCall(c, events[0]), events[1..])
  }

  /** The first response with this number at or after a position. */
  function FirstReply(responses: seq<(nat, Reply)>, from: nat, n: nat): Option<Reply>
    decreases |responses| - from
  {
    if from >= |responses| then None
    else if responses[from].0 == n then Some(responses[from].1)
    else FirstReply(responses, from + 1, n)
  }

  lemma {:induction false} FirstReplyAppended(responses: seq<(nat, Reply)>, more: (nat, Reply), from: nat, n: nat)
    requires from <= |responses|
    ensures FirstReply(responses + [more], from, n) ==
            if FirstReply(responses, from, n).Some? then FirstReply(responses, from, n)
            else if more.0 == n then Some(more.1) else None
    decreases |responses| - from
  {
    if from < |responses| {
      FirstReplyAppended(responses, more, from + 1, n);
    }
  }

  /** Requests are numbered 1..counter; each is pending or has ended, never both. */
  ghost predicate Numbered(c: Calls) {
    && (forall n :: n in c.madeAt <==> 1 <= n <= c.counter)
    && (forall n :: n in c.madeAt <==> n in c.pending || n in c.outcomes)
    && (forall n :: n in c.pending ==> n !in c.outcomes)
    && (forall n :: n in c.madeAt ==> c.madeAt[n] <= |c.responses|)
  }

  /** What a request has got is the first response with its number read after it was made. */
  ghost predicate Paired(c: Calls) {
    && (forall n :: n in c.pending && n in c.madeAt ==>
          FirstReply(c.responses, c.madeAt[n], n) == if c.pending[n].Waiting? then None else Some(c.pending[n].reply))
    && (forall n :: n in c.outcomes && n in c.madeAt && c.outcomes[n].Returned? ==>
          FirstReply(c.responses, c.madeAt[n], n) == Some(c.outcomes[n].reply))
  }

  lemma RespondOk(c: Calls, n: nat, reply: Reply)
    requires Numbered(c) && Paired(c)
    ensures Numbered(Respond(c, n, reply)) && Paired(Respond(c, n, reply))
  {
    var c1 := Respond(c, n, reply);
    forall m | m in c.madeAt
      ensures m in c1.pending ==>
        FirstReply(c1.responses, c1.madeAt[m], m) == if c1.pending[m].Waiting? then None else Some(c1.pending[m].reply)
      ensures m in c1.outcomes && c1.outcomes[m].Returned? ==>
        FirstReply(c1.responses, c1.madeAt[m], m) == Some(c1.outcomes[m].reply)
    {
      FirstReplyAppended(c.responses, (n, reply), c.madeAt[m], m);
    }
  }

  lemma NextCallOk(c: Calls, event: CallEvent)
    requires Numbered(c) && Paired(c)
    ensures Numbered(NextCall(c, event)) && Paired(NextCall(c, event))
  {
    match event
    case Response(n, reply) => RespondOk(c, n, reply);
    case _ =>
  }

  lemma {:induction false} RunCallsOk(c: Calls, events: seq<CallEvent>)
    requires Numbered(c) && Paired(c)
    ensures Numbered(RunCalls(c, events)) && Paired(RunCalls(c, events))
    decreases |events|
  {
    if events != [] {
      NextCallOk(c, events[0]);
      RunCallsOk(NextCall(c, events[0]), events[1..]);
    }
  }

  lemma {:induction false} OutcomeIsFinal(c: Calls, events: seq<CallEvent>, n: nat)
    requires Numbered(c) && Paired(c) && n in c.outcomes
    ensures n in RunCalls(c, events).outcomes && RunCalls(c, events).outcomes[n] == c.outcomes[n]
    decreases |events|
  {
    if events != [] {
      NextCallOk(c, events[0]);
      OutcomeStays(c, events[0], n);
      OutcomeIsFinal(NextCall(c, events[0]), events[1..], n);
    }
  }

  lemma OutcomeStays(c: Calls, event: CallEvent, n: nat)
    requires Numbered(c) && n in c.outcomes
    ensures n in NextCall(c, event).outcomes && NextCall(c, event).outcomes[n] == c.outcomes[n]
  {
  }

  /** In every interleaving a request that returns has the first response with its own number that was read after it was
      made, however many late, early or repeated responses arrive, and it ends once: later events never change that. */
  lemma ResponseCompletesItsRequestOnce(events: seq<CallEvent>, later: seq<CallEvent>, n: nat)
    requires n in RunCalls(NO_CALLS, events).outcomes
    ensures var c := RunCalls(NO_CALLS, events);
      && n in c.madeAt
      && (c.outcomes[n].Returned? ==> FirstReply(c.responses, c.madeAt[n], n) == Some(c.outcomes[n].reply))
      && n !in c.pending
      && n in RunCalls(c, later).outcomes && RunCalls(c, later).outcomes[n] == c.outcomes[n]
  {
    RunCallsOk(NO_CALLS, events);
    OutcomeIsFinal(RunCalls(NO_CALLS, events), later, n);
  }

  /** In every interleaving, a request that is pending ends with its response if that was read, and only then: resuming returns
      it and the timeout no longer does anything; without a response resuming is impossible and the timeout ends it. A request
      that could not be sent ends at once. */
  lemma PendingRequestEnds(events: seq<CallEvent>, n: nat)
    requires n in RunCalls(NO_CALLS, events).pending
    ensures var c := RunCalls(NO_CALLS, events);
      && n in c.madeAt
      && var reply := FirstReply(c.responses, c.madeAt[n], n);
         if reply.Some?
         then Ended(NextCall(c, Resumes(n)), n, Returned(reply.value)) && NextCall(c, Expires(n)) == c
         else NextCall(c, Resumes(n)) == c && Ended(NextCall(c, Expires(n)), n, TimedOut)
    ensures Ended(NextCall(RunCalls(NO_CALLS, events), SendFails(n)), n, NotSent)
  {
    RunCallsOk(NO_CALLS, events);
  }

  predicate Ended(c: Calls, n: nat, outcome: Outcome) {
    n !in c.pending && n in c.outcomes && c.outcomes[n] == outcome
  }

  /** A request takes the next number of its connection; a response is read in any case. */
  lemma RequestsAreNumbered(c: Calls, n: nat, reply: Reply)
    ensures var c1 := NextCall(c, Request);
      && c1.counter == c.counter + 1 && c1.counter in c1.pending && c1.pending[c1.counter].Waiting?
      && c1.pending - {c1.counter} == c.pending - {c1.counter}
      && NextCall(c, Response(n, reply)).responses == c.responses + [(n, reply)]
  {
  }

  /* ---- the registry and a connection as objects ---- */

  class AgentConnection {
    const key: Key
    var pending: map<nat, Future>
    var counter: nat
    ghost var responses: seq<(nat, Reply)>
    ghost var madeAt: map<nat, nat>
    ghost var outcomes: map<nat, Outcome>

    ghost function Value(): Calls
      reads this
    {
      Calls(counter, pending, responses, madeAt, outcomes)
    }

    constructor (key: Key)
      ensures this.key == key && Value() == NO_CALLS
    {
      this.key := key;
      pending, counter, responses, madeAt, outcomes := map[], 0, [], map[], map[];
    }

    /** request(), up to the send. */
    method MakeRequest() returns (n: nat)
      modifies this
      ensures Value() == Begin(old(Value())) && n == counter
    {
      counter := counter + 1;
      n := counter;
      pending := pending[n := Waiting];
      madeAt := madeAt[n := |responses|];
    }

    /** The receive loop reads a response. */
    method ReadResponse(n: nat, reply: Reply)
      modifies this
      ensures Value() == Respond(old(Value()), n, reply)
    {
      if n in pending && pending[n].Waiting? {
        pending := pending[n := Answered(reply)];
      }
      responses := responses + [(n, reply)];
    }

    /** request() leaves its try block: the number is forgotten, whichever way it ended. */
    method EndRequest(n: nat, outcome: Outcome)
      modifies this
      ensures Value() == Finish(old(Value()), n, outcome)
    {
      pending := pending - {n};
      outcomes := outcomes[n := outcome];
    }
  }

  class AgentGateway {
    var connections: map<Key, AgentConnection>

    ghost predicate Valid()
      reads this
    {
      forall k :: k in connections ==> connections[k].key == k
    }

    constructor ()
      ensures Valid() && connections == map[]
    {
      connections := map[];
    }

    /** attach(), under the lock: the old connection is handed back to be closed. */
    method AttachConnection(c: AgentConnection) returns (old1: AgentConnection?)
      requires Valid()
      modifies this
      ensures Valid() && connections == AttachTo(old(connections), c.key, c)
      ensures old1 == if c.key in old(connections) then old(connections)[c.key] else null
    {
      old1 := if c.key in connections then connections[c.key] else null;
      connections := connections[c.key := c];
    }

    /** The finally block of attach(), under the lock. */
    method TeardownConnection(c: AgentConnection) returns (wasCurrent: bool)
      requires Valid()
      modifies this
      ensures Valid() && connections == Leave(old(connections), c.key, c)
      ensures wasCurrent == Current(old(connections), c.key, c)
    {
      wasCurrent := false;
      if c.key in connections && connections[c.key] == c {
        connections := connections - {c.key};
        wasCurrent := true;
      }
    }

    /** disconnect_task(): the connections of the task are unregistered one after the other and handed back to be closed. */
    method DisconnectConnections(t: Uuid) returns (closed: set<AgentConnection>)
      requires Valid()
      modifies this
      ensures Valid() && connections == DropTask(old(connections), t)
      ensures closed == set k | k in old(connections) && k.0 == t :: old(connections)[k]
    {
      closed := set k | k in connections && k.0 == t :: connections[k];
      var left := closed;
      while left != {}
        invariant left <= closed && Valid()
        invariant forall k :: k in connections ==> k in old(connections) && connections[k] == old(connections)[k]
        invariant forall k :: k in old(connections) && k !in connections ==> k.0 == t
        invariant forall k :: k in connections && k.0 == t ==> connections[k] in left
        decreases left
      {
        var c :| c in left;
        connections := connections - {c.key};
        left := left - {c};
      }
    }
  }
}
