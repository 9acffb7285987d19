/** The dialogue stream of one task: a cursor that polls the messages while they are being appended
    (dialogue_stream in tga3/src/tga3/app.py). */
module Dialogue {
  import opened Domain
  import opened Board
  import opened BoardRuns
  import opened BoardInvariant
  import opened BoardTheorems
  import P = Postgres
  import PI = PostgresInvariant

  const POLL_LIMIT := 200

  /** The messages beyond a sequence number, in order. */
  function Beyond(talk: seq<Message>, after: int): seq<Message> {
    if talk == [] then []
    else if talk[0].seqNo > after then [talk[0]] + Beyond(talk[1..], after)
    else Beyond(talk[1..], after)
  }

  function ListDialogue(b: Board, t: Uuid, after: int, limit: nat): Result<seq<Message>> {
    if t !in b.tasks then Err(NotFound) else Ok(Take(Beyond(b.Talk(t), after), limit))
  }

  lemma {:induction false} BeyondIsSuffix(talk: seq<Message>, base: nat, after: int)
    requires forall i :: 0 <= i < |talk| ==> talk[i].seqNo == base + i + 1
    ensures Beyond(talk, after) == talk[Min(|talk|, Max(0, after - base))..]
  {
    if talk != [] {
      BeyondIsSuffix(talk[1..], base + 1, after);
    }
  }

  /** batch: the messages of the last poll that are still to be sent. */
  datatype Stream = Stream(board: Board, cursor: int, batch: seq<Message>, sent: seq<Message>)

  datatype Event = Operate(op: Op) | Commit(r: P.Request) | Poll | Send

  ghost function Next(s: Stream, t: Uuid, event: Event): Stream {
    match event
    case Operate(op) => if FreshIds(s.board, op) && op != OpDeleteTask(t) then s.(board := Apply(s.board, op)) else s
    case Commit(r) => if r.WellFormed() && PI.Legit(s.board, r) then s.(board := P.PgApply(s.board, r).0) else s
    case Poll =>
      if s.batch == [] && t in s.board.tasks then s.(batch := ListDialogue(s.board, t, s.cursor, POLL_LIMIT).value) else s
    case Send =>
      if s.batch != [] then s.(cursor := s.batch[0].seqNo, batch := s.batch[1..], sent := s.sent + [s.batch[0]]) else s
  }

  ghost function Run(s: Stream, t: Uuid, events: seq<Event>): Stream
    decreases |events|
  {
    if events == [] then s else Run(Next(s, t, events[0]), t, events[1..])
  }

  ghost predicate Numbered(talk: seq<Message>) {
    forall i :: 0 <= i < |talk| ==> talk[i].seqNo == i + 1
  }

  /** What was sent and what is about to be sent follow the starting point without a gap or a repetition. */
  ghost predicate Contiguous(talk: seq<Message>, cursor: int, sent: seq<Message>, batch: seq<Message>, after: int) {
    && IsSlice(talk, Max(0, after), sent + batch)
    && cursor == if sent == [] then after else Max(0, after) + |sent|
  }

  ghost predicate IsSlice(talk: seq<Message>, lo: nat, part: seq<Message>) {
    part != [] ==> lo + |part| <= |talk| && part == talk[lo..lo + |part|]
  }

  ghost predicate StreamOk(s: Stream, t: Uuid, after: int) {
    Inv(s.board) && t in s.board.tasks && Contiguous(s.board.Talk(t), s.cursor, s.sent, s.batch, after)
  }

  lemma InvNumbers(b: Board, t: Uuid)
    requires Inv(b) && t in b.tasks
    ensures Numbered(b.Talk(t))
  {
    InvGapless(b, t);
  }

  lemma SliceExtended(talk: seq<Message>, lo: nat, sent: seq<Message>, batch: seq<Message>)
    requires IsSlice(talk, lo, sent) && IsSlice(talk, lo + |sent|, batch)
    ensures IsSlice(talk, lo, sent + batch)
  {
    if batch == [] {
      assert sent + batch == sent;
    } else {
      var hi := lo + |sent| + |batch|;
      assert talk[lo..hi] == talk[lo..lo + |sent|] + talk[lo + |sent|..hi];
      assert sent == talk[lo..lo + |sent|];
    }
  }

  lemma PollIsSlice(talk: seq<Message>, cursor: int, lo: nat)
    requires Numbered(talk) && lo == Max(0, cursor)
    ensures IsSlice(talk, lo, Take(Beyond(talk, cursor), POLL_LIMIT))
    ensures Take(Beyond(talk, cursor), POLL_LIMIT) == [] <==> |talk| <= lo
  {
    BeyondIsSuffix(talk, 0, cursor);
    var rest := talk[Min(|talk|, lo)..];
    assert Beyond(talk, cursor) == rest;
    if |rest| > POLL_LIMIT {
      assert rest[..POLL_LIMIT] == talk[lo..lo + POLL_LIMIT];
    } else if rest != [] {
      assert rest == talk[lo..lo + |rest|];
    }
  }

  lemma PollContiguous(talk: seq<Message>, cursor: int, sent: seq<Message>, after: int)
    requires Numbered(talk) && Contiguous(talk, cursor, sent, [], after)
    ensures Contiguous(talk, cursor, sent, Take(Beyond(talk, cursor), POLL_LIMIT), after)
    ensures Take(Beyond(talk, cursor), POLL_LIMIT) == [] <==> |talk| <= Max(0, after) + |sent|
  {
    assert sent + [] == sent;
    PollIsSlice(talk, cursor, Max(0, after) + |sent|);
    SliceExtended(talk, Max(0, after), sent, Take(Beyond(talk, cursor), POLL_LIMIT));
  }

  lemma SendContiguous(talk: seq<Message>, cursor: int, sent: seq<Message>, batch: seq<Message>, after: int)
    requires Numbered(talk) && Contiguous(talk, cursor, sent, batch, after) && batch != []
    ensures Contiguous(talk, batch[0].seqNo, sent + [batch[0]], batch[1..], after)
  {
    assert sent + batch == (sent + [batch[0]]) + batch[1..];
    assert (sent + batch)[|sent|] == batch[0];
    assert talk[Max(0, after)..][|sent|] == batch[0];
  }

  lemma GrowthContiguous(talk: seq<Message>, talk1: seq<Message>, cursor: int, sent: seq<Message>, batch: seq<Message>, after: int)
    requires Contiguous(talk, cursor, sent, batch, after) && talk <= talk1
    ensures Contiguous(talk1, cursor, sent, batch, after)
  {
    var lo, all := Max(0, after), sent + batch;
    if all != [] {
      assert talk1[lo..lo + |all|] == talk[lo..lo + |all|];
    }
  }

  lemma OpGrowsTalk(b: Board, op: Op, t: Uuid)
    requires op != OpDeleteTask(t)
    ensures b.Talk(t) <= Apply(b, op).Talk(t)
  {
  }

  lemma OperateOk(s: Stream, t: Uuid, op: Op, after: int)
    requires StreamOk(s, t, after) && FreshIds(s.board, op) && op != OpDeleteTask(t)
    ensures StreamOk(s.(board := Apply(s.board, op)), t, after)
  {
    OpKeepsInv(s.board, op);
    OpGrowsLog(s.board, op, t);
    OpGrowsTalk(s.board, op, t);
    GrowthContiguous(s.board.Talk(t), Apply(s.board, op).Talk(t), s.cursor, s.sent, s.batch, after);
  }

  lemma PgGrowsTalk(b: Board, r: P.Request, t: Uuid)
    requires r.WellFormed()
    ensures b.Talk(t) <= P.PgApply(b, r).0.Talk(t)
  {
    if r.PublishTx? {
      PI.PgPublishAppends(b, r.t, r.actor, r.request, r.id, r.now);
    } else {
      PI.OtherRequestsAreOps(b, r);
      OpGrowsTalk(b, PI.OpOf(r), t);
    }
  }

  lemma CommitOk(s: Stream, t: Uuid, r: P.Request, after: int)
    requires StreamOk(s, t, after) && r.WellFormed() && PI.Legit(s.board, r)
    ensures StreamOk(s.(board := P.PgApply(s.board, r).0), t, after)
  {
    PI.PgKeepsInv(s.board, r);
    PI.PgGrowsLog(s.board, r, t);
    PgGrowsTalk(s.board, r, t);
    GrowthContiguous(s.board.Talk(t), P.PgApply(s.board, r).0.Talk(t), s.cursor, s.sent, s.batch, after);
  }

  lemma NextOk(s: Stream, t: Uuid, event: Event, after: int)
    requires StreamOk(s, t, after)
    ensures StreamOk(Next(s, t, event), t, after)
  {
    match event
    case Operate(op) =>
      if FreshIds(s.board, op) && op != OpDeleteTask(t) {
        OperateOk(s, t, op, after);
      }
    case Commit(r) =>
      if r.WellFormed() && PI.Legit(s.board, r) {
        CommitOk(s, t, r, after);
      }
    case Poll =>
      if s.batch == [] {
        InvNumbers(s.board, t);
        PollContiguous(s.board.Talk(t), s.cursor, s.sent, after);
      }
    case Send =>
      if s.batch != [] {
        InvNumbers(s.board, t);
        SendContiguous(s.board.Talk(t), s.cursor, s.sent, s.batch, after);
      }
  }

  lemma {:induction false} RunOk(s: Stream, t: Uuid, events: seq<Event>, after: int)
    requires StreamOk(s, t, after)
    ensures StreamOk(Run(s, t, events), t, after)
    decreases |events|
  {
    if events != [] {
      NextOk(s, t, events[0], after);
      RunOk(Next(s, t, events[0]), t, events[1..], after);
    }
  }

  /** The board moves as its storage does, whatever the stream is doing. */
  lemma BoardMoves(s: Stream, t: Uuid, op: Op, r: P.Request)
    ensures FreshIds(s.board, op) && op != OpDeleteTask(t) ==>
      Next(s, t, Operate(op)) == Stream(Apply(s.board, op), s.cursor, s.batch, s.sent)
    ensures r.WellFormed() && PI.Legit(s.board, r) ==>
      Next(s, t, Commit(r)) == Stream(P.PgApply(s.board, r).0, s.cursor, s.batch, s.sent)
  {
  }

  /** Whatever is appended between the polls, over either storage, the stream sends the messages after its starting point in
      order, each exactly once; and a poll that follows the last send finds nothing if and only if every message has been sent. */
  lemma SentExactlyOnce(b: Board, t: Uuid, after: int, events: seq<Event>)
    requires (Reachable(b) || PI.PgReachable(b)) && t in b.tasks
    ensures var s := Run(Stream(b, after, [], []), t, events);
      && IsSlice(s.board.Talk(t), Max(0, after), s.sent)
      && (s.batch == [] ==> (Next(s, t, Poll).batch == [] <==> |s.board.Talk(t)| <= Max(0, after) + |s.sent|))
  {
    if Reachable(b) {
      ReachableInv(b);
    } else {
      PI.PgReachableInv(b);
    }
    RunOk(Stream(b, after, [], []), t, events, after);
    var s := Run(Stream(b, after, [], []), t, events);
    InvNumbers(s.board, t);
    SentFacts(s, t, after);
  }

  lemma SentFacts(s: Stream, t: Uuid, after: int)
    requires t in s.board.tasks && Numbered(s.board.Talk(t)) && Contiguous(s.board.Talk(t), s.cursor, s.sent, s.batch, after)
    ensures IsSlice(s.board.Talk(t), Max(0, after), s.sent)
    ensures s.batch == [] ==> (Next(s, t, Poll).batch == [] <==> |s.board.Talk(t)| <= Max(0, after) + |s.sent|)
  {
    SentPart(s.board.Talk(t), Max(0, after), s.sent, s.batch);
    if s.batch == [] {
      PollContiguous(s.board.Talk(t), s.cursor, s.sent, after);
    }
  }

  lemma SentPart(talk: seq<Message>, lo: nat, sent: seq<Message>, batch: seq<Message>)
    requires IsSlice(talk, lo, sent + batch)
    ensures IsSlice(talk, lo, sent)
  {
    assert sent == (sent + batch)[..|sent|];
  }

  /* ---- the generator ---- */

  /** The state after sending a whole batch. */
  function AllSent(s: Stream): Stream {
    if s.batch == [] then s
    else s.(cursor := s.batch[|s.batch| - 1].seqNo, batch := [], sent := s.sent + s.batch)
  }

  class DialogueStream {
    const t: Uuid
    var cursor: int
    var sent: seq<Message>

    constructor (t: Uuid, after: int)
      ensures this.t == t && cursor == after && sent == []
    {
      this.t, cursor, sent := t, after, [];
    }

    /** One turn of the generator's loop: read beyond the cursor, then send message by message, moving the cursor along. */
    method Turn(b: Board)
      requires t in b.tasks
      modifies this
      ensures Stream(b, cursor, [], sent) == AllSent(Stream(b, old(cursor), ListDialogue(b, t, old(cursor), POLL_LIMIT).value, old(sent)))
    {
      var messages := Take(Beyond(b.Talk(t), cursor), POLL_LIMIT);
      var i := 0;
      while i < |messages|
        invariant 0 <= i <= |messages|
        invariant sent == old(sent) + messages[..i]
        invariant cursor == if i == 0 then old(cursor) else messages[i - 1].seqNo
      {
        cursor := messages[i].seqNo;
        sent := sent + [messages[i]];
        i := i + 1;
      }
      assert messages[..i] == messages;
    }
  }

  /** Sending a batch message by message, as the machine does, ends where the generator's turn ends. */
  lemma {:induction false} SendsAreATurn(s: Stream, t: Uuid)
    ensures Run(s, t, seq(|s.batch|, _ => Send)) == AllSent(s)
    decreases |s.batch|
  {
    if s.batch != [] {
      var s1 := Next(s, t, Send);
      assert seq(|s.batch|, _ => Send)[1..] == seq(|s1.batch|, _ => Send);
      SendsAreATurn(s1, t);
      assert s1.sent + s1.batch == s.sent + s.batch;
    }
  }
}
