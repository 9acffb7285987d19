/** InMemoryStorage and the Blackboard interface over it, as objects whose dictionaries change in place. */
module Storage {
  import opened Domain
  import B = Board

  function OtherAgents(agents: map<(Uuid, string), AgentRun>, t: Uuid): map<(Uuid, string), AgentRun> {
    map k | k in agents && k.0 != t :: agents[k]
  }

  function OtherFiles(files: map<Uuid, InputFile>, t: Uuid): map<Uuid, InputFile> {
    map f | f in files && files[f].taskId != t :: files[f]
  }

  class InMemoryStorage {
    var tasks: map<Uuid, TaskRun>
    var agents: map<(Uuid, string), AgentRun>
    var artifacts: map<Uuid, Artifact>
    var inputFiles: map<Uuid, InputFile>
    var entries: map<Uuid, seq<Entry>>
    var links: map<Uuid, seq<ArtifactRef>>
    var dialogue: map<Uuid, seq<Message>>
    var questions: map<Uuid, Question>
    var answers: map<Uuid, Entry>
    var writeups: map<Uuid, Writeup>

    /** The records that refer to each other; agents and input files stand by themselves. */
    function Value(): B.Board
      reads this`tasks, this`artifacts, this`entries, this`links, this`dialogue, this`questions, this`answers, this`writeups
    {
      B.Board(tasks, artifacts, entries, links, dialogue, questions, answers, writeups)
    }

    constructor ()
      ensures Value() == B.EMPTY && agents == map[] && inputFiles == map[]
    {
      agents, inputFiles := map[], map[];
      tasks, artifacts, entries, links := map[], map[], map[], map[];
      dialogue, questions, answers, writeups := map[], map[], map[], map[];
    }

    method CreateTask(t: Uuid) returns (r: Result<TaskRun>)
      modifies this`tasks
      ensures (Value(), r) == B.CreateTask(old(Value()), t)
    {
      if t in tasks {
        return Err(Conflict);
      }
      var run := TaskRun(Created, 0, 0, None);
      tasks := tasks[t := run];
      return Ok(run);
    }

    method DeleteTask(t: Uuid) returns (r: Result<()>)
      modifies this
      ensures (Value(), r) == B.DeleteTask(old(Value()), t)
      ensures agents == if r.Ok? then OtherAgents(old(agents), t) else old(agents)
      ensures inputFiles == if r.Ok? then OtherFiles(old(inputFiles), t) else old(inputFiles)
    {
      if t !in tasks {
        return Err(NotFound);
      }
      DeleteReferring(t);
      DeleteOwned(t);
      return Ok(());
    }

    /** The part of delete_task that removes the records that refer to each other. */
    method DeleteReferring(t: Uuid)
      modifies this`tasks, this`artifacts, this`entries, this`links, this`dialogue, this`questions, this`answers, this`writeups
      ensures Value() == B.Erase(old(Value()), t)
    {
      var artifactIds, questionIds := B.ArtifactsOf(Value(), t), B.QuestionsOf(Value(), t);
      var writeupIds, entryIds := B.WriteupsOf(Value(), t), B.EntryIds(Value().Log(t));
      artifacts, questions, answers := artifacts - artifactIds, questions - questionIds, answers - questionIds;
      writeups, links := writeups - writeupIds, links - entryIds;
      entries, dialogue, tasks := entries - {t}, dialogue - {t}, tasks - {t};
    }

    /** The part of delete_task that removes what no other record refers to. */
    method DeleteOwned(t: Uuid)
      modifies this`agents, this`inputFiles
      ensures agents == OtherAgents(old(agents), t) && inputFiles == OtherFiles(old(inputFiles), t)
    {
      var agentKeys := set k | k in agents && k.0 == t;
      var inputIds := set f | f in inputFiles && inputFiles[f].taskId == t;
      agents := agents - agentKeys;
      inputFiles := inputFiles - inputIds;
    }

    method UpdateTask(t: Uuid, state: Option<RunState>, finalSeq: Option<nat>) returns (r: Result<TaskRun>)
      modifies this`tasks
      ensures (Value(), r) == B.UpdateTask(old(Value()), t, state, finalSeq)
    {
      if t !in tasks {
        return Err(NotFound);
      }
      var run := tasks[t];
      if state.Some? {
        run := run.(state := state.value);
      }
      if finalSeq.Some? {
        run := run.(finalSnapshotSeq := finalSeq);
      }
      tasks := tasks[t := run];
      return Ok(run);
    }

    method UpsertAgent(t: Uuid, agent: string, run: AgentRun)
      modifies this`agents
      ensures agents == old(agents)[(t, agent) := run]
    {
      agents := agents[(t, agent) := run];
    }

    /** Nothing suspends between the read and the write. */
    method UpdateAgent(t: Uuid, agent: string, desired: Option<AgentState>, actual: Option<AgentState>)
      returns (r: Result<AgentRun>)
      modifies this`agents
      ensures r.Err? <==> (t, agent) !in old(agents)
      ensures r.Err? ==> agents == old(agents)
      ensures r.Ok? ==>
        && agents == old(agents)[(t, agent) := r.value]
        && r.value.desired == (if desired.Some? then desired.value else old(agents)[(t, agent)].desired)
        && r.value.actual == if actual.Some? then actual.value else old(agents)[(t, agent)].actual
    {
      if (t, agent) !in agents {
        return Err(NotFound);
      }
      var run := agents[(t, agent)];
      if desired.Some? {
        run := run.(desired := desired.value);
      }
      if actual.Some? {
        run := run.(actual := actual.value);
      }
      agents := agents[(t, agent) := run];
      return Ok(run);
    }

    method RegisterInputFile(id: Uuid, file: InputFile) returns (r: Result<InputFile>)
      modifies this`inputFiles
      ensures r == if file.taskId !in tasks then Err(NotFound) else if id in old(inputFiles) then Err(Conflict) else Ok(file)
      ensures inputFiles == if r.Ok? then old(inputFiles)[id := file] else old(inputFiles)
    {
      if file.taskId !in tasks {
        return Err(NotFound);
      }
      if id in inputFiles {
        return Err(Conflict);
      }
      inputFiles := inputFiles[id := file];
      return Ok(file);
    }

    method RegisterArtifact(a: Artifact) returns (r: Result<Artifact>)
      modifies this`artifacts
      ensures (Value(), r) == B.RegisterArtifact(old(Value()), a)
    {
      if a.taskId !in tasks {
        return Err(NotFound);
      }
      if a.id in artifacts {
        return Err(Conflict);
      }
      artifacts := artifacts[a.id := a];
      return Ok(a);
    }

    method Publish(t: Uuid, actor: Actor, request: PublishRequest, id: Uuid, now: int) returns (r: Result<Entry>)
      requires request.CheckContract()
      modifies this`entries, this`links, this`tasks
      ensures (Value(), r) == B.Publish(old(Value()), t, actor, request, id, now)
    {
      if t !in tasks {
        return Err(NotFound);
      }
      var run := tasks[t];
      var log := if t in entries then entries[t] else [];
      var i := 0;
      while i < |log|
        invariant 0 <= i <= |log|
        invariant B.FindKey(log, actor.agentId, request.key) == B.FindKey(log[i..], actor.agentId, request.key)
      {
        if log[i].actor.agentId == actor.agentId && log[i].key == request.key {
          return Ok(log[i]);
        }
        i := i + 1;
      }
      if !B.Gate(Value(), t, request) {
        return Err(FindingRejected);
      }
      var e := Entry(id, t, run.blackboardSeq + 1, actor, request.kind, request.topic, request.body, request.key, now);
      entries := entries[t := log + [e]];
      if request.artifactRefs != [] {
        links := links[e.id := request.artifactRefs];
      }
      tasks := tasks[t := run.(blackboardSeq := e.seqNo)];
      return Ok(e);
    }

    method ListEntries(t: Uuid, after: int, upTo: Option<int>, limit: nat) returns (r: Result<seq<Entry>>)
      ensures r == B.ListEntries(Value(), t, after, upTo, limit)
    {
      if t !in tasks {
        return Err(NotFound);
      }
      var log := if t in entries then entries[t] else [];
      return Ok(B.Take(B.Filtered(log, after, upTo), limit));
    }

    method FindingLinks(t: Uuid, finding: Uuid) returns (r: Result<seq<ArtifactRef>>)
      ensures r == B.FindingLinks(Value(), t, finding)
    {
      var log := if t in entries then entries[t] else [];
      var i := 0;
      while i < |log| && log[i].id != finding
        invariant 0 <= i <= |log|
        invariant forall k :: 0 <= k < i ==> log[k].id != finding
      {
        i := i + 1;
      }
      if i == |log| || log[i].kind != Finding {
        return Err(NotFound);
      }
      assert Value().Log(t)[i].id == finding;
      return Ok(if finding in links then links[finding] else []);
    }

    method AppendDialogue(t: Uuid, actor: Actor, channel: string, text: string, id: Uuid) returns (r: Result<Message>)
      modifies this`dialogue, this`tasks
      ensures (Value(), r) == B.AppendDialogue(old(Value()), t, actor, channel, text, id)
    {
      if t !in tasks {
        return Err(NotFound);
      }
      if text == "" {
        return Err(Contract);
      }
      var run := tasks[t];
      var m := Message(id, t, run.dialogueSeq + 1, channel, actor, text, None);
      dialogue := dialogue[t := (if t in dialogue then dialogue[t] else []) + [m]];
      tasks := tasks[t := run.(dialogueSeq := m.seqNo)];
      return Ok(m);
    }

    method CreateQuestion(id: Uuid, t: Uuid, text: string, origin: Actor, askedBy: Actor) returns (r: Result<Question>)
      modifies this`questions
      ensures (Value(), r) == B.CreateQuestion(old(Value()), id, t, text, origin, askedBy)
    {
      if t !in tasks {
        return Err(NotFound);
      }
      if id in questions {
        return Err(Conflict);
      }
      var q := Question(t, text, origin, askedBy, false);
      questions := questions[id := q];
      return Ok(q);
    }

    method AnswerQuestion(
      id: Uuid, answer: string, attachments: seq<Uuid>, user: Actor, key: string,
      entryId: Uuid, messageId: Uuid, now: int) returns (r: Result<Entry>)
      modifies this`entries, this`dialogue, this`questions, this`answers, this`tasks
      ensures (Value(), r) == B.AnswerQuestion(old(Value()), id, answer, attachments, user, key, entryId, messageId, now)
    {
      if id !in questions {
        return Err(NotFound);
      }
      var q := questions[id];
      if q.answered {
        return if id in answers then Ok(answers[id]) else Err(NotFound);
      }
      if q.taskId !in tasks {
        return Err(NotFound);
      }
      if answer == "" {
        return Err(Contract);
      }
      var t, run := q.taskId, tasks[q.taskId];
      var body := QABody(q.question, answer, q.origin.role == Supervisor, q.origin.agentId, attachments);
      var e := Entry(entryId, t, run.blackboardSeq + 1, q.askedBy, QA, "q&a", body, key, now);
      var m := Message(messageId, t, run.dialogueSeq + 1, SUPERVISOR_ID, user, answer, Some(id));
      entries := entries[t := (if t in entries then entries[t] else []) + [e]];
      dialogue := dialogue[t := (if t in dialogue then dialogue[t] else []) + [m]];
      questions := questions[id := q.(answered := true)];
      answers := answers[id := e];
      tasks := tasks[t := run.(blackboardSeq := e.seqNo, dialogueSeq := m.seqNo)];
      return Ok(e);
    }

    method SaveWriteup(t: Uuid, snapshotSeq: nat, id: Uuid) returns (r: Result<Uuid>)
      modifies this`writeups
      ensures (Value(), r) == B.SaveWriteup(old(Value()), t, snapshotSeq, id)
    {
      if t !in tasks {
        return Err(NotFound);
      }
      writeups := writeups[id := Writeup(t, snapshotSeq)];
      return Ok(id);
    }
  }

  /** The interface given to agents: role policy in front of the storage. */
  class Blackboard {
    const storage: InMemoryStorage
    /** Sequence numbers passed to the on_change hook, oldest first. */
    var notified: seq<(Uuid, nat)>

    constructor (storage: InMemoryStorage)
      ensures this.storage == storage && notified == []
    {
      this.storage := storage;
      notified := [];
    }

    method Publish(t: Uuid, actor: Actor, request: PublishRequest, id: Uuid, now: int) returns (r: Result<Entry>)
      requires request.CheckContract()
      modifies this, storage
      ensures (storage.Value(), r) == B.BoardPublish(old(storage.Value()), t, actor, request, id, now)
      ensures notified == old(notified) + if r.Ok? then [(t, r.value.seqNo)] else []
    {
      if request.kind !in B.WritePolicy(actor.role) {
        return Err(Contract);
      }
      r := storage.Publish(t, actor, request, id, now);
      if r.Ok? {
        notified := notified + [(t, r.value.seqNo)];
      }
    }
  }
}
