/** The contracts shared by the control plane and the workers (tga3/src/tga3/domain.py). */
module Domain {

  /** Identifiers are only ever compared; the source draws them at random. */
  type Uuid = nat

  datatype Option<+T> = None | Some(value: T)

  datatype Error = NotFound | Conflict | FindingRejected | Contract | UniqueViolation

  datatype Result<+T> = Ok(value: T) | Err(error: Error)

  datatype EntryKind =
    | UserPrompt | UserFile | SupervisorAdvice | Intel | Finding | QA | FinalCandidate

  datatype Role = User | Supervisor | Worker | Reporter | System

  datatype RunState =
    | Created | Starting | Running | WaitingUser | Finalizing | Reporting | Completed | Failed | Cancelled

  predicate Terminal(state: RunState) {
    state in {Completed, Failed, Cancelled}
  }

  datatype Actor = Actor(agentId: string, role: Role)

  const SUPERVISOR_ID := "supervisor"

  datatype ArtifactRef = ArtifactRef(artifactId: Uuid, locator: string, description: string)

  /** One constructor for each body model; the pairing with EntryKind is BodyFits. */
  datatype Body =
    | PromptBody(text: string)
    | FileBody(inputFileId: Uuid)
    | AdviceBody(advice: string, basedOnSeq: nat)
    | FactBody(claim: string, detail: string)
    | QABody(question: string, answer: string, fromSupervisor: bool, originAgentId: string, attachments: seq<Uuid>)
    | CandidateBody(conclusion: string, rationale: string, findingIds: seq<Uuid>)

  predicate BodyFits(kind: EntryKind, body: Body) {
    match kind
    case UserPrompt => body.PromptBody? && body.text != ""
    case UserFile => body.FileBody?
    case SupervisorAdvice => body.AdviceBody? && body.advice != ""
    case Intel => body.FactBody? && body.claim != ""
    case Finding => body.FactBody? && body.claim != ""
    case QA => body.QABody? && body.question != "" && body.answer != ""
    case FinalCandidate =>
      body.CandidateBody? && body.conclusion != "" && body.rationale != "" && body.findingIds != []
  }

  datatype PublishRequest = PublishRequest(
    kind: EntryKind, topic: string, body: Body, artifactRefs: seq<ArtifactRef>, key: string)
  {
    /** The model validator: a request that fails it is never constructed. */
    predicate CheckContract() {
      && BodyFits(kind, body)
      && 1 <= |topic| <= 200
      && 1 <= |key| <= 200
      && (kind == Finding ==> artifactRefs != [])
      && (kind !in {Intel, Finding} ==> artifactRefs == [])
    }
  }

  datatype Entry = Entry(
    id: Uuid, taskId: Uuid, seqNo: nat, actor: Actor, kind: EntryKind, topic: string,
    body: Body, key: string, createdAt: int)

  datatype Artifact = Artifact(id: Uuid, taskId: Uuid, available: bool)

  datatype Message = Message(
    id: Uuid, taskId: Uuid, seqNo: nat, channel: string, actor: Actor, text: string, question: Option<Uuid>)

  datatype Question = Question(
    taskId: Uuid, question: string, origin: Actor, askedBy: Actor, answered: bool)

  datatype TaskRun = TaskRun(state: RunState, blackboardSeq: nat, dialogueSeq: nat, finalSnapshotSeq: Option<nat>)

  datatype AgentState =
    | AgentCreated | Idle | AgentStarting | AgentRunning | PauseRequested | Paused | Stopping | AgentCompleted
    | AgentFailed | Stopped

  /** Of an agent run only its two states matter. */
  datatype AgentRun = AgentRun(desired: AgentState, actual: AgentState)

  datatype InputFile = InputFile(taskId: Uuid, name: string)

  datatype Writeup = Writeup(taskId: Uuid, snapshotSeq: nat)
}
