/** The values the control plane stores and exchanges: resources, job definitions, the rows of
    its tables, requests and responses. Times are integer milliseconds. */
module Model {

  datatype Option<+T> = None | Some(value: T)

  datatype Resources = Resources(cpu: int, memoryMb: int, gpu: int) {
    predicate Valid() {
      0 <= cpu <= 1000000 && 0 <= memoryMb <= 1000000000 && 0 <= gpu <= 1000000
    }

    predicate AtMost(other: Resources) {
      cpu <= other.cpu && memoryMb <= other.memoryMb && gpu <= other.gpu
    }

    predicate Fits(capacity: Resources) {
      Valid() && AtMost(capacity)
    }

    function Plus(other: Resources): Resources {
      Resources(cpu + other.cpu, memoryMb + other.memoryMb, gpu + other.gpu)
    }

    function Minus(other: Resources): Resources {
      Resources(cpu - other.cpu, memoryMb - other.memoryMb, gpu - other.gpu)
    }
  }

  const NOTHING := Resources(0, 0, 0)

  // Names are wrapped so that a job id is never taken for an attempt id.
  datatype JobId = JobId(text: string)
  datatype AttemptId = AttemptId(text: string)
  datatype WorkerId = WorkerId(text: string)
  datatype SessionId = SessionId(text: string)
  datatype Token = Token(text: string)
  datatype RequestId = RequestId(text: string)

  datatype Definition = Definition(
    name: string,
    command: seq<string>,
    environment: map<string, string>,
    resources: Resources,
    maxAttempts: int,
    timeoutSeconds: int,
    idempotencyKey: string,
    artifactPrefix: string)
  {
    /** The checks of Job.Validate, in its order. */
    predicate Validate() {
      && 1 <= |name| <= 256 && 1 <= |idempotencyKey| <= 256
      && 1 <= |command| <= 1024 && command[0] != ""
      && (forall i :: 0 <= i < |command| ==> '\0' !in command[i])
      && resources.Valid() && 1 <= resources.cpu && 1 <= resources.memoryMb
      && 1 <= maxAttempts <= 100 && 1 <= timeoutSeconds <= 604800
      && (forall k :: k in environment ==>
            EnvironmentKey(k) && '\0' !in environment[k] && !("RUNGRID_" <= k))
      && !("/" <= artifactPrefix) && !HasDoubleDot(artifactPrefix) && |artifactPrefix| <= 512
    }
  }

  predicate Letter(c: char) {
    'a' <= c <= 'z' || 'A' <= c <= 'Z' || c == '_'
  }

  predicate EnvironmentKey(k: string) {
    && k != ""
    && Letter(k[0])
    && forall i :: 0 <= i < |k| ==> Letter(k[i]) || '0' <= k[i] <= '9'
  }

  /** strings.Contains(s, "..") */
  predicate HasDoubleDot(s: string) {
    exists i :: 0 <= i < |s| - 1 && s[i] == '.' && s[i + 1] == '.'
  }

  // Jobs and attempts draw their states from one set of names; the schema's CHECK constraints
  // (a job is never EXPIRED, an attempt never QUEUED) are proved, not assumed.
  datatype State = QUEUED | LEASED | RUNNING | SUCCEEDED | FAILED | CANCELLED | EXPIRED

  predicate Live(s: State) {
    s == LEASED || s == RUNNING
  }

  function RetryState(number: int, max: int): State {
    if number < max then QUEUED else FAILED
  }

  datatype Job = Job(
    definition: Definition,
    state: State,
    maxAttempts: int,
    createdAt: int,
    updatedAt: int)

  datatype Attempt = Attempt(
    job: JobId,
    number: int,
    worker: WorkerId,
    state: State,
    token: Token,
    leaseExpiresAt: int,
    deadlineAt: int,
    startedAt: Option<int>,
    finishedAt: Option<int>,
    exitCode: Option<int>,
    failureReason: string)

  datatype WorkerState = ACTIVE | DRAINING

  datatype Worker = Worker(
    session: SessionId,
    hostname: string,
    capacity: Resources,
    state: WorkerState,
    lastHeartbeatAt: int)

  datatype Kind = Checkpoint | Output | Log | OtherKind(text: string)

  datatype Artifact = Artifact(key: string, contentType: string, sizeBytes: int, checksum: string, kind: Kind)

  datatype ArtifactRow = ArtifactRow(job: JobId, attempt: AttemptId, meta: Artifact)

  datatype Method =
    | RegisterWorker | LeaseJob | ReleaseWorker | Heartbeat
    | StartAttempt | ReportProgress | CompleteAttempt | FailAttempt
    | OtherMethod(name: string)

  datatype Action = Cancel | Retry | OtherAction(name: string)

  datatype EventKind = Submitted | Granted | Called(call: Method) | Acted(action: Action) | LeaseExpired

  datatype Event = Event(job: JobId, attempt: Option<AttemptId>, kind: EventKind, request: Option<RequestId>)

  // The attempt id and lease token of a request are text a client chose, not yet names of rows.
  datatype Request = Request(
    requestId: RequestId,
    worker: WorkerId,
    session: SessionId,
    attempt: string,
    token: string,
    hostname: string,
    resources: Resources,
    exitCode: int,
    reason: string,
    logs: seq<string>,
    artifacts: seq<Artifact>)

  datatype Lease = Lease(
    job: JobId,
    attempt: AttemptId,
    number: int,
    token: Token,
    leaseExpiresAt: int,
    serverTime: int,
    checkpoint: Option<Artifact>)

  datatype Response =
    | Registered
    | Released
    | StillAlive
    | Idle
    | Leased(lease: Lease)
    | Renewed(leaseExpiresAt: int, serverTime: int)
    | Accepted
    | JobView(id: JobId, row: Job)
    | SubmittedAs(ids: seq<JobId>)
    | Reaped(count: nat)

  datatype Error = Invalid | Conflict | NotFound | Internal

  datatype Result = Ok(response: Response) | Err(error: Error)

  datatype Scope = RpcScope(call: Method, worker: WorkerId) | ActionScope(action: Action)

  // The receipt keeps the payload itself where the source keeps its SHA-256.
  datatype Payload = RpcPayload(request: Request) | ActionPayload(job: JobId)

  datatype Receipt = Receipt(payload: Payload, response: Option<Response>)

  datatype Key = Key(scope: Scope, id: RequestId)

  datatype Db = Db(
    leaseMs: int,
    jobs: map<JobId, Job>,
    attempts: map<AttemptId, Attempt>,
    workers: map<WorkerId, Worker>,
    requests: map<Key, Receipt>,
    artifacts: seq<ArtifactRow>,
    events: seq<Event>)

  function Min(a: int, b: int): int {
    if a < b then a else b
  }
}
