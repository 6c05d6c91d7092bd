/** Every transaction of the store as one atomic step on the tables. What a transaction cannot
    know beforehand (clock readings, fresh names, rows it finds locked) is part of the command,
    so a sequence of commands determines a run. */
module Transactions {
  import opened Model
  import opened Collections
  import opened ObjectKeys

  /** What a transaction meets on the way: the clock when it touched its worker and four later
      readings in program order, the names drawn for a new attempt, the reservations read for its
      worker, and the jobs that its scan of the queue passed over as locked or not yet visible. */
  datatype Circumstances = Circumstances(
    touchedAt: int, t0: int, t1: int, t2: int, t3: int,
    attempt: AttemptId,
    token: Token,
    seen: Resources,
    skipped: set<JobId>)

  /** A submitted definition with the job id and creation time it gets if its key is new. */
  datatype Entry = Entry(definition: Definition, id: JobId, at: int)

  /** A job id the reaper scanned, with the clock reading of its recheck. */
  datatype Slot = Slot(id: JobId, at: int)

  datatype Command =
    | Submit(batch: seq<Entry>)
    | Rpc(call: Method, request: Request, met: Circumstances)
    | Act(action: Action, job: JobId, requestId: RequestId, at: int)
    | Reap(scan: seq<Slot>)

  datatype Outcome = Done(db: Db, response: Response) | Refused(error: Error)

  // ------------------------------------------------------------------ queries

  /** The attempt numbers of one job. */
  ghost function Numbers(attempts: map<AttemptId, Attempt>, j: JobId): map<AttemptId, int> {
    map a | a in attempts && attempts[a].job == j :: attempts[a].number
  }

  ghost function Top(attempts: map<AttemptId, Attempt>, j: JobId): int {
    MaxOf(Numbers(attempts, j))
  }

  /** What the live attempts of a worker reserve. */
  ghost function Load(jobs: map<JobId, Job>, attempts: map<AttemptId, Attempt>, w: WorkerId): map<AttemptId, Resources> {
    map a | a in attempts && attempts[a].worker == w && Live(attempts[a].state) && attempts[a].job in jobs
      :: jobs[attempts[a].job].definition.resources
  }

  ghost function Usage(db: Db, w: WorkerId): Resources {
    Total(Load(db.jobs, db.attempts, w))
  }

  function LiveOf(attempts: map<AttemptId, Attempt>, j: JobId): set<AttemptId> {
    set a | a in attempts && attempts[a].job == j && Live(attempts[a].state)
  }

  /** ORDER BY created_at, id */
  predicate Before(jobs: map<JobId, Job>, a: JobId, b: JobId)
    requires a in jobs && b in jobs
  {
    || jobs[a].createdAt < jobs[b].createdAt
    || (jobs[a].createdAt == jobs[b].createdAt && Less(a.text, b.text))
  }

  lemma BeforeTotal(jobs: map<JobId, Job>, a: JobId, b: JobId)
    requires a in jobs && b in jobs
    ensures Before(jobs, a, b) || a == b || Before(jobs, b, a)
    ensures !(Before(jobs, a, b) && Before(jobs, b, a))
  {
    LessTotal(a.text, b.text);
  }

  lemma BeforeTransitive(jobs: map<JobId, Job>, a: JobId, b: JobId, c: JobId)
    requires a in jobs && b in jobs && c in jobs
    requires Before(jobs, a, b) && Before(jobs, b, c)
    ensures Before(jobs, a, c)
  {
    if Less(a.text, b.text) && Less(b.text, c.text) {
      LessTransitive(a.text, b.text, c.text);
    }
  }

  ghost predicate IsFirst(jobs: map<JobId, Job>, s: set<JobId>, first: JobId) {
    && s <= jobs.Keys && first in s
    && forall j :: j in s && j != first ==> Before(jobs, first, j)
  }

  /** ORDER BY created_at, id LIMIT 1 */
  ghost function First(jobs: map<JobId, Job>, s: set<JobId>): (first: JobId)
    requires s != {} && s <= jobs.Keys
    ensures IsFirst(jobs, s, first)
  {
    var j :| j in s;
    var rest := s - {j};
    assert s == rest + {j};
    if rest == {} then j
    else
      var k := First(jobs, rest);
      BeforeTotal(jobs, j, k);
      if Before(jobs, k, j) then k
      else
        assert IsFirst(jobs, s, j) by {
          forall i | i in s && i != j ensures Before(jobs, j, i) {
            if i != k { BeforeTransitive(jobs, j, k, i); }
          }
        }
        j
  }

  /** Queued jobs that fit in `free` and were not skipped. */
  function Candidates(db: Db, free: Resources, skipped: set<JobId>): set<JobId> {
    set j | j in db.jobs && db.jobs[j].state == QUEUED && j !in skipped
            && db.jobs[j].definition.resources.AtMost(free)
  }

  /** The newest committed checkpoint of a job, rows being kept in insertion order. */
  function LastCheckpoint(rows: seq<ArtifactRow>, j: JobId): Option<Artifact> {
    if rows == [] then None
    else
      var row := rows[|rows| - 1];
      if row.job == j && row.meta.kind == Checkpoint then Some(row.meta)
      else LastCheckpoint(rows[..|rows| - 1], j)
  }

  function FindArtifact(rows: seq<ArtifactRow>, key: string): Option<Artifact> {
    if rows == [] then None
    else if rows[0].meta.key == key then Some(rows[0].meta)
    else FindArtifact(rows[1..], key)
  }

  // ------------------------------------------------------------------ worker calls

  function Register(db: Db, r: Request, at: int): Outcome {
    if !r.resources.Valid() || r.resources.cpu < 1 || r.resources.memoryMb < 1 then Refused(Invalid)
    else
      var workers := if r.worker in db.workers then db.workers
                     else db.workers[r.worker := Worker(r.session, r.hostname, r.resources, ACTIVE, at)];
      var row := workers[r.worker];
      if row.session != r.session || row.capacity != r.resources then Refused(Conflict)
      else Done(db.(workers := workers), Registered)
  }

  function Timeout(job: Job): int {
    1000 * job.definition.timeoutSeconds
  }

  ghost function NewAttempt(db: Db, j: JobId, w: WorkerId, met: Circumstances): Attempt
    requires j in db.jobs
  {
    var timeout := Timeout(db.jobs[j]);
    Attempt(j, Top(db.attempts, j) + 1, w, LEASED, met.token,
            met.t0 + Min(db.leaseMs, timeout), met.t1 + timeout,
            None, None, None, "")
  }

  /** A primary key or one of the two unique indexes would reject the row. */
  ghost predicate UniqueViolation(db: Db, a: AttemptId, row: Attempt) {
    || a in db.attempts
    || row.number in Numbers(db.attempts, row.job).Values
    || LiveOf(db.attempts, row.job) != {}
  }

  ghost function GrantLease(db: Db, j: JobId, r: Request, met: Circumstances): Outcome
    requires j in db.jobs
  {
    var row := NewAttempt(db, j, r.worker, met);
    if UniqueViolation(db, met.attempt, row) then Refused(Internal)
    else if row.number > db.jobs[j].maxAttempts then Refused(Internal)
    else
      Done(db.(attempts := db.attempts[met.attempt := row],
               jobs := db.jobs[j := db.jobs[j].(state := LEASED, updatedAt := met.t3)],
               events := db.events + [Event(j, Some(met.attempt), Granted, Some(r.requestId))]),
           Leased(Lease(j, met.attempt, row.number, row.token, row.leaseExpiresAt, met.t2,
                        LastCheckpoint(db.artifacts, j))))
  }

  ghost function LeaseNext(db: Db, r: Request, capacity: Resources, met: Circumstances): Outcome {
    var found := Candidates(db, capacity.Minus(met.seen), met.skipped);
    if found == {} then Done(db, Idle) else GrantLease(db, First(db.jobs, found), r, met)
  }

  datatype Checked = Rows(rows: seq<ArtifactRow>) | Bad(error: Error)

  predicate ArtifactAccepted(prefix: string, art: Artifact) {
    prefix <= art.key && !HasDoubleDot(art.key) && ChecksumText(art.checksum) && 0 <= art.sizeBytes
    && (art.kind == Checkpoint || art.kind == Output || art.kind == Log)
  }

  /** The loop over reported artifacts: an identical row is kept, a differing one is a conflict. */
  function AddArtifacts(rows: seq<ArtifactRow>, j: JobId, a: AttemptId, prefix: string, list: seq<Artifact>): Checked
    decreases |list|
  {
    if list == [] then Rows(rows)
    else if !ArtifactAccepted(prefix, list[0]) then Bad(Invalid)
    else
      match FindArtifact(rows, list[0].key)
      case Some(existing) =>
        if existing != list[0] then Bad(Conflict) else AddArtifacts(rows, j, a, prefix, list[1..])
      case None =>
        AddArtifacts(rows + [ArtifactRow(j, a, list[0])], j, a, prefix, list[1..])
  }

  predicate TooLarge(r: Request) {
    || |r.logs| > 100 || |r.artifacts| > 100 || |r.reason| > 8192
    || exists i :: 0 <= i < |r.logs| && |r.logs[i]| > 16384
  }

  /** Writing an attempt and its job together. */
  function SetBoth(db: Db, a: AttemptId, row: Attempt, job: Job): Db {
    db.(attempts := db.attempts[a := row], jobs := db.jobs[row.job := job])
  }

  function Record(db: Db, j: JobId, a: Option<AttemptId>, kind: EventKind, id: Option<RequestId>): Db {
    db.(events := db.events + [Event(j, a, kind, id)])
  }

  /** The lease of this attempt, as presented by this request, still holds at the readings. */
  predicate Holds(row: Attempt, job: Job, r: Request, met: Circumstances) {
    && row.worker == r.worker && row.token.text == r.token
    && row.leaseExpiresAt > met.t0 && row.deadlineAt > met.t1
    && Live(job.state) && Live(row.state)
  }

  function Renew(db: Db, a: AttemptId, met: Circumstances): Outcome
    requires a in db.attempts
  {
    var row := db.attempts[a];
    var until := Min(row.deadlineAt, met.t2 + db.leaseMs);
    Done(db.(attempts := db.attempts[a := row.(leaseExpiresAt := until)]), Renewed(until, met.t3))
  }

  function Start(db: Db, a: AttemptId, r: Request, met: Circumstances): Outcome
    requires a in db.attempts && db.attempts[a].job in db.jobs
  {
    var row := db.attempts[a];
    var started := if row.state != LEASED then db
                   else SetBoth(db, a, row.(state := RUNNING, startedAt := Some(met.t2)),
                                db.jobs[row.job].(state := RUNNING, updatedAt := met.t3));
    Done(Record(started, row.job, Some(a), Called(StartAttempt), Some(r.requestId)), Accepted)
  }

  /** The end of an attempt that reported its result. */
  function Finish(db: Db, call: Method, a: AttemptId, r: Request, met: Circumstances): Db
    requires a in db.attempts && db.attempts[a].job in db.jobs
  {
    var row := db.attempts[a];
    var job := db.jobs[row.job];
    var ended := if call == FailAttempt then FAILED else SUCCEEDED;
    var next := if call == FailAttempt then RetryState(row.number, job.maxAttempts) else SUCCEEDED;
    SetBoth(db, a,
            row.(state := ended, finishedAt := Some(met.t2), exitCode := Some(r.exitCode), failureReason := r.reason),
            job.(state := next, updatedAt := met.t3))
  }

  /** ReportProgress, CompleteAttempt and FailAttempt once the fence has let them through. */
  function Report(db: Db, call: Method, a: AttemptId, r: Request, met: Circumstances): Outcome
    requires a in db.attempts && db.attempts[a].job in db.jobs
  {
    var row := db.attempts[a];
    var job := db.jobs[row.job];
    if row.state != RUNNING then Refused(Conflict)
    else if TooLarge(r) then Refused(Invalid)
    else
      var prefix := ServerPrefix(job.definition.artifactPrefix, row.job.text, r.attempt);
      match AddArtifacts(db.artifacts, row.job, a, prefix, r.artifacts)
      case Bad(error) => Refused(error)
      case Rows(rows) =>
        var kept := db.(artifacts := rows);
        if call == CompleteAttempt && r.exitCode != 0 then Refused(Invalid)
        else
          var next := if call == ReportProgress then kept else Finish(kept, call, a, r, met);
          Done(Record(next, row.job, Some(a), Called(call), Some(r.requestId)), Accepted)
  }

  function OnAttempt(db: Db, call: Method, r: Request, met: Circumstances): Outcome {
    var a := NamedAttempt(r.attempt);
    if !UuidText(r.attempt) || !UuidText(r.token) then Refused(Invalid)
    else if a !in db.attempts then Refused(NotFound)
    else if db.attempts[a].job !in db.jobs then Refused(NotFound)
    else if !Holds(db.attempts[a], db.jobs[db.attempts[a].job], r, met) then Refused(Conflict)
    else if call == Heartbeat then Renew(db, a, met)
    else if call == StartAttempt then Start(db, a, r, met)
    else Report(db, call, a, r, met)
  }

  /** What a registered worker's call does once its session has been checked. */
  ghost function Dispatch(db: Db, call: Method, r: Request, met: Circumstances): Outcome
    requires r.worker in db.workers
  {
    var row := db.workers[r.worker];
    match call
    case LeaseJob =>
      if row.state != ACTIVE then Refused(Conflict) else LeaseNext(db, r, row.capacity, met)
    case ReleaseWorker =>
      Done(db.(workers := db.workers[r.worker := row.(state := DRAINING)]), Released)
    case Heartbeat =>
      if r.attempt == "" then Done(db, StillAlive) else OnAttempt(db, call, r, met)
    case StartAttempt => OnAttempt(db, call, r, met)
    case ReportProgress => OnAttempt(db, call, r, met)
    case CompleteAttempt => OnAttempt(db, call, r, met)
    case FailAttempt => OnAttempt(db, call, r, met)
    case RegisterWorker => Refused(Invalid)
    case OtherMethod(_) => Refused(Invalid)
  }

  function Touched(db: Db, w: WorkerId, at: int): Db
    requires w in db.workers
  {
    db.(workers := db.workers[w := db.workers[w].(lastHeartbeatAt := at)])
  }

  ghost function ByWorker(db: Db, call: Method, r: Request, met: Circumstances): Outcome {
    if r.worker !in db.workers then Refused(NotFound)
    else if db.workers[r.worker].session != r.session then Refused(Conflict)
    else Dispatch(Touched(db, r.worker, met.touchedAt), call, r, met)
  }

  ghost function CallBody(db: Db, call: Method, r: Request, met: Circumstances): Outcome {
    if call == RegisterWorker then Register(db, r, met.touchedAt) else ByWorker(db, call, r, met)
  }

  // ------------------------------------------------------------------ cancel and retry

  function CancelLive(attempts: map<AttemptId, Attempt>, j: JobId, at: int): map<AttemptId, Attempt> {
    map a | a in attempts ::
      if attempts[a].job == j && Live(attempts[a].state)
      then attempts[a].(state := CANCELLED, finishedAt := Some(at), failureReason := "cancelled")
      else attempts[a]
  }

  function ActionBody(db: Db, action: Action, j: JobId, id: RequestId, at: int): Outcome {
    if j !in db.jobs then Refused(NotFound)
    else
      var job := db.jobs[j];
      match action
      case Cancel =>
        if job.state == SUCCEEDED || job.state == FAILED then Refused(Conflict)
        else
          var row := job.(state := CANCELLED, updatedAt := at);
          var attempts := if job.state == CANCELLED then db.attempts else CancelLive(db.attempts, j, at);
          Done(Record(db.(attempts := attempts, jobs := db.jobs[j := row]), j, None, Acted(Cancel), Some(id)),
               JobView(j, row))
      case Retry =>
        if job.state != FAILED then Refused(Conflict)
        else
          var row := job.(state := QUEUED, maxAttempts := job.maxAttempts + 1, updatedAt := at);
          Done(Record(db.(jobs := db.jobs[j := row]), j, None, Acted(Retry), Some(id)), JobView(j, row))
      case OtherAction(_) => Refused(Invalid)
  }

  // ------------------------------------------------------------------ expiry

  predicate ExpiredLive(attempts: map<AttemptId, Attempt>, j: JobId, at: int, a: AttemptId) {
    a in attempts && attempts[a].job == j && Live(attempts[a].state) && attempts[a].leaseExpiresAt <= at
  }

  predicate Reapable(attempts: map<AttemptId, Attempt>, j: JobId, at: int) {
    exists a :: a in attempts && ExpiredLive(attempts, j, at, a)
  }

  function ExpireAttempt(db: Db, a: AttemptId, at: int): Db
    requires a in db.attempts && db.attempts[a].job in db.jobs
  {
    var row := db.attempts[a];
    var job := db.jobs[row.job];
    Record(SetBoth(db, a,
                row.(state := EXPIRED, finishedAt := Some(at), failureReason := "lease or attempt deadline expired"),
                job.(state := RetryState(row.number, job.maxAttempts), updatedAt := at)),
        row.job, Some(a), LeaseExpired, None)
  }

  /** One iteration of the reaper: the recheck under the job's lock, then the expiry. */
  ghost function ExpireJob(db: Db, s: Slot): Db {
    if s.id in db.jobs && Reapable(db.attempts, s.id, s.at) then
      var a :| a in db.attempts && ExpiredLive(db.attempts, s.id, s.at, a);
      ExpireAttempt(db, a, s.at)
    else db
  }

  ghost function ReapCount(db: Db, scan: seq<Slot>): nat
    decreases |scan|
  {
    if scan == [] then 0
    else (if scan[0].id in db.jobs && Reapable(db.attempts, scan[0].id, scan[0].at) then 1 else 0)
         + ReapCount(ExpireJob(db, scan[0]), scan[1..])
  }

  ghost function ReapAll(db: Db, scan: seq<Slot>): Db
    decreases |scan|
  {
    if scan == [] then db else ReapAll(ExpireJob(db, scan[0]), scan[1..])
  }

  // ------------------------------------------------------------------ submission

  ghost predicate KeyTaken(jobs: map<JobId, Job>, key: string) {
    exists j :: j in jobs && jobs[j].definition.idempotencyKey == key
  }

  ghost function KeyOwner(jobs: map<JobId, Job>, key: string): (j: JobId)
    requires KeyTaken(jobs, key)
    ensures j in jobs && jobs[j].definition.idempotencyKey == key
  {
    var j :| j in jobs && jobs[j].definition.idempotencyKey == key; j
  }

  function NewJob(d: Definition, at: int): Job {
    Job(d, QUEUED, d.maxAttempts, at, at)
  }

  /** INSERT ... ON CONFLICT(idempotency_key) DO NOTHING, and the event if a row went in. */
  ghost function InsertJob(db: Db, e: Entry): Db {
    if KeyTaken(db.jobs, e.definition.idempotencyKey) then db
    else Record(db.(jobs := db.jobs[e.id := NewJob(e.definition, e.at)]), e.id, None, Submitted, None)
  }

  ghost function SubmitAll(db: Db, batch: seq<Entry>, out: seq<JobId>): Outcome
    decreases |batch|
  {
    if batch == [] then Done(db, SubmittedAs(out))
    else
      var d := batch[0].definition;
      var next := InsertJob(db, batch[0]);
      if !KeyTaken(next.jobs, d.idempotencyKey) then Refused(NotFound)
      else
        var j := KeyOwner(next.jobs, d.idempotencyKey);
        if next.jobs[j].definition != d then Refused(Conflict)
        else SubmitAll(next, batch[1..], out + [j])
  }

  predicate BatchInvalid(batch: seq<Entry>) {
    |batch| < 1 || |batch| > 1000 || exists i :: 0 <= i < |batch| && !batch[i].definition.Validate()
  }

  ghost function SubmitBody(db: Db, batch: seq<Entry>): Outcome {
    if BatchInvalid(batch) then Refused(Invalid) else SubmitAll(db, batch, [])
  }

  // ------------------------------------------------------------------ receipts and the whole step

  /** Mutate: at most one execution per request key; a refusal rolls everything back. */
  function Mutate(db: Db, key: Key, payload: Payload, body: Outcome): (Db, Result) {
    if |key.id.text| == 0 || |key.id.text| > 256 then (db, Err(Invalid))
    else if key in db.requests && db.requests[key].payload != payload then (db, Err(Conflict))
    else if key in db.requests && db.requests[key].response.Some? then (db, Ok(db.requests[key].response.value))
    else
      match body
      case Refused(e) => (db, Err(e))
      case Done(next, response) =>
        (next.(requests := next.requests[key := Receipt(payload, Some(response))]), Ok(response))
  }

  predicate NamedSender(r: Request) {
    1 <= |r.worker.text| <= 256 && 1 <= |r.session.text| <= 256
  }

  function RpcKey(call: Method, r: Request): Key {
    Key(RpcScope(call, r.worker), r.requestId)
  }

  ghost function Apply(db: Db, c: Command): (Db, Result) {
    match c
    case Submit(batch) =>
      (match SubmitBody(db, batch)
       case Refused(e) => (db, Err(e))
       case Done(next, response) => (next, Ok(response)))
    case Rpc(call, r, met) =>
      if !NamedSender(r) then (db, Err(Invalid))
      else Mutate(db, RpcKey(call, r), RpcPayload(r), CallBody(db, call, r, met))
    case Act(action, j, id, at) =>
      Mutate(db, Key(ActionScope(action), id), ActionPayload(j), ActionBody(db, action, j, id, at))
    case Reap(scan) => (ReapAll(db, scan), Ok(Reaped(ReapCount(db, scan))))
  }
}
