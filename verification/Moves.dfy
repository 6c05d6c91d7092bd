/** Every transaction changes jobs and attempts by a sequence of lawful moves, each on one job
    and at most one attempt. What holds of every lawful move holds of every run. */
module Moves {
  import opened Model
  import opened ObjectKeys
  import opened Transactions
  import opened Invariant

  datatype Move =
    | Rewrite(a: AttemptId, row: Attempt, job: Job)
    | Grant(a: AttemptId, row: Attempt, job: Job)
    | SetJob(j: JobId, job: Job)
    | AddJob(j: JobId, job: Job)

  function Patch(db: Db, m: Move): Db {
    match m
    case Rewrite(a, row, job) => SetBoth(db, a, row, job)
    case Grant(a, row, job) => SetBoth(db, a, row, job)
    case SetJob(j, job) => db.(jobs := db.jobs[j := job])
    case AddJob(j, job) => db.(jobs := db.jobs[j := job])
  }

  /** Command `c` presents the lease of attempt `a`, whose row is `was`, in the session of its
      worker, and read the clock while the lease was unexpired. */
  predicate ByHolder(c: Command, session: SessionId, a: AttemptId, was: Attempt) {
    && c.Rpc? && NamedAttempt(c.request.attempt) == a
    && c.request.worker == was.worker && c.request.token == was.token.text
    && c.request.session == session
    && was.leaseExpiresAt > c.met.t0
  }

  /** Which command may turn a live attempt's row `was` into `now`. */
  ghost predicate Caused(c: Command, session: SessionId, a: AttemptId, was: Attempt, now: Attempt) {
    && Live(was.state)
    && match now.state
       case LEASED => ByHolder(c, session, a, was) && c.call == Heartbeat && was.state == LEASED
       case RUNNING =>
         ByHolder(c, session, a, was)
         && if was.state == LEASED then c.call == StartAttempt && now.leaseExpiresAt == was.leaseExpiresAt
            else c.call == Heartbeat
       case SUCCEEDED =>
         ByHolder(c, session, a, was) && c.call == CompleteAttempt && c.request.exitCode == 0
         && was.state == RUNNING && now.leaseExpiresAt == was.leaseExpiresAt
       case FAILED =>
         ByHolder(c, session, a, was) && c.call == FailAttempt
         && was.state == RUNNING && now.leaseExpiresAt == was.leaseExpiresAt
       case EXPIRED =>
         c.Reap? && (exists at :: Slot(was.job, at) in c.scan && was.leaseExpiresAt <= at)
         && now.leaseExpiresAt == was.leaseExpiresAt
       case CANCELLED =>
         c.Act? && c.action == Cancel && c.job == was.job && now.leaseExpiresAt == was.leaseExpiresAt
       case QUEUED => false
  }

  /** What happens to the job when its last attempt's row changes. */
  predicate Follows(was: Attempt, now: Attempt, jobWas: Job, jobNow: Job) {
    && jobNow.createdAt == jobWas.createdAt && jobNow.maxAttempts == jobWas.maxAttempts
    && (now.state == was.state ==> jobNow == jobWas)
    && (now.state in {FAILED, EXPIRED} ==> jobNow.state == RetryState(now.number, jobNow.maxAttempts))
  }

  ghost predicate Lawful(db: Db, c: Command, m: Move) {
    match m
    case Rewrite(a, row, job) =>
      && Rewrites(db, a, row, job)
      && var was := db.attempts[a];
      && was.worker in db.workers
      && row.token == was.token && row.deadlineAt == was.deadlineAt
      && was.leaseExpiresAt <= row.leaseExpiresAt
      && Caused(c, db.workers[was.worker].session, a, was, row)
      && Follows(was, row, db.jobs[row.job], job)
    case Grant(a, row, job) =>
      && Grants(db, a, row, job)
      && job.createdAt == db.jobs[row.job].createdAt
      && Usage(db, row.worker).Plus(job.definition.resources).AtMost(db.workers[row.worker].capacity)
      && c.Rpc? && c.call == LeaseJob && c.request.worker == row.worker
      && c.request.session == db.workers[row.worker].session
    case SetJob(j, job) =>
      && j in db.jobs
      && job.definition == db.jobs[j].definition && job.createdAt == db.jobs[j].createdAt
      && c.Act? && c.job == j
      && (match c.action
         case Cancel =>
           job.state == CANCELLED && db.jobs[j].state in {QUEUED, CANCELLED} && job.maxAttempts == db.jobs[j].maxAttempts
         case Retry =>
           job.state == QUEUED && db.jobs[j].state == FAILED && job.maxAttempts == db.jobs[j].maxAttempts + 1
         case OtherAction(_) => false)
    case AddJob(j, job) =>
      && j !in db.jobs && c.Submit?
      && Admitted(job.definition) && job.state == QUEUED && job.maxAttempts == job.definition.maxAttempts
      && !KeyTaken(db.jobs, job.definition.idempotencyKey)
  }

  lemma LawfulSound(db: Db, c: Command, m: Move)
    requires Sound(db) && Lawful(db, c, m)
    ensures Sound(Patch(db, m))
  {
    match m
    case Rewrite(a, row, job) => SetBothSound(db, a, row, job);
    case Grant(a, row, job) => GrantSound(db, a, row, job);
    case SetJob(j, job) =>
      assert JobOk(db.jobs, db.attempts, j);
      SetJobSound(db, j, job);
    case AddJob(j, job) => NewJobSound(db, j, job);
  }

  /** Only a grant adds to anyone's reservations, and only to its own worker's. */
  lemma LawfulLoad(db: Db, c: Command, m: Move, w: WorkerId)
    requires Sound(db) && Lawful(db, c, m)
    requires !(m.Grant? && m.row.worker == w)
    ensures NoNewLoad(db, Patch(db, m), w)
  {
    var after := Patch(db, m);
    forall a | a in Load(after.jobs, after.attempts, w)
      ensures a in Load(db.jobs, db.attempts, w)
      ensures Load(after.jobs, after.attempts, w)[a] == Load(db.jobs, db.attempts, w)[a]
    {
      assert a in db.attempts;
      assert AttemptOk(db.jobs, db.attempts, db.workers, a);
    }
  }

  lemma LawfulCapacity(db: Db, c: Command, m: Move)
    requires Sound(db) && WithinCapacity(db) && Lawful(db, c, m)
    ensures WithinCapacity(Patch(db, m))
  {
    var after := Patch(db, m);
    forall w | w in after.workers ensures Usage(after, w).AtMost(after.workers[w].capacity) {
      if m.Grant? && m.row.worker == w {
        UsageGrows(db, m.a, m.row, m.job, w);
      } else {
        LawfulLoad(db, c, m, w);
        UsageFalls(db, after, w);
      }
      assert Usage(db, w).AtMost(db.workers[w].capacity);
    }
  }
}
