/** What every reachable state of the tables satisfies, and that every transaction keeps it. */
module Invariant {
  import opened Model
  import opened Collections
  import opened Transactions

  /** How the state of a job's last attempt determines the state of the job. */
  predicate Agrees(attempt: State, job: State) {
    match attempt
    case FAILED => job in {QUEUED, FAILED, CANCELLED}
    case EXPIRED => job in {QUEUED, FAILED, CANCELLED}
    case QUEUED => false
    case _ => job == attempt
  }

  ghost predicate AttemptOk(jobs: map<JobId, Job>, attempts: map<AttemptId, Attempt>, workers: map<WorkerId, Worker>, a: AttemptId)
    requires a in attempts
  {
    var row := attempts[a];
    && row.job in jobs && row.worker in workers
    && 1 <= row.number
    && row.leaseExpiresAt <= row.deadlineAt
    && if row.number == Top(attempts, row.job) then Agrees(row.state, jobs[row.job].state)
       else row.state == FAILED || row.state == EXPIRED
  }

  ghost predicate HasNumber(attempts: map<AttemptId, Attempt>, j: JobId, k: int) {
    exists a :: a in attempts && attempts[a].job == j && attempts[a].number == k
  }

  /** The retry budget of a job with n attempts. */
  predicate Budget(job: Job, n: int) {
    && 1 <= job.maxAttempts && n <= job.maxAttempts
    && (job.state == QUEUED ==> n < job.maxAttempts)
    && (job.state == FAILED ==> n == job.maxAttempts)
    && (job.state in {LEASED, RUNNING, SUCCEEDED} ==> 1 <= n)
    && job.state != EXPIRED
  }

  /** The numeric part of Definition.Validate. */
  predicate Admitted(d: Definition) {
    d.resources.Valid() && 1 <= d.resources.cpu && 1 <= d.resources.memoryMb
    && 1 <= d.maxAttempts && 1 <= d.timeoutSeconds
  }

  ghost predicate JobOk(jobs: map<JobId, Job>, attempts: map<AttemptId, Attempt>, j: JobId)
    requires j in jobs
  {
    && Admitted(jobs[j].definition)
    && Budget(jobs[j], Top(attempts, j))
    && forall k :: 1 <= k <= Top(attempts, j) ==> HasNumber(attempts, j, k)
  }

  predicate SameSlot(attempts: map<AttemptId, Attempt>, a: AttemptId, b: AttemptId) {
    && a in attempts && b in attempts
    && attempts[a].job == attempts[b].job && attempts[a].number == attempts[b].number
  }

  /** UNIQUE(job_id, attempt_number) */
  ghost predicate DistinctNumbers(attempts: map<AttemptId, Attempt>) {
    forall a, b {:trigger SameSlot(attempts, a, b)} :: SameSlot(attempts, a, b) ==> a == b
  }

  predicate SameKey(jobs: map<JobId, Job>, i: JobId, j: JobId) {
    i in jobs && j in jobs && jobs[i].definition.idempotencyKey == jobs[j].definition.idempotencyKey
  }

  /** UNIQUE(idempotency_key) */
  ghost predicate DistinctKeys(jobs: map<JobId, Job>) {
    forall i, j {:trigger SameKey(jobs, i, j)} :: SameKey(jobs, i, j) ==> i == j
  }

  ghost predicate Sound(db: Db) {
    && (forall a {:trigger AttemptOk(db.jobs, db.attempts, db.workers, a)} :: a in db.attempts ==> AttemptOk(db.jobs, db.attempts, db.workers, a))
    && (forall j {:trigger JobOk(db.jobs, db.attempts, j)} :: j in db.jobs ==> JobOk(db.jobs, db.attempts, j))
    && DistinctNumbers(db.attempts)
    && DistinctKeys(db.jobs)
  }

  ghost predicate WithinCapacity(db: Db) {
    forall w :: w in db.workers ==> Usage(db, w).AtMost(db.workers[w].capacity)
  }

  // ------------------------------------------------------------------ attempt numbers

  lemma AtMostTop(attempts: map<AttemptId, Attempt>, a: AttemptId)
    requires a in attempts
    ensures attempts[a].number <= Top(attempts, attempts[a].job)
  {
    MaxOfBound(Numbers(attempts, attempts[a].job));
    assert a in Numbers(attempts, attempts[a].job);
  }

  lemma TopWitness(attempts: map<AttemptId, Attempt>, j: JobId) returns (a: AttemptId)
    requires Top(attempts, j) != 0
    ensures a in attempts && attempts[a].job == j && attempts[a].number == Top(attempts, j)
  {
    var m := Numbers(attempts, j);
    MaxOfBound(m);
    a :| a in m && m[a] == MaxOf(m);
  }

  /** Rewriting a row without moving it leaves every job's numbers alone. */
  lemma NumbersKept(attempts: map<AttemptId, Attempt>, a: AttemptId, row: Attempt, j: JobId)
    requires a in attempts && row.job == attempts[a].job && row.number == attempts[a].number
    ensures Numbers(attempts[a := row], j) == Numbers(attempts, j)
    ensures forall k :: HasNumber(attempts, j, k) ==> HasNumber(attempts[a := row], j, k)
  {
    assert Numbers(attempts[a := row], j) == Numbers(attempts, j);
    forall k | HasNumber(attempts, j, k) ensures HasNumber(attempts[a := row], j, k) {
      var b :| b in attempts && attempts[b].job == j && attempts[b].number == k;
      assert b in attempts[a := row] && attempts[a := row][b].job == j && attempts[a := row][b].number == k;
    }
  }

  lemma TopAfterGrant(attempts: map<AttemptId, Attempt>, a: AttemptId, row: Attempt, j: JobId)
    requires a !in attempts && row.number == Top(attempts, row.job) + 1
    requires row.job == j ==> 0 <= Top(attempts, j)
    ensures Top(attempts[a := row], j) == if j == row.job then row.number else Top(attempts, j)
    ensures forall k :: HasNumber(attempts, j, k) ==> HasNumber(attempts[a := row], j, k)
    ensures HasNumber(attempts[a := row], row.job, row.number)
  {
    var after := attempts[a := row];
    if j == row.job {
      assert Numbers(after, j) == Numbers(attempts, j)[a := row.number];
      MaxOfBound(Numbers(attempts, j));
      MaxOfBound(Numbers(after, j));
      assert a in Numbers(after, j);
    } else {
      assert Numbers(after, j) == Numbers(attempts, j);
    }
    forall k | HasNumber(attempts, j, k) ensures HasNumber(after, j, k) {
      var b :| b in attempts && attempts[b].job == j && attempts[b].number == k;
      assert b in after && after[b].job == j && after[b].number == k;
    }
    assert a in after && after[a].job == row.job && after[a].number == row.number;
  }

  /** A live attempt is the last of its job and shares its state. */
  lemma LiveIsTop(db: Db, a: AttemptId)
    requires Sound(db) && a in db.attempts && Live(db.attempts[a].state)
    ensures db.attempts[a].job in db.jobs
    ensures db.attempts[a].number == Top(db.attempts, db.attempts[a].job)
    ensures db.jobs[db.attempts[a].job].state == db.attempts[a].state
  {
    assert AttemptOk(db.jobs, db.attempts, db.workers, a);
  }

  lemma OnlyLive(db: Db, a: AttemptId, b: AttemptId)
    requires Sound(db) && a in db.attempts && b in db.attempts
    requires db.attempts[a].job == db.attempts[b].job
    requires Live(db.attempts[a].state) && Live(db.attempts[b].state)
    ensures a == b
  {
    LiveIsTop(db, a);
    LiveIsTop(db, b);
    assert SameSlot(db.attempts, a, b);
  }

  lemma TopNotNegative(db: Db, j: JobId)
    requires Sound(db)
    ensures 0 <= Top(db.attempts, j)
  {
    if Top(db.attempts, j) != 0 {
      var a := TopWitness(db.attempts, j);
      assert AttemptOk(db.jobs, db.attempts, db.workers, a);
    }
  }

  // ------------------------------------------------------------------ row updates keep Sound

  lemma RedefinedKeys(jobs: map<JobId, Job>, j: JobId, job: Job)
    requires DistinctKeys(jobs) && j in jobs && job.definition == jobs[j].definition
    ensures DistinctKeys(jobs[j := job])
  {
    var after := jobs[j := job];
    forall i, k | SameKey(after, i, k) ensures i == k {
      assert SameKey(jobs, i, k);
    }
  }

  /** Row `row`, with job row `job`, may stand for the last attempt `a` of its job. */
  ghost predicate Rewrites(db: Db, a: AttemptId, row: Attempt, job: Job) {
    && a in db.attempts && row.job in db.jobs
    && row.job == db.attempts[a].job && row.number == db.attempts[a].number
    && row.worker == db.attempts[a].worker
    && row.number == Top(db.attempts, row.job)
    && row.leaseExpiresAt <= row.deadlineAt
    && job.definition == db.jobs[row.job].definition
    && Budget(job, row.number) && Agrees(row.state, job.state)
  }

  lemma RewrittenAttempts(db: Db, a: AttemptId, row: Attempt, job: Job, b: AttemptId)
    requires Sound(db) && Rewrites(db, a, row, job) && b in db.attempts
    ensures AttemptOk(db.jobs[row.job := job], db.attempts[a := row], db.workers, b)
  {
    assert AttemptOk(db.jobs, db.attempts, db.workers, a);
    assert AttemptOk(db.jobs, db.attempts, db.workers, b);
    NumbersKept(db.attempts, a, row, db.attempts[b].job);
    assert !SameSlot(db.attempts, a, b) || a == b;
  }

  lemma RewrittenJobs(db: Db, a: AttemptId, row: Attempt, job: Job, j: JobId)
    requires Sound(db) && Rewrites(db, a, row, job) && j in db.jobs
    ensures JobOk(db.jobs[row.job := job], db.attempts[a := row], j)
  {
    assert JobOk(db.jobs, db.attempts, j);
    NumbersKept(db.attempts, a, row, j);
    var after := db.attempts[a := row];
    assert Top(after, j) == Top(db.attempts, j);
    forall k | 1 <= k <= Top(after, j) ensures HasNumber(after, j, k) {
      assert HasNumber(db.attempts, j, k);
    }
  }

  /** Writing the last attempt of a job together with the job. */
  lemma SetBothSound(db: Db, a: AttemptId, row: Attempt, job: Job)
    requires Sound(db) && Rewrites(db, a, row, job)
    ensures Sound(SetBoth(db, a, row, job))
  {
    var after := SetBoth(db, a, row, job);
    forall b | b in after.attempts ensures AttemptOk(after.jobs, after.attempts, after.workers, b) {
      RewrittenAttempts(db, a, row, job, b);
    }
    forall j | j in after.jobs ensures JobOk(after.jobs, after.attempts, j) {
      RewrittenJobs(db, a, row, job, j);
    }
    forall b, c | SameSlot(after.attempts, b, c) ensures b == c {
      assert SameSlot(db.attempts, b, c);
    }
    RedefinedKeys(db.jobs, row.job, job);
  }

  /** Writing a job whose last attempt, if any, has failed or expired. */
  lemma SetJobSound(db: Db, j: JobId, job: Job)
    requires Sound(db) && j in db.jobs
    requires job.definition == db.jobs[j].definition
    requires Budget(job, Top(db.attempts, j))
    requires job.state == db.jobs[j].state
             || (db.jobs[j].state in {QUEUED, FAILED} && job.state in {QUEUED, CANCELLED})
    ensures Sound(db.(jobs := db.jobs[j := job]))
  {
    var after := db.(jobs := db.jobs[j := job]);
    forall b | b in after.attempts ensures AttemptOk(after.jobs, after.attempts, after.workers, b) {
      assert AttemptOk(db.jobs, db.attempts, db.workers, b);
    }
    forall i | i in after.jobs ensures JobOk(after.jobs, after.attempts, i) {
      assert JobOk(db.jobs, db.attempts, i);
    }
    RedefinedKeys(db.jobs, j, job);
  }

  lemma NewJobSound(db: Db, j: JobId, job: Job)
    requires Sound(db) && j !in db.jobs
    requires Admitted(job.definition) && job.state == QUEUED && job.maxAttempts == job.definition.maxAttempts
    requires !KeyTaken(db.jobs, job.definition.idempotencyKey)
    ensures Sound(db.(jobs := db.jobs[j := job]))
  {
    var after := db.(jobs := db.jobs[j := job]);
    forall b | b in after.attempts
      ensures AttemptOk(after.jobs, after.attempts, after.workers, b) && db.attempts[b].job != j
    {
      assert AttemptOk(db.jobs, db.attempts, db.workers, b);
    }
    assert Numbers(db.attempts, j) == map[];
    forall i | i in after.jobs ensures JobOk(after.jobs, after.attempts, i) {
      if i != j { assert JobOk(db.jobs, db.attempts, i); }
    }
    forall i, k | SameKey(after.jobs, i, k) ensures i == k {
      assert i != j && k != j ==> SameKey(db.jobs, i, k);
    }
  }

  /** Row `row`, with job row `job`, is a fresh attempt at a queued job. */
  ghost predicate Grants(db: Db, a: AttemptId, row: Attempt, job: Job) {
    && a !in db.attempts && row.job in db.jobs && row.worker in db.workers
    && db.jobs[row.job].state == QUEUED
    && row.number == Top(db.attempts, row.job) + 1 && row.state == LEASED
    && row.leaseExpiresAt <= row.deadlineAt
    && job.definition == db.jobs[row.job].definition && job.maxAttempts == db.jobs[row.job].maxAttempts
    && job.state == LEASED
  }

  lemma GrantedAttempts(db: Db, a: AttemptId, row: Attempt, job: Job, b: AttemptId)
    requires Sound(db) && Grants(db, a, row, job) && b in db.attempts[a := row]
    ensures AttemptOk(db.jobs[row.job := job], db.attempts[a := row], db.workers, b)
  {
    TopNotNegative(db, row.job);
    if b == a {
      TopAfterGrant(db.attempts, a, row, row.job);
    } else {
      assert AttemptOk(db.jobs, db.attempts, db.workers, b);
      AtMostTop(db.attempts, b);
      TopAfterGrant(db.attempts, a, row, db.attempts[b].job);
    }
  }

  lemma GrantedJobs(db: Db, a: AttemptId, row: Attempt, job: Job, j: JobId)
    requires Sound(db) && Grants(db, a, row, job) && j in db.jobs
    ensures JobOk(db.jobs[row.job := job], db.attempts[a := row], j)
  {
    assert JobOk(db.jobs, db.attempts, j);
    TopNotNegative(db, row.job);
    TopAfterGrant(db.attempts, a, row, j);
    var after := db.attempts[a := row];
    forall k | 1 <= k <= Top(after, j) ensures HasNumber(after, j, k) {
      assert k <= Top(db.attempts, j) ==> HasNumber(db.attempts, j, k);
    }
  }

  lemma GrantedNumbers(db: Db, a: AttemptId, row: Attempt, job: Job)
    requires Sound(db) && Grants(db, a, row, job)
    ensures DistinctNumbers(db.attempts[a := row])
  {
    var after := db.attempts[a := row];
    forall b, c | SameSlot(after, b, c) ensures b == c {
      if b != a { AtMostTop(db.attempts, b); }
      if c != a { AtMostTop(db.attempts, c); }
      assert b != a && c != a ==> SameSlot(db.attempts, b, c);
    }
  }

  lemma GrantSound(db: Db, a: AttemptId, row: Attempt, job: Job)
    requires Sound(db) && Grants(db, a, row, job)
    ensures Sound(SetBoth(db, a, row, job))
  {
    var after := SetBoth(db, a, row, job);
    forall b | b in after.attempts ensures AttemptOk(after.jobs, after.attempts, after.workers, b) {
      GrantedAttempts(db, a, row, job, b);
    }
    forall j | j in after.jobs ensures JobOk(after.jobs, after.attempts, j) {
      GrantedJobs(db, a, row, job, j);
    }
    GrantedNumbers(db, a, row, job);
    RedefinedKeys(db.jobs, row.job, job);
  }

  /** Workers may be added or updated. */
  lemma WorkersSound(db: Db, workers: map<WorkerId, Worker>)
    requires Sound(db) && db.workers.Keys <= workers.Keys
    ensures Sound(db.(workers := workers))
  {
    var after := db.(workers := workers);
    forall b | b in after.attempts ensures AttemptOk(after.jobs, after.attempts, after.workers, b) {
      assert AttemptOk(db.jobs, db.attempts, db.workers, b);
    }
  }

  // ------------------------------------------------------------------ capacity

  lemma LoadIsNotNegative(db: Db, w: WorkerId)
    requires Sound(db)
    ensures forall a :: a in Load(db.jobs, db.attempts, w) ==> NOTHING.AtMost(Load(db.jobs, db.attempts, w)[a])
  {
    forall a | a in Load(db.jobs, db.attempts, w) ensures NOTHING.AtMost(Load(db.jobs, db.attempts, w)[a]) {
      assert JobOk(db.jobs, db.attempts, db.attempts[a].job);
    }
  }

  /** No attempt becomes live and no reservation changes size: usage can only fall. */
  ghost predicate NoNewLoad(db: Db, after: Db, w: WorkerId) {
    forall a :: a in Load(after.jobs, after.attempts, w) ==>
      a in Load(db.jobs, db.attempts, w)
      && Load(after.jobs, after.attempts, w)[a] == Load(db.jobs, db.attempts, w)[a]
  }

  lemma UsageFalls(db: Db, after: Db, w: WorkerId)
    requires Sound(db) && NoNewLoad(db, after, w)
    ensures Usage(after, w).AtMost(Usage(db, w))
  {
    LoadIsNotNegative(db, w);
    TotalMonotone(Load(after.jobs, after.attempts, w), Load(db.jobs, db.attempts, w));
  }

  lemma LoadGrows(db: Db, a: AttemptId, row: Attempt, job: Job, w: WorkerId)
    requires a !in db.attempts && row.job in db.jobs && Live(row.state)
    requires job.definition == db.jobs[row.job].definition
    ensures Load(db.jobs[row.job := job], db.attempts[a := row], w) ==
            if w == row.worker then Load(db.jobs, db.attempts, w)[a := job.definition.resources]
            else Load(db.jobs, db.attempts, w)
  {
  }

  lemma UsageGrows(db: Db, a: AttemptId, row: Attempt, job: Job, w: WorkerId)
    requires a !in db.attempts && row.job in db.jobs && Live(row.state)
    requires job.definition == db.jobs[row.job].definition
    ensures Usage(SetBoth(db, a, row, job), w) ==
            if w == row.worker then Usage(db, w).Plus(job.definition.resources) else Usage(db, w)
  {
    LoadGrows(db, a, row, job, w);
    TotalAdd(Load(db.jobs, db.attempts, w), a, job.definition.resources);
  }
}
