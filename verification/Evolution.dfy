/** How the tables may change over any stretch of a run, however long. */
module Evolution {
  import opened Model
  import opened Transactions
  import opened Invariant
  import opened Moves

  predicate Settled(s: State) {
    s == SUCCEEDED || s == CANCELLED
  }

  predicate JobEvolves(was: Job, now: Job) {
    && now.definition == was.definition && now.createdAt == was.createdAt
    && was.maxAttempts <= now.maxAttempts
    && (Settled(was.state) ==> now.state == was.state)
  }

  /** The identity of an attempt is fixed, its lease only grows, and an ended row is frozen. */
  predicate AttemptEvolves(was: Attempt, now: Attempt) {
    && now.job == was.job && now.number == was.number && now.worker == was.worker
    && now.token == was.token && now.deadlineAt == was.deadlineAt
    && was.leaseExpiresAt <= now.leaseExpiresAt
    && (!Live(was.state) ==> now == was)
    && (was.state == RUNNING ==> now.state != LEASED)
  }

  predicate WorkerEvolves(was: Worker, now: Worker) {
    && now.session == was.session && now.capacity == was.capacity
    && (was.state == DRAINING ==> now.state == DRAINING)
  }

  ghost predicate JobsEvolve(was: map<JobId, Job>, now: map<JobId, Job>) {
    forall j {:trigger j in was} {:trigger was[j]} :: j in was ==> j in now && JobEvolves(was[j], now[j])
  }

  ghost predicate AttemptsEvolve(was: map<AttemptId, Attempt>, now: map<AttemptId, Attempt>) {
    forall a {:trigger a in was} {:trigger was[a]} :: a in was ==> a in now && AttemptEvolves(was[a], now[a])
  }

  ghost predicate WorkersEvolve(was: map<WorkerId, Worker>, now: map<WorkerId, Worker>) {
    forall w {:trigger w in was} {:trigger was[w]} :: w in was ==> w in now && WorkerEvolves(was[w], now[w])
  }

  ghost predicate ReceiptsKept(was: map<Key, Receipt>, now: map<Key, Receipt>) {
    forall k {:trigger k in was} {:trigger was[k]} ::
      k in was && was[k].response.Some? ==> k in now && now[k] == was[k]
  }

  ghost predicate Evolves(was: Db, now: Db) {
    && now.leaseMs == was.leaseMs
    && JobsEvolve(was.jobs, now.jobs)
    && AttemptsEvolve(was.attempts, now.attempts)
    && WorkersEvolve(was.workers, now.workers)
    && ReceiptsKept(was.requests, now.requests)
    && was.artifacts <= now.artifacts
    && was.events <= now.events
  }

  lemma EvolvesTransitive(a: Db, b: Db, c: Db)
    requires Evolves(a, b) && Evolves(b, c)
    ensures Evolves(a, c)
  {
    forall j | j in a.jobs ensures j in c.jobs && JobEvolves(a.jobs[j], c.jobs[j]) {
      assert JobEvolves(a.jobs[j], b.jobs[j]) && JobEvolves(b.jobs[j], c.jobs[j]);
    }
    forall t | t in a.attempts ensures t in c.attempts && AttemptEvolves(a.attempts[t], c.attempts[t]) {
      assert AttemptEvolves(a.attempts[t], b.attempts[t]) && AttemptEvolves(b.attempts[t], c.attempts[t]);
    }
    forall w | w in a.workers ensures w in c.workers && WorkerEvolves(a.workers[w], c.workers[w]) {
      assert WorkerEvolves(a.workers[w], b.workers[w]) && WorkerEvolves(b.workers[w], c.workers[w]);
    }
    assert a.artifacts <= b.artifacts <= c.artifacts;
    assert a.events <= b.events <= c.events;
  }

  lemma LawfulJobs(db: Db, c: Command, m: Move)
    requires Sound(db) && Lawful(db, c, m)
    ensures JobsEvolve(db.jobs, Patch(db, m).jobs)
  {
    if m.Rewrite? { LiveIsTop(db, m.a); }
  }

  lemma LawfulAttempts(db: Db, c: Command, m: Move)
    requires Sound(db) && Lawful(db, c, m)
    ensures AttemptsEvolve(db.attempts, Patch(db, m).attempts)
  {
  }
}
