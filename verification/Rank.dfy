/** Every state change of a job uses up a rank that only a manual retry replenishes. */
module Rank {
  import opened Model
  import opened Transactions
  import opened Invariant
  import opened Moves
  import opened Evolution
  import opened Steps
  import opened Runs

  /** How many state changes a job with n attempts has left. */
  function Left(job: Job, n: int): int {
    match job.state
    case QUEUED => 3 * (job.maxAttempts - n)
    case LEASED => 3 * (job.maxAttempts - n) + 2
    case RUNNING => 3 * (job.maxAttempts - n) + 1
    case _ => 0
  }

  ghost function RankOf(db: Db, j: JobId): int
    requires j in db.jobs
  {
    Left(db.jobs[j], Top(db.attempts, j))
  }

  predicate RetryOf(c: Command, j: JobId) {
    c.Act? && c.action == Retry && c.job == j
  }

  /** The rank does not grow, and falls if the state of the job changed. */
  ghost predicate Spends(db: Db, after: Db, j: JobId)
    requires j in db.jobs
  {
    && j in after.jobs
    && RankOf(after, j) <= RankOf(db, j)
    && (after.jobs[j].state != db.jobs[j].state ==> RankOf(after, j) < RankOf(db, j))
  }

  lemma RankBounds(db: Db, j: JobId)
    requires Sound(db) && j in db.jobs
    ensures 0 <= RankOf(db, j) <= 3 * db.jobs[j].maxAttempts
    ensures RankOf(db, j) == 0 <==> db.jobs[j].state in {SUCCEEDED, FAILED, CANCELLED}
  {
    assert JobOk(db.jobs, db.attempts, j);
    TopNotNegative(db, j);
  }

  lemma TopAfterMove(db: Db, c: Command, m: Move, j: JobId)
    requires Sound(db) && Lawful(db, c, m)
    ensures Top(Patch(db, m).attempts, j) ==
            if m.Grant? && m.row.job == j then Top(db.attempts, j) + 1 else Top(db.attempts, j)
  {
    match m
    case Rewrite(a, row, job) => NumbersKept(db.attempts, a, row, j);
    case Grant(a, row, job) =>
      TopNotNegative(db, row.job);
      TopAfterGrant(db.attempts, a, row, j);
    case SetJob(_, _) =>
    case AddJob(_, _) =>
  }

  lemma RewriteSpends(db: Db, c: Command, m: Move)
    requires Sound(db) && Lawful(db, c, m) && m.Rewrite?
    ensures Spends(db, Patch(db, m), m.row.job)
  {
    TopAfterMove(db, c, m, m.row.job);
    LiveIsTop(db, m.a);
    RankBounds(db, m.row.job);
  }

  lemma LawfulSpends(db: Db, c: Command, m: Move, j: JobId)
    requires Sound(db) && Lawful(db, c, m) && j in db.jobs && !RetryOf(c, j)
    ensures Spends(db, Patch(db, m), j)
  {
    TopAfterMove(db, c, m, j);
    RankBounds(db, j);
    if m.Rewrite? && m.row.job == j { RewriteSpends(db, c, m); }
  }

  lemma MovedSpends(db: Db, c: Command, after: Db, m: Option<Move>, j: JobId)
    requires Sound(db) && Moved(db, c, after, m) && j in db.jobs && !RetryOf(c, j)
    ensures Spends(db, after, j)
  {
    if m.Some? {
      WorkersSound(db, after.workers);
      LawfulSpends(db.(workers := after.workers), c, m.value, j);
    }
  }

  lemma {:induction false} ReapSpends(db: Db, c: Command, scan: seq<Slot>, j: JobId)
    requires Inv(db) && c.Reap? && (forall s :: s in scan ==> s in c.scan) && j in db.jobs
    ensures Spends(db, ReapAll(db, scan), j)
    decreases |scan|
  {
    if scan != [] {
      var m := ExpireMove(db, c, scan[0]);
      var next := ExpireJob(db, scan[0]);
      MovedKeeps(db, c, next, m);
      MovedSpends(db, c, next, m, j);
      ReapSpends(next, c, scan[1..], j);
    }
  }

  lemma {:induction false} SubmitSpends(db: Db, batch: seq<Entry>, out: seq<JobId>, j: JobId)
    requires FreshEntries(db, batch) && j in db.jobs
    ensures SubmitAll(db, batch, out).Done? ==> Spends(db, SubmitAll(db, batch, out).db, j)
    decreases |batch|
  {
    if batch != [] && SubmitAll(db, batch, out).Done? {
      var next := InsertJob(db, batch[0]);
      InsertTakesKey(db, batch[0]);
      SubmitSpends(next, batch[1..], out + [KeyOwner(next.jobs, batch[0].definition.idempotencyKey)], j);
    }
  }

  lemma StepSpends(db: Db, c: Command, j: JobId)
    requires Inv(db) && Legal(db, c) && j in db.jobs && !RetryOf(c, j)
    ensures Spends(db, Apply(db, c).0, j)
  {
    match c
    case Submit(batch) =>
      if !BatchInvalid(batch) {
        assert FreshEntries(db, batch);
        SubmitSpends(db, batch, [], j);
      }
    case Rpc(call, r, met) =>
      var m := CallMove(db, call, r, met);
      var body := CallBody(db, call, r, met);
      if body.Done? { MovedSpends(db, c, body.db, m, j); }
    case Act(action, i, id, at) =>
      var m := ActionMove(db, action, i, id, at);
      var body := ActionBody(db, action, i, id, at);
      if body.Done? { MovedSpends(db, c, body.db, m, j); }
    case Reap(scan) => ReapSpends(db, c, scan, j);
  }

  /** How often the committed state of job j differs from one command to the next. */
  ghost function Changes(db: Db, run: seq<Command>, j: JobId): nat
    requires Inv(db) && LegalRun(db, run) && j in db.jobs
    decreases |run|
  {
    if run == [] then 0
    else
      var next := Apply(db, run[0]).0;
      StepKeeps(db, run[0]);
      assert JobEvolves(db.jobs[j], next.jobs[j]);
      (if next.jobs[j].state != db.jobs[j].state then 1 else 0) + Changes(next, run[1..], j)
  }

  function Retries(run: seq<Command>, j: JobId): nat {
    if run == [] then 0 else (if RetryOf(run[0], j) then 1 else 0) + Retries(run[1..], j)
  }

  lemma RetryGains(db: Db, c: Command, j: JobId)
    requires Inv(db) && Legal(db, c) && j in db.jobs && RetryOf(c, j)
    ensures j in Apply(db, c).0.jobs && RankOf(Apply(db, c).0, j) <= RankOf(db, j) + 3
  {
    assert JobOk(db.jobs, db.attempts, j);
  }

  lemma {:induction false} ChangesWithinRank(db: Db, run: seq<Command>, j: JobId)
    requires Inv(db) && LegalRun(db, run) && j in db.jobs
    ensures Changes(db, run, j) <= RankOf(db, j) + 4 * Retries(run, j)
    decreases |run|
  {
    RankBounds(db, j);
    if run != [] {
      StepKeeps(db, run[0]);
      if RetryOf(run[0], j) { RetryGains(db, run[0], j); } else { StepSpends(db, run[0], j); }
      ChangesWithinRank(Apply(db, run[0]).0, run[1..], j);
    }
  }

  /** In any stretch of a run a job changes state at most three times per attempt it may make,
      and at most four times more for every manual retry. */
  lemma FewChanges(db: Db, run: seq<Command>, j: JobId)
    requires Inv(db) && LegalRun(db, run) && j in db.jobs
    ensures Changes(db, run, j) <= 3 * db.jobs[j].maxAttempts + 4 * Retries(run, j)
  {
    ChangesWithinRank(db, run, j);
    RankBounds(db, j);
  }
}
