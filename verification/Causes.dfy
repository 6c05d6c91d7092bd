/** Who may change a row: for every command, what can have happened to one attempt or one job. */
module Causes {
  import opened Model
  import opened Transactions
  import opened Invariant
  import opened Moves
  import opened Evolution
  import opened Steps
  import opened Runs

  /** The row of attempt `a` is as it was, or `c` had the standing to change it as it did. */
  ghost predicate Accounted(db: Db, c: Command, after: Db, a: AttemptId)
    requires a in db.attempts
  {
    var was := db.attempts[a];
    && a in after.attempts && was.worker in db.workers
    && (after.attempts[a] == was || Caused(c, db.workers[was.worker].session, a, was, after.attempts[a]))
  }

  lemma MovedAccounts(db: Db, c: Command, after: Db, m: Option<Move>, a: AttemptId)
    requires Inv(db) && Moved(db, c, after, m) && a in db.attempts
    ensures Accounted(db, c, after, a)
  {
    assert AttemptOk(db.jobs, db.attempts, db.workers, a);
    var w := db.attempts[a].worker;
    assert WorkerEvolves(db.workers[w], after.workers[w]);
  }

  /** A reaper ends an attempt at most once. */
  lemma AccountedOnce(db: Db, c: Command, mid: Db, after: Db, a: AttemptId)
    requires c.Reap? && a in db.attempts && WorkersEvolve(db.workers, mid.workers)
    requires Accounted(db, c, mid, a) && Accounted(mid, c, after, a)
    ensures Accounted(db, c, after, a)
  {
    var w := db.attempts[a].worker;
    assert WorkerEvolves(db.workers[w], mid.workers[w]);
  }

  lemma {:induction false} ReapAccounts(db: Db, c: Command, scan: seq<Slot>, a: AttemptId)
    requires Inv(db) && c.Reap? && (forall s :: s in scan ==> s in c.scan) && a in db.attempts
    ensures Accounted(db, c, ReapAll(db, scan), a)
    decreases |scan|
  {
    assert AttemptOk(db.jobs, db.attempts, db.workers, a);
    if scan != [] {
      var m := ExpireMove(db, c, scan[0]);
      var next := ExpireJob(db, scan[0]);
      MovedKeeps(db, c, next, m);
      MovedAccounts(db, c, next, m, a);
      ReapAccounts(next, c, scan[1..], a);
      AccountedOnce(db, c, next, ReapAll(next, scan[1..]), a);
    }
  }

  lemma {:induction false} SubmitLeavesAttempts(db: Db, batch: seq<Entry>, out: seq<JobId>)
    ensures SubmitAll(db, batch, out).Done? ==>
              var after := SubmitAll(db, batch, out).db;
              after.attempts == db.attempts && after.workers == db.workers
              && after.requests == db.requests && after.artifacts == db.artifacts
    decreases |batch|
  {
    if batch != [] && SubmitAll(db, batch, out).Done? {
      var next := InsertJob(db, batch[0]);
      SubmitLeavesAttempts(next, batch[1..], out + [KeyOwner(next.jobs, batch[0].definition.idempotencyKey)]);
    }
  }

  /** Only the holder of its lease, a reaper past its expiry or a cancellation of its job can
      touch an attempt, and only while it is live. */
  lemma StepAccounts(db: Db, c: Command, a: AttemptId)
    requires Inv(db) && Legal(db, c) && a in db.attempts
    ensures Accounted(db, c, Apply(db, c).0, a)
  {
    assert AttemptOk(db.jobs, db.attempts, db.workers, a);
    match c
    case Submit(batch) => SubmitLeavesAttempts(db, batch, []);
    case Rpc(call, r, met) =>
      var m := CallMove(db, call, r, met);
      var body := CallBody(db, call, r, met);
      if body.Done? { MovedAccounts(db, c, body.db, m, a); }
    case Act(action, j, id, at) =>
      var m := ActionMove(db, action, j, id, at);
      var body := ActionBody(db, action, j, id, at);
      if body.Done? { MovedAccounts(db, c, body.db, m, a); }
    case Reap(scan) => ReapAccounts(db, c, scan, a);
  }

  /** An attempt that was not there before has just been leased. */
  predicate OnlyLeased(db: Db, after: Db) {
    forall a :: a in after.attempts && a !in db.attempts ==> after.attempts[a].state == LEASED
  }

  lemma MovedOnlyLeases(db: Db, c: Command, after: Db, m: Option<Move>)
    requires Moved(db, c, after, m)
    ensures OnlyLeased(db, after)
  {
  }

  lemma {:induction false} ReapAddsNone(db: Db, scan: seq<Slot>)
    ensures ReapAll(db, scan).attempts.Keys <= db.attempts.Keys
    decreases |scan|
  {
    if scan != [] {
      ReapAddsNone(ExpireJob(db, scan[0]), scan[1..]);
    }
  }

  lemma StepOnlyLeases(db: Db, c: Command)
    requires Inv(db) && Legal(db, c)
    ensures OnlyLeased(db, Apply(db, c).0)
  {
    match c
    case Submit(batch) => SubmitLeavesAttempts(db, batch, []);
    case Rpc(call, r, met) =>
      var m := CallMove(db, call, r, met);
      var body := CallBody(db, call, r, met);
      if body.Done? { MovedOnlyLeases(db, c, body.db, m); }
    case Act(action, j, id, at) =>
      var m := ActionMove(db, action, j, id, at);
      var body := ActionBody(db, action, j, id, at);
      if body.Done? { MovedOnlyLeases(db, c, body.db, m); }
    case Reap(scan) => ReapAddsNone(db, scan);
  }
}
