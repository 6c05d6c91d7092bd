/** What a transaction has read stays true until it ends, because of the locks it holds. */
module Knowledge {
  import opened Model
  import opened ObjectKeys
  import opened Transactions
  import opened Evolution
  import opened Interleaving

  function JobAttempts(attempts: map<AttemptId, Attempt>, j: JobId): map<AttemptId, Attempt> {
    map a | a in attempts && attempts[a].job == j :: attempts[a]
  }

  /** The rows changed only where `held` allows. */
  ghost predicate Elsewhere(db: Db, after: Db, held: set<Lock>) {
    && (forall w :: WorkerLock(w) !in held ==> SameRow(db, after, w))
    && (forall j :: JobLock(j) !in held ==> SameJob(db, after, j))
    && (forall k :: RequestLock(k) !in held ==> SameRequest(db, after, k))
    && (forall a :: a in after.attempts && a !in db.attempts ==> AttemptLock(a) in held)
    && db.artifacts <= after.artifacts
    && after.leaseMs == db.leaseMs
  }

  /** And no other worker's reservations have grown. */
  ghost predicate Untouched(db: Db, after: Db, held: set<Lock>) {
    && Elsewhere(db, after, held)
    && forall w :: WorkerLock(w) !in held ==> Usage(after, w).AtMost(Usage(db, w))
  }

  ghost predicate SameRow(db: Db, after: Db, w: WorkerId) {
    && (w in db.workers <==> w in after.workers)
    && (w in db.workers ==> after.workers[w] == db.workers[w])
  }

  /** The row of a known job is as it was, and so are its attempts. */
  ghost predicate SameJob(db: Db, after: Db, j: JobId) {
    j in db.jobs ==>
      && j in after.jobs && after.jobs[j] == db.jobs[j]
      && JobAttempts(after.attempts, j) == JobAttempts(db.attempts, j)
  }

  ghost predicate SameRequest(db: Db, after: Db, k: Key) {
    k in db.requests <==> k in after.requests
  }

  // ------------------------------------------------------------------ what each phase knows

  predicate OnAttemptCall(call: Method) {
    call in {Heartbeat, StartAttempt, ReportProgress, CompleteAttempt, FailAttempt}
  }

  /** The worker's row was read under its lock. */
  ghost predicate KnowsWorker(db: Db, now: int, tx: Tx) {
    var i, p := tx.intent, tx.phase;
    && i.Calling? && HasWorker(p) && i.call != RegisterWorker
    && i.request.worker in db.workers && db.workers[i.request.worker] == p.row
    && tx.begun <= p.touchedAt <= now
    && (!p.AtWorker? ==> p.row.session == i.request.session)
  }

  /** The worker may lease, and what it had reserved has not grown since it was counted. */
  ghost predicate KnowsLoad(db: Db, tx: Tx) {
    var i, p := tx.intent, tx.phase;
    && i.Calling? && (p.Counted? || p.Picked? || p.Placed?)
    && i.call == LeaseJob && p.row.state == ACTIVE
    && Usage(db, i.request.worker).AtMost(p.seen)
  }

  /** The job picked is still queued, still fits, and still comes first in the pool it was picked from. */
  ghost predicate KnowsPick(db: Db, tx: Tx) {
    var p := tx.phase;
    && (p.Picked? || p.Placed?)
    && IsFirst(db.jobs, p.pool, p.j) && db.jobs[p.j] == p.job && p.job.state == QUEUED
    && p.job.definition.resources.AtMost(p.row.capacity.Minus(p.seen))
  }

  ghost function PlacedRow(db: Db, tx: Tx): Attempt
    requires tx.intent.Calling? && tx.phase.Placed?
  {
    var p := tx.phase;
    var timeout := Timeout(p.job);
    Attempt(p.j, Top(db.attempts, p.j) + 1, tx.intent.request.worker, LEASED, p.attempt.token,
            p.placedAt + Min(db.leaseMs, timeout), p.placedAt + timeout, None, None, None, "")
  }

  ghost predicate KnowsPlace(db: Db, now: int, tx: Tx) {
    var p := tx.phase;
    && tx.intent.Calling? && p.Placed?
    && p.a !in db.attempts && p.attempt == PlacedRow(db, tx)
    && p.touchedAt <= p.placedAt <= now
  }

  /** The job of the named attempt was read under its lock. */
  ghost predicate KnowsJob(db: Db, tx: Tx) {
    var i, p := tx.intent, tx.phase;
    && i.Calling? && (p.AtJob? || p.AtAttempt? || p.Checked?)
    && OnAttemptCall(i.call) && !(i.call == Heartbeat && i.request.attempt == "")
    && UuidText(i.request.attempt) && UuidText(i.request.token)
    && p.a == NamedAttempt(i.request.attempt)
    && p.a in db.attempts && db.attempts[p.a].job == p.j
    && p.j in db.jobs && db.jobs[p.j] == p.job
  }

  ghost predicate KnowsAttempt(db: Db, now: int, tx: Tx) {
    var i, p := tx.intent, tx.phase;
    && i.Calling? && (p.AtAttempt? || p.Checked?)
    && p.a in db.attempts && db.attempts[p.a] == p.attempt
    && p.touchedAt <= p.fencedAt <= now
    && Holds(p.attempt, p.job, i.request, Met(p.touchedAt, p.fencedAt, now))
  }

  /** The artifacts were checked against a prefix of the table. */
  ghost predicate KnowsRows(db: Db, tx: Tx) {
    var i, p := tx.intent, tx.phase;
    && i.Calling? && p.Checked?
    && i.call in {ReportProgress, CompleteAttempt, FailAttempt}
    && p.attempt.state == RUNNING && !TooLarge(i.request)
    && p.base <= |db.artifacts|
    && AddArtifacts(db.artifacts[..p.base], p.j, p.a, PrefixOf(i, p), i.request.artifacts)
       == Rows(db.artifacts[..p.base] + p.added)
  }

  ghost predicate KnowsHit(db: Db, begun: int, now: int, h: Hit) {
    && begun <= h.slot.at <= now
    && match h.expired
       case Some(a) => h.slot.id in db.jobs && ExpiredLive(db.attempts, h.slot.id, h.slot.at, a)
       case None => h.slot.id in db.jobs && !Reapable(db.attempts, h.slot.id, h.slot.at)
  }

  ghost predicate KnowsScan(db: Db, now: int, tx: Tx) {
    match tx.phase
    case Scanned(todo, locked) =>
      Distinct(locked + todo) && forall j :: j in locked + todo ==> j in db.jobs
    case Rechecking(locked, hits) =>
      && Distinct(locked) && (forall j :: j in locked ==> j in db.jobs)
      && |hits| <= |locked|
      && forall k :: 0 <= k < |hits| ==> hits[k].slot.id == locked[k] && KnowsHit(db, tx.begun, now, hits[k])
    case _ => false
  }

  ghost predicate Knows(db: Db, now: int, tx: Tx) {
    var i, p := tx.intent, tx.phase;
    && Fits(i, p) && Admissible(i) && tx.begun <= now
    && ((i.Calling? || i.Acting?) && !p.Opening? ==> KeyOfIntent(i) !in db.requests)
    && (HasWorker(p) ==> KnowsWorker(db, now, tx))
    && (p.Counted? || p.Picked? || p.Placed? ==> KnowsLoad(db, tx))
    && (p.Picked? || p.Placed? ==> KnowsPick(db, tx))
    && (p.Placed? ==> KnowsPlace(db, now, tx))
    && (p.AtJob? || p.AtAttempt? || p.Checked? ==> KnowsJob(db, tx))
    && (p.AtAttempt? || p.Checked? ==> KnowsAttempt(db, now, tx))
    && (p.Checked? ==> KnowsRows(db, tx))
    && (p.Scanned? || p.Rechecking? ==> KnowsScan(db, now, tx))
    && (p.ActingOn? ==> i.job in db.jobs && db.jobs[i.job] == p.job)
    && (p.Registering? ==>
          && i.call == RegisterWorker && !BadCapacity(i.request) && tx.begun <= p.touchedAt <= now
          && p.existing == if i.request.worker in db.workers then Some(db.workers[i.request.worker]) else None)
  }

  // ------------------------------------------------------------------ and keeps knowing

  lemma SameTop(db: Db, after: Db, j: JobId)
    requires JobAttempts(after.attempts, j) == JobAttempts(db.attempts, j)
    ensures Top(after.attempts, j) == Top(db.attempts, j)
  {
    forall a ensures a in Numbers(after.attempts, j) <==> a in Numbers(db.attempts, j)
             ensures a in Numbers(after.attempts, j) ==> Numbers(after.attempts, j)[a] == Numbers(db.attempts, j)[a] {
      assert a in JobAttempts(after.attempts, j) <==> a in JobAttempts(db.attempts, j);
    }
    assert Numbers(after.attempts, j) == Numbers(db.attempts, j);
  }

  lemma SameReapable(db: Db, after: Db, j: JobId, at: int)
    requires JobAttempts(after.attempts, j) == JobAttempts(db.attempts, j)
    ensures forall a :: ExpiredLive(after.attempts, j, at, a) <==> ExpiredLive(db.attempts, j, at, a)
    ensures Reapable(after.attempts, j, at) <==> Reapable(db.attempts, j, at)
  {
    forall a ensures ExpiredLive(after.attempts, j, at, a) <==> ExpiredLive(db.attempts, j, at, a) {
      assert a in JobAttempts(after.attempts, j) <==> a in JobAttempts(db.attempts, j);
    }
  }

  lemma KeepsLoad(db: Db, after: Db, tx: Tx, held: set<Lock>)
    requires Untouched(db, after, held) && Held(tx) !! held && Fits(tx.intent, tx.phase)
    requires KnowsLoad(db, tx)
    ensures KnowsLoad(after, tx)
  {
    assert WorkerLock(tx.intent.request.worker) in Held(tx);
    assert SameRow(db, after, tx.intent.request.worker);
  }

  lemma KeepsPick(db: Db, after: Db, tx: Tx, held: set<Lock>)
    requires Untouched(db, after, held) && Held(tx) !! held && Fits(tx.intent, tx.phase)
    requires KnowsPick(db, tx) && JobsEvolve(db.jobs, after.jobs)
    ensures KnowsPick(after, tx)
  {
    var p := tx.phase;
    assert JobLock(p.j) in Held(tx);
    assert SameJob(db, after, p.j);
    forall k | k in p.pool && k != p.j ensures k in after.jobs && Before(after.jobs, p.j, k) {
      assert JobEvolves(db.jobs[k], after.jobs[k]);
    }
  }

  lemma KeepsPlace(db: Db, after: Db, now: int, tx: Tx, held: set<Lock>)
    requires Untouched(db, after, held) && Held(tx) !! held && Fits(tx.intent, tx.phase)
    requires KnowsPlace(db, now, tx) && tx.phase.j in db.jobs
    ensures KnowsPlace(after, now, tx)
  {
    var p := tx.phase;
    assert JobLock(p.j) in Held(tx) && AttemptLock(p.a) in Held(tx);
    assert SameJob(db, after, p.j);
    SameTop(db, after, p.j);
  }

  lemma KeepsJob(db: Db, after: Db, tx: Tx, held: set<Lock>)
    requires Untouched(db, after, held) && Held(tx) !! held && Fits(tx.intent, tx.phase)
    requires KnowsJob(db, tx)
    ensures KnowsJob(after, tx)
    ensures after.attempts[tx.phase.a] == db.attempts[tx.phase.a]
  {
    var p := tx.phase;
    assert JobLock(p.j) in Held(tx);
    assert SameJob(db, after, p.j);
    assert p.a in JobAttempts(db.attempts, p.j);
    assert p.a in JobAttempts(after.attempts, p.j);
  }

  lemma KeepsRows(db: Db, after: Db, tx: Tx, held: set<Lock>)
    requires Untouched(db, after, held) && KnowsRows(db, tx)
    ensures KnowsRows(after, tx)
  {
    assert after.artifacts[..tx.phase.base] == db.artifacts[..tx.phase.base];
  }

  lemma KeepsHit(db: Db, after: Db, begun: int, now: int, h: Hit, held: set<Lock>)
    requires Untouched(db, after, held) && JobLock(h.slot.id) !in held && KnowsHit(db, begun, now, h)
    ensures KnowsHit(after, begun, now, h)
  {
    assert SameJob(db, after, h.slot.id);
    SameReapable(db, after, h.slot.id, h.slot.at);
  }

  lemma KeepsScan(db: Db, after: Db, now: int, tx: Tx, held: set<Lock>)
    requires Untouched(db, after, held) && Held(tx) !! held && Fits(tx.intent, tx.phase)
    requires KnowsScan(db, now, tx) && JobsEvolve(db.jobs, after.jobs)
    ensures KnowsScan(after, now, tx)
  {
    if tx.phase.Rechecking? {
      forall k | 0 <= k < |tx.phase.hits| ensures KnowsHit(after, tx.begun, now, tx.phase.hits[k]) {
        assert tx.phase.hits[k].slot.id == tx.phase.locked[k];
        assert JobLock(tx.phase.locked[k]) in Held(tx);
        KeepsHit(db, after, tx.begun, now, tx.phase.hits[k], held);
      }
    }
  }

  lemma KeepsClaims(db: Db, after: Db, now: int, tx: Tx, held: set<Lock>)
    requires Untouched(db, after, held) && Held(tx) !! held && Knows(db, now, tx)
    ensures (tx.intent.Calling? || tx.intent.Acting?) && !tx.phase.Opening? ==> KeyOfIntent(tx.intent) !in after.requests
    ensures HasWorker(tx.phase) ==> KnowsWorker(after, now, tx)
    ensures tx.phase.Registering? ==>
              tx.phase.existing == if tx.intent.request.worker in after.workers
                                   then Some(after.workers[tx.intent.request.worker]) else None
    ensures tx.phase.ActingOn? ==> tx.intent.job in after.jobs && after.jobs[tx.intent.job] == tx.phase.job
  {
    var i, p := tx.intent, tx.phase;
    if (i.Calling? || i.Acting?) && !p.Opening? {
      assert RequestLock(KeyOfIntent(i)) in Held(tx);
      assert SameRequest(db, after, KeyOfIntent(i));
    }
    if HasWorker(p) || p.Registering? {
      assert WorkerLock(i.request.worker) in Held(tx);
      assert SameRow(db, after, i.request.worker);
    }
    if p.ActingOn? {
      assert JobLock(i.job) in Held(tx);
      assert SameJob(db, after, i.job);
    }
  }

  /** Another transaction's commit does not disturb what this one has read. */
  lemma KnowsStable(db: Db, after: Db, now: int, tx: Tx, held: set<Lock>)
    requires Untouched(db, after, held) && Held(tx) !! held && Knows(db, now, tx)
    requires JobsEvolve(db.jobs, after.jobs)
    ensures Knows(after, now, tx)
  {
    var p := tx.phase;
    KeepsClaims(db, after, now, tx, held);
    if p.Counted? || p.Picked? || p.Placed? { KeepsLoad(db, after, tx, held); }
    if p.Picked? || p.Placed? { KeepsPick(db, after, tx, held); }
    if p.Placed? { KeepsPlace(db, after, now, tx, held); }
    if p.AtJob? || p.AtAttempt? || p.Checked? { KeepsJob(db, after, tx, held); }
    if p.Checked? { KeepsRows(db, after, tx, held); }
    if p.Scanned? || p.Rechecking? { KeepsScan(db, after, now, tx, held); }
  }

  /** Time passing disturbs nothing. */
  lemma KnowsLater(db: Db, now: int, later: int, tx: Tx)
    requires Knows(db, now, tx) && now <= later
    ensures Knows(db, later, tx)
  {
    if tx.phase.Rechecking? {
      forall k | 0 <= k < |tx.phase.hits| ensures KnowsHit(db, tx.begun, later, tx.phase.hits[k]) {
        assert KnowsHit(db, tx.begun, now, tx.phase.hits[k]);
      }
    }
  }
}
