/** Every interleaving of statements amounts to the atomic commands in the order of their commits. */
module Refinement {
  import opened Model
  import opened ObjectKeys
  import opened Transactions
  import opened Invariant
  import opened Steps
  import opened Runs
  import opened Loads
  import opened Causes
  import opened ArtifactRows
  import opened Interleaving
  import opened Knowledge

  /** All clock readings of a command lie between its beginning and its commit. */
  predicate Timely(c: Command, begun: int, now: int) {
    match c
    case Rpc(_, _, met) => begun <= met.touchedAt && met.t3 <= now
    case Act(_, _, _, at) => begun <= at <= now
    case Reap(scan) => forall s :: s in scan ==> begun <= s.at <= now
    case Submit(batch) => forall k :: 0 <= k < |batch| ==> begun <= batch[k].at <= now
  }

  /** No lease reaches further than one lease time from now. */
  ghost predicate LeaseBound(db: Db, now: int) {
    forall a :: a in db.attempts ==> db.attempts[a].leaseExpiresAt <= now + db.leaseMs
  }

  /** The one ending that is no atomic command: losing the race for an object key. */
  predicate Raced(db: Db, tx: Tx, after: Db, result: Result) {
    tx.phase.Checked? && KeyRace(db, tx.phase.added) && after == db && result == Err(Internal)
  }

  ghost predicate EndsWell(db: Db, now: int, tx: Tx, after: Db, result: Result, c: Command) {
    && Untouched(db, after, Held(tx)) && LeaseBound(after, now)
    && (Raced(db, tx, after, result)
        || (Legal(db, c) && Timely(c, tx.begun, now) && Apply(db, c) == (after, result)))
  }

  ghost predicate GoesWell(db: Db, now: int, busy: set<Lock>, tx: Tx, p: Phase) {
    Knows(db, now, tx.(phase := p)) && Held(tx.(phase := p)) !! busy
  }

  ghost predicate Sane(db: Db, now: int, busy: set<Lock>, tx: Tx, turn: Turn) {
    match turn
    case Waits(lock) => true
    case Undrawn => true
    case Goes(p) => GoesWell(db, now, busy, tx, p)
    case Ends(after, result, c) => EndsWell(db, now, tx, after, result, c)
  }

  /** What holds before every statement of a transaction. */
  ghost predicate Ready(db: Db, now: int, busy: set<Lock>, tx: Tx) {
    Inv(db) && LeaseBound(db, now) && Knows(db, now, tx) && Held(tx) !! busy
  }

  // ------------------------------------------------------------------ what a commit leaves alone

  lemma UsageElsewhere(db: Db, after: Db, held: set<Lock>, c: Command)
    requires Inv(db) && Legal(db, c) && after == Apply(db, c).0 && Elsewhere(db, after, held)
    requires c.Rpc? && c.call == LeaseJob ==> WorkerLock(c.request.worker) in held
    ensures Untouched(db, after, held)
  {
    forall w | WorkerLock(w) !in held ensures Usage(after, w).AtMost(Usage(db, w)) {
      StepLoad(db, c, w);
    }
  }

  lemma SameUntouched(db: Db, held: set<Lock>)
    ensures Untouched(db, db, held)
  {
  }

  /** Only the attempts of job j, among them `a`, were written. */
  lemma OneJobElsewhere(db: Db, after: Db, held: set<Lock>, j: JobId, a: AttemptId, row: Attempt)
    requires JobLock(j) in held && row.job == j
    requires after.attempts == db.attempts || after.attempts == db.attempts[a := row]
    requires a in db.attempts ==> db.attempts[a].job == j
    requires forall k :: k in db.jobs && k != j ==> k in after.jobs && after.jobs[k] == db.jobs[k]
    ensures forall k :: JobLock(k) !in held ==> SameJob(db, after, k)
  {
    forall k | JobLock(k) !in held ensures SameJob(db, after, k) {
      assert JobAttempts(after.attempts, k) == JobAttempts(db.attempts, k);
    }
  }

  /** A fresh request executes its body and leaves a receipt. */
  lemma FreshCall(db: Db, i: Intent, met: Circumstances)
    requires i.Calling? && Admissible(i) && KeyOfIntent(i) !in db.requests
    ensures var body := CallBody(db, i.call, i.request, met);
            Apply(db, Rpc(i.call, i.request, met)) ==
            if body.Refused? then (db, Err(body.error))
            else (body.db.(requests := body.db.requests[KeyOfIntent(i) := Receipt(RpcPayload(i.request), Some(body.response))]),
                  Ok(body.response))
  {
  }

  /** A refusal is an atomic refusal. */
  lemma RefusesWell(db: Db, now: int, tx: Tx, c: Command, e: Error)
    requires LeaseBound(db, now) && Legal(db, c) && Timely(c, tx.begun, now) && Apply(db, c) == (db, Err(e))
    ensures EndsWell(db, now, tx, db, Err(e), c)
  {
    SameUntouched(db, Held(tx));
  }

  lemma SimpleLegal(db: Db, begun: int, now: int, i: Intent, touchedAt: int, before: int, d: Draw)
    requires i.Calling? && LeaseBound(db, now) && d.a !in db.attempts
    requires begun <= touchedAt <= before <= now
    ensures Legal(db, Simple(db, i, touchedAt, before, now, d))
    ensures Timely(Simple(db, i, touchedAt, before, now, d), begun, now)
  {
  }

  lemma PublishApplies(db: Db, i: Intent, next: Db, response: Response, c: Command)
    requires i.Calling? && Admissible(i) && KeyOfIntent(i) !in db.requests
    requires c.Rpc? && c == Rpc(i.call, i.request, c.met)
    requires CallBody(db, c.call, c.request, c.met) == Done(next, response)
    ensures Apply(db, c) == (Publish(next, i, response, c).db, Ok(response))
  {
    FreshCall(db, i, c.met);
  }

  /** What publishing leaves alone, and that it is the call. */
  ghost predicate Published(db: Db, now: int, held: set<Lock>, after: Db, response: Response, c: Command) {
    Untouched(db, after, held) && LeaseBound(after, now) && Apply(db, c) == (after, Ok(response))
  }

  lemma PublishEnds(db: Db, now: int, held: set<Lock>, i: Intent, next: Db, response: Response, c: Command)
    requires Inv(db) && i.Calling? && Admissible(i) && KeyOfIntent(i) !in db.requests && RequestLock(KeyOfIntent(i)) in held
    requires c.Rpc? && c == Rpc(i.call, i.request, c.met) && Legal(db, c)
    requires CallBody(db, c.call, c.request, c.met) == Done(next, response)
    requires next.requests == db.requests && Elsewhere(db, next, held) && LeaseBound(next, now)
    requires c.call == LeaseJob ==> WorkerLock(c.request.worker) in held
    ensures Published(db, now, held, Publish(next, i, response, c).db, response, c)
  {
    PublishApplies(db, i, next, response, c);
    var after := Publish(next, i, response, c).db;
    ReceiptElsewhere(db, next, after, held, KeyOfIntent(i));
    UsageElsewhere(db, after, held, c);
  }

  lemma PublishedEndsWell(db: Db, now: int, tx: Tx, after: Db, response: Response, c: Command)
    requires Legal(db, c) && Timely(c, tx.begun, now) && Published(db, now, Held(tx), after, response, c)
    ensures EndsWell(db, now, tx, after, Ok(response), c)
  {
  }

  lemma KnowsOwnKey(db: Db, now: int, tx: Tx)
    requires Knows(db, now, tx) && tx.intent.Calling? && !tx.phase.Opening?
    ensures Admissible(tx.intent) && KeyOfIntent(tx.intent) !in db.requests && RequestLock(KeyOfIntent(tx.intent)) in Held(tx)
  {
  }

  /** Publishing what the body of a fresh call computes is executing that call. */
  lemma PublishWell(db: Db, now: int, busy: set<Lock>, tx: Tx, next: Db, response: Response, c: Command)
    requires Ready(db, now, busy, tx) && tx.intent.Calling? && !tx.phase.Opening?
    requires c.Rpc? && c == Rpc(tx.intent.call, tx.intent.request, c.met)
    requires Legal(db, c) && Timely(c, tx.begun, now)
    requires CallBody(db, c.call, c.request, c.met) == Done(next, response)
    requires next.requests == db.requests && Elsewhere(db, next, Held(tx)) && LeaseBound(next, now)
    requires c.call == LeaseJob ==> WorkerLock(c.request.worker) in Held(tx)
    ensures Sane(db, now, busy, tx, Publish(next, tx.intent, response, c))
  {
    KnowsOwnKey(db, now, tx);
    PublishEnds(db, now, Held(tx), tx.intent, next, response, c);
    PublishedEndsWell(db, now, tx, Publish(next, tx.intent, response, c).db, response, c);
  }

  lemma ReceiptElsewhere(db: Db, next: Db, after: Db, held: set<Lock>, key: Key)
    requires Elsewhere(db, next, held) && RequestLock(key) in held
    requires after == next.(requests := after.requests) && forall k :: k != key ==> (k in after.requests <==> k in next.requests)
    ensures Elsewhere(db, after, held)
  {
    forall w | WorkerLock(w) !in held ensures SameRow(db, after, w) { assert SameRow(db, next, w); }
    forall j | JobLock(j) !in held ensures SameJob(db, after, j) { assert SameJob(db, next, j); }
    forall k | RequestLock(k) !in held ensures SameRequest(db, after, k) { assert SameRequest(db, next, k); }
  }

  lemma RefuseWell(db: Db, now: int, busy: set<Lock>, tx: Tx, e: Error, c: Command)
    requires Ready(db, now, busy, tx) && tx.intent.Calling? && !tx.phase.Opening?
    requires c.Rpc? && c == Rpc(tx.intent.call, tx.intent.request, c.met)
    requires Legal(db, c) && Timely(c, tx.begun, now)
    requires CallBody(db, c.call, c.request, c.met) == Refused(e)
    ensures Sane(db, now, busy, tx, Refuse(db, e, c))
  {
    FreshCall(db, tx.intent, c.met);
    RefusesWell(db, now, tx, c, e);
  }

  /** Only the row of the transaction's worker was written. */
  lemma WorkerElsewhere(db: Db, w: WorkerId, row: Worker, held: set<Lock>)
    requires WorkerLock(w) in held
    ensures Elsewhere(db, WithWorker(db, w, row), held)
  {
  }

  // ------------------------------------------------------------------ one lemma per statement

  lemma ClaimTurn(db: Db, now: int, busy: set<Lock>, tx: Tx, d: Draw)
    requires Ready(db, now, busy, tx) && FreshDraw(db, busy, d)
    requires tx.phase.Opening? && (tx.intent.Calling? || tx.intent.Acting?)
    ensures Sane(db, now, busy, tx, TurnClaim(db, now, busy, tx.intent, d))
  {
    SameUntouched(db, Held(tx));
    if tx.intent.Calling? { SimpleLegal(db, tx.begun, now, tx.intent, now, now, d); }
  }

  lemma WorkerTurn(db: Db, now: int, busy: set<Lock>, tx: Tx, d: Draw)
    requires Ready(db, now, busy, tx) && FreshDraw(db, busy, d)
    requires tx.phase.Claimed? && tx.intent.Calling?
    ensures Sane(db, now, busy, tx, TurnWorker(db, now, busy, tx.intent, d))
  {
    var turn := TurnWorker(db, now, busy, tx.intent, d);
    if turn.Ends? {
      SimpleLegal(db, tx.begun, now, tx.intent, now, now, d);
      RefuseWell(db, now, busy, tx, turn.result.error, turn.command);
    }
  }

  /** What registration computes from the row it locked is what it would compute now. */
  lemma RegisterBody(db: Db, i: Intent, p: Phase, met: Circumstances)
    requires i.Calling? && i.call == RegisterWorker && !BadCapacity(i.request) && p.Registering?
    requires met.touchedAt == p.touchedAt
    requires p.existing == if i.request.worker in db.workers then Some(db.workers[i.request.worker]) else None
    ensures var row := if p.existing.Some? then p.existing.value
                       else Worker(i.request.session, i.request.hostname, i.request.resources, ACTIVE, p.touchedAt);
            CallBody(db, i.call, i.request, met) ==
            if row.session != i.request.session || row.capacity != i.request.resources then Refused(Conflict)
            else Done(WithWorker(db, i.request.worker, row), Registered)
  {
    if i.request.worker in db.workers {
      assert db.workers[i.request.worker := db.workers[i.request.worker]] == db.workers;
    }
  }

  lemma RegisterTurn(db: Db, now: int, busy: set<Lock>, tx: Tx, d: Draw)
    requires Ready(db, now, busy, tx) && FreshDraw(db, busy, d) && tx.phase.Registering?
    ensures Sane(db, now, busy, tx, TurnRegister(db, now, tx.intent, tx.phase, d))
  {
    var i, p := tx.intent, tx.phase;
    var c := Simple(db, i, p.touchedAt, now, now, d);
    SimpleLegal(db, tx.begun, now, i, p.touchedAt, now, d);
    RegisterBody(db, i, p, c.met);
    var body := CallBody(db, i.call, i.request, c.met);
    if body.Refused? {
      RefuseWell(db, now, busy, tx, body.error, c);
    } else {
      WorkerElsewhere(db, i.request.worker, body.db.workers[i.request.worker], Held(tx));
      PublishWell(db, now, busy, tx, body.db, body.response, c);
    }
  }

  /** With the worker's row as it was read, a call is what its method does to the touched tables. */
  lemma KnownWorker(db: Db, i: Intent, p: Phase, met: Circumstances)
    requires i.Calling? && HasWorker(p) && i.call != RegisterWorker && met.touchedAt == p.touchedAt
    requires i.request.worker in db.workers && db.workers[i.request.worker] == p.row
    ensures CallBody(db, i.call, i.request, met) ==
            if p.row.session != i.request.session then Refused(Conflict)
            else Dispatch(WithWorker(db, i.request.worker, TouchedRow(p)), i.call, i.request, met)
  {
  }

  lemma JobRefused(db: Db, now: int, busy: set<Lock>, i: Intent, p: Phase, d: Draw, met: Circumstances)
    requires i.Calling? && p.AtWorker? && TurnJob(db, now, busy, i, p, d).Ends?
    ensures TurnJob(db, now, busy, i, p, d).result.Err?
    ensures OnAttempt(WithWorker(db, i.request.worker, TouchedRow(p)), i.call, i.request, met)
         == Refused(TurnJob(db, now, busy, i, p, d).result.error)
  {
  }

  lemma JobTurn(db: Db, now: int, busy: set<Lock>, tx: Tx, d: Draw)
    requires Ready(db, now, busy, tx) && FreshDraw(db, busy, d) && tx.phase.AtWorker?
    requires OnAttemptCall(tx.intent.call) && !(tx.intent.call == Heartbeat && tx.intent.request.attempt == "")
    requires tx.phase.row.session == tx.intent.request.session
    ensures Sane(db, now, busy, tx, TurnJob(db, now, busy, tx.intent, tx.phase, d))
  {
    var i, p := tx.intent, tx.phase;
    var turn := TurnJob(db, now, busy, i, p, d);
    if turn.Ends? {
      SimpleLegal(db, tx.begun, now, i, p.touchedAt, now, d);
      KnownWorker(db, i, p, turn.command.met);
      JobRefused(db, now, busy, i, p, d, turn.command.met);
      RefuseWell(db, now, busy, tx, turn.result.error, turn.command);
    }
  }

  lemma MethodEnds(db: Db, now: int, busy: set<Lock>, tx: Tx, d: Draw)
    requires Ready(db, now, busy, tx) && FreshDraw(db, busy, d) && tx.phase.AtWorker? && tx.intent.call != LeaseJob
    requires !OnAttemptCall(tx.intent.call) || (tx.intent.call == Heartbeat && tx.intent.request.attempt == "")
    requires tx.phase.row.session == tx.intent.request.session
    ensures Sane(db, now, busy, tx, TurnMethod(db, now, busy, tx.intent, tx.phase, d))
  {
    var i, p := tx.intent, tx.phase;
    var c := Simple(db, i, p.touchedAt, now, now, d);
    SimpleLegal(db, tx.begun, now, i, p.touchedAt, now, d);
    KnownWorker(db, i, p, c.met);
    var body := CallBody(db, i.call, i.request, c.met);
    if body.Done? {
      MethodBody(db, i, p, c.met);
      WorkerElsewhere(db, i.request.worker, body.db.workers[i.request.worker], Held(tx));
      PublishWell(db, now, busy, tx, body.db, body.response, c);
    } else {
      RefuseWell(db, now, busy, tx, body.error, c);
    }
  }

  lemma MethodTurn(db: Db, now: int, busy: set<Lock>, tx: Tx, d: Draw)
    requires Ready(db, now, busy, tx) && FreshDraw(db, busy, d) && tx.phase.AtWorker?
    ensures Sane(db, now, busy, tx, TurnMethod(db, now, busy, tx.intent, tx.phase, d))
  {
    var i, p := tx.intent, tx.phase;
    if p.row.session != i.request.session || (i.call == LeaseJob && p.row.state != ACTIVE) {
      MethodRefuses(db, now, busy, tx, d);
    } else if i.call != LeaseJob {
      if OnAttemptCall(i.call) && !(i.call == Heartbeat && i.request.attempt == "") {
        JobTurn(db, now, busy, tx, d);
      } else {
        MethodEnds(db, now, busy, tx, d);
      }
    }
  }

  /** A session that is not the worker's, or a lease for a worker that drains. */
  lemma MethodRefuses(db: Db, now: int, busy: set<Lock>, tx: Tx, d: Draw)
    requires Ready(db, now, busy, tx) && FreshDraw(db, busy, d) && tx.phase.AtWorker?
    requires tx.phase.row.session != tx.intent.request.session || (tx.intent.call == LeaseJob && tx.phase.row.state != ACTIVE)
    ensures Sane(db, now, busy, tx, Refuse(db, Conflict, Simple(db, tx.intent, tx.phase.touchedAt, now, now, d)))
  {
    var i, p := tx.intent, tx.phase;
    SimpleLegal(db, tx.begun, now, i, p.touchedAt, now, d);
    RefuseWell(db, now, busy, tx, Conflict, Simple(db, i, p.touchedAt, now, now, d));
  }

  lemma MethodBody(db: Db, i: Intent, p: Phase, met: Circumstances)
    requires i.Calling? && p.AtWorker? && i.call != LeaseJob
    requires !OnAttemptCall(i.call) || (i.call == Heartbeat && i.request.attempt == "")
    requires Dispatch(WithWorker(db, i.request.worker, TouchedRow(p)), i.call, i.request, met).Done?
    ensures var body := Dispatch(WithWorker(db, i.request.worker, TouchedRow(p)), i.call, i.request, met);
            body.db == WithWorker(db, i.request.worker, body.db.workers[i.request.worker])
            && body == if i.call == ReleaseWorker
                       then Done(WithWorker(db, i.request.worker, TouchedRow(p).(state := DRAINING)), Released)
                       else Done(WithWorker(db, i.request.worker, TouchedRow(p)), StillAlive)
  {
  }

  lemma FenceRefused(db: Db, tx: Tx, met: Circumstances)
    requires tx.phase.AtJob? && KnowsJob(db, tx)
    requires !Holds(db.attempts[tx.phase.a], tx.phase.job, tx.intent.request, met)
    ensures OnAttempt(WithWorker(db, tx.intent.request.worker, TouchedRow(tx.phase)), tx.intent.call, tx.intent.request, met)
         == Refused(Conflict)
  {
  }

  lemma FenceEnds(db: Db, now: int, busy: set<Lock>, tx: Tx, d: Draw)
    requires Ready(db, now, busy, tx) && FreshDraw(db, busy, d) && tx.phase.AtJob?
    requires !Holds(db.attempts[tx.phase.a], tx.phase.job, tx.intent.request, Met(tx.phase.touchedAt, now, now))
    ensures Sane(db, now, busy, tx, Refuse(db, Conflict, Simple(db, tx.intent, tx.phase.touchedAt, now, now, d)))
  {
    var i, p := tx.intent, tx.phase;
    var c := Simple(db, i, p.touchedAt, now, now, d);
    SimpleLegal(db, tx.begun, now, i, p.touchedAt, now, d);
    KnownWorker(db, i, p, c.met);
    FenceRefused(db, tx, c.met);
    RefuseWell(db, now, busy, tx, Conflict, c);
  }

  lemma FenceGoes(db: Db, now: int, busy: set<Lock>, tx: Tx)
    requires Ready(db, now, busy, tx) && tx.phase.AtJob? && AttemptLock(tx.phase.a) !in busy
    requires Holds(db.attempts[tx.phase.a], tx.phase.job, tx.intent.request, Met(tx.phase.touchedAt, now, now))
    ensures var p := tx.phase;
            GoesWell(db, now, busy, tx, AtAttempt(p.row, p.touchedAt, p.a, p.j, p.job, db.attempts[p.a], now))
  {
    var p := tx.phase;
    var next := tx.(phase := AtAttempt(p.row, p.touchedAt, p.a, p.j, p.job, db.attempts[p.a], now));
    assert KnowsWorker(db, now, next) && KnowsJob(db, next) && KnowsAttempt(db, now, next);
    assert Held(next) == Held(tx) + {AttemptLock(p.a)};
  }

  lemma FenceTurn(db: Db, now: int, busy: set<Lock>, tx: Tx, d: Draw)
    requires Ready(db, now, busy, tx) && FreshDraw(db, busy, d) && tx.phase.AtJob?
    ensures Sane(db, now, busy, tx, TurnFence(db, now, busy, tx.intent, tx.phase, d))
  {
    var turn := TurnFence(db, now, busy, tx.intent, tx.phase, d);
    if turn.Ends? { FenceEnds(db, now, busy, tx, d); }
    else if turn.Goes? { FenceGoes(db, now, busy, tx); }
  }

  function Mine(db: Db, i: Intent, p: Phase): Db
    requires i.Calling? && HasWorker(p)
  {
    WithWorker(db, i.request.worker, TouchedRow(p))
  }

  ghost predicate Fenced(db: Db, i: Intent, p: Phase, met: Circumstances) {
    && i.Calling? && (p.AtAttempt? || p.Checked?)
    && OnAttemptCall(i.call) && !(i.call == Heartbeat && i.request.attempt == "")
    && UuidText(i.request.attempt) && UuidText(i.request.token) && p.a == NamedAttempt(i.request.attempt)
    && p.a in db.attempts && db.attempts[p.a] == p.attempt && p.attempt.job == p.j
    && p.j in db.jobs && db.jobs[p.j] == p.job
    && Holds(p.attempt, p.job, i.request, met)
  }

  /** Past the fence, a call is what its own statement does. */
  lemma FencedBody(db: Db, i: Intent, p: Phase, met: Circumstances)
    requires Fenced(db, i, p, met)
    ensures Dispatch(Mine(db, i, p), i.call, i.request, met) ==
            if i.call == Heartbeat then Renew(Mine(db, i, p), p.a, met)
            else if i.call == StartAttempt then Start(Mine(db, i, p), p.a, i.request, met)
            else Report(Mine(db, i, p), i.call, p.a, i.request, met)
  {
  }

  lemma KnownFence(db: Db, now: int, busy: set<Lock>, tx: Tx, d: Draw)
    requires Ready(db, now, busy, tx) && FreshDraw(db, busy, d) && (tx.phase.AtAttempt? || tx.phase.Checked?)
    ensures var i, p := tx.intent, tx.phase;
            var c := Simple(db, i, p.touchedAt, p.fencedAt, now, d);
            && Fenced(db, i, p, c.met) && Legal(db, c) && Timely(c, tx.begun, now)
            && CallBody(db, i.call, i.request, c.met) == Dispatch(Mine(db, i, p), i.call, i.request, c.met)
  {
    var i, p := tx.intent, tx.phase;
    var c := Simple(db, i, p.touchedAt, p.fencedAt, now, d);
    SimpleLegal(db, tx.begun, now, i, p.touchedAt, p.fencedAt, d);
    KnownWorker(db, i, p, c.met);
  }

  /** Only the worker, the attempt and its job were written. */
  lemma RowsElsewhere(db: Db, after: Db, held: set<Lock>, w: WorkerId, j: JobId, a: AttemptId, row: Attempt)
    requires WorkerLock(w) in held && JobLock(j) in held && AttemptLock(a) in held
    requires row.job == j && (a in db.attempts ==> db.attempts[a].job == j)
    requires forall v :: v != w ==> SameRow(db, after, v)
    requires after.attempts == db.attempts || after.attempts == db.attempts[a := row]
    requires forall k :: k in db.jobs && k != j ==> k in after.jobs && after.jobs[k] == db.jobs[k]
    requires after.requests == db.requests && db.artifacts <= after.artifacts && after.leaseMs == db.leaseMs
    ensures Elsewhere(db, after, held)
  {
    OneJobElsewhere(db, after, held, j, a, row);
  }

  lemma BoundKept(db: Db, after: Db, now: int, a: AttemptId, row: Attempt)
    requires LeaseBound(db, now) && after.leaseMs == db.leaseMs && row.leaseExpiresAt <= now + db.leaseMs
    requires after.attempts == db.attempts || after.attempts == db.attempts[a := row]
    ensures LeaseBound(after, now)
  {
  }

  /** `next` differs from `db` in the worker, the job and the attempt of a transaction only. */
  ghost predicate Wrote(db: Db, next: Db, now: int, w: WorkerId, j: JobId, a: AttemptId) {
    && (a in db.attempts ==> db.attempts[a].job == j)
    && (forall v :: v != w ==> SameRow(db, next, v))
    && a in next.attempts && next.attempts[a].job == j
    && next.attempts[a].leaseExpiresAt <= now + db.leaseMs
    && (next.attempts == db.attempts || next.attempts == db.attempts[a := next.attempts[a]])
    && (forall k :: k in db.jobs && k != j ==> k in next.jobs && next.jobs[k] == db.jobs[k])
    && next.requests == db.requests && db.artifacts <= next.artifacts && next.leaseMs == db.leaseMs
  }

  lemma WroteElsewhere(db: Db, next: Db, now: int, w: WorkerId, j: JobId, a: AttemptId, held: set<Lock>)
    requires Wrote(db, next, now, w, j, a) && LeaseBound(db, now)
    requires WorkerLock(w) in held && JobLock(j) in held && AttemptLock(a) in held
    ensures Elsewhere(db, next, held) && LeaseBound(next, now)
  {
    BoundKept(db, next, now, a, next.attempts[a]);
    RowsElsewhere(db, next, held, w, j, a, next.attempts[a]);
  }

  lemma RowsPublish(db: Db, now: int, busy: set<Lock>, tx: Tx, next: Db, response: Response, c: Command)
    requires Ready(db, now, busy, tx) && tx.intent.Calling? && HasAttempt(tx.phase)
    requires c.Rpc? && c == Rpc(tx.intent.call, tx.intent.request, c.met)
    requires Legal(db, c) && Timely(c, tx.begun, now)
    requires CallBody(db, c.call, c.request, c.met) == Done(next, response)
    requires Wrote(db, next, now, c.request.worker, tx.phase.j, tx.phase.a)
    ensures Sane(db, now, busy, tx, Publish(next, tx.intent, response, c))
  {
    WroteElsewhere(db, next, now, c.request.worker, tx.phase.j, tx.phase.a, Held(tx));
    PublishWell(db, now, busy, tx, next, response, c);
  }

  lemma RenewBody(db: Db, now: int, i: Intent, p: Phase, d: Draw)
    requires i.Calling? && p.AtAttempt? && i.call == Heartbeat
    requires p.a in db.attempts && db.attempts[p.a] == p.attempt && p.attempt.job == p.j
    ensures var c := Simple(db, i, p.touchedAt, p.fencedAt, now, d);
            var body := Renew(Mine(db, i, p), p.a, c.met);
            && TurnWrite(db, now, i, p, d) == Publish(body.db, i, body.response, c)
            && Wrote(db, body.db, now, i.request.worker, p.j, p.a)
  {
    var until := Min(p.attempt.deadlineAt, now + db.leaseMs);
    assert Renew(Mine(db, i, p), p.a, Simple(db, i, p.touchedAt, p.fencedAt, now, d).met) ==
           Done(Mine(db, i, p).(attempts := db.attempts[p.a := p.attempt.(leaseExpiresAt := until)]), Renewed(until, now));
  }

  lemma RenewTurn(db: Db, now: int, busy: set<Lock>, tx: Tx, d: Draw)
    requires Ready(db, now, busy, tx) && FreshDraw(db, busy, d) && tx.phase.AtAttempt? && tx.intent.call == Heartbeat
    ensures Sane(db, now, busy, tx, TurnWrite(db, now, tx.intent, tx.phase, d))
  {
    var i, p := tx.intent, tx.phase;
    var c := Simple(db, i, p.touchedAt, p.fencedAt, now, d);
    KnownFence(db, now, busy, tx, d);
    FencedBody(db, i, p, c.met);
    RenewBody(db, now, i, p, d);
    var body := Renew(Mine(db, i, p), p.a, c.met);
    RowsPublish(db, now, busy, tx, body.db, body.response, c);
  }

  lemma StartBody(db: Db, now: int, i: Intent, p: Phase, d: Draw)
    requires i.Calling? && p.AtAttempt? && i.call == StartAttempt
    requires p.a in db.attempts && db.attempts[p.a] == p.attempt && p.attempt.job == p.j
    requires p.j in db.jobs && db.jobs[p.j] == p.job && p.attempt.leaseExpiresAt <= now + db.leaseMs
    ensures var c := Simple(db, i, p.touchedAt, p.fencedAt, now, d);
            var body := Start(Mine(db, i, p), p.a, i.request, c.met);
            && TurnWrite(db, now, i, p, d) == Publish(body.db, i, body.response, c)
            && Wrote(db, body.db, now, i.request.worker, p.j, p.a)
  {
  }

  lemma StartTurn(db: Db, now: int, busy: set<Lock>, tx: Tx, d: Draw)
    requires Ready(db, now, busy, tx) && FreshDraw(db, busy, d) && tx.phase.AtAttempt? && tx.intent.call == StartAttempt
    ensures Sane(db, now, busy, tx, TurnWrite(db, now, tx.intent, tx.phase, d))
  {
    var i, p := tx.intent, tx.phase;
    var c := Simple(db, i, p.touchedAt, p.fencedAt, now, d);
    KnownFence(db, now, busy, tx, d);
    FencedBody(db, i, p, c.met);
    StartBody(db, now, i, p, d);
    var body := Start(Mine(db, i, p), p.a, i.request, c.met);
    RowsPublish(db, now, busy, tx, body.db, body.response, c);
  }

  /** A report that is refused before it writes is refused for the reason the atomic call gives. */
  lemma ReportRefused(db: Db, i: Intent, p: Phase, met: Circumstances)
    requires Fenced(db, i, p, met) && i.call in {ReportProgress, CompleteAttempt, FailAttempt}
    ensures p.attempt.state != RUNNING ==> Report(Mine(db, i, p), i.call, p.a, i.request, met) == Refused(Conflict)
    ensures p.attempt.state == RUNNING && TooLarge(i.request) ==>
              Report(Mine(db, i, p), i.call, p.a, i.request, met) == Refused(Invalid)
    ensures p.attempt.state == RUNNING && !TooLarge(i.request) ==>
              var checked := AddArtifacts(db.artifacts, p.j, p.a, PrefixOf(i, p), i.request.artifacts);
              checked.Bad? ==> Report(Mine(db, i, p), i.call, p.a, i.request, met) == Refused(checked.error)
  {
  }

  lemma CheckRefuses(db: Db, now: int, busy: set<Lock>, tx: Tx, d: Draw)
    requires Ready(db, now, busy, tx) && FreshDraw(db, busy, d) && tx.phase.AtAttempt?
    requires tx.intent.call != Heartbeat && tx.intent.call != StartAttempt
    requires TurnWrite(db, now, tx.intent, tx.phase, d).Ends?
    ensures Sane(db, now, busy, tx, TurnWrite(db, now, tx.intent, tx.phase, d))
  {
    var i, p := tx.intent, tx.phase;
    var c := Simple(db, i, p.touchedAt, p.fencedAt, now, d);
    KnownFence(db, now, busy, tx, d);
    FencedBody(db, i, p, c.met);
    ReportRefused(db, i, p, c.met);
    var turn := TurnWrite(db, now, i, p, d);
    assert turn == Refuse(db, turn.result.error, c);
    RefuseWell(db, now, busy, tx, turn.result.error, c);
  }

  lemma CheckedKnows(db: Db, now: int, busy: set<Lock>, tx: Tx, added: seq<ArtifactRow>)
    requires Ready(db, now, busy, tx) && tx.phase.AtAttempt?
    requires tx.intent.call in {ReportProgress, CompleteAttempt, FailAttempt}
    requires tx.phase.attempt.state == RUNNING && !TooLarge(tx.intent.request)
    requires AddArtifacts(db.artifacts, tx.phase.j, tx.phase.a, PrefixOf(tx.intent, tx.phase), tx.intent.request.artifacts)
             == Rows(db.artifacts + added)
    ensures var p := tx.phase;
            GoesWell(db, now, busy, tx, Checked(p.row, p.touchedAt, p.a, p.j, p.job, p.attempt, p.fencedAt, |db.artifacts|, added))
  {
    var p := tx.phase;
    var next := tx.(phase := Checked(p.row, p.touchedAt, p.a, p.j, p.job, p.attempt, p.fencedAt, |db.artifacts|, added));
    assert db.artifacts[..|db.artifacts|] == db.artifacts;
    assert KnowsRows(db, next);
    assert KnowsWorker(db, now, next) && KnowsJob(db, next) && KnowsAttempt(db, now, next);
    assert Held(next) == Held(tx);
  }

  lemma CheckGoes(db: Db, now: int, busy: set<Lock>, tx: Tx, d: Draw)
    requires Ready(db, now, busy, tx) && FreshDraw(db, busy, d) && tx.phase.AtAttempt?
    requires tx.intent.call != Heartbeat && tx.intent.call != StartAttempt
    requires TurnWrite(db, now, tx.intent, tx.phase, d).Goes?
    ensures Sane(db, now, busy, tx, TurnWrite(db, now, tx.intent, tx.phase, d))
  {
    var i, p := tx.intent, tx.phase;
    AddedArtifacts(db.artifacts, p.j, p.a, PrefixOf(i, p), i.request.artifacts);
    var q := TurnWrite(db, now, i, p, d).phase;
    assert AddArtifacts(db.artifacts, p.j, p.a, PrefixOf(i, p), i.request.artifacts) == Rows(db.artifacts + q.added);
    CheckedKnows(db, now, busy, tx, q.added);
  }

  /** The rows checked earlier are the rows the loop would add now. */
  lemma ReportRows(db: Db, tx: Tx)
    requires KnowsRows(db, tx) && !KeyRace(db, tx.phase.added)
    ensures AddArtifacts(db.artifacts, tx.phase.j, tx.phase.a, PrefixOf(tx.intent, tx.phase), tx.intent.request.artifacts)
            == Rows(db.artifacts + tx.phase.added)
  {
    var p := tx.phase;
    PrefixExtends(db.artifacts[..p.base], db.artifacts);
    AddedLater(db.artifacts[..p.base], db.artifacts, p.j, p.a, PrefixOf(tx.intent, p), tx.intent.request.artifacts, p.added);
  }

  /** What the report publishes is what the atomic report would do now. */
  lemma ReportBody(db: Db, now: int, i: Intent, p: Phase, d: Draw)
    requires i.Calling? && p.Checked? && Fenced(db, i, p, Simple(db, i, p.touchedAt, p.fencedAt, now, d).met)
    requires i.call in {ReportProgress, CompleteAttempt, FailAttempt} && p.attempt.state == RUNNING && !TooLarge(i.request)
    requires AddArtifacts(db.artifacts, p.j, p.a, PrefixOf(i, p), i.request.artifacts) == Rows(db.artifacts + p.added)
    requires !KeyRace(db, p.added)
    ensures var c := Simple(db, i, p.touchedAt, p.fencedAt, now, d);
            var body := Report(Mine(db, i, p), i.call, p.a, i.request, c.met);
            TurnReport(db, now, i, p, d) ==
            if body.Refused? then Refuse(db, body.error, c) else Publish(body.db, i, body.response, c)
  {
  }

  lemma FinishWrites(db: Db, kept: Db, now: int, i: Intent, p: Phase, met: Circumstances)
    requires p.Checked? && Fenced(db, i, p, met) && p.attempt.leaseExpiresAt <= now + db.leaseMs
    requires kept == Mine(db, i, p).(artifacts := kept.artifacts) && db.artifacts <= kept.artifacts
    ensures Wrote(db, Record(kept, p.j, Some(p.a), Called(i.call), Some(i.request.requestId)), now, i.request.worker, p.j, p.a)
    ensures Wrote(db, Record(Finish(kept, i.call, p.a, i.request, met), p.j, Some(p.a), Called(i.call), Some(i.request.requestId)),
                  now, i.request.worker, p.j, p.a)
  {
  }

  lemma ReportWrites(db: Db, now: int, i: Intent, p: Phase, met: Circumstances)
    requires p.Checked? && Fenced(db, i, p, met) && p.attempt.leaseExpiresAt <= now + db.leaseMs
    requires AddArtifacts(db.artifacts, p.j, p.a, PrefixOf(i, p), i.request.artifacts) == Rows(db.artifacts + p.added)
    ensures var body := Report(Mine(db, i, p), i.call, p.a, i.request, met);
            body.Done? ==> Wrote(db, body.db, now, i.request.worker, p.j, p.a)
  {
    FinishWrites(db, Mine(db, i, p).(artifacts := db.artifacts + p.added), now, i, p, met);
  }

  lemma ReportTurn(db: Db, now: int, busy: set<Lock>, tx: Tx, d: Draw)
    requires Ready(db, now, busy, tx) && FreshDraw(db, busy, d) && tx.phase.Checked?
    ensures Sane(db, now, busy, tx, TurnReport(db, now, tx.intent, tx.phase, d))
  {
    var i, p := tx.intent, tx.phase;
    if KeyRace(db, p.added) {
      SameUntouched(db, Held(tx));
    } else {
      var c := Simple(db, i, p.touchedAt, p.fencedAt, now, d);
      KnownFence(db, now, busy, tx, d);
      FencedBody(db, i, p, c.met);
      ReportRows(db, tx);
      ReportBody(db, now, i, p, d);
      ReportWrites(db, now, i, p, c.met);
      var body := Report(Mine(db, i, p), i.call, p.a, i.request, c.met);
      if body.Refused? {
        RefuseWell(db, now, busy, tx, body.error, c);
      } else {
        RowsPublish(db, now, busy, tx, body.db, body.response, c);
      }
    }
  }

  // ------------------------------------------------------------------ placement

  lemma ScanTurn(db: Db, now: int, busy: set<Lock>, tx: Tx, d: Draw)
    requires Ready(db, now, busy, tx) && FreshDraw(db, busy, d) && tx.phase.Counted?
    ensures Sane(db, now, busy, tx, TurnScan(db, now, busy, tx.intent, tx.phase, d))
  {
    var i, p := tx.intent, tx.phase;
    var found := Candidates(db, p.row.capacity.Minus(p.seen), Locked(busy));
    if found == {} {
      var c := Placing(i, p, now, now, d.a, d.token, db.jobs.Keys);
      KnownWorker(db, i, p, c.met);
      assert Candidates(Mine(db, i, p), p.row.capacity.Minus(p.seen), db.jobs.Keys) == {};
      WorkerElsewhere(db, i.request.worker, TouchedRow(p), Held(tx));
      PublishWell(db, now, busy, tx, Mine(db, i, p), Idle, c);
    } else {
      var j := First(db.jobs, found);
      assert JobLock(j) !in busy;
    }
  }

  lemma PlaceTurn(db: Db, now: int, busy: set<Lock>, tx: Tx, d: Draw)
    requires Ready(db, now, busy, tx) && FreshDraw(db, busy, d) && tx.phase.Picked?
    ensures Sane(db, now, busy, tx, TurnPlace(db, now, tx.intent, tx.phase, d))
  {
  }

  /** The job that was first in the scanned pool is first among those still to be had. */
  lemma StillFirst(db: Db, w: WorkerId, row: Worker, p: Phase)
    requires p.Placed? && IsFirst(db.jobs, p.pool, p.j) && db.jobs[p.j] == p.job && p.job.state == QUEUED
    requires p.job.definition.resources.AtMost(p.row.capacity.Minus(p.seen))
    ensures var found := Candidates(WithWorker(db, w, row), p.row.capacity.Minus(p.seen), db.jobs.Keys - p.pool);
            found != {} && First(db.jobs, found) == p.j
  {
    var found := Candidates(WithWorker(db, w, row), p.row.capacity.Minus(p.seen), db.jobs.Keys - p.pool);
    assert p.j in found;
    assert found <= p.pool;
    var first := First(db.jobs, found);
    assert IsFirst(db.jobs, found, first);
    if first != p.j {
      BeforeTotal(db.jobs, first, p.j);
    }
  }

  /** The lease placed earlier can be granted now: no index and no budget stands in the way. */
  lemma StillGranted(db: Db, now: int, i: Intent, p: Phase, c: Command)
    requires Inv(db) && i.Calling? && i.call == LeaseJob && p.Placed?
    requires c == Placing(i, p, p.placedAt, now, p.a, p.attempt.token, db.jobs.Keys - p.pool)
    requires i.request.worker in db.workers && db.workers[i.request.worker] == p.row
    requires p.row.session == i.request.session
    requires Usage(db, i.request.worker).AtMost(p.seen)
    requires p.j in db.jobs && db.jobs[p.j] == p.job && p.job.state == QUEUED
    requires p.job.definition.resources.AtMost(p.row.capacity.Minus(p.seen)) && p.a !in db.attempts
    ensures GrantLease(Mine(db, i, p), p.j, i.request, c.met).Done?
  {
    var mine := Mine(db, i, p);
    WorkersSound(db, mine.workers);
    assert Usage(mine, i.request.worker) == Usage(db, i.request.worker);
    var m := GrantMove(mine, p.j, i.request, c.met);
  }

  lemma GrantBody(db: Db, now: int, i: Intent, p: Phase, c: Command)
    requires i.Calling? && i.call == LeaseJob && p.Placed?
    requires c == Placing(i, p, p.placedAt, now, p.a, p.attempt.token, db.jobs.Keys - p.pool)
    requires p.j in db.jobs && db.jobs[p.j] == p.job && p.a !in db.attempts
    requires p.attempt == PlacedRow(db, Tx(i, 0, p)) && p.placedAt <= now
    requires GrantLease(Mine(db, i, p), p.j, i.request, c.met).Done?
    ensures var body := GrantLease(Mine(db, i, p), p.j, i.request, c.met);
            && TurnGrant(db, now, i, p) == Publish(body.db, i, body.response, c)
            && Wrote(db, body.db, now, i.request.worker, p.j, p.a)
  {
    assert NewAttempt(Mine(db, i, p), p.j, i.request.worker, c.met) == p.attempt;
  }

  lemma GrantTurn(db: Db, now: int, busy: set<Lock>, tx: Tx, d: Draw)
    requires Ready(db, now, busy, tx) && FreshDraw(db, busy, d) && tx.phase.Placed?
    ensures Sane(db, now, busy, tx, TurnGrant(db, now, tx.intent, tx.phase))
  {
    var i, p := tx.intent, tx.phase;
    var c := Placing(i, p, p.placedAt, now, p.a, p.attempt.token, db.jobs.Keys - p.pool);
    KnownWorker(db, i, p, c.met);
    StillFirst(db, i.request.worker, TouchedRow(p), p);
    StillGranted(db, now, i, p, c);
    GrantBody(db, now, i, p, c);
    var body := GrantLease(Mine(db, i, p), p.j, i.request, c.met);
    RowsPublish(db, now, busy, tx, body.db, body.response, c);
  }

  // ------------------------------------------------------------------ cancel and retry

  lemma FreshAction(db: Db, i: Intent, at: int)
    requires i.Acting? && Admissible(i) && KeyOfIntent(i) !in db.requests
    ensures var body := ActionBody(db, i.action, i.job, i.requestId, at);
            Apply(db, Act(i.action, i.job, i.requestId, at)) ==
            if body.Refused? then (db, Err(body.error))
            else (body.db.(requests := body.db.requests[KeyOfIntent(i) := Receipt(ActionPayload(i.job), Some(body.response))]),
                  Ok(body.response))
  {
  }

  lemma ActLockTurn(db: Db, now: int, busy: set<Lock>, tx: Tx)
    requires Ready(db, now, busy, tx) && tx.phase.Claimed? && tx.intent.Acting?
    ensures Sane(db, now, busy, tx, TurnActLock(db, now, busy, tx.intent))
  {
    FreshAction(db, tx.intent, now);
    SameUntouched(db, Held(tx));
  }

  lemma CancelElsewhere(attempts: map<AttemptId, Attempt>, i: JobId, at: int, j: JobId)
    requires j != i
    ensures JobAttempts(CancelLive(attempts, i, at), j) == JobAttempts(attempts, j)
  {
  }

  /** Cancelling or retrying a job writes that job and its attempts only. */
  lemma ActionElsewhere(db: Db, now: int, held: set<Lock>, i: Intent, after: Db)
    requires i.Acting? && JobLock(i.job) in held && RequestLock(KeyOfIntent(i)) in held && LeaseBound(db, now)
    requires after.attempts == db.attempts || after.attempts == CancelLive(db.attempts, i.job, now)
    requires i.job in after.jobs && after.jobs == db.jobs[i.job := after.jobs[i.job]]
    requires after.workers == db.workers && after.artifacts == db.artifacts && after.leaseMs == db.leaseMs
    requires forall k :: k != KeyOfIntent(i) ==> (k in after.requests <==> k in db.requests)
    ensures Elsewhere(db, after, held) && LeaseBound(after, now)
  {
    forall j | JobLock(j) !in held ensures SameJob(db, after, j) {
      CancelElsewhere(db.attempts, i.job, now, j);
    }
  }

  lemma ActTurn(db: Db, now: int, busy: set<Lock>, tx: Tx)
    requires Ready(db, now, busy, tx) && tx.phase.ActingOn?
    ensures Sane(db, now, busy, tx, TurnAct(db, now, busy, tx.intent, tx.phase))
  {
    var i, p := tx.intent, tx.phase;
    var turn := TurnAct(db, now, busy, i, p);
    assert db.(jobs := db.jobs[i.job := p.job]) == db;
    FreshAction(db, i, now);
    if turn.Ends? {
      if turn.result.Err? {
        RefusesWell(db, now, tx, turn.command, turn.result.error);
      } else {
        ActionElsewhere(db, now, Held(tx), i, turn.db);
        UsageElsewhere(db, turn.db, Held(tx), turn.command);
      }
    }
  }

  // ------------------------------------------------------------------ submission

  lemma {:induction false} SubmitOnlyAdds(db: Db, batch: seq<Entry>, out: seq<JobId>)
    requires FreshEntries(db, batch)
    ensures SubmitAll(db, batch, out).Done? ==>
              var after := SubmitAll(db, batch, out).db;
              after.leaseMs == db.leaseMs && forall j :: j in db.jobs ==> j in after.jobs && after.jobs[j] == db.jobs[j]
    decreases |batch|
  {
    if batch != [] && SubmitAll(db, batch, out).Done? {
      var next := InsertJob(db, batch[0]);
      InsertTakesKey(db, batch[0]);
      SubmitOnlyAdds(next, batch[1..], out + [KeyOwner(next.jobs, batch[0].definition.idempotencyKey)]);
    }
  }

  lemma SubmitElsewhere(db: Db, now: int, after: Db, held: set<Lock>)
    requires forall j :: j in db.jobs ==> j in after.jobs && after.jobs[j] == db.jobs[j]
    requires after.attempts == db.attempts && after.workers == db.workers && after.requests == db.requests
    requires after.artifacts == db.artifacts && after.leaseMs == db.leaseMs && LeaseBound(db, now)
    ensures Elsewhere(db, after, held) && LeaseBound(after, now)
  {
  }

  lemma SubmitEnds(db: Db, now: int, tx: Tx, entries: seq<Entry>)
    requires Inv(db) && LeaseBound(db, now) && tx.intent.Submitting? && Admissible(tx.intent)
    requires EntriesFor(db, tx.begun, now, tx.intent.batch, entries) && SubmitBody(db, entries).Done?
    ensures EndsWell(db, now, tx, SubmitBody(db, entries).db, Ok(SubmitBody(db, entries).response), Submit(entries))
  {
    var after := SubmitBody(db, entries).db;
    assert FreshEntries(db, entries);
    SubmitOnlyAdds(db, entries, []);
    SubmitLeavesAttempts(db, entries, []);
    SubmitElsewhere(db, now, after, Held(tx));
    UsageElsewhere(db, after, Held(tx), Submit(entries));
  }

  lemma SubmitTurn(db: Db, now: int, busy: set<Lock>, tx: Tx, d: Draw)
    requires Ready(db, now, busy, tx) && tx.phase.Locking?
    ensures Sane(db, now, busy, tx, TurnSubmit(db, tx.begun, now, busy, tx.intent, tx.phase, d))
  {
    var i, p := tx.intent, tx.phase;
    var turn := TurnSubmit(db, tx.begun, now, busy, i, p, d);
    if turn.Ends? {
      if turn.result.Err? {
        RefusesWell(db, now, tx, turn.command, turn.result.error);
      } else {
        SubmitEnds(db, now, tx, d.entries);
      }
    } else if turn.Goes? {
      var keys := SortedKeys(i.batch);
      assert keys[..p.n + 1] == keys[..p.n] + [keys[p.n]];
    }
  }

  // ------------------------------------------------------------------ the reaper

  lemma ScanLockTurn(db: Db, now: int, busy: set<Lock>, tx: Tx)
    requires Ready(db, now, busy, tx) && tx.phase.Scanned?
    ensures Sane(db, now, busy, tx, TurnScanLock(busy, tx.phase))
  {
    var p := tx.phase;
    assert forall k :: 0 <= k < |p.locked| ==> p.locked[k] == (p.locked + p.todo)[k];
    assert forall j :: j in p.locked ==> j in p.locked + p.todo;
    if p.todo != [] {
      assert p.locked + p.todo == (p.locked + [p.todo[0]]) + p.todo[1..];
      assert forall j :: j in p.locked + p.todo[1..] ==> j in p.locked + p.todo;
      assert forall k :: 0 <= k < |p.locked + p.todo[1..]| ==>
          (p.locked + p.todo[1..])[k] == (p.locked + p.todo)[if k < |p.locked| then k else k + 1];
    }
  }

  ghost predicate HitTrue(db: Db, h: Hit) {
    match h.expired
    case Some(a) => h.slot.id in db.jobs && ExpiredLive(db.attempts, h.slot.id, h.slot.at, a)
    case None => h.slot.id in db.jobs && !Reapable(db.attempts, h.slot.id, h.slot.at)
  }

  predicate DistinctHits(hits: seq<Hit>) {
    forall k, l :: 0 <= k < l < |hits| ==> hits[k].slot.id != hits[l].slot.id
  }

  /** Expiring one job's attempt leaves every other job as it was. */
  lemma ExpireElsewhere(db: Db, a: AttemptId, at: int, j: JobId)
    requires a in db.attempts && db.attempts[a].job in db.jobs && db.attempts[a].job != j
    ensures SameJob(db, ExpireAttempt(db, a, at), j)
  {
    assert JobAttempts(ExpireAttempt(db, a, at).attempts, j) == JobAttempts(db.attempts, j);
  }

  lemma OneExpiry(db: Db, h: Hit)
    requires Sound(db) && HitTrue(db, h)
    ensures ExpireJob(db, h.slot) == if h.expired.Some? then ExpireAttempt(db, h.expired.value, h.slot.at) else db
  {
    if h.expired.Some? {
      var a := h.expired.value;
      assert Reapable(db.attempts, h.slot.id, h.slot.at);
      var b :| b in db.attempts && ExpiredLive(db.attempts, h.slot.id, h.slot.at, b)
               && ExpireJob(db, h.slot) == ExpireAttempt(db, b, h.slot.at);
      OnlyLive(db, a, b);
    }
  }

  lemma HitStaysTrue(db: Db, h: Hit, g: Hit)
    requires Sound(db) && HitTrue(db, h) && HitTrue(db, g) && g.slot.id != h.slot.id
    ensures HitTrue(ExpireJob(db, h.slot), g)
  {
    OneExpiry(db, h);
    if h.expired.Some? {
      ExpireElsewhere(db, h.expired.value, h.slot.at, g.slot.id);
      SameReapable(db, ExpireJob(db, h.slot), g.slot.id, g.slot.at);
    }
  }

  /** The rechecks of a reaper, published together, are the expiries one after the other. */
  lemma {:induction false} HitsAreExpiries(db: Db, c: Command, hits: seq<Hit>)
    requires Inv(db) && c.Reap? && (forall k :: 0 <= k < |hits| ==> hits[k].slot in c.scan)
    requires DistinctHits(hits) && forall k :: 0 <= k < |hits| ==> HitTrue(db, hits[k])
    ensures ReapAll(db, Slots(hits)) == ApplyHits(db, hits)
    ensures ReapCount(db, Slots(hits)) == CountHits(hits)
    decreases |hits|
  {
    if hits != [] {
      var h := hits[0];
      var next := ExpireJob(db, h.slot);
      assert Slots(hits)[0] == h.slot && Slots(hits)[1..] == Slots(hits[1..]);
      OneExpiry(db, h);
      var m := ExpireMove(db, c, h.slot);
      MovedKeeps(db, c, next, m);
      forall k | 0 <= k < |hits[1..]| ensures HitTrue(next, hits[1..][k]) && hits[1..][k].slot in c.scan {
        assert hits[1..][k] == hits[k + 1];
        HitStaysTrue(db, h, hits[k + 1]);
      }
      HitsAreExpiries(next, c, hits[1..]);
    }
  }

  /** The reaper writes nothing but the jobs it locked and their attempts. */
  lemma {:induction false} HitsElsewhere(db: Db, now: int, hits: seq<Hit>, held: set<Lock>)
    requires forall k :: 0 <= k < |hits| ==>
               JobLock(hits[k].slot.id) in held
               && (hits[k].expired.Some? ==> hits[k].expired.value in db.attempts
                                             && db.attempts[hits[k].expired.value].job == hits[k].slot.id)
    requires LeaseBound(db, now)
    ensures Elsewhere(db, ApplyHits(db, hits), held) && LeaseBound(ApplyHits(db, hits), now)
    ensures ApplyHits(db, hits).attempts.Keys == db.attempts.Keys
    decreases |hits|
  {
    if hits != [] {
      var h := hits[0];
      var next := if h.expired.Some? && h.expired.value in db.attempts && db.attempts[h.expired.value].job in db.jobs
                  then ExpireAttempt(db, h.expired.value, h.slot.at) else db;
      forall k | 0 <= k < |hits[1..]|
        ensures JobLock(hits[1..][k].slot.id) in held
        ensures hits[1..][k].expired.Some? ==> hits[1..][k].expired.value in next.attempts
                                               && next.attempts[hits[1..][k].expired.value].job == hits[1..][k].slot.id
      {
        assert hits[1..][k] == hits[k + 1];
      }
      HitsElsewhere(next, now, hits[1..], held);
      var after := ApplyHits(next, hits[1..]);
      forall j | JobLock(j) !in held ensures SameJob(db, after, j) {
        if next != db { ExpireElsewhere(db, h.expired.value, h.slot.at, j); }
        assert SameJob(next, after, j);
      }
      forall w | WorkerLock(w) !in held ensures SameRow(db, after, w) { assert SameRow(next, after, w); }
      forall k | RequestLock(k) !in held ensures SameRequest(db, after, k) { assert SameRequest(next, after, k); }
    }
  }

  lemma RecheckTurn(db: Db, now: int, busy: set<Lock>, tx: Tx)
    requires Ready(db, now, busy, tx) && tx.phase.Rechecking?
    ensures Sane(db, now, busy, tx, TurnRecheck(db, now, busy, tx.phase))
  {
    var p := tx.phase;
    var turn := TurnRecheck(db, now, busy, p);
    if turn.Ends? {
      RecheckEnds(db, now, busy, tx);
    } else if turn.Goes? {
      RecheckGoes(db, now, busy, tx);
    }
  }

  lemma RecheckEnds(db: Db, now: int, busy: set<Lock>, tx: Tx)
    requires Ready(db, now, busy, tx) && tx.phase.Rechecking? && |tx.phase.hits| == |tx.phase.locked|
    ensures Sane(db, now, busy, tx, TurnRecheck(db, now, busy, tx.phase))
  {
    var p := tx.phase;
    var c := Reap(Slots(p.hits));
    forall k | 0 <= k < |p.hits| ensures HitTrue(db, p.hits[k]) && p.hits[k].slot in c.scan
                                 ensures JobLock(p.hits[k].slot.id) in Held(tx) {
      assert KnowsHit(db, tx.begun, now, p.hits[k]);
      assert c.scan[k] == p.hits[k].slot;
      assert p.hits[k].slot.id == p.locked[k];
    }
    HitsAreExpiries(db, c, p.hits);
    HitsElsewhere(db, now, p.hits, Held(tx));
    UsageElsewhere(db, ApplyHits(db, p.hits), Held(tx), c);
    forall s | s in c.scan ensures tx.begun <= s.at <= now {
      var k :| 0 <= k < |p.hits| && c.scan[k] == s;
      assert KnowsHit(db, tx.begun, now, p.hits[k]);
    }
  }

  lemma RecheckGoes(db: Db, now: int, busy: set<Lock>, tx: Tx)
    requires Ready(db, now, busy, tx) && tx.phase.Rechecking? && TurnRecheck(db, now, busy, tx.phase).Goes?
    ensures Sane(db, now, busy, tx, TurnRecheck(db, now, busy, tx.phase))
  {
    var p := tx.phase;
    var q := TurnRecheck(db, now, busy, p).phase;
    var k := |p.hits|;
    assert p.locked[k] in p.locked;
    assert q.hits == p.hits + [q.hits[k]];
    assert KnowsHit(db, tx.begun, now, q.hits[k]);
    forall l | 0 <= l < |q.hits| ensures q.hits[l].slot.id == q.locked[l] && KnowsHit(db, tx.begun, now, q.hits[l]) {
      if l < k { assert q.hits[l] == p.hits[l]; }
    }
  }
}
