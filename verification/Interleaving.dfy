/** The transactions of the store statement by statement. Each holds row locks until it ends,
    reads what is committed when a statement runs (READ COMMITTED), keeps its own writes to itself
    and publishes them when it commits. */
module Interleaving {
  import opened Model
  import opened Collections
  import opened ObjectKeys
  import opened Transactions

  datatype Lock =
    | RequestLock(key: Key)
    | WorkerLock(worker: WorkerId)
    | JobLock(job: JobId)
    | AttemptLock(attempt: AttemptId)
    | KeyLock(text: string)

  datatype Intent =
    | Calling(call: Method, request: Request)
    | Acting(action: Action, job: JobId, requestId: RequestId)
    | Submitting(batch: seq<Definition>)
    | Reaping

  /** The outcome of the reaper's recheck of one job. */
  datatype Hit = Hit(slot: Slot, expired: Option<AttemptId>)

  /** How far a transaction has got, with the rows as its statements returned them. */
  datatype Phase =
    | Opening
    | Claimed
    | Registering(existing: Option<Worker>, touchedAt: int)
    | AtWorker(row: Worker, touchedAt: int)
    | Counted(row: Worker, touchedAt: int, seen: Resources)
    | Picked(row: Worker, touchedAt: int, seen: Resources, pool: set<JobId>, j: JobId, job: Job)
    | Placed(row: Worker, touchedAt: int, seen: Resources, pool: set<JobId>, j: JobId, job: Job,
             a: AttemptId, attempt: Attempt, placedAt: int)
    | AtJob(row: Worker, touchedAt: int, a: AttemptId, j: JobId, job: Job)
    | AtAttempt(row: Worker, touchedAt: int, a: AttemptId, j: JobId, job: Job, attempt: Attempt, fencedAt: int)
    | Checked(row: Worker, touchedAt: int, a: AttemptId, j: JobId, job: Job, attempt: Attempt, fencedAt: int,
              base: nat, added: seq<ArtifactRow>)
    | ActingOn(job: Job)
    | Locking(n: nat)
    | Scanned(todo: seq<JobId>, locked: seq<JobId>)
    | Rechecking(locked: seq<JobId>, hits: seq<Hit>)

  datatype Tx = Tx(intent: Intent, begun: int, phase: Phase)

  /** What a statement draws from outside: fresh names, and the rows a scan happens to return. */
  datatype Draw = Draw(a: AttemptId, token: Token, entries: seq<Entry>, todo: seq<JobId>)

  /** A statement either has to wait for a lock, or moves the transaction on, or ends it with the
      tables it publishes and its answer. `command` names the atomic command it amounts to. */
  datatype Turn =
    | Waits(lock: Lock)
    | Goes(phase: Phase)
    | Ends(db: Db, result: Result, command: Command)
    | Undrawn

  function Refuse(db: Db, e: Error, c: Command): Turn {
    Ends(db, Err(e), c)
  }

  // ------------------------------------------------------------------ locks

  function InsertKey(keys: seq<string>, k: string): seq<string> {
    if keys == [] || Less(k, keys[0]) then [k] + keys else [keys[0]] + InsertKey(keys[1..], k)
  }

  /** sort.Strings over the idempotency keys of a batch. */
  function SortedKeys(batch: seq<Definition>): seq<string> {
    if batch == [] then []
    else InsertKey(SortedKeys(batch[..|batch| - 1]), batch[|batch| - 1].idempotencyKey)
  }

  function KeyOfIntent(i: Intent): Key
    requires i.Calling? || i.Acting?
  {
    if i.Calling? then RpcKey(i.call, i.request) else Key(ActionScope(i.action), i.requestId)
  }

  /** The phases a transaction with this intent can be in. */
  predicate Fits(i: Intent, p: Phase) {
    match p
    case Opening => true
    case Claimed => i.Calling? || i.Acting?
    case ActingOn(_) => i.Acting?
    case Locking(n) => i.Submitting? && n <= |SortedKeys(i.batch)|
    case Scanned(_, _) => i.Reaping?
    case Rechecking(locked, hits) => i.Reaping? && |hits| <= |locked|
    case _ => i.Calling?
  }

  function JobLocks(ids: seq<JobId>): set<Lock> {
    set j | j in ids :: JobLock(j)
  }

  function HitLocks(hits: seq<Hit>): set<Lock> {
    set h | h in hits && h.expired.Some? :: AttemptLock(h.expired.value)
  }

  function KeyLocks(keys: seq<string>): set<Lock> {
    set k | k in keys :: KeyLock(k)
  }

  predicate HasJob(p: Phase) {
    p.Picked? || p.Placed? || p.AtJob? || p.AtAttempt? || p.Checked?
  }

  predicate HasAttempt(p: Phase) {
    p.Placed? || p.AtAttempt? || p.Checked?
  }

  predicate HasWorker(p: Phase) {
    p.AtWorker? || p.Counted? || HasJob(p)
  }

  function RowLocks(p: Phase): set<Lock> {
    (if HasJob(p) then {JobLock(p.j)} else {}) + (if HasAttempt(p) then {AttemptLock(p.a)} else {})
  }

  /** The locks a transaction holds. */
  function Held(tx: Tx): set<Lock> {
    if !Fits(tx.intent, tx.phase) then {} else
    match tx.phase
    case Opening => {}
    case Claimed => {RequestLock(KeyOfIntent(tx.intent))}
    case ActingOn(_) => {RequestLock(KeyOfIntent(tx.intent)), JobLock(tx.intent.job)}
    case Locking(n) => KeyLocks(SortedKeys(tx.intent.batch)[..n])
    case Scanned(_, locked) => JobLocks(locked)
    case Rechecking(locked, hits) => JobLocks(locked) + HitLocks(hits)
    case _ =>
      {RequestLock(KeyOfIntent(tx.intent)), WorkerLock(tx.intent.request.worker)} + RowLocks(tx.phase)
  }

  // ------------------------------------------------------------------ the statements of a worker call

  function Met(touchedAt: int, before: int, now: int): Circumstances {
    Circumstances(touchedAt, before, before, now, now, AttemptId(""), Token(""), NOTHING, {})
  }

  /** The command that a call amounts to when it draws nothing that matters. */
  ghost function Simple(db: Db, i: Intent, touchedAt: int, before: int, now: int, d: Draw): Command
    requires i.Calling?
  {
    Rpc(i.call, i.request,
        Circumstances(touchedAt, before, before, now, now, d.a, d.token, Usage(db, i.request.worker), {}))
  }

  /** The published tables of a call that succeeded: the receipt goes in with the rest. */
  function Publish(db: Db, i: Intent, response: Response, c: Command): Turn
    requires i.Calling?
  {
    Ends(db.(requests := db.requests[KeyOfIntent(i) := Receipt(RpcPayload(i.request), Some(response))]),
         Ok(response), c)
  }

  function ReplayTurn(db: Db, i: Intent, payload: Payload, c: Command): Turn
    requires (i.Calling? || i.Acting?) && KeyOfIntent(i) in db.requests
  {
    var receipt := db.requests[KeyOfIntent(i)];
    if receipt.payload != payload then Refuse(db, Conflict, c)
    else if receipt.response.Some? then Ends(db, Ok(receipt.response.value), c)
    else Undrawn
  }

  ghost function TurnClaim(db: Db, now: int, busy: set<Lock>, i: Intent, d: Draw): Turn
    requires i.Calling? || i.Acting?
  {
    var key := KeyOfIntent(i);
    if RequestLock(key) in busy then Waits(RequestLock(key))
    else if key in db.requests then
      if i.Calling? then ReplayTurn(db, i, RpcPayload(i.request), Simple(db, i, now, now, now, d))
      else ReplayTurn(db, i, ActionPayload(i.job), Act(i.action, i.job, i.requestId, now))
    else Goes(Claimed)
  }

  predicate BadCapacity(r: Request) {
    !r.resources.Valid() || r.resources.cpu < 1 || r.resources.memoryMb < 1
  }

  /** SELECT ... FROM workers ... FOR UPDATE, or the insertion of a new worker. */
  ghost function TurnWorker(db: Db, now: int, busy: set<Lock>, i: Intent, d: Draw): Turn
    requires i.Calling?
  {
    var w := i.request.worker;
    if i.call == RegisterWorker then
      if BadCapacity(i.request) then Refuse(db, Invalid, Simple(db, i, now, now, now, d))
      else if WorkerLock(w) in busy then Waits(WorkerLock(w))
      else Goes(Registering(if w in db.workers then Some(db.workers[w]) else None, now))
    else if w !in db.workers then Refuse(db, NotFound, Simple(db, i, now, now, now, d))
    else if WorkerLock(w) in busy then Waits(WorkerLock(w))
    else Goes(AtWorker(db.workers[w], now))
  }

  ghost function TurnRegister(db: Db, now: int, i: Intent, p: Phase, d: Draw): Turn
    requires i.Calling? && p.Registering?
  {
    var row := if p.existing.Some? then p.existing.value
               else Worker(i.request.session, i.request.hostname, i.request.resources, ACTIVE, p.touchedAt);
    var c := Simple(db, i, p.touchedAt, now, now, d);
    if row.session != i.request.session || row.capacity != i.request.resources then Refuse(db, Conflict, c)
    else Publish(db.(workers := db.workers[i.request.worker := row]), i, Registered, c)
  }

  /** The worker's row with its last_heartbeat_at written but not yet published. */
  function TouchedRow(p: Phase): Worker
    requires HasWorker(p)
  {
    p.row.(lastHeartbeatAt := p.touchedAt)
  }

  function WithWorker(db: Db, w: WorkerId, row: Worker): Db {
    db.(workers := db.workers[w := row])
  }

  /** From the locked worker row to the method's own statements. */
  ghost function TurnMethod(db: Db, now: int, busy: set<Lock>, i: Intent, p: Phase, d: Draw): Turn
    requires i.Calling? && p.AtWorker?
  {
    var w := i.request.worker;
    var c := Simple(db, i, p.touchedAt, now, now, d);
    if p.row.session != i.request.session then Refuse(db, Conflict, c)
    else
      match i.call
      case LeaseJob =>
        if p.row.state != ACTIVE then Refuse(db, Conflict, c)
        else Goes(Counted(p.row, p.touchedAt, Usage(db, w)))
      case ReleaseWorker => Publish(WithWorker(db, w, TouchedRow(p).(state := DRAINING)), i, Released, c)
      case Heartbeat =>
        if i.request.attempt == "" then Publish(WithWorker(db, w, TouchedRow(p)), i, StillAlive, c)
        else TurnJob(db, now, busy, i, p, d)
      case RegisterWorker => Refuse(db, Invalid, c)
      case OtherMethod(_) => Refuse(db, Invalid, c)
      case _ => TurnJob(db, now, busy, i, p, d)
  }

  /** SELECT job_id FROM attempts, then the job row FOR UPDATE. */
  ghost function TurnJob(db: Db, now: int, busy: set<Lock>, i: Intent, p: Phase, d: Draw): Turn
    requires i.Calling? && p.AtWorker?
  {
    var a := NamedAttempt(i.request.attempt);
    var c := Simple(db, i, p.touchedAt, now, now, d);
    if !UuidText(i.request.attempt) || !UuidText(i.request.token) then Refuse(db, Invalid, c)
    else if a !in db.attempts || db.attempts[a].job !in db.jobs then Refuse(db, NotFound, c)
    else
      var j := db.attempts[a].job;
      if JobLock(j) in busy then Waits(JobLock(j))
      else Goes(AtJob(p.row, p.touchedAt, a, j, db.jobs[j]))
  }

  /** SELECT ... FROM attempts ... FOR UPDATE, and the fence. */
  ghost function TurnFence(db: Db, now: int, busy: set<Lock>, i: Intent, p: Phase, d: Draw): Turn
    requires i.Calling? && p.AtJob?
  {
    if AttemptLock(p.a) in busy then Waits(AttemptLock(p.a))
    else if p.a !in db.attempts then Undrawn
    else
      var attempt := db.attempts[p.a];
      if !Holds(attempt, p.job, i.request, Met(p.touchedAt, now, now))
      then Refuse(db, Conflict, Simple(db, i, p.touchedAt, now, now, d))
      else Goes(AtAttempt(p.row, p.touchedAt, p.a, p.j, p.job, attempt, now))
  }

  /** Heartbeat and StartAttempt write and commit; a report checks its artifacts first. */
  ghost function TurnWrite(db: Db, now: int, i: Intent, p: Phase, d: Draw): Turn
    requires i.Calling? && p.AtAttempt?
  {
    var c := Simple(db, i, p.touchedAt, p.fencedAt, now, d);
    var mine := WithWorker(db, i.request.worker, TouchedRow(p));
    if i.call == Heartbeat then
      var until := Min(p.attempt.deadlineAt, now + db.leaseMs);
      Publish(mine.(attempts := mine.attempts[p.a := p.attempt.(leaseExpiresAt := until)]), i, Renewed(until, now), c)
    else if i.call == StartAttempt then
      var started := if p.attempt.state != LEASED then mine
                     else mine.(attempts := mine.attempts[p.a := p.attempt.(state := RUNNING, startedAt := Some(now))],
                                jobs := mine.jobs[p.j := p.job.(state := RUNNING, updatedAt := now)]);
      Publish(Record(started, p.j, Some(p.a), Called(StartAttempt), Some(i.request.requestId)), i, Accepted, c)
    else if p.attempt.state != RUNNING then Refuse(db, Conflict, c)
    else if TooLarge(i.request) then Refuse(db, Invalid, c)
    else
      match AddArtifacts(db.artifacts, p.j, p.a, PrefixOf(i, p), i.request.artifacts)
      case Bad(e) => Refuse(db, e, c)
      case Rows(rows) =>
        if |rows| < |db.artifacts| then Undrawn
        else Goes(Checked(p.row, p.touchedAt, p.a, p.j, p.job, p.attempt, p.fencedAt,
                          |db.artifacts|, rows[|db.artifacts|..]))
  }

  function PrefixOf(i: Intent, p: Phase): string
    requires i.Calling? && (p.AtAttempt? || p.Checked?)
  {
    ServerPrefix(p.job.definition.artifactPrefix, p.j.text, i.request.attempt)
  }

  /** Another transaction committed one of the object keys first: the unique index refuses it. */
  predicate KeyRace(db: Db, added: seq<ArtifactRow>) {
    exists k :: 0 <= k < |added| && FindArtifact(db.artifacts, added[k].meta.key).Some?
  }

  ghost function TurnReport(db: Db, now: int, i: Intent, p: Phase, d: Draw): Turn
    requires i.Calling? && p.Checked?
  {
    var c := Simple(db, i, p.touchedAt, p.fencedAt, now, d);
    if KeyRace(db, p.added) then Refuse(db, Internal, c)
    else if i.call == CompleteAttempt && i.request.exitCode != 0 then Refuse(db, Invalid, c)
    else
      var mine := WithWorker(db, i.request.worker, TouchedRow(p)).(artifacts := db.artifacts + p.added);
      var ended := if i.call == FailAttempt then FAILED else SUCCEEDED;
      var next := if i.call == FailAttempt then RetryState(p.attempt.number, p.job.maxAttempts) else SUCCEEDED;
      var finished :=
        if i.call == ReportProgress then mine
        else mine.(attempts := mine.attempts[p.a := p.attempt.(state := ended, finishedAt := Some(now),
                                                               exitCode := Some(i.request.exitCode),
                                                               failureReason := i.request.reason)],
                   jobs := mine.jobs[p.j := p.job.(state := next, updatedAt := now)]);
      Publish(Record(finished, p.j, Some(p.a), Called(i.call), Some(i.request.requestId)), i, Accepted, c)
  }

  // ------------------------------------------------------------------ the statements of a placement

  function Locked(busy: set<Lock>): set<JobId> {
    set l | l in busy && l.JobLock? :: l.job
  }

  function Placing(i: Intent, p: Phase, before: int, now: int, a: AttemptId, token: Token, skipped: set<JobId>): Command
    requires i.Calling? && (p.Counted? || p.Placed?)
  {
    Rpc(i.call, i.request, Circumstances(p.touchedAt, before, before, before, now, a, token, p.seen, skipped))
  }

  /** SELECT ... FOR UPDATE SKIP LOCKED: the first queued job that fits and is not locked. */
  ghost function TurnScan(db: Db, now: int, busy: set<Lock>, i: Intent, p: Phase, d: Draw): Turn
    requires i.Calling? && p.Counted?
  {
    var found := Candidates(db, p.row.capacity.Minus(p.seen), Locked(busy));
    if found == {} then
      Publish(WithWorker(db, i.request.worker, TouchedRow(p)), i, Idle,
              Placing(i, p, now, now, d.a, d.token, db.jobs.Keys))
    else
      var j := First(db.jobs, found);
      Goes(Picked(p.row, p.touchedAt, p.seen, found, j, db.jobs[j]))
  }

  /** INSERT INTO attempts ... RETURNING, under fresh names. */
  ghost function TurnPlace(db: Db, now: int, i: Intent, p: Phase, d: Draw): Turn
    requires i.Calling? && p.Picked?
  {
    var timeout := Timeout(p.job);
    var attempt := Attempt(p.j, Top(db.attempts, p.j) + 1, i.request.worker, LEASED, d.token,
                           now + Min(db.leaseMs, timeout), now + timeout, None, None, None, "");
    Goes(Placed(p.row, p.touchedAt, p.seen, p.pool, p.j, p.job, d.a, attempt, now))
  }

  /** The budget check, the job's update, the read of the checkpoint and the commit. */
  function TurnGrant(db: Db, now: int, i: Intent, p: Phase): Turn
    requires i.Calling? && p.Placed?
  {
    var c := Placing(i, p, p.placedAt, now, p.a, p.attempt.token, db.jobs.Keys - p.pool);
    if p.attempt.number > p.job.maxAttempts then Refuse(db, Internal, c)
    else
      var mine := WithWorker(db, i.request.worker, TouchedRow(p))
                  .(attempts := db.attempts[p.a := p.attempt],
                    jobs := db.jobs[p.j := p.job.(state := LEASED, updatedAt := now)],
                    events := db.events + [Event(p.j, Some(p.a), Granted, Some(i.request.requestId))]);
      Publish(mine, i,
              Leased(Lease(p.j, p.a, p.attempt.number, p.attempt.token, p.attempt.leaseExpiresAt, p.placedAt,
                           LastCheckpoint(db.artifacts, p.j))), c)
  }

  // ------------------------------------------------------------------ cancel, retry, submit, reap

  function TurnActLock(db: Db, now: int, busy: set<Lock>, i: Intent): Turn
    requires i.Acting?
  {
    if i.job !in db.jobs then Refuse(db, NotFound, Act(i.action, i.job, i.requestId, now))
    else if JobLock(i.job) in busy then Waits(JobLock(i.job))
    else Goes(ActingOn(db.jobs[i.job]))
  }

  /** The updates of Action, computed from the job row as it was when it was locked. Cancelling
      takes the lock of the live attempt as well. */
  ghost function TurnAct(db: Db, now: int, busy: set<Lock>, i: Intent, p: Phase): Turn
    requires i.Acting? && p.ActingOn?
  {
    if i.action == Cancel && exists a :: a in LiveOf(db.attempts, i.job) && AttemptLock(a) in busy then
      var a :| a in LiveOf(db.attempts, i.job) && AttemptLock(a) in busy;
      Waits(AttemptLock(a))
    else
      var c := Act(i.action, i.job, i.requestId, now);
      match ActionBody(db.(jobs := db.jobs[i.job := p.job]), i.action, i.job, i.requestId, now)
      case Refused(e) => Refuse(db, e, c)
      case Done(next, response) =>
        Ends(next.(requests := next.requests[KeyOfIntent(i) := Receipt(ActionPayload(i.job), Some(response))]),
             Ok(response), c)
  }

  /** Fresh ids and creation times drawn for a batch while its transaction runs. */
  predicate EntriesFor(db: Db, begun: int, now: int, batch: seq<Definition>, entries: seq<Entry>) {
    && |entries| == |batch|
    && (forall k :: 0 <= k < |batch| ==>
          entries[k].definition == batch[k] && entries[k].id !in db.jobs && begun <= entries[k].at <= now)
    && (forall k, l :: 0 <= k < l < |entries| ==> entries[k].id != entries[l].id)
  }

  /** The advisory locks of a batch, one by one in sorted order, then its insertions. */
  ghost function TurnSubmit(db: Db, begun: int, now: int, busy: set<Lock>, i: Intent, p: Phase, d: Draw): Turn
    requires i.Submitting? && p.Locking?
  {
    var keys := SortedKeys(i.batch);
    if p.n < |keys| then
      if KeyLock(keys[p.n]) in busy then Waits(KeyLock(keys[p.n])) else Goes(Locking(p.n + 1))
    else if !EntriesFor(db, begun, now, i.batch, d.entries) then Undrawn
    else
      match SubmitBody(db, d.entries)
      case Refused(e) => Refuse(db, e, Submit(d.entries))
      case Done(next, response) => Ends(next, Ok(response), Submit(d.entries))
  }

  predicate Distinct(ids: seq<JobId>) {
    forall k, l :: 0 <= k < l < |ids| ==> ids[k] != ids[l]
  }

  /** The snapshot of the reaper's scan: distinct jobs with a lapsed live attempt. */
  predicate Scan(db: Db, now: int, todo: seq<JobId>) {
    Distinct(todo) && forall j :: j in todo ==> j in db.jobs && Reapable(db.attempts, j, now)
  }

  /** FOR UPDATE SKIP LOCKED LIMIT 100: rows of the snapshot are locked one by one. */
  function TurnScanLock(busy: set<Lock>, p: Phase): Turn
    requires p.Scanned?
  {
    if p.todo == [] || |p.locked| >= 100 then Goes(Rechecking(p.locked, []))
    else if JobLock(p.todo[0]) in busy then Goes(Scanned(p.todo[1..], p.locked))
    else Goes(Scanned(p.todo[1..], p.locked + [p.todo[0]]))
  }

  function ApplyHits(db: Db, hits: seq<Hit>): Db
    decreases |hits|
  {
    if hits == [] then db
    else
      var h := hits[0];
      var next := if h.expired.Some? && h.expired.value in db.attempts && db.attempts[h.expired.value].job in db.jobs
                  then ExpireAttempt(db, h.expired.value, h.slot.at) else db;
      ApplyHits(next, hits[1..])
  }

  function CountHits(hits: seq<Hit>): nat {
    if hits == [] then 0 else (if hits[0].expired.Some? then 1 else 0) + CountHits(hits[1..])
  }

  function Slots(hits: seq<Hit>): seq<Slot> {
    seq(|hits|, k requires 0 <= k < |hits| => hits[k].slot)
  }

  /** The loop over the locked jobs: recheck under the lock, expire if still lapsed, commit. */
  ghost function TurnRecheck(db: Db, now: int, busy: set<Lock>, p: Phase): Turn
    requires p.Rechecking?
  {
    if |p.hits| < |p.locked| then
      var j := p.locked[|p.hits|];
      if j in db.jobs && Reapable(db.attempts, j, now) then
        var a :| a in db.attempts && ExpiredLive(db.attempts, j, now, a);
        if AttemptLock(a) in busy then Waits(AttemptLock(a))
        else Goes(Rechecking(p.locked, p.hits + [Hit(Slot(j, now), Some(a))]))
      else Goes(Rechecking(p.locked, p.hits + [Hit(Slot(j, now), None)]))
    else Ends(ApplyHits(db, p.hits), Ok(Reaped(CountHits(p.hits))), Reap(Slots(p.hits)))
  }

  // ------------------------------------------------------------------ one statement of one transaction

  /** scheduler.ID() never repeats a name, committed or not. */
  predicate FreshDraw(db: Db, busy: set<Lock>, d: Draw) {
    d.a !in db.attempts && AttemptLock(d.a) !in busy
  }

  ghost function TurnOf(db: Db, now: int, busy: set<Lock>, tx: Tx, d: Draw): Turn {
    var i := tx.intent;
    var p := tx.phase;
    if !Fits(i, p) || !FreshDraw(db, busy, d) then Undrawn
    else
      match p
      case Opening =>
        if i.Submitting? then Goes(Locking(0))
        else if i.Reaping? then if Scan(db, now, d.todo) then Goes(Scanned(d.todo, [])) else Undrawn
        else TurnClaim(db, now, busy, i, d)
      case Claimed => if i.Calling? then TurnWorker(db, now, busy, i, d) else TurnActLock(db, now, busy, i)
      case Registering(_, _) => TurnRegister(db, now, i, p, d)
      case AtWorker(_, _) => TurnMethod(db, now, busy, i, p, d)
      case Counted(_, _, _) => TurnScan(db, now, busy, i, p, d)
      case Picked(_, _, _, _, _, _) => TurnPlace(db, now, i, p, d)
      case Placed(_, _, _, _, _, _, _, _, _) => TurnGrant(db, now, i, p)
      case AtJob(_, _, _, _, _) => TurnFence(db, now, busy, i, p, d)
      case AtAttempt(_, _, _, _, _, _, _) => TurnWrite(db, now, i, p, d)
      case Checked(_, _, _, _, _, _, _, _, _) => TurnReport(db, now, i, p, d)
      case ActingOn(_) => TurnAct(db, now, busy, i, p)
      case Locking(_) => TurnSubmit(db, tx.begun, now, busy, i, p, d)
      case Scanned(_, _) => TurnScanLock(busy, p)
      case Rechecking(_, _) => TurnRecheck(db, now, busy, p)
  }

  /** The committed tables, the clock, and the transactions under way. */
  datatype World = World(db: Db, now: int, txs: map<nat, Tx>)

  ghost function Busy(txs: map<nat, Tx>, t: nat): set<Lock> {
    set u, l | u in txs && u != t && l in Held(txs[u]) :: l
  }

  datatype Micro =
    | Tick(ms: nat)
    | Begin(t: nat, intent: Intent)
    | Run(t: nat, d: Draw)
    | Rollback(t: nat)

  /** What is refused before a transaction is even begun. */
  predicate Admissible(i: Intent) {
    match i
    case Calling(_, r) => NamedSender(r) && 1 <= |r.requestId.text| <= 256
    case Acting(_, _, id) => 1 <= |id.text| <= 256
    case Submitting(batch) =>
      1 <= |batch| <= 1000 && forall k :: 0 <= k < |batch| ==> batch[k].Validate()
    case Reaping => true
  }

  ghost function TurnIn(w: World, t: nat, d: Draw): Turn
    requires t in w.txs
  {
    TurnOf(w.db, w.now, Busy(w.txs, t), w.txs[t], d)
  }

  ghost function Next(w: World, m: Micro): World {
    match m
    case Tick(ms) => w.(now := w.now + ms)
    case Begin(t, intent) =>
      if t in w.txs || !Admissible(intent) then w
      else w.(txs := w.txs[t := Tx(intent, w.now, Opening)])
    case Rollback(t) => w.(txs := w.txs - {t})
    case Run(t, d) =>
      if t !in w.txs then w
      else
        match TurnIn(w, t, d)
        case Goes(phase) => w.(txs := w.txs[t := w.txs[t].(phase := phase)])
        case Ends(db, _, _) => World(db, w.now, w.txs - {t})
        case Waits(_) => w
        case Undrawn => w
  }
}
