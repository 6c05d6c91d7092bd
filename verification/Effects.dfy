/** What every operation answers and leaves behind, decided case by case from the request and the
    rows it names. */
module Effects {
  import opened Model
  import opened ObjectKeys
  import opened Transactions
  import opened Invariant
  import opened Steps
  import opened Catalogue

  /** A new request of a registered worker in its session, with names of admissible length. */
  ghost predicate InSession(db: Db, call: Method, r: Request) {
    && 1 <= |r.worker.text| <= 256 && 1 <= |r.session.text| <= 256 && 1 <= |r.requestId.text| <= 256
    && Key(RpcScope(call, r.worker), r.requestId) !in db.requests
    && r.worker in db.workers && db.workers[r.worker].session == r.session
  }

  /** The tables with the worker seen and the answer recorded. */
  ghost function Recorded(db: Db, call: Method, r: Request, at: int, response: Response): Db
    requires r.worker in db.workers
  {
    db.(workers := db.workers[r.worker := db.workers[r.worker].(lastHeartbeatAt := at)],
        requests := db.requests[Key(RpcScope(call, r.worker), r.requestId) := Receipt(RpcPayload(r), Some(response))])
  }

  lemma FreshCall(db: Db, call: Method, r: Request, met: Circumstances)
    requires InSession(db, call, r) && call != RegisterWorker
    ensures var o := Dispatch(Touched(db, r.worker, met.touchedAt), call, r, met);
            Apply(db, Rpc(call, r, met))
            == if o.Refused? then (db, Err(o.error))
               else (o.db.(requests := o.db.requests[RpcKey(call, r) := Receipt(RpcPayload(r), Some(o.response))]), Ok(o.response))
  {
  }

  // ------------------------------------------------------------------ the fence

  predicate OnAttemptCall(call: Method) {
    call in {Heartbeat, StartAttempt, ReportProgress, CompleteAttempt, FailAttempt}
  }

  /** The request names attempt `a` as the holder of its lease does. */
  predicate Presents(r: Request, a: AttemptId, row: Attempt) {
    NamedAttempt(r.attempt) == a && r.worker == row.worker && r.token == row.token.text
  }

  /** The request does not come from the holder, or the attempt has ended, or its time has run out. */
  predicate Barred(r: Request, a: AttemptId, row: Attempt, met: Circumstances) {
    !Presents(r, a, row) || row.state !in {LEASED, RUNNING} || row.leaseExpiresAt <= met.t0 || row.deadlineAt <= met.t1
  }

  lemma FenceBody(db: Db, call: Method, r: Request, met: Circumstances)
    requires Sound(db) && OnAttemptCall(call)
    ensures var o, a := OnAttempt(db, call, r, met), NamedAttempt(r.attempt);
            if !UuidText(r.attempt) || !UuidText(r.token) then o == Refused(Invalid)
            else if a !in db.attempts then o == Refused(NotFound)
            else
              var row := db.attempts[a];
              && row.job in db.jobs
              && if Barred(r, a, row, met) then o == Refused(Conflict)
                 else o == if call == Heartbeat then Renew(db, a, met)
                           else if call == StartAttempt then Start(db, a, r, met)
                           else Report(db, call, a, r, met)
  {
    var a := NamedAttempt(r.attempt);
    if a in db.attempts {
      assert AttemptOk(db.jobs, db.attempts, db.workers, a);
      if Live(db.attempts[a].state) { LiveIsTop(db, a); }
    }
  }

  /** The call is on an attempt, and names one: a heartbeat need not. */
  predicate NamesAttempt(call: Method, r: Request) {
    OnAttemptCall(call) && !(call == Heartbeat && r.attempt == "")
  }

  lemma AttemptCall(db: Db, call: Method, r: Request, met: Circumstances)
    requires InSession(db, call, r) && NamesAttempt(call, r)
    ensures Dispatch(Touched(db, r.worker, met.touchedAt), call, r, met) == OnAttempt(Touched(db, r.worker, met.touchedAt), call, r, met)
  {
  }

  lemma TouchedSound(db: Db, w: WorkerId, at: int)
    requires Inv(db) && w in db.workers
    ensures Sound(Touched(db, w, at))
  {
    TouchedKeeps(db, w, at);
  }

  /** A call on an attempt is refused by the fence exactly when the attempt is unknown or the request
      barred: the holder of a good lease always gets through. */
  lemma FenceExactly(db: Db, call: Method, r: Request, met: Circumstances)
    requires Inv(db) && InSession(db, call, r) && NamesAttempt(call, r)
    ensures var result, a := Apply(db, Rpc(call, r, met)).1, NamedAttempt(r.attempt);
            if !UuidText(r.attempt) || !UuidText(r.token) then result == Err(Invalid)
            else if a !in db.attempts then result == Err(NotFound)
            else if Barred(r, a, db.attempts[a], met) then result == Err(Conflict)
            else call in {Heartbeat, StartAttempt} ==> result.Ok?
  {
    FreshCall(db, call, r, met);
    AttemptCall(db, call, r, met);
    TouchedSound(db, r.worker, met.touchedAt);
    FenceBody(Touched(db, r.worker, met.touchedAt), call, r, met);
  }

  /** The request passes the fence of attempt `a`. */
  ghost predicate Passes(db: Db, call: Method, r: Request, met: Circumstances, a: AttemptId) {
    && Inv(db) && InSession(db, call, r) && NamesAttempt(call, r)
    && UuidText(r.attempt) && UuidText(r.token) && a == NamedAttempt(r.attempt)
    && a in db.attempts && !Barred(r, a, db.attempts[a], met)
  }

  lemma PassedBody(db: Db, call: Method, r: Request, met: Circumstances, a: AttemptId)
    requires Passes(db, call, r, met, a)
    ensures var touched := Touched(db, r.worker, met.touchedAt);
            && db.attempts[a].job in db.jobs
            && Dispatch(touched, call, r, met)
               == if call == Heartbeat then Renew(touched, a, met)
                  else if call == StartAttempt then Start(touched, a, r, met)
                  else Report(touched, call, a, r, met)
  {
    AttemptCall(db, call, r, met);
    TouchedSound(db, r.worker, met.touchedAt);
    FenceBody(Touched(db, r.worker, met.touchedAt), call, r, met);
  }

  // ------------------------------------------------------------------ heartbeat and start

  /** A heartbeat of the holder renews the lease by a lease time, up to the deadline, and says so. */
  lemma HeartbeatRenews(db: Db, r: Request, met: Circumstances, a: AttemptId)
    requires Passes(db, Heartbeat, r, met, a)
    ensures var row := db.attempts[a];
            var until := if row.deadlineAt < met.t2 + db.leaseMs then row.deadlineAt else met.t2 + db.leaseMs;
            var response := Renewed(until, met.t3);
            Apply(db, Rpc(Heartbeat, r, met))
            == (Recorded(db.(attempts := db.attempts[a := row.(leaseExpiresAt := until)]), Heartbeat, r, met.touchedAt, response),
                Ok(response))
  {
    FreshCall(db, Heartbeat, r, met);
    PassedBody(db, Heartbeat, r, met, a);
  }

  /** The first start turns attempt and job to RUNNING; another one leaves them so. */
  lemma StartRuns(db: Db, r: Request, met: Circumstances, a: AttemptId)
    requires Passes(db, StartAttempt, r, met, a)
    ensures var row := db.attempts[a];
            && row.job in db.jobs
            && var ran := if row.state == LEASED then row.(state := RUNNING, startedAt := Some(met.t2)) else row;
            var job := if row.state == LEASED then db.jobs[row.job].(state := RUNNING, updatedAt := met.t3) else db.jobs[row.job];
            && ran.state == RUNNING && job.state == RUNNING
            && Apply(db, Rpc(StartAttempt, r, met))
               == (Recorded(db.(attempts := db.attempts[a := ran], jobs := db.jobs[row.job := job],
                                events := db.events + [Event(row.job, Some(a), Called(StartAttempt), Some(r.requestId))]),
                            StartAttempt, r, met.touchedAt, Accepted), Ok(Accepted))
  {
    FreshCall(db, StartAttempt, r, met);
    PassedBody(db, StartAttempt, r, met, a);
    LiveIsTop(db, a);
    var row := db.attempts[a];
    assert db.attempts[a := row] == db.attempts && db.jobs[row.job := db.jobs[row.job]] == db.jobs;
  }

  // ------------------------------------------------------------------ reports

  predicate WithinLimits(r: Request) {
    |r.logs| <= 100 && |r.artifacts| <= 100 && |r.reason| <= 8192
    && forall i :: 0 <= i < |r.logs| ==> |r.logs[i]| <= 16384
  }

  /** The row of an attempt that ended by report. */
  function Ended(row: Attempt, call: Method, r: Request, at: int): Attempt {
    if call == ReportProgress then row
    else row.(state := if call == FailAttempt then FAILED else SUCCEEDED, finishedAt := Some(at),
              exitCode := Some(r.exitCode), failureReason := r.reason)
  }

  /** And of its job: done, queued again while attempts are left, or failed. */
  function JobAfter(job: Job, number: int, call: Method, at: int): Job {
    if call == ReportProgress then job
    else job.(state := if call == CompleteAttempt then SUCCEEDED else if number < job.maxAttempts then QUEUED else FAILED,
              updatedAt := at)
  }

  lemma ReportBody(db: Db, call: Method, r: Request, met: Circumstances, a: AttemptId)
    requires a in db.attempts && db.attempts[a].job in db.jobs && DistinctObjects(db.artifacts)
    requires call in {ReportProgress, CompleteAttempt, FailAttempt}
    ensures var o, row, job := Report(db, call, a, r, met), db.attempts[a], db.jobs[db.attempts[a].job];
            var prefix := ServerPrefix(job.definition.artifactPrefix, row.job.text, r.attempt);
            if row.state != RUNNING then o == Refused(Conflict)
            else if !WithinLimits(r) then o == Refused(Invalid)
            else if !Fileable(db.artifacts, prefix, r.artifacts) then o == Refused(Invalid) || o == Refused(Conflict)
            else if call == CompleteAttempt && r.exitCode != 0 then o == Refused(Invalid)
            else o == Done(db.(attempts := db.attempts[a := Ended(row, call, r, met.t2)],
                               jobs := db.jobs[row.job := JobAfter(job, row.number, call, met.t3)],
                               artifacts := db.artifacts + Brought(db.artifacts, row.job, a, r.artifacts, |r.artifacts|),
                               events := db.events + [Event(row.job, Some(a), Called(call), Some(r.requestId))]), Accepted)
  {
    var row, job := db.attempts[a], db.jobs[db.attempts[a].job];
    ReportFiles(db.artifacts, row.job, a, ServerPrefix(job.definition.artifactPrefix, row.job.text, r.attempt), r.artifacts);
    assert db.attempts[a := row] == db.attempts && db.jobs[row.job := job] == db.jobs;
  }

  /** What a report that passes the fence is answered, and what it leaves: exit code and reason in the
      row, the job done, queued again or failed, and one row for each object key it brings. */
  lemma ReportDecides(db: Db, call: Method, r: Request, met: Circumstances, a: AttemptId)
    requires Passes(db, call, r, met, a) && Catalogued(db) && call in {ReportProgress, CompleteAttempt, FailAttempt}
    ensures var row := db.attempts[a];
            && row.job in db.jobs
            && var job, (after, result) := db.jobs[row.job], Apply(db, Rpc(call, r, met));
            var prefix := ServerPrefix(job.definition.artifactPrefix, row.job.text, r.attempt);
            if row.state != RUNNING then result == Err(Conflict)
            else if !WithinLimits(r) then result == Err(Invalid)
            else if !Fileable(db.artifacts, prefix, r.artifacts) then result == Err(Invalid) || result == Err(Conflict)
            else if call == CompleteAttempt && r.exitCode != 0 then result == Err(Invalid)
            else && result == Ok(Accepted)
                 && after == Recorded(db.(attempts := db.attempts[a := Ended(row, call, r, met.t2)],
                                          jobs := db.jobs[row.job := JobAfter(job, row.number, call, met.t3)],
                                          artifacts := db.artifacts + Brought(db.artifacts, row.job, a, r.artifacts, |r.artifacts|),
                                          events := db.events + [Event(row.job, Some(a), Called(call), Some(r.requestId))]),
                                      call, r, met.touchedAt, Accepted)
  {
    FreshCall(db, call, r, met);
    PassedBody(db, call, r, met, a);
    ReportBody(Touched(db, r.worker, met.touchedAt), call, r, met, a);
  }

  // ------------------------------------------------------------------ leases

  /** The row of a new lease: it runs for the lease time or the job's timeout, whichever is shorter,
      and its deadline is the timeout away, both in seconds of the definition. */
  function Granted(d: Definition, j: JobId, number: int, w: WorkerId, leaseMs: int, met: Circumstances): Attempt {
    var timeout := 1000 * d.timeoutSeconds;
    Attempt(j, number, w, LEASED, met.token, met.t0 + (if leaseMs < timeout then leaseMs else timeout), met.t1 + timeout,
            None, None, None, "")
  }

  lemma GrantBody(db: Db, r: Request, capacity: Resources, met: Circumstances)
    requires LeaseNext(db, r, capacity, met).Done? && LeaseNext(db, r, capacity, met).response.Leased?
    ensures var o := LeaseNext(db, r, capacity, met);
            var j, number := o.response.lease.job, o.response.lease.number;
            && j in db.jobs && number == Top(db.attempts, j) + 1
            && var row := Granted(db.jobs[j].definition, j, number, r.worker, db.leaseMs, met);
            && o.response.lease == Lease(j, met.attempt, number, met.token, row.leaseExpiresAt, met.t2, LastCheckpoint(db.artifacts, j))
            && o.db == db.(attempts := db.attempts[met.attempt := row],
                           jobs := db.jobs[j := db.jobs[j].(state := LEASED, updatedAt := met.t3)],
                           events := db.events + [Event(j, Some(met.attempt), EventKind.Granted, Some(r.requestId))])
  {
  }

  /** What a granted lease says and what it leaves behind. */
  lemma LeaseGrants(db: Db, r: Request, met: Circumstances)
    requires Inv(db) && InSession(db, LeaseJob, r)
    requires Apply(db, Rpc(LeaseJob, r, met)).1.Ok? && Apply(db, Rpc(LeaseJob, r, met)).1.response.Leased?
    ensures var (after, result) := Apply(db, Rpc(LeaseJob, r, met));
            var j, number := result.response.lease.job, result.response.lease.number;
            && j in db.jobs && number == Top(db.attempts, j) + 1
            && var row := Granted(db.jobs[j].definition, j, number, r.worker, db.leaseMs, met);
            && result.response.lease
               == Lease(j, met.attempt, number, met.token, row.leaseExpiresAt, met.t2, LastCheckpoint(db.artifacts, j))
            && after == Recorded(db.(attempts := db.attempts[met.attempt := row],
                                     jobs := db.jobs[j := db.jobs[j].(state := LEASED, updatedAt := met.t3)],
                                     events := db.events + [Event(j, Some(met.attempt), EventKind.Granted, Some(r.requestId))]),
                                 LeaseJob, r, met.touchedAt, result.response)
  {
    var touched := Touched(db, r.worker, met.touchedAt);
    FreshCall(db, LeaseJob, r, met);
    GrantBody(touched, r, touched.workers[r.worker].capacity, met);
  }

  // ------------------------------------------------------------------ workers

  lemma ReleaseBody(db: Db, r: Request, met: Circumstances)
    requires r.worker in db.workers
    ensures var row := db.workers[r.worker].(state := DRAINING, lastHeartbeatAt := met.touchedAt);
            Dispatch(Touched(db, r.worker, met.touchedAt), ReleaseWorker, r, met)
            == Done(db.(workers := db.workers[r.worker := row]), Released)
  {
  }

  /** A released worker drains. */
  lemma ReleaseDrains(db: Db, r: Request, met: Circumstances)
    requires InSession(db, ReleaseWorker, r)
    ensures Apply(db, Rpc(ReleaseWorker, r, met))
         == (Recorded(db.(workers := db.workers[r.worker := db.workers[r.worker].(state := DRAINING)]),
                      ReleaseWorker, r, met.touchedAt, Released), Ok(Released))
  {
    FreshCall(db, ReleaseWorker, r, met);
    ReleaseBody(db, r, met);
    var row := db.workers[r.worker].(state := DRAINING);
    assert db.workers[r.worker := row][r.worker := row.(lastHeartbeatAt := met.touchedAt)]
        == db.workers[r.worker := row.(lastHeartbeatAt := met.touchedAt)];
  }

  /** And gets no more leases. */
  lemma DrainingGetsNoLease(db: Db, r: Request, met: Circumstances)
    requires InSession(db, LeaseJob, r) && db.workers[r.worker].state == DRAINING
    ensures Apply(db, Rpc(LeaseJob, r, met)) == (db, Err(Conflict))
  {
    FreshCall(db, LeaseJob, r, met);
    DrainingBody(db, r, met);
  }

  /** A bare heartbeat only shows that the worker lives; a method nobody knows is invalid. */
  lemma OtherCallDecides(db: Db, call: Method, r: Request, met: Circumstances)
    requires InSession(db, call, r) && call !in {RegisterWorker, LeaseJob, ReleaseWorker} && !NamesAttempt(call, r)
    ensures Apply(db, Rpc(call, r, met))
         == if call == Heartbeat then (Recorded(db, call, r, met.touchedAt, StillAlive), Ok(StillAlive)) else (db, Err(Invalid))
  {
    FreshCall(db, call, r, met);
    OtherBody(db, call, r, met);
  }

  lemma DrainingBody(db: Db, r: Request, met: Circumstances)
    requires r.worker in db.workers
    ensures db.workers[r.worker].state == DRAINING ==>
              Dispatch(Touched(db, r.worker, met.touchedAt), LeaseJob, r, met) == Refused(Conflict)
  {
  }

  lemma OtherBody(db: Db, call: Method, r: Request, met: Circumstances)
    requires r.worker in db.workers && call != LeaseJob && call != ReleaseWorker && !NamesAttempt(call, r)
    ensures Dispatch(Touched(db, r.worker, met.touchedAt), call, r, met)
         == if call == Heartbeat then Done(Touched(db, r.worker, met.touchedAt), StillAlive) else Refused(Invalid)
  {
  }

  /** A call of a worker that is not registered, or in another session than it registered with. */
  lemma StrangersRefused(db: Db, call: Method, r: Request, met: Circumstances)
    requires 1 <= |r.worker.text| <= 256 && 1 <= |r.session.text| <= 256 && 1 <= |r.requestId.text| <= 256
    requires Key(RpcScope(call, r.worker), r.requestId) !in db.requests && call != RegisterWorker
    requires r.worker in db.workers ==> db.workers[r.worker].session != r.session
    ensures Apply(db, Rpc(call, r, met)) == (db, Err(if r.worker in db.workers then Conflict else NotFound))
  {
  }

  predicate Capable(r: Resources) {
    1 <= r.cpu <= 1000000 && 1 <= r.memoryMb <= 1000000000 && 0 <= r.gpu <= 1000000
  }

  /** Registration: a new worker comes in active; one that is there is confirmed if it comes in the
      same session with the same capacity, and nothing of it changes. */
  lemma RegisterDecides(db: Db, r: Request, met: Circumstances)
    requires 1 <= |r.worker.text| <= 256 && 1 <= |r.session.text| <= 256 && 1 <= |r.requestId.text| <= 256
    requires Key(RpcScope(RegisterWorker, r.worker), r.requestId) !in db.requests
    ensures var (after, result) := Apply(db, Rpc(RegisterWorker, r, met));
            if !Capable(r.resources) then after == db && result == Err(Invalid)
            else if r.worker in db.workers
                    && (db.workers[r.worker].session != r.session || db.workers[r.worker].capacity != r.resources)
              then after == db && result == Err(Conflict)
            else && result == Ok(Registered)
                 && after.workers == (if r.worker in db.workers then db.workers
                                      else db.workers[r.worker := Worker(r.session, r.hostname, r.resources, ACTIVE, met.touchedAt)])
                 && after == db.(workers := after.workers,
                                 requests := db.requests[Key(RpcScope(RegisterWorker, r.worker), r.requestId)
                                                         := Receipt(RpcPayload(r), Some(Registered))])
  {
  }

  /** Requests without usable names are invalid, whatever else they ask. */
  lemma NamelessRefused(db: Db, c: Command)
    requires c.Rpc? ==> !(1 <= |c.request.worker.text| <= 256 && 1 <= |c.request.session.text| <= 256 && 1 <= |c.request.requestId.text| <= 256)
    requires c.Act? ==> !(1 <= |c.requestId.text| <= 256)
    requires c.Rpc? || c.Act?
    ensures Apply(db, c) == (db, Err(Invalid))
  {
  }

  // ------------------------------------------------------------------ cancel and retry

  /** A new action with a name of admissible length. */
  predicate FreshAction(db: Db, action: Action, id: RequestId) {
    1 <= |id.text| <= 256 && Key(ActionScope(action), id) !in db.requests
  }

  /** The tables with the action announced and its answer recorded. */
  function Actioned(db: Db, action: Action, j: JobId, id: RequestId, response: Response): Db {
    db.(events := db.events + [Event(j, None, Acted(action), Some(id))],
        requests := db.requests[Key(ActionScope(action), id) := Receipt(ActionPayload(j), Some(response))])
  }

  /** A cancellation is refused exactly for a job that is unknown or has its result; otherwise the job
      and its live attempt end as CANCELLED, no other row changes, and the answer shows the job. */
  lemma CancelDecides(db: Db, j: JobId, id: RequestId, at: int)
    requires Inv(db) && FreshAction(db, Cancel, id)
    ensures var (after, result) := Apply(db, Act(Cancel, j, id, at));
            if j !in db.jobs then after == db && result == Err(NotFound)
            else if db.jobs[j].state in {SUCCEEDED, FAILED} then after == db && result == Err(Conflict)
            else
              && j in after.jobs && after.jobs[j] == db.jobs[j].(state := CANCELLED, updatedAt := at)
              && LiveOf(after.attempts, j) == {}
              && after.attempts.Keys == db.attempts.Keys
              && (forall a :: a in db.attempts ==>
                    after.attempts[a] == if db.attempts[a].job == j && db.attempts[a].state in {LEASED, RUNNING}
                                         then db.attempts[a].(state := CANCELLED, finishedAt := Some(at), failureReason := "cancelled")
                                         else db.attempts[a])
              && result == Ok(JobView(j, after.jobs[j]))
              && after == Actioned(db.(jobs := db.jobs[j := after.jobs[j]], attempts := after.attempts), Cancel, j, id, result.response)
  {
    if j in db.jobs && db.jobs[j].state == CANCELLED { NothingLive(db, j); }
  }

  /** A retry is for failed jobs only: it queues the job again with one more attempt allowed. */
  lemma RetryDecides(db: Db, j: JobId, id: RequestId, at: int)
    requires FreshAction(db, Retry, id)
    ensures var (after, result) := Apply(db, Act(Retry, j, id, at));
            if j !in db.jobs then after == db && result == Err(NotFound)
            else if db.jobs[j].state != FAILED then after == db && result == Err(Conflict)
            else
              var job := db.jobs[j].(state := QUEUED, maxAttempts := db.jobs[j].maxAttempts + 1, updatedAt := at);
              && result == Ok(JobView(j, job))
              && after == Actioned(db.(jobs := db.jobs[j := job]), Retry, j, id, result.response)
  {
  }
}
