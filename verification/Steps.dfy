/** From transactions to moves: every command of the store is a sequence of lawful moves. */
module Steps {
  import opened Model
  import opened Collections
  import opened ObjectKeys
  import opened Transactions
  import opened Invariant
  import opened Moves
  import opened Evolution

  /** What the database and the clock guarantee of a command's circumstances. */
  ghost predicate Legal(db: Db, c: Command) {
    match c
    case Submit(batch) =>
      && (forall i :: 0 <= i < |batch| ==> batch[i].id !in db.jobs)
      && (forall i, k :: 0 <= i < k < |batch| ==> batch[i].id != batch[k].id)
    case Rpc(call, r, met) =>
      && met.touchedAt <= met.t0 <= met.t1 <= met.t2 <= met.t3
      && (call == LeaseJob ==> met.attempt !in db.attempts && Usage(db, r.worker).AtMost(met.seen))
      && (call == Heartbeat && NamedAttempt(r.attempt) in db.attempts ==>
            db.attempts[NamedAttempt(r.attempt)].leaseExpiresAt <= met.t2 + db.leaseMs)
    case Act(_, _, _, _) => true
    case Reap(_) => true
  }

  predicate OfAttempt(attempts: map<AttemptId, Attempt>, row: ArtifactRow) {
    row.attempt in attempts && attempts[row.attempt].job == row.job
  }

  /** Every artifact belongs to an attempt at its job, and the attempts that committed artifacts
      of one job did so in the order of their numbers. */
  ghost predicate ArtifactsInOrder(attempts: map<AttemptId, Attempt>, rows: seq<ArtifactRow>) {
    && (forall i :: 0 <= i < |rows| ==> OfAttempt(attempts, rows[i]))
    && (forall i, k :: 0 <= i < k < |rows| && rows[i].job == rows[k].job ==>
          attempts[rows[i].attempt].number <= attempts[rows[k].attempt].number)
  }

  /** A committed receipt carries its response. */
  ghost predicate Answered(requests: map<Key, Receipt>) {
    forall k :: k in requests ==> requests[k].response.Some?
  }

  ghost predicate Inv(db: Db) {
    && 2000 <= db.leaseMs
    && Sound(db)
    && WithinCapacity(db)
    && ArtifactsInOrder(db.attempts, db.artifacts)
    && Answered(db.requests)
  }

  /** The rows added at the end of the artifacts belong to live attempts. */
  ghost predicate ArtifactsAdded(db: Db, after: Db) {
    && db.artifacts <= after.artifacts
    && forall i :: |db.artifacts| <= i < |after.artifacts| ==>
         OfAttempt(db.attempts, after.artifacts[i]) && Live(db.attempts[after.artifacts[i].attempt].state)
  }

  ghost predicate Carries(db: Db, after: Db) {
    && after.leaseMs == db.leaseMs
    && WorkersEvolve(db.workers, after.workers)
    && after.requests == db.requests
    && ArtifactsAdded(db, after)
    && db.events <= after.events
  }

  ghost predicate Moved(db: Db, c: Command, after: Db, m: Option<Move>) {
    && Carries(db, after)
    && var base := db.(workers := after.workers);
    match m
    case None => after.jobs == db.jobs && after.attempts == db.attempts
    case Some(x) =>
      Lawful(base, c, x) && after.jobs == Patch(base, x).jobs && after.attempts == Patch(base, x).attempts
  }

  // ------------------------------------------------------------------ one move per worker call

  lemma RegisterMove(db: Db, r: Request, met: Circumstances)
    ensures Register(db, r, met.touchedAt).Done? ==>
              Moved(db, Rpc(RegisterWorker, r, met), Register(db, r, met.touchedAt).db, None)
  {
  }

  lemma GrantMove(db: Db, j: JobId, r: Request, met: Circumstances) returns (m: Option<Move>)
    requires Sound(db) && j in db.jobs && db.jobs[j].state == QUEUED && r.worker in db.workers
    requires met.t0 <= met.t1 && met.attempt !in db.attempts
    requires r.session == db.workers[r.worker].session
    requires Usage(db, r.worker).Plus(db.jobs[j].definition.resources).AtMost(db.workers[r.worker].capacity)
    ensures GrantLease(db, j, r, met).Done?
    ensures Moved(db, Rpc(LeaseJob, r, met), GrantLease(db, j, r, met).db, m)
  {
    var row := NewAttempt(db, j, r.worker, met);
    assert JobOk(db.jobs, db.attempts, j);
    assert LiveOf(db.attempts, j) == {} by {
      forall a | a in db.attempts && db.attempts[a].job == j ensures !Live(db.attempts[a].state) {
        assert AttemptOk(db.jobs, db.attempts, db.workers, a);
      }
    }
    MaxOfBound(Numbers(db.attempts, j));
    assert row.number !in Numbers(db.attempts, j).Values;
    m := Some(Grant(met.attempt, row, db.jobs[j].(state := LEASED, updatedAt := met.t3)));
    assert db == db.(workers := db.workers);
  }

  lemma RenewMove(db: Db, r: Request, met: Circumstances, a: AttemptId) returns (m: Option<Move>)
    requires Sound(db) && a in db.attempts && a == NamedAttempt(r.attempt)
    requires db.attempts[a].job in db.jobs && Holds(db.attempts[a], db.jobs[db.attempts[a].job], r, met)
    requires r.worker in db.workers && r.session == db.workers[r.worker].session
    requires db.attempts[a].leaseExpiresAt <= met.t2 + db.leaseMs
    ensures Moved(db, Rpc(Heartbeat, r, met), Renew(db, a, met).db, m)
  {
    LiveIsTop(db, a);
    var row := db.attempts[a];
    assert AttemptOk(db.jobs, db.attempts, db.workers, a);
    assert JobOk(db.jobs, db.attempts, row.job);
    m := Some(Rewrite(a, Renew(db, a, met).db.attempts[a], db.jobs[row.job]));
    assert db == db.(workers := db.workers);
    assert db.jobs[row.job := db.jobs[row.job]] == db.jobs;
  }

  lemma StartMove(db: Db, r: Request, met: Circumstances, a: AttemptId) returns (m: Option<Move>)
    requires Sound(db) && a in db.attempts && a == NamedAttempt(r.attempt)
    requires db.attempts[a].job in db.jobs && Holds(db.attempts[a], db.jobs[db.attempts[a].job], r, met)
    requires r.worker in db.workers && r.session == db.workers[r.worker].session
    ensures Moved(db, Rpc(StartAttempt, r, met), Start(db, a, r, met).db, m)
  {
    LiveIsTop(db, a);
    var row := db.attempts[a];
    assert AttemptOk(db.jobs, db.attempts, db.workers, a);
    assert JobOk(db.jobs, db.attempts, row.job);
    var after := Start(db, a, r, met).db;
    assert db == db.(workers := db.workers);
    m := if row.state == LEASED then Some(Rewrite(a, after.attempts[a], after.jobs[row.job])) else None;
  }

  /** Only rows of the reporting attempt are added, at the end. */
  lemma {:induction false} AddedArtifacts(rows: seq<ArtifactRow>, j: JobId, a: AttemptId, prefix: string, list: seq<Artifact>)
    requires AddArtifacts(rows, j, a, prefix, list).Rows?
    ensures var out := AddArtifacts(rows, j, a, prefix, list).rows;
            rows <= out && forall i :: |rows| <= i < |out| ==> out[i].job == j && out[i].attempt == a
    decreases |list|
  {
    if list != [] {
      if FindArtifact(rows, list[0].key).Some? {
        AddedArtifacts(rows, j, a, prefix, list[1..]);
      } else {
        AddedArtifacts(rows + [ArtifactRow(j, a, list[0])], j, a, prefix, list[1..]);
      }
    }
  }

  lemma {:induction false} ArtifactErrors(rows: seq<ArtifactRow>, j: JobId, a: AttemptId, prefix: string, list: seq<Artifact>)
    ensures AddArtifacts(rows, j, a, prefix, list) != Bad(Internal)
    decreases |list|
  {
    if list != [] {
      ArtifactErrors(rows, j, a, prefix, list[1..]);
      ArtifactErrors(rows + [ArtifactRow(j, a, list[0])], j, a, prefix, list[1..]);
    }
  }

  lemma FinishMove(db: Db, call: Method, r: Request, met: Circumstances, a: AttemptId) returns (m: Move)
    requires Sound(db) && a in db.attempts && a == NamedAttempt(r.attempt)
    requires call == FailAttempt || (call == CompleteAttempt && r.exitCode == 0)
    requires db.attempts[a].state == RUNNING
    requires db.attempts[a].job in db.jobs && Holds(db.attempts[a], db.jobs[db.attempts[a].job], r, met)
    requires r.worker in db.workers && r.session == db.workers[r.worker].session
    ensures Lawful(db, Rpc(call, r, met), m) && Patch(db, m) == Finish(db, call, a, r, met)
  {
    LiveIsTop(db, a);
    var row := db.attempts[a];
    assert AttemptOk(db.jobs, db.attempts, db.workers, a);
    assert JobOk(db.jobs, db.attempts, row.job);
    var after := Finish(db, call, a, r, met);
    m := Rewrite(a, after.attempts[a], after.jobs[row.job]);
  }

  lemma ReportMove(db: Db, call: Method, r: Request, met: Circumstances, a: AttemptId) returns (m: Option<Move>)
    requires Sound(db) && a in db.attempts && a == NamedAttempt(r.attempt)
    requires call in {ReportProgress, CompleteAttempt, FailAttempt}
    requires db.attempts[a].job in db.jobs && Holds(db.attempts[a], db.jobs[db.attempts[a].job], r, met)
    requires r.worker in db.workers && r.session == db.workers[r.worker].session
    ensures Report(db, call, a, r, met).Done? ==> Moved(db, Rpc(call, r, met), Report(db, call, a, r, met).db, m)
    ensures Report(db, call, a, r, met) != Refused(Internal)
  {
    m := None;
    var j := db.attempts[a].job;
    ArtifactErrors(db.artifacts, j, a,
                   ServerPrefix(db.jobs[j].definition.artifactPrefix, j.text, r.attempt), r.artifacts);
    if Report(db, call, a, r, met).Done? {
      AddedArtifacts(db.artifacts, j, a,
                     ServerPrefix(db.jobs[j].definition.artifactPrefix, j.text, r.attempt), r.artifacts);
      assert db == db.(workers := db.workers);
      if call != ReportProgress {
        var x := FinishMove(db, call, r, met, a);
        m := Some(x);
      }
    }
  }

  lemma OnAttemptMove(db: Db, call: Method, r: Request, met: Circumstances) returns (m: Option<Move>)
    requires Sound(db) && Legal(db, Rpc(call, r, met))
    requires call in {Heartbeat, StartAttempt, ReportProgress, CompleteAttempt, FailAttempt}
    requires r.worker in db.workers && r.session == db.workers[r.worker].session
    ensures OnAttempt(db, call, r, met).Done? ==> Moved(db, Rpc(call, r, met), OnAttempt(db, call, r, met).db, m)
    ensures OnAttempt(db, call, r, met) != Refused(Internal)
  {
    m := None;
    var a := NamedAttempt(r.attempt);
    if a in db.attempts && db.attempts[a].job in db.jobs
       && Holds(db.attempts[a], db.jobs[db.attempts[a].job], r, met)
    {
      if call == Heartbeat { m := RenewMove(db, r, met, a); }
      else if call == StartAttempt { m := StartMove(db, r, met, a); }
      else { m := ReportMove(db, call, r, met, a); }
    }
  }

  lemma LeaseMove(db: Db, r: Request, met: Circumstances) returns (m: Option<Move>)
    requires Sound(db) && Legal(db, Rpc(LeaseJob, r, met))
    requires r.worker in db.workers && r.session == db.workers[r.worker].session
    ensures LeaseNext(db, r, db.workers[r.worker].capacity, met).Done?
    ensures Moved(db, Rpc(LeaseJob, r, met), LeaseNext(db, r, db.workers[r.worker].capacity, met).db, m)
  {
    var found := Candidates(db, db.workers[r.worker].capacity.Minus(met.seen), met.skipped);
    m := None;
    if found != {} {
      m := GrantMove(db, First(db.jobs, found), r, met);
    }
  }

  lemma DispatchMove(db: Db, call: Method, r: Request, met: Circumstances) returns (m: Option<Move>)
    requires Sound(db) && Legal(db, Rpc(call, r, met))
    requires r.worker in db.workers && r.session == db.workers[r.worker].session
    ensures Dispatch(db, call, r, met).Done? ==> Moved(db, Rpc(call, r, met), Dispatch(db, call, r, met).db, m)
    ensures Dispatch(db, call, r, met) != Refused(Internal)
  {
    m := None;
    if call == LeaseJob {
      m := LeaseMove(db, r, met);
      if db.workers[r.worker].state != ACTIVE { m := None; }
    } else if call in {Heartbeat, StartAttempt, ReportProgress, CompleteAttempt, FailAttempt} {
      m := OnAttemptMove(db, call, r, met);
      if call == Heartbeat && r.attempt == "" { m := None; }
    }
  }

  lemma TouchedKeeps(db: Db, w: WorkerId, at: int)
    requires Sound(db) && w in db.workers
    ensures Sound(Touched(db, w, at)) && WorkersEvolve(db.workers, Touched(db, w, at).workers)
  {
    WorkersSound(db, Touched(db, w, at).workers);
  }

  lemma MovedFromTouched(db: Db, touched: Db, c: Command, after: Db, m: Option<Move>)
    requires touched == db.(workers := touched.workers) && WorkersEvolve(db.workers, touched.workers)
    requires Moved(touched, c, after, m)
    ensures Moved(db, c, after, m)
  {
    assert db.(workers := after.workers) == touched.(workers := after.workers);
    forall w | w in db.workers ensures w in after.workers && WorkerEvolves(db.workers[w], after.workers[w]) {
      assert WorkerEvolves(db.workers[w], touched.workers[w]);
      assert WorkerEvolves(touched.workers[w], after.workers[w]);
    }
  }

  lemma CallMove(db: Db, call: Method, r: Request, met: Circumstances) returns (m: Option<Move>)
    requires Sound(db) && Legal(db, Rpc(call, r, met))
    ensures CallBody(db, call, r, met).Done? ==> Moved(db, Rpc(call, r, met), CallBody(db, call, r, met).db, m)
    ensures CallBody(db, call, r, met) != Refused(Internal)
  {
    m := None;
    if call == RegisterWorker {
      RegisterMove(db, r, met);
    } else if r.worker in db.workers && db.workers[r.worker].session == r.session {
      var touched := Touched(db, r.worker, met.touchedAt);
      TouchedKeeps(db, r.worker, met.touchedAt);
      assert Usage(touched, r.worker) == Usage(db, r.worker);
      m := DispatchMove(touched, call, r, met);
      if Dispatch(touched, call, r, met).Done? {
        MovedFromTouched(db, touched, Rpc(call, r, met), Dispatch(touched, call, r, met).db, m);
      }
    }
  }

  // ------------------------------------------------------------------ one move per action and per expiry

  lemma LiveJobHasLive(db: Db, j: JobId) returns (a: AttemptId)
    requires Sound(db) && j in db.jobs && Live(db.jobs[j].state)
    ensures a in db.attempts && db.attempts[a].job == j && db.attempts[a].state == db.jobs[j].state
  {
    assert JobOk(db.jobs, db.attempts, j);
    a := TopWitness(db.attempts, j);
    assert AttemptOk(db.jobs, db.attempts, db.workers, a);
  }

  lemma NothingLive(db: Db, j: JobId)
    requires Sound(db) && j in db.jobs && !Live(db.jobs[j].state)
    ensures LiveOf(db.attempts, j) == {}
    ensures forall a :: a in db.attempts && db.attempts[a].job == j ==> !Live(db.attempts[a].state)
  {
    forall a | a in db.attempts && db.attempts[a].job == j ensures !Live(db.attempts[a].state) {
      assert AttemptOk(db.jobs, db.attempts, db.workers, a);
    }
  }

  lemma CancelLiveMove(db: Db, j: JobId, id: RequestId, at: int) returns (m: Move)
    requires Sound(db) && j in db.jobs && Live(db.jobs[j].state)
    ensures Lawful(db, Act(Cancel, j, id, at), m)
    ensures Patch(db, m) == db.(attempts := CancelLive(db.attempts, j, at),
                                jobs := db.jobs[j := db.jobs[j].(state := CANCELLED, updatedAt := at)])
  {
    var a := LiveJobHasLive(db, j);
    LiveIsTop(db, a);
    assert AttemptOk(db.jobs, db.attempts, db.workers, a);
    assert JobOk(db.jobs, db.attempts, j);
    var after := CancelLive(db.attempts, j, at);
    forall b | b in db.attempts && db.attempts[b].job == j && Live(db.attempts[b].state) ensures b == a {
      OnlyLive(db, a, b);
    }
    assert after == db.attempts[a := after[a]];
    m := Rewrite(a, after[a], db.jobs[j].(state := CANCELLED, updatedAt := at));
  }

  lemma ActionMove(db: Db, action: Action, j: JobId, id: RequestId, at: int) returns (m: Option<Move>)
    requires Sound(db)
    ensures ActionBody(db, action, j, id, at).Done? ==>
              Moved(db, Act(action, j, id, at), ActionBody(db, action, j, id, at).db, m)
    ensures ActionBody(db, action, j, id, at) != Refused(Internal)
  {
    m := None;
    if ActionBody(db, action, j, id, at).Done? {
      var after := ActionBody(db, action, j, id, at).db;
      assert db == db.(workers := db.workers);
      if Live(db.jobs[j].state) {
        var x := CancelLiveMove(db, j, id, at);
        m := Some(x);
      } else {
        NothingLive(db, j);
        assert JobOk(db.jobs, db.attempts, j);
        assert after.attempts == db.attempts;
        m := Some(SetJob(j, after.jobs[j]));
      }
    }
  }

  lemma ExpireAttemptMove(db: Db, c: Command, a: AttemptId, at: int) returns (m: Move)
    requires Sound(db) && c.Reap? && a in db.attempts && db.attempts[a].job in db.jobs
    requires Slot(db.attempts[a].job, at) in c.scan
    requires Live(db.attempts[a].state) && db.attempts[a].leaseExpiresAt <= at
    ensures Lawful(db, c, m) && m.Rewrite? && m.a == a && m.row.job == db.attempts[a].job && m.row.state == EXPIRED
    ensures Patch(db, m) == ExpireAttempt(db, a, at).(events := db.events)
  {
    LiveIsTop(db, a);
    var row := db.attempts[a];
    assert AttemptOk(db.jobs, db.attempts, db.workers, a);
    assert JobOk(db.jobs, db.attempts, row.job);
    var after := ExpireAttempt(db, a, at);
    m := Rewrite(a, after.attempts[a], after.jobs[row.job]);
  }

  lemma ExpireMove(db: Db, c: Command, s: Slot) returns (m: Option<Move>)
    requires Sound(db) && c.Reap? && s in c.scan
    ensures Moved(db, c, ExpireJob(db, s), m)
    ensures m.Some? <==> s.id in db.jobs && Reapable(db.attempts, s.id, s.at)
    ensures m.Some? ==> m.value.Rewrite? && m.value.row.job == s.id && m.value.row.state == EXPIRED
                        && ExpiredLive(db.attempts, s.id, s.at, m.value.a)
  {
    m := None;
    assert db == db.(workers := db.workers);
    if s.id in db.jobs && Reapable(db.attempts, s.id, s.at) {
      var a :| a in db.attempts && ExpiredLive(db.attempts, s.id, s.at, a)
               && ExpireJob(db, s) == ExpireAttempt(db, a, s.at);
      assert s == Slot(db.attempts[a].job, s.at);
      var x := ExpireAttemptMove(db, c, a, s.at);
      m := Some(x);
    }
  }
}
