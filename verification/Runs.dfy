/** Safety over whole runs: what every reachable state satisfies and what no run can undo. */
module Runs {
  import opened Model
  import opened ObjectKeys
  import opened Transactions
  import opened Invariant
  import opened Moves
  import opened Evolution
  import opened Steps

  lemma ArtifactsStayInOrder(db: Db, after: Db)
    requires Sound(db) && ArtifactsInOrder(db.attempts, db.artifacts)
    requires AttemptsEvolve(db.attempts, after.attempts) && ArtifactsAdded(db, after)
    ensures ArtifactsInOrder(after.attempts, after.artifacts)
  {
    var rows := after.artifacts;
    forall i | 0 <= i < |rows| ensures OfAttempt(after.attempts, rows[i]) {
      assert OfAttempt(db.attempts, rows[i]);
    }
    forall i, k | 0 <= i < k < |rows| && rows[i].job == rows[k].job
      ensures after.attempts[rows[i].attempt].number <= after.attempts[rows[k].attempt].number
    {
      assert OfAttempt(db.attempts, rows[i]) && OfAttempt(db.attempts, rows[k]);
      if |db.artifacts| <= k {
        LiveIsTop(db, rows[k].attempt);
        AtMostTop(db.attempts, rows[i].attempt);
      }
    }
  }

  lemma BaseKeeps(db: Db, workers: map<WorkerId, Worker>)
    requires Inv(db) && WorkersEvolve(db.workers, workers)
    requires forall w :: w in workers && w !in db.workers ==> NOTHING.AtMost(workers[w].capacity)
    ensures Inv(db.(workers := workers))
  {
    var base := db.(workers := workers);
    WorkersSound(db, workers);
    forall w | w in base.workers ensures Usage(base, w).AtMost(base.workers[w].capacity) {
      if w in db.workers {
        assert Usage(db, w).AtMost(db.workers[w].capacity);
      } else {
        forall a | a in db.attempts ensures db.attempts[a].worker != w {
          assert AttemptOk(db.jobs, db.attempts, db.workers, a);
        }
        assert Load(db.jobs, db.attempts, w) == map[];
      }
    }
  }

  lemma MovedKeeps(db: Db, c: Command, after: Db, m: Option<Move>)
    requires Inv(db) && Moved(db, c, after, m)
    requires forall w :: w in after.workers && w !in db.workers ==> NOTHING.AtMost(after.workers[w].capacity)
    ensures Inv(after) && Evolves(db, after)
  {
    var base := db.(workers := after.workers);
    BaseKeeps(db, after.workers);
    if m.Some? {
      LawfulSound(base, c, m.value);
      LawfulCapacity(base, c, m.value);
      LawfulJobs(base, c, m.value);
      LawfulAttempts(base, c, m.value);
      SameCore(Patch(base, m.value), after);
    } else {
      SameCore(base, after);
    }
    ArtifactsStayInOrder(db, after);
  }

  lemma SameCore(db: Db, after: Db)
    requires Sound(db) && WithinCapacity(db)
    requires after.jobs == db.jobs && after.attempts == db.attempts && after.workers == db.workers
    ensures Sound(after) && WithinCapacity(after)
  {
    forall w | w in after.workers ensures Usage(after, w).AtMost(after.workers[w].capacity) {
      assert Usage(db, w).AtMost(db.workers[w].capacity);
    }
  }

  lemma {:induction false} ReapKeeps(db: Db, c: Command, scan: seq<Slot>)
    requires Inv(db) && c.Reap? && (forall s :: s in scan ==> s in c.scan)
    ensures Inv(ReapAll(db, scan)) && Evolves(db, ReapAll(db, scan))
    decreases |scan|
  {
    if scan != [] {
      var m := ExpireMove(db, c, scan[0]);
      var next := ExpireJob(db, scan[0]);
      MovedKeeps(db, c, next, m);
      ReapKeeps(next, c, scan[1..]);
      EvolvesTransitive(db, next, ReapAll(next, scan[1..]));
    }
  }

  lemma InsertMove(db: Db, c: Command, e: Entry) returns (m: Option<Move>)
    requires Sound(db) && c.Submit? && e.id !in db.jobs && Admitted(e.definition)
    ensures Moved(db, c, InsertJob(db, e), m)
  {
    assert db == db.(workers := db.workers);
    m := if KeyTaken(db.jobs, e.definition.idempotencyKey) then None
         else Some(AddJob(e.id, NewJob(e.definition, e.at)));
  }

  lemma InsertTakesKey(db: Db, e: Entry)
    ensures KeyTaken(InsertJob(db, e).jobs, e.definition.idempotencyKey)
    ensures forall j :: j in InsertJob(db, e).jobs ==> j in db.jobs || j == e.id
  {
    if !KeyTaken(db.jobs, e.definition.idempotencyKey) {
      assert InsertJob(db, e).jobs[e.id].definition.idempotencyKey == e.definition.idempotencyKey;
    }
  }

  lemma InsertKeeps(db: Db, c: Command, e: Entry)
    requires Inv(db) && c.Submit? && e.id !in db.jobs && Admitted(e.definition)
    ensures Inv(InsertJob(db, e)) && Evolves(db, InsertJob(db, e))
  {
    var m := InsertMove(db, c, e);
    MovedKeeps(db, c, InsertJob(db, e), m);
  }

  ghost predicate FreshEntries(db: Db, batch: seq<Entry>) {
    && (forall i :: 0 <= i < |batch| ==> batch[i].id !in db.jobs && Admitted(batch[i].definition))
    && (forall i, k :: 0 <= i < k < |batch| ==> batch[i].id != batch[k].id)
  }

  lemma {:induction false} SubmitKeeps(db: Db, c: Command, batch: seq<Entry>, out: seq<JobId>)
    requires Inv(db) && c.Submit? && FreshEntries(db, batch)
    ensures SubmitAll(db, batch, out).Done? ==>
              Inv(SubmitAll(db, batch, out).db) && Evolves(db, SubmitAll(db, batch, out).db)
    ensures SubmitAll(db, batch, out).Refused? ==> SubmitAll(db, batch, out).error == Conflict
    decreases |batch|
  {
    if batch != [] {
      var next := InsertJob(db, batch[0]);
      InsertKeeps(db, c, batch[0]);
      InsertTakesKey(db, batch[0]);
      var j := KeyOwner(next.jobs, batch[0].definition.idempotencyKey);
      SubmitKeeps(next, c, batch[1..], out + [j]);
      if SubmitAll(db, batch, out).Done? {
        EvolvesTransitive(db, next, SubmitAll(db, batch, out).db);
      }
    }
  }

  lemma ReceiptKeeps(db: Db, next: Db, key: Key, receipt: Receipt)
    requires Inv(next) && Evolves(db, next) && receipt.response.Some? && key !in db.requests
    ensures Inv(next.(requests := next.requests[key := receipt]))
    ensures Evolves(db, next.(requests := next.requests[key := receipt]))
  {
    var after := next.(requests := next.requests[key := receipt]);
    SameCore(next, after);
    assert Answered(after.requests);
  }

  lemma EvolvesReflexive(db: Db)
    ensures Evolves(db, db)
  {
  }

  lemma MutateKeeps(db: Db, key: Key, payload: Payload, body: Outcome)
    requires Inv(db)
    requires body.Done? ==> Inv(body.db) && Evolves(db, body.db)
    requires body != Refused(Internal)
    ensures Inv(Mutate(db, key, payload, body).0) && Evolves(db, Mutate(db, key, payload, body).0)
    ensures Mutate(db, key, payload, body).1 != Err(Internal)
  {
    EvolvesReflexive(db);
    if key !in db.requests && body.Done? {
      ReceiptKeeps(db, body.db, key, Receipt(payload, Some(body.response)));
    } else if key in db.requests {
      assert db.requests[key].response.Some?;
    }
  }

  lemma CallKeeps(db: Db, call: Method, r: Request, met: Circumstances)
    requires Inv(db) && Legal(db, Rpc(call, r, met))
    ensures CallBody(db, call, r, met).Done? ==>
              Inv(CallBody(db, call, r, met).db) && Evolves(db, CallBody(db, call, r, met).db)
    ensures CallBody(db, call, r, met) != Refused(Internal)
  {
    var m := CallMove(db, call, r, met);
    if CallBody(db, call, r, met).Done? {
      var after := CallBody(db, call, r, met).db;
      NewWorkers(db, call, r, met);
      MovedKeeps(db, Rpc(call, r, met), after, m);
    }
  }

  /** Only registration adds a worker, and then with a valid capacity. */
  lemma NewWorkers(db: Db, call: Method, r: Request, met: Circumstances)
    requires CallBody(db, call, r, met).Done?
    ensures var workers := CallBody(db, call, r, met).db.workers;
            forall w :: w in workers && w !in db.workers ==> NOTHING.AtMost(workers[w].capacity)
  {
    if call != RegisterWorker { SameWorkers(Touched(db, r.worker, met.touchedAt), call, r, met); }
  }

  lemma SameWorkers(db: Db, call: Method, r: Request, met: Circumstances)
    requires r.worker in db.workers && Dispatch(db, call, r, met).Done?
    ensures Dispatch(db, call, r, met).db.workers.Keys == db.workers.Keys
  {
    if call != LeaseJob && call != ReleaseWorker && !(call == Heartbeat && r.attempt == "") {
      AttemptSameWorkers(db, call, r, met);
    }
  }

  lemma AttemptSameWorkers(db: Db, call: Method, r: Request, met: Circumstances)
    requires OnAttempt(db, call, r, met).Done?
    ensures OnAttempt(db, call, r, met).db.workers == db.workers
  {
    if call != Heartbeat && call != StartAttempt { ReportSameWorkers(db, call, NamedAttempt(r.attempt), r, met); }
  }

  lemma ReportSameWorkers(db: Db, call: Method, a: AttemptId, r: Request, met: Circumstances)
    requires a in db.attempts && db.attempts[a].job in db.jobs && Report(db, call, a, r, met).Done?
    ensures Report(db, call, a, r, met).db.workers == db.workers
  {
  }

  lemma ActionKeeps(db: Db, c: Command)
    requires Inv(db) && c.Act?
    ensures Inv(Apply(db, c).0) && Evolves(db, Apply(db, c).0)
    ensures Apply(db, c).1 != Err(Internal)
  {
    var m := ActionMove(db, c.action, c.job, c.requestId, c.at);
    var body := ActionBody(db, c.action, c.job, c.requestId, c.at);
    if body.Done? { MovedKeeps(db, c, body.db, m); }
    MutateKeeps(db, Key(ActionScope(c.action), c.requestId), ActionPayload(c.job), body);
  }

  /** Every command of the store, in any circumstances the database can produce, keeps the
      invariant, only lets rows evolve, and never runs into a constraint of the schema. */
  lemma StepKeeps(db: Db, c: Command)
    requires Inv(db) && Legal(db, c)
    ensures Inv(Apply(db, c).0) && Evolves(db, Apply(db, c).0)
    ensures Apply(db, c).1 != Err(Internal)
  {
    EvolvesReflexive(db);
    match c
    case Submit(batch) =>
      if !BatchInvalid(batch) {
        assert FreshEntries(db, batch);
        SubmitKeeps(db, c, batch, []);
      }
    case Rpc(call, r, met) =>
      CallKeeps(db, call, r, met);
      MutateKeeps(db, RpcKey(call, r), RpcPayload(r), CallBody(db, call, r, met));
    case Act(_, _, _, _) => ActionKeeps(db, c);
    case Reap(scan) => ReapKeeps(db, c, scan);
  }

  // ------------------------------------------------------------------ runs

  /** A run: the commands in the order in which they committed. */
  ghost function Final(db: Db, run: seq<Command>): Db
    decreases |run|
  {
    if run == [] then db else Final(Apply(db, run[0]).0, run[1..])
  }

  ghost predicate LegalRun(db: Db, run: seq<Command>)
    decreases |run|
  {
    run == [] || (Legal(db, run[0]) && LegalRun(Apply(db, run[0]).0, run[1..]))
  }

  function Empty(leaseMs: int): Db {
    Db(leaseMs, map[], map[], map[], map[], [], [])
  }

  lemma EmptyInv(leaseMs: int)
    requires 2000 <= leaseMs
    ensures Inv(Empty(leaseMs))
  {
  }

  lemma {:induction false} RunKeeps(db: Db, run: seq<Command>)
    requires Inv(db) && LegalRun(db, run)
    ensures Inv(Final(db, run)) && Evolves(db, Final(db, run))
    decreases |run|
  {
    if run != [] {
      var next := Apply(db, run[0]).0;
      StepKeeps(db, run[0]);
      RunKeeps(next, run[1..]);
      EvolvesTransitive(db, next, Final(next, run[1..]));
    }
  }
}
