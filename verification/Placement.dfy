/** Which job a lease goes to: oldest first among those that fit, and none only if none fits. */
module Placement {
  import opened Model
  import opened Transactions
  import opened Steps
  import opened Runs
  import opened Interleaving
  import opened Knowledge
  import opened Worlds

  /** A queued job that would fit beside everything the worker has reserved. */
  ghost predicate Placeable(db: Db, w: WorkerId, j: JobId) {
    && w in db.workers && j in db.jobs && db.jobs[j].state == QUEUED
    && Usage(db, w).Plus(db.jobs[j].definition.resources).AtMost(db.workers[w].capacity)
  }

  /** Job `a` is older than job `b` and needs no more than it. */
  predicate Outranks(jobs: map<JobId, Job>, a: JobId, b: JobId) {
    && a in jobs && b in jobs && Before(jobs, a, b)
    && jobs[a].definition.resources.AtMost(jobs[b].definition.resources)
  }

  lemma GrantIsFirst(db: Db, r: Request, met: Circumstances)
    requires CallBody(db, LeaseJob, r, met).Done? && CallBody(db, LeaseJob, r, met).response.Leased?
    ensures r.worker in db.workers
    ensures var found := Candidates(db, db.workers[r.worker].capacity.Minus(met.seen), met.skipped);
            IsFirst(db.jobs, found, CallBody(db, LeaseJob, r, met).response.lease.job)
  {
    var touched := Touched(db, r.worker, met.touchedAt);
    var free := db.workers[r.worker].capacity.Minus(met.seen);
    assert Candidates(touched, free, met.skipped) == Candidates(db, free, met.skipped);
  }

  /** A lease goes to a job that was queued and fits; a job that outranks it, queued as well, can
      only have been passed over because another transaction was holding it. */
  lemma NoOvertaking(db: Db, r: Request, met: Circumstances, a: JobId)
    requires Inv(db) && Legal(db, Rpc(LeaseJob, r, met)) && RpcKey(LeaseJob, r) !in db.requests
    requires Apply(db, Rpc(LeaseJob, r, met)).1.Ok? && Apply(db, Rpc(LeaseJob, r, met)).1.response.Leased?
    ensures var b := Apply(db, Rpc(LeaseJob, r, met)).1.response.lease.job;
            && Placeable(db, r.worker, b) && b !in met.skipped
            && (Outranks(db.jobs, a, b) && db.jobs[a].state == QUEUED ==> a in met.skipped)
  {
    GrantIsFirst(db, r, met);
    var b := CallBody(db, LeaseJob, r, met).response.lease.job;
    if Outranks(db.jobs, a, b) && db.jobs[a].state == QUEUED && a !in met.skipped {
      BeforeTotal(db.jobs, a, b);
    }
  }

  lemma IdleBody(db: Db, r: Request, met: Circumstances)
    requires r.worker in db.workers && db.workers[r.worker].state == ACTIVE && db.workers[r.worker].session == r.session
    requires met.skipped == {} && met.seen == Usage(db, r.worker)
    ensures var body := CallBody(db, LeaseJob, r, met);
            (body.Done? && body.response == Idle) <==> forall j :: !Placeable(db, r.worker, j)
  {
    var touched := Touched(db, r.worker, met.touchedAt);
    var free := db.workers[r.worker].capacity.Minus(met.seen);
    var found := Candidates(touched, free, met.skipped);
    forall j ensures j in found <==> Placeable(db, r.worker, j) {
    }
    if found != {} { assert First(touched.jobs, found) in found; }
  }

  /** An undisturbed lease call on behalf of a worker in good standing finds nothing exactly when
      no queued job fits in what the worker has left; otherwise it grants a lease. */
  lemma IdleExactlyWhenNothingFits(db: Db, r: Request, met: Circumstances)
    requires Inv(db) && Legal(db, Rpc(LeaseJob, r, met)) && RpcKey(LeaseJob, r) !in db.requests
    requires NamedSender(r) && 1 <= |r.requestId.text| <= 256
    requires r.worker in db.workers && db.workers[r.worker].state == ACTIVE && db.workers[r.worker].session == r.session
    requires met.skipped == {} && met.seen == Usage(db, r.worker)
    ensures var result := Apply(db, Rpc(LeaseJob, r, met)).1;
            && (result == Ok(Idle) <==> forall j :: !Placeable(db, r.worker, j))
            && (result.Ok? && (result.response == Idle || result.response.Leased?))
  {
    IdleBody(db, r, met);
    CallKeeps(db, LeaseJob, r, met);
    LeaseAnswers(db, r, met);
    FreshAnswer(db, RpcKey(LeaseJob, r), RpcPayload(r), CallBody(db, LeaseJob, r, met));
  }

  lemma FreshAnswer(db: Db, key: Key, payload: Payload, body: Outcome)
    requires key !in db.requests && 1 <= |key.id.text| <= 256
    ensures Mutate(db, key, payload, body).1 == if body.Done? then Ok(body.response) else Err(body.error)
  {
  }

  lemma LeaseAnswers(db: Db, r: Request, met: Circumstances)
    requires r.worker in db.workers && db.workers[r.worker].state == ACTIVE && db.workers[r.worker].session == r.session
    ensures var body := CallBody(db, LeaseJob, r, met);
            if body.Done? then body.response == Idle || body.response.Leased? else body.error == Internal
  {
  }

  // ------------------------------------------------------------------ at the moment of the scan

  predicate FitsLeft(job: Job, p: Phase)
    requires p.Counted?
  {
    p.seen.Plus(job.definition.resources).AtMost(p.row.capacity)
  }

  /** While other transactions are under way: the scan passes over a job that outranks the one it
      picks only if one of them holds that job, and gives up only if every job that fits is held. */
  lemma ScanTakesOldest(w: World, t: nat, d: Draw, a: JobId)
    requires WorldInv(w) && t in w.txs && w.txs[t].phase.Counted? && !TurnIn(w, t, d).Undrawn?
    requires a in w.db.jobs && w.db.jobs[a].state == QUEUED && JobLock(a) !in Busy(w.txs, t)
    ensures var p, turn := w.txs[t].phase, TurnIn(w, t, d);
            && (turn.Goes? ==> turn.phase.Picked? && !Outranks(w.db.jobs, a, turn.phase.j)
                               && (FitsLeft(w.db.jobs[a], p) ==> a in turn.phase.pool))
            && (turn.Ends? ==> !FitsLeft(w.db.jobs[a], p))
  {
    var p, turn := w.txs[t].phase, TurnIn(w, t, d);
    var found := Candidates(w.db, p.row.capacity.Minus(p.seen), Locked(Busy(w.txs, t)));
    if turn.Goes? && Outranks(w.db.jobs, a, turn.phase.j) { BeforeTotal(w.db.jobs, a, turn.phase.j); }
    if turn.Ends? { assert a !in found; }
  }

  /** Until the placement commits, a job that outranks the one picked was not on offer at the scan:
      it was not queued then, did not fit or was held. */
  lemma OvertakenOnlySinceScan(w: World, t: nat, a: JobId)
    requires WorldInv(w) && t in w.txs && (w.txs[t].phase.Picked? || w.txs[t].phase.Placed?)
    requires Outranks(w.db.jobs, a, w.txs[t].phase.j)
    ensures a !in w.txs[t].phase.pool
  {
    var p := w.txs[t].phase;
    assert KnowsPick(w.db, w.txs[t]);
    BeforeTotal(w.db.jobs, a, p.j);
  }
}
