/** From submission to lease: first come, first served among what fits. */
module QueueOrder {
  import opened Model
  import opened Transactions
  import opened Evolution
  import opened Steps
  import opened Runs
  import opened Submission
  import opened Placement

  /** Job `id` is the one that entry i of the batch brought, and run led from there to `db`. */
  ghost predicate SubmittedAt(start: Db, batch: seq<Entry>, i: int, run: seq<Command>, db: Db, id: JobId) {
    && Inv(start) && Legal(start, Submit(batch)) && Apply(start, Submit(batch)).1.Ok?
    && 0 <= i < |batch| && BringsKey(start.jobs, batch, i) && batch[i].id == id
    && LegalRun(Apply(start, Submit(batch)).0, run) && db == Final(Apply(start, Submit(batch)).0, run)
  }

  /** Whatever happened since, a job keeps the time and the definition it was submitted with. */
  lemma KeepsItsPlace(start: Db, batch: seq<Entry>, i: int, run: seq<Command>, db: Db, id: JobId)
    requires SubmittedAt(start, batch, i, run, db, id)
    ensures id in db.jobs && db.jobs[id].createdAt == batch[i].at && db.jobs[id].definition == batch[i].definition
  {
    SubmittedRow(start, batch, i);
    StepKeeps(start, Submit(batch));
    SameRow(Apply(start, Submit(batch)).0, run, id);
  }

  lemma SubmittedRow(start: Db, batch: seq<Entry>, i: int)
    requires Inv(start) && Legal(start, Submit(batch)) && Apply(start, Submit(batch)).1.Ok?
    requires 0 <= i < |batch| && BringsKey(start.jobs, batch, i)
    ensures batch[i].id in Apply(start, Submit(batch)).0.jobs
    ensures Apply(start, Submit(batch)).0.jobs[batch[i].id] == Queued(batch[i])
  {
    SubmitIsAllOrNothing(start, batch);
  }

  lemma SameRow(db: Db, run: seq<Command>, id: JobId)
    requires Inv(db) && LegalRun(db, run) && id in db.jobs
    ensures id in Final(db, run).jobs
    ensures Final(db, run).jobs[id].createdAt == db.jobs[id].createdAt
    ensures Final(db, run).jobs[id].definition == db.jobs[id].definition
  {
    RunKeeps(db, run);
    assert JobEvolves(db.jobs[id], Final(db, run).jobs[id]);
  }

  lemma LeaseTakesEarlier(db: Db, r: Request, met: Circumstances, j: JobId, k: JobId)
    requires CallBody(db, LeaseJob, r, met).Done? && CallBody(db, LeaseJob, r, met).response.Leased?
    requires met.skipped == {} && met.seen == Usage(db, r.worker)
    requires Placeable(db, r.worker, j) && Placeable(db, r.worker, k) && db.jobs[j].createdAt < db.jobs[k].createdAt
    ensures var taken := CallBody(db, LeaseJob, r, met).response.lease.job;
            && taken in db.jobs && db.jobs[taken].createdAt <= db.jobs[j].createdAt && taken != k
            && ((forall i :: Placeable(db, r.worker, i) ==> i == j || i == k) ==> taken == j)
  {
    GrantIsFirst(db, r, met);
    var found := Candidates(db, db.workers[r.worker].capacity.Minus(met.seen), met.skipped);
    forall i ensures i in found <==> Placeable(db, r.worker, i) {
    }
  }

  /** Of two jobs that both fit, submitted at different times, an undisturbed lease never takes the
      later one, whatever their ids and whatever has happened in between; if there are no others, it
      takes the earlier. */
  lemma EarlierGoesFirst(start: Db, batch: seq<Entry>, i: int, run: seq<Command>, j: JobId,
                         origin: Db, later: seq<Entry>, n: int, since: seq<Command>, k: JobId,
                         db: Db, r: Request, met: Circumstances)
    requires SubmittedAt(start, batch, i, run, db, j) && SubmittedAt(origin, later, n, since, db, k)
    requires batch[i].at < later[n].at && Placeable(db, r.worker, j) && Placeable(db, r.worker, k)
    requires Inv(db) && Legal(db, Rpc(LeaseJob, r, met)) && RpcKey(LeaseJob, r) !in db.requests
    requires NamedSender(r) && 1 <= |r.requestId.text| <= 256
    requires r.worker in db.workers && db.workers[r.worker].state == ACTIVE && db.workers[r.worker].session == r.session
    requires met.skipped == {} && met.seen == Usage(db, r.worker)
    ensures var result := Apply(db, Rpc(LeaseJob, r, met)).1;
            && result.Ok? && result.response.Leased?
            && var taken := result.response.lease.job;
            && taken in db.jobs && db.jobs[taken].createdAt <= batch[i].at && taken != k
            && ((forall x :: Placeable(db, r.worker, x) ==> x == j || x == k) ==> taken == j)
  {
    KeepsItsPlace(start, batch, i, run, db, j);
    KeepsItsPlace(origin, later, n, since, db, k);
    IdleExactlyWhenNothingFits(db, r, met);
    LeaseBodyAnswers(db, r, met);
    LeaseTakesEarlier(db, r, met, j, k);
  }

  lemma LeaseBodyAnswers(db: Db, r: Request, met: Circumstances)
    requires RpcKey(LeaseJob, r) !in db.requests
    requires Apply(db, Rpc(LeaseJob, r, met)).1.Ok?
    ensures CallBody(db, LeaseJob, r, met).Done?
    ensures CallBody(db, LeaseJob, r, met).response == Apply(db, Rpc(LeaseJob, r, met)).1.response
  {
  }
}
