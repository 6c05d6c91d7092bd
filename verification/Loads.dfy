/** Only a worker's own lease adds to its reservations. */
module Loads {
  import opened Model
  import opened Transactions
  import opened Invariant
  import opened Moves
  import opened Evolution
  import opened Steps
  import opened Runs
  import opened Causes

  predicate LeaseBy(c: Command, w: WorkerId) {
    c.Rpc? && c.call == LeaseJob && c.request.worker == w
  }

  lemma MovedLoad(db: Db, c: Command, after: Db, m: Option<Move>, w: WorkerId)
    requires Sound(db) && Moved(db, c, after, m) && !LeaseBy(c, w)
    ensures Usage(after, w).AtMost(Usage(db, w))
  {
    if m.Some? {
      var base := db.(workers := after.workers);
      WorkersSound(db, after.workers);
      LawfulLoad(base, c, m.value, w);
      UsageFalls(base, Patch(base, m.value), w);
    }
  }

  lemma {:induction false} ReapLoad(db: Db, c: Command, scan: seq<Slot>, w: WorkerId)
    requires Inv(db) && c.Reap? && (forall s :: s in scan ==> s in c.scan)
    ensures Usage(ReapAll(db, scan), w).AtMost(Usage(db, w))
    decreases |scan|
  {
    if scan != [] {
      var m := ExpireMove(db, c, scan[0]);
      var next := ExpireJob(db, scan[0]);
      MovedKeeps(db, c, next, m);
      MovedLoad(db, c, next, m, w);
      ReapLoad(next, c, scan[1..], w);
    }
  }

  /** New jobs come without attempts. */
  lemma SameLoad(db: Db, after: Db, w: WorkerId)
    requires Sound(db) && JobsEvolve(db.jobs, after.jobs) && after.attempts == db.attempts
    ensures Usage(after, w) == Usage(db, w)
  {
    forall a | a in db.attempts ensures db.attempts[a].job in db.jobs {
      assert AttemptOk(db.jobs, db.attempts, db.workers, a);
    }
    assert Load(after.jobs, after.attempts, w) == Load(db.jobs, db.attempts, w);
  }

  lemma MutateLoad(db: Db, c: Command, key: Key, payload: Payload, body: Outcome, m: Option<Move>, w: WorkerId)
    requires Sound(db) && !LeaseBy(c, w) && (body.Done? ==> Moved(db, c, body.db, m))
    ensures Usage(Mutate(db, key, payload, body).0, w).AtMost(Usage(db, w))
  {
    var after := Mutate(db, key, payload, body).0;
    if body.Done? && after.jobs == body.db.jobs && after.attempts == body.db.attempts {
      MovedLoad(db, c, body.db, m, w);
    } else {
      assert after == db;
    }
  }

  /** Whatever the others do, the reservations of a worker can only fall. */
  lemma StepLoad(db: Db, c: Command, w: WorkerId)
    requires Inv(db) && Legal(db, c) && !LeaseBy(c, w)
    ensures Usage(Apply(db, c).0, w).AtMost(Usage(db, w))
  {
    match c
    case Submit(batch) =>
      if !BatchInvalid(batch) {
        SubmitLeavesAttempts(db, batch, []);
        StepKeeps(db, c);
        SameLoad(db, Apply(db, c).0, w);
      }
    case Rpc(call, r, met) =>
      var m := CallMove(db, call, r, met);
      MutateLoad(db, c, RpcKey(call, r), RpcPayload(r), CallBody(db, call, r, met), m, w);
    case Act(action, j, id, at) =>
      var m := ActionMove(db, action, j, id, at);
      MutateLoad(db, c, Key(ActionScope(action), id), ActionPayload(j), ActionBody(db, action, j, id, at), m, w);
    case Reap(scan) => ReapLoad(db, c, scan, w);
  }
}
