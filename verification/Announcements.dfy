/** Over any run every job is announced as submitted once, and nothing else is. */
module Announcements {
  import opened Model
  import opened ObjectKeys
  import opened Transactions
  import opened Invariant
  import opened Steps
  import opened Runs
  import opened Guarantees
  import opened Submission

  /** How often job j is announced. */
  function TimesAnnounced(events: seq<Event>, j: JobId): nat {
    if events == [] then 0
    else TimesAnnounced(events[..|events| - 1], j)
         + if events[|events| - 1].kind == Submitted && events[|events| - 1].job == j then 1 else 0
  }

  lemma OneMore(events: seq<Event>, e: Event, j: JobId)
    ensures TimesAnnounced(events + [e], j) == TimesAnnounced(events, j) + if e.kind == Submitted && e.job == j then 1 else 0
  {
    assert (events + [e])[..|events + [e]| - 1] == events;
  }

  /** A change that announces exactly the jobs it adds. */
  ghost predicate Announces(db: Db, after: Db, j: JobId) {
    && (j in db.jobs ==> j in after.jobs)
    && TimesAnnounced(after.events, j) == TimesAnnounced(db.events, j) + if j in after.jobs && j !in db.jobs then 1 else 0
  }

  /** At most one event more, and that not of a submission; no job more or less. */
  ghost predicate Quiet(db: Db, after: Db) {
    && after.jobs.Keys == db.jobs.Keys
    && (after.events == db.events
        || (|after.events| == |db.events| + 1 && after.events[..|db.events|] == db.events
            && after.events[|db.events|].kind != Submitted))
  }

  lemma QuietAnnounces(db: Db, after: Db, j: JobId)
    requires Quiet(db, after)
    ensures Announces(db, after, j)
  {
    assert j in after.jobs.Keys <==> j in db.jobs.Keys;
    if after.events != db.events {
      assert after.events == db.events + [after.events[|db.events|]];
      OneMore(db.events, after.events[|db.events|], j);
    }
  }

  lemma ReportQuiet(db: Db, call: Method, a: AttemptId, r: Request, met: Circumstances)
    requires a in db.attempts && db.attempts[a].job in db.jobs && Report(db, call, a, r, met).Done?
    ensures Quiet(db, Report(db, call, a, r, met).db)
  {
  }

  lemma AttemptQuiet(db: Db, call: Method, r: Request, met: Circumstances)
    requires OnAttempt(db, call, r, met).Done?
    ensures Quiet(db, OnAttempt(db, call, r, met).db)
  {
    if call != Heartbeat && call != StartAttempt { ReportQuiet(db, call, NamedAttempt(r.attempt), r, met); }
  }

  lemma LeaseQuiet(db: Db, r: Request, capacity: Resources, met: Circumstances)
    requires LeaseNext(db, r, capacity, met).Done?
    ensures Quiet(db, LeaseNext(db, r, capacity, met).db)
  {
  }

  lemma CallQuiet(db: Db, call: Method, r: Request, met: Circumstances)
    requires CallBody(db, call, r, met).Done?
    ensures Quiet(db, CallBody(db, call, r, met).db)
  {
    if call != RegisterWorker {
      var touched := Touched(db, r.worker, met.touchedAt);
      if call == LeaseJob { LeaseQuiet(touched, r, touched.workers[r.worker].capacity, met); }
      else if call != ReleaseWorker && !(call == Heartbeat && r.attempt == "") { AttemptQuiet(touched, call, r, met); }
    }
  }

  lemma ActionQuiet(db: Db, action: Action, j: JobId, id: RequestId, at: int)
    requires ActionBody(db, action, j, id, at).Done?
    ensures Quiet(db, ActionBody(db, action, j, id, at).db)
  {
  }

  lemma ExpireQuiet(db: Db, s: Slot)
    requires Sound(db)
    ensures Quiet(db, ExpireJob(db, s))
  {
    if s.id in db.jobs && Reapable(db.attempts, s.id, s.at) {
      var a :| a in db.attempts && ExpiredLive(db.attempts, s.id, s.at, a) && ExpireJob(db, s) == ExpireAttempt(db, a, s.at);
    }
  }

  lemma {:induction false} ReapAnnounces(db: Db, c: Command, scan: seq<Slot>, j: JobId)
    requires Inv(db) && c.Reap? && (forall s :: s in scan ==> s in c.scan)
    ensures Announces(db, ReapAll(db, scan), j)
    decreases |scan|
  {
    if scan != [] {
      var next := ExpireJob(db, scan[0]);
      ExpireQuiet(db, scan[0]);
      QuietAnnounces(db, next, j);
      ReapKeeps(db, Reap([scan[0]]), [scan[0]]);
      assert ReapAll(db, [scan[0]]) == next by { assert [scan[0]][1..] == []; }
      ReapAnnounces(next, c, scan[1..], j);
    }
  }

  lemma InsertAnnouncesOne(db: Db, e: Entry, j: JobId)
    requires e.id !in db.jobs
    ensures Announces(db, InsertJob(db, e), j)
  {
    OneMore(db.events, Event(e.id, None, Submitted, None), j);
  }

  lemma {:induction false} SubmitAnnounces(db: Db, batch: seq<Entry>, out: seq<JobId>, j: JobId)
    requires FreshIds(db.jobs, batch) && SubmitAll(db, batch, out).Done?
    ensures Announces(db, SubmitAll(db, batch, out).db, j)
    decreases |batch|
  {
    if batch != [] {
      var next := InsertJob(db, batch[0]);
      InsertAnnouncesOne(db, batch[0], j);
      FreshRest(db, batch);
      SubmitAnnounces(next, batch[1..], out + [KeyOwner(next.jobs, KeyOf(batch[0]))], j);
    }
  }

  lemma MutateAnnounces(db: Db, key: Key, payload: Payload, body: Outcome, j: JobId)
    requires body.Done? ==> Quiet(db, body.db)
    ensures Announces(db, Mutate(db, key, payload, body).0, j)
  {
    if body.Done? { QuietAnnounces(db, body.db, j); }
  }

  lemma StepAnnounces(db: Db, c: Command, j: JobId)
    requires Inv(db) && Legal(db, c)
    ensures Announces(db, Apply(db, c).0, j)
  {
    match c
    case Submit(batch) => if SubmitBody(db, batch).Done? { SubmitAnnounces(db, batch, [], j); }
    case Rpc(call, r, met) =>
      if CallBody(db, call, r, met).Done? { CallQuiet(db, call, r, met); }
      MutateAnnounces(db, RpcKey(call, r), RpcPayload(r), CallBody(db, call, r, met), j);
    case Act(action, i, id, at) =>
      if ActionBody(db, action, i, id, at).Done? { ActionQuiet(db, action, i, id, at); }
      MutateAnnounces(db, Key(ActionScope(action), id), ActionPayload(i), ActionBody(db, action, i, id, at), j);
    case Reap(scan) => ReapAnnounces(db, c, scan, j);
  }

  lemma {:induction false} RunAnnounces(db: Db, run: seq<Command>, j: JobId)
    requires Inv(db) && LegalRun(db, run)
    ensures Announces(db, Final(db, run), j)
    decreases |run|
  {
    if run != [] {
      StepAnnounces(db, run[0], j);
      StepKeeps(db, run[0]);
      RunAnnounces(Apply(db, run[0]).0, run[1..], j);
    }
  }

  /** In every reachable state each job has exactly one event of its submission, and no event of a
      submission belongs to anything else. */
  lemma AnnouncedOnce(db: Db, j: JobId)
    requires Reachable(db)
    ensures TimesAnnounced(db.events, j) == if j in db.jobs then 1 else 0
  {
    var leaseMs, run :| ReachedBy(db, leaseMs, run);
    EmptyInv(leaseMs);
    RunAnnounces(Empty(leaseMs), run, j);
  }
}
