/** What the design promises of every reachable state and of every run. */
module Guarantees {
  import opened Model
  import opened Collections
  import opened Transactions
  import opened Invariant
  import opened Evolution
  import opened Steps
  import opened Runs
  import opened Causes
  import opened Rank

  ghost predicate ReachedBy(db: Db, leaseMs: int, run: seq<Command>) {
    2000 <= leaseMs && LegalRun(Empty(leaseMs), run) && db == Final(Empty(leaseMs), run)
  }

  ghost predicate Reachable(db: Db) {
    exists leaseMs, run :: ReachedBy(db, leaseMs, run)
  }

  lemma ReachableInv(db: Db)
    requires Reachable(db)
    ensures Inv(db)
  {
    var leaseMs, run :| ReachedBy(db, leaseMs, run);
    EmptyInv(leaseMs);
    RunKeeps(Empty(leaseMs), run);
  }

  /** A job is LEASED or RUNNING exactly when it has one live attempt, which is in the same state
      and is its last; so the index one_active_attempt never has anything to reject. */
  lemma OneLiveAttempt(db: Db, j: JobId)
    requires Reachable(db) && j in db.jobs
    ensures Live(db.jobs[j].state) <==> exists a :: LiveOf(db.attempts, j) == {a}
    ensures !Live(db.jobs[j].state) <==> LiveOf(db.attempts, j) == {}
    ensures forall a :: a in LiveOf(db.attempts, j) ==>
              db.attempts[a].state == db.jobs[j].state && db.attempts[a].number == Top(db.attempts, j)
  {
    ReachableInv(db);
    forall a | a in LiveOf(db.attempts, j)
      ensures db.attempts[a].state == db.jobs[j].state && db.attempts[a].number == Top(db.attempts, j)
    {
      LiveIsTop(db, a);
    }
    if Live(db.jobs[j].state) {
      var a := LiveJobHasLive(db, j);
      forall b | b in LiveOf(db.attempts, j) ensures b == a {
        OnlyLive(db, a, b);
      }
      assert LiveOf(db.attempts, j) == {a};
    } else {
      NothingLive(db, j);
    }
  }

  /** The attempts of a job are numbered 1..n without gap or repetition, inside its budget. */
  lemma NumberedWithinBudget(db: Db, j: JobId)
    requires Reachable(db) && j in db.jobs
    ensures forall k :: HasNumber(db.attempts, j, k) <==> 1 <= k <= Top(db.attempts, j)
    ensures forall a, b :: SameSlot(db.attempts, a, b) ==> a == b
    ensures Top(db.attempts, j) <= db.jobs[j].maxAttempts
    ensures db.jobs[j].state == QUEUED ==> Top(db.attempts, j) < db.jobs[j].maxAttempts
    ensures db.jobs[j].state == FAILED ==> Top(db.attempts, j) == db.jobs[j].maxAttempts
    ensures db.jobs[j].state != EXPIRED
  {
    ReachableInv(db);
    assert JobOk(db.jobs, db.attempts, j);
    forall k | HasNumber(db.attempts, j, k) ensures 1 <= k <= Top(db.attempts, j) {
      var a :| a in db.attempts && db.attempts[a].job == j && db.attempts[a].number == k;
      assert AttemptOk(db.jobs, db.attempts, db.workers, a);
      AtMostTop(db.attempts, a);
    }
  }

  /** No command of any run is refused by a constraint of the schema or by the budget check. */
  lemma GuardsNeverFire(db: Db, c: Command)
    requires Reachable(db) && Legal(db, c)
    ensures Apply(db, c).1 != Err(Internal)
  {
    ReachableInv(db);
    StepKeeps(db, c);
  }

  /** The fence tests two times and the reaper one; yet at every instant exactly one of them has
      a live attempt, and from its deadline on it is the reaper. */
  lemma FencedOrReapable(db: Db, a: AttemptId, now: int)
    requires Reachable(db) && a in db.attempts && Live(db.attempts[a].state)
    ensures (db.attempts[a].leaseExpiresAt > now && db.attempts[a].deadlineAt > now)
            <==> !Reapable(db.attempts, db.attempts[a].job, now)
    ensures db.attempts[a].deadlineAt <= now ==> Reapable(db.attempts, db.attempts[a].job, now)
  {
    ReachableInv(db);
    assert AttemptOk(db.jobs, db.attempts, db.workers, a);
    if db.attempts[a].leaseExpiresAt <= now {
      assert ExpiredLive(db.attempts, db.attempts[a].job, now, a);
    } else if Reapable(db.attempts, db.attempts[a].job, now) {
      var b :| b in db.attempts && ExpiredLive(db.attempts, db.attempts[a].job, now, b);
      OnlyLive(db, a, b);
    }
  }

  predicate ReadingsFrom(c: Command, t: int) {
    c.Rpc? ==> t <= c.met.t0
  }

  predicate Lapsed(was: Attempt, now: Attempt) {
    now == was || (now.state in {EXPIRED, CANCELLED} && now.leaseExpiresAt == was.leaseExpiresAt)
  }

  lemma LapsedStep(db: Db, c: Command, a: AttemptId, t: int)
    requires Inv(db) && Legal(db, c) && a in db.attempts && ReadingsFrom(c, t)
    requires db.attempts[a].leaseExpiresAt <= t
    ensures a in Apply(db, c).0.attempts && Lapsed(db.attempts[a], Apply(db, c).0.attempts[a])
  {
    StepAccounts(db, c, a);
  }

  /** Once its lease has run out, an attempt can only expire or be cancelled: no stream of
      heartbeats, starts or reports brings it back. */
  lemma {:induction false} NeverRevived(db: Db, run: seq<Command>, a: AttemptId, t: int)
    requires Inv(db) && LegalRun(db, run) && a in db.attempts
    requires Live(db.attempts[a].state) && db.attempts[a].leaseExpiresAt <= t
    requires forall i :: 0 <= i < |run| ==> ReadingsFrom(run[i], t)
    ensures a in Final(db, run).attempts && Lapsed(db.attempts[a], Final(db, run).attempts[a])
    decreases |run|
  {
    if run != [] {
      var next := Apply(db, run[0]).0;
      StepKeeps(db, run[0]);
      LapsedStep(db, run[0], a, t);
      assert forall i :: 0 <= i < |run[1..]| ==> run[1..][i] == run[i + 1];
      if next.attempts[a] == db.attempts[a] {
        NeverRevived(next, run[1..], a, t);
      } else {
        RunKeeps(next, run[1..]);
        assert AttemptEvolves(next.attempts[a], Final(next, run[1..]).attempts[a]);
      }
    }
  }

  lemma {:induction false} TerminalUntilRetry(db: Db, run: seq<Command>, j: JobId)
    requires Inv(db) && LegalRun(db, run) && j in db.jobs
    requires db.jobs[j].state in {SUCCEEDED, FAILED, CANCELLED} && Retries(run, j) == 0
    ensures j in Final(db, run).jobs && Final(db, run).jobs[j].state == db.jobs[j].state
    decreases |run|
  {
    if run != [] {
      var next := Apply(db, run[0]).0;
      StepKeeps(db, run[0]);
      StepSpends(db, run[0], j);
      RankBounds(db, j);
      RankBounds(next, j);
      TerminalUntilRetry(next, run[1..], j);
    }
  }

  /** Results are final: success and cancellation for ever, failure until a manual retry, and the
      row of an ended attempt never changes again. */
  lemma ResultsAreFinal(db: Db, run: seq<Command>)
    requires Inv(db) && LegalRun(db, run)
    ensures forall j :: j in db.jobs && db.jobs[j].state in {SUCCEEDED, CANCELLED} ==>
              j in Final(db, run).jobs && Final(db, run).jobs[j].state == db.jobs[j].state
    ensures forall j :: j in db.jobs && db.jobs[j].state == FAILED && Retries(run, j) == 0 ==>
              j in Final(db, run).jobs && Final(db, run).jobs[j].state == FAILED
    ensures forall a :: a in db.attempts && !Live(db.attempts[a].state) ==>
              a in Final(db, run).attempts && Final(db, run).attempts[a] == db.attempts[a]
  {
    RunKeeps(db, run);
    forall j | j in db.jobs && db.jobs[j].state == FAILED && Retries(run, j) == 0
      ensures j in Final(db, run).jobs && Final(db, run).jobs[j].state == FAILED
    {
      TerminalUntilRetry(db, run, j);
    }
  }

  predicate Successful(db: Db, j: JobId, a: AttemptId) {
    a in db.attempts && db.attempts[a].job == j && db.attempts[a].state == SUCCEEDED
  }

  lemma SuccessfulIsTop(db: Db, j: JobId, a: AttemptId)
    requires Sound(db) && Successful(db, j, a)
    ensures j in db.jobs && db.jobs[j].state == SUCCEEDED && db.attempts[a].number == Top(db.attempts, j)
  {
    assert AttemptOk(db.jobs, db.attempts, db.workers, a);
  }

  /** A job has a successful attempt exactly when it has succeeded; it has only the one, its last. */
  lemma SucceededOnce(db: Db, j: JobId)
    requires Reachable(db) && j in db.jobs
    ensures db.jobs[j].state == SUCCEEDED <==> exists a :: Successful(db, j, a)
    ensures forall a, b :: Successful(db, j, a) && Successful(db, j, b) ==> a == b
    ensures forall a :: Successful(db, j, a) ==> db.attempts[a].number == Top(db.attempts, j)
  {
    ReachableInv(db);
    forall a | Successful(db, j, a)
      ensures db.attempts[a].number == Top(db.attempts, j) && db.jobs[j].state == SUCCEEDED
    {
      SuccessfulIsTop(db, j, a);
    }
    if db.jobs[j].state == SUCCEEDED {
      assert JobOk(db.jobs, db.attempts, j);
      var a := TopWitness(db.attempts, j);
      assert AttemptOk(db.jobs, db.attempts, db.workers, a);
      assert Successful(db, j, a);
    }
    forall a, b | Successful(db, j, a) && Successful(db, j, b) ensures a == b {
      assert SameSlot(db.attempts, a, b);
    }
  }

  /** No worker is ever asked for more than it registered: what /v1/workers reports as available
      is never negative. */
  lemma AvailableNeverNegative(db: Db, w: WorkerId)
    requires Reachable(db) && w in db.workers
    ensures NOTHING.AtMost(db.workers[w].capacity.Minus(Usage(db, w)))
  {
    ReachableInv(db);
    assert Usage(db, w).AtMost(db.workers[w].capacity);
  }

  /** What the jobs of the listed attempts need together. */
  function Needs(db: Db, ids: seq<AttemptId>): Resources
    requires forall i :: 0 <= i < |ids| ==> ids[i] in db.attempts && db.attempts[ids[i]].job in db.jobs
  {
    if ids == [] then Resources(0, 0, 0)
    else
      var rest := Needs(db, ids[1..]);
      var own := db.jobs[db.attempts[ids[0]].job].definition.resources;
      Resources(own.cpu + rest.cpu, own.memoryMb + rest.memoryMb, own.gpu + rest.gpu)
  }

  lemma {:induction false} NeedsWithinLoad(db: Db, w: WorkerId, ids: seq<AttemptId>, load: map<AttemptId, Resources>)
    requires Sound(db) && forall i, k :: 0 <= i < k < |ids| ==> ids[i] != ids[k]
    requires forall i :: 0 <= i < |ids| ==>
               ids[i] in db.attempts && db.attempts[ids[i]].job in db.jobs && ids[i] in load
               && load[ids[i]] == db.jobs[db.attempts[ids[i]].job].definition.resources
    requires forall a :: a in load ==> NOTHING.AtMost(load[a])
    ensures Needs(db, ids).AtMost(Total(load))
    decreases |ids|
  {
    if ids == [] {
      TotalNotNegative(load);
    } else {
      TotalRemove(load, ids[0]);
      NeedsWithinLoad(db, w, ids[1..], load - {ids[0]});
    }
  }

  /** However one lists attempts that a worker has leased or runs, their jobs together never need more
      of any resource than it registered. */
  lemma NeverOvercommitted(db: Db, w: WorkerId, ids: seq<AttemptId>)
    requires Reachable(db) && w in db.workers && forall i, k :: 0 <= i < k < |ids| ==> ids[i] != ids[k]
    requires forall i :: 0 <= i < |ids| ==>
               ids[i] in db.attempts && db.attempts[ids[i]].worker == w && db.attempts[ids[i]].state in {LEASED, RUNNING}
    ensures forall i :: 0 <= i < |ids| ==> ids[i] in db.attempts && db.attempts[ids[i]].job in db.jobs
    ensures var needs, capacity := Needs(db, ids), db.workers[w].capacity;
            needs.cpu <= capacity.cpu && needs.memoryMb <= capacity.memoryMb && needs.gpu <= capacity.gpu
  {
    ReachableInv(db);
    forall i | 0 <= i < |ids| ensures db.attempts[ids[i]].job in db.jobs { LiveIsTop(db, ids[i]); }
    LoadNotNegative(db, w);
    NeedsWithinLoad(db, w, ids, Load(db.jobs, db.attempts, w));
    assert Usage(db, w).AtMost(db.workers[w].capacity);
  }

  lemma LoadNotNegative(db: Db, w: WorkerId)
    requires Sound(db)
    ensures forall a :: a in Load(db.jobs, db.attempts, w) ==> NOTHING.AtMost(Load(db.jobs, db.attempts, w)[a])
  {
    forall a | a in Load(db.jobs, db.attempts, w) ensures NOTHING.AtMost(Load(db.jobs, db.attempts, w)[a]) {
      assert JobOk(db.jobs, db.attempts, db.attempts[a].job);
    }
  }
}
