/** Which checkpoint a new lease resumes from, and that resuming never goes back. */
module Checkpoints {
  import opened Model
  import opened Transactions
  import opened Invariant
  import opened Evolution
  import opened Steps
  import opened Runs
  import opened Causes

  /** The index of the last row that is ok, or -1. */
  function LastIndex(rows: seq<ArtifactRow>, ok: ArtifactRow -> bool): (i: int)
    ensures -1 <= i < |rows|
    ensures i >= 0 ==> ok(rows[i])
    ensures forall k :: i < k < |rows| ==> !ok(rows[k])
  {
    if rows == [] then -1
    else if ok(rows[|rows| - 1]) then |rows| - 1
    else LastIndex(rows[..|rows| - 1], ok)
  }

  function MetaAt(rows: seq<ArtifactRow>, i: int): Option<Artifact>
    requires i < |rows|
  {
    if i < 0 then None else Some(rows[i].meta)
  }

  predicate IsCheckpoint(row: ArtifactRow, j: JobId) {
    row.job == j && row.meta.kind == Checkpoint
  }

  function ForJob(j: JobId): ArtifactRow -> bool {
    row => IsCheckpoint(row, j)
  }

  /** Checkpoints of job j committed by attempts numbered below n. */
  function Below(attempts: map<AttemptId, Attempt>, j: JobId, n: int): ArtifactRow -> bool {
    row => IsCheckpoint(row, j) && row.attempt in attempts && attempts[row.attempt].number < n
  }

  lemma {:induction false} LastCheckpointIs(rows: seq<ArtifactRow>, j: JobId)
    ensures LastCheckpoint(rows, j) == MetaAt(rows, LastIndex(rows, ForJob(j)))
  {
    if rows != [] && !IsCheckpoint(rows[|rows| - 1], j) {
      LastCheckpointIs(rows[..|rows| - 1], j);
    }
  }

  /** What two predicates agree on, they find at the same index. */
  lemma SameLast(rows: seq<ArtifactRow>, ok: ArtifactRow -> bool, also: ArtifactRow -> bool)
    requires forall k :: 0 <= k < |rows| ==> ok(rows[k]) == also(rows[k])
    ensures LastIndex(rows, ok) == LastIndex(rows, also)
  {
    var i, k := LastIndex(rows, ok), LastIndex(rows, also);
    assert i >= 0 ==> also(rows[i]);
    assert k >= 0 ==> ok(rows[k]);
  }

  /** The checkpoint handed to a lease was committed by the highest-numbered attempt that committed
      one, and is the last that attempt reported. */
  lemma CheckpointIsNewest(db: Db, j: JobId)
    requires Inv(db)
    ensures var i := LastIndex(db.artifacts, ForJob(j));
            && LastCheckpoint(db.artifacts, j) == MetaAt(db.artifacts, i)
            && forall k :: 0 <= k < |db.artifacts| && IsCheckpoint(db.artifacts[k], j) ==>
                 k <= i && db.artifacts[k].attempt in db.attempts && db.artifacts[i].attempt in db.attempts
                 && db.attempts[db.artifacts[k].attempt].number <= db.attempts[db.artifacts[i].attempt].number
  {
    LastCheckpointIs(db.artifacts, j);
    var rows, i := db.artifacts, LastIndex(db.artifacts, ForJob(j));
    forall k | 0 <= k < |rows| && IsCheckpoint(rows[k], j)
      ensures k <= i && rows[k].attempt in db.attempts && rows[i].attempt in db.attempts
      ensures db.attempts[rows[k].attempt].number <= db.attempts[rows[i].attempt].number
    {
      assert ForJob(j)(rows[k]);
      assert OfAttempt(db.attempts, rows[k]) && OfAttempt(db.attempts, rows[i]);
    }
  }

  // ------------------------------------------------------------------ the resume point stays what it was

  lemma {:induction false} ReapKeepsArtifacts(db: Db, scan: seq<Slot>)
    ensures ReapAll(db, scan).artifacts == db.artifacts
    decreases |scan|
  {
    if scan != [] { ReapKeepsArtifacts(ExpireJob(db, scan[0]), scan[1..]); }
  }

  lemma StepArtifacts(db: Db, c: Command)
    requires Inv(db) && Legal(db, c)
    ensures ArtifactsAdded(db, Apply(db, c).0)
  {
    match c
    case Submit(batch) => SubmitLeavesAttempts(db, batch, []);
    case Reap(scan) => ReapKeepsArtifacts(db, scan);
    case Rpc(call, r, met) => var m := CallMove(db, call, r, met);
    case Act(action, j, id, at) => var m := ActionMove(db, action, j, id, at);
  }

  /** Numbers only grow. */
  lemma TopGrows(db: Db, after: Db, j: JobId)
    requires Sound(db) && AttemptsEvolve(db.attempts, after.attempts) && Sound(after)
    ensures Top(db.attempts, j) <= Top(after.attempts, j)
  {
    TopNotNegative(after, j);
    if Top(db.attempts, j) != 0 {
      var a := TopWitness(db.attempts, j);
      assert AttemptEvolves(db.attempts[a], after.attempts[a]);
      AtMostTop(after.attempts, a);
    }
  }

  /** New rows, all by attempts numbered n or more, do not change what lies below n. */
  lemma BelowKept(db: Db, after: Db, j: JobId, n: int)
    requires Inv(db) && AttemptsEvolve(db.attempts, after.attempts) && ArtifactsAdded(db, after)
    requires n <= Top(db.attempts, j)
    ensures MetaAt(after.artifacts, LastIndex(after.artifacts, Below(after.attempts, j, n)))
            == MetaAt(db.artifacts, LastIndex(db.artifacts, Below(db.attempts, j, n)))
  {
    var rows, more := db.artifacts, after.artifacts;
    var ok, later := Below(db.attempts, j, n), Below(after.attempts, j, n);
    forall k | 0 <= k < |rows| ensures ok(rows[k]) == later(more[k]) {
      assert OfAttempt(db.attempts, rows[k]);
      assert AttemptEvolves(db.attempts[rows[k].attempt], after.attempts[rows[k].attempt]);
    }
    forall k | |rows| <= k < |more| ensures !later(more[k]) {
      LiveIsTop(db, more[k].attempt);
    }
    var i, l := LastIndex(rows, ok), LastIndex(more, later);
    if l >= 0 { assert l < |rows|; assert ok(rows[l]); }
    if i >= 0 { assert later(more[i]); }
    assert i == l;
  }

  lemma {:induction false} BelowKeptByRun(db: Db, run: seq<Command>, j: JobId, n: int)
    requires Inv(db) && LegalRun(db, run) && n <= Top(db.attempts, j)
    ensures var after := Final(db, run);
            MetaAt(after.artifacts, LastIndex(after.artifacts, Below(after.attempts, j, n)))
            == MetaAt(db.artifacts, LastIndex(db.artifacts, Below(db.attempts, j, n)))
    decreases |run|
  {
    if run != [] {
      var next := Apply(db, run[0]).0;
      StepKeeps(db, run[0]);
      StepArtifacts(db, run[0]);
      BelowKept(db, next, j, n);
      TopGrows(db, next, j);
      BelowKeptByRun(next, run[1..], j, n);
    }
  }

  lemma LeaseFacts(db: Db, r: Request, met: Circumstances)
    requires CallBody(db, LeaseJob, r, met).Done? && CallBody(db, LeaseJob, r, met).response.Leased?
    ensures var body := CallBody(db, LeaseJob, r, met);
            var l := body.response.lease;
            && l.number == Top(db.attempts, l.job) + 1 && l.checkpoint == LastCheckpoint(db.artifacts, l.job)
            && l.attempt in body.db.attempts && body.db.attempts[l.attempt].job == l.job
            && body.db.attempts[l.attempt].number == l.number
            && body.db.artifacts == db.artifacts
  {
  }

  lemma LeaseResumesFrom(db: Db, r: Request, met: Circumstances, after: Db, run: seq<Command>)
    requires Inv(db) && Legal(db, Rpc(LeaseJob, r, met))
    requires CallBody(db, LeaseJob, r, met).Done? && CallBody(db, LeaseJob, r, met).response.Leased?
    requires after.attempts == CallBody(db, LeaseJob, r, met).db.attempts && after.artifacts == db.artifacts
    requires Inv(after) && AttemptsEvolve(db.attempts, after.attempts) && LegalRun(after, run)
    ensures var l := CallBody(db, LeaseJob, r, met).response.lease;
            var later := Final(after, run);
            l.checkpoint == MetaAt(later.artifacts, LastIndex(later.artifacts, Below(later.attempts, l.job, l.number)))
  {
    LeaseFacts(db, r, met);
    var l := CallBody(db, LeaseJob, r, met).response.lease;
    LastCheckpointIs(db.artifacts, l.job);
    forall k | 0 <= k < |db.artifacts|
      ensures ForJob(l.job)(db.artifacts[k]) == Below(after.attempts, l.job, l.number)(db.artifacts[k])
    {
      assert OfAttempt(db.attempts, db.artifacts[k]);
      AtMostTop(db.attempts, db.artifacts[k].attempt);
      assert AttemptEvolves(db.attempts[db.artifacts[k].attempt], after.attempts[db.artifacts[k].attempt]);
    }
    SameLast(db.artifacts, ForJob(l.job), Below(after.attempts, l.job, l.number));
    AtMostTop(after.attempts, l.attempt);
    BelowKeptByRun(after, run, l.job, l.number);
  }

  lemma LeaseTables(db: Db, r: Request, met: Circumstances)
    requires RpcKey(LeaseJob, r) !in db.requests
    requires Apply(db, Rpc(LeaseJob, r, met)).1.Ok? && Apply(db, Rpc(LeaseJob, r, met)).1.response.Leased?
    ensures var body := CallBody(db, LeaseJob, r, met);
            && body.Done? && body.response == Apply(db, Rpc(LeaseJob, r, met)).1.response
            && Apply(db, Rpc(LeaseJob, r, met)).0.attempts == body.db.attempts
            && Apply(db, Rpc(LeaseJob, r, met)).0.artifacts == body.db.artifacts
  {
  }

  /** At any later time the checkpoint a lease was given is still the last one committed by an
      earlier attempt: nothing committed afterwards could have been meant for it. */
  lemma LeaseResumes(db: Db, r: Request, met: Circumstances, run: seq<Command>)
    requires Inv(db) && Legal(db, Rpc(LeaseJob, r, met)) && RpcKey(LeaseJob, r) !in db.requests
    requires Apply(db, Rpc(LeaseJob, r, met)).1.Ok? && Apply(db, Rpc(LeaseJob, r, met)).1.response.Leased?
    requires LegalRun(Apply(db, Rpc(LeaseJob, r, met)).0, run)
    ensures var l := Apply(db, Rpc(LeaseJob, r, met)).1.response.lease;
            var later := Final(Apply(db, Rpc(LeaseJob, r, met)).0, run);
            l.checkpoint == MetaAt(later.artifacts, LastIndex(later.artifacts, Below(later.attempts, l.job, l.number)))
  {
    LeaseTables(db, r, met);
    LeaseFacts(db, r, met);
    StepKeeps(db, Rpc(LeaseJob, r, met));
    LeaseResumesFrom(db, r, met, Apply(db, Rpc(LeaseJob, r, met)).0, run);
  }

  // ------------------------------------------------------------------ resuming never goes back

  /** Row k moves on from where its attempt resumed and from what its attempt reported before. */
  ghost predicate MovesOn(db: Db, j: JobId, step: Artifact -> int, k: int)
    requires 0 <= k < |db.artifacts| && db.artifacts[k].attempt in db.attempts
  {
    var rows := db.artifacts;
    var resume := LastIndex(rows, Below(db.attempts, j, db.attempts[rows[k].attempt].number));
    && (resume >= 0 ==> step(rows[resume].meta) < step(rows[k].meta))
    && forall i :: 0 <= i < k && IsCheckpoint(rows[i], j) && rows[i].attempt == rows[k].attempt ==>
         step(rows[i].meta) < step(rows[k].meta)
  }

  /** A program that checkpoints increasing steps from its resume point, as the example counter does. */
  ghost predicate WellBehaved(db: Db, j: JobId, step: Artifact -> int) {
    forall k :: 0 <= k < |db.artifacts| && IsCheckpoint(db.artifacts[k], j) ==>
      db.artifacts[k].attempt in db.attempts && MovesOn(db, j, step, k)
  }

  lemma {:induction false} StepsIncrease(db: Db, j: JobId, step: Artifact -> int, i: int, k: int)
    requires Inv(db) && WellBehaved(db, j, step) && 0 <= i < k < |db.artifacts|
    requires IsCheckpoint(db.artifacts[i], j) && IsCheckpoint(db.artifacts[k], j)
    ensures step(db.artifacts[i].meta) < step(db.artifacts[k].meta)
    decreases k
  {
    var rows := db.artifacts;
    assert MovesOn(db, j, step, k);
    if rows[i].attempt != rows[k].attempt {
      assert OfAttempt(db.attempts, rows[i]) && OfAttempt(db.attempts, rows[k]);
      assert !SameSlot(db.attempts, rows[i].attempt, rows[k].attempt);
      var n := db.attempts[rows[k].attempt].number;
      assert Below(db.attempts, j, n)(rows[i]);
      var p := LastIndex(rows, Below(db.attempts, j, n));
      assert Below(db.attempts, j, n)(rows[p]);
      if i < p { StepsIncrease(db, j, step, i, p); }
    }
  }

  lemma LaterResume(db: Db, after: Db, j: JobId, step: Artifact -> int)
    requires Inv(after) && db.artifacts <= after.artifacts && WellBehaved(after, j, step)
    requires LastCheckpoint(db.artifacts, j).Some?
    ensures LastCheckpoint(after.artifacts, j).Some?
    ensures step(LastCheckpoint(db.artifacts, j).value) <= step(LastCheckpoint(after.artifacts, j).value)
  {
    LastCheckpointIs(db.artifacts, j);
    LastCheckpointIs(after.artifacts, j);
    var i, k := LastIndex(db.artifacts, ForJob(j)), LastIndex(after.artifacts, ForJob(j));
    assert after.artifacts[i] == db.artifacts[i];
    assert ForJob(j)(after.artifacts[i]);
    if i < k { StepsIncrease(after, j, step, i, k); }
  }

  /** Across any sequence of crashes, expiries and retries the step a job resumes from never falls. */
  lemma ResumeNeverGoesBack(db: Db, run: seq<Command>, j: JobId, step: Artifact -> int)
    requires Inv(db) && LegalRun(db, run) && WellBehaved(Final(db, run), j, step)
    requires LastCheckpoint(db.artifacts, j).Some?
    ensures LastCheckpoint(Final(db, run).artifacts, j).Some?
    ensures step(LastCheckpoint(db.artifacts, j).value) <= step(LastCheckpoint(Final(db, run).artifacts, j).value)
  {
    RunKeeps(db, run);
    LaterResume(db, Final(db, run), j, step);
  }
}
